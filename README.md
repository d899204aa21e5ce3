# first-steps-with-memgraph, modelled in Dafny

This project models the control logic of a small GraphRAG loader and search layer for Memgraph.

- **Ingestion (`load_to_mem.py`).**
  - `convert_numpy_types` normalises parquet records into native values.
  - `execute_with_retry` tries a store call up to five times on `GQLAlchemyDatabaseError`.
  - `batched_import` submits a frame in slices of `batch_size` rows. A slice that fails is re-imported alone with half the batch size.
  - The script creates six uniqueness constraints, best effort, and then runs six imports in a fixed order.
- **Hybrid search (`searches/hybrid_search.py`).** Eight result lists are merged into one dictionary with per-strategy weights. The merged entries are then sorted by score, largest first, and cut to `limit`.
- **Keyword search (`searches/keyword_search.py`).**
  - The query is tokenised with `re.findall(r'\w+', query.lower())`.
  - The Cypher query's filter, count, order and limit contract is stated as a reference function over the graph's chunks.
  - The fetched rows are reshaped into hits.

The graph store is a class (`GraphStore.Store`). It records every call it receives in a `log` and answers through an oracle `respond: nat -> Reply`, indexed by call number, with these replies:
- completed;
- `GQLAlchemyDatabaseError`;
- any other exception.

Every behaviour a real store can show over one run is an instance of this oracle.

The imperative parts are methods proved against specification functions:
- `ExecuteWithRetry` is proved against `Retry`.
- `BatchedImport`, `ImportRange` and `ImportBatch` are proved against `Import`, `Loop` and `TurnAt`.
- `CreateConstraints` and the stage methods are proved against `ConstraintCalls` and `RunStages`.
- The hybrid merge loops are proved against `AssignAll`/`AddAll` folds.

The properties the code promises are then lemmas about those functions.

Modules, one per file:
- `TypeNormalizer` (normalize.dfy);
- `GraphStore` (store.dfy);
- `Ingestion` (ingest.dfy);
- `ImportProperties` (import_props.dfy);
- `Pipeline` (pipeline.dfy);
- `Script` (script.dfy: the script's constraint texts, its statement templates, and the script as a whole);
- `StableSort` (sorting.dfy: Python's stable `sorted(..., reverse=True)`);
- `KeywordSearch` (keyword.dfy);
- `HybridSearch` (fusion.dfy);
- `FusionProperties` (fusion_props.dfy).

## Model

| member | source | states |
|---|---|---|
| TypeNormalizer.Convert | load_to_mem.py:20-34 | The result holds no numpy integer, floating or array value reachable through dict values, list elements and numeric array items. A numpy integer or float becomes the native int or float of the same value. An ndarray of at least one dimension becomes a list of the same length. A dict keeps its keys in order. A list keeps its length. Every other value, a tuple included, is returned unchanged. |
| TypeNormalizer.ToList | load_to_mem.py:24-25 | `ndarray.tolist()`: one native value per item, in order, with nested rows as native lists. |
| TypeNormalizer.ConvertElementwise | load_to_mem.py:30-33 | Entry k of a converted dict is (key k, converted value k). Element k of a converted list is the converted element k. |
| TypeNormalizer.NormalizedIsFixpoint | load_to_mem.py:20-34 | A value with no numpy part reachable through dict values and list elements is returned unchanged. |
| TypeNormalizer.ConvertIdempotent | load_to_mem.py:20-34 | Converting twice gives the same as converting once. |
| TypeNormalizer.NormalizedIffFixed | load_to_mem.py:20-34 | A value has no numpy part reachable through dict values and list elements if and only if the converter leaves it unchanged. Tuples are not looked into, by either side. |
| TypeNormalizer.ConvertRecords | load_to_mem.py:46 | Each record of a batch is converted, in order, and none keeps a numpy value reachable through dict values and list elements. |
| GraphStore.Store.Execute | load_to_mem.py:18 | `memgraph.execute`: the call is appended to the log, and the reply is the oracle's answer for that call's number. |
| Ingestion.RetryLoop | load_to_mem.py:16-18 | Definition of the decorator's loop from try n on: between n − t + 1 and 5 tries are made in all. Characterised by RetryCharacterised. |
| Ingestion.Retry | load_to_mem.py:16-18 | Definition: `execute_with_retry` from store call t. Characterised by RetryCharacterised. |
| Ingestion.RetryCharacterised | load_to_mem.py:16-18 | Between 1 and 5 tries are made. Every try but the last raised `GQLAlchemyDatabaseError`. The result is the last try's reply. The error escapes exactly when all five tries raised it. A first reply that is not that error ends the retries after one try. |
| Ingestion.ExecuteWithRetry | load_to_mem.py:16-18 | The method's reply and try count are those of `Retry`. The log gains the identical call once per try. |
| Ingestion.Import | load_to_mem.py:36-62 | Definition of `batched_import` over rows [lo, hi): every try it makes lies inside [lo, hi). Characterised by ImportCovers, ImportFailure, ImportDepth and ImportTop. |
| Ingestion.Loop | load_to_mem.py:43-59 | Definition of the `for start in range(...)` loop from `start` on: every try lies inside [start, hi). Characterised by LoopCovers, LoopFailure, LoopDepth and LoopTop. |
| Ingestion.TurnAt | load_to_mem.py:44-56 | Definition of one loop turn: at least one try, all inside the slice. Characterised by TurnShape, TurnCovers, TurnFailure and TurnDepth. |
| Ingestion.ImportBatch | load_to_mem.py:44-56 | One loop turn. The converted slice is submitted through the retry. On `GQLAlchemyDatabaseError`, that slice alone is re-imported with `batch_size // 2`. The turn and the calls it logs are those of `TurnAt`, and an error escaping the re-import is returned. |
| Ingestion.ImportRange | load_to_mem.py:41-62 | The loop over `range(lo, hi, b)`. The outcome and the logged calls are those of `Import`. A zero batch size raises before any call. |
| Ingestion.BatchedImport | load_to_mem.py:36-62 | `batched_import(statement, df, b)`. It returns or raises exactly as `Import(0, len(df), b)` does, and logs exactly that run's calls. |
| ImportProperties.BatchesPartition | load_to_mem.py:43-44 | Slice k starts at lo + k·b and ends at min(start + b, hi). The slices are contiguous and in order, run from lo to hi, and number ceil((hi − lo)/b). |
| ImportProperties.BatchesCover | load_to_mem.py:43-44 | Every row of [lo, hi) lies in some slice. |
| ImportProperties.RunWithoutFailures | load_to_mem.py:43-62 | If every store call completes, the import returns the row count. It makes exactly one successful try per slice, at the top level. |
| ImportProperties.CleanRun | load_to_mem.py:43-52 | If every store call completes, `batched_import` returns `len(df)`. Its calls are exactly one per slice, in order. Each call is `"UNWIND $rows AS value " + statement` with the converted records of its slice. |
| ImportProperties.ImportCovers | load_to_mem.py:41-62 | If the import returns, it returns the number of rows, and every row was in a submission the store completed. |
| ImportProperties.LevelsIsLog | load_to_mem.py:56 | The number of halvings before the batch size reaches 0 is floor(log2 b) + 1. |
| ImportProperties.ImportDepth | load_to_mem.py:43-56 | Every try is at most Levels(b) − 1 levels below the first call. A try k levels down submits at most b // 2^k rows. |
| ImportProperties.ImportFailure | load_to_mem.py:43-56 | When the import raises, there are two explanations. Either some try raised an exception other than `GQLAlchemyDatabaseError`, or, for a positive batch size, a single row was still rejected at batch size 1, the deepest level, so that `range(.., .., 0)` raised. |
| ImportProperties.TurnShape | load_to_mem.py:47-56 | The batch's own try comes first, over its full slice. Only a `GQLAlchemyDatabaseError` is followed by deeper tries, and all of those lie inside the slice. |
| ImportProperties.ImportTop | load_to_mem.py:43-56 | The top-level tries are the slices [0, B), [B, 2B), … in order: a prefix of them when the import raises, all of them when it returns. A failing batch's re-import does not alter the slices of the other batches. |
| Pipeline.CreateConstraints | load_to_mem.py:74-79 | Each constraint is sent once, in list order, without parameters. Whatever the store answers, the loop goes on. |
| Pipeline.RunStage | load_to_mem.py:93-213 | Definition of one stage: `batched_import(statement, df)` with the default batch size of 100. Characterised through Import's lemmas and RunStagesQueries. |
| Pipeline.RunStages | load_to_mem.py:93-213 | The completed stages are a prefix of the stage list. A failed stage adds exactly one call block. The run has no failure exactly when every stage completed. |
| Pipeline.RunStagesQueries | load_to_mem.py:93-213 | Stage k's calls all carry `"UNWIND $rows AS value " + statement(k)`, so the log is the stages' calls in stage order. No stage after a failed one sends anything. |
| Pipeline.ImportStages | load_to_mem.py:93-213 | The six imports run in the order of the stage list. An error escaping one of them ends the script, and the log is exactly the calls of the stages that started. |
| Pipeline.RunPipeline | load_to_mem.py:64-213 | The script after connecting: the constraint calls, then the six stages in the order documents, chunks, entities, relationships, communities, community reports. The result and log are those of `RunStages` over that order. |
| Script.RunScript | load_to_mem.py:64-213 | The script's own constraint texts are sent first, then the six stages in order. Every call of stage k carries `"UNWIND $rows AS value "` followed by that stage's template from load_to_mem.py, and the outcome and log are those of `RunStages`. |
| KeywordSearch.FindWords | searches/keyword_search.py:7 | Definition of `re.findall(r'\w+', s)`. Characterised by FindWordsAreWords, FindWordsConcat, FindWordsEmpty, FindWordsOfWord and FindWordsSplit. |
| KeywordSearch.Keywords | searches/keyword_search.py:7 | Definition: `FindWords` of the lowercased query. Characterised by KeywordsContract. |
| KeywordSearch.WordRun | searches/keyword_search.py:7 | The length of the longest prefix made of word characters: maximal, and made only of word characters. |
| KeywordSearch.FindWordsAreWords | searches/keyword_search.py:7 | Every keyword is a non-empty run of word characters that occurs in the text. |
| KeywordSearch.FindWordsConcat | searches/keyword_search.py:7 | Concatenating the keywords gives the text with its non-word characters removed. |
| KeywordSearch.FindWordsEmpty | searches/keyword_search.py:7 | There are no keywords if and only if the text has no word character. |
| KeywordSearch.FindWordsOfWord | searches/keyword_search.py:7 | A single run of word characters yields exactly itself. |
| KeywordSearch.FindWordsSplit | searches/keyword_search.py:7 | A non-word character separates: the keywords of x + [c] + y are those of x followed by those of y. |
| KeywordSearch.KeywordsContract | searches/keyword_search.py:7 | For the lowercased query: every keyword is a word occurring in it, and their concatenation is its word characters. The list is empty if and only if the query has no word character. |
| KeywordSearch.MatchCount | searches/keyword_search.py:12-13 | At most the number of listed keywords, with a repeated keyword counted each time it is listed. Positive if and only if some keyword occurs in the text. |
| KeywordSearch.MatchingRows | searches/keyword_search.py:11-13 | A row passes the `WHERE` clause exactly when its chunk is in the graph and contains a keyword. Its `matches` is that chunk's match count. |
| KeywordSearch.Matching | searches/keyword_search.py:11-13 | Definition of the `MATCH ... WHERE ... WITH` part, in node order. Characterised by MatchingRows. |
| KeywordSearch.KeywordQuery | searches/keyword_search.py:10-17 | Definition of one admissible answer of the whole query. Characterised by KeywordQueryContract. |
| KeywordSearch.KeywordQueryContract | searches/keyword_search.py:10-17 | The reference answer has min(limit, number of matching chunks) rows. Each is a matching chunk with its count, ordered by non-increasing `matches`, drawn from the matching rows, and no matching row left out has a higher count than one kept. |
| KeywordSearch.Reshape | searches/keyword_search.py:23 | The row count and order are kept. `chunk_id` and `text` are copied, and `relevance_score = matches`. |
| KeywordSearch.Search | searches/keyword_search.py:5-23 | Definition of `keyword_search` over the reference answer: tokenise, query, reshape. Characterised by SearchContract with r = KeywordQuery(...), an admissible answer by KeywordQueryContract. |
| KeywordSearch.SearchContract | searches/keyword_search.py:5-23 | End to end, for every answer the store may give to the query (any tie order): there are min(limit, number of matching chunks) hits. Each hit is a chunk of the graph scored by its positive match count against the query's keywords, and scores never increase down the list. |
| StableSort.SortDesc | searches/hybrid_search.py:73 | Definition of `sorted(..., reverse=True)` as a stable insertion sort, keeping the length. Characterised by SortDescSorted, SortDescPermutes, SortDescStable and SortDescDistinct. |
| StableSort.SortDescSorted | searches/hybrid_search.py:73 | `sorted(..., reverse=True)` orders by non-increasing key. |
| StableSort.SortDescPermutes | searches/hybrid_search.py:73 | The sort only reorders: same multiset. |
| StableSort.SortDescStable | searches/hybrid_search.py:73 | Elements with equal keys keep their input order. |
| StableSort.SortDescDistinct | searches/hybrid_search.py:73 | Sorting a list without repetitions gives one without repetitions. |
| HybridSearch.AssignAll | searches/hybrid_search.py:26-27 | Definition of the keyword loop as a fold of `combined_results[id] = {...}`. Characterised by AssignAllEntries and AssignAllOrder. |
| HybridSearch.AddAll | searches/hybrid_search.py:29-70 | Definition of an adding loop as a fold. Characterised by AddAllEntries and AddAllOrder. |
| HybridSearch.Combined | searches/hybrid_search.py:24-70 | Definition of `combined_results` after the eight loops in source order. Characterised by CombinedEntries, ScoreFormula, CombinedOrder and CombinedWellFormed. |
| HybridSearch.Ranked | searches/hybrid_search.py:73-75 | Definition of the sort by score, the `[:limit]` cut and the output records. Characterised by RankedContract. |
| HybridSearch.MergeKeyword | searches/hybrid_search.py:24-27 | The keyword loop leaves the dictionary of `AssignAll(Empty, hits)`. |
| HybridSearch.Merge | searches/hybrid_search.py:29-63 | An adding loop. A present key gains the amount, and a new key is inserted at the end of the order. The result equals `AddAll` of the contributions. |
| HybridSearch.MergeCommunityDetection | searches/hybrid_search.py:65-70 | The nested loop adds each row's relevance × 1.5 to every listed entity, row after row. |
| HybridSearch.PrefixSlice | searches/hybrid_search.py:73 | Python's `[:limit]`: a prefix of length min(limit, n), or max(n + limit, 0) for a negative limit. |
| HybridSearch.Search | searches/hybrid_search.py:24-75 | The answer of the eight loops followed by the sort and slice is `Ranked(Combined(results), limit)`. |
| HybridSearch.CombinedWellFormed | searches/hybrid_search.py:24-70 | The merged dictionary lists each of its keys exactly once in insertion order. |
| FusionProperties.AssignAllEntries | searches/hybrid_search.py:26-27 | A chunk is present exactly when some keyword hit names it. Its entry is the text and score of the last such hit: repeats overwrite, they are not summed. |
| FusionProperties.AddAllEntries | searches/hybrid_search.py:29-70 | After an adding loop, a key is present if it already was or some contribution names it. Its text is the old one, or else that of the first contribution naming it. Its score is the old one (or 0) plus every contribution to it. |
| FusionProperties.CombinedEntries | searches/hybrid_search.py:24-70 | Over all eight loops: a key is present if and only if some hit names it. Its text is that of the last keyword hit for it, or else that of the first other hit, in loop order. Its score is the keyword score plus all other contributions. |
| FusionProperties.WeightedTotal | searches/hybrid_search.py:29-70 | Multiplying a strategy's hits by its weight multiplies the total that strategy adds to every key by the same weight. |
| FusionProperties.TotalSplit | searches/hybrid_search.py:29-70 | The added total for a key is the sum, over the seven adding strategies in source order, of each strategy's weighted contributions. |
| FusionProperties.ScoreFormula | searches/hybrid_search.py:26-70 | A merged score is the keyword `relevance_score` plus, for each hit of each other strategy, its value times 2, 1.5, 1, 3, 2.5, 2 and 1.5 respectively. |
| FusionProperties.CombinedOrder | searches/hybrid_search.py:24-70 | Keys are ordered by the first time any loop met them. |
| FusionProperties.RankedStable | searches/hybrid_search.py:73 | Among equal scores, the answer keeps the dictionary's insertion order. |
| FusionProperties.RankedBest | searches/hybrid_search.py:73 | No key missing from the answer scores above an element of the answer. |
| FusionProperties.RankedContract | searches/hybrid_search.py:73-75 | The answer has min(limit, number of keys) elements, with Python slice semantics for a negative limit. Each element repeats its dictionary entry. Ids are distinct, scores never increase, ties keep insertion order, and nothing left out scores higher. |
| FusionProperties.NoResults | searches/hybrid_search.py:24-75 | With all eight lists empty, the dictionary is empty and so is the answer. |

## Left out

- I/O and time are not modelled, because they do not affect what is sent:
  - the Memgraph connection;
  - the parquet reads, so the record frames and the fetched search results are parameters;
  - every `print`, including the progress milestone test at load_to_mem.py:58;
  - `time.time()`.
- Ingestion.ExecuteWithRetry: the exponential sleeps of `backoff.expo` are not modelled, only the number of tries and which exception ends them.
- The Cypher templates' effects on the graph (`MERGE`, `SET`, `UNWIND`, `MATCH`) belong to the store. The model records each call's text and parameters but not what the store does with them. The store's answers do not depend on a call's content.
- The constraint texts and statement templates are passed to the store unread: `Script.RunScript` runs `Pipeline.RunPipeline` on the script's own texts, and no part of the model interprets them.
- The semantic, entity, community, PageRank, node2vec, betweenness and community-detection searches run inside the store or an ML model. Their outputs are inputs of HybridSearch.Search.
- KeywordSearch works on the store's answer to one Cypher query, taken as a reference function over the graph's chunks. The query is not sent through GraphStore.Store.
- HybridSearch.Search: absent (null) scores and the `TypeError` they cause are not modelled. Amounts in the model are always reals. In the source:
  - A PageRank hit with `rank` None, or a betweenness hit with `importance` None, raises at once in `None * 3` (searches/hybrid_search.py:49/51) or `None * 2` (:61/:63). Neither stores a None score.
  - Only a community hit with `rank` None can store one: for a new key it stores `score: None` at :45, while for a key already present the `+=` at :43 raises at once.
  - A stored None raises later only in two cases: at a `+=` on the same key (:49, :55, :61 or :68), or in the `sorted` at :73 when at least one other entry exists. Otherwise `hybrid_search` returns that entry with `score: None`.
- Scores are exact reals, so IEEE rounding is not modelled. `entity_matches` and the keyword score are taken as reals.
- `\w` and `str.lower()` are modelled on ASCII: letters, digits and `_` are word characters, and only A–Z are lowercased. Python's Unicode rules for both are left out.
- TypeNormalizer.Convert: the items of an object-dtype array are not converted by `tolist()`, so a numpy scalar or array stored in one survives `convert_numpy_types`. The model's array items are only integers, floats and nested rows, so it neither represents nor converts such items. The numpy scalar kinds the converter does not test for (`np.bool_`, complex, `datetime64`/`timedelta64`, `np.str_`) reach `return obj` and stay numpy values; the model has no variant for them. A 0-d ndarray, which `tolist()` turns into a Python scalar rather than a list, is not representable either: every model array has a sequence of items.
- TypeNormalizer.ToList: numpy's internal conversion of item types is abstracted to integer, floating and nested-row items. Tuples are opaque, as the converter does not look inside them.
- The `community` field of a community-detection hit is stored as the text `str(result['community'])` renders to. Python's formatting of other types is not modelled.
- Ingestion.BatchedImport: the batch size is a `nat`, so a negative `batch_size` is not modelled.
- KeywordSearch.KeywordQuery: `limit` is a `nat`, so a negative Cypher `LIMIT` (which the store rejects) is not modelled.
- KeywordSearch.KeywordQuery: the Cypher `ORDER BY matches DESC` leaves the order of ties to the store. KeywordQuery is one admissible answer, with ties in node order. KeywordAnswer states only what the query text promises, and SearchContract holds for every answer that meets it.
- HybridSearch: result keys (`entity_id`, `chunk_id`, `community_id`, the community-detection `entities`) are abstracted to strings compared by string equality. In the source they are whatever the store returns, matched as dict keys by Python equality. There, `5` and `"5"` are different keys, while `1`, `1.0` and `True` are one key.
- The imports at searches/hybrid_search.py:7 and 9 name modules `pagerank_search` and `betweenness_search`, while the files are `page_rank.py` and `betweeness_search.py`. Module resolution is outside the model.
- The output comprehension at searches/hybrid_search.py:75 is folded into the `Fused(id, text, score)` records that `Ranked` returns.
