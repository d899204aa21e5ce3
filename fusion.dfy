/**
 * Hybrid search: the merge of eight ranked result lists into one dictionary
 * keyed by node id, with per-strategy weights, followed by a stable sort on
 * the merged score and a cut to `limit`.
 *
 * The dictionary is a `map` from key to entry together with the sequence of
 * its keys in insertion order, the order in which Python iterates it.
 */
module HybridSearch {
  import opened StableSort
  import KeywordSearch

  // ---------------------------------------------------------------------
  // The eight result lists
  // ---------------------------------------------------------------------

  type KeywordHit = KeywordSearch.KeywordHit

  datatype SemanticHit = SemanticHit(entityId: string, description: string, similarity: real)
  datatype EntityHit = EntityHit(chunkId: string, text: string, entityMatches: real)
  datatype CommunityHit = CommunityHit(communityId: string, summary: string, rank: real)
  datatype PageRankHit = PageRankHit(entityId: string, description: string, rank: real)
  datatype Node2VecHit = Node2VecHit(entityId: string, description: string, similarity: real)
  datatype BetweennessHit = BetweennessHit(entityId: string, description: string, importance: real)
  /** `community` is the text `str(result['community'])` renders to. */
  datatype CommunityDetectionHit = CommunityDetectionHit(community: string, entities: seq<string>, relevance: real)

  datatype SearchResults = SearchResults(
    keyword: seq<KeywordHit>,
    semantic: seq<SemanticHit>,
    entity: seq<EntityHit>,
    community: seq<CommunityHit>,
    pagerank: seq<PageRankHit>,
    node2vec: seq<Node2VecHit>,
    betweenness: seq<BetweennessHit>,
    communityDetection: seq<CommunityDetectionHit>)

  const SemanticWeight: real := 2.0
  const EntityWeight: real := 1.5
  const CommunityWeight: real := 1.0
  const PageRankWeight: real := 3.0
  const Node2VecWeight: real := 2.5
  const BetweennessWeight: real := 2.0
  const CommunityDetectionWeight: real := 1.5

  const CommunityTextPrefix: string := "Part of community "

  // ---------------------------------------------------------------------
  // Contributions: what one hit adds to the dictionary
  // ---------------------------------------------------------------------

  /** A hit's key, the text it would insert, and the score it adds. */
  datatype Contribution = Contribution(key: string, text: string, amount: real)

  /** The contribution with its amount multiplied by the weight `w`. */
  function Scaled(c: Contribution, w: real): Contribution {
    Contribution(c.key, c.text, c.amount * w)
  }

  /** The same contributions with every amount multiplied by `w`. */
  function Weighted(raw: seq<Contribution>, w: real): (r: seq<Contribution>)
    ensures |r| == |raw|
    ensures forall i :: 0 <= i < |raw| ==> r[i] == Scaled(raw[i], w)
  {
    seq(|raw|, i requires 0 <= i < |raw| => Scaled(raw[i], w))
  }

  function SemanticRaw(hits: seq<SemanticHit>): seq<Contribution> {
    seq(|hits|, i requires 0 <= i < |hits| => Contribution(hits[i].entityId, hits[i].description, hits[i].similarity))
  }

  function EntityRaw(hits: seq<EntityHit>): seq<Contribution> {
    seq(|hits|, i requires 0 <= i < |hits| => Contribution(hits[i].chunkId, hits[i].text, hits[i].entityMatches))
  }

  function CommunityRaw(hits: seq<CommunityHit>): seq<Contribution> {
    seq(|hits|, i requires 0 <= i < |hits| => Contribution(hits[i].communityId, hits[i].summary, hits[i].rank))
  }

  function PageRankRaw(hits: seq<PageRankHit>): seq<Contribution> {
    seq(|hits|, i requires 0 <= i < |hits| => Contribution(hits[i].entityId, hits[i].description, hits[i].rank))
  }

  function Node2VecRaw(hits: seq<Node2VecHit>): seq<Contribution> {
    seq(|hits|, i requires 0 <= i < |hits| => Contribution(hits[i].entityId, hits[i].description, hits[i].similarity))
  }

  function BetweennessRaw(hits: seq<BetweennessHit>): seq<Contribution> {
    seq(|hits|, i requires 0 <= i < |hits| => Contribution(hits[i].entityId, hits[i].description, hits[i].importance))
  }

  /** One community-detection row: one contribution per listed entity. */
  function RowRaw(row: CommunityDetectionHit): seq<Contribution> {
    seq(|row.entities|, j requires 0 <= j < |row.entities| =>
      Contribution(row.entities[j], CommunityTextPrefix + row.community, row.relevance))
  }

  /** All community-detection rows, row after row. */
  function CommunityDetectionRaw(rows: seq<CommunityDetectionHit>): seq<Contribution> {
    if rows == [] then []
    else CommunityDetectionRaw(rows[..|rows| - 1]) + RowRaw(rows[|rows| - 1])
  }

  // ---------------------------------------------------------------------
  // The dictionary and its two update rules
  // ---------------------------------------------------------------------

  datatype Entry = Entry(text: string, score: real)

  /** `combined_results`: the entries, and the keys in insertion order. */
  datatype Table = Table(entries: map<string, Entry>, order: seq<string>)

  const Empty: Table := Table(map[], [])

  /** The keys listed in `order` are those of the map, each listed once. */
  ghost predicate WellFormed(t: Table) {
    && (forall k :: k in t.entries <==> k in t.order)
    && (forall i, j :: 0 <= i < j < |t.order| ==> t.order[i] != t.order[j])
  }

  /** `combined_results[key] = {...}`: overwrite, and append a key not yet present. */
  function Assign(t: Table, h: KeywordHit): Table {
    Table(t.entries[h.chunkId := Entry(h.text, h.relevanceScore as real)],
          if h.chunkId in t.entries then t.order else t.order + [h.chunkId])
  }

  /** A present key gains `amount` and keeps its text; a new key is inserted. */
  function Add(t: Table, c: Contribution): Table {
    if c.key in t.entries then
      Table(t.entries[c.key := Entry(t.entries[c.key].text, t.entries[c.key].score + c.amount)], t.order)
    else
      Table(t.entries[c.key := Entry(c.text, c.amount)], t.order + [c.key])
  }

  function AssignAll(t: Table, hits: seq<KeywordHit>): Table {
    if hits == [] then t else Assign(AssignAll(t, hits[..|hits| - 1]), hits[|hits| - 1])
  }

  function AddAll(t: Table, cs: seq<Contribution>): Table {
    if cs == [] then t else Add(AddAll(t, cs[..|cs| - 1]), cs[|cs| - 1])
  }

  /** The dictionary after the eight loops, in the order the source runs them. */
  function Combined(results: SearchResults): Table {
    var t0 := AssignAll(Empty, results.keyword);
    var t1 := AddAll(t0, Weighted(SemanticRaw(results.semantic), SemanticWeight));
    var t2 := AddAll(t1, Weighted(EntityRaw(results.entity), EntityWeight));
    var t3 := AddAll(t2, Weighted(CommunityRaw(results.community), CommunityWeight));
    var t4 := AddAll(t3, Weighted(PageRankRaw(results.pagerank), PageRankWeight));
    var t5 := AddAll(t4, Weighted(Node2VecRaw(results.node2vec), Node2VecWeight));
    var t6 := AddAll(t5, Weighted(BetweennessRaw(results.betweenness), BetweennessWeight));
    AddAll(t6, Weighted(CommunityDetectionRaw(results.communityDetection), CommunityDetectionWeight))
  }

  // ---------------------------------------------------------------------
  // Ranking
  // ---------------------------------------------------------------------

  /** One element of the answer: `{'id', 'text', 'score'}`. */
  datatype Fused = Fused(id: string, text: string, score: real)

  function ScoreOf(f: Fused): real {
    f.score
  }

  /** `combined_results.items()`, in insertion order. */
  function Items(t: Table): (r: seq<Fused>)
    requires forall k :: k in t.order ==> k in t.entries
    ensures |r| == |t.order|
  {
    seq(|t.order|, i requires 0 <= i < |t.order| =>
      Fused(t.order[i], t.entries[t.order[i]].text, t.entries[t.order[i]].score))
  }

  /** Python's `xs[:limit]`: a negative `limit` counts from the end. */
  function PrefixSlice<T>(xs: seq<T>, limit: int): (r: seq<T>)
    ensures r <= xs
    ensures |r| == if limit >= 0 then (if limit < |xs| then limit else |xs|)
                   else (if |xs| + limit < 0 then 0 else |xs| + limit)
  {
    if limit >= 0 then (if limit < |xs| then xs[..limit] else xs)
    else if |xs| + limit < 0 then [] else xs[..|xs| + limit]
  }

  // ---------------------------------------------------------------------
  // The merge loops and the search
  // ---------------------------------------------------------------------

  /** The keyword loop. */
  method MergeKeyword(hits: seq<KeywordHit>) returns (entries: map<string, Entry>, order: seq<string>)
    ensures Table(entries, order) == AssignAll(Empty, hits)
  {
    entries, order := map[], [];
    for i := 0 to |hits|
      invariant Table(entries, order) == AssignAll(Empty, hits[..i])
    {
      var h := hits[i];
      assert hits[..i + 1][..i] == hits[..i];
      if h.chunkId !in entries {
        order := order + [h.chunkId];
      }
      entries := entries[h.chunkId := Entry(h.text, h.relevanceScore as real)];
    }
    assert hits[..|hits|] == hits;
  }

  /** One of the six loops that add to a present key or insert a new one. */
  method Merge(entries0: map<string, Entry>, order0: seq<string>, cs: seq<Contribution>)
    returns (entries: map<string, Entry>, order: seq<string>)
    ensures Table(entries, order) == AddAll(Table(entries0, order0), cs)
  {
    entries, order := entries0, order0;
    for i := 0 to |cs|
      invariant Table(entries, order) == AddAll(Table(entries0, order0), cs[..i])
    {
      var c := cs[i];
      assert cs[..i + 1][..i] == cs[..i];
      if c.key in entries {
        entries := entries[c.key := Entry(entries[c.key].text, entries[c.key].score + c.amount)];
      } else {
        entries := entries[c.key := Entry(c.text, c.amount)];
        order := order + [c.key];
      }
    }
    assert cs[..|cs|] == cs;
  }

  lemma {:induction false} AddAllAppend(t: Table, a: seq<Contribution>, b: seq<Contribution>)
    ensures AddAll(t, a + b) == AddAll(AddAll(t, a), b)
    decreases |b|
  {
    if b == [] {
      assert a + b == a;
    } else {
      var b' := b[..|b| - 1];
      assert (a + b)[..|a + b| - 1] == a + b';
      AddAllAppend(t, a, b');
    }
  }

  lemma WeightedAppend(a: seq<Contribution>, b: seq<Contribution>, w: real)
    ensures Weighted(a + b, w) == Weighted(a, w) + Weighted(b, w)
  {
    var l, r := Weighted(a + b, w), Weighted(a, w) + Weighted(b, w);
    forall i | 0 <= i < |l|
      ensures l[i] == r[i]
    {
      if i < |a| {
        assert (a + b)[i] == a[i];
      } else {
        assert (a + b)[i] == b[i - |a|];
      }
    }
  }

  lemma CommunityDetectionRawSnoc(rows: seq<CommunityDetectionHit>, i: nat)
    requires i < |rows|
    ensures CommunityDetectionRaw(rows[..i + 1]) == CommunityDetectionRaw(rows[..i]) + RowRaw(rows[i])
  {
    assert rows[..i + 1][..i] == rows[..i];
  }

  /**
   * The nested community-detection loop: the inner loop over one row's
   * entities is `Merge` on that row's contributions.
   */
  method MergeCommunityDetection(entries0: map<string, Entry>, order0: seq<string>,
                                 rows: seq<CommunityDetectionHit>)
    returns (entries: map<string, Entry>, order: seq<string>)
    ensures Table(entries, order)
         == AddAll(Table(entries0, order0), Weighted(CommunityDetectionRaw(rows), CommunityDetectionWeight))
  {
    ghost var t0 := Table(entries0, order0);
    entries, order := entries0, order0;
    for i := 0 to |rows|
      invariant Table(entries, order)
             == AddAll(t0, Weighted(CommunityDetectionRaw(rows[..i]), CommunityDetectionWeight))
    {
      ghost var done := Weighted(CommunityDetectionRaw(rows[..i]), CommunityDetectionWeight);
      var here := Weighted(RowRaw(rows[i]), CommunityDetectionWeight);
      entries, order := Merge(entries, order, here);
      AddAllAppend(t0, done, here);
      CommunityDetectionRawSnoc(rows, i);
      WeightedAppend(CommunityDetectionRaw(rows[..i]), RowRaw(rows[i]), CommunityDetectionWeight);
    }
    assert rows[..|rows|] == rows;
  }

  /** The ranked answer: sort the items by score, largest first, and cut to `limit`. */
  function Ranked(t: Table, limit: int): seq<Fused>
    requires forall k :: k in t.order ==> k in t.entries
  {
    PrefixSlice(SortDesc(Items(t), ScoreOf), limit)
  }

  /** `hybrid_search` after the eight searches have returned `results`. */
  method Search(results: SearchResults, limit: int) returns (answer: seq<Fused>)
    ensures var t := Combined(results);
            (forall k :: k in t.order ==> k in t.entries) && answer == Ranked(t, limit)
  {
    var entries, order := MergeKeyword(results.keyword);
    entries, order := Merge(entries, order, Weighted(SemanticRaw(results.semantic), SemanticWeight));
    entries, order := Merge(entries, order, Weighted(EntityRaw(results.entity), EntityWeight));
    entries, order := Merge(entries, order, Weighted(CommunityRaw(results.community), CommunityWeight));
    entries, order := Merge(entries, order, Weighted(PageRankRaw(results.pagerank), PageRankWeight));
    entries, order := Merge(entries, order, Weighted(Node2VecRaw(results.node2vec), Node2VecWeight));
    entries, order := Merge(entries, order, Weighted(BetweennessRaw(results.betweenness), BetweennessWeight));
    entries, order := MergeCommunityDetection(entries, order, results.communityDetection);
    CombinedWellFormed(results);
    answer := PrefixSlice(SortDesc(Items(Table(entries, order)), ScoreOf), limit);
  }

  // ---------------------------------------------------------------------
  // The dictionary stays well formed
  // ---------------------------------------------------------------------

  lemma {:induction false} AssignAllWellFormed(t: Table, hits: seq<KeywordHit>)
    requires WellFormed(t)
    ensures WellFormed(AssignAll(t, hits))
    decreases |hits|
  {
    if hits != [] {
      AssignAllWellFormed(t, hits[..|hits| - 1]);
    }
  }

  lemma {:induction false} AddAllWellFormed(t: Table, cs: seq<Contribution>)
    requires WellFormed(t)
    ensures WellFormed(AddAll(t, cs))
    decreases |cs|
  {
    if cs != [] {
      AddAllWellFormed(t, cs[..|cs| - 1]);
    }
  }

  /** The merged dictionary lists every key once, in `order`. */
  lemma CombinedWellFormed(results: SearchResults)
    ensures WellFormed(Combined(results))
  {
    var t0 := AssignAll(Empty, results.keyword);
    AssignAllWellFormed(Empty, results.keyword);
    var t1 := AddAll(t0, Weighted(SemanticRaw(results.semantic), SemanticWeight));
    AddAllWellFormed(t0, Weighted(SemanticRaw(results.semantic), SemanticWeight));
    var t2 := AddAll(t1, Weighted(EntityRaw(results.entity), EntityWeight));
    AddAllWellFormed(t1, Weighted(EntityRaw(results.entity), EntityWeight));
    var t3 := AddAll(t2, Weighted(CommunityRaw(results.community), CommunityWeight));
    AddAllWellFormed(t2, Weighted(CommunityRaw(results.community), CommunityWeight));
    var t4 := AddAll(t3, Weighted(PageRankRaw(results.pagerank), PageRankWeight));
    AddAllWellFormed(t3, Weighted(PageRankRaw(results.pagerank), PageRankWeight));
    var t5 := AddAll(t4, Weighted(Node2VecRaw(results.node2vec), Node2VecWeight));
    AddAllWellFormed(t4, Weighted(Node2VecRaw(results.node2vec), Node2VecWeight));
    var t6 := AddAll(t5, Weighted(BetweennessRaw(results.betweenness), BetweennessWeight));
    AddAllWellFormed(t5, Weighted(BetweennessRaw(results.betweenness), BetweennessWeight));
    AddAllWellFormed(t6, Weighted(CommunityDetectionRaw(results.communityDetection), CommunityDetectionWeight));
  }
}
