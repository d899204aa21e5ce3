/**
 * Keyword search: the tokenisation of the user's query, the contract of the
 * Cypher query that ranks chunks by how many keywords they contain, and the
 * reshaping of the fetched rows into search hits.
 */
module KeywordSearch {
  import opened StableSort

  // ---------------------------------------------------------------------
  // Characters
  // ---------------------------------------------------------------------

  /** A character matched by the regular-expression class `\w` (ASCII view). */
  predicate IsWordChar(c: char) {
    ('a' <= c <= 'z') || ('A' <= c <= 'Z') || ('0' <= c <= '9') || c == '_'
  }

  /** `str.lower` on one character (ASCII view). */
  function Lower(c: char): char {
    if 'A' <= c <= 'Z' then (c as int - 'A' as int + 'a' as int) as char else c
  }

  function LowerText(s: string): string {
    seq(|s|, i requires 0 <= i < |s| => Lower(s[i]))
  }

  /** `w` occurs in `s` starting at position `i`. */
  predicate OccursAt(w: string, s: string, i: nat) {
    i + |w| <= |s| && s[i..i + |w|] == w
  }

  /** `w` occurs as a contiguous piece of `s`; Cypher's `s CONTAINS w`. */
  predicate IsInfix(w: string, s: string) {
    exists i :: 0 <= i <= |s| && OccursAt(w, s, i)
  }

  /** `s` is a non-empty run of word characters. */
  ghost predicate IsWord(w: string) {
    |w| > 0 && forall j :: 0 <= j < |w| ==> IsWordChar(w[j])
  }

  // ---------------------------------------------------------------------
  // Tokenisation: re.findall(r'\w+', query.lower())
  // ---------------------------------------------------------------------

  /** Length of the longest prefix of `s` made of word characters. */
  function WordRun(s: string): (n: nat)
    ensures n <= |s|
    ensures forall i :: 0 <= i < n ==> IsWordChar(s[i])
    ensures n < |s| ==> !IsWordChar(s[n])
  {
    if s == [] || !IsWordChar(s[0]) then 0 else 1 + WordRun(s[1..])
  }

  /** The leftmost-longest matches of `\w+` in `s`, left to right. */
  function FindWords(s: string): seq<string>
    decreases |s|
  {
    if s == [] then []
    else if !IsWordChar(s[0]) then FindWords(s[1..])
    else
      var n := WordRun(s);
      [s[..n]] + FindWords(s[n..])
  }

  /** The keyword list the search sends to the store. */
  function Keywords(query: string): seq<string> {
    FindWords(LowerText(query))
  }

  function Concat(ws: seq<string>): string {
    if ws == [] then [] else ws[0] + Concat(ws[1..])
  }

  /** `s` with every non-word character removed. */
  function WordChars(s: string): string {
    if s == [] then [] else (if IsWordChar(s[0]) then [s[0]] else []) + WordChars(s[1..])
  }

  lemma {:induction false} WordCharsAppend(a: string, b: string)
    ensures WordChars(a + b) == WordChars(a) + WordChars(b)
  {
    if a != [] {
      assert (a + b)[1..] == a[1..] + b;
      WordCharsAppend(a[1..], b);
    } else {
      assert a + b == b;
    }
  }

  lemma {:induction false} WordCharsOfRun(s: string, n: nat)
    requires n <= |s|
    requires forall i :: 0 <= i < n ==> IsWordChar(s[i])
    ensures WordChars(s[..n]) == s[..n]
  {
    if n > 0 {
      assert s[..n][1..] == s[1..][..n - 1];
      WordCharsOfRun(s[1..], n - 1);
      assert s[..n] == [s[0]] + s[1..][..n - 1];
    }
  }

  /**
   * Every keyword is a non-empty run of word characters that occurs in the
   * text it was taken from.
   */
  lemma {:induction false} FindWordsAreWords(s: string)
    ensures forall k :: 0 <= k < |FindWords(s)| ==>
              IsWord(FindWords(s)[k]) && IsInfix(FindWords(s)[k], s)
    decreases |s|
  {
    if s == [] {
    } else if !IsWordChar(s[0]) {
      FindWordsAreWords(s[1..]);
      assert FindWords(s) == FindWords(s[1..]);
      forall k | 0 <= k < |FindWords(s)|
        ensures IsInfix(FindWords(s)[k], s)
      {
        var w := FindWords(s[1..])[k];
        var i :| 0 <= i <= |s[1..]| && OccursAt(w, s[1..], i);
        assert s[i + 1..i + 1 + |w|] == w;
        assert OccursAt(w, s, i + 1);
      }
    } else {
      var n := WordRun(s);
      var rest := s[n..];
      FindWordsAreWords(rest);
      assert FindWords(s) == [s[..n]] + FindWords(rest);
      assert OccursAt(s[..n], s, 0);
      forall k | 1 <= k < |FindWords(s)|
        ensures IsInfix(FindWords(s)[k], s)
      {
        var w := FindWords(s)[k];
        assert w == FindWords(rest)[k - 1];
        var i :| 0 <= i <= |rest| && OccursAt(w, rest, i);
        assert s[i + n..i + n + |w|] == w;
        assert OccursAt(w, s, i + n);
      }
    }
  }

  /** Concatenating the keywords gives the text with its non-word characters removed. */
  lemma {:induction false} FindWordsConcat(s: string)
    ensures Concat(FindWords(s)) == WordChars(s)
    decreases |s|
  {
    if s == [] {
    } else if !IsWordChar(s[0]) {
      FindWordsConcat(s[1..]);
    } else {
      var n := WordRun(s);
      FindWordsConcat(s[n..]);
      assert Concat(FindWords(s)) == s[..n] + Concat(FindWords(s[n..]));
      assert s == s[..n] + s[n..];
      WordCharsAppend(s[..n], s[n..]);
      WordCharsOfRun(s, n);
    }
  }

  /** The keyword list is empty exactly when the text has no word character. */
  lemma {:induction false} FindWordsEmpty(s: string)
    ensures FindWords(s) == [] <==> forall i :: 0 <= i < |s| ==> !IsWordChar(s[i])
    decreases |s|
  {
    if s != [] && !IsWordChar(s[0]) {
      FindWordsEmpty(s[1..]);
      assert forall i :: 1 <= i < |s| ==> s[i] == s[1..][i - 1];
    }
  }

  /** A single run of word characters is one keyword. */
  lemma {:induction false} FindWordsOfWord(w: string)
    requires IsWord(w)
    ensures FindWords(w) == [w]
  {
    var n := WordRun(w);
    assert n == |w|;
    assert w[n..] == [];
    assert w[..n] == w;
  }

  lemma {:induction false} WordRunStops(x: string, c: char, y: string)
    requires !IsWordChar(c)
    ensures WordRun(x + [c] + y) == WordRun(x)
  {
    if x != [] && IsWordChar(x[0]) {
      assert (x + [c] + y)[1..] == x[1..] + [c] + y;
      WordRunStops(x[1..], c, y);
    }
  }

  /**
   * A non-word character separates keywords: the keywords of `x + [c] + y`
   * are those of `x` followed by those of `y`. With `FindWordsOfWord` this
   * pins the keywords down as the maximal word-character runs, in order.
   */
  lemma {:induction false} FindWordsSplit(x: string, c: char, y: string)
    requires !IsWordChar(c)
    ensures FindWords(x + [c] + y) == FindWords(x) + FindWords(y)
    decreases |x|
  {
    var s := x + [c] + y;
    if x == [] {
      assert s[0] == c && s[1..] == y;
      assert FindWords(s) == FindWords(y);
    } else if !IsWordChar(x[0]) {
      assert s[0] == x[0] && s[1..] == x[1..] + [c] + y;
      assert FindWords(s) == FindWords(x[1..] + [c] + y);
      FindWordsSplit(x[1..], c, y);
    } else {
      WordRunStops(x, c, y);
      var n := WordRun(x);
      assert s[0] == x[0] && s[..n] == x[..n];
      assert s[n..] == x[n..] + [c] + y;
      assert FindWords(s) == [x[..n]] + FindWords(x[n..] + [c] + y);
      FindWordsSplit(x[n..], c, y);
    }
  }

  /** Lower-casing keeps a character a word character and a non-word one not. */
  lemma LowerKeepsWordChars(s: string)
    ensures forall i :: 0 <= i < |s| ==> (IsWordChar(LowerText(s)[i]) <==> IsWordChar(s[i]))
  {
  }

  /** What the search's tokenisation promises about the keyword list. */
  lemma KeywordsContract(query: string)
    ensures forall k :: 0 <= k < |Keywords(query)| ==>
              IsWord(Keywords(query)[k]) && IsInfix(Keywords(query)[k], LowerText(query))
    ensures Concat(Keywords(query)) == WordChars(LowerText(query))
    ensures Keywords(query) == [] <==> forall i :: 0 <= i < |query| ==> !IsWordChar(query[i])
  {
    FindWordsAreWords(LowerText(query));
    FindWordsConcat(LowerText(query));
    FindWordsEmpty(LowerText(query));
    LowerKeepsWordChars(query);
  }

  // ---------------------------------------------------------------------
  // The Cypher query: filter, count, order and limit
  // ---------------------------------------------------------------------

  /** A `__Chunk__` node of the graph, as far as the query reads it. */
  datatype Chunk = Chunk(id: string, text: string)

  /** A row the query returns: `chunk_id`, `text` and `matches`. */
  datatype Row = Row(chunkId: string, text: string, matches: nat)

  /**
   * `size([keyword IN $keywords WHERE c.text CONTAINS keyword])`: the number
   * of list entries contained in the text, a repeated keyword counting each
   * time it is listed.
   */
  function MatchCount(text: string, keywords: seq<string>): (r: nat)
    ensures r <= |keywords|
    ensures r > 0 <==> exists k :: 0 <= k < |keywords| && IsInfix(keywords[k], text)
  {
    if keywords == [] then 0
    else
      assert forall k :: 1 <= k < |keywords| ==> keywords[k] == keywords[1..][k - 1];
      (if IsInfix(keywords[0], text) then 1 else 0) + MatchCount(text, keywords[1..])
  }

  /** `MATCH ... WHERE ANY(...) WITH c, ... AS matches`, in node order. */
  function Matching(chunks: seq<Chunk>, keywords: seq<string>): seq<Row> {
    if chunks == [] then []
    else
      var c := chunks[0];
      var m := MatchCount(c.text, keywords);
      (if m > 0 then [Row(c.id, c.text, m)] else []) + Matching(chunks[1..], keywords)
  }

  /** The rows that pass the `WHERE` clause are exactly the chunks containing a keyword. */
  lemma {:induction false} MatchingRows(chunks: seq<Chunk>, keywords: seq<string>)
    ensures forall r :: r in Matching(chunks, keywords) <==>
              Chunk(r.chunkId, r.text) in chunks && r.matches > 0
              && r.matches == MatchCount(r.text, keywords)
  {
    if chunks != [] {
      MatchingRows(chunks[1..], keywords);
      assert chunks == [chunks[0]] + chunks[1..];
    }
  }

  function Take<T>(xs: seq<T>, n: nat): (r: seq<T>)
    ensures |r| == if n < |xs| then n else |xs|
  {
    if n < |xs| then xs[..n] else xs
  }

  function MatchesKey(r: Row): real {
    r.matches as real
  }

  /**
   * One answer the query may return: matching rows ordered by `matches`
   * descending (ties in node order), then `LIMIT $limit`.
   */
  function KeywordQuery(chunks: seq<Chunk>, keywords: seq<string>, limit: nat): seq<Row> {
    Take(SortDesc(Matching(chunks, keywords), MatchesKey), limit)
  }

  /** Each row is a chunk of the graph holding a keyword, with its match count. */
  ghost predicate RowsOfChunks(chunks: seq<Chunk>, keywords: seq<string>, r: seq<Row>) {
    forall i :: 0 <= i < |r| ==>
      Chunk(r[i].chunkId, r[i].text) in chunks && r[i].matches > 0
      && r[i].matches == MatchCount(r[i].text, keywords)
  }

  /** `ORDER BY matches DESC`. */
  ghost predicate RankedByMatches(r: seq<Row>) {
    forall i, j :: 0 <= i < j < |r| ==> r[i].matches >= r[j].matches
  }

  /** `r` is drawn from `all`, and nothing of `all` left out beats a row of `r`. */
  ghost predicate BestOf(all: seq<Row>, r: seq<Row>) {
    && multiset(r) <= multiset(all)
    && forall x, i :: x in multiset(all) - multiset(r) && 0 <= i < |r| ==> x.matches <= r[i].matches
  }

  /**
   * What the query text promises of its answer `r`: matching chunks with
   * their counts, best first, `limit` of them unless fewer chunks match.
   */
  ghost predicate KeywordAnswer(chunks: seq<Chunk>, keywords: seq<string>, limit: nat, r: seq<Row>) {
    var all := Matching(chunks, keywords);
    && |r| == (if limit < |all| then limit else |all|)
    && RowsOfChunks(chunks, keywords, r)
    && RankedByMatches(r)
    && BestOf(all, r)
  }

  lemma KeywordQueryRows(chunks: seq<Chunk>, keywords: seq<string>, limit: nat)
    ensures RowsOfChunks(chunks, keywords, KeywordQuery(chunks, keywords, limit))
  {
    var all := Matching(chunks, keywords);
    var sorted := SortDesc(all, MatchesKey);
    var r := KeywordQuery(chunks, keywords, limit);
    MatchingRows(chunks, keywords);
    SortDescPermutes(all, MatchesKey);
    assert r == sorted[..|r|];
    forall i | 0 <= i < |r|
      ensures r[i] in all
    {
      assert r[i] in sorted;
      assert r[i] in multiset(sorted);
    }
  }

  lemma KeywordQueryRanked(chunks: seq<Chunk>, keywords: seq<string>, limit: nat)
    ensures RankedByMatches(KeywordQuery(chunks, keywords, limit))
  {
    var all := Matching(chunks, keywords);
    var sorted := SortDesc(all, MatchesKey);
    SortDescSorted(all, MatchesKey);
    assert KeywordQuery(chunks, keywords, limit) == sorted[..|KeywordQuery(chunks, keywords, limit)|];
  }

  lemma KeywordQueryBest(chunks: seq<Chunk>, keywords: seq<string>, limit: nat)
    ensures BestOf(Matching(chunks, keywords), KeywordQuery(chunks, keywords, limit))
  {
    var all := Matching(chunks, keywords);
    var sorted := SortDesc(all, MatchesKey);
    var r := KeywordQuery(chunks, keywords, limit);
    SortDescSorted(all, MatchesKey);
    SortDescPermutes(all, MatchesKey);
    TopOfSorted(sorted, MatchesKey, |r|);
    assert r == sorted[..|r|];
  }

  /** The reference answer meets the query's contract. */
  lemma KeywordQueryContract(chunks: seq<Chunk>, keywords: seq<string>, limit: nat)
    ensures KeywordAnswer(chunks, keywords, limit, KeywordQuery(chunks, keywords, limit))
  {
    KeywordQueryRows(chunks, keywords, limit);
    KeywordQueryRanked(chunks, keywords, limit);
    KeywordQueryBest(chunks, keywords, limit);
  }

  // ---------------------------------------------------------------------
  // Reshaping the fetched rows
  // ---------------------------------------------------------------------

  /** A keyword search hit: `chunk_id`, `text`, `relevance_score`. */
  datatype KeywordHit = KeywordHit(chunkId: string, text: string, relevanceScore: nat)

  /** The list comprehension over the fetched rows. */
  function Reshape(rows: seq<Row>): (hits: seq<KeywordHit>)
    ensures |hits| == |rows|
    ensures forall i :: 0 <= i < |rows| ==>
              hits[i].chunkId == rows[i].chunkId && hits[i].text == rows[i].text
              && hits[i].relevanceScore == rows[i].matches
  {
    if rows == [] then []
    else [KeywordHit(rows[0].chunkId, rows[0].text, rows[0].matches)] + Reshape(rows[1..])
  }

  /** The keyword search on a graph whose chunks are `chunks`. */
  function Search(query: string, chunks: seq<Chunk>, limit: nat): seq<KeywordHit> {
    Reshape(KeywordQuery(chunks, Keywords(query), limit))
  }

  /**
   * End to end, for every answer the store may give to the query: every hit
   * is a chunk of the graph containing at least one query keyword as a
   * substring, scored by its match count, best first, `limit` of them unless
   * fewer chunks match. `Search` is the case r == KeywordQuery(...), an
   * admissible answer by KeywordQueryContract.
   */
  lemma SearchContract(query: string, chunks: seq<Chunk>, limit: nat, r: seq<Row>)
    requires KeywordAnswer(chunks, Keywords(query), limit, r)
    ensures var hits := Reshape(r);
            var matching := Matching(chunks, Keywords(query));
            && |hits| == (if limit < |matching| then limit else |matching|)
            && (forall i :: 0 <= i < |hits| ==>
                  Chunk(hits[i].chunkId, hits[i].text) in chunks
                  && hits[i].relevanceScore == MatchCount(hits[i].text, Keywords(query)) > 0)
            && (forall i, j :: 0 <= i < j < |hits| ==> hits[i].relevanceScore >= hits[j].relevanceScore)
  {
  }
}
