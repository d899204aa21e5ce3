/**
 * What the merge and the ranking of the hybrid search promise: the score of
 * a key is the keyword score plus the weighted sum of its other hits, its
 * text comes from whoever inserted it first, keys keep their first-insertion
 * order, and the answer is the best `limit` entries, best first, ties in
 * insertion order.
 */
module FusionProperties {
  import opened StableSort
  import opened HybridSearch

  // ---------------------------------------------------------------------
  // The keyword loop: the last hit for a chunk wins
  // ---------------------------------------------------------------------

  /** The position of the last hit for chunk `k`, or -1 when there is none. */
  function LastIndex(hits: seq<KeywordHit>, k: string): (j: int)
    ensures -1 <= j < |hits|
    ensures j >= 0 ==> hits[j].chunkId == k
    ensures forall i :: j < i < |hits| ==> hits[i].chunkId != k
  {
    if hits == [] then -1
    else if hits[|hits| - 1].chunkId == k then |hits| - 1
    else LastIndex(hits[..|hits| - 1], k)
  }

  /**
   * After the keyword loop a chunk is present exactly when some hit names
   * it, and its entry is the text and score of the last such hit: repeated
   * hits overwrite, they are not summed.
   */
  lemma {:induction false} AssignAllEntries(hits: seq<KeywordHit>)
    ensures var t := AssignAll(Empty, hits);
            forall k :: (k in t.entries <==> LastIndex(hits, k) >= 0)
              && (k in t.entries ==> t.entries[k] == Entry(hits[LastIndex(hits, k)].text,
                                                          hits[LastIndex(hits, k)].relevanceScore as real))
    decreases |hits|
  {
    if hits != [] {
      var p, h := hits[..|hits| - 1], hits[|hits| - 1];
      AssignAllEntries(p);
      var before := AssignAll(Empty, p);
      var t := AssignAll(Empty, hits);
      assert t == Assign(before, h);
      forall k
        ensures (k in t.entries <==> LastIndex(hits, k) >= 0)
             && (k in t.entries ==> t.entries[k] == Entry(hits[LastIndex(hits, k)].text,
                                                         hits[LastIndex(hits, k)].relevanceScore as real))
      {
        if k != h.chunkId {
          assert LastIndex(hits, k) == LastIndex(p, k);
          if LastIndex(p, k) >= 0 {
            assert hits[LastIndex(p, k)] == p[LastIndex(p, k)];
          }
        }
      }
    }
  }

  // ---------------------------------------------------------------------
  // The adding loops: first inserter sets the text, scores add up
  // ---------------------------------------------------------------------

  /** The sum of the amounts contributed to key `k`. */
  function Total(cs: seq<Contribution>, k: string): real {
    if cs == [] then 0.0
    else Total(cs[..|cs| - 1], k) + (if cs[|cs| - 1].key == k then cs[|cs| - 1].amount else 0.0)
  }

  /** The position of the first contribution to key `k`, or -1 when there is none. */
  function FirstIndex(cs: seq<Contribution>, k: string): (j: int)
    ensures -1 <= j < |cs|
    ensures j >= 0 ==> cs[j].key == k
    ensures forall i :: 0 <= i < |cs| && (j < 0 || i < j) ==> cs[i].key != k
  {
    if cs == [] then -1
    else
      var p := FirstIndex(cs[..|cs| - 1], k);
      if p >= 0 then p
      else if cs[|cs| - 1].key == k then |cs| - 1
      else -1
  }

  lemma {:induction false} TotalAbsent(cs: seq<Contribution>, k: string)
    requires FirstIndex(cs, k) < 0
    ensures Total(cs, k) == 0.0
    decreases |cs|
  {
    if cs != [] {
      var p := cs[..|cs| - 1];
      assert forall i :: 0 <= i < |p| ==> p[i] == cs[i];
      TotalAbsent(p, k);
    }
  }

  /**
   * After adding `cs` to `t`: a key is present when it was, or when some
   * contribution names it; its text is the old one, or else that of the
   * first contribution to name it; its score is the old one (0 for a new
   * key) plus every contribution to it.
   */
  lemma {:induction false} AddAllEntries(t: Table, cs: seq<Contribution>)
    ensures var r := AddAll(t, cs);
            forall k :: (k in r.entries <==> k in t.entries || FirstIndex(cs, k) >= 0)
              && (k in r.entries ==> r.entries[k] == Entry(
                    if k in t.entries then t.entries[k].text else cs[FirstIndex(cs, k)].text,
                    (if k in t.entries then t.entries[k].score else 0.0) + Total(cs, k)))
    decreases |cs|
  {
    if cs != [] {
      var p, c := cs[..|cs| - 1], cs[|cs| - 1];
      AddAllEntries(t, p);
      var before := AddAll(t, p);
      var r := AddAll(t, cs);
      assert r == Add(before, c);
      forall k
        ensures (k in r.entries <==> k in t.entries || FirstIndex(cs, k) >= 0)
             && (k in r.entries ==> r.entries[k] == Entry(
                   if k in t.entries then t.entries[k].text else cs[FirstIndex(cs, k)].text,
                   (if k in t.entries then t.entries[k].score else 0.0) + Total(cs, k)))
      {
        var j := FirstIndex(p, k);
        if j >= 0 {
          assert FirstIndex(cs, k) == j;
          assert cs[j] == p[j];
        }
        if k == c.key && k !in before.entries {
          TotalAbsent(p, k);
        }
      }
    }
  }

  // ---------------------------------------------------------------------
  // The whole merge
  // ---------------------------------------------------------------------

  /** The contributions of the seven adding loops, in the order they run. */
  function AllAdds(results: SearchResults): seq<Contribution> {
    Weighted(SemanticRaw(results.semantic), SemanticWeight)
    + Weighted(EntityRaw(results.entity), EntityWeight)
    + Weighted(CommunityRaw(results.community), CommunityWeight)
    + Weighted(PageRankRaw(results.pagerank), PageRankWeight)
    + Weighted(Node2VecRaw(results.node2vec), Node2VecWeight)
    + Weighted(BetweennessRaw(results.betweenness), BetweennessWeight)
    + Weighted(CommunityDetectionRaw(results.communityDetection), CommunityDetectionWeight)
  }

  lemma CombinedIsFold(results: SearchResults)
    ensures Combined(results) == AddAll(AssignAll(Empty, results.keyword), AllAdds(results))
  {
    var t0 := AssignAll(Empty, results.keyword);
    var a1 := Weighted(SemanticRaw(results.semantic), SemanticWeight);
    var a2 := Weighted(EntityRaw(results.entity), EntityWeight);
    var a3 := Weighted(CommunityRaw(results.community), CommunityWeight);
    var a4 := Weighted(PageRankRaw(results.pagerank), PageRankWeight);
    var a5 := Weighted(Node2VecRaw(results.node2vec), Node2VecWeight);
    var a6 := Weighted(BetweennessRaw(results.betweenness), BetweennessWeight);
    var a7 := Weighted(CommunityDetectionRaw(results.communityDetection), CommunityDetectionWeight);
    AddAllAppend(t0, a1, a2);
    AddAllAppend(t0, a1 + a2, a3);
    AddAllAppend(t0, a1 + a2 + a3, a4);
    AddAllAppend(t0, a1 + a2 + a3 + a4, a5);
    AddAllAppend(t0, a1 + a2 + a3 + a4 + a5, a6);
    AddAllAppend(t0, a1 + a2 + a3 + a4 + a5 + a6, a7);
  }

  /** The score the keyword loop left for `k`, or 0. */
  function KeywordScore(hits: seq<KeywordHit>, k: string): real {
    var j := LastIndex(hits, k);
    if j >= 0 then hits[j].relevanceScore as real else 0.0
  }

  /**
   * The merged dictionary: a key is present when a keyword hit or any other
   * hit names it. Its text is that of the last keyword hit for it, or else
   * that of the first other hit to name it, in loop order. Its score is the
   * keyword score plus the sum of all other contributions.
   */
  lemma CombinedEntries(results: SearchResults)
    ensures var t := Combined(results);
            var kw, adds := results.keyword, AllAdds(results);
            forall k :: (k in t.entries <==> LastIndex(kw, k) >= 0 || FirstIndex(adds, k) >= 0)
              && (k in t.entries ==> t.entries[k] == Entry(
                    if LastIndex(kw, k) >= 0 then kw[LastIndex(kw, k)].text else adds[FirstIndex(adds, k)].text,
                    KeywordScore(kw, k) + Total(adds, k)))
  {
    CombinedIsFold(results);
    AssignAllEntries(results.keyword);
    AddAllEntries(AssignAll(Empty, results.keyword), AllAdds(results));
  }

  lemma {:induction false} TotalAppend(a: seq<Contribution>, b: seq<Contribution>, k: string)
    ensures Total(a + b, k) == Total(a, k) + Total(b, k)
    decreases |b|
  {
    if b != [] {
      var b' := b[..|b| - 1];
      assert (a + b)[..|a + b| - 1] == a + b';
      TotalAppend(a, b', k);
    } else {
      assert a + b == a;
    }
  }

  /** Weighting a strategy's hits multiplies every key's total by the weight. */
  lemma {:induction false} WeightedTotal(raw: seq<Contribution>, w: real, k: string)
    ensures Total(Weighted(raw, w), k) == w * Total(raw, k)
    decreases |raw|
  {
    if raw != [] {
      var init, last := raw[..|raw| - 1], raw[|raw| - 1];
      var ws := Weighted(raw, w);
      assert ws[..|ws| - 1] == Weighted(init, w);
      assert ws[|ws| - 1] == Scaled(last, w);
      WeightedTotal(init, w, k);
      var before := Total(init, k);
      var step := if last.key == k then last.amount else 0.0;
      assert Total(raw, k) == before + step;
      assert Total(ws, k) == w * before + step * w;
      assert w * (before + step) == w * before + w * step;
    }
  }

  /** The total of the other hits, strategy by strategy. */
  lemma TotalSplit(results: SearchResults, k: string)
    ensures Total(AllAdds(results), k)
         == Total(Weighted(SemanticRaw(results.semantic), 2.0), k)
          + Total(Weighted(EntityRaw(results.entity), 1.5), k)
          + Total(Weighted(CommunityRaw(results.community), 1.0), k)
          + Total(Weighted(PageRankRaw(results.pagerank), 3.0), k)
          + Total(Weighted(Node2VecRaw(results.node2vec), 2.5), k)
          + Total(Weighted(BetweennessRaw(results.betweenness), 2.0), k)
          + Total(Weighted(CommunityDetectionRaw(results.communityDetection), 1.5), k)
  {
    var a1 := Weighted(SemanticRaw(results.semantic), SemanticWeight);
    var a2 := Weighted(EntityRaw(results.entity), EntityWeight);
    var a3 := Weighted(CommunityRaw(results.community), CommunityWeight);
    var a4 := Weighted(PageRankRaw(results.pagerank), PageRankWeight);
    var a5 := Weighted(Node2VecRaw(results.node2vec), Node2VecWeight);
    var a6 := Weighted(BetweennessRaw(results.betweenness), BetweennessWeight);
    var a7 := Weighted(CommunityDetectionRaw(results.communityDetection), CommunityDetectionWeight);
    TotalAppend(a1, a2, k);
    TotalAppend(a1 + a2, a3, k);
    TotalAppend(a1 + a2 + a3, a4, k);
    TotalAppend(a1 + a2 + a3 + a4, a5, k);
    TotalAppend(a1 + a2 + a3 + a4 + a5, a6, k);
    TotalAppend(a1 + a2 + a3 + a4 + a5 + a6, a7, k);
  }

  /**
   * The merged score of a key: the keyword score plus, for each other
   * strategy, the sum over its hits for the key of the hit's value times the
   * strategy's weight.
   */
  lemma ScoreFormula(results: SearchResults, k: string)
    requires k in Combined(results).entries
    ensures Combined(results).entries[k].score
         == KeywordScore(results.keyword, k)
          + Total(Weighted(SemanticRaw(results.semantic), 2.0), k)
          + Total(Weighted(EntityRaw(results.entity), 1.5), k)
          + Total(Weighted(CommunityRaw(results.community), 1.0), k)
          + Total(Weighted(PageRankRaw(results.pagerank), 3.0), k)
          + Total(Weighted(Node2VecRaw(results.node2vec), 2.5), k)
          + Total(Weighted(BetweennessRaw(results.betweenness), 2.0), k)
          + Total(Weighted(CommunityDetectionRaw(results.communityDetection), 1.5), k)
  {
    CombinedEntries(results);
    TotalSplit(results, k);
  }

  // ---------------------------------------------------------------------
  // Insertion order
  // ---------------------------------------------------------------------

  /** `order` extended by the keys of `ks` not seen before, in order of first appearance. */
  function InsertionOrder(order: seq<string>, ks: seq<string>): seq<string> {
    if ks == [] then order
    else
      var before := InsertionOrder(order, ks[..|ks| - 1]);
      if ks[|ks| - 1] in before then before else before + [ks[|ks| - 1]]
  }

  function ChunkIds(hits: seq<KeywordHit>): seq<string> {
    seq(|hits|, i requires 0 <= i < |hits| => hits[i].chunkId)
  }

  function KeysOf(cs: seq<Contribution>): seq<string> {
    seq(|cs|, i requires 0 <= i < |cs| => cs[i].key)
  }

  lemma {:induction false} InsertionOrderAppend(order: seq<string>, a: seq<string>, b: seq<string>)
    ensures InsertionOrder(order, a + b) == InsertionOrder(InsertionOrder(order, a), b)
    decreases |b|
  {
    if b == [] {
      assert a + b == a;
    } else {
      var b' := b[..|b| - 1];
      assert (a + b)[..|a + b| - 1] == a + b';
      InsertionOrderAppend(order, a, b');
    }
  }

  lemma {:induction false} AssignAllOrder(t: Table, hits: seq<KeywordHit>)
    requires WellFormed(t)
    ensures AssignAll(t, hits).order == InsertionOrder(t.order, ChunkIds(hits))
    decreases |hits|
  {
    if hits != [] {
      var p := hits[..|hits| - 1];
      AssignAllOrder(t, p);
      AssignAllWellFormed(t, p);
      assert ChunkIds(hits)[..|hits| - 1] == ChunkIds(p);
    }
  }

  lemma {:induction false} AddAllOrder(t: Table, cs: seq<Contribution>)
    requires WellFormed(t)
    ensures AddAll(t, cs).order == InsertionOrder(t.order, KeysOf(cs))
    decreases |cs|
  {
    if cs != [] {
      var p := cs[..|cs| - 1];
      AddAllOrder(t, p);
      AddAllWellFormed(t, p);
      assert KeysOf(cs)[..|cs| - 1] == KeysOf(p);
    }
  }

  /** Keys are listed in the order in which the loops first met them. */
  lemma CombinedOrder(results: SearchResults)
    ensures Combined(results).order
         == InsertionOrder([], ChunkIds(results.keyword) + KeysOf(AllAdds(results)))
  {
    CombinedIsFold(results);
    AssignAllOrder(Empty, results.keyword);
    AssignAllWellFormed(Empty, results.keyword);
    AddAllOrder(AssignAll(Empty, results.keyword), AllAdds(results));
    InsertionOrderAppend([], ChunkIds(results.keyword), KeysOf(AllAdds(results)));
  }

  // ---------------------------------------------------------------------
  // The ranked answer
  // ---------------------------------------------------------------------

  /** Each element repeats the dictionary entry of its id. */
  ghost predicate FromTable(t: Table, r: seq<Fused>) {
    forall i :: 0 <= i < |r| ==>
      r[i].id in t.entries && r[i].text == t.entries[r[i].id].text && r[i].score == t.entries[r[i].id].score
  }

  ghost predicate DistinctIds(r: seq<Fused>) {
    forall i, j :: 0 <= i < j < |r| ==> r[i].id != r[j].id
  }

  /** Among equal scores, the answer keeps the dictionary's insertion order. */
  ghost predicate TiesInInsertionOrder(t: Table, r: seq<Fused>)
    requires forall k :: k in t.order ==> k in t.entries
  {
    forall v :: WithKey(r, ScoreOf, v) <= WithKey(Items(t), ScoreOf, v)
  }

  /** No key of the dictionary missing from the answer scores above an answer element. */
  ghost predicate BestEntries(t: Table, r: seq<Fused>) {
    forall k, i :: k in t.entries && (forall j :: 0 <= j < |r| ==> r[j].id != k) && 0 <= i < |r| ==>
      t.entries[k].score <= r[i].score
  }

  lemma ItemsFromTable(t: Table)
    requires WellFormed(t)
    ensures FromTable(t, Items(t))
    ensures Distinct(Items(t))
    ensures DistinctIds(Items(t))
  {
  }

  lemma RankedFromTable(t: Table, limit: int)
    requires WellFormed(t)
    ensures FromTable(t, Ranked(t, limit))
  {
    var items := Items(t);
    var sorted := SortDesc(items, ScoreOf);
    var r := Ranked(t, limit);
    ItemsFromTable(t);
    SortDescPermutes(items, ScoreOf);
    forall i | 0 <= i < |r|
      ensures r[i] in items
    {
      assert r[i] == sorted[i];
      assert sorted[i] in multiset(sorted);
    }
  }

  lemma RankedDistinct(t: Table, limit: int)
    requires WellFormed(t)
    ensures DistinctIds(Ranked(t, limit))
  {
    var items := Items(t);
    var sorted := SortDesc(items, ScoreOf);
    var r := Ranked(t, limit);
    ItemsFromTable(t);
    SortDescPermutes(items, ScoreOf);
    SortDescDistinct(items, ScoreOf);
    forall i, j | 0 <= i < j < |r|
      ensures r[i].id != r[j].id
    {
      assert r[i] == sorted[i] && r[j] == sorted[j];
      assert sorted[i] in multiset(items) && sorted[j] in multiset(items);
      var p :| 0 <= p < |items| && items[p] == sorted[i];
      var q :| 0 <= q < |items| && items[q] == sorted[j];
      assert p != q;
    }
  }

  lemma RankedOrdered(t: Table, limit: int)
    requires WellFormed(t)
    ensures NonIncreasing(Ranked(t, limit), ScoreOf)
  {
    var sorted := SortDesc(Items(t), ScoreOf);
    SortDescSorted(Items(t), ScoreOf);
    assert Ranked(t, limit) == sorted[..|Ranked(t, limit)|];
  }

  lemma RankedStable(t: Table, limit: int)
    requires WellFormed(t)
    ensures TiesInInsertionOrder(t, Ranked(t, limit))
  {
    var items := Items(t);
    var sorted := SortDesc(items, ScoreOf);
    forall v
      ensures WithKey(Ranked(t, limit), ScoreOf, v) <= WithKey(items, ScoreOf, v)
    {
      WithKeyPrefix(Ranked(t, limit), sorted, ScoreOf, v);
      SortDescStable(items, ScoreOf, v);
    }
  }

  lemma RankedBest(t: Table, limit: int)
    requires WellFormed(t)
    ensures BestEntries(t, Ranked(t, limit))
  {
    var sorted := SortDesc(Items(t), ScoreOf);
    var r := Ranked(t, limit);
    SortDescSorted(Items(t), ScoreOf);
    SortDescPermutes(Items(t), ScoreOf);
    forall k, i | k in t.entries && (forall j :: 0 <= j < |r| ==> r[j].id != k) && 0 <= i < |r|
      ensures t.entries[k].score <= r[i].score
    {
      LeftOutScore(t, sorted, |r|, k, i);
    }
  }

  /** An entry missing from a prefix of a sorted listing scores no more than anything in it. */
  lemma LeftOutScore(t: Table, sorted: seq<Fused>, n: nat, k: string, i: nat)
    requires WellFormed(t)
    requires NonIncreasing(sorted, ScoreOf) && multiset(sorted) == multiset(Items(t))
    requires i < n <= |sorted|
    requires k in t.entries && forall j :: 0 <= j < n ==> sorted[j].id != k
    ensures t.entries[k].score <= sorted[i].score
  {
    TopOfSorted(sorted, ScoreOf, n);
    var items := Items(t);
    var p :| 0 <= p < |t.order| && t.order[p] == k;
    var x := items[p];
    assert x.id == k && x.score == t.entries[k].score;
    assert x in multiset(items);
    assert x !in sorted[..n];
    assert x in multiset(sorted) - multiset(sorted[..n]);
  }

  /**
   * The answer: `limit` entries (Python slice semantics for a negative
   * `limit`), each repeating its dictionary entry, ids distinct, best first,
   * ties in insertion order, and nothing left out scoring higher.
   */
  lemma RankedContract(t: Table, limit: int)
    requires WellFormed(t)
    ensures var r, n := Ranked(t, limit), |t.order|;
            && |r| == (if limit >= 0 then (if limit < n then limit else n)
                       else (if n + limit < 0 then 0 else n + limit))
            && FromTable(t, r)
            && DistinctIds(r)
            && NonIncreasing(r, ScoreOf)
            && TiesInInsertionOrder(t, r)
            && BestEntries(t, r)
  {
    RankedFromTable(t, limit);
    RankedDistinct(t, limit);
    RankedOrdered(t, limit);
    RankedStable(t, limit);
    RankedBest(t, limit);
  }

  /** With every strategy returning nothing, the hybrid search returns nothing. */
  lemma NoResults(results: SearchResults, limit: int)
    requires results.keyword == [] && results.semantic == [] && results.entity == []
    requires results.community == [] && results.pagerank == [] && results.node2vec == []
    requires results.betweenness == [] && results.communityDetection == []
    ensures Combined(results) == Empty
    ensures Ranked(Combined(results), limit) == []
  {
    assert CommunityDetectionRaw(results.communityDetection) == [];
  }
}
