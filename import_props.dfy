/** What batched_import promises, stated about the function that specifies it
    (Ingestion.Import): how the rows are sliced, what a run without failures submits, what a
    run that returns has covered, how deep the re-imports go, and why a run fails. */
module ImportProperties {
  import opened TypeNormalizer
  import opened GraphStore
  import opened Ingestion

  // ---------------------------------------------------------------------------------------
  // The slices of `for start in range(lo, hi, b)`: [start, min(start + b, hi))

  function Batches(lo: nat, hi: nat, b: nat): (r: seq<(nat, nat)>)
    requires 0 < b
    ensures forall k :: 0 <= k < |r| ==> lo <= r[k].0 < r[k].1 <= hi
    decreases hi - lo
  {
    if lo >= hi then [] else [(lo, Min(lo + b, hi))] + Batches(lo + b, hi, b)
  }

  /** Each slice ends at most b rows after its own start, and where the next one starts. */
  lemma {:induction false} BatchesContiguous(lo: nat, hi: nat, b: nat)
    requires 0 < b
    ensures forall k :: 0 <= k < |Batches(lo, hi, b)| ==>
      Batches(lo, hi, b)[k].1 == Min(Batches(lo, hi, b)[k].0 + b, hi)
    ensures forall k :: 0 <= k < |Batches(lo, hi, b)| - 1 ==>
      Batches(lo, hi, b)[k].1 == Batches(lo, hi, b)[k + 1].0
    decreases hi - lo
  {
    if lo < hi {
      var r := Batches(lo, hi, b);
      var rest := Batches(lo + b, hi, b);
      assert r == [(lo, Min(lo + b, hi))] + rest;
      BatchesContiguous(lo + b, hi, b);
      if rest != [] {
        assert rest[0].0 == lo + b;
      }
      forall k | 1 <= k < |r| ensures r[k] == rest[k - 1] { }
    }
  }

  /** The first slice starts at lo and the last ends at hi. */
  lemma {:induction false} BatchesEnds(lo: nat, hi: nat, b: nat)
    requires 0 < b && lo <= hi
    ensures |Batches(lo, hi, b)| == 0 <==> lo == hi
    ensures |Batches(lo, hi, b)| > 0 ==>
      Batches(lo, hi, b)[0].0 == lo && Batches(lo, hi, b)[|Batches(lo, hi, b)| - 1].1 == hi
    decreases hi - lo
  {
    if lo < hi {
      var r := Batches(lo, hi, b);
      var rest := Batches(lo + b, hi, b);
      assert r == [(lo, Min(lo + b, hi))] + rest;
      if lo + b < hi {
        BatchesEnds(lo + b, hi, b);
        assert r[|r| - 1] == rest[|rest| - 1];
      } else {
        assert rest == [];
      }
    }
  }

  /** The k-th slice starts at lo + k * b. */
  lemma {:induction false} BatchesStarts(lo: nat, hi: nat, b: nat)
    requires 0 < b
    ensures forall k :: 0 <= k < |Batches(lo, hi, b)| ==> Batches(lo, hi, b)[k].0 == lo + k * b
    decreases hi - lo
  {
    if lo < hi {
      var r := Batches(lo, hi, b);
      var rest := Batches(lo + b, hi, b);
      assert r == [(lo, Min(lo + b, hi))] + rest;
      BatchesStarts(lo + b, hi, b);
      forall k | 1 <= k < |r| ensures r[k].0 == lo + k * b {
        assert r[k] == rest[k - 1];
        MulStep(k, b);
      }
    }
  }

  lemma MulStep(k: int, b: int)
    ensures (k - 1) * b + b == k * b
  {
  }

  /** There are ceil((hi - lo) / b) slices. */
  lemma {:induction false} BatchesCount(lo: nat, hi: nat, b: nat)
    requires 0 < b && lo < hi
    ensures var n := |Batches(lo, hi, b)|; (n - 1) * b < hi - lo <= n * b
    decreases hi - lo
  {
    var rest := Batches(lo + b, hi, b);
    assert |Batches(lo, hi, b)| == 1 + |rest|;
    if lo + b < hi {
      BatchesCount(lo + b, hi, b);
      assert (1 + |rest| - 1) * b == |rest| * b;
      assert (1 + |rest|) * b == |rest| * b + b;
      assert (|rest| - 1) * b + b == |rest| * b;
    } else {
      assert rest == [];
    }
  }

  /** The slices of `range(lo, hi, b)` partition [lo, hi) in order. */
  lemma BatchesPartition(lo: nat, hi: nat, b: nat)
    requires 0 < b && lo <= hi
    ensures var r := Batches(lo, hi, b);
      && (forall k :: 0 <= k < |r| ==> r[k].0 == lo + k * b && r[k].1 == Min(r[k].0 + b, hi))
      && (forall k :: 0 <= k < |r| - 1 ==> r[k].1 == r[k + 1].0)
      && (|r| == 0 <==> lo == hi)
      && (|r| > 0 ==> r[0].0 == lo && r[|r| - 1].1 == hi && (|r| - 1) * b < hi - lo <= |r| * b)
  {
    BatchesContiguous(lo, hi, b);
    BatchesEnds(lo, hi, b);
    BatchesStarts(lo, hi, b);
    if lo < hi {
      BatchesCount(lo, hi, b);
    }
  }

  /** Every row of [lo, hi) lies in one of the slices. */
  lemma {:induction false} BatchesCover(lo: nat, hi: nat, b: nat, i: nat)
    requires 0 < b && lo <= i < hi
    ensures exists k :: 0 <= k < |Batches(lo, hi, b)| && Batches(lo, hi, b)[k].0 <= i < Batches(lo, hi, b)[k].1
    decreases hi - lo
  {
    var r := Batches(lo, hi, b);
    var rest := Batches(lo + b, hi, b);
    assert r == [(lo, Min(lo + b, hi))] + rest;
    if i < Min(lo + b, hi) {
      assert r[0] == (lo, Min(lo + b, hi));
      assert 0 < |r| && r[0].0 <= i < r[0].1;
    } else {
      BatchesCover(lo + b, hi, b, i);
      var k :| 0 <= k < |rest| && rest[k].0 <= i < rest[k].1;
      assert r[k + 1] == rest[k];
    }
  }

  // ---------------------------------------------------------------------------------------
  // A run in which every store call completes

  /** Every store call from number t on completes. */
  ghost predicate AllDone(respond: nat -> Reply, t: nat)
  {
    forall n :: t <= n ==> respond(n) == Done
  }

  /** One successful try for each slice, at recursion depth `depth`. */
  function DoneAttempts(bs: seq<(nat, nat)>, depth: nat): (r: seq<Attempt>)
    ensures |r| == |bs|
    ensures forall k :: 0 <= k < |bs| ==> r[k] == Attempt(bs[k].0, bs[k].1, depth, 1, Done)
  {
    seq(|bs|, k requires 0 <= k < |bs| => Attempt(bs[k].0, bs[k].1, depth, 1, Done))
  }

  lemma {:induction false} LoopWithoutFailures(lo: nat, hi: nat, b: nat, depth: nat, start: nat,
                                               respond: nat -> Reply, t: nat)
    requires 0 < b && lo <= start && lo <= hi && AllDone(respond, t)
    ensures Loop(lo, hi, b, depth, start, respond, t)
         == Trace(Imported(hi - lo), DoneAttempts(Batches(start, hi, b), depth))
    decreases hi - start
  {
    if start < hi {
      assert respond(t) == Done;
      DoneTurn(lo, hi, b, depth, start, respond, t);
      LoopWithoutFailures(lo, hi, b, depth, start + b, respond, t + 1);
      DoneAttemptsCons(start, hi, b, depth);
    } else {
      assert Batches(start, hi, b) == [];
    }
  }

  /** A turn whose first try completes: one attempt, then the loop goes on one call later. */
  lemma DoneTurn(lo: nat, hi: nat, b: nat, depth: nat, start: nat, respond: nat -> Reply, t: nat)
    requires 0 < b && lo <= start < hi && respond(t) == Done
    ensures Loop(lo, hi, b, depth, start, respond, t)
         == Prepend([Attempt(start, Min(start + b, hi), depth, 1, Done)],
                    Loop(lo, hi, b, depth, start + b, respond, t + 1))
  {
    var a := Attempt(start, Min(start + b, hi), depth, 1, Done);
    RetryCharacterised(respond, t);
    TurnWithoutSplit(start, Min(start + b, hi), b, depth, respond, t, Done, 1);
    assert Calls([a]) == 1 by { assert [a][1..] == []; }
  }

  lemma DoneAttemptsCons(start: nat, hi: nat, b: nat, depth: nat)
    requires 0 < b && start < hi
    ensures DoneAttempts(Batches(start, hi, b), depth)
         == [Attempt(start, Min(start + b, hi), depth, 1, Done)] + DoneAttempts(Batches(start + b, hi, b), depth)
  {
    BatchesCons(start, hi, b);
  }

  /** When the store accepts every call, batched_import returns the row count after issuing
      one try per slice, at the top level only. */
  lemma RunWithoutFailures(lo: nat, hi: nat, b: nat, depth: nat, respond: nat -> Reply, t: nat)
    requires 0 < b && lo <= hi && AllDone(respond, t)
    ensures Import(lo, hi, b, depth, respond, t)
         == Trace(Imported(hi - lo), DoneAttempts(Batches(lo, hi, b), depth))
  {
    LoopWithoutFailures(lo, hi, b, depth, lo, respond, t);
  }

  /** The store calls for one successful try per slice: one call per slice, in order, each
      carrying the converted records of its slice. */
  lemma {:induction false} DoneCalls(statement: string, df: seq<Value>, bs: seq<(nat, nat)>, depth: nat)
    requires forall k :: 0 <= k < |bs| ==> bs[k].0 < bs[k].1 <= |df|
    ensures Within(DoneAttempts(bs, depth), 0, |df|)
    ensures CallsOf(statement, df, DoneAttempts(bs, depth))
         == seq(|bs|, k requires 0 <= k < |bs| => BatchCall(statement, df, bs[k].0, bs[k].1))
  {
    var attempts := DoneAttempts(bs, depth);
    var calls := seq(|bs|, k requires 0 <= k < |bs| => BatchCall(statement, df, bs[k].0, bs[k].1));
    if bs != [] {
      DoneCalls(statement, df, bs[1..], depth);
      assert attempts[1..] == DoneAttempts(bs[1..], depth);
      assert Repeat(BatchCall(statement, df, bs[0].0, bs[0].1), 1) == [calls[0]];
      assert calls == [calls[0]] + seq(|bs[1..]|, k requires 0 <= k < |bs[1..]| =>
        BatchCall(statement, df, bs[1..][k].0, bs[1..][k].1));
    }
  }

  /** batched_import(statement, df, b) against a store that accepts every call returns len(df)
      after exactly one call per slice of `range(0, len(df), b)`, each submitting
      "UNWIND $rows AS value " + statement with the converted records of that slice. */
  lemma CleanRun(statement: string, df: seq<Value>, b: nat, respond: nat -> Reply, t: nat)
    requires 0 < b && AllDone(respond, t)
    ensures var tr := Import(0, |df|, b, 0, respond, t);
      var bs := Batches(0, |df|, b);
      && tr.outcome == Imported(|df|)
      && CallsOf(statement, df, tr.attempts)
         == seq(|bs|, k requires 0 <= k < |bs| => BatchCall(statement, df, bs[k].0, bs[k].1))
  {
    RunWithoutFailures(0, |df|, b, 0, respond, t);
    DoneCalls(statement, df, Batches(0, |df|, b), 0);
  }

  // ---------------------------------------------------------------------------------------
  // A run that returns has submitted every row successfully

  /** Row i went to the store in a try that completed. */
  ghost predicate RowDone(attempts: seq<Attempt>, i: nat)
  {
    exists k :: 0 <= k < |attempts| && attempts[k].reply == Done && attempts[k].lo <= i < attempts[k].hi
  }

  ghost predicate Covered(attempts: seq<Attempt>, lo: nat, hi: nat)
  {
    forall i :: lo <= i < hi ==> RowDone(attempts, i)
  }

  lemma RowDoneAppend(x: seq<Attempt>, y: seq<Attempt>, i: nat)
    ensures RowDone(x, i) || RowDone(y, i) ==> RowDone(x + y, i)
  {
    if RowDone(x, i) {
      var k :| 0 <= k < |x| && x[k].reply == Done && x[k].lo <= i < x[k].hi;
      assert (x + y)[k] == x[k];
    } else if RowDone(y, i) {
      var k :| 0 <= k < |y| && y[k].reply == Done && y[k].lo <= i < y[k].hi;
      assert (x + y)[|x| + k] == y[k];
    }
  }

  lemma {:induction false} TurnCovers(start: nat, end: nat, b: nat, depth: nat, respond: nat -> Reply, t: nat)
    requires 0 < b && start < end
    ensures TurnAt(start, end, b, depth, respond, t).Continue? ==>
      Covered(TurnAt(start, end, b, depth, respond, t).attempts, start, end)
    decreases b, 0, 0
  {
    var r := Retry(respond, t);
    var a := Attempt(start, end, depth, r.tries, r.reply);
    if r.reply == DatabaseError {
      var inner := Import(start, end, b / 2, depth + 1, respond, t + r.tries);
      TurnWithSplit(start, end, b, depth, respond, t, r.reply, r.tries, t + r.tries);
      ImportCovers(start, end, b / 2, depth + 1, respond, t + r.tries);
      forall i | start <= i < end && inner.outcome.Imported? ensures RowDone([a] + inner.attempts, i) {
        RowDoneAppend([a], inner.attempts, i);
      }
    } else {
      TurnWithoutSplit(start, end, b, depth, respond, t, r.reply, r.tries);
      forall i | start <= i < end && r.reply == Done ensures RowDone([a], i) {
        assert [a][0] == a;
      }
    }
  }

  lemma {:induction false} LoopCovers(lo: nat, hi: nat, b: nat, depth: nat, start: nat,
                                      respond: nat -> Reply, t: nat)
    requires 0 < b && lo <= start && lo <= hi
    ensures var tr := Loop(lo, hi, b, depth, start, respond, t);
      tr.outcome.Imported? ==> tr.outcome.count == hi - lo && Covered(tr.attempts, start, hi)
    decreases b, 1, hi - start
  {
    if start < hi {
      var end := Min(start + b, hi);
      var turn := TurnAt(start, end, b, depth, respond, t);
      if turn.Continue? {
        var t' := t + Calls(turn.attempts);
        var rest := Loop(lo, hi, b, depth, start + b, respond, t');
        assert Loop(lo, hi, b, depth, start, respond, t) == Prepend(turn.attempts, rest);
        TurnCovers(start, end, b, depth, respond, t);
        LoopCovers(lo, hi, b, depth, start + b, respond, t');
        forall i | start <= i < hi && rest.outcome.Imported? ensures RowDone(turn.attempts + rest.attempts, i) {
          RowDoneAppend(turn.attempts, rest.attempts, i);
        }
      }
    }
  }

  /** If batched_import(statement, rows[lo..hi], b) returns, it returns the number of rows, and
      every row was part of a submission that the store accepted. */
  lemma {:induction false} ImportCovers(lo: nat, hi: nat, b: nat, depth: nat, respond: nat -> Reply, t: nat)
    requires lo <= hi
    ensures var tr := Import(lo, hi, b, depth, respond, t);
      tr.outcome.Imported? ==> tr.outcome.count == hi - lo && Covered(tr.attempts, lo, hi)
    decreases b, 2, 0
  {
    if b > 0 {
      LoopCovers(lo, hi, b, depth, lo, respond, t);
    }
  }

  // ---------------------------------------------------------------------------------------
  // How deep the recursion goes and how large each submission is

  /** Number of halvings b, b/2, b/4, ... before the batch size reaches 0: floor(log2 b) + 1. */
  function Levels(b: nat): (r: nat)
    ensures r == 0 <==> b == 0
  {
    if b == 0 then 0 else 1 + Levels(b / 2)
  }

  /** The batch size after k halvings: b // 2**k. */
  function Halve(b: nat, k: nat): (r: nat)
    ensures r <= b
  {
    if k == 0 then b else Halve(b / 2, k - 1)
  }

  function Pow2(n: nat): (r: nat)
    ensures r >= 1
  {
    if n == 0 then 1 else 2 * Pow2(n - 1)
  }

  lemma {:induction false} LevelsIsLog(b: nat)
    requires b > 0
    ensures Pow2(Levels(b) - 1) <= b < Pow2(Levels(b))
  {
    if b > 1 {
      var h := b / 2;
      LevelsIsLog(h);
      var p := Pow2(Levels(h) - 1);
      assert Levels(b) - 1 == Levels(h);
      assert Pow2(Levels(b) - 1) == 2 * p;
      assert Pow2(Levels(b)) == 2 * Pow2(Levels(h));
      assert 2 * h <= b <= 2 * h + 1;
    }
  }

  /** Every try lies between depth and depth + Levels(b) - 1, and one k levels down submits at
      most Halve(b, k) rows. */
  ghost predicate Shallow(attempts: seq<Attempt>, depth: nat, b: nat)
  {
    forall k :: 0 <= k < |attempts| ==>
      depth <= attempts[k].depth < depth + Levels(b)
      && attempts[k].hi - attempts[k].lo <= Halve(b, attempts[k].depth - depth)
  }

  lemma ShallowAppend(x: seq<Attempt>, y: seq<Attempt>, depth: nat, b: nat)
    requires Shallow(x, depth, b) && Shallow(y, depth, b)
    ensures Shallow(x + y, depth, b)
  {
    forall k | 0 <= k < |x + y|
      ensures depth <= (x + y)[k].depth < depth + Levels(b)
      ensures (x + y)[k].hi - (x + y)[k].lo <= Halve(b, (x + y)[k].depth - depth)
    {
      if k < |x| {
        assert (x + y)[k] == x[k];
      } else {
        assert (x + y)[k] == y[k - |x|];
      }
    }
  }

  lemma ShallowDeeper(x: seq<Attempt>, depth: nat, b: nat)
    requires b > 0 && Shallow(x, depth + 1, b / 2)
    ensures Shallow(x, depth, b)
  {
    forall k | 0 <= k < |x| ensures x[k].hi - x[k].lo <= Halve(b, x[k].depth - depth) {
      assert Halve(b, x[k].depth - depth) == Halve(b / 2, x[k].depth - (depth + 1));
    }
  }

  lemma {:induction false} TurnDepth(start: nat, end: nat, b: nat, depth: nat, respond: nat -> Reply, t: nat)
    requires 0 < b && start < end && end - start <= b
    ensures Shallow(TurnAt(start, end, b, depth, respond, t).attempts, depth, b)
    decreases b, 0, 0
  {
    var r := Retry(respond, t);
    var a := Attempt(start, end, depth, r.tries, r.reply);
    assert Shallow([a], depth, b);
    if r.reply == DatabaseError {
      var inner := Import(start, end, b / 2, depth + 1, respond, t + r.tries);
      TurnWithSplit(start, end, b, depth, respond, t, r.reply, r.tries, t + r.tries);
      ImportDepth(start, end, b / 2, depth + 1, respond, t + r.tries);
      ShallowDeeper(inner.attempts, depth, b);
      ShallowAppend([a], inner.attempts, depth, b);
    } else {
      TurnWithoutSplit(start, end, b, depth, respond, t, r.reply, r.tries);
    }
  }

  lemma {:induction false} LoopDepth(lo: nat, hi: nat, b: nat, depth: nat, start: nat,
                                     respond: nat -> Reply, t: nat)
    requires 0 < b && lo <= start && lo <= hi
    ensures Shallow(Loop(lo, hi, b, depth, start, respond, t).attempts, depth, b)
    decreases b, 1, hi - start
  {
    if start < hi {
      var end := Min(start + b, hi);
      var turn := TurnAt(start, end, b, depth, respond, t);
      TurnDepth(start, end, b, depth, respond, t);
      if turn.Continue? {
        var t' := t + Calls(turn.attempts);
        var rest := Loop(lo, hi, b, depth, start + b, respond, t');
        assert Loop(lo, hi, b, depth, start, respond, t) == Prepend(turn.attempts, rest);
        LoopDepth(lo, hi, b, depth, start + b, respond, t');
        ShallowAppend(turn.attempts, rest.attempts, depth, b);
      }
    }
  }

  /** The recursion never goes more than Levels(b) - 1 levels below the first call, and a try
      k levels down submits at most b // 2**k rows. */
  lemma {:induction false} ImportDepth(lo: nat, hi: nat, b: nat, depth: nat, respond: nat -> Reply, t: nat)
    requires lo <= hi
    ensures Shallow(Import(lo, hi, b, depth, respond, t).attempts, depth, b)
    decreases b, 2, 0
  {
    if b > 0 {
      LoopDepth(lo, hi, b, depth, lo, respond, t);
    }
  }

  // ---------------------------------------------------------------------------------------
  // Why a run raises

  ghost predicate HasReply(attempts: seq<Attempt>, reply: Reply)
  {
    exists k :: 0 <= k < |attempts| && attempts[k].reply == reply
  }

  /** Some try at depth d submitted a single row and was rejected with a database error. */
  ghost predicate HasUnitRejection(attempts: seq<Attempt>, d: nat)
  {
    exists k :: 0 <= k < |attempts| && attempts[k].reply == DatabaseError
                && attempts[k].hi == attempts[k].lo + 1 && attempts[k].depth == d
  }

  /** A store failure comes from some try that raised another exception; the `range` error
      comes from a single row rejected at the deepest level, batch size 1. */
  ghost predicate FailureExplained(e: ImportError, attempts: seq<Attempt>, depth: nat, b: nat)
  {
    && (e == StoreFailure ==> HasReply(attempts, OtherError))
    && (e == ZeroStep && b > 0 ==> HasUnitRejection(attempts, depth + Levels(b) - 1))
  }

  lemma ExplainedAppend(e: ImportError, x: seq<Attempt>, y: seq<Attempt>, depth: nat, b: nat)
    requires FailureExplained(e, x, depth, b) || FailureExplained(e, y, depth, b)
    ensures FailureExplained(e, x + y, depth, b)
  {
    if e == StoreFailure {
      if HasReply(x, OtherError) {
        var k :| 0 <= k < |x| && x[k].reply == OtherError;
        assert (x + y)[k] == x[k];
      } else {
        var k :| 0 <= k < |y| && y[k].reply == OtherError;
        assert (x + y)[|x| + k] == y[k];
      }
    } else if b > 0 {
      var d := depth + Levels(b) - 1;
      if HasUnitRejection(x, d) {
        var k :| 0 <= k < |x| && x[k].reply == DatabaseError && x[k].hi == x[k].lo + 1 && x[k].depth == d;
        assert (x + y)[k] == x[k];
      } else {
        var k :| 0 <= k < |y| && y[k].reply == DatabaseError && y[k].hi == y[k].lo + 1 && y[k].depth == d;
        assert (x + y)[|x| + k] == y[k];
      }
    }
  }

  lemma {:induction false} TurnFailure(start: nat, end: nat, b: nat, depth: nat, respond: nat -> Reply, t: nat)
    requires 0 < b && start < end && end - start <= b
    ensures var turn := TurnAt(start, end, b, depth, respond, t);
      turn.Stop? ==> FailureExplained(turn.error, turn.attempts, depth, b)
    decreases b, 0, 0
  {
    var r := Retry(respond, t);
    var a := Attempt(start, end, depth, r.tries, r.reply);
    if r.reply == DatabaseError {
      var inner := Import(start, end, b / 2, depth + 1, respond, t + r.tries);
      TurnWithSplit(start, end, b, depth, respond, t, r.reply, r.tries, t + r.tries);
      if b == 1 {
        assert Levels(1) == 1 + Levels(0);
        assert inner.attempts == [] && inner.outcome == Failed(ZeroStep);
        assert [a] + inner.attempts == [a];
        assert HasUnitRejection([a], depth) by {
          assert [a][0] == a;
        }
      } else {
        ImportFailure(start, end, b / 2, depth + 1, respond, t + r.tries);
        assert Levels(b) == 1 + Levels(b / 2);
        if inner.outcome.Failed? {
          ExplainedAppend(inner.outcome.error, [a], inner.attempts, depth, b);
        }
      }
    } else {
      TurnWithoutSplit(start, end, b, depth, respond, t, r.reply, r.tries);
      assert [a][0] == a;
    }
  }

  lemma {:induction false} LoopFailure(lo: nat, hi: nat, b: nat, depth: nat, start: nat,
                                       respond: nat -> Reply, t: nat)
    requires 0 < b && lo <= start && lo <= hi
    ensures var tr := Loop(lo, hi, b, depth, start, respond, t);
      tr.outcome.Failed? ==> FailureExplained(tr.outcome.error, tr.attempts, depth, b)
    decreases b, 1, hi - start
  {
    if start < hi {
      var end := Min(start + b, hi);
      var turn := TurnAt(start, end, b, depth, respond, t);
      TurnFailure(start, end, b, depth, respond, t);
      if turn.Continue? {
        var t' := t + Calls(turn.attempts);
        var rest := Loop(lo, hi, b, depth, start + b, respond, t');
        assert Loop(lo, hi, b, depth, start, respond, t) == Prepend(turn.attempts, rest);
        LoopFailure(lo, hi, b, depth, start + b, respond, t');
        if rest.outcome.Failed? {
          ExplainedAppend(rest.outcome.error, turn.attempts, rest.attempts, depth, b);
        }
      }
    }
  }

  /** When batched_import raises, either some try raised an exception other than
      GQLAlchemyDatabaseError, or (for a positive batch size) a single row was still rejected
      at batch size 1, Levels(b) - 1 levels down, where `range(0, 1, 0)` raises ValueError. */
  lemma {:induction false} ImportFailure(lo: nat, hi: nat, b: nat, depth: nat, respond: nat -> Reply, t: nat)
    requires lo <= hi
    ensures var tr := Import(lo, hi, b, depth, respond, t);
      tr.outcome.Failed? ==> FailureExplained(tr.outcome.error, tr.attempts, depth, b)
    decreases b, 2, 0
  {
    if b > 0 {
      LoopFailure(lo, hi, b, depth, lo, respond, t);
    }
  }

  // ---------------------------------------------------------------------------------------
  // The batches of the top-level loop

  /** The slices of the tries made at exactly `depth`, in order. */
  function TopSpans(attempts: seq<Attempt>, depth: nat): (r: seq<(nat, nat)>)
    ensures |r| <= |attempts|
  {
    if attempts == [] then []
    else (if attempts[0].depth == depth then [(attempts[0].lo, attempts[0].hi)] else [])
         + TopSpans(attempts[1..], depth)
  }

  lemma {:induction false} TopSpansAppend(x: seq<Attempt>, y: seq<Attempt>, depth: nat)
    ensures TopSpans(x + y, depth) == TopSpans(x, depth) + TopSpans(y, depth)
  {
    if x != [] {
      assert (x + y)[1..] == x[1..] + y;
      TopSpansAppend(x[1..], y, depth);
    } else {
      assert x + y == y;
    }
  }

  lemma {:induction false} TopSpansDeeper(x: seq<Attempt>, depth: nat)
    requires forall k :: 0 <= k < |x| ==> x[k].depth > depth
    ensures TopSpans(x, depth) == []
  {
    if x != [] {
      TopSpansDeeper(x[1..], depth);
    }
  }

  /** One turn of the loop: the batch's own try comes first, with the batch's full slice;
      anything after it is the deeper re-import, which happens only after a database error. */
  lemma TurnShape(start: nat, end: nat, b: nat, depth: nat, respond: nat -> Reply, t: nat)
    requires 0 < b && start < end
    ensures var turn := TurnAt(start, end, b, depth, respond, t);
      && turn.attempts[0] == Attempt(start, end, depth, Retry(respond, t).tries, Retry(respond, t).reply)
      && (|turn.attempts| > 1 ==> Retry(respond, t).reply == DatabaseError)
      && (forall k :: 1 <= k < |turn.attempts| ==>
            turn.attempts[k].depth > depth && start <= turn.attempts[k].lo && turn.attempts[k].hi <= end)
      && TopSpans(turn.attempts, depth) == [(start, end)]
  {
    var r := Retry(respond, t);
    var a := Attempt(start, end, depth, r.tries, r.reply);
    var turn := TurnAt(start, end, b, depth, respond, t);
    if r.reply == DatabaseError {
      var inner := Import(start, end, b / 2, depth + 1, respond, t + r.tries);
      TurnWithSplit(start, end, b, depth, respond, t, r.reply, r.tries, t + r.tries);
      ImportDepth(start, end, b / 2, depth + 1, respond, t + r.tries);
      TopSpansDeeper(inner.attempts, depth);
      TopSpansAppend([a], inner.attempts, depth);
      forall k | 1 <= k < |turn.attempts| ensures turn.attempts[k] == inner.attempts[k - 1] {
      }
    } else {
      TurnWithoutSplit(start, end, b, depth, respond, t, r.reply, r.tries);
    }
  }

  lemma PrefixCons<T>(x: T, p: seq<T>, s: seq<T>)
    requires p <= s
    ensures [x] + p <= [x] + s && [x] <= [x] + s
  {
    assert ([x] + s)[..|[x] + p|] == [x] + s[..|p|];
    assert ([x] + s)[..1] == [x];
  }

  lemma {:induction false} LoopTop(lo: nat, hi: nat, b: nat, depth: nat, start: nat,
                                   respond: nat -> Reply, t: nat)
    requires 0 < b && lo <= start && lo <= hi
    ensures TopSpans(Loop(lo, hi, b, depth, start, respond, t).attempts, depth) <= Batches(start, hi, b)
    ensures Loop(lo, hi, b, depth, start, respond, t).outcome.Imported? ==>
      TopSpans(Loop(lo, hi, b, depth, start, respond, t).attempts, depth) == Batches(start, hi, b)
    decreases hi - start
  {
    if start < hi {
      var turn := TurnAt(start, Min(start + b, hi), b, depth, respond, t);
      if turn.Continue? {
        LoopTop(lo, hi, b, depth, start + b, respond, t + Calls(turn.attempts));
        TopAfterTurn(lo, hi, b, depth, start, respond, t);
      } else {
        TopAfterStop(lo, hi, b, depth, start, respond, t);
      }
    } else {
      assert Loop(lo, hi, b, depth, start, respond, t).attempts == [];
    }
  }

  /** The inductive step of LoopTop: a turn that did not raise, then the rest of the loop. */
  lemma TopAfterTurn(lo: nat, hi: nat, b: nat, depth: nat, start: nat, respond: nat -> Reply, t: nat)
    requires 0 < b && lo <= start < hi
    requires TurnAt(start, Min(start + b, hi), b, depth, respond, t).Continue?
    requires var rest := Loop(lo, hi, b, depth, start + b, respond,
                              t + Calls(TurnAt(start, Min(start + b, hi), b, depth, respond, t).attempts));
      && TopSpans(rest.attempts, depth) <= Batches(start + b, hi, b)
      && (rest.outcome.Imported? ==> TopSpans(rest.attempts, depth) == Batches(start + b, hi, b))
    ensures TopSpans(Loop(lo, hi, b, depth, start, respond, t).attempts, depth) <= Batches(start, hi, b)
    ensures Loop(lo, hi, b, depth, start, respond, t).outcome.Imported? ==>
      TopSpans(Loop(lo, hi, b, depth, start, respond, t).attempts, depth) == Batches(start, hi, b)
  {
    var end := Min(start + b, hi);
    var turn := TurnAt(start, end, b, depth, respond, t);
    var rest := Loop(lo, hi, b, depth, start + b, respond, t + Calls(turn.attempts));
    LoopAfterContinue(lo, hi, b, depth, start, respond, t);
    BatchesCons(start, hi, b);
    TurnShape(start, end, b, depth, respond, t);
    TopSpansAppend(turn.attempts, rest.attempts, depth);
    PrefixCons((start, end), TopSpans(rest.attempts, depth), Batches(start + b, hi, b));
  }

  /** A turn that did not raise is followed by the rest of the loop, one batch further. */
  lemma LoopAfterContinue(lo: nat, hi: nat, b: nat, depth: nat, start: nat, respond: nat -> Reply, t: nat)
    requires 0 < b && lo <= start < hi
    requires TurnAt(start, Min(start + b, hi), b, depth, respond, t).Continue?
    ensures var turn := TurnAt(start, Min(start + b, hi), b, depth, respond, t);
      Loop(lo, hi, b, depth, start, respond, t)
        == Prepend(turn.attempts, Loop(lo, hi, b, depth, start + b, respond, t + Calls(turn.attempts)))
  {
  }

  /** The slices from `start` on: the one at `start`, then those from `start + b`. */
  lemma BatchesCons(start: nat, hi: nat, b: nat)
    requires 0 < b && start < hi
    ensures Batches(start, hi, b) == [(start, Min(start + b, hi))] + Batches(start + b, hi, b)
  {
  }

  /** A turn that raised ends the loop with its own attempts, whose top level is its batch. */
  lemma TopAfterStop(lo: nat, hi: nat, b: nat, depth: nat, start: nat, respond: nat -> Reply, t: nat)
    requires 0 < b && lo <= start < hi
    requires TurnAt(start, Min(start + b, hi), b, depth, respond, t).Stop?
    ensures TopSpans(Loop(lo, hi, b, depth, start, respond, t).attempts, depth) <= Batches(start, hi, b)
    ensures !Loop(lo, hi, b, depth, start, respond, t).outcome.Imported?
  {
    var end := Min(start + b, hi);
    var turn := TurnAt(start, end, b, depth, respond, t);
    TurnShape(start, end, b, depth, respond, t);
    BatchesCons(start, hi, b);
    assert Loop(lo, hi, b, depth, start, respond, t).attempts == turn.attempts;
    PrefixCons((start, end), [], Batches(start + b, hi, b));
  }

  /** The tries batched_import makes itself, at its own level, are for the slices
      [0, B), [B, 2B), ... in order: a prefix of them when it raises, all of them when it
      returns. A batch's re-import never changes the slices of the batches around it. */
  lemma ImportTop(lo: nat, hi: nat, b: nat, depth: nat, respond: nat -> Reply, t: nat)
    requires 0 < b && lo <= hi
    ensures TopSpans(Import(lo, hi, b, depth, respond, t).attempts, depth) <= Batches(lo, hi, b)
    ensures Import(lo, hi, b, depth, respond, t).outcome.Imported? ==>
      TopSpans(Import(lo, hi, b, depth, respond, t).attempts, depth) == Batches(lo, hi, b)
  {
    LoopTop(lo, hi, b, depth, lo, respond, t);
  }
}
