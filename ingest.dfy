/** Batched, fault-tolerant import of record frames into the graph store (execute_with_retry
    and batched_import in load_to_mem.py). Row positions are absolute positions in the frame
    being imported; a batch handed to the recursive call is a view of the same rows. */
module Ingestion {
  import opened TypeNormalizer
  import opened GraphStore

  /** max_tries of the backoff decorator: the total number of tries, the first included. */
  const MaxTries: nat := 5

  /** The default batch_size of batched_import. */
  const DefaultBatchSize: nat := 100

  function Min(a: nat, b: nat): nat { if a <= b then a else b }

  // ---------------------------------------------------------------------------------------
  // execute_with_retry

  /** The last reply seen by execute_with_retry and how many store calls it made. */
  datatype RetryOutcome = RetryOutcome(reply: Reply, tries: nat)

  /** The tries of execute_with_retry begun as store call number t, from its try at call number
      n on (the tries before n raised GQLAlchemyDatabaseError). */
  function RetryLoop(respond: nat -> Reply, t: nat, n: nat): (r: RetryOutcome)
    requires t <= n < t + MaxTries
    ensures n - t < r.tries <= MaxTries
    decreases t + MaxTries - n
  {
    var reply := respond(n);
    if reply == DatabaseError && n + 1 < t + MaxTries then RetryLoop(respond, t, n + 1)
    else RetryOutcome(reply, n + 1 - t)
  }

  /** execute_with_retry, started as store call number t. */
  function Retry(respond: nat -> Reply, t: nat): RetryOutcome
  {
    RetryLoop(respond, t, t)
  }

  /** A call issued n times in a row. */
  function Repeat(c: Call, n: nat): (r: seq<Call>)
    ensures |r| == n && forall k :: 0 <= k < n ==> r[k] == c
  {
    if n == 0 then [] else [c] + Repeat(c, n - 1)
  }

  lemma RepeatSnoc(c: Call, n: nat)
    ensures Repeat(c, n + 1) == Repeat(c, n) + [c]
  {
  }

  lemma {:induction false} RetryLoopFacts(respond: nat -> Reply, t: nat, n: nat)
    requires t <= n < t + MaxTries
    ensures var r := RetryLoop(respond, t, n);
      && r.reply == respond(t + r.tries - 1)
      && (forall j :: n <= j < t + r.tries - 1 ==> respond(j) == DatabaseError)
      && (r.reply == DatabaseError ==> r.tries == MaxTries)
    decreases t + MaxTries - n
  {
    if respond(n) == DatabaseError && n + 1 < t + MaxTries {
      RetryLoopFacts(respond, t, n + 1);
    }
  }

  /** What execute_with_retry does: the call is tried until it completes, raises anything
      other than GQLAlchemyDatabaseError, or has raised GQLAlchemyDatabaseError five times;
      the last reply is what the caller sees. */
  lemma RetryCharacterised(respond: nat -> Reply, t: nat)
    ensures var r := Retry(respond, t);
      && 1 <= r.tries <= MaxTries
      && r.reply == respond(t + r.tries - 1)
      && (forall j :: t <= j < t + r.tries - 1 ==> respond(j) == DatabaseError)
      && (r.reply == DatabaseError <==> r.tries == MaxTries && respond(t + MaxTries - 1) == DatabaseError)
      && (respond(t) != DatabaseError ==> r == RetryOutcome(respond(t), 1))
  {
    RetryLoopFacts(respond, t, t);
  }

  /** execute_with_retry(memgraph, query, parameters); the backoff delays are not modelled. */
  method ExecuteWithRetry(store: Store, c: Call) returns (reply: Reply, tries: nat)
    modifies store
    ensures RetryOutcome(reply, tries) == Retry(store.respond, |old(store.log)|)
    ensures store.log == old(store.log) + Repeat(c, tries)
  {
    ghost var respond := store.respond;
    ghost var t := |store.log|;
    reply := store.Execute(c);
    tries := 1;
    while reply == DatabaseError && tries < MaxTries
      invariant 1 <= tries <= MaxTries && store.respond == respond
      invariant |store.log| == t + tries
      invariant reply == respond(t + tries - 1)
      invariant Retry(respond, t) == RetryLoop(respond, t, t + tries - 1)
      invariant store.log == old(store.log) + Repeat(c, tries)
    {
      assert RetryLoop(respond, t, t + tries - 1) == RetryLoop(respond, t, t + tries);
      ghost var n := |store.log|;
      reply := store.Execute(c);
      assert reply == respond(n);
      RepeatSnoc(c, tries);
      tries := tries + 1;
    }
  }

  // ---------------------------------------------------------------------------------------
  // batched_import: the specification

  /** Why an import ended with an exception: range() was given a zero step (a batch of size 1
      failed, so the retry used batch_size 1 // 2 == 0), or the store raised something other
      than GQLAlchemyDatabaseError. */
  datatype ImportError = ZeroStep | StoreFailure

  /** What batched_import does: it returns the row count, or it raises. */
  datatype Outcome = Imported(count: nat) | Failed(error: ImportError)

  /** One call of execute_with_retry made by batched_import: for rows [lo, hi), at recursion
      depth `depth`, taking `tries` store calls and ending with `reply`. */
  datatype Attempt = Attempt(lo: nat, hi: nat, depth: nat, tries: nat, reply: Reply)

  datatype Trace = Trace(outcome: Outcome, attempts: seq<Attempt>)

  /** Store calls made over a list of attempts. */
  function Calls(attempts: seq<Attempt>): nat
  {
    if attempts == [] then 0 else attempts[0].tries + Calls(attempts[1..])
  }

  predicate Within(attempts: seq<Attempt>, lo: nat, hi: nat)
  {
    forall k :: 0 <= k < |attempts| ==> lo <= attempts[k].lo < attempts[k].hi <= hi
  }

  /** A run of the loop after some attempts were already made. */
  function Prepend(done: seq<Attempt>, tr: Trace): Trace
  {
    Trace(tr.outcome, done + tr.attempts)
  }

  datatype Option<T> = None | Some(value: T)

  /** What one turn of the loop did: the batch's own execute_with_retry and, after it raised
      GQLAlchemyDatabaseError, the attempts of the batch's re-import; and whether an exception
      escaped the turn. */
  datatype Turn = Continue(attempts: seq<Attempt>) | Stop(attempts: seq<Attempt>, error: ImportError)

  /** batched_import(statement, rows[lo..hi], b) at recursion depth `depth`, when its first
      store call is call number t. */
  function Import(lo: nat, hi: nat, b: nat, depth: nat, respond: nat -> Reply, t: nat): (tr: Trace)
    requires lo <= hi
    ensures Within(tr.attempts, lo, hi)
    decreases b, 2, 0
  {
    if b == 0 then Trace(Failed(ZeroStep), [])
    else Loop(lo, hi, b, depth, lo, respond, t)
  }

  /** The `for start in range(lo, hi, b)` loop of batched_import from `start` on. */
  function Loop(lo: nat, hi: nat, b: nat, depth: nat, start: nat, respond: nat -> Reply, t: nat): (tr: Trace)
    requires 0 < b && lo <= start && lo <= hi
    ensures Within(tr.attempts, start, hi)
    decreases b, 1, hi - start
  {
    if start >= hi then Trace(Imported(hi - lo), [])
    else
      var turn := TurnAt(start, Min(start + b, hi), b, depth, respond, t);
      if turn.Stop? then Trace(Failed(turn.error), turn.attempts)
      else Prepend(turn.attempts, Loop(lo, hi, b, depth, start + b, respond, t + Calls(turn.attempts)))
  }

  /** The body of the loop for the batch [start, end) at call number t. */
  function TurnAt(start: nat, end: nat, b: nat, depth: nat, respond: nat -> Reply, t: nat): (turn: Turn)
    requires 0 < b && start < end
    ensures turn.attempts != [] && Within(turn.attempts, start, end)
    decreases b, 0, 0
  {
    var r := Retry(respond, t);
    var a := Attempt(start, end, depth, r.tries, r.reply);
    if r.reply == Done then Continue([a])
    else if r.reply == OtherError then Stop([a], StoreFailure)
    else
      var inner := Import(start, end, b / 2, depth + 1, respond, t + r.tries);
      if inner.outcome.Failed? then Stop([a] + inner.attempts, inner.outcome.error)
      else Continue([a] + inner.attempts)
  }

  /** The statement batched_import submits for a template. */
  function Unwind(statement: string): string
  {
    "UNWIND $rows AS value " + statement
  }

  /** The call submitting rows [lo, hi) of a frame: the converted records as parameter `rows`. */
  function BatchCall(statement: string, df: seq<Value>, lo: nat, hi: nat): Call
    requires lo <= hi <= |df|
  {
    Call(Unwind(statement), [("rows", List(ConvertRecords(df[lo..hi])))])
  }

  /** The store calls made over a list of attempts, each attempt's call repeated once per try. */
  function CallsOf(statement: string, df: seq<Value>, attempts: seq<Attempt>): (cs: seq<Call>)
    requires Within(attempts, 0, |df|)
    ensures |cs| == Calls(attempts)
  {
    if attempts == [] then []
    else Repeat(BatchCall(statement, df, attempts[0].lo, attempts[0].hi), attempts[0].tries)
         + CallsOf(statement, df, attempts[1..])
  }

  lemma {:induction false} CallsOfAppend(statement: string, df: seq<Value>, x: seq<Attempt>, y: seq<Attempt>)
    requires Within(x, 0, |df|) && Within(y, 0, |df|)
    ensures CallsOf(statement, df, x + y) == CallsOf(statement, df, x) + CallsOf(statement, df, y)
  {
    if x != [] {
      assert (x + y)[0] == x[0];
      assert (x + y)[1..] == x[1..] + y;
      CallsOfAppend(statement, df, x[1..], y);
    } else {
      assert x + y == y;
    }
  }

  lemma PrependPrepend(done: seq<Attempt>, extra: seq<Attempt>, tr: Trace)
    ensures Prepend(done, Prepend(extra, tr)) == Prepend(done + extra, tr)
  {
    assert done + extra + tr.attempts == done + (extra + tr.attempts);
  }

  /** A turn whose batch did not raise GQLAlchemyDatabaseError is that one attempt. */
  lemma TurnWithoutSplit(start: nat, end: nat, b: nat, depth: nat, respond: nat -> Reply, t: nat,
                         reply: Reply, tries: nat)
    requires 0 < b && start < end && RetryOutcome(reply, tries) == Retry(respond, t)
    requires reply != DatabaseError
    ensures var turn := TurnAt(start, end, b, depth, respond, t);
      && turn.attempts == [Attempt(start, end, depth, tries, reply)]
      && (turn.Stop? <==> reply == OtherError)
      && (turn.Stop? ==> turn.error == StoreFailure)
  {
  }

  /** A turn whose batch raised GQLAlchemyDatabaseError is that attempt followed by the
      re-import of the batch with half the batch size, which decides how the turn ends. */
  lemma TurnWithSplit(start: nat, end: nat, b: nat, depth: nat, respond: nat -> Reply, t: nat,
                      reply: Reply, tries: nat, next: nat)
    requires 0 < b && start < end && RetryOutcome(reply, tries) == Retry(respond, t)
    requires reply == DatabaseError && next == t + tries
    ensures var turn := TurnAt(start, end, b, depth, respond, t);
      var inner := Import(start, end, b / 2, depth + 1, respond, next);
      && turn.attempts == [Attempt(start, end, depth, tries, reply)] + inner.attempts
      && (if turn.Stop? then Some(turn.error) else None)
         == (if inner.outcome.Failed? then Some(inner.outcome.error) else None)
  {
  }

  /** The state of batched_import's loop at `start`, after the attempts `done`, in a run whose
      whole trace is `whole` and whose store log was `log0` when the run began. */
  ghost predicate LoopAt(statement: string, df: seq<Value>, lo: nat, hi: nat, b: nat, depth: nat,
                         respond: nat -> Reply, whole: Trace, log0: seq<Call>,
                         done: seq<Attempt>, start: nat, log: seq<Call>)
  {
    && 0 < b && lo <= start && lo <= hi <= |df| && Within(done, lo, hi)
    && whole == Prepend(done, Loop(lo, hi, b, depth, start, respond, |log|))
    && log == log0 + CallsOf(statement, df, done)
  }

  /** A turn after which the loop goes on at the next start. */
  lemma LoopContinues(statement: string, df: seq<Value>, lo: nat, hi: nat, b: nat, depth: nat,
                      respond: nat -> Reply, whole: Trace, log0: seq<Call>,
                      done: seq<Attempt>, start: nat, log: seq<Call>, turn: seq<Attempt>, log': seq<Call>)
    requires start < hi && LoopAt(statement, df, lo, hi, b, depth, respond, whole, log0, done, start, log)
    requires TurnAt(start, Min(start + b, hi), b, depth, respond, |log|) == Continue(turn)
    requires log' == log + CallsOf(statement, df, turn)
    ensures LoopAt(statement, df, lo, hi, b, depth, respond, whole, log0, done + turn, start + b, log')
  {
    assert |log'| == |log| + Calls(turn);
    var rest := Loop(lo, hi, b, depth, start + b, respond, |log'|);
    assert Loop(lo, hi, b, depth, start, respond, |log|) == Prepend(turn, rest);
    LogExtends(statement, df, log0, done, turn);
    WithinAppend(done, turn, lo, hi);
    PrependPrepend(done, turn, rest);
  }

  /** A turn that an exception escaped: the run ends with it. */
  lemma LoopStops(statement: string, df: seq<Value>, lo: nat, hi: nat, b: nat, depth: nat,
                  respond: nat -> Reply, whole: Trace, log0: seq<Call>,
                  done: seq<Attempt>, start: nat, log: seq<Call>, turn: seq<Attempt>, log': seq<Call>,
                  e: ImportError)
    requires start < hi && LoopAt(statement, df, lo, hi, b, depth, respond, whole, log0, done, start, log)
    requires TurnAt(start, Min(start + b, hi), b, depth, respond, |log|) == Stop(turn, e)
    requires log' == log + CallsOf(statement, df, turn)
    ensures whole == Trace(Failed(e), done + turn)
    ensures Within(done + turn, lo, hi) && log' == log0 + CallsOf(statement, df, done + turn)
  {
    LogExtends(statement, df, log0, done, turn);
    WithinAppend(done, turn, lo, hi);
  }

  /** Before the first turn: nothing done, and the loop ahead is the whole import. */
  lemma LoopStarts(statement: string, df: seq<Value>, lo: nat, hi: nat, b: nat, depth: nat,
                   respond: nat -> Reply, log0: seq<Call>)
    requires 0 < b && lo <= hi <= |df|
    ensures LoopAt(statement, df, lo, hi, b, depth, respond, Import(lo, hi, b, depth, respond, |log0|),
                   log0, [], lo, log0)
  {
    assert Prepend([], Loop(lo, hi, b, depth, lo, respond, |log0|)) == Loop(lo, hi, b, depth, lo, respond, |log0|);
    assert log0 + CallsOf(statement, df, []) == log0;
  }

  /** Once `start` has passed `hi`, every batch was imported. */
  lemma LoopEnds(statement: string, df: seq<Value>, lo: nat, hi: nat, b: nat, depth: nat,
                 respond: nat -> Reply, whole: Trace, log0: seq<Call>,
                 done: seq<Attempt>, start: nat, log: seq<Call>)
    requires start >= hi && LoopAt(statement, df, lo, hi, b, depth, respond, whole, log0, done, start, log)
    ensures whole == Trace(Imported(hi - lo), done)
    ensures Within(done, lo, hi) && log == log0 + CallsOf(statement, df, done)
  {
    assert done + [] == done;
  }

  // ---------------------------------------------------------------------------------------
  // batched_import: the method

  lemma WithinAppend(x: seq<Attempt>, y: seq<Attempt>, lo: nat, hi: nat)
    requires Within(x, lo, hi) && Within(y, lo, hi)
    ensures Within(x + y, lo, hi)
  {
  }

  /** The calls logged for attempts made one after another. */
  lemma LogExtends(statement: string, df: seq<Value>, log0: seq<Call>, done: seq<Attempt>, extra: seq<Attempt>)
    requires Within(done, 0, |df|) && Within(extra, 0, |df|)
    ensures Within(done + extra, 0, |df|)
    ensures log0 + CallsOf(statement, df, done) + CallsOf(statement, df, extra)
         == log0 + CallsOf(statement, df, done + extra)
  {
    WithinAppend(done, extra, 0, |df|);
    CallsOfAppend(statement, df, done, extra);
    AppendAssoc(log0, CallsOf(statement, df, done), CallsOf(statement, df, extra));
  }

  lemma AppendAssoc<T>(a: seq<T>, b: seq<T>, c: seq<T>)
    ensures a + b + c == a + (b + c)
  {
  }

  lemma CallsOfOne(statement: string, df: seq<Value>, a: Attempt)
    requires a.lo < a.hi <= |df|
    ensures CallsOf(statement, df, [a]) == Repeat(BatchCall(statement, df, a.lo, a.hi), a.tries)
    ensures Calls([a]) == a.tries
  {
    assert [a][1..] == [];
  }

  /** batched_import(statement, df[lo..hi], batchSize). */
  method ImportRange(store: Store, statement: string, df: seq<Value>, lo: nat, hi: nat,
                     batchSize: nat, ghost depth: nat) returns (outcome: Outcome)
    requires lo <= hi <= |df|
    modifies store
    ensures var tr := Import(lo, hi, batchSize, depth, store.respond, |old(store.log)|);
      outcome == tr.outcome && store.log == old(store.log) + CallsOf(statement, df, tr.attempts)
    decreases batchSize, 2
  {
    if batchSize == 0 {
      // range(0, total, 0) raises ValueError before any row is sent
      return Failed(ZeroStep);
    }
    ghost var log0 := store.log;
    ghost var whole := Import(lo, hi, batchSize, depth, store.respond, |store.log|);
    ghost var done: seq<Attempt> := [];
    LoopStarts(statement, df, lo, hi, batchSize, depth, store.respond, log0);
    var start := lo;
    while start < hi
      invariant LoopAt(statement, df, lo, hi, batchSize, depth, store.respond, whole, log0, done, start, store.log)
      decreases hi - start
    {
      var error;
      error, done := ImportStep(store, statement, df, lo, hi, batchSize, depth, start, done, whole, log0);
      if error.Some? {
        return Failed(error.value);
      }
      start := start + batchSize;
    }
    LoopEnds(statement, df, lo, hi, batchSize, depth, store.respond, whole, log0, done, start, store.log);
    return Imported(hi - lo);
  }

  /** One turn of batched_import's loop, at `start`, after the attempts `done`. */
  method ImportStep(store: Store, statement: string, df: seq<Value>, lo: nat, hi: nat,
                    batchSize: nat, ghost depth: nat, start: nat, ghost done: seq<Attempt>,
                    ghost whole: Trace, ghost log0: seq<Call>)
    returns (error: Option<ImportError>, ghost done': seq<Attempt>)
    requires start < hi
    requires LoopAt(statement, df, lo, hi, batchSize, depth, store.respond, whole, log0, done, start, store.log)
    modifies store
    ensures error.None? ==>
      LoopAt(statement, df, lo, hi, batchSize, depth, store.respond, whole, log0, done', start + batchSize, store.log)
    ensures error.Some? ==>
      && Within(done', lo, hi) && whole == Trace(Failed(error.value), done')
      && store.log == log0 + CallsOf(statement, df, done')
    decreases batchSize, 1
  {
    ghost var log := store.log;
    ghost var turn;
    error, turn := ImportBatch(store, statement, df, start, Min(start + batchSize, hi), batchSize, depth);
    done' := done + turn.attempts;
    if error.Some? {
      LoopStops(statement, df, lo, hi, batchSize, depth, store.respond, whole, log0, done, start, log,
                turn.attempts, store.log, error.value);
    } else {
      LoopContinues(statement, df, lo, hi, batchSize, depth, store.respond, whole, log0, done, start, log,
                    turn.attempts, store.log);
    }
  }

  /** The turn of a batch that did not raise GQLAlchemyDatabaseError, once its tries are logged. */
  lemma BatchAlone(statement: string, df: seq<Value>, start: nat, end: nat, b: nat, depth: nat,
                   respond: nat -> Reply, log0: seq<Call>, reply: Reply, tries: nat, log1: seq<Call>)
    requires 0 < b && start < end <= |df| && RetryOutcome(reply, tries) == Retry(respond, |log0|)
    requires reply != DatabaseError
    requires log1 == log0 + Repeat(BatchCall(statement, df, start, end), tries)
    ensures var turn := TurnAt(start, end, b, depth, respond, |log0|);
      && (if turn.Stop? then Some(turn.error) else None)
         == (if reply == OtherError then Some(StoreFailure) else None)
      && log1 == log0 + CallsOf(statement, df, turn.attempts)
  {
    TurnWithoutSplit(start, end, b, depth, respond, |log0|, reply, tries);
    CallsOfOne(statement, df, Attempt(start, end, depth, tries, reply));
  }

  /** The store calls of a batch that raised GQLAlchemyDatabaseError: its own tries, then the
      calls of the re-import of the batch with half the batch size. */
  lemma BatchSplitLog(statement: string, df: seq<Value>, start: nat, end: nat, b: nat, depth: nat,
                      respond: nat -> Reply, log0: seq<Call>, reply: Reply, tries: nat, log1: seq<Call>,
                      log2: seq<Call>)
    requires 0 < b && start < end <= |df| && RetryOutcome(reply, tries) == Retry(respond, |log0|)
    requires reply == DatabaseError
    requires log1 == log0 + Repeat(BatchCall(statement, df, start, end), tries)
    requires log2 == log1 + CallsOf(statement, df, Import(start, end, b / 2, depth + 1, respond, |log1|).attempts)
    ensures log2 == log0 + CallsOf(statement, df, TurnAt(start, end, b, depth, respond, |log0|).attempts)
  {
    var a := Attempt(start, end, depth, tries, reply);
    var inner := Import(start, end, b / 2, depth + 1, respond, |log1|);
    TurnWithSplit(start, end, b, depth, respond, |log0|, reply, tries, |log1|);
    CallsOfOne(statement, df, a);
    LogExtends(statement, df, log0, [a], inner.attempts);
  }

  /** The turn of a batch that raised GQLAlchemyDatabaseError, once its tries and the re-import
      of the batch with half the batch size are logged. */
  lemma BatchSplit(statement: string, df: seq<Value>, start: nat, end: nat, b: nat, depth: nat,
                   respond: nat -> Reply, log0: seq<Call>, reply: Reply, tries: nat, log1: seq<Call>,
                   sub: Outcome, log2: seq<Call>)
    requires 0 < b && start < end <= |df| && RetryOutcome(reply, tries) == Retry(respond, |log0|)
    requires reply == DatabaseError
    requires log1 == log0 + Repeat(BatchCall(statement, df, start, end), tries)
    requires var inner := Import(start, end, b / 2, depth + 1, respond, |log1|);
      sub == inner.outcome && log2 == log1 + CallsOf(statement, df, inner.attempts)
    ensures var turn := TurnAt(start, end, b, depth, respond, |log0|);
      && (if turn.Stop? then Some(turn.error) else None)
         == (if sub.Failed? then Some(sub.error) else None)
      && log2 == log0 + CallsOf(statement, df, turn.attempts)
  {
    TurnWithSplit(start, end, b, depth, respond, |log0|, reply, tries, |log1|);
    BatchSplitLog(statement, df, start, end, b, depth, respond, log0, reply, tries, log1, log2);
  }

  /** The body of batched_import's loop for the batch [start, end): submit its converted
      records through execute_with_retry and, if that raises GQLAlchemyDatabaseError, import the
      batch alone again with half the batch size. Returns the exception that escapes, if any. */
  method ImportBatch(store: Store, statement: string, df: seq<Value>, start: nat, end: nat,
                     batchSize: nat, ghost depth: nat) returns (error: Option<ImportError>, ghost turn: Turn)
    requires 0 < batchSize && start < end <= |df|
    modifies store
    ensures turn == TurnAt(start, end, batchSize, depth, store.respond, |old(store.log)|)
    ensures error == (if turn.Stop? then Some(turn.error) else None)
    ensures store.log == old(store.log) + CallsOf(statement, df, turn.attempts)
    decreases batchSize, 0
  {
    ghost var log0 := store.log;
    turn := TurnAt(start, end, batchSize, depth, store.respond, |log0|);
    var call := Call(Unwind(statement), [("rows", List(ConvertRecords(df[start..end])))]);
    assert call == BatchCall(statement, df, start, end);
    var reply, tries := ExecuteWithRetry(store, call);
    if reply == DatabaseError {
      ghost var log1 := store.log;
      var sub := ImportRange(store, statement, df, start, end, batchSize / 2, depth + 1);
      BatchSplit(statement, df, start, end, batchSize, depth, store.respond, log0, reply, tries, log1,
                 sub, store.log);
      // an exception raised by the recursive call propagates out of the except clause
      error := if sub.Failed? then Some(sub.error) else None;
    } else {
      BatchAlone(statement, df, start, end, batchSize, depth, store.respond, log0, reply, tries, store.log);
      error := if reply == OtherError then Some(StoreFailure) else None;
    }
  }

  /** batched_import(statement, df, batchSize). */
  method BatchedImport(store: Store, statement: string, df: seq<Value>, batchSize: nat)
    returns (outcome: Outcome)
    modifies store
    ensures var tr := Import(0, |df|, batchSize, 0, store.respond, |old(store.log)|);
      outcome == tr.outcome && store.log == old(store.log) + CallsOf(statement, df, tr.attempts)
  {
    outcome := ImportRange(store, statement, df, 0, |df|, batchSize, 0);
  }
}
