/** The top level of load_to_mem.py: the best-effort constraint loop, then the six imports in
    their fixed order. The statement texts are a parameter here; module Script supplies the
    script's own. The parquet frames the script reads are parameters too. */
module Pipeline {
  import opened TypeNormalizer
  import opened GraphStore
  import opened Ingestion

  /** The six import stages, in the order the script runs them. */
  datatype Stage = Documents | Chunks | Entities | Relationships | Communities | CommunityReports

  const StageOrder: seq<Stage> := [Documents, Chunks, Entities, Relationships, Communities, CommunityReports]

  /** memgraph.execute(constraint) for each constraint, with no parameters. */
  function ConstraintCalls(constraints: seq<string>): (r: seq<Call>)
    ensures |r| == |constraints| && forall k :: 0 <= k < |r| ==> r[k] == Call(constraints[k], [])
  {
    seq(|constraints|, k requires 0 <= k < |constraints| => Call(constraints[k], []))
  }

  /** The constraint loop: each constraint is sent once, in list order, and whatever it
      raises is caught, so the store's answers have no bearing on what is sent. */
  method CreateConstraints(store: Store, constraints: seq<string>)
    modifies store
    ensures store.log == old(store.log) + ConstraintCalls(constraints)
  {
    for i := 0 to |constraints|
      invariant store.log == old(store.log) + ConstraintCalls(constraints)[..i]
    {
      // Created, or "might already exist or failed": either way the loop goes on.
      var _ := store.Execute(Call(constraints[i], []));
      assert ConstraintCalls(constraints)[..i + 1] == ConstraintCalls(constraints)[..i] + [Call(constraints[i], [])];
    }
    assert ConstraintCalls(constraints)[..|constraints|] == ConstraintCalls(constraints);
  }

  /** What running a list of stages from store call t does: the stages that completed, the
      error that escaped (if any) and the store calls of each stage that started. */
  datatype StageRun = StageRun(completed: seq<Stage>, failure: Option<ImportError>, blocks: seq<seq<Call>>)

  /** What one stage does from store call t: batched_import(statement(s), frame(s)) with the
      default batch size, and the store calls it makes. */
  datatype StageResult = StageResult(outcome: Outcome, calls: seq<Call>)

  function RunStage(s: Stage, statement: Stage -> string, frame: Stage -> seq<Value>,
                    respond: nat -> Reply, t: nat): StageResult
  {
    var tr := Import(0, |frame(s)|, DefaultBatchSize, 0, respond, t);
    StageResult(tr.outcome, CallsOf(statement(s), frame(s), tr.attempts))
  }

  /** The stages run one after the other; the first error ends the run. */
  function RunStages(stages: seq<Stage>, statement: Stage -> string, frame: Stage -> seq<Value>,
                     respond: nat -> Reply, t: nat): (r: StageRun)
    ensures |r.completed| <= |stages| && r.completed == stages[..|r.completed|]
    ensures |r.blocks| == |r.completed| + (if r.failure.Some? then 1 else 0)
    ensures r.failure.None? <==> r.completed == stages
    decreases |stages|
  {
    if stages == [] then StageRun([], None, [])
    else
      var sr := RunStage(stages[0], statement, frame, respond, t);
      if sr.outcome.Failed? then StageRun([], Some(sr.outcome.error), [sr.calls])
      else
        var rest := RunStages(stages[1..], statement, frame, respond, t + |sr.calls|);
        StageRun([stages[0]] + rest.completed, rest.failure, [sr.calls] + rest.blocks)
  }

  function Flatten(blocks: seq<seq<Call>>): seq<Call>
  {
    if blocks == [] then [] else blocks[0] + Flatten(blocks[1..])
  }

  lemma FlattenSnoc(blocks: seq<seq<Call>>, b: seq<Call>)
    ensures Flatten(blocks + [b]) == Flatten(blocks) + b
  {
    if blocks != [] {
      assert (blocks + [b])[1..] == blocks[1..] + [b];
      FlattenSnoc(blocks[1..], b);
    } else {
      assert [] + [b] == [b];
    }
  }

  lemma {:induction false} CallsOfQuery(statement: string, df: seq<Value>, attempts: seq<Attempt>)
    requires Within(attempts, 0, |df|)
    ensures forall j :: 0 <= j < |CallsOf(statement, df, attempts)| ==>
      CallsOf(statement, df, attempts)[j].query == Unwind(statement)
  {
    if attempts != [] {
      CallsOfQuery(statement, df, attempts[1..]);
    }
  }

  /** Each stage sends only its own statement, so the log is the stages' calls in stage order,
      and a stage after the one that raised sends nothing. */
  lemma {:induction false} RunStagesQueries(stages: seq<Stage>, statement: Stage -> string,
                                            frame: Stage -> seq<Value>, respond: nat -> Reply, t: nat)
    ensures forall k, j ::
      (0 <= k < |RunStages(stages, statement, frame, respond, t).blocks|
       && 0 <= j < |RunStages(stages, statement, frame, respond, t).blocks[k]|) ==>
        RunStages(stages, statement, frame, respond, t).blocks[k][j].query == Unwind(statement(stages[k]))
    decreases |stages|
  {
    if stages != [] {
      var s := stages[0];
      var sr := RunStage(s, statement, frame, respond, t);
      CallsOfQuery(statement(s), frame(s), Import(0, |frame(s)|, DefaultBatchSize, 0, respond, t).attempts);
      if sr.outcome.Imported? {
        RunStagesQueries(stages[1..], statement, frame, respond, t + |sr.calls|);
      }
    }
  }

  function Resume(completed: seq<Stage>, done: seq<seq<Call>>, rest: StageRun): StageRun
  {
    StageRun(completed + rest.completed, rest.failure, done + rest.blocks)
  }

  /** The pipeline has run stages[..k], which made the calls `done`, and the whole run is
      `whole`. */
  ghost predicate PipelineAt(stages: seq<Stage>, statement: Stage -> string, frame: Stage -> seq<Value>,
                     respond: nat -> Reply, whole: StageRun,
                             log0: seq<Call>, k: nat, done: seq<seq<Call>>, log: seq<Call>)
  {
    && k <= |stages| && |done| == k
    && whole == Resume(stages[..k], done, RunStages(stages[k..], statement, frame, respond, |log|))
    && log == log0 + Flatten(done)
  }

  /** One more stage done, as seen from the run as a whole. */
  lemma Advance(stages: seq<Stage>, k: nat, whole: StageRun, done: seq<seq<Call>>, here: StageRun,
                next: StageRun, c: seq<Call>, log0: seq<Call>, log: seq<Call>)
    requires k < |stages| && whole == Resume(stages[..k], done, here)
    requires here == StageRun([stages[k]] + next.completed, next.failure, [c] + next.blocks)
    requires log == log0 + Flatten(done)
    ensures whole == Resume(stages[..k + 1], done + [c], next)
    ensures log + c == log0 + Flatten(done + [c])
  {
    assert stages[..k] + ([stages[k]] + next.completed) == stages[..k + 1] + next.completed;
    assert done + ([c] + next.blocks) == (done + [c]) + next.blocks;
    FlattenSnoc(done, c);
  }

  lemma StageContinues(stages: seq<Stage>, statement: Stage -> string, frame: Stage -> seq<Value>,
                       respond: nat -> Reply, whole: StageRun,
                       log0: seq<Call>, k: nat, done: seq<seq<Call>>, log: seq<Call>, sr: StageResult)
    requires k < |stages| && PipelineAt(stages, statement, frame, respond, whole, log0, k, done, log)
    requires sr == RunStage(stages[k], statement, frame, respond, |log|) && sr.outcome.Imported?
    ensures PipelineAt(stages, statement, frame, respond, whole, log0, k + 1, done + [sr.calls], log + sr.calls)
  {
    var here := stages[k..];
    assert here[0] == stages[k] && here[1..] == stages[k + 1..];
    var next := RunStages(stages[k + 1..], statement, frame, respond, |log + sr.calls|);
    assert |log + sr.calls| == |log| + |sr.calls|;
    Advance(stages, k, whole, done, RunStages(here, statement, frame, respond, |log|), next, sr.calls, log0, log);
  }

  lemma StageStops(stages: seq<Stage>, statement: Stage -> string, frame: Stage -> seq<Value>,
                     respond: nat -> Reply, whole: StageRun,
                   log0: seq<Call>, k: nat, done: seq<seq<Call>>, log: seq<Call>, sr: StageResult)
    requires k < |stages| && PipelineAt(stages, statement, frame, respond, whole, log0, k, done, log)
    requires sr == RunStage(stages[k], statement, frame, respond, |log|) && sr.outcome.Failed?
    ensures whole.failure == Some(sr.outcome.error)
    ensures whole.blocks == done + [sr.calls] && log + sr.calls == log0 + Flatten(done + [sr.calls])
  {
    assert stages[k..][0] == stages[k];
    FlattenSnoc(done, sr.calls);
  }

  /** Before the first stage, nothing is done and the run ahead is the whole run. */
  lemma PipelineStarts(stages: seq<Stage>, statement: Stage -> string, frame: Stage -> seq<Value>,
                       respond: nat -> Reply, log0: seq<Call>)
    ensures PipelineAt(stages, statement, frame, respond,
                       RunStages(stages, statement, frame, respond, |log0|), log0, 0, [], log0)
  {
    assert stages[0..] == stages && stages[..0] == [];
    assert log0 + Flatten([]) == log0;
  }

  /** The run `whole` ended with `failure` after the calls `log` (from `log0` on). */
  ghost predicate Ended(whole: StageRun, log0: seq<Call>, failure: Option<ImportError>, log: seq<Call>)
  {
    whole.failure == failure && log == log0 + Flatten(whole.blocks)
  }

  lemma AllStagesRan(stages: seq<Stage>, statement: Stage -> string, frame: Stage -> seq<Value>,
                     respond: nat -> Reply, whole: StageRun,
                     log0: seq<Call>, done: seq<seq<Call>>, log: seq<Call>)
    requires PipelineAt(stages, statement, frame, respond, whole, log0, |stages|, done, log)
    ensures Ended(whole, log0, None, log)
  {
    assert stages[|stages|..] == [];
    assert whole.blocks == done + [] == done;
  }

  /** batched_import(statement(s), frame(s)) for the k-th stage, with the default batch size. */
  method ImportStage(store: Store, statement: Stage -> string, frame: Stage -> seq<Value>,
                     stages: seq<Stage>, k: nat, ghost whole: StageRun,
                     ghost log0: seq<Call>, ghost done: seq<seq<Call>>)
    returns (failure: Option<ImportError>, ghost done': seq<seq<Call>>)
    requires k < |stages|
    requires PipelineAt(stages, statement, frame, store.respond, whole, log0, k, done, store.log)
    modifies store
    ensures failure.None? ==>
      PipelineAt(stages, statement, frame, store.respond, whole, log0, k + 1, done', store.log)
    ensures failure.Some? ==> Ended(whole, log0, failure, store.log)
  {
    var s := stages[k];
    ghost var log := store.log;
    ghost var sr := RunStage(s, statement, frame, store.respond, |log|);
    var outcome := BatchedImport(store, statement(s), frame(s), DefaultBatchSize);
    done' := done + [sr.calls];
    if outcome.Failed? {
      StageStops(stages, statement, frame, store.respond, whole, log0, k, done, log, sr);
      failure := Some(outcome.error);
    } else {
      StageContinues(stages, statement, frame, store.respond, whole, log0, k, done, log, sr);
      failure := None;
    }
  }

  /** The six imports of the script, in the order of `stages`; an error escaping one of them
      ends the script, so no later stage runs. */
  method ImportStages(store: Store, statement: Stage -> string, frame: Stage -> seq<Value>,
                      stages: seq<Stage>, ghost whole: StageRun, ghost log0: seq<Call>)
    returns (failure: Option<ImportError>)
    requires |stages| == 6
    requires PipelineAt(stages, statement, frame, store.respond, whole, log0, 0, [], store.log)
    modifies store
    ensures Ended(whole, log0, failure, store.log)
  {
    ghost var done: seq<seq<Call>> := [];
    failure, done := ImportStage(store, statement, frame, stages, 0, whole, log0, done);
    if failure.Some? { return; }
    failure, done := ImportStage(store, statement, frame, stages, 1, whole, log0, done);
    if failure.Some? { return; }
    failure, done := ImportStage(store, statement, frame, stages, 2, whole, log0, done);
    if failure.Some? { return; }
    failure := ImportLaterStages(store, statement, frame, stages, whole, log0, done);
  }

  /** The last three imports, once the first three are done. */
  method ImportLaterStages(store: Store, statement: Stage -> string, frame: Stage -> seq<Value>,
                           stages: seq<Stage>, ghost whole: StageRun, ghost log0: seq<Call>,
                           ghost done0: seq<seq<Call>>)
    returns (failure: Option<ImportError>)
    requires |stages| == 6
    requires PipelineAt(stages, statement, frame, store.respond, whole, log0, 3, done0, store.log)
    modifies store
    ensures Ended(whole, log0, failure, store.log)
  {
    ghost var done := done0;
    failure, done := ImportStage(store, statement, frame, stages, 3, whole, log0, done);
    if failure.Some? { return; }
    failure, done := ImportStage(store, statement, frame, stages, 4, whole, log0, done);
    if failure.Some? { return; }
    failure, done := ImportStage(store, statement, frame, stages, 5, whole, log0, done);
    if failure.Some? { return; }
    AllStagesRan(stages, statement, frame, store.respond, whole, log0, done, store.log);
  }

  /** The script after the connection is made: the constraint loop, then the six imports. */
  method RunPipeline(store: Store, constraints: seq<string>, statement: Stage -> string,
                     frame: Stage -> seq<Value>) returns (failure: Option<ImportError>)
    modifies store
    ensures var r := RunStages(StageOrder, statement, frame, store.respond, |old(store.log) + ConstraintCalls(constraints)|);
      failure == r.failure && store.log == old(store.log) + ConstraintCalls(constraints) + Flatten(r.blocks)
  {
    CreateConstraints(store, constraints);
    ghost var log0 := store.log;
    ghost var whole := RunStages(StageOrder, statement, frame, store.respond, |log0|);
    PipelineStarts(StageOrder, statement, frame, store.respond, log0);
    failure := ImportStages(store, statement, frame, StageOrder, whole, log0);
  }
}
