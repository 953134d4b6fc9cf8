/** Runs of one API call, promoter tick, cron tick or outbox batch with nothing in between, and
    with the answers of the store, of Kafka and of the email handler given beforehand. */
module Calls {
  import opened Types
  import opened Tables
  import opened Protocol
  import opened Driving

  /** How the calls come out. Those made once per listed row are given by the row's id; `ids` is
      what the list statement brought. */
  datatype CallEnv =
    | SubmitEnv(lookup: Outcome, create: Outcome, enqueue: Outcome)
    | CancelEnv(lookup: Outcome, write: Outcome)
    | ReplayEnv(lookup: Outcome, enqueue: Outcome, create: Outcome)
    | PromoteEnv(list: Outcome, ids: seq<nat>, enqueues: nat -> Outcome, writes: nat -> Outcome)
    | CronEnv(list: Outcome, ids: seq<nat>, creates: nat -> Outcome, enqueues: nat -> Outcome, writes: nat -> Outcome,
              next: (string, int) -> int)
    | BatchEnv(list: Outcome, ids: seq<nat>, delivers: nat -> bool, writes: nat -> Outcome)

  /** The same environment, the list statement having brought `ids`. */
  function WithIds(env: CallEnv, ids: seq<nat>): CallEnv {
    match env
    case PromoteEnv(list, _, enqueues, writes) => PromoteEnv(list, ids, enqueues, writes)
    case CronEnv(list, _, creates, enqueues, writes, next) => CronEnv(list, ids, creates, enqueues, writes, next)
    case BatchEnv(list, _, delivers, writes) => BatchEnv(list, ids, delivers, writes)
    case _ => env
  }

  /** The outcome of the statement a call makes next. */
  function OutcomeOf(env: CallEnv, call: Call): Outcome {
    if env.SubmitEnv? && call.Submit? then
      if call.spc.SLookup? then env.lookup else if call.spc.SCreate? then env.create
      else if call.spc.SEnqueue? then env.enqueue else Ok
    else if env.CancelEnv? && call.Cancel? then
      if call.cpc.CLookup? then env.lookup else env.write
    else if env.ReplayEnv? && call.Replay? then
      if call.rpc.RLookup? then env.lookup else if call.rpc.REnqueue? then env.enqueue else env.create
    else if env.PromoteEnv? && call.Promote? then
      if call.ppc.PList? then env.list
      else if call.ppc.todo == [] then Ok
      else if call.ppc.PEnqueue? then env.enqueues(call.ppc.todo[0].id) else env.writes(call.ppc.todo[0].id)
    else if env.CronEnv? && call.Cron? then
      if call.tpc.TList? then env.list
      else if call.tpc.todo == [] then Ok
      else if call.tpc.TCreate? then env.creates(call.tpc.todo[0].id)
      else if call.tpc.TEnqueue? then env.enqueues(call.tpc.todo[0].id) else env.writes(call.tpc.todo[0].id)
    else if env.BatchEnv? && call.Batch? then
      if call.bpc.BList? then env.list
      else if call.bpc.BMark? && call.bpc.todo != [] then env.writes(call.bpc.todo[0]) else Ok
    else Ok
  }

  /** What it brings back. */
  function AnswerOf(env: CallEnv, call: Call): Answer {
    if env.PromoteEnv? && call.Promote? && call.ppc.PList? then Rows(env.ids)
    else if env.CronEnv? && call.Cron? && call.tpc.TList? then Rows(env.ids)
    else if env.CronEnv? && call.Cron? && call.tpc.TUpdate? && call.tpc.todo != [] then
      NextAt(env.next(call.tpc.todo[0].row.cron, call.tpc.todo[0].row.nextRun))
    else if env.BatchEnv? && call.Batch? && call.bpc.BList? then Rows(env.ids)
    else if env.BatchEnv? && call.Batch? && call.bpc.BSend? && call.bpc.todo != [] then Delivered(env.delivers(call.bpc.todo[0]))
    else Nothing
  }

  /** Whether call `c` can make its next statement, answered as `env` says. */
  ghost predicate Ready(s: State, c: nat, env: CallEnv) {
    c < |s.calls| && StepEnabled(s, c, OutcomeOf(env, s.calls[c]), AnswerOf(env, s.calls[c]))
  }

  function EventAt(c: nat, env: CallEnv, call: Call): Event {
    Step(c, OutcomeOf(env, call), AnswerOf(env, call))
  }

  /** Every event of the run is a step of call `c`, answered as `env` says. */
  ghost predicate Obeys(s: State, run: seq<Event>, c: nat, env: CallEnv)
    decreases |run|
  {
    run == [] ||
    (Ready(s, c, env) && run[0] == EventAt(c, env, s.calls[c]) && Obeys(Apply(s, run[0]), run[1..], c, env))
  }

  lemma {:induction false} ObeysGrows(s: State, run: seq<Event>, c: nat, env: CallEnv)
    requires Legal(s, run) && Obeys(s, run, c, env) && Ready(After(s, run), c, env)
    ensures Obeys(s, run + [EventAt(c, env, After(s, run).calls[c])], c, env)
    decreases |run|
  {
    var e := EventAt(c, env, After(s, run).calls[c]);
    if run == [] {
      assert Obeys(Apply(s, e), [], c, env);
      assert [e][1..] == [];
    } else {
      ObeysGrows(Apply(s, run[0]), run[1..], c, env);
      assert (run + [e])[0] == run[0] && (run + [e])[1..] == run[1..] + [e];
    }
  }

  /** The run begins `call` in `s0` and takes it, answered as `env` says, to `s`. The protocol being
      deterministic, this leaves no choice of run. */
  ghost predicate Made(s0: State, call: Call, run: seq<Event>, s: State, env: CallEnv) {
    && Fresh(s0, call) && run != [] && run[0] == Begin(call) && Runs(s0, run, s)
    && Obeys(Begun(s0, call), run[1..], |s0.calls|, env)
    && |s.calls| == |s0.calls| + 1 && s.calls[..|s0.calls|] == s0.calls
    && s.execs == s0.execs && s.sem == s0.sem && s.clock == s0.clock && s.paused == s0.paused
  }

  lemma BeginCall(s0: State, call: Call, env: CallEnv) returns (run: seq<Event>, s: State)
    requires Fresh(s0, call)
    ensures Made(s0, call, run, s, env) && s == Begun(s0, call)
  {
    run, s := DriveBegin(s0, call);
    assert run[1..] == [];
  }

  /** The next statement of the call. */
  lemma NextStatement(s0: State, call: Call, run: seq<Event>, s: State, env: CallEnv) returns (run': seq<Event>, s': State)
    requires Made(s0, call, run, s, env) && Ready(s, |s0.calls|, env)
    ensures Made(s0, call, run', s', env)
    ensures var c := |s0.calls|; var o := OutcomeOf(env, s.calls[c]); var a := AnswerOf(env, s.calls[c]);
            && Performs(s, s', Effective(CallOp(s.calls[c], |s.born|, s.outbox, a), o))
            && s'.born == s.born + CallBirths(s.calls[c], c)
            && s'.calls[c] == CallNext(s, c, o, a)
  {
    var c := |s0.calls|;
    MadeObeys(s0, call, run, s, env);
    run', s' := DriveCall(s0, run, s, c, OutcomeOf(env, s.calls[c]), AnswerOf(env, s.calls[c]));
    assert run'[1..] == run[1..] + [EventAt(c, env, s.calls[c])];
  }

  lemma MadeObeys(s0: State, call: Call, run: seq<Event>, s: State, env: CallEnv)
    requires Made(s0, call, run, s, env) && Ready(s, |s0.calls|, env)
    ensures Obeys(Begun(s0, call), run[1..] + [EventAt(|s0.calls|, env, s.calls[|s0.calls|])], |s0.calls|, env)
  {
    ObeysGrows(Begun(s0, call), run[1..], |s0.calls|, env);
  }
}
