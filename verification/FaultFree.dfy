/** Runs in which no call fails, nothing is redelivered, no worker crashes and no worker finds
    its queue paused; each API call and each promotion or cron firing of one job is one step,
    promoter ticks do not overlap, nothing is submitted with a run_at that has already passed, and every
    max_retry is below 2^31-1.
    A listed job may be cancelled before its promotion, which then goes ahead as the code does it.
    Workers still interleave at every store and Kafka call; `OpenCalls` and the modules on gaps take the
    API calls, promotions and firings apart. Every step is a run of the full
    protocol. */
module FaultFree {
  import opened Types
  import opened Tables
  import opened Protocol
  import opened Identity
  import opened Accounting
  import opened Tokens

  datatype FEvent =
    | FTick(seconds: nat)
    | FPause(queue: string, paused: bool)
    | FAddSchedule(row: Schedule)
    | FDropSchedule(id: nat)
    | FDeliver(offset: nat, worker: nat)
    | FWork(exec: nat, success: bool)
    | FSubmit(req: SubmitReq)
    | FCancel(job: nat)
    | FReplay(job: nat, queue: string)
    | FBegin(call: Call)                 // a promoter tick, a cron tick or an outbox batch
    | FList(tick: nat, ids: seq<nat>)   // its SELECT
    | FPromote(tick: nat)
    | FFire(tick: nat, next: int)
    | FBatch(tick: nat, answer: Answer)

  /** Let call `c` take up to `n` more steps, all going through. */
  ghost function Finish(s: State, c: nat, n: nat): State
    decreases n
  {
    if n == 0 || !StepEnabled(s, c, Ok, Nothing) then s else Finish(AfterStep(s, c, Ok, Nothing), c, n - 1)
  }

  ghost function Fire(s: State, c: nat, next: int): State
    requires StepEnabled(s, c, Ok, Nothing)
  {
    var s2 := Finish(s, c, 2);
    if StepEnabled(s2, c, Ok, NextAt(next)) then AfterStep(s2, c, Ok, NextAt(next)) else s2
  }

  /** A promoter tick that has rows to list or to promote. */
  predicate Promoting(call: Call) {
    call.Promote? && (call.ppc.PList? || call.ppc.todo != [])
  }

  predicate HasTodo(s: State, c: nat) {
    c < |s.calls| &&
    match s.calls[c]
    case Promote(_, PEnqueue(todo)) => todo != []
    case Cron(_, TCreate(todo)) => todo != []
    case _ => false
  }

  ghost predicate FEnabled(s: State, f: FEvent) {
    match f
    case FAddSchedule(row) => row.first == row.nextRun && row.maxRetry < MAX_INT32
    case FDeliver(i, _) => i < |s.log| && i !in s.taken
    case FWork(x, success) => Smooth(s, x, success)
    case FSubmit(r) => r.maxRetry < MAX_INT32 && !(0 < r.runAt <= s.clock)
    case FBegin(call) =>
      Fresh(s, call) && (call.Promote? || call.Cron? || call.Batch?)
      && (call.Promote? ==> forall c :: 0 <= c < |s.calls| ==> !Promoting(s.calls[c]))
    case FList(c, ids) =>
      c < |s.calls| && StepEnabled(s, c, Ok, Rows(ids))
      && (s.calls[c].Promote? ==> s.calls[c].ppc.PList?)
      && (s.calls[c].Cron? ==> s.calls[c].tpc.TList?)
      && (s.calls[c].Batch? ==> s.calls[c].bpc.BList?)
      && (s.calls[c].Promote? || s.calls[c].Cron? || s.calls[c].Batch?)
    case FPromote(c) => HasTodo(s, c) && s.calls[c].Promote?
    case FFire(c, _) => HasTodo(s, c) && s.calls[c].Cron?
    case FBatch(c, a) => c < |s.calls| && s.calls[c].Batch? && !s.calls[c].bpc.BList? && StepEnabled(s, c, Ok, a)
    case _ => true
  }

  ghost function FApply(s: State, f: FEvent): State
    requires FEnabled(s, f)
  {
    match f
    case FTick(d) => Apply(s, Tick(d))
    case FPause(q, paused) => Apply(s, Pause(q, paused))
    case FAddSchedule(row) => Apply(s, AddSchedule(row))
    case FDropSchedule(id) => Apply(s, DropSchedule(id))
    case FDeliver(i, w) => Apply(s, Deliver(i, w))
    case FWork(x, success) => AfterWork(s, x, Ok, success)
    case FSubmit(r) => Finish(Begun(s, Submit(r, SLookup)), |s.calls|, 4)
    case FCancel(j) => Finish(Begun(s, Cancel(j, CLookup)), |s.calls|, 2)
    case FReplay(j, q) => Finish(Begun(s, Replay(j, q, RLookup)), |s.calls|, 3)
    case FBegin(call) => Begun(s, call)
    case FList(c, ids) => AfterStep(s, c, Ok, Rows(ids))
    case FPromote(c) => Finish(s, c, 2)
    case FFire(c, next) => Fire(s, c, next)
    case FBatch(c, a) => AfterStep(s, c, Ok, a)
  }

  ghost predicate FLegal(s: State, run: seq<FEvent>)
    decreases |run|
  {
    run != [] ==> FEnabled(s, run[0]) && FLegal(FApply(s, run[0]), run[1..])
  }

  ghost function FAfter(s: State, run: seq<FEvent>): State
    requires FLegal(s, run)
    decreases |run|
  {
    if run == [] then s else FAfter(FApply(s, run[0]), run[1..])
  }

  // ---- every fault-free step is a run of the protocol ----

  ghost predicate Reaches(s: State, s': State) {
    exists run :: Legal(s, run) && After(s, run) == s'
  }

  lemma ReachesSelf(s: State)
    ensures Reaches(s, s)
  {
    assert Legal(s, []) && After(s, []) == s;
  }

  lemma ReachesThen(s: State, s': State, e: Event)
    requires Reaches(s, s') && Enabled(s', e)
    ensures Reaches(s, Apply(s', e))
  {
    var run :| Legal(s, run) && After(s, run) == s';
    RunSnoc(s, run, e);
  }

  lemma ReachesThrough(s: State, s1: State, s2: State)
    requires Reaches(s, s1) && Reaches(s1, s2)
    ensures Reaches(s, s2)
  {
    var a :| Legal(s, a) && After(s, a) == s1;
    var b :| Legal(s1, b) && After(s1, b) == s2;
    RunConcat(s, a, b);
  }

  lemma {:induction false} ReachesFinish(s: State, s': State, c: nat, n: nat)
    requires Reaches(s, s')
    ensures Reaches(s, Finish(s', c, n))
    decreases n
  {
    if n > 0 && StepEnabled(s', c, Ok, Nothing) {
      ReachesThen(s, s', Step(c, Ok, Nothing));
      ReachesFinish(s, AfterStep(s', c, Ok, Nothing), c, n - 1);
    }
  }

  lemma BegunReached(s: State, call: Call)
    requires Fresh(s, call)
    ensures Reaches(s, Begun(s, call))
  {
    ReachesSelf(s);
    ReachesThen(s, s, Begin(call));
  }

  lemma FStepIsRun(s: State, f: FEvent)
    requires FEnabled(s, f)
    ensures Reaches(s, FApply(s, f))
  {
    ReachesSelf(s);
    match f {
      case FTick(d) => ReachesThen(s, s, Tick(d));
      case FPause(q, paused) => ReachesThen(s, s, Pause(q, paused));
      case FAddSchedule(row) => ReachesThen(s, s, AddSchedule(row));
      case FDropSchedule(id) => ReachesThen(s, s, DropSchedule(id));
      case FDeliver(i, w) => ReachesThen(s, s, Deliver(i, w));
      case FWork(x, success) => ReachesThen(s, s, Work(x, Ok, success));
      case FSubmit(r) => BegunReached(s, Submit(r, SLookup)); ReachesFinish(s, Begun(s, Submit(r, SLookup)), |s.calls|, 4);
      case FCancel(j) => BegunReached(s, Cancel(j, CLookup)); ReachesFinish(s, Begun(s, Cancel(j, CLookup)), |s.calls|, 2);
      case FReplay(j, q) =>
        BegunReached(s, Replay(j, q, RLookup));
        ReachesFinish(s, Begun(s, Replay(j, q, RLookup)), |s.calls|, 3);
      case FBegin(call) => BegunReached(s, call);
      case FList(c, ids) => ReachesThen(s, s, Step(c, Ok, Rows(ids)));
      case FPromote(c) => ReachesFinish(s, s, c, 2);
      case FFire(c, next) => FireIsRun(s, c, next);
      case FBatch(c, a) => ReachesThen(s, s, Step(c, Ok, a));
    }
  }

  lemma FireIsRun(s: State, c: nat, next: int)
    requires StepEnabled(s, c, Ok, Nothing)
    ensures Reaches(s, Fire(s, c, next))
  {
    ReachesSelf(s);
    ReachesFinish(s, s, c, 2);
    var s2 := Finish(s, c, 2);
    if StepEnabled(s2, c, Ok, NextAt(next)) {
      ReachesThen(s, s2, Step(c, Ok, NextAt(next)));
    }
  }

  lemma {:induction false} FRunIsRun(s: State, run: seq<FEvent>)
    requires FLegal(s, run)
    ensures Reaches(s, FAfter(s, run))
    decreases |run|
  {
    if run == [] {
      ReachesSelf(s);
    } else {
      FStepIsRun(s, run[0]);
      FRunIsRun(FApply(s, run[0]), run[1..]);
      ReachesThrough(s, FApply(s, run[0]), FAfter(s, run));
    }
  }
}
