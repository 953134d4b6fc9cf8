/** Runs in which each guarantee that `Exactness` and its companions delimit is in fact lost. */
module Witnesses {
  import opened Types
  import opened Tables
  import opened Protocol
  import opened Identity
  import opened Tokens
  import opened FaultFree
  import opened EveryRun
  import opened Conservation
  import opened ApiEffects
  import opened ListedRows
  import opened FaultFreeRuns
  import opened Cancellation
  import opened CancelledExactly
  import opened Exactness
  import opened Scenario
  import opened ReplayGap

  lemma FReachInit(clock: int)
    ensures FReachable(Init(0, clock))
  {
    var s := Init(0, clock);
    assert FLegal(s, []) && FAfter(s, []) == s;
  }

  lemma {:induction false} FSnoc(s: State, run: seq<FEvent>, f: FEvent)
    requires FLegal(s, run) && FEnabled(FAfter(s, run), f)
    ensures FLegal(s, run + [f]) && FAfter(s, run + [f]) == FApply(FAfter(s, run), f)
    decreases |run|
  {
    if run == [] {
      assert [f][1..] == [] && FLegal(FApply(s, f), []);
    } else {
      assert (run + [f])[0] == run[0] && (run + [f])[1..] == run[1..] + [f];
      FSnoc(FApply(s, run[0]), run[1..], f);
    }
  }

  lemma FReachStep(s: State, f: FEvent)
    requires FReachable(s) && FEnabled(s, f)
    ensures FReachable(FApply(s, f))
  {
    var limit: int, clock: int, run: seq<FEvent> :| FLegal(Init(limit, clock), run) && FAfter(Init(limit, clock), run) == s;
    FSnoc(Init(limit, clock), run, f);
  }

  // ---- a job on its way ----

  const JOB := SubmitReq("hello", Payload(None, None), "", 1, 0, "", 0)
  const MESSAGE := MakeRequest(0, "hello", Payload(None, None), "default", 1, 0, 0, 0)

  /** Fault-free, with one job submitted and nothing else done. */
  lemma SubmittedFirst(r: SubmitReq) returns (s: State)
    requires Plain(r) && r.maxRetry < MAX_INT32
    ensures FReachable(s) && Submitting(s, r, SDone(Some(0))) && s.clock == 0
    ensures s.log == if r.runAt > 0 then [] else [Entry(SubmitMessage(r, 0), BySubmit)]
  {
    var s0 := Init(0, 0);
    FReachInit(0);
    FReachStep(s0, FSubmit(r));
    s := FApply(s0, FSubmit(r));
    SubmitBegins(r, 0);
    FinishesSubmit(Begun(s0, Submit(r, SLookup)), r);
  }

  lemma FinishesSubmit(s: State, r: SubmitReq)
    requires Submitting(s, r, SLookup) && s.clock == 0
    ensures var s' := Finish(s, 0, 4);
            && Submitting(s', r, SDone(Some(0))) && s'.clock == 0
            && s'.log == if r.runAt > 0 then [] else [Entry(SubmitMessage(r, 0), BySubmit)]
  {
    Looks(s, r);
    FinishOne(s, 0, 4);
    var s2 := AfterStep(s, 0, Ok, Nothing);
    Creates(s2, r);
    FinishOne(s2, 0, 3);
    var s3 := AfterStep(s2, 0, Ok, Nothing);
    Checks(s3, r);
    FinishOne(s3, 0, 2);
    var s4 := AfterStep(s3, 0, Ok, Nothing);
    if r.runAt > 0 {
      SubmitDone(s4, 0, 1);
    } else {
      Enqueues(s4, r);
      FinishOne(s4, 0, 1);
    }
  }

  /** Its message is being executed at `pc`. */
  ghost predicate Executing(s: State, pc: Pc, st: Status) {
    FReachable(s) && Stands(s, 0, MESSAGE, 0, pc, st) && s.log == [Entry(MESSAGE, BySubmit)]
  }

  lemma JustTaken() returns (s: State)
    ensures Executing(s, GetQueue, Pending)
  {
    s := SubmittedFirst(JOB);
    FReachStep(s, FDeliver(0, 0));
    Taken(s, 0, MESSAGE, Pending);
    s := FApply(s, FDeliver(0, 0));
  }

  lemma NextCall(s: State, pc: Pc, st: Status, success: bool) returns (s': State)
    requires Executing(s, pc, st) && !st.Cancelled? && !pc.Return? && !pc.Reenqueue?
    ensures Executing(s', PcNext(MESSAGE, pc, success), StatusNext(pc, st))
  {
    Advances(s, 0, MESSAGE, 0, pc, st, success);
    FReachStep(s, FWork(0, success));
    s' := AfterWork(s, 0, Ok, success);
  }

  lemma AtMarkProcessing() returns (s: State)
    ensures Executing(s, MarkProcessing, Pending)
  {
    s := JustTaken();
    s := NextCall(s, GetQueue, Pending, false);
    s := NextCall(s, Acquire, Pending, false);
    s := NextCall(s, Lookup, Pending, false);
  }

  // ---- the witnesses ----

  /** The queue is paused after the message was taken: the job keeps no token and stays pending. */
  lemma PausedQueueLosesJob() returns (s: State)
    ensures FReachable(s) && 0 in s.execs && s.execs[0] == Exec(0, 0, GetQueue) && s.log == [Entry(MESSAGE, BySubmit)]
    ensures var s' := AfterWork(s, 0, Ok, true);
            TokensOf(s', 0) == {} && 0 in s'.jobs && s'.jobs[0].status.Pending?
  {
    s := JustTaken();
    FReachStep(s, FPause("default", true));
    s := FApply(s, FPause("default", true));
    PausedQueueDropsToken(s, 0);
  }

  /** The retry of a failed job is not written: the job stays failed without a token. */
  lemma FailedRetryLosesJob() returns (s: State)
    ensures FReachable(s) && 0 in s.execs && s.execs[0] == Exec(0, 0, Reenqueue) && s.log == [Entry(MESSAGE, BySubmit)]
    ensures var s' := AfterWork(s, 0, Failure, true);
            TokensOf(s', 0) == {} && 0 in s'.jobs && s'.jobs[0].status.Failed?
  {
    s := AtMarkProcessing();
    s := NextCall(s, MarkProcessing, Pending, false);
    s := NextCall(s, Handle, Processing, false);
    s := NextCall(s, MarkFailed, Processing, false);
    FailedRetryLosesToken(s, 0, Failure);
  }

  /** A status write that fails leaves the row behind its execution. */
  lemma FailedWriteLeavesRowBehind() returns (s: State)
    ensures FReachable(s) && WorkEnabled(s, 0, true) && ReqOf(s, 0).job == 0 && 0 in AfterWork(s, 0, Failure, true).jobs
    ensures !JobOk(AfterWork(s, 0, Failure, true), 0)
  {
    s := AtMarkProcessing();
    WorkerStepKeepsOrderExactly(s, 0, Failure, true);
  }

  /** A job is cancelled while its execution is past the check: it need not stay cancelled. */
  lemma CancelledTooLate() returns (s: State)
    ensures FReachable(s) && Reachable(s) && IsCancelled(s, 0) && !CancelledForever(s, 0)
  {
    s := AtMarkProcessing();
    FReachStep(s, FCancel(0));
    CancelEffect(s, 0);
    var s' := FApply(s, FCancel(0));
    assert IsCancelled(s', 0) && s'.execs == s.execs && s'.log == s.log;
    ReachableToo(s');
    assert !NoneRunning(s'.execs, s'.log, 0) by { assert PastCheck(s'.execs[0].pc); }
    CancelledForeverExactly(s', 0);
    s := s';
  }

  lemma ReachableToo(s: State)
    requires FReachable(s)
    ensures Reachable(s)
  {
    var limit: int, clock: int, run: seq<FEvent> :| FLegal(Init(limit, clock), run) && FAfter(Init(limit, clock), run) == s;
    FRunIsRun(Init(limit, clock), run);
  }

  /** A message delivered again while its job is being executed: two executions of one job. */
  lemma RedeliveryDoubles() returns (s: State)
    ensures FReachable(s) && 0 < |s.log| && 0 in s.taken && s.log[0].req.job == 0
    ensures |TokensOf(Apply(s, Deliver(0, 1)), 0)| > 1
  {
    s := JustTaken();
    assert LiveExec(s, 0, 0);
    TokenOfJob(s, 0);
    RedeliveryKeepsOrderExactly(s, 0, 1);
  }

  /** A worker dies executing a job: the job is not in order any more. */
  lemma CrashLosesJob() returns (s: State)
    ensures FReachable(s) && !TokensOk(AfterCrash(s, 0))
  {
    s := JustTaken();
    assert CutOff(s, 0, 0, 0);
    CrashKeepsOrderExactly(s, 0);
  }

  const OVERDUE := JOB.(runAt := 5)

  /** A submit with a run_at already past is about to insert its row. */
  lemma AboutToInsert() returns (s: State)
    ensures Reachable(s) && Submitting(s, OVERDUE, SCreate) && s.clock == 10
  {
    ReachInit(10);
    ReachStep(Init(0, 10), Begin(Submit(OVERDUE, SLookup)));
    SubmitBegins(OVERDUE, 10);
    s := Apply(Init(0, 10), Begin(Submit(OVERDUE, SLookup)));
    Looks(s, OVERDUE);
    ReachStep(s, Step(0, Ok, Nothing));
    s := AfterStep(s, 0, Ok, Nothing);
  }

  lemma NoJobsInOrder(s: State)
    requires s.jobs == map[] && s.log == []
    ensures TokensOk(s)
  {
  }

  /** A submit whose run_at has just come: its job is enqueued and still scheduled. */
  lemma OverdueSubmitIsEnqueued() returns (s: State)
    ensures Reachable(s) && |s.calls| == 1 && s.calls[0].Submit? && s.calls[0].spc.SCreate? && s.born == []
    ensures 0 in AfterSubmit(s, 0, Ok, Ok).jobs && !JobOk(AfterSubmit(s, 0, Ok, Ok), 0)
  {
    s := AboutToInsert();
    SafeReachable(s);
    NoJobsInOrder(s);
    SubmitKeepsOrderExactly(s, 0, Ok, Ok);
  }

  /** A submit whose enqueue fails: its pending row has no message. */
  lemma FailedSubmitLosesJob() returns (s: State)
    ensures Reachable(s) && |s.calls| == 1 && s.calls[0].Submit? && s.calls[0].spc == SEnqueue(0)
    ensures var s' := AfterStep(s, 0, Failure, Nothing);
            0 in s'.jobs && s'.jobs[0].status.Pending? && TokensOf(s', 0) == {} && !JobOk(s', 0)
  {
    s := Created(JOB, 0);
    Checks(s, JOB);
    ReachStep(s, Step(0, Ok, Nothing));
    s := AfterStep(s, 0, Ok, Nothing);
    EnqueueFails(s);
  }

  lemma EnqueueFails(s: State)
    requires Submitting(s, JOB, SEnqueue(0))
    ensures StepEnabled(s, 0, Failure, Nothing)
    ensures var s' := AfterStep(s, 0, Failure, Nothing);
            0 in s'.jobs && s'.jobs[0].status.Pending? && TokensOf(s', 0) == {} && !JobOk(s', 0)
  {
    var s' := AfterStep(s, 0, Failure, Nothing);
    assert s'.log == [] && s'.execs == map[] && s'.jobs == s.jobs;
    assert Unfinished(s'.jobs[0]);
  }

  const HOURLY := Schedule("hello", Payload(None, None), "@hourly", "default", 0, 0, 0)

  lemma CronBegun() returns (s: State)
    ensures Reachable(s) && s.calls == [Cron(0, TList)] && s.schedules == map[0 := HOURLY]
    ensures s.jobs == map[] && s.log == [] && s.born == []
  {
    ReachInit(0);
    ReachStep(Init(0, 0), AddSchedule(HOURLY));
    s := Apply(Init(0, 0), AddSchedule(HOURLY));
    ReachStep(s, Begin(Cron(0, TList)));
    s := Apply(s, Begin(Cron(0, TList)));
  }

  lemma CronListed() returns (s: State)
    ensures Reachable(s) && s.calls == [Cron(0, TCreate([DueCron(0, HOURLY)]))]
    ensures s.jobs == map[] && s.log == [] && s.born == []
  {
    s := CronBegun();
    assert DueSchedules(s.schedules, 0).Keys == {0};
    assert Smallest([0], DueSchedules(s.schedules, 0), SCHEDULE_LIMIT);
    assert CronSnapshot(s.schedules, [0]) == [DueCron(0, HOURLY)];
    ReachStep(s, Step(0, Ok, Rows([0])));
    s := AfterStep(s, 0, Ok, Rows([0]));
  }

  /** A cron firing whose enqueue fails: a pending row without a message. */
  lemma FailedFiringLosesJob() returns (s: State)
    ensures Reachable(s) && HasTodo(s, 0) && s.calls[0].Cron? && s.born == []
    ensures 0 in AfterFiring(s, 0, Ok, Failure).jobs && !JobOk(AfterFiring(s, 0, Ok, Failure), 0)
  {
    s := CronListed();
    SafeReachable(s);
    FiringKeepsOrderExactly(s, 0, Ok, Failure);
  }

  // ---- overlapping promoter ticks ----

  const LATER := JOB.(runAt := 5)

  /** One job is due, and two ticks have listed it. */
  lemma ListedTwice() returns (s: State)
    ensures Reachable(s) && s.jobs == map[0 := SubmitRow(LATER)] && s.log == [] && s.taken == {}
    ensures |s.calls| == 3
    ensures s.calls[1] == Promote(5, PEnqueue([Due(0, SubmitRow(LATER))])) && s.calls[2] == s.calls[1]
  {
    s := Created(LATER, 0);
    Checks(s, LATER);
    ReachStep(s, Step(0, Ok, Nothing));
    s := AfterStep(s, 0, Ok, Nothing);
    ReachStep(s, Tick(5));
    s := Apply(s, Tick(5));
    ReachStep(s, Begin(Promote(5, PList)));
    s := Apply(s, Begin(Promote(5, PList)));
    ReachStep(s, Begin(Promote(5, PList)));
    s := Apply(s, Begin(Promote(5, PList)));
    s := Lists(s, 1);
    s := Lists(s, 2);
  }

  lemma Lists(s: State, c: nat) returns (s': State)
    requires Reachable(s) && s.jobs == map[0 := SubmitRow(LATER)] && s.log == [] && s.taken == {}
    requires c < |s.calls| && s.calls[c] == Promote(5, PList)
    ensures Reachable(s') && s'.jobs == s.jobs && s'.log == [] && s'.taken == {}
    ensures s'.calls == s.calls[c := Promote(5, PEnqueue([Due(0, SubmitRow(LATER))]))]
  {
    assert DueJobs(s.jobs, 5) == map[0 := 5];
    assert Smallest([0], map[0 := 5], PROMOTE_LIMIT);
    assert DueIds(s.jobs, [0]);
    ReachStep(s, Step(c, Ok, Rows([0])));
    s' := AfterStep(s, c, Ok, Rows([0]));
    assert Snapshot(s.jobs, [0]) == [Due(0, SubmitRow(LATER))];
  }

  lemma TwoMessages(s: State)
    requires |s.log| == 2 && s.taken == {} && s.log[0].req.job == 0 && s.log[1].req.job == 0
    ensures |TokensOf(s, 0)| > 1
  {
    assert LiveMessage(s, 0, 0) && LiveMessage(s, 1, 0);
    TokenOfJob(s, 0);
    assert {InLog(0), InLog(1)} <= TokensOf(s, 0);
    CardMonotone({InLog(0), InLog(1)}, TokensOf(s, 0));
  }

  /** Both ticks promote the job: two messages, and so two executions of one job. */
  lemma OverlappingTicksDouble() returns (s: State)
    ensures Reachable(s) && |TokensOf(s, 0)| > 1
  {
    var s1 := ListedTwice();
    var s2 := Promotes(s1, 1);
    s := Promotes(s2, 2);
    TwoMessages(s);
  }

  lemma Promotes(s: State, c: nat) returns (s': State)
    requires Reachable(s) && c < |s.calls| && s.calls[c] == Promote(5, PEnqueue([Due(0, SubmitRow(LATER))]))
    ensures Reachable(s') && s'.log == s.log + [Entry(PromoteMessage(Due(0, SubmitRow(LATER))), ByPromoter)] && s'.taken == s.taken
    ensures |s'.calls| == |s.calls| && forall d :: 0 <= d < |s.calls| && d != c ==> s'.calls[d] == s.calls[d]
  {
    ReachStep(s, Step(c, Ok, Nothing));
    var s1 := AfterStep(s, c, Ok, Nothing);
    assert s1.calls == s.calls[c := Promote(5, PWrite([Due(0, SubmitRow(LATER))]))];
    ReachStep(s1, Step(c, Ok, Nothing));
    s' := AfterStep(s1, c, Ok, Nothing);
  }

  // ---- a replay overtaken by its own message ----

  const ONCE := JOB.(maxRetry := 0)
  const FIRST := MakeRequest(0, "hello", Payload(None, None), "default", 0, 0, 0, 0)

  /** The first and only message is executed at `pc`, by the only execution. */
  ghost predicate OnlyRun(s: State, pc: Pc, st: Status) {
    Reachable(s) && Stands(s, 0, FIRST, 0, pc, st) && |s.log| == 1 && |s.born| == 1 && |s.calls| == 1
  }

  lemma TakenOnce() returns (s: State)
    ensures OnlyRun(s, GetQueue, Pending)
  {
    s := Created(ONCE, 0);
    Checks(s, ONCE);
    ReachStep(s, Step(0, Ok, Nothing));
    s := AfterStep(s, 0, Ok, Nothing);
    Enqueues(s, ONCE);
    ReachStep(s, Step(0, Ok, Nothing));
    s := AfterStep(s, 0, Ok, Nothing);
    Taken(s, 0, FIRST, Pending);
    ReachStep(s, Deliver(0, 0));
    s := Apply(s, Deliver(0, 0));
  }

  /** Its next call, the handler failing. */
  lemma OnlyRunNext(s: State, pc: Pc, st: Status) returns (s': State)
    requires OnlyRun(s, pc, st) && !st.Cancelled? && !pc.Return? && !pc.Reenqueue?
    ensures OnlyRun(s', PcNext(FIRST, pc, false), StatusNext(pc, st))
  {
    Advances(s, 0, FIRST, 0, pc, st, false);
    ReachStep(s, Work(0, Ok, false));
    s' := AfterWork(s, 0, Ok, false);
  }

  lemma HandledOnce() returns (s: State)
    ensures OnlyRun(s, Handle, Processing)
  {
    s := TakenOnce();
    s := OnlyRunNext(s, GetQueue, Pending);
    s := OnlyRunNext(s, Acquire, Pending);
    s := OnlyRunNext(s, Lookup, Pending);
    s := OnlyRunNext(s, MarkProcessing, Pending);
  }

  lemma ArchivedOnce() returns (s: State)
    ensures OnlyRun(s, Return(true), Archived)
  {
    s := HandledOnce();
    s := OnlyRunNext(s, Handle, Processing);
    s := OnlyRunNext(s, MarkFailed, Processing);
    s := OnlyRunNext(s, Archive, Failed);
  }

  /** A replay of job 0 has been called for. */
  lemma ReplayCalled() returns (s: State)
    ensures Reachable(s) && |s.calls| == 2 && s.calls[1] == Replay(0, "", RLookup) && |s.born| == 1 && |s.log| == 1
    ensures s.limit == 0 && s.paused == map["default" := false]
    ensures 0 in s.jobs && s.jobs[0].status == Archived && s.log[0].req == FIRST
  {
    s := ArchivedOnce();
    ReachStep(s, Begin(Replay(0, "", RLookup)));
    s := Apply(s, Begin(Replay(0, "", RLookup)));
  }

  /** The archived job is about to be replayed. */
  lemma AboutToReplay() returns (s: State)
    ensures Reachable(s) && |s.calls| == 2 && s.calls[1].Replay? && s.calls[1].queue == "" && s.calls[1].rpc.REnqueue?
    ensures s.calls[1].rpc.typ == "hello" && |s.born| == 1 && |s.log| == 1
    ensures s.limit == 0 && s.paused == map["default" := false]
  {
    s := ReplayCalled();
    SafeReachable(s);
    assert ReqMatches(s.log[0].req, s.born) && RowMatches(s.jobs[0], s.born[0]);
    ReachStep(s, Step(1, Ok, Nothing));
    s := AfterStep(s, 1, Ok, Nothing);
  }

  /** Execution `x` of the replayed message, the only one, stands at `pc`; the row is not there yet. */
  ghost predicate Rowless(s: State, x: nat, pc: Pc) {
    && s.limit == 0 && s.paused == map["default" := false] && |s.log| == 2 && 1 in s.taken && 1 !in s.jobs
    && s.log[1].req.job == 1 && s.log[1].req.typ == "hello" && s.log[1].req.queue == "default"
    && x in s.execs && s.execs[x] == Exec(0, 1, pc) && forall y :: y in s.execs && s.execs[y].offset == 1 ==> y == x
  }

  /** A run in the gap of the replay that has led to `s`. */
  ghost predicate GapRun(s1: State, run: seq<Event>, s: State) {
    Legal(s1, run) && After(s1, run) == s && Without(run, 1)
  }

  lemma RowlessNext(s1: State, run: seq<Event>, s: State, x: nat, pc: Pc) returns (run': seq<Event>, s': State)
    requires GapRun(s1, run, s) && Rowless(s, x, pc) && !pc.Return? && !pc.Reenqueue?
    ensures GapRun(s1, run', s') && Rowless(s', x, if pc.Handle? then Complete else PcNext(s.log[1].req, pc, true))
    ensures s'.log == s.log
  {
    RunSnoc(s1, run, Work(x, Ok, true));
    run' := run + [Work(x, Ok, true)];
    s' := AfterWork(s, x, Ok, true);
  }

  lemma RowlessTaken(s1: State, s: State) returns (run: seq<Event>, s': State)
    requires s == s1 && s.limit == 0 && s.paused == map["default" := false] && |s.log| == 2 && 1 !in s.jobs
    requires s.log[1].req.job == 1 && s.log[1].req.typ == "hello" && s.log[1].req.queue == "default"
    requires forall y :: y in s.execs ==> s.execs[y].offset != 1
    ensures GapRun(s1, run, s') && Rowless(s', s.nextExec, GetQueue) && s'.log == s.log
  {
    assert Legal(s, []) && After(s, []) == s;
    RunSnoc(s1, [], Deliver(1, 0));
    run := [] + [Deliver(1, 0)];
    s' := Apply(s, Deliver(1, 0));
  }

  lemma RowlessDone(s1: State, run0: seq<Event>, s0: State, x: nat) returns (run: seq<Event>, s: State)
    requires GapRun(s1, run0, s0) && Rowless(s0, x, GetQueue)
    ensures GapRun(s1, run, s) && Rowless(s, x, Return(true))
  {
    run, s := RowlessNext(s1, run0, s0, x, GetQueue);
    run, s := RowlessNext(s1, run, s, x, Acquire);
    run, s := RowlessNext(s1, run, s, x, Lookup);
    run, s := RowlessNext(s1, run, s, x, MarkProcessing);
    run, s := RowlessNext(s1, run, s, x, Handle);
    run, s := RowlessNext(s1, run, s, x, Complete);
  }

  /** The replayed message is executed before its row exists: its writes meet no row, and the row then
      appears pending with nothing left to move it. */
  lemma ReplayOvertaken() returns (s: State, run: seq<Event>)
    ensures Reachable(s) && |s.calls| == 2 && s.calls[1].Replay? && s.calls[1].rpc.REnqueue? && |s.born| == 1 && |s.log| == 1
    ensures Legal(AfterStep(s, 1, Ok, Nothing), run) && Without(run, 1)
    ensures UsedUp(After(AfterStep(s, 1, Ok, Nothing), run), 1)
  {
    s := AboutToReplay();
    SafeReachable(s);
    var s1 := AfterStep(s, 1, Ok, Nothing);
    assert 1 !in s.jobs && s1.jobs == s.jobs && s1.execs == s.execs;
    var s2;
    run, s2 := RowlessTaken(s1, s1);
    run, s2 := RowlessDone(s1, run, s2, s1.nextExec);
  }
}
