/** When fault-free work has come to rest, every job has ended. */
module Rest {
  import opened Types
  import opened Tables
  import opened Protocol
  import opened Identity
  import opened Tokens
  import opened FaultFree
  import opened EveryRun
  import opened ListedRows
  import opened FaultFreeRuns
  import opened Quiescence

  // ---- a scheduled row has a time ----

  predicate Timed(jobs: map<nat, Job>) {
    forall j :: j in jobs && jobs[j].status.Scheduled? ==> jobs[j].runAt > 0
  }

  lemma TimedAfter(jobs: map<nat, Job>, op: Op)
    requires Timed(jobs)
    requires op.UpdateStatus? ==> !op.status.Scheduled?
    requires op.Insert? ==> (op.job.status.Scheduled? ==> op.job.runAt > 0)
    ensures Timed(JobsAfter(jobs, op))
  {
  }

  lemma WorkNeverSchedules(req: JobRequest, pc: Pc, clock: int, x: nat, o: Outcome)
    ensures var op := Effective(WorkOp(req, pc, clock, x), o);
            !op.Insert? && (op.UpdateStatus? ==> !op.status.Scheduled?)
  {
  }

  lemma CallsScheduleForLater(call: Call, newId: nat, outbox: seq<OutboxRow>, a: Answer, o: Outcome)
    ensures var op := Effective(CallOp(call, newId, outbox, a), o);
            (op.UpdateStatus? ==> !op.status.Scheduled?) && (op.Insert? && op.job.status.Scheduled? ==> op.job.runAt > 0)
  {
  }

  lemma TimedStep(s: State, e: Event)
    requires Timed(s.jobs) && Enabled(s, e)
    ensures Timed(Apply(s, e).jobs)
  {
    match e {
      case Work(x, o, _) =>
        WorkNeverSchedules(ReqOf(s, x), s.execs[x].pc, s.clock, x, o);
        TimedAfter(s.jobs, Effective(WorkOp(ReqOf(s, x), s.execs[x].pc, s.clock, x), o));
      case Step(c, o, a) =>
        CallsScheduleForLater(s.calls[c], |s.born|, s.outbox, a, o);
        TimedAfter(s.jobs, Effective(CallOp(s.calls[c], |s.born|, s.outbox, a), o));
      case _ =>
    }
  }

  lemma {:induction false} TimedAlways(s: State, run: seq<Event>)
    requires Timed(s.jobs) && Legal(s, run)
    ensures Timed(After(s, run).jobs)
    decreases |run|
  {
    if run != [] {
      TimedStep(s, run[0]);
      TimedAlways(Apply(s, run[0]), run[1..]);
    }
  }

  lemma TimedReachable(s: State)
    requires FReachable(s)
    ensures Timed(s.jobs)
  {
    var limit: int, clock: int, run: seq<FEvent> :| FLegal(Init(limit, clock), run) && FAfter(Init(limit, clock), run) == s;
    FRunIsRun(Init(limit, clock), run);
    var events :| Legal(Init(limit, clock), events) && After(Init(limit, clock), events) == s;
    TimedAlways(Init(limit, clock), events);
  }

  // ---- a due job can be promoted ----

  predicate AddsNothing(run: seq<FEvent>) {
    forall i :: 0 <= i < |run| ==> !AddsWork(run[i])
  }

  lemma Cons(s: State, f: FEvent, rest: seq<FEvent>) returns (run: seq<FEvent>)
    requires FEnabled(s, f) && FLegal(FApply(s, f), rest) && AddsNothing(rest) && !AddsWork(f)
    ensures FLegal(s, run) && AddsNothing(run)
    ensures ProgressSteps(run) == (if Progress(f) then 1 else 0) + ProgressSteps(rest)
  {
    run := [f] + rest;
    assert run[0] == f && run[1..] == rest;
  }

  /** A promoter that has listed a due job first can promote it. */
  lemma ListingEnabled(s: State, c: nat, ids: seq<nat>)
    requires c < |s.calls| && s.calls[c].Promote? && s.calls[c].ppc.PList?
    requires Smallest(ids, DueJobs(s.jobs, s.calls[c].now), PROMOTE_LIMIT)
    ensures FEnabled(s, FList(c, ids))
    ensures var s' := FApply(s, FList(c, ids));
            && s'.calls == s.calls[c := Promote(s.calls[c].now, PEnqueue(Snapshot(s.jobs, ids)))]
            && s'.jobs == s.jobs && s'.clock == s.clock
            && (ids != [] ==> FEnabled(s', FPromote(c)))
  {
    assert DueIds(s.jobs, ids) by {
      forall i | 0 <= i < |ids|
        ensures ids[i] in s.jobs
      {
        assert ids[i] in DueJobs(s.jobs, s.calls[c].now);
      }
    }
  }

  predicate Idle(calls: seq<Call>) {
    forall c :: 0 <= c < |calls| ==> !Promoting(calls[c])
  }

  /** With no tick in progress, a new one can promote a due job. */
  lemma NewTickPromotes(s: State, j: nat) returns (run: seq<FEvent>)
    requires Idle(s.calls) && j in DueJobs(s.jobs, s.clock)
    ensures FLegal(s, run) && AddsNothing(run) && ProgressSteps(run) > 0
  {
    var c := |s.calls|;
    var ids := SomeSmallest(DueJobs(s.jobs, s.clock), PROMOTE_LIMIT);
    assert j in DueJobs(s.jobs, s.clock).Keys;
    var s1 := FApply(s, FBegin(Promote(s.clock, PList)));
    ListingEnabled(s1, c, ids);
    var s2 := FApply(s1, FList(c, ids));
    run := Cons(s2, FPromote(c), []);
    run := Cons(s1, FList(c, ids), run);
    run := Cons(s, FBegin(Promote(s.clock, PList)), run);
  }

  /** A tick in progress promotes a row, or is over without one. */
  lemma TickGoesOn(s: State, c: nat) returns (run: seq<FEvent>)
    requires FInv(s) && c < |s.calls| && Promoting(s.calls[c])
    ensures FLegal(s, run) && AddsNothing(run)
    ensures ProgressSteps(run) > 0
            || (FAfter(s, run).jobs == s.jobs && FAfter(s, run).clock == s.clock && Idle(FAfter(s, run).calls))
  {
    assert CallRests(s.calls[c]);
    if s.calls[c].ppc.PEnqueue? {
      run := Cons(s, FPromote(c), []);
    } else {
      var ids := SomeSmallest(DueJobs(s.jobs, s.calls[c].now), PROMOTE_LIMIT);
      ListingEnabled(s, c, ids);
      var s1 := FApply(s, FList(c, ids));
      if ids != [] {
        run := Cons(s1, FPromote(c), []);
        run := Cons(s, FList(c, ids), run);
      } else {
        run := [FList(c, ids)];
        assert run[1..] == [] && FLegal(s1, []) && FAfter(s1, []) == s1;
        assert forall d :: 0 <= d < |s.calls| && d != c ==> s1.calls[d] == s.calls[d];
      }
    }
  }

  /** Where a due job is left, promoters can make progress. */
  lemma DueMeansProgress(s: State, j: nat) returns (run: seq<FEvent>)
    requires FInv(s) && j in DueJobs(s.jobs, s.clock)
    ensures FLegal(s, run) && AddsNothing(run) && ProgressSteps(run) > 0
  {
    if Idle(s.calls) {
      run := NewTickPromotes(s, j);
    } else {
      var c :| 0 <= c < |s.calls| && Promoting(s.calls[c]);
      run := TickGoesOn(s, c);
      if ProgressSteps(run) == 0 {
        var more := NewTickPromotes(FAfter(s, run), j);
        Joined(s, run, more);
        run := run + more;
      }
    }
  }

  lemma {:induction false} Joined(s: State, a: seq<FEvent>, b: seq<FEvent>)
    requires FLegal(s, a) && FLegal(FAfter(s, a), b) && AddsNothing(a) && AddsNothing(b)
    ensures FLegal(s, a + b) && AddsNothing(a + b) && FAfter(s, a + b) == FAfter(FAfter(s, a), b)
    ensures ProgressSteps(a + b) == ProgressSteps(a) + ProgressSteps(b)
    decreases |a|
  {
    if a == [] {
      assert a + b == b;
    } else {
      assert (a + b)[0] == a[0] && (a + b)[1..] == a[1..] + b;
      Joined(FApply(s, a[0]), a[1..], b);
    }
  }

  // ---- the end ----

  /** Nothing can be delivered, worked on or promoted any more, whatever is tried: time may pass,
      queues may be unpaused and ticks begun. */
  ghost predicate AtEnd(s: State) {
    forall run :: FLegal(s, run) && AddsNothing(run) ==> ProgressSteps(run) == 0
  }

  lemma EndCannotMove(s: State)
    requires AtEnd(s)
    ensures !CanMove(s)
  {
    forall i, w ensures !FEnabled(s, FDeliver(i, w)) {
      if FEnabled(s, FDeliver(i, w)) { OneStep(s, FDeliver(i, w)); }
    }
    forall x, success ensures !FEnabled(s, FWork(x, success)) {
      if FEnabled(s, FWork(x, success)) { OneStep(s, FWork(x, success)); }
    }
  }

  lemma OneStep(s: State, f: FEvent)
    requires FEnabled(s, f) && Progress(f)
    ensures !AtEnd(s)
  {
    var run := Cons(s, f, []);
  }

  /** The end stays the end when time passes or a queue is unpaused. */
  lemma EndStays(s: State, f: FEvent)
    requires AtEnd(s) && FEnabled(s, f) && !AddsWork(f)
    ensures AtEnd(FApply(s, f))
  {
    forall rest | FLegal(FApply(s, f), rest) && AddsNothing(rest)
      ensures ProgressSteps(rest) == 0
    {
      var run := Cons(s, f, rest);
    }
  }

  lemma NoneScheduledAtEnd(s: State, j: nat)
    requires FInv(s) && Timed(s.jobs) && AtEnd(s) && j in s.jobs
    ensures !s.jobs[j].status.Scheduled?
  {
    if s.jobs[j].status.Scheduled? {
      var wait := FTick(Max(s.jobs[j].runAt - s.clock, 0));
      var s1 := FApply(s, wait);
      FStep(s, wait);
      EndStays(s, wait);
      assert j in DueJobs(s1.jobs, s1.clock);
      var run := DueMeansProgress(s1, j);
    }
  }

  /** An execution that would find its queue paused finds it running once it is unpaused. */
  lemma NonePausedAtEnd(s: State, x: nat)
    requires FInv(s) && x in s.execs && s.execs[x].pc.GetQueue? && s.execs[x].offset < |s.log|
    ensures !AtEnd(s)
  {
    var unpause := FPause(QueueName(ReqOf(s, x).queue), false);
    var s1 := FApply(s, unpause);
    if AtEnd(s) {
      EndStays(s, unpause);
      EndCannotMove(s1);
      HolderMoves(s1, x);
    }
  }

  lemma NoExecutionAtEnd(s: State, x: nat)
    requires FInv(s) && AtEnd(s)
    ensures x !in s.execs
  {
    if x in s.execs {
      if s.execs[x].pc.GetQueue? && IsPaused(s, ReqOf(s, x).queue) {
        NonePausedAtEnd(s, x);
      } else {
        EndCannotMove(s);
        ExecMoves(s, x);
      }
    }
  }

  /** Where the work of a fault-free run has come to its end, every job is completed, archived,
      cancelled, or failed with an unregistered type. */
  lemma EveryJobEnds(s: State, j: nat)
    requires FReachable(s) && AtEnd(s) && j in s.jobs
    ensures Ended(s.jobs[j])
  {
    FInvReachable(s);
    TimedReachable(s);
    NoneScheduledAtEnd(s, j);
    if Unfinished(s.jobs[j]) {
      UnfinishedHasToken(s, j);
      if x :| x in s.execs {
        NoExecutionAtEnd(s, x);
      } else {
        var i: nat :| i < |s.log| && i !in s.taken;
        OneStep(s, FDeliver(i, 0));
      }
    }
  }

  /** And it comes to its end: from any fault-free reachable state, a run that adds no work delivers,
      executes and promotes at most as often as the measure of that state says. */
  lemma WorkEnds(s: State, run: seq<FEvent>)
    requires FReachable(s) && FLegal(s, run) && AddsNothing(run)
    ensures ProgressSteps(run) <= Measure(s)
  {
    FInvReachable(s);
    WorkRunsOut(s, run);
  }

  /** Every fault-free reachable state has a continuation that adds no work and reaches the end. */
  lemma EndIsReached(s: State) returns (run: seq<FEvent>)
    requires FReachable(s)
    ensures FLegal(s, run) && AddsNothing(run) && AtEnd(FAfter(s, run))
  {
    FInvReachable(s);
    run := ToTheEnd(s);
  }

  lemma {:induction false} ToTheEnd(s: State) returns (run: seq<FEvent>)
    requires FInv(s)
    ensures FLegal(s, run) && AddsNothing(run) && AtEnd(FAfter(s, run))
    decreases Measure(s)
  {
    run := [];
    if !AtEnd(s) {
      run :| FLegal(s, run) && AddsNothing(run) && ProgressSteps(run) > 0;
      WorkRunsOut(s, run);
      FAlways(s, run);
      var rest := ToTheEnd(FAfter(s, run));
      Joined(s, run, rest);
      run := run + rest;
    }
  }
}
