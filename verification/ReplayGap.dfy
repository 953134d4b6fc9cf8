/** A replay sends its message before it creates the row. What becomes of the new job depends on
    what the workers have made of the message by then. */
module ReplayGap {
  import opened Types
  import opened Tables
  import opened Protocol
  import opened Identity
  import opened Accounting
  import opened Tokens
  import opened EveryRun
  import opened Cancellation

  /** Message `i` is the only one of job `id`. */
  predicate OnlyMessage(log: seq<Entry>, id: nat, i: nat) {
    i < |log| && log[i].req.job == id && forall k :: 0 <= k < |log| && log[k].req.job == id ==> k == i
  }

  /** Replay call `c` has sent message `i` for job `id` and has not created the row. */
  ghost predicate InGap(s: State, c: nat, id: nat, i: nat) {
    && c < |s.calls| && s.calls[c].Replay? && s.calls[c].rpc.RCreate? && s.calls[c].rpc.id == id
    && id < |s.born| && s.born[id].call == c && id !in s.jobs
    && OnlyMessage(s.log, id, i) && s.log[i].req.attempt == 0 && MaxRetry(s.log[i].req) <= 0
  }

  /** Every event of the run leaves call `c` where it is. */
  predicate Without(run: seq<Event>, c: nat) {
    forall k :: 0 <= k < |run| ==> !(run[k].Step? && run[k].id == c)
  }

  lemma GapOpens(s: State, c: nat)
    requires IdsOk(s) && c < |s.calls| && s.calls[c].Replay? && s.calls[c].rpc.REnqueue?
    ensures InGap(AfterStep(s, c, Ok, Nothing), c, |s.born|, |s.log|)
  {
    assert forall k :: 0 <= k < |s.log| ==> ReqMatches(s.log[k].req, s.born);
  }

  lemma OnlyMessageStays(log: seq<Entry>, op: Op, id: nat, i: nat)
    requires OnlyMessage(log, id, i) && (op.Enqueue? ==> op.entry.req.job != id)
    ensures OnlyMessage(LogAfter(log, op), id, i) && LogAfter(log, op)[i] == log[i]
  {
  }

  /** The replayed message is good for one attempt, so no worker sends another for the job. */
  lemma WorkSendsNone(s: State, x: nat, o: Outcome, success: bool, id: nat, i: nat)
    requires PcsOk(s.execs, s.log) && WorkEnabled(s, x, success) && OnlyMessage(s.log, id, i)
    requires s.log[i].req.attempt == 0 && MaxRetry(s.log[i].req) <= 0
    ensures var op := Effective(WorkOp(ReqOf(s, x), s.execs[x].pc, s.clock, x), o);
            !op.Insert? && (op.Enqueue? ==> op.entry.req.job != id)
  {
  }

  lemma CallSendsNone(s: State, c: nat, id: nat, i: nat, d: nat, o: Outcome, a: Answer)
    requires IdsOk(s) && InGap(s, c, id, i) && StepEnabled(s, d, o, a) && d != c
    ensures var op := Effective(CallOp(s.calls[d], |s.born|, s.outbox, a), o);
            (op.Insert? ==> op.id != id) && (op.Enqueue? ==> op.entry.req.job != id)
  {
    assert CallOk(s, d);
  }

  lemma GapWork(s: State, x: nat, o: Outcome, success: bool, c: nat, id: nat, i: nat)
    requires PcsOk(s.execs, s.log) && InGap(s, c, id, i) && WorkEnabled(s, x, success)
    ensures InGap(AfterWork(s, x, o, success), c, id, i)
  {
    var op := Effective(WorkOp(ReqOf(s, x), s.execs[x].pc, s.clock, x), o);
    WorkSendsNone(s, x, o, success, id, i);
    OnlyMessageStays(s.log, op, id, i);
    assert id !in JobsAfter(s.jobs, op);
  }

  lemma GapCall(s: State, c: nat, id: nat, i: nat, d: nat, o: Outcome, a: Answer)
    requires IdsOk(s) && InGap(s, c, id, i) && StepEnabled(s, d, o, a) && d != c
    ensures InGap(AfterStep(s, d, o, a), c, id, i)
  {
    var op := Effective(CallOp(s.calls[d], |s.born|, s.outbox, a), o);
    CallSendsNone(s, c, id, i, d, o, a);
    OnlyMessageStays(s.log, op, id, i);
    assert id !in JobsAfter(s.jobs, op);
  }

  lemma GapStep(s: State, e: Event, c: nat, id: nat, i: nat)
    requires Safe(s) && InGap(s, c, id, i) && Enabled(s, e) && !(e.Step? && e.id == c)
    ensures InGap(Apply(s, e), c, id, i)
  {
    match e {
      case Work(x, o, success) => GapWork(s, x, o, success, c, id, i);
      case Step(d, o, a) => GapCall(s, c, id, i, d, o, a);
      case _ =>
    }
  }

  lemma {:induction false} GapStays(s: State, run: seq<Event>, c: nat, id: nat, i: nat)
    requires Safe(s) && InGap(s, c, id, i) && Legal(s, run) && Without(run, c)
    ensures Safe(After(s, run)) && InGap(After(s, run), c, id, i)
    decreases |run|
  {
    if run != [] {
      GapStep(s, run[0], c, id, i);
      SafeStep(s, run[0]);
      GapStays(Apply(s, run[0]), run[1..], c, id, i);
    }
  }

  /** The message has been taken and no execution of it has a call left. */
  ghost predicate UsedUp(s: State, i: nat) {
    i in s.taken && forall x :: x in s.execs && s.execs[x].offset == i ==> s.execs[x].pc.Return?
  }

  lemma TokenUnlessUsedUp(s: State, id: nat, i: nat)
    requires OnlyMessage(s.log, id, i)
    ensures TokensOf(s, id) == {} <==> UsedUp(s, i)
  {
    TokenOfJob(s, id);
    if UsedUp(s, i) {
      assert forall k: nat :: !LiveMessage(s, k, id);
      assert forall x: nat :: !LiveExec(s, x, id);
    } else if i !in s.taken {
      assert LiveMessage(s, i, id);
    } else {
      var x :| x in s.execs && s.execs[x].offset == i && !s.execs[x].pc.Return?;
      assert LiveExec(s, x, id);
    }
  }

  // ---- a row without a token ----

  /** Job `id` of replay call `c` is pending or cancelled, its message used up, and nobody sends another. */
  ghost predicate Stuck(s: State, c: nat, id: nat, i: nat) {
    && c < |s.calls| && s.calls[c].Replay? && id < |s.born| && s.born[id].call == c
    && id in s.jobs && (s.jobs[id].status.Pending? || s.jobs[id].status.Cancelled?)
    && OnlyMessage(s.log, id, i) && UsedUp(s, i) && NoneListed(s.calls, id)
  }

  /** No execution of the job has a call left, so no write or retry is its own. */
  lemma StuckTarget(s: State, x: nat, o: Outcome, success: bool, c: nat, id: nat, i: nat)
    requires Stuck(s, c, id, i) && WorkEnabled(s, x, success)
    ensures var op := Effective(WorkOp(ReqOf(s, x), s.execs[x].pc, s.clock, x), o);
            && !op.Insert? && (op.Enqueue? ==> op.entry.req.job != id)
            && (op.UpdateStatus? ==> op.id != id) && (op.CompleteWithOutbox? ==> op.id != id)
    ensures Outcomes(AfterWork(s, x, o, success), id) == Outcomes(s, id)
  {
    assert s.execs[x].offset != i ==> ReqOf(s, x).job != id;
    assert s.execs[x].offset == i ==> s.execs[x].pc.Return?;
  }

  lemma StaysUsedUp(s: State, x: nat, o: Outcome, success: bool, i: nat)
    requires UsedUp(s, i) && WorkEnabled(s, x, success)
    ensures UsedUp(AfterWork(s, x, o, success), i)
  {
  }

  lemma StuckRow(jobs: map<nat, Job>, op: Op, id: nat)
    requires id in jobs && (op.UpdateStatus? ==> op.id != id) && (op.CompleteWithOutbox? ==> op.id != id)
    ensures id in JobsAfter(jobs, op) && JobsAfter(jobs, op)[id] == jobs[id]
  {
  }

  lemma StuckWork(s: State, x: nat, o: Outcome, success: bool, c: nat, id: nat, i: nat)
    requires Stuck(s, c, id, i) && WorkEnabled(s, x, success)
    ensures Stuck(AfterWork(s, x, o, success), c, id, i)
    ensures Outcomes(AfterWork(s, x, o, success), id) == Outcomes(s, id)
  {
    var op := Effective(WorkOp(ReqOf(s, x), s.execs[x].pc, s.clock, x), o);
    StuckTarget(s, x, o, success, c, id, i);
    StaysUsedUp(s, x, o, success, i);
    StuckRow(s.jobs, op, id);
    OnlyMessageStays(s.log, op, id, i);
  }

  lemma StuckOp(s: State, c: nat, id: nat, i: nat, d: nat, o: Outcome, a: Answer)
    requires IdsOk(s) && Stuck(s, c, id, i) && StepEnabled(s, d, o, a)
    ensures var op := Effective(CallOp(s.calls[d], |s.born|, s.outbox, a), o);
            && !op.CompleteWithOutbox? && (op.Enqueue? ==> op.entry.req.job != id)
            && (op.UpdateStatus? && op.id == id ==> op.status.Cancelled?)
  {
    assert CallOk(s, d);
  }

  lemma StuckLists(s: State, c: nat, id: nat, i: nat, d: nat, o: Outcome, a: Answer)
    requires Stuck(s, c, id, i) && StepEnabled(s, d, o, a)
    ensures var call := CallNext(s, d, o, a);
            && (call.Promote? && !call.ppc.PList? ==> NotDue(call.ppc.todo, id))
            && (call.Replay? <==> s.calls[d].Replay?)
  {
    if s.calls[d].Promote? && s.calls[d].ppc.PList? && o.Ok? {
      forall k | 0 <= k < |a.ids| ensures a.ids[k] != id {
        assert a.ids[k] in DueJobs(s.jobs, s.calls[d].now);
      }
    }
  }

  lemma StuckCall(s: State, c: nat, id: nat, i: nat, d: nat, o: Outcome, a: Answer)
    requires IdsOk(s) && Stuck(s, c, id, i) && StepEnabled(s, d, o, a)
    ensures Stuck(AfterStep(s, d, o, a), c, id, i)
  {
    StuckOp(s, c, id, i, d, o, a);
    StuckLists(s, c, id, i, d, o, a);
    OnlyMessageStays(s.log, Effective(CallOp(s.calls[d], |s.born|, s.outbox, a), o), id, i);
  }

  lemma StuckQuiet(s: State, e: Event, c: nat, id: nat, i: nat)
    requires IdsOk(s) && Stuck(s, c, id, i) && Enabled(s, e) && !(e.Deliver? && e.offset == i) && !e.Work? && !e.Step?
    ensures Stuck(Apply(s, e), c, id, i) && Outcomes(Apply(s, e), id) == Outcomes(s, id)
  {
  }

  lemma StuckStep(s: State, e: Event, c: nat, id: nat, i: nat)
    requires IdsOk(s) && Stuck(s, c, id, i) && Enabled(s, e) && !(e.Deliver? && e.offset == i)
    ensures Stuck(Apply(s, e), c, id, i) && Outcomes(Apply(s, e), id) == Outcomes(s, id)
  {
    if e.Work? { StuckWork(s, e.exec, e.outcome, e.success, c, id, i); }
    else if e.Step? { StuckCall(s, c, id, i, e.id, e.outcome, e.answer); }
    else { StuckQuiet(s, e, c, id, i); }
  }

  predicate NeverAgain(run: seq<Event>, i: nat) {
    forall k :: 0 <= k < |run| ==> !(run[k].Deliver? && run[k].offset == i)
  }

  lemma {:induction false} StuckForever(s: State, run: seq<Event>, c: nat, id: nat, i: nat)
    requires IdsOk(s) && Stuck(s, c, id, i) && Legal(s, run) && NeverAgain(run, i)
    ensures Stuck(After(s, run), c, id, i) && Outcomes(After(s, run), id) == Outcomes(s, id)
    decreases |run|
  {
    if run != [] {
      StuckStep(s, run[0], c, id, i);
      IdsStep(s, run[0]);
      StuckForever(Apply(s, run[0]), run[1..], c, id, i);
    }
  }

  /** The insert makes a pending row, with what token the message has left. */
  lemma GapCloses(s: State, c: nat, id: nat, i: nat, o: Outcome)
    requires IdsOk(s) && InGap(s, c, id, i) && Applied(o)
    ensures StepEnabled(s, c, o, Nothing)
    ensures var s' := AfterStep(s, c, o, Nothing);
            && id in s'.jobs && s'.jobs[id].status.Pending? && TokensOf(s', id) == TokensOf(s, id)
            && (UsedUp(s, i) ==> Stuck(s', c, id, i))
  {
    var s' := AfterStep(s, c, o, Nothing);
    assert s'.log == s.log && s'.execs == s.execs && s'.taken == s.taken;
    assert forall k: nat :: LiveMessage(s', k, id) <==> LiveMessage(s, k, id);
    assert forall x: nat :: LiveExec(s', x, id) <==> LiveExec(s, x, id);
    NotYetListed(s, id);
  }

  lemma NotYetListed(s: State, id: nat)
    requires IdsOk(s) && id !in s.jobs
    ensures NoneListed(s.calls, id)
  {
    forall c | 0 <= c < |s.calls| && s.calls[c].Promote? && !s.calls[c].ppc.PList?
      ensures NotDue(s.calls[c].ppc.todo, id)
    {
      assert CallOk(s, c);
    }
  }

  /** Whatever happens between the message of a replay and its row, failures, redelivery and crashes
      included: the row appears pending, and the job then has a token exactly when its message has not
      been used up. If it has, no continuation ever runs the job or takes it out of pending, unless by
      cancelling it or by delivering that message again. */
  lemma ReplayedTokenExactly(s: State, c: nat, run: seq<Event>, o: Outcome)
    requires Reachable(s) && c < |s.calls| && s.calls[c].Replay? && s.calls[c].rpc.REnqueue?
    requires Legal(AfterStep(s, c, Ok, Nothing), run) && Without(run, c) && Applied(o)
    ensures var id, i := |s.born|, |s.log|; var s2 := After(AfterStep(s, c, Ok, Nothing), run);
            StepEnabled(s2, c, o, Nothing) &&
            var s' := AfterStep(s2, c, o, Nothing);
            && id in s'.jobs && s'.jobs[id].status.Pending?
            && (TokensOf(s', id) == {} <==> UsedUp(s2, i))
            && (UsedUp(s2, i) ==> LostForever(s', id, i))
  {
    var id, i := |s.born|, |s.log|;
    var s1 := AfterStep(s, c, Ok, Nothing);
    SafeReachable(s);
    GapOpens(s, c);
    SafeStep(s, Step(c, Ok, Nothing));
    GapStays(s1, run, c, id, i);
    var s2 := After(s1, run);
    GapCloses(s2, c, id, i, o);
    TokenUnlessUsedUp(s2, id, i);
    SafeStep(s2, Step(c, o, Nothing));
    if UsedUp(s2, i) { StuckIsLost(AfterStep(s2, c, o, Nothing), c, id, i); }
  }

  ghost predicate LostForever(s: State, id: nat, i: nat) {
    forall run :: Legal(s, run) && NeverAgain(run, i) ==>
      var s' := After(s, run);
      && id in s'.jobs && (s'.jobs[id].status.Pending? || s'.jobs[id].status.Cancelled?)
      && Outcomes(s', id) == Outcomes(s, id)
  }

  lemma StuckIsLost(s: State, c: nat, id: nat, i: nat)
    requires IdsOk(s) && Stuck(s, c, id, i)
    ensures LostForever(s, id, i)
  {
    forall run | Legal(s, run) && NeverAgain(run, i)
      ensures var s' := After(s, run);
              && id in s'.jobs && (s'.jobs[id].status.Pending? || s'.jobs[id].status.Cancelled?)
              && Outcomes(s', id) == Outcomes(s, id)
    {
      StuckForever(s, run, c, id, i);
    }
  }
}
