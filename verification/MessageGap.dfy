/** A submit and a cron firing create the row before they send its message. What becomes of the new job
    depends on what happens in between, and on the clock the submit looks at after its insert. */
module MessageGap {
  import opened Types
  import opened Tables
  import opened Protocol
  import opened Identity
  import opened Accounting
  import opened Tokens
  import opened FaultFree
  import opened EveryRun
  import opened Conservation
  import opened ApiEffects
  import opened ListedRows
  import opened FaultFreeRuns
  import opened OpenCalls
  import opened Exactness
  import opened ReplayGap

  // ---- a row without run_at waits for its message, whatever happens ----

  /** Job `id`, made by call `c` without a run_at, has its row and nothing else. */
  ghost predicate Bare(s: State, c: nat, id: nat) {
    && id < |s.born| && s.born[id].call == c && s.born[id].runAt == 0
    && id in s.jobs && (s.jobs[id].status.Pending? || s.jobs[id].status.Cancelled?)
    && Outcomes(s, id) == [] && RowsOf(s.outbox, id) == {}
    && forall i :: 0 <= i < |s.log| ==> s.log[i].req.job != id
  }

  /** No call writes the row but a cancel, and none sends a message for it. */
  lemma BareOp(s: State, c: nat, id: nat, d: nat, o: Outcome, a: Answer)
    requires IdsOk(s) && Bare(s, c, id) && StepEnabled(s, d, o, a) && d != c
    ensures var op := Effective(CallOp(s.calls[d], |s.born|, s.outbox, a), o);
            && !op.CompleteWithOutbox? && (op.Enqueue? ==> op.entry.req.job != id)
            && (op.UpdateStatus? && op.id == id ==> op.status.Cancelled?)
  {
    assert CallOk(s, d);
  }

  lemma BareRow(jobs: map<nat, Job>, op: Op, id: nat)
    requires id in jobs && (jobs[id].status.Pending? || jobs[id].status.Cancelled?) && !op.CompleteWithOutbox?
    requires op.UpdateStatus? && op.id == id ==> op.status.Cancelled?
    ensures id in JobsAfter(jobs, op) && (JobsAfter(jobs, op)[id].status.Pending? || JobsAfter(jobs, op)[id].status.Cancelled?)
  {
  }

  lemma BareOutbox(outbox: seq<OutboxRow>, op: Op, id: nat)
    requires RowsOf(outbox, id) == {} && (op.CompleteWithOutbox? ==> op.row.job != id)
    ensures RowsOf(OutboxAfter(outbox, op), id) == {}
  {
    var outbox' := OutboxAfter(outbox, op);
    forall i: nat | i < |outbox'| ensures outbox'[i].job != id {
      if i < |outbox| { assert i !in RowsOf(outbox, id) && outbox'[i].job == outbox[i].job; }
    }
  }

  lemma BareLog(log: seq<Entry>, op: Op, id: nat)
    requires (forall i :: 0 <= i < |log| ==> log[i].req.job != id) && (op.Enqueue? ==> op.entry.req.job != id)
    ensures forall i :: 0 <= i < |LogAfter(log, op)| ==> LogAfter(log, op)[i].req.job != id
  {
  }

  lemma BareCall(s: State, c: nat, id: nat, d: nat, o: Outcome, a: Answer)
    requires IdsOk(s) && Bare(s, c, id) && StepEnabled(s, d, o, a) && d != c
    ensures Bare(AfterStep(s, d, o, a), c, id)
  {
    var op := Effective(CallOp(s.calls[d], |s.born|, s.outbox, a), o);
    BareOp(s, c, id, d, o, a);
    BareRow(s.jobs, op, id);
    BareOutbox(s.outbox, op, id);
    BareLog(s.log, op, id);
  }

  /** No execution works for the job. */
  lemma BareWorkOp(s: State, x: nat, o: Outcome, success: bool, c: nat, id: nat)
    requires Bare(s, c, id) && WorkEnabled(s, x, success)
    ensures var op := Effective(WorkOp(ReqOf(s, x), s.execs[x].pc, s.clock, x), o);
            && !op.Insert? && (op.Enqueue? ==> op.entry.req.job != id) && (op.UpdateStatus? ==> op.id != id)
            && (op.CompleteWithOutbox? ==> op.id != id && op.row.job != id)
    ensures Outcomes(AfterWork(s, x, o, success), id) == []
  {
    assert ReqOf(s, x).job != id;
  }

  lemma BareWork(s: State, x: nat, o: Outcome, success: bool, c: nat, id: nat)
    requires Bare(s, c, id) && WorkEnabled(s, x, success)
    ensures Bare(AfterWork(s, x, o, success), c, id)
  {
    var op := Effective(WorkOp(ReqOf(s, x), s.execs[x].pc, s.clock, x), o);
    BareWorkOp(s, x, o, success, c, id);
    StuckRow(s.jobs, op, id);
    BareOutbox(s.outbox, op, id);
    BareLog(s.log, op, id);
  }

  lemma BareStep(s: State, e: Event, c: nat, id: nat)
    requires IdsOk(s) && Bare(s, c, id) && Enabled(s, e) && !(e.Step? && e.id == c)
    ensures Bare(Apply(s, e), c, id)
  {
    match e {
      case Work(x, o, success) => BareWork(s, x, o, success, c, id);
      case Step(d, o, a) => BareCall(s, c, id, d, o, a);
      case _ =>
    }
  }

  lemma {:induction false} BareLasts(s: State, run: seq<Event>, c: nat, id: nat)
    requires IdsOk(s) && Bare(s, c, id) && c < |s.calls| && Legal(s, run) && Without(run, c)
    ensures IdsOk(After(s, run)) && Bare(After(s, run), c, id)
    ensures c < |After(s, run).calls| && After(s, run).calls[c] == s.calls[c]
    decreases |run|
  {
    if run != [] {
      BareStep(s, run[0], c, id);
      IdsStep(s, run[0]);
      CallStays(s, run[0], c);
      BareLasts(Apply(s, run[0]), run[1..], c, id);
    }
  }

  lemma CallStays(s: State, e: Event, c: nat)
    requires Enabled(s, e) && c < |s.calls| && !(e.Step? && e.id == c)
    ensures c < |Apply(s, e).calls| && Apply(s, e).calls[c] == s.calls[c]
  {
    match e {
      case Work(_, _, _) =>
      case Step(_, _, _) =>
      case _ =>
    }
  }

  // ---- the message is sent, or not ----

  /** The first message of a job is its only token. */
  lemma FirstMessageOk(s: State, s': State, id: nat)
    requires IdsOk(s) && SameRuns(s, s') && s'.jobs == s.jobs && id in s.jobs
    requires Longer(s.log, s'.log) && s'.log[|s.log|].req.job == id && s'.log[|s.log|].req.attempt == 0
    requires TokensOf(s, id) == {} && Outcomes(s, id) == [] && RowsOf(s.outbox, id) == {}
    requires s.jobs[id].status.Pending? || s.jobs[id].status.Cancelled?
    ensures JobOk(s', id)
  {
    FirstMessage(s, s', id);
    MoreFailures(0);
  }

  lemma BareTokens(s: State, c: nat, id: nat)
    requires Bare(s, c, id)
    ensures TokensOf(s, id) == {}
    ensures JobOk(s, id) <==> IsCancelled(s, id)
  {
    if IsCancelled(s, id) { TokenOfJob(s, id); }
  }

  /** Call `c` sends a message of attempt 0 for job `id`, if it takes effect. */
  ghost predicate SendsFirst(s: State, s': State, id: nat, o: Outcome) {
    && SameRuns(s, s') && s'.jobs == s.jobs
    && if Applied(o) then Longer(s.log, s'.log) && s'.log[|s.log|].req.job == id && s'.log[|s.log|].req.attempt == 0
       else s'.log == s.log
  }

  lemma BareClosed(s: State, s': State, c: nat, id: nat, o: Outcome)
    requires IdsOk(s) && Bare(s, c, id) && SendsFirst(s, s', id, o)
    ensures id in s'.jobs && (JobOk(s', id) <==> Applied(o) || IsCancelled(s, id))
  {
    BareTokens(s, c, id);
    if Applied(o) {
      FirstMessageOk(s, s', id);
    } else {
      assert TokensOf(s', id) == TokensOf(s, id);
      if IsCancelled(s, id) { UnchangedJob(s, s', id); }
    }
  }

  // ---- a submit ----

  lemma RowInserted(s: State, c: nat)
    requires Safe(s) && c < |s.calls| && s.calls[c].Submit? && s.calls[c].spc.SCreate?
    requires Insertable(s.jobs, |s.born|, SubmitRow(s.calls[c].req))
    ensures StepEnabled(s, c, Ok, Nothing)
    ensures var s1 := AfterStep(s, c, Ok, Nothing); var r := s.calls[c].req;
            && c < |s1.calls| && s1.calls[c] == Submit(r, SCheck(|s.born|)) && SameRuns(s, s1) && s1.log == s.log
            && s1.jobs == s.jobs[|s.born| := SubmitRow(r)] && s1.born == s.born + [BirthOf(r, c)] && OtherCalls(s, s1, c)
  {
  }

  lemma RowIsBare(s: State, c: nat)
    requires Safe(s) && c < |s.calls| && s.calls[c].Submit? && s.calls[c].spc.SCreate?
    requires Insertable(s.jobs, |s.born|, SubmitRow(s.calls[c].req)) && s.calls[c].req.runAt <= 0
    ensures Bare(AfterStep(s, c, Ok, Nothing), c, |s.born|)
  {
    RowInserted(s, c);
  }

  lemma CheckPasses(s: State, c: nat, id: nat)
    requires Bare(s, c, id) && c < |s.calls| && s.calls[c].Submit? && s.calls[c].spc == SCheck(id) && s.calls[c].req.runAt <= 0
    ensures StepEnabled(s, c, Ok, Nothing)
    ensures var s' := AfterStep(s, c, Ok, Nothing);
            Bare(s', c, id) && c < |s'.calls| && s'.calls[c] == Submit(s.calls[c].req, SEnqueue(id))
  {
  }

  lemma SubmitSendsFirst(s: State, c: nat, id: nat, o: Outcome)
    requires c < |s.calls| && s.calls[c].Submit? && s.calls[c].spc == SEnqueue(id)
    ensures StepEnabled(s, c, o, Nothing) && SendsFirst(s, AfterStep(s, c, o, Nothing), id, o)
  {
  }

  /** A submit without run_at, with any events of the other actors between its insert, its look at the
      clock and its enqueue, failures, redelivery and crashes included: the new job is in order
      afterwards if and only if the enqueue took effect or the job has been cancelled. */
  lemma SubmitWithoutRunAtExactly(s: State, c: nat, run1: seq<Event>, run2: seq<Event>, o: Outcome)
    requires Reachable(s) && c < |s.calls| && s.calls[c].Submit? && s.calls[c].spc.SCreate? && s.calls[c].req.runAt <= 0
    requires Insertable(s.jobs, |s.born|, SubmitRow(s.calls[c].req))
    requires var s1 := AfterStep(s, c, Ok, Nothing);
             && Legal(s1, run1) && Without(run1, c)
             && StepEnabled(After(s1, run1), c, Ok, Nothing)
             && var s3 := AfterStep(After(s1, run1), c, Ok, Nothing);
             && Legal(s3, run2) && Without(run2, c)
    ensures var id := |s.born|;
            var s4 := After(AfterStep(After(AfterStep(s, c, Ok, Nothing), run1), c, Ok, Nothing), run2);
            StepEnabled(s4, c, o, Nothing) && id in s4.jobs &&
            var s' := AfterStep(s4, c, o, Nothing);
            id in s'.jobs && (JobOk(s', id) <==> Applied(o) || IsCancelled(s4, id))
  {
    var id := |s.born|;
    var s1 := AfterStep(s, c, Ok, Nothing);
    SafeReachable(s);
    RowInserted(s, c);
    RowIsBare(s, c);
    IdsStep(s, Step(c, Ok, Nothing));
    BareLasts(s1, run1, c, id);
    var s2 := After(s1, run1);
    CheckPasses(s2, c, id);
    IdsStep(s2, Step(c, Ok, Nothing));
    var s3 := AfterStep(s2, c, Ok, Nothing);
    BareLasts(s3, run2, c, id);
    var s4 := After(s3, run2);
    SubmitSendsFirst(s4, c, id, o);
    BareClosed(s4, AfterStep(s4, c, o, Nothing), c, id, o);
  }

  // ---- a cron firing ----

  lemma FiringIsBare(s: State, c: nat)
    requires Safe(s) && HasTodo(s, c) && s.calls[c].Cron?
    ensures StepEnabled(s, c, Ok, Nothing)
    ensures var s1 := AfterStep(s, c, Ok, Nothing);
            && Bare(s1, c, |s.born|) && c < |s1.calls|
            && s1.calls[c] == Cron(s.calls[c].now, TEnqueue(s.calls[c].tpc.todo, |s.born|))
  {
    FireCreates(s, c);
  }

  lemma FiringSendsFirst(s: State, c: nat, id: nat, o: Outcome)
    requires c < |s.calls| && s.calls[c].Cron? && s.calls[c].tpc.TEnqueue? && s.calls[c].tpc.todo != [] && s.calls[c].tpc.job == id
    ensures StepEnabled(s, c, o, Nothing) && SendsFirst(s, AfterStep(s, c, o, Nothing), id, o)
  {
  }

  /** A cron firing, with any events of the other actors between its insert and its enqueue: the new job
      is in order afterwards if and only if the enqueue took effect or the job has been cancelled. */
  lemma FiringMeanwhileExactly(s: State, c: nat, run: seq<Event>, o: Outcome)
    requires Reachable(s) && HasTodo(s, c) && s.calls[c].Cron?
    requires Legal(AfterStep(s, c, Ok, Nothing), run) && Without(run, c)
    ensures var id := |s.born|; var s2 := After(AfterStep(s, c, Ok, Nothing), run);
            StepEnabled(s2, c, o, Nothing) && id in s2.jobs &&
            var s' := AfterStep(s2, c, o, Nothing);
            id in s'.jobs && (JobOk(s', id) <==> Applied(o) || IsCancelled(s2, id))
  {
    var id := |s.born|;
    var s1 := AfterStep(s, c, Ok, Nothing);
    SafeReachable(s);
    FiringIsBare(s, c);
    IdsStep(s, Step(c, Ok, Nothing));
    BareLasts(s1, run, c, id);
    var s2 := After(s1, run);
    FiringSendsFirst(s2, c, id, o);
    BareClosed(s2, AfterStep(s2, c, o, Nothing), c, id, o);
  }

  // ---- a submit with a run_at ----

  /** The row is scheduled: everything is in order before the clock is looked at. */
  lemma ScheduledInOrder(s: State, c: nat)
    requires FInv(s) && c < |s.calls| && s.calls[c].Submit? && s.calls[c].spc.SCreate? && s.calls[c].req.runAt > 0
    requires Insertable(s.jobs, |s.born|, SubmitRow(s.calls[c].req))
    ensures FInv(AfterStep(s, c, Ok, Nothing))
    ensures AfterStep(s, c, Ok, Nothing).calls[c] == Submit(s.calls[c].req, SCheck(|s.born|))
    ensures |s.born| in AfterStep(s, c, Ok, Nothing).jobs
  {
    var s1 := AfterStep(s, c, Ok, Nothing);
    var r := s.calls[c].req;
    RowInserted(s, c);
    SafeStep(s, Step(c, Ok, Nothing));
    assert Appears(s, s1, |s.born|, SubmitRow(r));
    AppearsOk(s, s1, |s.born|, SubmitRow(r));
    OthersRest(s, s1, c);
    AppearsListed(s, s1, |s.born|, SubmitRow(r), c);
  }

  lemma ChecksInOrder(s: State, c: nat, id: nat)
    requires FInv(s) && c < |s.calls| && s.calls[c].Submit? && s.calls[c].spc == SCheck(id)
    ensures StepEnabled(s, c, Ok, Nothing)
    ensures var r := s.calls[c].req; var s' := AfterStep(s, c, Ok, Nothing);
            && FInv(s') && s'.jobs == s.jobs
            && s'.calls[c] == Submit(r, if r.runAt > 0 && r.runAt > s.clock then SDone(Some(id)) else SEnqueue(id))
  {
    SubmitLooks(s, c);
    SafeStep(s, Step(c, Ok, Nothing));
    QuietMove(s, AfterStep(s, c, Ok, Nothing), c);
  }

  /** A message for a job in order that is to have none yet: a first token only helps one that is
      cancelled and untried. */
  lemma SecondMessage(s: State, s': State, id: nat)
    requires IdsOk(s) && id in s.jobs && JobOk(s, id) && SameRuns(s, s') && s'.jobs == s.jobs
    requires Longer(s.log, s'.log) && s'.log[|s.log|].req.job == id && s'.log[|s.log|].req.attempt == 0
    ensures JobOk(s', id) <==> IsCancelled(s, id) && Untried(s, id)
  {
    assert LiveMessage(s', |s.log|, id) by { assert |s.log| !in s.taken; }
    TokenOfJob(s', id);
    MoreFailures(0);
    if IsCancelled(s, id) && Untried(s, id) {
      FirstMessageOk(s, s', id);
    } else if TokensOf(s, id) != {} {
      MoreTokens(s, s', id);
    }
  }

  lemma MoreTokens(s: State, s': State, id: nat)
    requires IdsOk(s) && SameRuns(s, s') && Longer(s.log, s'.log) && TokensOf(s, id) != {}
    requires s'.log[|s.log|].req.job == id
    ensures |TokensOf(s', id)| > 1
  {
    var k :| k in TokensOf(s, id);
    assert |s.log| !in s.taken;
    assert LiveMessage(s', |s.log|, id);
    TokenOfJob(s', id);
    if k.InLog? { assert LiveMessage(s', k.offset, id); } else { assert LiveExec(s', k.exec, id); }
    CardMonotone({k, InLog(|s.log|)}, TokensOf(s', id));
  }

  /** A submit with a run_at, with any fault-free events between its insert, its look at the clock and its
      enqueue. If the time has not come when it looks, it is over and everything is in order. If it has,
      the message it sends leaves the job in order if and only if the job is cancelled and nothing has been
      sent for it or tried; otherwise the job was, or will be, promoted as well. */
  lemma SubmitWithRunAtExactly(s: State, c: nat, run1: seq<OEvent>, run2: seq<OEvent>, o: Outcome)
    requires OReachable(s) && c < |s.calls| && s.calls[c].Submit? && s.calls[c].spc.SCreate? && s.calls[c].req.runAt > 0
    requires Insertable(s.jobs, |s.born|, SubmitRow(s.calls[c].req))
    requires var s1 := AfterStep(s, c, Ok, Nothing);
             && OLegal(s1, run1)
             && StepEnabled(OAfter(s1, run1), c, Ok, Nothing)
             && OLegal(AfterStep(OAfter(s1, run1), c, Ok, Nothing), run2)
    ensures var id, r := |s.born|, s.calls[c].req;
            var s2 := OAfter(AfterStep(s, c, Ok, Nothing), run1);
            var s3 := AfterStep(s2, c, Ok, Nothing);
            var s4 := OAfter(s3, run2);
            && TokensOk(s4) && c < |s3.calls| && id in s4.jobs
            && (s2.clock < r.runAt ==> s3.calls[c] == Submit(r, SDone(Some(id))))
            && (r.runAt <= s2.clock ==>
                  StepEnabled(s4, c, o, Nothing) &&
                  var s' := AfterStep(s4, c, o, Nothing);
                  id in s'.jobs && (JobOk(s', id) <==> o.Failure? || (IsCancelled(s4, id) && Untried(s4, id))))
  {
    var id, r := |s.born|, s.calls[c].req;
    UntilCheck(s, c, run1);
    var s2 := OAfter(AfterStep(s, c, Ok, Nothing), run1);
    AfterCheck(s2, c, id, run2);
    var s4 := OAfter(AfterStep(s2, c, Ok, Nothing), run2);
    if r.runAt <= s2.clock { SentTooEarly(s4, c, id, o); }
  }

  lemma UntilCheck(s: State, c: nat, run: seq<OEvent>)
    requires OReachable(s) && c < |s.calls| && s.calls[c].Submit? && s.calls[c].spc.SCreate? && s.calls[c].req.runAt > 0
    requires Insertable(s.jobs, |s.born|, SubmitRow(s.calls[c].req))
    requires OLegal(AfterStep(s, c, Ok, Nothing), run)
    ensures var s2 := OAfter(AfterStep(s, c, Ok, Nothing), run);
            FInv(s2) && c < |s2.calls| && s2.calls[c] == Submit(s.calls[c].req, SCheck(|s.born|)) && |s.born| in s2.jobs
  {
    var s1 := AfterStep(s, c, Ok, Nothing);
    OInvReachable(s);
    ScheduledInOrder(s, c);
    OpenStands(s1, run, c);
    RowsRemain(s1, run, |s.born|);
  }

  lemma AfterCheck(s: State, c: nat, id: nat, run: seq<OEvent>)
    requires FInv(s) && c < |s.calls| && s.calls[c].Submit? && s.calls[c].spc == SCheck(id) && id in s.jobs
    requires OLegal(AfterStep(s, c, Ok, Nothing), run)
    ensures var r := s.calls[c].req; var s3 := AfterStep(s, c, Ok, Nothing); var s4 := OAfter(s3, run);
            && FInv(s4) && c < |s3.calls| && c < |s4.calls| && s4.calls[c] == s3.calls[c] && id in s4.jobs
            && s3.calls[c] == Submit(r, if r.runAt > 0 && r.runAt > s.clock then SDone(Some(id)) else SEnqueue(id))
  {
    var s3 := AfterStep(s, c, Ok, Nothing);
    ChecksInOrder(s, c, id);
    OpenStands(s3, run, c);
    RowsRemain(s3, run, id);
  }

  lemma SentTooEarly(s: State, c: nat, id: nat, o: Outcome)
    requires IdsOk(s) && TokensOk(s) && id in s.jobs && c < |s.calls| && s.calls[c].Submit? && s.calls[c].spc == SEnqueue(id)
    ensures StepEnabled(s, c, o, Nothing)
    ensures var s' := AfterStep(s, c, o, Nothing);
            id in s'.jobs && (JobOk(s', id) <==> o.Failure? || (IsCancelled(s, id) && Untried(s, id)))
  {
    var s' := AfterStep(s, c, o, Nothing);
    assert JobOk(s, id);
    SubmitSendsFirst(s, c, id, o);
    if Applied(o) { SecondMessage(s, s', id); } else { UnchangedJob(s, s', id); }
  }
}
