/** A promotion sends its message before it writes the row. What becomes of the job depends on how far
    a worker has come with the message by then. */
module PromotionGap {
  import opened Types
  import opened Tables
  import opened Protocol
  import opened Identity
  import opened Accounting
  import opened Tokens
  import opened FaultFree
  import opened EveryRun
  import opened Conservation
  import opened ApiEffects
  import opened ListedRows
  import opened FaultFreeRuns
  import opened OpenCalls

  /** The rows with that of `j` pending if it is still scheduled. */
  function Shown(jobs: map<nat, Job>, j: nat): map<nat, Job> {
    if j in jobs && jobs[j].status.Scheduled? then SetStatus(jobs, j, Pending, 0, None) else jobs
  }

  /** What the state would be if the promotion had written the row at once. No worker can tell the
      difference. */
  ghost function AsPending(s: State, j: nat): State {
    s.(jobs := Shown(s.jobs, j))
  }

  predicate CronsRest(s: State) {
    (forall d :: 0 <= d < |s.calls| ==> CronRests(s.calls[d])) && SaneSchedules(s.schedules)
  }

  /** Promoter call `c` has sent the message of job `j` and has not written the row; but for that,
      all is in order. */
  ghost predicate InPromotion(s: State, c: nat, j: nat) {
    && Safe(s) && TokensOk(AsPending(s, j)) && j in s.jobs
    && c < |s.calls| && s.calls[c].Promote? && s.calls[c].ppc.PWrite? && s.calls[c].ppc.todo != []
    && s.calls[c].ppc.todo[0].id == j
    && OnePromoter(s.calls) && CronsRest(s)
  }

  // ---- the row shown as pending ----

  lemma ShownIds(s: State, j: nat)
    requires IdsOk(s)
    ensures IdsOk(AsPending(s, j))
  {
    var t := AsPending(s, j);
    if t != s {
      var op := UpdateStatus(j, Pending, 0, None);
      assert t.jobs == JobsAfter(s.jobs, op);
      RowsAfter(s.jobs, op, s.born, s.born);
      CallsFrame(s, t);
    }
  }

  lemma ShownSafe(s: State, j: nat)
    requires Safe(s)
    ensures IdsOk(AsPending(s, j)) && HistoryOk(AsPending(s, j)) && PcsOk(AsPending(s, j).execs, AsPending(s, j).log)
  {
    ShownIds(s, j);
  }

  lemma ShownUnchanged(s: State, s': State, j: nat)
    requires Unchanged(s, s')
    ensures Unchanged(AsPending(s, j), AsPending(s', j))
  {
  }

  lemma ShownAppears(s: State, s': State, id: nat, row: Job, j: nat)
    requires Appears(s, s', id, row) && j in s.jobs
    ensures Appears(AsPending(s, j), AsPending(s', j), id, row)
  {
    assert AsPending(s', j).jobs == AsPending(s, j).jobs[id := row];
  }

  lemma ShownRowCancelled(jobs: map<nat, Job>, k: nat, j: nat)
    requires k in jobs && j in jobs
    ensures Shown(SetStatus(jobs, k, Cancelled, 0, None), j) == SetStatus(Shown(jobs, j), k, Cancelled, 0, None)
  {
    if k != j {
      assert SetStatus(jobs, k, Cancelled, 0, None)[j] == jobs[j];
    }
  }

  lemma ShownCancelled(s: State, s': State, k: nat, j: nat)
    requires GetsCancelled(s, s', k) && j in s.jobs
    ensures GetsCancelled(AsPending(s, j), AsPending(s', j), k)
  {
    ShownRowCancelled(s.jobs, k, j);
  }

  /** A worker's write replaces everything a promotion writes. */
  lemma ShownStatus(jobs: map<nat, Job>, k: nat, st: Status, attempt: int, at: Option<int>, j: nat)
    requires !st.Scheduled?
    ensures Shown(SetStatus(jobs, k, st, attempt, at), j) == SetStatus(Shown(jobs, j), k, st, attempt, at)
  {
    if k in jobs && k != j && j in jobs {
      assert SetStatus(jobs, k, st, attempt, at)[j] == jobs[j];
    }
  }

  lemma ShownWrite(jobs: map<nat, Job>, op: Op, j: nat)
    requires op.Select? || op.Enqueue? || op.CompleteWithOutbox? || (op.UpdateStatus? && !op.status.Scheduled?)
    ensures Shown(JobsAfter(jobs, op), j) == JobsAfter(Shown(jobs, j), op)
  {
    if op.UpdateStatus? { ShownStatus(jobs, op.id, op.status, op.attempt, op.completedAt, j); }
    if op.CompleteWithOutbox? { ShownStatus(jobs, op.id, Completed, op.attempt, Some(op.at), j); }
  }

  lemma ShownNext(s: State, req: JobRequest, pc: Pc, success: bool, j: nat)
    ensures WorkNext(AsPending(s, j), req, pc, Ok, success) == WorkNext(s, req, pc, Ok, success)
  {
  }

  lemma ShownSmooth(s: State, x: nat, success: bool, j: nat)
    requires Smooth(s, x, success)
    ensures Smooth(AsPending(s, j), x, success)
  {
  }

  lemma ShownWork(s: State, x: nat, success: bool, j: nat)
    requires WorkEnabled(s, x, success)
    ensures AsPending(AfterWork(s, x, Ok, success), j) == AfterWork(AsPending(s, j), x, Ok, success)
  {
    ShownNext(s, ReqOf(s, x), s.execs[x].pc, success, j);
    ShownWrite(s.jobs, WorkOp(ReqOf(s, x), s.execs[x].pc, s.clock, x), j);
  }

  lemma ShownDelivered(s: State, i: nat, w: nat, j: nat)
    requires i < |s.log|
    ensures AsPending(Apply(s, Deliver(i, w)), j) == Apply(AsPending(s, j), Deliver(i, w))
  {
  }

  lemma ShownBatch(s: State, d: nat, a: Answer, j: nat)
    requires StepEnabled(s, d, Ok, a) && s.calls[d].Batch?
    ensures StepEnabled(AsPending(s, j), d, Ok, a)
    ensures AsPending(AfterStep(s, d, Ok, a), j) == AfterStep(AsPending(s, j), d, Ok, a)
  {
    BatchLeavesJobs(s.calls[d], |s.born|, s.outbox, a, s.jobs);
    BatchLeavesJobs(s.calls[d], |s.born|, s.outbox, a, Shown(s.jobs, j));
  }

  lemma BatchLeavesJobs(call: Call, newId: nat, outbox: seq<OutboxRow>, a: Answer, jobs: map<nat, Job>)
    requires call.Batch?
    ensures JobsAfter(jobs, Effective(CallOp(call, newId, outbox, a), Ok)) == jobs
  {
  }

  // ---- tokens ----

  lemma ShownOkUnchanged(s: State, s': State, j: nat)
    requires TokensOk(AsPending(s, j)) && Unchanged(s, s')
    ensures TokensOk(AsPending(s', j))
  {
    ShownUnchanged(s, s', j);
    UnchangedOk(AsPending(s, j), AsPending(s', j));
  }

  lemma ShownOkAppears(s: State, s': State, id: nat, row: Job, j: nat)
    requires Safe(s) && TokensOk(AsPending(s, j)) && j in s.jobs && (Unchanged(s, s') || Appears(s, s', id, row))
    ensures TokensOk(AsPending(s', j))
  {
    if Unchanged(s, s') {
      ShownOkUnchanged(s, s', j);
    } else {
      ShownSafe(s, j);
      ShownAppears(s, s', id, row, j);
      AppearsOk(AsPending(s, j), AsPending(s', j), id, row);
    }
  }

  lemma ShownOkCancel(s: State, k: nat, j: nat)
    requires TokensOk(AsPending(s, j)) && j in s.jobs
    ensures TokensOk(AsPending(FApply(s, FCancel(k)), j))
  {
    var s' := FApply(s, FCancel(k));
    CancelEffect(s, k);
    if Unchanged(s, s') {
      ShownOkUnchanged(s, s', j);
    } else {
      ShownCancelled(s, s', k, j);
      CancelledOk(AsPending(s, j), AsPending(s', j), k);
    }
  }

  lemma ShownOkReplay(s: State, k: nat, q: string, j: nat)
    requires Safe(s) && TokensOk(AsPending(s, j)) && j in s.jobs
    ensures TokensOk(AsPending(FApply(s, FReplay(k, q)), j))
  {
    ReplayEffect(s, k, q);
    var row := if k in s.jobs then ReplayRow(q, s.jobs[k].typ, s.jobs[k].payload, s.jobs[k].priority)
               else ReplayRow(q, "", Payload(None, None), 0);
    ShownOkAppears(s, FApply(s, FReplay(k, q)), |s.born|, row, j);
  }

  lemma ShownOkWork(s: State, x: nat, success: bool, j: nat)
    requires Safe(s) && TokensOk(AsPending(s, j)) && Smooth(s, x, success)
    ensures TokensOk(AsPending(AfterWork(s, x, Ok, success), j))
  {
    ShownSafe(s, j);
    ShownSmooth(s, x, success, j);
    ShownWork(s, x, success, j);
    TokensWork(AsPending(s, j), x, success);
  }

  lemma ShownOkDeliver(s: State, i: nat, w: nat, j: nat)
    requires Safe(s) && TokensOk(AsPending(s, j)) && i < |s.log| && i !in s.taken
    ensures TokensOk(AsPending(Apply(s, Deliver(i, w)), j))
  {
    ShownSafe(s, j);
    ShownDelivered(s, i, w, j);
    DeliveredOk(AsPending(s, j), i, w);
  }

  lemma ShownOkBatch(s: State, d: nat, a: Answer, j: nat)
    requires TokensOk(AsPending(s, j)) && StepEnabled(s, d, Ok, a) && s.calls[d].Batch?
    ensures TokensOk(AsPending(AfterStep(s, d, Ok, a), j))
  {
    ShownBatch(s, d, a, j);
    CallKeeps(AsPending(s, j), d, a);
  }

  lemma ListChangesNothing(s: State, d: nat, ids: seq<nat>)
    requires FEnabled(s, FList(d, ids))
    ensures Unchanged(s, AfterStep(s, d, Ok, Rows(ids)))
  {
  }

  lemma QuietChangesNothing(s: State, f: FEvent)
    requires FEnabled(s, f) && (f.FTick? || f.FPause? || f.FAddSchedule? || f.FDropSchedule? || f.FBegin?)
    ensures Unchanged(s, FApply(s, f))
  {
  }

  lemma ShownOkFire(s: State, d: nat, next: int, j: nat)
    requires Safe(s) && TokensOk(AsPending(s, j)) && j in s.jobs && CronsRest(s) && FEnabled(s, FFire(d, next))
    ensures TokensOk(AsPending(FApply(s, FFire(d, next)), j))
  {
    assert CronRests(s.calls[d]);
    FireEffect(s, d, next);
    ShownOkAppears(s, Fire(s, d, next), |s.born|, CronRow(s.calls[d].tpc.todo[0]), j);
  }

  lemma ShownOkSubmit(s: State, r: SubmitReq, j: nat)
    requires Safe(s) && TokensOk(AsPending(s, j)) && j in s.jobs && FEnabled(s, FSubmit(r))
    ensures TokensOk(AsPending(FApply(s, FSubmit(r)), j))
  {
    SubmitEffect(s, r);
    ShownOkAppears(s, FApply(s, FSubmit(r)), |s.born|, SubmitRow(r), j);
  }

  /** No other tick has anything to promote. */
  lemma OnlyPromoter(s: State, c: nat, j: nat, d: nat)
    requires InPromotion(s, c, j) && d < |s.calls| && d != c
    ensures !Promoting(s.calls[d])
  {
    assert Promoting(s.calls[c]);
  }

  lemma ShownOkApi(s: State, f: FEvent, j: nat)
    requires Safe(s) && TokensOk(AsPending(s, j)) && j in s.jobs && FEnabled(s, f)
    requires f.FSubmit? || f.FCancel? || f.FReplay?
    ensures TokensOk(AsPending(FApply(s, f), j))
  {
    if f.FSubmit? { ShownOkSubmit(s, f.req, j); }
    else if f.FCancel? { ShownOkCancel(s, f.job, j); }
    else { ShownOkReplay(s, f.job, f.queue, j); }
  }

  lemma ShownOkTick(s: State, f: FEvent, j: nat)
    requires Safe(s) && TokensOk(AsPending(s, j)) && j in s.jobs && CronsRest(s) && FEnabled(s, f)
    requires f.FFire? || f.FList? || f.FBatch?
    ensures TokensOk(AsPending(FApply(s, f), j))
  {
    if f.FFire? { ShownOkFire(s, f.tick, f.next, j); }
    else if f.FBatch? { ShownOkBatch(s, f.tick, f.answer, j); }
    else {
      ListChangesNothing(s, f.tick, f.ids);
      ShownOkUnchanged(s, FApply(s, f), j);
    }
  }

  lemma ShownOkQuiet(s: State, f: FEvent, j: nat)
    requires TokensOk(AsPending(s, j)) && FEnabled(s, f)
    requires f.FTick? || f.FPause? || f.FAddSchedule? || f.FDropSchedule? || f.FBegin?
    ensures TokensOk(AsPending(FApply(s, f), j))
  {
    QuietChangesNothing(s, f);
    ShownOkUnchanged(s, FApply(s, f), j);
  }

  lemma ShownKept(s: State, f: FEvent, j: nat)
    requires Safe(s) && TokensOk(AsPending(s, j)) && j in s.jobs && CronsRest(s) && FEnabled(s, f) && !f.FPromote?
    ensures TokensOk(AsPending(FApply(s, f), j))
  {
    if f.FSubmit? || f.FCancel? || f.FReplay? { ShownOkApi(s, f, j); }
    else if f.FFire? || f.FList? || f.FBatch? { ShownOkTick(s, f, j); }
    else if f.FDeliver? { ShownOkDeliver(s, f.offset, f.worker, j); }
    else if f.FWork? { ShownOkWork(s, f.exec, f.success, j); }
    else { ShownOkQuiet(s, f, j); }
  }

  // ---- calls ----

  ghost predicate StillPromoting(s: State, s': State, c: nat)
    requires c < |s.calls|
  {
    c < |s'.calls| && s'.calls[c] == s.calls[c] && OnePromoter(s'.calls) && CronsRest(s')
  }

  /** Another call has moved, and is no promoter with anything to do. */
  lemma OthersMoved(s: State, s': State, c: nat, j: nat, d: nat)
    requires InPromotion(s, c, j) && OtherCalls(s, s', d) && d != c && CronRests(s'.calls[d]) && !Promoting(s'.calls[d])
    ensures StillPromoting(s, s', c)
  {
    forall k | 0 <= k < |s'.calls| ensures CronRests(s'.calls[k]) && (Promoting(s'.calls[k]) ==> k == c) {
      if k != d {
        assert CronRests(s.calls[k]);
        if k != c { OnlyPromoter(s, c, j, k); }
      }
    }
  }

  lemma CallsKept(s: State, f: FEvent, c: nat, j: nat)
    requires InPromotion(s, c, j) && FEnabled(s, f) && !f.FPromote?
    ensures StillPromoting(s, FApply(s, f), c)
  {
    if f.FSubmit? || f.FCancel? || f.FReplay? { ApiMoved(s, f, c, j); }
    else if f.FFire? { FireMoved(s, f.tick, f.next, c, j); }
    else if f.FList? { ListMoved(s, f.tick, f.ids, c, j); }
    else if f.FBatch? { BatchMoved(s, f.tick, f.answer, c, j); }
    else if f.FBegin? { BeginMoved(s, f.call, c, j); }
    else { CallsStay(s, f); SameCalls(s, FApply(s, f), c, j); }
  }

  lemma ApiMoved(s: State, f: FEvent, c: nat, j: nat)
    requires InPromotion(s, c, j) && FEnabled(s, f) && (f.FSubmit? || f.FCancel? || f.FReplay?)
    ensures StillPromoting(s, FApply(s, f), c)
  {
    if f.FSubmit? { SubmitEffect(s, f.req); }
    else if f.FCancel? { CancelEffect(s, f.job); }
    else { ReplayEffect(s, f.job, f.queue); }
    OthersMoved(s, FApply(s, f), c, j, |s.calls|);
  }

  lemma BatchMoved(s: State, d: nat, a: Answer, c: nat, j: nat)
    requires InPromotion(s, c, j) && FEnabled(s, FBatch(d, a))
    ensures StillPromoting(s, FApply(s, FBatch(d, a)), c)
  {
    StepRests(s, d, a);
    OthersMoved(s, FApply(s, FBatch(d, a)), c, j, d);
  }

  lemma CallsStay(s: State, f: FEvent)
    requires FEnabled(s, f) && SaneSchedules(s.schedules)
    requires f.FTick? || f.FPause? || f.FAddSchedule? || f.FDropSchedule? || f.FDeliver? || f.FWork?
    ensures FApply(s, f).calls == s.calls && SaneSchedules(FApply(s, f).schedules)
  {
  }

  lemma SameCalls(s: State, s': State, c: nat, j: nat)
    requires InPromotion(s, c, j) && s'.calls == s.calls && SaneSchedules(s'.schedules)
    ensures StillPromoting(s, s', c)
  {
  }

  lemma BeginMoved(s: State, call: Call, c: nat, j: nat)
    requires InPromotion(s, c, j) && FEnabled(s, FBegin(call))
    ensures StillPromoting(s, Begun(s, call), c)
  {
    assert Promoting(s.calls[c]);
    OthersMoved(s, Begun(s, call), c, j, |s.calls|);
  }

  lemma FireMoved(s: State, d: nat, next: int, c: nat, j: nat)
    requires InPromotion(s, c, j) && FEnabled(s, FFire(d, next))
    ensures StillPromoting(s, FApply(s, FFire(d, next)), c)
  {
    assert CronRests(s.calls[d]);
    FireEffect(s, d, next);
    OthersMoved(s, FApply(s, FFire(d, next)), c, j, d);
  }

  lemma ListMoved(s: State, d: nat, ids: seq<nat>, c: nat, j: nat)
    requires InPromotion(s, c, j) && FEnabled(s, FList(d, ids))
    ensures StillPromoting(s, FApply(s, FList(d, ids)), c)
  {
    assert d != c;
    OnlyPromoter(s, c, j, d);
    StepRests(s, d, Rows(ids));
    ListedCronRests(s, d, ids);
    OthersMoved(s, FApply(s, FList(d, ids)), c, j, d);
  }

  // ---- the gap lasts ----

  lemma WholeStays(s: State, f: FEvent, c: nat, j: nat)
    requires InPromotion(s, c, j) && FEnabled(s, f)
    ensures InPromotion(FApply(s, f), c, j)
  {
    if f.FPromote? { OnlyPromoter(s, c, j, f.tick); }
    FStepIsRun(s, f);
    SafeReached(s, FApply(s, f));
    KeysStay(s, FApply(s, f), j);
    ShownKept(s, f, j);
    CallsKept(s, f, c, j);
  }

  lemma QuietStays(s: State, s': State, c: nat, j: nat, d: nat)
    requires InPromotion(s, c, j) && Safe(s') && Unchanged(s, s') && OtherCalls(s, s', d) && d != c && Opens(s'.calls[d])
    ensures InPromotion(s', c, j)
  {
    ShownOkUnchanged(s, s', j);
    OthersMoved(s, s', c, j, d);
  }

  lemma PromotionStays(s: State, e: OEvent, c: nat, j: nat)
    requires InPromotion(s, c, j) && OEnabled(s, e)
    ensures InPromotion(OApply(s, e), c, j)
  {
    match e {
      case Whole(f) => WholeStays(s, f, c, j);
      case Open(call) =>
        OpensQuietly(s, call);
        SafeStep(s, Begin(call));
        QuietStays(s, OApply(s, e), c, j, |s.calls|);
      case Look(d) =>
        LooksQuietly(s, d);
        SafeStep(s, Step(d, Ok, Nothing));
        QuietStays(s, OApply(s, e), c, j, d);
    }
  }

  lemma {:induction false} PromotionLasts(s: State, run: seq<OEvent>, c: nat, j: nat)
    requires InPromotion(s, c, j) && OLegal(s, run)
    ensures InPromotion(OAfter(s, run), c, j)
    decreases |run|
  {
    if run != [] {
      PromotionStays(s, run[0], c, j);
      PromotionLasts(OApply(s, run[0]), run[1..], c, j);
    }
  }

  // ---- the gap opens ----

  /** The message of a dormant job is sent. */
  lemma MessageSent(s: State, c: nat)
    requires FEnabled(s, FPromote(c)) && Dormant(s, s.calls[c].ppc.todo[0].id)
    ensures StepEnabled(s, c, Ok, Nothing)
    ensures var s1 := AfterStep(s, c, Ok, Nothing); var d := s.calls[c].ppc.todo[0];
            && SameRuns(s, s1) && s1.jobs == s.jobs && s1.log == s.log + [Entry(PromoteMessage(d), ByPromoter)]
            && s1.calls == s.calls[c := Promote(s.calls[c].now, PWrite(s.calls[c].ppc.todo))] && s1.schedules == s.schedules
  {
  }

  /** A scheduled row, shown as pending, is a promoted one. */
  lemma SentScheduled(s: State, s1: State, d: Due)
    requires IdsOk(s) && TokensOk(s) && Dormant(s, d.id) && s.jobs[d.id].status.Scheduled?
    requires SameRuns(s, s1) && s1.jobs == s.jobs && s1.log == s.log + [Entry(PromoteMessage(d), ByPromoter)]
    ensures TokensOk(AsPending(s1, d.id))
  {
    assert GetsPromoted(s, AsPending(s1, d.id), d.id, 0);
    PromotedOk(s, AsPending(s1, d.id), d.id, 0);
  }

  /** A cancelled job that nothing has been sent for may have a message. */
  lemma SentCancelled(s: State, s1: State, d: Due)
    requires IdsOk(s) && TokensOk(s) && Dormant(s, d.id) && s.jobs[d.id].status.Cancelled?
    requires SameRuns(s, s1) && s1.jobs == s.jobs && s1.log == s.log + [Entry(PromoteMessage(d), ByPromoter)]
    ensures TokensOk(s1)
  {
    assert JobOk(s, d.id);
    DormantIdle(s, d.id);
    FirstMessage(s, s1, d.id);
    SentCancelledJob(s, s1, d);
    SentOnly(s, s1, d);
    Others(s, s1, d.id);
  }

  lemma SentOnly(s: State, s1: State, d: Due)
    requires LogOk(s) && Dormant(s, d.id)
    requires SameRuns(s, s1) && s1.jobs == s.jobs && s1.log == s.log + [Entry(PromoteMessage(d), ByPromoter)]
    ensures Only(s, s1, d.id) && LogOk(s1)
  {
  }

  lemma SentCancelledJob(s: State, s1: State, d: Due)
    requires Dormant(s, d.id) && s.jobs[d.id].status.Cancelled? && Settled(s, d.id)
    requires SameRuns(s, s1) && s1.jobs == s.jobs && s1.log == s.log + [Entry(PromoteMessage(d), ByPromoter)]
    requires TokensOf(s1, d.id) == {InLog(|s.log|)}
    requires forall i: nat :: LiveMessage(s1, i, d.id) ==> i == |s.log|
    requires forall x: nat :: !LiveExec(s1, x, d.id)
    ensures JobOk(s1, d.id)
  {
    MoreFailures(0);
  }

  lemma PromotionOpens(s: State, c: nat)
    requires FInv(s) && FEnabled(s, FPromote(c))
    ensures StepEnabled(s, c, Ok, Nothing)
    ensures InPromotion(AfterStep(s, c, Ok, Nothing), c, s.calls[c].ppc.todo[0].id)
  {
    var d := s.calls[c].ppc.todo[0];
    var s1 := AfterStep(s, c, Ok, Nothing);
    ListedPromote(s, c);
    MessageSent(s, c);
    SafeStep(s, Step(c, Ok, Nothing));
    if s.jobs[d.id].status.Scheduled? { SentScheduled(s, s1, d); } else { SentCancelled(s, s1, d); }
    StillOnePromoter(s, s1, c);
  }

  lemma StillOnePromoter(s: State, s1: State, c: nat)
    requires AtRest(s) && ListedOk(s) && FEnabled(s, FPromote(c)) && s1.schedules == s.schedules
    requires s1.calls == s.calls[c := Promote(s.calls[c].now, PWrite(s.calls[c].ppc.todo))]
    ensures OnePromoter(s1.calls) && CronsRest(s1)
  {
    forall d | 0 <= d < |s1.calls| ensures CronRests(s1.calls[d]) && (Promoting(s1.calls[d]) ==> d == c) {
      assert d != c ==> CallRests(s.calls[d]);
      assert Promoting(s.calls[c]);
    }
  }

  // ---- the gap closes ----

  /** The job's message is still in the log, or its execution has not passed its first status write. */
  ghost predicate NotYetMarked(s: State, j: nat) {
    || (exists i: nat :: LiveMessage(s, i, j))
    || (exists x: nat :: LiveExec(s, x, j)
          && (s.execs[x].pc.GetQueue? || s.execs[x].pc.Acquire? || s.execs[x].pc.Lookup? || s.execs[x].pc.MarkProcessing?))
  }

  /** The row is pending now; nothing else differs from `t`, in which the job was in order. */
  ghost predicate PendingNow(t: State, s': State, j: nat, attempt: int) {
    SameRuns(t, s') && s'.log == t.log && j in t.jobs && s'.jobs == SetStatus(t.jobs, j, Pending, attempt, None)
  }

  lemma PendingTokens(t: State, s': State, j: nat, attempt: int)
    requires PendingNow(t, s', j, attempt)
    ensures TokensOf(s', j) == TokensOf(t, j)
    ensures forall i: nat :: LiveMessage(s', i, j) <==> LiveMessage(t, i, j)
    ensures forall x: nat :: LiveExec(s', x, j) <==> LiveExec(t, x, j)
  {
  }

  /** A pending row calls for one token, and that before its first status write. */
  lemma PendingNeedsToken(t: State, s': State, j: nat, attempt: int)
    requires PendingNow(t, s', j, attempt) && JobOk(s', j)
    ensures NotYetMarked(t, j)
  {
    PendingTokens(t, s', j, attempt);
    assert |TokensOf(s', j)| == 1;
    var k :| k in TokensOf(s', j);
    if k.InLog? {
      assert LiveMessage(t, k.offset, j);
    } else {
      assert LiveExec(s', k.exec, j) && TokenOk(s', j, s'.execs[k.exec].pc, s'.log[s'.execs[k.exec].offset].req);
      assert LiveExec(t, k.exec, j);
    }
  }

  /** Then nothing has been made of it yet. */
  lemma TokenIsThere(t: State, j: nat)
    requires j in t.jobs && JobOk(t, j) && NotYetMarked(t, j)
    ensures |TokensOf(t, j)| == 1 && (Unfinished(t.jobs[j]) || t.jobs[j].status.Cancelled?)
  {
    TokenOfJob(t, j);
    var k :| k in TokensOf(t, j);
    assert {k} <= TokensOf(t, j);
    CardMonotone({k}, TokensOf(t, j));
  }

  lemma ExecFitsPending(t: State, s': State, j: nat, attempt: int, x: nat)
    requires PendingNow(t, s', j, attempt) && JobOk(t, j) && NotYetMarked(t, j) && LiveExec(t, x, j)
    ensures LiveExec(s', x, j) && TokenOk(s', j, s'.execs[x].pc, s'.log[s'.execs[x].offset].req)
  {
    assert TokenOk(t, j, t.execs[x].pc, t.log[t.execs[x].offset].req);
    OnlyToken(t, x, j);
    SameToken(t, x, j);
  }

  lemma TokenFitsPending(t: State, s': State, j: nat, attempt: int)
    requires PendingNow(t, s', j, attempt) && JobOk(t, j) && NotYetMarked(t, j)
    ensures forall i: nat :: LiveMessage(s', i, j) ==> TokenOk(s', j, GetQueue, s'.log[i].req)
    ensures forall x: nat :: LiveExec(s', x, j) ==> TokenOk(s', j, s'.execs[x].pc, s'.log[s'.execs[x].offset].req)
  {
    PendingTokens(t, s', j, attempt);
    forall x: nat | LiveExec(s', x, j)
      ensures TokenOk(s', j, s'.execs[x].pc, s'.log[s'.execs[x].offset].req)
    {
      ExecFitsPending(t, s', j, attempt, x);
    }
  }

  lemma SameToken(t: State, x: nat, j: nat)
    requires NotYetMarked(t, j) && TokensOf(t, j) == {Running(x)}
    ensures var pc := t.execs[x].pc; pc.GetQueue? || pc.Acquire? || pc.Lookup? || pc.MarkProcessing?
  {
    TokenOfJob(t, j);
  }

  lemma PendingSettled(t: State, s': State, j: nat, attempt: int)
    requires PendingNow(t, s', j, attempt) && Settled(t, j) && !t.jobs[j].status.Completed?
    ensures j in s'.jobs && Settled(s', j)
  {
    assert RowsOf(s'.outbox, j) == RowsOf(t.outbox, j);
  }

  lemma EarlyIsOk(t: State, s': State, j: nat, attempt: int)
    requires PendingNow(t, s', j, attempt) && JobOk(t, j) && NotYetMarked(t, j)
    ensures j in s'.jobs && JobOk(s', j)
  {
    TokenIsThere(t, j);
    PendingTokens(t, s', j, attempt);
    TokenFitsPending(t, s', j, attempt);
    PendingSettled(t, s', j, attempt);
  }

  lemma PendingInOrder(t: State, s': State, j: nat, attempt: int)
    requires PendingNow(t, s', j, attempt) && JobOk(t, j)
    ensures j in s'.jobs && (JobOk(s', j) <==> NotYetMarked(t, j))
  {
    if NotYetMarked(t, j) { EarlyIsOk(t, s', j, attempt); }
    if JobOk(s', j) { PendingNeedsToken(t, s', j, attempt); }
  }

  /** A row written or not, every other job stays in order. */
  lemma OnlyThisJob(t: State, s': State, j: nat, attempt: int)
    requires TokensOk(t) && PendingNow(t, s', j, attempt)
    ensures TokensOk(s') <==> JobOk(s', j)
  {
    assert Only(t, s', j);
    if JobOk(s', j) { Others(t, s', j); }
  }

  lemma ShownRowPending(jobs: map<nat, Job>, j: nat, attempt: int)
    ensures SetStatus(Shown(jobs, j), j, Pending, attempt, None) == SetStatus(jobs, j, Pending, attempt, None)
  {
  }

  lemma RowWritten(s: State, c: nat, j: nat, o: Outcome)
    requires InPromotion(s, c, j) && Applied(o)
    ensures StepEnabled(s, c, o, Nothing)
    ensures PendingNow(AsPending(s, j), AfterStep(s, c, o, Nothing), j, s.calls[c].ppc.todo[0].row.attempt)
  {
    ShownRowPending(s.jobs, j, s.calls[c].ppc.todo[0].row.attempt);
  }

  lemma ShownMarked(s: State, j: nat)
    ensures NotYetMarked(AsPending(s, j), j) <==> NotYetMarked(s, j)
  {
    var t := AsPending(s, j);
    forall i: nat ensures LiveMessage(t, i, j) <==> LiveMessage(s, i, j) {}
    forall x: nat ensures LiveExec(t, x, j) <==> LiveExec(s, x, j) {}
  }

  lemma RowNotWritten(s: State, c: nat, j: nat)
    requires InPromotion(s, c, j) && HasMessage(s, j)
    ensures StepEnabled(s, c, Failure, Nothing)
    ensures TokensOk(AfterStep(s, c, Failure, Nothing)) <==> !s.jobs[j].status.Scheduled?
  {
    var s' := AfterStep(s, c, Failure, Nothing);
    assert Unchanged(s, s');
    if s.jobs[j].status.Scheduled? {
      var i :| 0 <= i < |s.log| && s.log[i].req.job == j;
      assert s'.log[i].req.job == j;
      assert !Settled(s', j);
      assert !JobOk(s', j);
    } else {
      UnchangedOk(s, s');
    }
  }

  ghost predicate HasMessage(s: State, j: nat) {
    exists i :: 0 <= i < |s.log| && s.log[i].req.job == j
  }

  lemma {:induction false} MessageStays(s: State, run: seq<OEvent>, j: nat)
    requires OLegal(s, run) && HasMessage(s, j)
    ensures HasMessage(OAfter(s, run), j)
  {
    ORunIsRun(s, run);
    var events :| Legal(s, events) && After(s, events) == OAfter(s, run);
    LogStays(s, events, j);
  }

  lemma {:induction false} LogStays(s: State, run: seq<Event>, j: nat)
    requires Legal(s, run) && HasMessage(s, j)
    ensures HasMessage(After(s, run), j)
    decreases |run|
  {
    if run != [] {
      var i :| 0 <= i < |s.log| && s.log[i].req.job == j;
      ApplyExtends(s, run[0]);
      assert Apply(s, run[0]).log[i].req.job == j;
      LogStays(Apply(s, run[0]), run[1..], j);
    }
  }

  /** A promotion whose message has been sent, with any fault-free events between that and its write,
      cancels of the job included: when the write takes effect, everything is in order afterwards if and
      only if the job's message is still in the log, or its execution has not passed its first status
      write. When the write fails, if and only if the row says something else than scheduled by then. */
  lemma PromotedMeanwhileExactly(s: State, c: nat, run: seq<OEvent>, o: Outcome)
    requires OReachable(s) && HasTodo(s, c) && s.calls[c].Promote?
    requires OLegal(AfterStep(s, c, Ok, Nothing), run)
    ensures var j := s.calls[c].ppc.todo[0].id; var s2 := OAfter(AfterStep(s, c, Ok, Nothing), run);
            StepEnabled(s2, c, o, Nothing) && j in s2.jobs &&
            var s' := AfterStep(s2, c, o, Nothing);
            && j in s'.jobs
            && (Applied(o) ==> s'.jobs[j].status.Pending? && (JobOk(s', j) <==> NotYetMarked(s2, j)))
            && (TokensOk(s') <==> if Applied(o) then NotYetMarked(s2, j) else !s2.jobs[j].status.Scheduled?)
  {
    var j := s.calls[c].ppc.todo[0].id;
    var s1 := AfterStep(s, c, Ok, Nothing);
    var s2 := OAfter(s1, run);
    OInvReachable(s);
    PromotionOpens(s, c);
    PromotionLasts(s1, run, c, j);
    if Applied(o) {
      RowWritten(s2, c, j, o);
      WrittenExactly(s2, AfterStep(s2, c, o, Nothing), j, s2.calls[c].ppc.todo[0].row.attempt);
    } else {
      assert HasMessage(s1, j) by { MessageSent(s, c); assert s1.log[|s.log|].req.job == j; }
      MessageStays(s1, run, j);
      RowNotWritten(s2, c, j);
    }
  }

  lemma WrittenExactly(s: State, s': State, j: nat, attempt: int)
    requires j in s.jobs && TokensOk(AsPending(s, j)) && PendingNow(AsPending(s, j), s', j, attempt)
    ensures j in s'.jobs && s'.jobs[j].status.Pending?
    ensures JobOk(s', j) <==> NotYetMarked(s, j)
    ensures TokensOk(s') <==> NotYetMarked(s, j)
  {
    var t := AsPending(s, j);
    assert JobOk(t, j);
    PendingInOrder(t, s', j, attempt);
    OnlyThisJob(t, s', j, attempt);
    ShownMarked(s, j);
  }
}
