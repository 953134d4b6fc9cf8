/** The main results about fault-free runs: one token per job, exact retry accounting, and what
    can become of a finished job. */
module FaultFreeRuns {
  import opened Types
  import opened Tables
  import opened Protocol
  import opened Identity
  import opened Accounting
  import opened Tokens
  import opened FaultFree
  import opened EveryRun
  import opened Conservation
  import opened ApiEffects
  import opened ListedRows

  predicate SaneCron(todo: seq<DueCron>) {
    forall k :: 0 <= k < |todo| ==> todo[k].row.maxRetry < MAX_INT32
  }

  predicate CronRests(call: Call) {
    call.Cron? ==> call.tpc.TList? || (call.tpc.TCreate? && SaneCron(call.tpc.todo))
  }

  /** Between steps no promotion or firing is half done. */
  predicate CallRests(call: Call) {
    (call.Promote? ==> !call.ppc.PWrite?) && CronRests(call)
  }

  predicate SaneSchedules(schedules: map<nat, Schedule>) {
    forall id :: id in schedules ==> schedules[id].maxRetry < MAX_INT32
  }

  predicate AtRest(s: State) {
    (forall c :: 0 <= c < |s.calls| ==> CallRests(s.calls[c])) && SaneSchedules(s.schedules)
  }

  ghost predicate FInv(s: State) {
    Safe(s) && TokensOk(s) && AtRest(s) && ListedOk(s)
  }

  lemma FInit(limit: int, clock: int)
    ensures FInv(Init(limit, clock))
  {
    SafeInit(limit, clock);
  }

  lemma SafeReached(s: State, s': State)
    requires Safe(s) && Reaches(s, s')
    ensures Safe(s')
  {
    var run :| Legal(s, run) && After(s, run) == s';
    SafeAlways(s, run);
  }

  lemma AppearsKeeps(s: State, s': State, id: nat, row: Job)
    requires FInv(s) && (Unchanged(s, s') || Appears(s, s', id, row))
    ensures TokensOk(s')
  {
    if Unchanged(s, s') { UnchangedOk(s, s'); } else { AppearsOk(s, s', id, row); }
  }

  lemma FireKeeps(s: State, c: nat, next: int)
    requires FInv(s) && FEnabled(s, FFire(c, next))
    ensures TokensOk(FApply(s, FFire(c, next)))
  {
    assert CallRests(s.calls[c]);
    FireEffect(s, c, next);
    AppearsOk(s, Fire(s, c, next), |s.born|, CronRow(s.calls[c].tpc.todo[0]));
  }

  lemma LogSame(s: State, s': State)
    requires LogOk(s) && s'.jobs == s.jobs && s'.log == s.log
    ensures LogOk(s')
  {
  }

  lemma ListOrBatchSame(s: State, c: nat, a: Answer)
    requires StepEnabled(s, c, Ok, a)
    requires s.calls[c].Batch? || (s.calls[c].Promote? && s.calls[c].ppc.PList?) || (s.calls[c].Cron? && s.calls[c].tpc.TList?)
    ensures AfterStep(s, c, Ok, a).jobs == s.jobs && AfterStep(s, c, Ok, a).log == s.log
  {
  }

  lemma CallKeeps(s: State, c: nat, a: Answer)
    requires TokensOk(s) && StepEnabled(s, c, Ok, a)
    requires s.calls[c].Batch? || (s.calls[c].Promote? && s.calls[c].ppc.PList?) || (s.calls[c].Cron? && s.calls[c].tpc.TList?)
    ensures TokensOk(AfterStep(s, c, Ok, a))
  {
    var s' := AfterStep(s, c, Ok, a);
    ListOrBatchSame(s, c, a);
    LogSame(s, s');
    forall k | k in s'.jobs ensures JobOk(s', k) { CallKeepsJob(s, c, a, k); }
  }

  lemma CallKeepsJob(s: State, c: nat, a: Answer, k: nat)
    requires StepEnabled(s, c, Ok, a) && k in s.jobs && JobOk(s, k)
    requires s.calls[c].Batch? || (s.calls[c].Promote? && s.calls[c].ppc.PList?) || (s.calls[c].Cron? && s.calls[c].tpc.TList?)
    ensures AfterStep(s, c, Ok, a).jobs == s.jobs && AfterStep(s, c, Ok, a).log == s.log
    ensures JobOk(AfterStep(s, c, Ok, a), k)
  {
    var s' := AfterStep(s, c, Ok, a);
    assert RowsOf(s'.outbox, k) == RowsOf(s.outbox, k);
    UntouchedOk(s, s', k);
  }

  lemma QuietKeeps(s: State, f: FEvent)
    requires FInv(s) && FEnabled(s, f)
    requires f.FTick? || f.FPause? || f.FAddSchedule? || f.FDropSchedule? || f.FBegin?
    ensures TokensOk(FApply(s, f))
  {
    UnchangedOk(s, FApply(s, f));
  }

  lemma TokensKept(s: State, f: FEvent)
    requires FInv(s) && FEnabled(s, f)
    ensures TokensOk(FApply(s, f))
  {
    match f {
      case FDeliver(i, w) => DeliveredOk(s, i, w);
      case FWork(x, success) => TokensWork(s, x, success);
      case FSubmit(r) => SubmitEffect(s, r); AppearsKeeps(s, FApply(s, f), |s.born|, SubmitRow(r));
      case FCancel(j) => CancelKeeps(s, j);
      case FReplay(j, q) => ReplayKeeps(s, j, q);
      case FPromote(c) =>
        ListedPromote(s, c);
        PromoteEffect(s, c);
        PromotedOk(s, FApply(s, f), s.calls[c].ppc.todo[0].id, s.calls[c].ppc.todo[0].row.attempt);
      case FFire(c, next) => FireKeeps(s, c, next);
      case FList(c, ids) => CallKeeps(s, c, Rows(ids));
      case FBatch(c, a) => CallKeeps(s, c, a);
      case _ => QuietKeeps(s, f);
    }
  }

  lemma CancelKeeps(s: State, j: nat)
    requires FInv(s)
    ensures TokensOk(FApply(s, FCancel(j)))
  {
    CancelEffect(s, j);
    var s' := FApply(s, FCancel(j));
    if Unchanged(s, s') { UnchangedOk(s, s'); } else { CancelledOk(s, s', j); }
  }

  lemma ReplayKeeps(s: State, j: nat, q: string)
    requires FInv(s)
    ensures TokensOk(FApply(s, FReplay(j, q)))
  {
    ReplayEffect(s, j, q);
    var s' := FApply(s, FReplay(j, q));
    if Unchanged(s, s') { UnchangedOk(s, s'); }
    else { AppearsOk(s, s', |s.born|, ReplayRow(q, s.jobs[j].typ, s.jobs[j].payload, s.jobs[j].priority)); }
  }

  // ---- calls rest between steps ----

  lemma RestsKept(s: State, f: FEvent)
    requires FInv(s) && FEnabled(s, f)
    ensures AtRest(FApply(s, f))
  {
    match f {
      case FSubmit(r) => SubmitEffect(s, r); OthersRest(s, FApply(s, f), |s.calls|);
      case FCancel(j) => CancelEffect(s, j); OthersRest(s, FApply(s, f), |s.calls|);
      case FReplay(j, q) => ReplayEffect(s, j, q); OthersRest(s, FApply(s, f), |s.calls|);
      case FPromote(c) => ListedPromote(s, c); PromoteEffect(s, c); OthersRest(s, FApply(s, f), c);
      case FFire(c, next) => FireRests(s, c, next);
      case FList(c, ids) => ListRests(s, c, ids);
      case FBatch(c, a) => BatchRests(s, c, a);
      case _ => QuietRests(s, f);
    }
  }

  lemma QuietRests(s: State, f: FEvent)
    requires AtRest(s) && FEnabled(s, f)
    requires f.FTick? || f.FPause? || f.FAddSchedule? || f.FDropSchedule? || f.FBegin? || f.FDeliver? || f.FWork?
    ensures AtRest(FApply(s, f))
  {
  }

  lemma OthersRest(s: State, s': State, c: nat)
    requires AtRest(s) && OtherCalls(s, s', c) && CallRests(s'.calls[c])
    ensures AtRest(s')
  {
    forall k | 0 <= k < |s'.calls| ensures CallRests(s'.calls[k]) {
      if k != c { assert CallRests(s.calls[k]); }
    }
  }

  lemma FireRests(s: State, c: nat, next: int)
    requires Safe(s) && AtRest(s) && FEnabled(s, FFire(c, next))
    ensures AtRest(FApply(s, FFire(c, next)))
  {
    assert CallRests(s.calls[c]);
    FireEffect(s, c, next);
    OthersRest(s, Fire(s, c, next), c);
  }

  /** A listing or an outbox statement only moves its own call. */
  lemma StepRests(s: State, c: nat, a: Answer)
    requires StepEnabled(s, c, Ok, a)
    requires s.calls[c].Batch? || (s.calls[c].Promote? && s.calls[c].ppc.PList?) || (s.calls[c].Cron? && s.calls[c].tpc.TList?)
    ensures OtherCalls(s, AfterStep(s, c, Ok, a), c)
  {
  }

  lemma ListedCronRests(s: State, c: nat, ids: seq<nat>)
    requires SaneSchedules(s.schedules) && FEnabled(s, FList(c, ids))
    ensures CallRests(AfterStep(s, c, Ok, Rows(ids)).calls[c])
  {
    if s.calls[c].Cron? {
      assert SaneCron(CronSnapshot(s.schedules, ids));
    }
  }

  lemma ListRests(s: State, c: nat, ids: seq<nat>)
    requires AtRest(s) && FEnabled(s, FList(c, ids))
    ensures AtRest(FApply(s, FList(c, ids)))
  {
    StepRests(s, c, Rows(ids));
    ListedCronRests(s, c, ids);
    OthersRest(s, AfterStep(s, c, Ok, Rows(ids)), c);
  }

  lemma BatchRests(s: State, c: nat, a: Answer)
    requires AtRest(s) && FEnabled(s, FBatch(c, a))
    ensures AtRest(FApply(s, FBatch(c, a)))
  {
    StepRests(s, c, a);
    OthersRest(s, AfterStep(s, c, Ok, a), c);
  }

  // ---- listed rows stay dormant ----

  lemma ListedKeeps(s: State, f: FEvent)
    requires FInv(s) && FEnabled(s, f)
    ensures ListedOk(FApply(s, f))
  {
    match f {
      case FWork(x, success) => WorkListed(s, x, success);
      case FSubmit(r) => SubmitListed(s, r);
      case FCancel(j) => CancelListed(s, j);
      case FReplay(j, q) => ReplayListed(s, j, q);
      case FBegin(call) => ListedBegun(s, call);
      case FList(c, ids) => if s.calls[c].Promote? { ListedList(s, c, ids); } else { OtherListed(s, c, Rows(ids)); }
      case FPromote(c) => ListedPromote(s, c);
      case FFire(c, next) => FireListed(s, c, next);
      case FBatch(c, a) => OtherListed(s, c, a);
      case _ => QuietListed(s, f);
    }
  }

  lemma QuietListed(s: State, f: FEvent)
    requires ListedOk(s) && FEnabled(s, f)
    requires f.FTick? || f.FPause? || f.FAddSchedule? || f.FDropSchedule? || f.FDeliver?
    ensures ListedOk(FApply(s, f))
  {
    var s' := FApply(s, f);
    assert KeepsDormant(s, s');
    ListedSame(s, s');
  }

  lemma WorkListed(s: State, x: nat, success: bool)
    requires ListedOk(s) && WorkEnabled(s, x, success)
    ensures ListedOk(AfterWork(s, x, Ok, success))
  {
    var s' := AfterWork(s, x, Ok, success);
    forall j | Dormant(s, j) ensures Dormant(s', j) { DormantWork(s, x, success, j); }
    ListedSame(s, s');
  }

  lemma AppearsListed(s: State, s': State, id: nat, row: Job, c: nat)
    requires ListedOk(s) && (Unchanged(s, s') || Appears(s, s', id, row)) && OtherCalls(s, s', c)
    requires !s'.calls[c].Promote?
    ensures ListedOk(s')
  {
    forall j | Dormant(s, j) ensures Dormant(s', j) { DormantAppears(s, s', id, row, j); }
    ListedKept(s, s', c);
  }

  lemma SubmitListed(s: State, r: SubmitReq)
    requires ListedOk(s) && FEnabled(s, FSubmit(r))
    ensures ListedOk(FApply(s, FSubmit(r)))
  {
    SubmitEffect(s, r);
    AppearsListed(s, FApply(s, FSubmit(r)), |s.born|, SubmitRow(r), |s.calls|);
  }

  lemma CancelListed(s: State, k: nat)
    requires ListedOk(s)
    ensures ListedOk(FApply(s, FCancel(k)))
  {
    var s' := FApply(s, FCancel(k));
    CancelEffect(s, k);
    forall j | Dormant(s, j) ensures Dormant(s', j) { DormantCancelled(s, s', k, j); }
    ListedKept(s, s', |s.calls|);
  }

  lemma ReplayListed(s: State, j: nat, q: string)
    requires IdsOk(s) && ListedOk(s)
    ensures ListedOk(FApply(s, FReplay(j, q)))
  {
    ReplayEffect(s, j, q);
    var row := if j in s.jobs then ReplayRow(q, s.jobs[j].typ, s.jobs[j].payload, s.jobs[j].priority)
               else ReplayRow(q, "", Payload(None, None), 0);
    AppearsListed(s, FApply(s, FReplay(j, q)), |s.born|, row, |s.calls|);
  }

  lemma FireListed(s: State, c: nat, next: int)
    requires IdsOk(s) && AtRest(s) && ListedOk(s) && FEnabled(s, FFire(c, next))
    ensures ListedOk(FApply(s, FFire(c, next)))
  {
    assert CallRests(s.calls[c]);
    FireEffect(s, c, next);
    AppearsListed(s, Fire(s, c, next), |s.born|, CronRow(s.calls[c].tpc.todo[0]), c);
  }

  /** Neither a cron listing nor an outbox statement touches a job. */
  lemma OtherListed(s: State, c: nat, a: Answer)
    requires ListedOk(s) && StepEnabled(s, c, Ok, a)
    requires s.calls[c].Batch? || (s.calls[c].Cron? && s.calls[c].tpc.TList?)
    ensures ListedOk(AfterStep(s, c, Ok, a))
  {
    var s' := AfterStep(s, c, Ok, a);
    ListOrBatchSame(s, c, a);
    StepRests(s, c, a);
    assert KeepsDormant(s, s');
    ListedKept(s, s', c);
  }

  lemma FStep(s: State, f: FEvent)
    requires FInv(s) && FEnabled(s, f)
    ensures FInv(FApply(s, f))
  {
    FStepIsRun(s, f);
    SafeReached(s, FApply(s, f));
    TokensKept(s, f);
    RestsKept(s, f);
    ListedKeeps(s, f);
  }

  lemma {:induction false} FAlways(s: State, run: seq<FEvent>)
    requires FInv(s) && FLegal(s, run)
    ensures FInv(FAfter(s, run))
    decreases |run|
  {
    if run != [] {
      FStep(s, run[0]);
      FAlways(FApply(s, run[0]), run[1..]);
    }
  }

  ghost predicate FReachable(s: State) {
    exists limit: int, clock: int, run: seq<FEvent> {:trigger FLegal(Init(limit, clock), run)} ::
      FLegal(Init(limit, clock), run) && FAfter(Init(limit, clock), run) == s
  }

  lemma FInvReachable(s: State)
    requires FReachable(s)
    ensures FInv(s)
  {
    var limit: int, clock: int, run: seq<FEvent> :| FLegal(Init(limit, clock), run) && FAfter(Init(limit, clock), run) == s;
    FInit(limit, clock);
    FAlways(Init(limit, clock), run);
  }

  // ---- one token per job ----

  /** How many live messages and executions a job may have. */
  ghost predicate Counted(s: State, j: nat)
    requires j in s.jobs
  {
    var row := s.jobs[j];
    && (row.status.Pending? || row.status.Processing? ==> |TokensOf(s, j)| == 1)
    && (row.status.Failed? ==> |TokensOf(s, j)| == if Registered(row.typ) then 1 else 0)
    && (row.status.Cancelled? ==> |TokensOf(s, j)| <= 1)
    && (row.status.Scheduled? || row.status.Completed? || row.status.Archived? ==> |TokensOf(s, j)| == 0)
  }

  lemma JobCounted(s: State, j: nat)
    requires j in s.jobs && JobOk(s, j)
    ensures Counted(s, j)
  {
  }

  lemma OneExec(s: State, x: nat, y: nat, j: nat)
    requires j in s.jobs && Counted(s, j) && LiveExec(s, x, j) && LiveExec(s, y, j)
    ensures x == y
  {
    OnlyToken(s, x, j);
    assert Running(y) in TokensOf(s, j);
  }

  lemma JobOfExec(s: State, x: nat, j: nat)
    requires LogOk(s) && LiveExec(s, x, j)
    ensures j in s.jobs
  {
  }

  lemma EveryJobCounted(s: State)
    requires TokensOk(s)
    ensures forall j {:trigger Counted(s, j)} :: j in s.jobs ==> Counted(s, j)
  {
    forall j | j in s.jobs ensures Counted(s, j) { JobCounted(s, j); }
  }

  lemma ExecsDiffer(s: State)
    requires LogOk(s) && forall j {:trigger Counted(s, j)} :: j in s.jobs ==> Counted(s, j)
    ensures forall x, y, j :: LiveExec(s, x, j) && LiveExec(s, y, j) ==> x == y
  {
    forall x, y, j | LiveExec(s, x, j) && LiveExec(s, y, j) ensures x == y {
      JobOfExec(s, x, j);
      OneExec(s, x, y, j);
    }
  }

  /** Each pending or processing job, and each failed job of a registered type, has exactly one
      live message or execution; a scheduled, completed or archived one has none; and no two
      live executions work for one job. */
  lemma OneToken(s: State)
    requires FReachable(s)
    ensures forall j {:trigger Counted(s, j)} :: j in s.jobs ==> Counted(s, j)
    ensures forall x, y, j :: LiveExec(s, x, j) && LiveExec(s, y, j) ==> x == y
  {
    FInvReachable(s);
    EveryJobCounted(s);
    ExecsDiffer(s);
  }

  // ---- finished jobs ----

  lemma IdleWorker(s: State, x: nat, success: bool, j: nat)
    requires WorkEnabled(s, x, success) && j in s.jobs && TokensOf(s, j) == {}
    ensures j in AfterWork(s, x, Ok, success).jobs && AfterWork(s, x, Ok, success).jobs[j] == s.jobs[j]
  {
    TokenOfJob(s, j);
    assert !LiveExec(s, x, j);
  }

  lemma FinishedIdle(s: State, j: nat)
    requires TokensOk(s) && j in s.jobs && (s.jobs[j].status.Completed? || s.jobs[j].status.Archived?)
    ensures TokensOf(s, j) == {}
  {
    assert JobOk(s, j);
  }

  ghost predicate RowSurvives(s: State, s': State, j: nat)
    requires j in s.jobs
  {
    j in s'.jobs && s'.jobs[j] == s.jobs[j]
  }

  lemma SubmitSurvives(s: State, r: SubmitReq, j: nat)
    requires FEnabled(s, FSubmit(r)) && j in s.jobs
    ensures RowSurvives(s, FApply(s, FSubmit(r)), j)
  {
    SubmitEffect(s, r);
  }

  lemma IdleStays(s: State, f: FEvent, j: nat)
    requires IdsOk(s) && AtRest(s) && ListedOk(s) && FEnabled(s, f) && j in s.jobs && TokensOf(s, j) == {}
    requires s.jobs[j].status.Completed? || (s.jobs[j].status.Archived? && f != FCancel(j))
    ensures RowSurvives(s, FApply(s, f), j)
  {
    if f.FWork? { IdleWorker(s, f.exec, f.success, j); }
    else if f.FSubmit? { SubmitSurvives(s, f.req, j); }
    else if f.FCancel? { CancelSurvives(s, f.job, j); }
    else if f.FReplay? { ReplaySurvives(s, f.job, f.queue, j); }
    else if f.FPromote? || f.FFire? || f.FList? || f.FBatch? { TickSurvives(s, f, j); }
    else { QuietSurvives(s, f, j); }
  }

  lemma QuietSurvives(s: State, f: FEvent, j: nat)
    requires FEnabled(s, f) && j in s.jobs
    requires f.FTick? || f.FPause? || f.FAddSchedule? || f.FDropSchedule? || f.FBegin? || f.FDeliver?
    ensures RowSurvives(s, FApply(s, f), j)
  {
  }

  lemma TickSurvives(s: State, f: FEvent, j: nat)
    requires IdsOk(s) && AtRest(s) && ListedOk(s) && FEnabled(s, f) && j in s.jobs
    requires s.jobs[j].status.Completed? || s.jobs[j].status.Archived?
    requires f.FPromote? || f.FFire? || f.FList? || f.FBatch?
    ensures RowSurvives(s, FApply(s, f), j)
  {
    if f.FPromote? { PromoteSurvives(s, f.tick, j); }
    else if f.FFire? { FireSurvives(s, f.tick, f.next, j); }
    else if f.FList? { ListSurvives(s, f.tick, Rows(f.ids)); }
    else { ListSurvives(s, f.tick, f.answer); }
  }

  /** A completed row never changes; an archived one changes only by being cancelled. */
  lemma FinishedStays(s: State, f: FEvent, j: nat)
    requires FInv(s) && FEnabled(s, f) && j in s.jobs
    requires s.jobs[j].status.Completed? || (s.jobs[j].status.Archived? && f != FCancel(j))
    ensures RowSurvives(s, FApply(s, f), j)
  {
    FinishedIdle(s, j);
    IdleStays(s, f, j);
  }

  lemma CancelSurvives(s: State, k: nat, j: nat)
    requires j in s.jobs && (s.jobs[j].status.Completed? || k != j)
    ensures RowSurvives(s, FApply(s, FCancel(k)), j)
  {
    CancelEffect(s, k);
  }

  lemma PromoteSurvives(s: State, c: nat, j: nat)
    requires ListedOk(s) && FEnabled(s, FPromote(c)) && j in s.jobs && (s.jobs[j].status.Completed? || s.jobs[j].status.Archived?)
    ensures RowSurvives(s, FApply(s, FPromote(c)), j)
  {
    ListedPromote(s, c);
    PromoteEffect(s, c);
  }

  lemma ReplaySurvives(s: State, k: nat, q: string, j: nat)
    requires IdsOk(s) && j in s.jobs
    ensures RowSurvives(s, FApply(s, FReplay(k, q)), j)
  {
    ReplayEffect(s, k, q);
  }

  lemma FireSurvives(s: State, c: nat, next: int, j: nat)
    requires IdsOk(s) && AtRest(s) && FEnabled(s, FFire(c, next)) && j in s.jobs
    ensures RowSurvives(s, FApply(s, FFire(c, next)), j)
  {
    assert CallRests(s.calls[c]);
    FireEffect(s, c, next);
  }

  lemma ListSurvives(s: State, c: nat, a: Answer)
    requires StepEnabled(s, c, Ok, a)
    requires s.calls[c].Batch? || (s.calls[c].Promote? && s.calls[c].ppc.PList?) || (s.calls[c].Cron? && s.calls[c].tpc.TList?)
    ensures AfterStep(s, c, Ok, a).jobs == s.jobs
  {
  }

  /** A cancel is one step here, so it sees the completion; `CancelGap` has the one that looked before it. */
  lemma {:induction false} FinishedForever(s: State, run: seq<FEvent>, j: nat)
    requires FInv(s) && FLegal(s, run) && j in s.jobs
    requires s.jobs[j].status.Completed? || (s.jobs[j].status.Archived? && FCancel(j) !in run)
    ensures RowSurvives(s, FAfter(s, run), j)
    decreases |run|
  {
    if run != [] {
      FStep(s, run[0]);
      FinishedStays(s, run[0], j);
      FinishedForever(FApply(s, run[0]), run[1..], j);
    }
  }
}
