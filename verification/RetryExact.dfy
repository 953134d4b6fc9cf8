/** Exact retry accounting in fault-free runs: how many executions a finished job took, and
    which invoices and emails complete. */
module RetryExact {
  import opened Types
  import opened Tables
  import opened Protocol
  import opened Identity
  import opened Accounting
  import opened Tokens
  import opened FaultFree
  import opened EveryRun
  import opened Conservation
  import opened ApiEffects
  import opened ListedRows
  import opened FaultFreeRuns

  /** The outcomes the k-th execution of a job may have. */
  predicate OutcomeMay(typ: string, p: Payload, k: nat, success: bool) {
    if typ == EMAIL then success == ValidEmailPayload(p) else HandlerMay(typ, p, k, success)
  }

  predicate AllowedRow(row: Job, outcomes: seq<bool>) {
    forall k :: 0 <= k < |outcomes| ==> OutcomeMay(row.typ, row.payload, k, outcomes[k])
  }

  /** Execution k of a job ran with attempt k. */
  ghost predicate Aligned(s: State) {
    forall j :: j in s.jobs ==> AllowedRow(s.jobs[j], Outcomes(s, j))
  }

  lemma AlignedOther(s: State, x: nat, success: bool, j: nat)
    requires WorkEnabled(s, x, success) && j in s.jobs && AllowedRow(s.jobs[j], Outcomes(s, j))
    requires j != ReqOf(s, x).job || s.execs[x].pc.Return?
    ensures j in AfterWork(s, x, Ok, success).jobs
    ensures AllowedRow(AfterWork(s, x, Ok, success).jobs[j], Outcomes(AfterWork(s, x, Ok, success), j))
  {
  }

  lemma AlignedJob(s: State, x: nat, success: bool, j: nat)
    requires IdsOk(s) && PcsOk(s.execs, s.log) && TokensOk(s) && Smooth(s, x, success) && j in s.jobs
    requires AllowedRow(s.jobs[j], Outcomes(s, j))
    ensures j in AfterWork(s, x, Ok, success).jobs
    ensures AllowedRow(AfterWork(s, x, Ok, success).jobs[j], Outcomes(AfterWork(s, x, Ok, success), j))
  {
    if j == ReqOf(s, x).job && !s.execs[x].pc.Return? {
      ExecInOrder(s, x, success);
      assert ReqMatches(ReqOf(s, x), s.born);
      AlignedOutcome(s, x, success);
    } else {
      AlignedOther(s, x, success, j);
    }
  }

  lemma AlignedWork(s: State, x: nat, success: bool)
    requires FInv(s) && Aligned(s) && Smooth(s, x, success)
    ensures Aligned(AfterWork(s, x, Ok, success))
  {
    WorkKeys(s, x, success);
    forall j | j in s.jobs
      ensures AllowedRow(AfterWork(s, x, Ok, success).jobs[j], Outcomes(AfterWork(s, x, Ok, success), j))
    {
      AlignedJob(s, x, success, j);
    }
  }

  lemma AlignedOutcome(s: State, x: nat, success: bool)
    requires InOrder(s, x, success) && s.jobs[ReqOf(s, x).job].payload == ReqOf(s, x).payload
    requires AllowedRow(s.jobs[ReqOf(s, x).job], Outcomes(s, ReqOf(s, x).job))
    ensures ReqOf(s, x).job in AfterWork(s, x, Ok, success).jobs
    ensures AllowedRow(AfterWork(s, x, Ok, success).jobs[ReqOf(s, x).job], Outcomes(AfterWork(s, x, Ok, success), ReqOf(s, x).job))
  {
  }

  /** Rows keep type and payload, and a new row has no history. */
  ghost predicate SameOutcomes(s: State, s': State) {
    && s'.outcomes == s.outcomes
    && forall j :: j in s'.jobs ==>
         if j in s.jobs then s'.jobs[j].typ == s.jobs[j].typ && s'.jobs[j].payload == s.jobs[j].payload
         else j !in s.outcomes
  }

  lemma AlignedSame(s: State, s': State)
    requires Aligned(s) && SameOutcomes(s, s')
    ensures Aligned(s')
  {
  }

  lemma AppearsAligned(s: State, s': State, row: Job)
    requires Aligned(s) && HistoryOk(s) && (Unchanged(s, s') || Appears(s, s', |s.born|, row))
    ensures Aligned(s')
  {
    assert SameOutcomes(s, s');
  }

  lemma SubmitAligned(s: State, r: SubmitReq)
    requires HistoryOk(s) && Aligned(s) && FEnabled(s, FSubmit(r))
    ensures Aligned(FApply(s, FSubmit(r)))
  {
    SubmitEffect(s, r);
    AppearsAligned(s, FApply(s, FSubmit(r)), SubmitRow(r));
  }

  lemma CancelAligned(s: State, k: nat)
    requires Aligned(s)
    ensures Aligned(FApply(s, FCancel(k)))
  {
    CancelEffect(s, k);
    AlignedSame(s, FApply(s, FCancel(k)));
  }

  lemma PromoteAligned(s: State, c: nat)
    requires FInv(s) && Aligned(s) && FEnabled(s, FPromote(c))
    ensures Aligned(FApply(s, FPromote(c)))
  {
    ListedPromote(s, c);
    PromoteEffect(s, c);
    AlignedSame(s, FApply(s, FPromote(c)));
  }

  lemma ReplayAligned(s: State, k: nat, q: string)
    requires Safe(s) && Aligned(s)
    ensures Aligned(FApply(s, FReplay(k, q)))
  {
    ReplayEffect(s, k, q);
    var row := if k in s.jobs then ReplayRow(q, s.jobs[k].typ, s.jobs[k].payload, s.jobs[k].priority)
               else ReplayRow(q, "", Payload(None, None), 0);
    AppearsAligned(s, FApply(s, FReplay(k, q)), row);
  }

  lemma FireAligned(s: State, c: nat, next: int)
    requires Safe(s) && AtRest(s) && Aligned(s) && FEnabled(s, FFire(c, next))
    ensures Aligned(FApply(s, FFire(c, next)))
  {
    assert CallRests(s.calls[c]);
    FireEffect(s, c, next);
    AppearsAligned(s, Fire(s, c, next), CronRow(s.calls[c].tpc.todo[0]));
  }

  lemma AlignedStep(s: State, f: FEvent)
    requires FInv(s) && Aligned(s) && FEnabled(s, f)
    ensures Aligned(FApply(s, f))
  {
    match f {
      case FWork(x, success) => AlignedWork(s, x, success);
      case FSubmit(r) => SubmitAligned(s, r);
      case FCancel(k) => CancelAligned(s, k);
      case FReplay(k, q) => ReplayAligned(s, k, q);
      case FPromote(c) => PromoteAligned(s, c);
      case FFire(c, next) => FireAligned(s, c, next);
      case FList(c, ids) => ListAligned(s, c, Rows(ids));
      case FBatch(c, a) => ListAligned(s, c, a);
      case _ => AlignedSame(s, FApply(s, f));
    }
  }

  lemma ListAligned(s: State, c: nat, a: Answer)
    requires Aligned(s) && StepEnabled(s, c, Ok, a)
    requires s.calls[c].Batch? || (s.calls[c].Promote? && s.calls[c].ppc.PList?) || (s.calls[c].Cron? && s.calls[c].tpc.TList?)
    ensures Aligned(AfterStep(s, c, Ok, a))
  {
    ListSurvives(s, c, a);
  }

  lemma {:induction false} AlignedAlways(s: State, run: seq<FEvent>)
    requires FInv(s) && Aligned(s) && FLegal(s, run)
    ensures Aligned(FAfter(s, run))
    decreases |run|
  {
    if run != [] {
      FStep(s, run[0]);
      AlignedStep(s, run[0]);
      AlignedAlways(FApply(s, run[0]), run[1..]);
    }
  }

  lemma AlignedReachable(s: State)
    requires FReachable(s)
    ensures FInv(s) && Aligned(s)
  {
    var limit: int, clock: int, run: seq<FEvent> :| FLegal(Init(limit, clock), run) && FAfter(Init(limit, clock), run) == s;
    FInit(limit, clock);
    AlignedAlways(Init(limit, clock), run);
    FAlways(Init(limit, clock), run);
  }

  // ---- what it means for a job being executed ----

  /** While a job is executed its row shows the attempt: the one the message carries, or the next once its
      failure is stored. All attempts before it failed. */
  lemma AttemptShown(s: State, x: nat, j: nat)
    requires FReachable(s) && LiveExec(s, x, j)
    ensures var n := s.log[s.execs[x].offset].req.attempt;
            && j in s.jobs && 0 <= n <= |Outcomes(s, j)| && (forall k :: 0 <= k < n ==> !Outcomes(s, j)[k])
            && (s.jobs[j].status.Processing? ==> s.jobs[j].attempt == n)
            && (s.jobs[j].status.Failed? ==>
                  s.jobs[j].attempt == if s.execs[x].pc.Reenqueue? || s.execs[x].pc.Archive? then n + 1 else n)
  {
    ExecTokenOk(s, x, j);
    TokenShown(Outcomes(s, j), s.execs[x].pc, s.log[s.execs[x].offset].req.attempt, s.jobs[j]);
  }

  lemma ExecTokenOk(s: State, x: nat, j: nat)
    requires FReachable(s) && LiveExec(s, x, j)
    ensures j in s.jobs && TokenOk(s, j, s.execs[x].pc, s.log[s.execs[x].offset].req)
  {
    FInvReachable(s);
    JobOfExec(s, x, j);
    assert JobOk(s, j);
  }

  lemma TokenShown(outcomes: seq<bool>, pc: Pc, n: int, row: Job)
    requires n >= 0 && ShowsAttempt(pc, n, row) && outcomes == Expected(pc, n)
    ensures n <= |outcomes| && forall k :: 0 <= k < n ==> !outcomes[k]
  {
  }

  // ---- what it means for a finished job ----

  lemma SettledJob(s: State, j: nat)
    requires FInv(s) && j in s.jobs
    ensures Settled(s, j)
  {
    assert JobOk(s, j);
  }

  /** A completed job failed exactly `attempt` times and then succeeded, within the budget of its
      messages; an archived one used up the budget and the first attempt, and never succeeded. */
  lemma ExactAccounts(s: State, j: nat, i: nat)
    requires FReachable(s) && j in s.jobs && i < |s.log| && s.log[i].req.job == j
    ensures s.jobs[j].status.Completed? ==>
              && 0 <= s.jobs[j].attempt <= Budget(s.log[i].req)
              && Outcomes(s, j) == Failures(s.jobs[j].attempt) + [true]
    ensures s.jobs[j].status.Archived? ==>
              && s.jobs[j].attempt == Budget(s.log[i].req) + 1
              && Outcomes(s, j) == Failures(s.jobs[j].attempt)
    ensures s.jobs[j].typ == EMAIL ==>
              |RowsOf(s.outbox, j)| == if s.jobs[j].status.Completed? then 1 else 0
  {
    FInvReachable(s);
    SettledJob(s, j);
  }

  /** An otherwise sound invoice told to fail until attempt n completes exactly when n is within
      the retry budget, and then at attempt n. */
  lemma InvoiceCompletesExactly(s: State, j: nat, i: nat, n: int)
    requires FReachable(s) && j in s.jobs && i < |s.log| && s.log[i].req.job == j
    requires s.jobs[j].typ == INVOICE && s.jobs[j].payload.invoice == Some(InvoiceBody(Some(n), true))
    requires s.jobs[j].status.Completed? || s.jobs[j].status.Archived?
    ensures s.jobs[j].status.Completed? <==> n <= Budget(s.log[i].req)
    ensures s.jobs[j].status.Completed? ==> s.jobs[j].attempt == Max(n, 0)
  {
    AlignedReachable(s);
    ExactAccounts(s, j, i);
    var outcomes := Outcomes(s, j);
    assert AllowedRow(s.jobs[j], outcomes);
    InvoiceOutcomes(outcomes, s.jobs[j].payload, n);
    if s.jobs[j].status.Completed? {
      assert outcomes[s.jobs[j].attempt];
      assert s.jobs[j].attempt > 0 ==> !outcomes[s.jobs[j].attempt - 1];
    } else {
      assert !outcomes[Budget(s.log[i].req)];
    }
  }

  lemma InvoiceOutcomes(outcomes: seq<bool>, p: Payload, n: int)
    requires p.invoice == Some(InvoiceBody(Some(n), true))
    requires forall k :: 0 <= k < |outcomes| ==> OutcomeMay(INVOICE, p, k, outcomes[k])
    ensures forall k :: 0 <= k < |outcomes| ==> (outcomes[k] <==> k >= n)
  {
  }

  /** An email completes at its first attempt if its payload is valid and is archived if not. */
  lemma EmailCompletesExactly(s: State, j: nat, i: nat)
    requires FReachable(s) && j in s.jobs && i < |s.log| && s.log[i].req.job == j && s.jobs[j].typ == EMAIL
    requires s.jobs[j].status.Completed? || s.jobs[j].status.Archived?
    ensures s.jobs[j].status.Completed? <==> ValidEmailPayload(s.jobs[j].payload)
    ensures s.jobs[j].status.Completed? ==> s.jobs[j].attempt == 0
  {
    AlignedReachable(s);
    ExactAccounts(s, j, i);
    var outcomes := Outcomes(s, j);
    assert AllowedRow(s.jobs[j], outcomes);
    assert OutcomeMay(EMAIL, s.jobs[j].payload, 0, outcomes[0]);
    if s.jobs[j].status.Completed? {
      assert OutcomeMay(EMAIL, s.jobs[j].payload, s.jobs[j].attempt, outcomes[s.jobs[j].attempt]);
    }
  }
}
