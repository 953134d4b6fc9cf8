/** A cancel looks at the row before it writes it. What becomes of the job depends on how far a worker
    has come by the time of the write. */
module CancelGap {
  import opened Types
  import opened Tables
  import opened Protocol
  import opened Identity
  import opened Accounting
  import opened Tokens
  import opened FaultFree
  import opened EveryRun
  import opened Conservation
  import opened ApiEffects
  import opened ListedRows
  import opened FaultFreeRuns
  import opened OpenCalls

  /** An attempt of the job has succeeded. */
  ghost predicate Succeeded(s: State, j: nat) {
    true in Outcomes(s, j)
  }

  // ---- only a job being completed, or completed, has succeeded ----

  ghost predicate SuccessOk(s: State, j: nat) {
    j in s.jobs && Succeeded(s, j) ==> s.jobs[j].status.Processing? || s.jobs[j].status.Completed?
  }


  lemma FailuresOnly(n: nat)
    ensures true !in Failures(n)
  {
  }

  lemma SuccessWork(s: State, x: nat, success: bool)
    requires FInv(s) && Smooth(s, x, success) && !s.execs[x].pc.Return?
    ensures SuccessOk(AfterWork(s, x, Ok, success), ReqOf(s, x).job)
  {
    ExecInOrder(s, x, success);
    SuccessAfter(s, x, success);
  }

  lemma SuccessAfter(s: State, x: nat, success: bool)
    requires InOrder(s, x, success)
    ensures SuccessOk(AfterWork(s, x, Ok, success), ReqOf(s, x).job)
  {
    var req := ReqOf(s, x);
    TokenKnows(s, x, success);
    StatusAfter(s, x, success);
    FailuresOnly(req.attempt);
    FailuresOnly(req.attempt + 1);
  }

  lemma SuccessElsewhere(s: State, x: nat, success: bool, j: nat)
    requires WorkEnabled(s, x, success) && SuccessOk(s, j) && (ReqOf(s, x).job != j || s.execs[x].pc.Return?)
    ensures SuccessOk(AfterWork(s, x, Ok, success), j)
  {
  }

  lemma SuccessUnchanged(s: State, s': State, j: nat)
    requires s'.jobs == s.jobs && s'.outcomes == s.outcomes && SuccessOk(s, j)
    ensures SuccessOk(s', j)
  {
  }

  lemma SuccessAppears(s: State, s': State, id: nat, row: Job, j: nat)
    requires HistoryOk(s) && (Unchanged(s, s') || Appears(s, s', id, row)) && SuccessOk(s, j)
    ensures SuccessOk(s', j)
  {
  }

  lemma SuccessCancelled(s: State, s': State, k: nat, j: nat)
    requires (Unchanged(s, s') || GetsCancelled(s, s', k)) && SuccessOk(s, j)
    ensures SuccessOk(s', j)
  {
  }

  lemma SuccessPromoted(s: State, s': State, k: nat, attempt: int, j: nat)
    requires GetsPromoted(s, s', k, attempt) && SuccessOk(s, j)
    ensures SuccessOk(s', j)
  {
  }

  lemma SuccessApi(s: State, f: FEvent, j: nat)
    requires FInv(s) && FEnabled(s, f) && SuccessOk(s, j) && (f.FSubmit? || f.FCancel? || f.FReplay?)
    ensures SuccessOk(FApply(s, f), j)
  {
    var s' := FApply(s, f);
    if f.FSubmit? {
      SubmitEffect(s, f.req);
      SuccessAppears(s, s', |s.born|, SubmitRow(f.req), j);
    } else if f.FCancel? {
      CancelEffect(s, f.job);
      SuccessCancelled(s, s', f.job, j);
    } else {
      ReplayEffect(s, f.job, f.queue);
      var row := if f.job in s.jobs then ReplayRow(f.queue, s.jobs[f.job].typ, s.jobs[f.job].payload, s.jobs[f.job].priority)
                 else ReplayRow(f.queue, "", Payload(None, None), 0);
      SuccessAppears(s, s', |s.born|, row, j);
    }
  }

  lemma SuccessTick(s: State, f: FEvent, j: nat)
    requires FInv(s) && FEnabled(s, f) && SuccessOk(s, j) && (f.FPromote? || f.FFire? || f.FList? || f.FBatch?)
    ensures SuccessOk(FApply(s, f), j)
  {
    var s' := FApply(s, f);
    if f.FPromote? {
      ListedPromote(s, f.tick);
      PromoteEffect(s, f.tick);
      SuccessPromoted(s, s', s.calls[f.tick].ppc.todo[0].id, s.calls[f.tick].ppc.todo[0].row.attempt, j);
    } else if f.FFire? {
      assert CallRests(s.calls[f.tick]);
      FireEffect(s, f.tick, f.next);
      SuccessAppears(s, s', |s.born|, CronRow(s.calls[f.tick].tpc.todo[0]), j);
    } else {
      SuccessListed(s, f, j);
    }
  }

  lemma SuccessListed(s: State, f: FEvent, j: nat)
    requires FEnabled(s, f) && SuccessOk(s, j) && (f.FList? || f.FBatch?)
    ensures SuccessOk(FApply(s, f), j)
  {
    ListOrBatchSame(s, f.tick, if f.FList? then Rows(f.ids) else f.answer);
    SuccessUnchanged(s, FApply(s, f), j);
  }

  lemma SuccessQuiet(s: State, f: FEvent, j: nat)
    requires FEnabled(s, f) && SuccessOk(s, j)
    requires f.FTick? || f.FPause? || f.FAddSchedule? || f.FDropSchedule? || f.FBegin? || f.FDeliver?
    ensures SuccessOk(FApply(s, f), j)
  {
  }

  lemma SuccessWhole(s: State, f: FEvent, j: nat)
    requires FInv(s) && FEnabled(s, f) && SuccessOk(s, j)
    ensures SuccessOk(FApply(s, f), j)
  {
    if f.FWork? {
      if ReqOf(s, f.exec).job == j && !s.execs[f.exec].pc.Return? { SuccessWork(s, f.exec, f.success); }
      else { SuccessElsewhere(s, f.exec, f.success, j); }
    }
    else if f.FSubmit? || f.FCancel? || f.FReplay? { SuccessApi(s, f, j); }
    else if f.FPromote? || f.FFire? || f.FList? || f.FBatch? { SuccessTick(s, f, j); }
    else { SuccessQuiet(s, f, j); }
  }

  lemma SuccessStep(s: State, e: OEvent, j: nat)
    requires FInv(s) && OEnabled(s, e) && SuccessOk(s, j)
    ensures SuccessOk(OApply(s, e), j)
  {
    match e {
      case Whole(f) => SuccessWhole(s, f, j);
      case Open(call) => OpensQuietly(s, call); SuccessUnchanged(s, OApply(s, e), j);
      case Look(c) => LooksQuietly(s, c); SuccessUnchanged(s, OApply(s, e), j);
    }
  }

  lemma {:induction false} SuccessAlways(s: State, run: seq<OEvent>, j: nat)
    requires FInv(s) && OLegal(s, run) && SuccessOk(s, j)
    ensures SuccessOk(OAfter(s, run), j)
    decreases |run|
  {
    if run != [] {
      SuccessStep(s, run[0], j);
      OStep(s, run[0]);
      SuccessAlways(OApply(s, run[0]), run[1..], j);
    }
  }

  lemma SuccessReachable(s: State, j: nat)
    requires OReachable(s)
    ensures SuccessOk(s, j)
  {
    var limit: int, clock: int, run: seq<OEvent> :| OLegal(Init(limit, clock), run) && OAfter(Init(limit, clock), run) == s;
    FInit(limit, clock);
    SuccessAlways(Init(limit, clock), run, j);
  }

  // ---- the write ----

  /** The row was written, and nothing else. */
  ghost predicate Overwritten(s: State, s': State, j: nat) {
    SameRuns(s, s') && s'.log == s.log && j in s.jobs && s'.jobs == SetStatus(s.jobs, j, Cancelled, 0, None)
  }

  lemma WriteOverwrites(s: State, c: nat, j: nat, o: Outcome)
    requires c < |s.calls| && s.calls[c] == Cancel(j, CWrite) && Applied(o) && j in s.jobs
    ensures StepEnabled(s, c, o, Nothing) && Overwritten(s, AfterStep(s, c, o, Nothing), j)
  {
  }

  lemma OverwrittenTokens(s: State, s': State, j: nat)
    requires Overwritten(s, s', j)
    ensures TokensOf(s', j) == TokensOf(s, j)
    ensures forall i: nat :: LiveMessage(s', i, j) <==> LiveMessage(s, i, j)
    ensures forall x: nat :: LiveExec(s', x, j) <==> LiveExec(s, x, j)
  {
  }

  /** A job being processed has an execution past its first status write. */
  lemma ProcessingRuns(s: State, j: nat) returns (x: nat)
    requires j in s.jobs && JobOk(s, j) && s.jobs[j].status.Processing?
    ensures LiveExec(s, x, j) && Fits(s.execs[x].pc, Processing)
  {
    var k :| k in TokensOf(s, j);
    NoMessageLeft(s, j);
    TokenOfJob(s, j);
    x :| x in s.execs && LiveExec(s, x, j);
    assert TokenOk(s, j, s.execs[x].pc, s.log[s.execs[x].offset].req);
  }

  lemma NoMessageLeft(s: State, j: nat)
    requires j in s.jobs && JobOk(s, j) && s.jobs[j].status.Processing?
    ensures forall i: nat :: !LiveMessage(s, i, j)
  {
    forall i: nat ensures !LiveMessage(s, i, j) {
      assert LiveMessage(s, i, j) ==> TokenOk(s, j, GetQueue, s.log[i].req);
    }
  }

  /** It meets a row that does not fit. */
  lemma ProcessingMisfits(s: State, s': State, j: nat)
    requires Overwritten(s, s', j) && JobOk(s, j) && s.jobs[j].status.Processing?
    ensures !JobOk(s', j)
  {
    var x := ProcessingRuns(s, j);
    assert LiveExec(s', x, j) && !TokenOk(s', j, s'.execs[x].pc, s'.log[s'.execs[x].offset].req);
  }

  /** A completed job has no token; what is left is its outbox row, if it is an email. */
  lemma CompletedOverwritten(s: State, s': State, j: nat)
    requires Overwritten(s, s', j) && JobOk(s, j) && s.jobs[j].status.Completed?
    ensures TokensOf(s', j) == {} && Succeeded(s', j) && s.jobs[j].completedAt.Some?
    ensures j in s'.jobs && (JobOk(s', j) <==> s.jobs[j].typ != EMAIL)
  {
    OverwrittenTokens(s, s', j);
    assert Outcomes(s, j)[|Failures(s.jobs[j].attempt)|] == true;
    TokenOfJob(s', j);
  }

  lemma OverwrittenOnly(s: State, s': State, j: nat)
    requires TokensOk(s) && Overwritten(s, s', j)
    ensures j in s'.jobs && (TokensOk(s') <==> JobOk(s', j))
  {
    assert Only(s, s', j);
    if JobOk(s', j) { Others(s, s', j); }
  }

  lemma OverwrittenExactly(s: State, s': State, j: nat)
    requires TokensOk(s) && Overwritten(s, s', j) && SuccessOk(s, j)
    ensures TokensOk(s') <==> !s.jobs[j].status.Processing? && !(s.jobs[j].status.Completed? && s.jobs[j].typ == EMAIL)
    ensures TokensOk(s') && !Succeeded(s', j) <==> !s.jobs[j].status.Processing? && !s.jobs[j].status.Completed?
  {
    assert JobOk(s, j);
    OverwrittenOnly(s, s', j);
    if s.jobs[j].status.Processing? {
      ProcessingMisfits(s, s', j);
    } else if s.jobs[j].status.Completed? {
      CompletedOverwritten(s, s', j);
    } else {
      CancelledOk(s, s', j);
    }
  }

  /** Between lookup and write everything is in order, and the row is there. */
  lemma GapInOrder(s: State, c: nat, run: seq<OEvent>)
    requires OReachable(s) && c < |s.calls| && s.calls[c].Cancel? && s.calls[c].cpc.CLookup?
    requires var s1 := AfterStep(s, c, Ok, Nothing); s1.calls[c].cpc.CWrite? && OLegal(s1, run)
    ensures var j := s.calls[c].job; var s2 := OAfter(AfterStep(s, c, Ok, Nothing), run);
            FInv(s2) && SuccessOk(s2, j) && j in s2.jobs && c < |s2.calls| && s2.calls[c] == Cancel(j, CWrite)
  {
    var j := s.calls[c].job;
    var s1 := AfterStep(s, c, Ok, Nothing);
    OInvReachable(s);
    LookKeeps(s, c);
    assert s1.calls[c] == Cancel(j, CWrite) && j in s1.jobs;
    OpenStands(s1, run, c);
    RowsRemain(s1, run, j);
    SuccessReachable(s, j);
    SuccessStep(s, Look(c), j);
    SuccessAlways(s1, run, j);
  }

  lemma CompletionLost(s: State, s': State, j: nat)
    requires TokensOk(s) && Overwritten(s, s', j) && s.jobs[j].status.Completed?
    ensures j in s'.jobs && Succeeded(s', j) && s.jobs[j].completedAt.Some? && s'.jobs[j].completedAt.None?
  {
    assert JobOk(s, j);
    CompletedOverwritten(s, s', j);
  }

  /** A cancel with any fault-free events between its lookup and its write. Everything is in order
      afterwards, and no successful job is called cancelled, if and only if the row is neither processing
      nor completed at the write: the lookup's own test, made too early. A completed row loses its
      completion time although the job succeeded. */
  lemma CancelledMeanwhileExactly(s: State, c: nat, run: seq<OEvent>, o: Outcome)
    requires OReachable(s) && c < |s.calls| && s.calls[c].Cancel? && s.calls[c].cpc.CLookup?
    requires var s1 := AfterStep(s, c, Ok, Nothing); s1.calls[c].cpc.CWrite? && OLegal(s1, run)
    requires Applied(o)
    ensures var j := s.calls[c].job; var s2 := OAfter(AfterStep(s, c, Ok, Nothing), run);
            j in s2.jobs && StepEnabled(s2, c, o, Nothing) &&
            var s' := AfterStep(s2, c, o, Nothing); var was := s2.jobs[j].status;
            && IsCancelled(s', j)
            && (TokensOk(s') && !Succeeded(s', j) <==> !was.Processing? && !was.Completed?)
            && (TokensOk(s') <==> !was.Processing? && !(was.Completed? && s2.jobs[j].typ == EMAIL))
            && (was.Completed? ==> Succeeded(s', j) && s2.jobs[j].completedAt.Some? && s'.jobs[j].completedAt.None?)
  {
    var j := s.calls[c].job;
    var s2 := OAfter(AfterStep(s, c, Ok, Nothing), run);
    GapInOrder(s, c, run);
    WriteOverwrites(s2, c, j, o);
    OverwrittenExactly(s2, AfterStep(s2, c, o, Nothing), j);
    if s2.jobs[j].status.Completed? { CompletionLost(s2, AfterStep(s2, c, o, Nothing), j); }
  }
}
