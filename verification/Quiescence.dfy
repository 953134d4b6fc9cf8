/** Fault-free runs come to rest: every delivery, worker step and promotion uses up a measure,
    nothing but new work adds to it, and a system that can do no more has finished every job. */
module Quiescence {
  import opened Types
  import opened Tables
  import opened Protocol
  import opened Identity
  import opened Accounting
  import opened Semaphore
  import opened Tokens
  import opened FaultFree
  import opened EveryRun
  import opened Conservation
  import opened ApiEffects
  import opened ListedRows
  import opened FaultFreeRuns

  // ---- sums over finite maps ----

  ghost function Sum(m: map<nat, nat>): nat
    decreases |m|
  {
    if m == map[] then 0 else
      var k :| k in m;
      m[k] + Sum(m - {k})
  }

  lemma {:induction false} SumRemove(m: map<nat, nat>, k: nat)
    requires k in m
    ensures Sum(m) == m[k] + Sum(m - {k})
    decreases |m|
  {
    var c :| c in m && Sum(m) == m[c] + Sum(m - {c});
    if c != k {
      SumRemove(m - {c}, k);
      SumRemove(m - {k}, c);
      assert m - {c} - {k} == m - {k} - {c};
    }
  }

  lemma SumAdd(m: map<nat, nat>, k: nat, w: nat)
    requires k !in m
    ensures Sum(m[k := w]) == Sum(m) + w
  {
    SumRemove(m[k := w], k);
    assert m[k := w] - {k} == m;
  }

  lemma SumUpdate(m: map<nat, nat>, k: nat, w: nat)
    requires k in m
    ensures Sum(m[k := w]) + m[k] == Sum(m) + w
  {
    SumRemove(m, k);
    SumRemove(m[k := w], k);
    assert m[k := w] - {k} == m - {k};
  }

  // ---- the measure ----

  /** Executions a message may still lead to, beyond the one it starts. */
  function Spare(r: JobRequest): nat {
    Max(Budget(r) - r.attempt, 0)
  }

  function Rank(pc: Pc): nat {
    match pc
    case GetQueue => 9
    case Acquire => 8
    case Lookup => 7
    case MarkProcessing => 6
    case Handle => 5
    case MarkFailed => 4
    case Reenqueue => 3
    case Archive => 3
    case Return(_) => 1
    case _ => 2
  }

  function MessageWeight(r: JobRequest): nat {
    10 * (Spare(r) + 1)
  }

  function ExecWeight(pc: Pc, r: JobRequest): nat {
    (if pc.Return? then 0 else 10 * Spare(r)) + Rank(pc)
  }

  const WAITING_WEIGHT: nat := 31

  ghost function Messages(log: seq<Entry>, taken: set<nat>): map<nat, nat> {
    map i: nat | i < |log| && i !in taken :: MessageWeight(log[i].req)
  }

  ghost function Executions(execs: map<nat, Exec>, log: seq<Entry>): map<nat, nat> {
    map x | x in execs && execs[x].offset < |log| :: ExecWeight(execs[x].pc, log[execs[x].offset].req)
  }

  /** A promoter tick has listed the job and not come to it yet. */
  ghost predicate Awaits(call: Call, j: nat) {
    call.Promote? && call.ppc.PEnqueue? && exists k :: 0 <= k < |call.ppc.todo| && call.ppc.todo[k].id == j
  }

  ghost predicate Listed(calls: seq<Call>, j: nat) {
    exists c :: 0 <= c < |calls| && Awaits(calls[c], j)
  }

  /** The jobs a promotion may still come to: those scheduled, and those already listed, even if
      cancelled since. */
  ghost function Waiting(jobs: map<nat, Job>, calls: seq<Call>): map<nat, nat> {
    map j | j in jobs && (jobs[j].status.Scheduled? || Listed(calls, j)) :: WAITING_WEIGHT
  }

  ghost function Measure(s: State): nat {
    Sum(Messages(s.log, s.taken)) + Sum(Executions(s.execs, s.log)) + Sum(Waiting(s.jobs, s.calls))
  }

  // ---- how the parts of the measure change ----

  lemma TakeMessage(log: seq<Entry>, taken: set<nat>, i: nat)
    requires i < |log| && i !in taken
    ensures Sum(Messages(log, taken)) == Sum(Messages(log, taken + {i})) + MessageWeight(log[i].req)
  {
    SumRemove(Messages(log, taken), i);
    assert Messages(log, taken + {i}) == Messages(log, taken) - {i};
  }

  lemma AddMessage(log: seq<Entry>, log': seq<Entry>, taken: set<nat>)
    requires Longer(log, log') && |log| !in taken
    ensures Sum(Messages(log', taken)) == Sum(Messages(log, taken)) + MessageWeight(log'[|log|].req)
  {
    SumAdd(Messages(log, taken), |log|, MessageWeight(log'[|log|].req));
    assert Messages(log', taken) == Messages(log, taken)[|log| := MessageWeight(log'[|log|].req)];
  }

  lemma AddExecution(execs: map<nat, Exec>, log: seq<Entry>, x: nat, e: Exec)
    requires x !in execs && e.offset < |log|
    ensures Sum(Executions(execs[x := e], log)) == Sum(Executions(execs, log)) + ExecWeight(e.pc, log[e.offset].req)
  {
    SumAdd(Executions(execs, log), x, ExecWeight(e.pc, log[e.offset].req));
    assert Executions(execs[x := e], log) == Executions(execs, log)[x := ExecWeight(e.pc, log[e.offset].req)];
  }

  lemma MoveExecution(execs: map<nat, Exec>, log: seq<Entry>, x: nat, pc: Pc)
    requires x in execs && execs[x].offset < |log|
    ensures var req := log[execs[x].offset].req;
            Sum(Executions(execs[x := execs[x].(pc := pc)], log)) + ExecWeight(execs[x].pc, req) ==
              Sum(Executions(execs, log)) + ExecWeight(pc, req)
  {
    var w := ExecWeight(pc, log[execs[x].offset].req);
    SumUpdate(Executions(execs, log), x, w);
    assert Executions(execs[x := execs[x].(pc := pc)], log) == Executions(execs, log)[x := w];
  }

  lemma EndExecution(execs: map<nat, Exec>, log: seq<Entry>, x: nat)
    requires x in execs && execs[x].offset < |log|
    ensures Sum(Executions(execs, log)) == Sum(Executions(execs - {x}, log)) + ExecWeight(execs[x].pc, log[execs[x].offset].req)
  {
    SumRemove(Executions(execs, log), x);
    assert Executions(execs - {x}, log) == Executions(execs, log) - {x};
  }

  /** Every execution reads a message that was in the log when it started. */
  lemma LongerLog(execs: map<nat, Exec>, log: seq<Entry>, log': seq<Entry>)
    requires Longer(log, log') && forall x :: x in execs ==> execs[x].offset < |log|
    ensures Executions(execs, log') == Executions(execs, log)
  {
  }

  lemma NoLongerWaits(waiting: map<nat, nat>, j: nat)
    requires j in waiting && waiting[j] == WAITING_WEIGHT
    ensures Sum(waiting) == Sum(waiting - {j}) + WAITING_WEIGHT
  {
    SumRemove(waiting, j);
  }

  /** One row changed, to or from nothing a promotion waits for. */
  lemma WaitingUpdated(jobs: map<nat, Job>, calls: seq<Call>, j: nat, row: Job)
    requires j in jobs && !jobs[j].status.Scheduled? && !row.status.Scheduled?
    ensures Waiting(jobs[j := row], calls) == Waiting(jobs, calls)
  {
  }

  /** Calls that come to hold nothing new. */
  lemma WaitingCalls(jobs: map<nat, Job>, calls: seq<Call>, calls': seq<Call>)
    requires forall j :: j in jobs ==> (Listed(calls', j) <==> Listed(calls, j))
    ensures Waiting(jobs, calls') == Waiting(jobs, calls)
  {
  }

  // ---- a delivery ----

  /** The next offset and the next execution are new, and executions read logged messages. */
  ghost predicate IdsAhead(s: State) {
    |s.log| !in s.taken && s.nextExec !in s.execs && forall x :: x in s.execs ==> s.execs[x].offset < |s.log|
  }

  lemma IdsFresh(s: State)
    requires IdsOk(s)
    ensures IdsAhead(s)
  {
  }

  lemma DeliverFalls(s: State, i: nat, w: nat)
    requires IdsAhead(s) && i < |s.log| && i !in s.taken
    ensures Measure(Apply(s, Deliver(i, w))) < Measure(s)
  {
    var s' := Apply(s, Deliver(i, w));
    assert s'.log == s.log && s'.jobs == s.jobs && s'.taken == s.taken + {i};
    assert s'.execs == s.execs[s.nextExec := Exec(w, i, GetQueue)];
    TakeMessage(s.log, s.taken, i);
    AddExecution(s.execs, s.log, s.nextExec, Exec(w, i, GetQueue));
  }

  // ---- a worker's step ----

  /** An execution never moves a job to or from `scheduled`. */
  lemma WorkWaiting(s: State, x: nat, success: bool)
    requires WorkEnabled(s, x, success)
    requires s.execs[x].pc.Return? || ReqOf(s, x).job !in s.jobs || !s.jobs[ReqOf(s, x).job].status.Scheduled?
    ensures Waiting(AfterWork(s, x, Ok, success).jobs, AfterWork(s, x, Ok, success).calls) == Waiting(s.jobs, s.calls)
  {
    var j := ReqOf(s, x).job;
    var s' := AfterWork(s, x, Ok, success);
    if j in s.jobs && s'.jobs != s.jobs {
      assert s'.jobs == s.jobs[j := s'.jobs[j]];
      WaitingUpdated(s.jobs, s.calls, j, s'.jobs[j]);
    }
  }

  lemma RankFalls(s: State, req: JobRequest, pc: Pc, success: bool)
    requires !pc.Return? && PcOk(pc, req) && MaxRetry(req) < MAX_INT32 && 0 <= req.attempt <= Budget(req)
    ensures ExecWeight(WorkNext(s, req, pc, Ok, success), req)
            + (if pc.Reenqueue? then MessageWeight(RetryRequest(req)) else 0) < ExecWeight(pc, req)
  {
    if pc.Reenqueue? {
      assert Budget(RetryRequest(req)) == Budget(req);
      assert Spare(RetryRequest(req)) == Spare(req) - 1;
    }
  }

  lemma ReturnFalls(s: State, x: nat, success: bool)
    requires WorkEnabled(s, x, success) && s.execs[x].pc.Return?
    ensures Measure(AfterWork(s, x, Ok, success)) < Measure(s)
  {
    ReturnEnds(s, x, success);
    EndExecution(s.execs, s.log, x);
    WorkWaiting(s, x, success);
  }

  lemma ReturnEnds(s: State, x: nat, success: bool)
    requires WorkEnabled(s, x, success) && s.execs[x].pc.Return?
    ensures var s' := AfterWork(s, x, Ok, success); s'.log == s.log && s'.taken == s.taken && s'.execs == s.execs - {x}
  {
  }

  lemma RetryFalls(s: State, x: nat, success: bool)
    requires IdsAhead(s) && InOrder(s, x, success) && s.execs[x].pc.Reenqueue?
    ensures Measure(AfterWork(s, x, Ok, success)) < Measure(s)
  {
    var s' := AfterWork(s, x, Ok, success);
    assert s'.log == s.log + [Entry(RetryRequest(ReqOf(s, x)), ByRetry)] && s'.jobs == s.jobs && s'.taken == s.taken;
    assert s'.execs == s.execs[x := s.execs[x].(pc := Return(true))];
    AddMessage(s.log, s'.log, s.taken);
    MoveExecution(s.execs, s.log, x, Return(true));
    LongerLog(s'.execs, s.log, s'.log);
    RankFalls(s, ReqOf(s, x), Reenqueue, success);
    WorkWaiting(s, x, success);
  }

  lemma StepFalls(s: State, x: nat, success: bool)
    requires IdsAhead(s) && WorkEnabled(s, x, success) && (s.execs[x].pc.Return? || InOrder(s, x, success))
    ensures Measure(AfterWork(s, x, Ok, success)) < Measure(s)
  {
    if s.execs[x].pc.Return? { ReturnFalls(s, x, success); }
    else if s.execs[x].pc.Reenqueue? { RetryFalls(s, x, success); }
    else { MoveFalls(s, x, success); }
  }

  lemma MoveFalls(s: State, x: nat, success: bool)
    requires InOrder(s, x, success) && !s.execs[x].pc.Reenqueue?
    ensures Measure(AfterWork(s, x, Ok, success)) < Measure(s)
  {
    var s' := AfterWork(s, x, Ok, success);
    var next := WorkNext(s, ReqOf(s, x), s.execs[x].pc, Ok, success);
    assert s'.log == s.log && s'.taken == s.taken && s'.execs == s.execs[x := s.execs[x].(pc := next)];
    RankFalls(s, ReqOf(s, x), s.execs[x].pc, success);
    MoveExecution(s.execs, s.log, x, next);
    WorkWaiting(s, x, success);
  }

  lemma WorkFalls(s: State, x: nat, success: bool)
    requires FInv(s) && Smooth(s, x, success)
    ensures Measure(AfterWork(s, x, Ok, success)) < Measure(s)
  {
    IdsFresh(s);
    if !s.execs[x].pc.Return? { ExecInOrder(s, x, success); }
    StepFalls(s, x, success);
  }

  // ---- the rest ----

  /** The head of a list is promoted: it waits no more, and the rest of the list still does. */
  lemma PromotedWaiting(s: State, c: nat)
    requires FInv(s) && FEnabled(s, FPromote(c))
    ensures var s' := FApply(s, FPromote(c)); var j := s.calls[c].ppc.todo[0].id;
            && j in Waiting(s.jobs, s.calls)
            && Waiting(s'.jobs, s'.calls) == Waiting(s.jobs, s.calls) - {j}
  {
    var todo := s.calls[c].ppc.todo;
    var s' := FApply(s, FPromote(c));
    ListedPromote(s, c);
    PromoteEffect(s, c);
    assert Awaits(s.calls[c], todo[0].id);
    assert Listed(s.calls, todo[0].id);
    forall j | j in s.jobs && j != todo[0].id
      ensures Listed(s'.calls, j) <==> Listed(s.calls, j)
    {
      PromotedListed(s, s', c, j);
    }
    HeadNotListed(s, s', c);
    WaitsNoMore(s.jobs, s'.jobs, s.calls, s'.calls, todo[0].id, todo[0].row.attempt);
  }

  lemma WaitsNoMore(jobs: map<nat, Job>, jobs': map<nat, Job>, calls: seq<Call>, calls': seq<Call>, j: nat, attempt: int)
    requires j in jobs && jobs' == SetStatus(jobs, j, Pending, attempt, None)
    requires Listed(calls, j) && !Listed(calls', j)
    requires forall k :: k in jobs && k != j ==> (Listed(calls', k) <==> Listed(calls, k))
    ensures j in Waiting(jobs, calls) && Waiting(jobs', calls') == Waiting(jobs, calls) - {j}
  {
  }

  lemma PromotedListed(s: State, s': State, c: nat, j: nat)
    requires ListedOk(s) && HasTodo(s, c) && s.calls[c].Promote? && OtherCalls(s, s', c) && |s'.calls| == |s.calls|
    requires s'.calls[c] == Promote(s.calls[c].now, PEnqueue(s.calls[c].ppc.todo[1..]))
    requires j != s.calls[c].ppc.todo[0].id
    ensures Listed(s'.calls, j) <==> Listed(s.calls, j)
  {
    var todo := s.calls[c].ppc.todo;
    assert Awaits(s'.calls[c], j) <==> Awaits(s.calls[c], j) by {
      if k :| 0 <= k < |todo| && todo[k].id == j { assert todo[1..][k - 1].id == j; }
    }
    forall k | 0 <= k < |s.calls| ensures Awaits(s'.calls[k], j) <==> Awaits(s.calls[k], j) {
      assert k != c ==> s'.calls[k] == s.calls[k];
    }
  }

  lemma HeadNotListed(s: State, s': State, c: nat)
    requires ListedOk(s) && HasTodo(s, c) && s.calls[c].Promote? && OtherCalls(s, s', c) && |s'.calls| == |s.calls|
    requires s'.calls[c] == Promote(s.calls[c].now, PEnqueue(s.calls[c].ppc.todo[1..]))
    ensures !Listed(s'.calls, s.calls[c].ppc.todo[0].id)
  {
    var todo := s.calls[c].ppc.todo;
    assert ListOk(s, todo);
    forall k | 0 <= k < |s'.calls| ensures !Awaits(s'.calls[k], todo[0].id) {
      if k != c && s'.calls[k].Promote? && s'.calls[k].ppc.PEnqueue? {
        assert s'.calls[k] == s.calls[k] && !Promoting(s.calls[k]);
      }
    }
  }

  lemma PromoteFalls(s: State, c: nat)
    requires FInv(s) && FEnabled(s, FPromote(c))
    ensures Measure(FApply(s, FPromote(c))) < Measure(s)
  {
    var s' := FApply(s, FPromote(c));
    IdsFresh(s);
    ListedPromote(s, c);
    PromoteEffect(s, c);
    PromoteMessageWeight(s, c);
    AddMessage(s.log, s'.log, s.taken);
    LongerLog(s.execs, s.log, s'.log);
    PromotedWaiting(s, c);
    NoLongerWaits(Waiting(s.jobs, s.calls), s.calls[c].ppc.todo[0].id);
  }

  lemma PromoteMessageWeight(s: State, c: nat)
    requires FEnabled(s, FPromote(c))
    ensures var s' := FApply(s, FPromote(c));
            |s'.log| == |s.log| + 1 && MessageWeight(s'.log[|s.log|].req) == 30
  {
    var s1 := AfterStep(s, c, Ok, Nothing);
    FinishOne(s, c, 2);
    FinishOne(s1, c, 1);
  }

  /** A call that is not a promoter's holds nothing. */
  lemma BegunWaiting(s: State, s': State, call: Call)
    requires s'.calls == s.calls + [call] && (call.Promote? ==> call.ppc.PList?)
    ensures forall j :: Listed(s'.calls, j) <==> Listed(s.calls, j)
  {
    forall j ensures Listed(s'.calls, j) <==> Listed(s.calls, j) {
      if c :| 0 <= c < |s.calls| && Awaits(s.calls[c], j) { assert s'.calls[c] == s.calls[c]; }
    }
  }

  lemma CancelledMeasure(s: State, s': State, j: nat)
    requires GetsCancelled(s, s', j) && forall k :: Listed(s'.calls, k) <==> Listed(s.calls, k)
    ensures Measure(s') <= Measure(s)
  {
    var w, w' := Waiting(s.jobs, s.calls), Waiting(s'.jobs, s'.calls);
    if j in w && j !in w' {
      NoLongerWaits(w, j);
      assert w' == w - {j};
    } else {
      assert w' == w;
    }
  }

  /** New work: a submission, a replay or a cron firing. */
  predicate AddsWork(f: FEvent) {
    f.FSubmit? || f.FReplay? || f.FFire?
  }

  predicate Progress(f: FEvent) {
    f.FDeliver? || f.FWork? || f.FPromote?
  }

  lemma MeasureStep(s: State, f: FEvent)
    requires FInv(s) && FEnabled(s, f) && !AddsWork(f)
    ensures Measure(FApply(s, f)) + (if Progress(f) then 1 else 0) <= Measure(s)
  {
    IdsFresh(s);
    if f.FDeliver? { DeliverFalls(s, f.offset, f.worker); }
    else if f.FWork? { WorkFalls(s, f.exec, f.success); }
    else if f.FPromote? { PromoteFalls(s, f.tick); }
    else if f.FCancel? { CancelMeasure(s, f.job); }
    else if f.FList? { ListMeasure(s, f.tick, f.ids); }
    else if f.FBatch? { BatchMeasure(s, f.tick, f.answer); }
    else if f.FBegin? { BeginMeasure(s, f.call); }
    else { QuietMeasure(s, f); }
  }

  lemma QuietMeasure(s: State, f: FEvent)
    requires FEnabled(s, f) && (f.FTick? || f.FPause? || f.FAddSchedule? || f.FDropSchedule?)
    ensures Measure(FApply(s, f)) == Measure(s)
  {
  }

  lemma BeginMeasure(s: State, call: Call)
    requires FEnabled(s, FBegin(call))
    ensures Measure(Begun(s, call)) == Measure(s)
  {
    BegunWaiting(s, Begun(s, call), call);
    WaitingCalls(s.jobs, s.calls, s.calls + [call]);
  }

  lemma CancelMeasure(s: State, j: nat)
    ensures Measure(FApply(s, FCancel(j))) <= Measure(s)
  {
    var s' := FApply(s, FCancel(j));
    CancelEffect(s, j);
    assert s'.calls == s.calls + [s'.calls[|s.calls|]];
    BegunWaiting(s, s', s'.calls[|s.calls|]);
    if Unchanged(s, s') { WaitingCalls(s.jobs, s.calls, s'.calls); } else { CancelledMeasure(s, s', j); }
  }

  lemma BatchMeasure(s: State, c: nat, a: Answer)
    requires StepEnabled(s, c, Ok, a) && s.calls[c].Batch?
    ensures Measure(AfterStep(s, c, Ok, a)) == Measure(s)
  {
    SameHolders(s, c, a);
  }

  lemma SameHolders(s: State, c: nat, a: Answer)
    requires StepEnabled(s, c, Ok, a) && (s.calls[c].Batch? || (s.calls[c].Cron? && s.calls[c].tpc.TList?))
    ensures var s' := AfterStep(s, c, Ok, a);
            s'.jobs == s.jobs && s'.log == s.log && s'.execs == s.execs && s'.taken == s.taken
            && Waiting(s'.jobs, s'.calls) == Waiting(s.jobs, s.calls)
  {
    var s' := AfterStep(s, c, Ok, a);
    forall j ensures Listed(s'.calls, j) <==> Listed(s.calls, j) {
      assert forall k :: 0 <= k < |s.calls| && k != c ==> s'.calls[k] == s.calls[k];
    }
    WaitingCalls(s.jobs, s.calls, s'.calls);
  }

  /** A promoter lists scheduled rows, which were waiting already. */
  lemma ListMeasure(s: State, c: nat, ids: seq<nat>)
    requires FEnabled(s, FList(c, ids))
    ensures Measure(FApply(s, FList(c, ids))) == Measure(s)
  {
    if s.calls[c].Promote? { PromoterLists(s, c, ids); } else { SameHolders(s, c, Rows(ids)); }
  }

  lemma PromoterLists(s: State, c: nat, ids: seq<nat>)
    requires FEnabled(s, FList(c, ids)) && s.calls[c].Promote?
    ensures Measure(FApply(s, FList(c, ids))) == Measure(s)
  {
    var s' := AfterStep(s, c, Ok, Rows(ids));
    assert s'.jobs == s.jobs && s'.log == s.log && s'.execs == s.execs && s'.taken == s.taken;
    assert s'.calls == s.calls[c := Promote(s.calls[c].now, PEnqueue(Snapshot(s.jobs, ids)))];
    forall j | j in s.jobs ensures s.jobs[j].status.Scheduled? || (Listed(s'.calls, j) <==> Listed(s.calls, j)) {
      if !s.jobs[j].status.Scheduled? { NotListedNow(s, s', c, ids, j); }
    }
    assert Waiting(s'.jobs, s'.calls) == Waiting(s.jobs, s.calls);
  }

  lemma NotListedNow(s: State, s': State, c: nat, ids: seq<nat>, j: nat)
    requires FEnabled(s, FList(c, ids)) && s.calls[c].Promote? && j in s.jobs && !s.jobs[j].status.Scheduled?
    requires s'.calls == s.calls[c := Promote(s.calls[c].now, PEnqueue(Snapshot(s.jobs, ids)))]
    ensures Listed(s'.calls, j) <==> Listed(s.calls, j)
  {
    assert !Awaits(s'.calls[c], j) by {
      forall k | 0 <= k < |ids| ensures ids[k] != j { assert ids[k] in DueJobs(s.jobs, s.calls[c].now); }
    }
    assert forall k :: 0 <= k < |s.calls| && k != c ==> s'.calls[k] == s.calls[k];
  }

  function ProgressSteps(run: seq<FEvent>): nat {
    if run == [] then 0 else (if Progress(run[0]) then 1 else 0) + ProgressSteps(run[1..])
  }

  /** Once no new work is added, a run makes at most `Measure` deliveries, worker steps and
      promotions, however they interleave. */
  lemma {:induction false} WorkRunsOut(s: State, run: seq<FEvent>)
    requires FInv(s) && FLegal(s, run) && forall i :: 0 <= i < |run| ==> !AddsWork(run[i])
    ensures ProgressSteps(run) + Measure(FAfter(s, run)) <= Measure(s)
    decreases |run|
  {
    if run != [] {
      FStep(s, run[0]);
      MeasureStep(s, run[0]);
      WorkRunsOut(FApply(s, run[0]), run[1..]);
    }
  }

  // ---- nothing is stuck ----

  ghost predicate CanMove(s: State) {
    (exists i, w :: FEnabled(s, FDeliver(i, w))) || (exists x, success :: FEnabled(s, FWork(x, success)))
  }

  ghost predicate NoPause(s: State) {
    forall q: string :: !IsPaused(s, q)
  }

  /** An execution that is not about to acquire, and whose queue is not paused if it is about to ask
      for it, can take its next step. */
  lemma HolderMoves(s: State, x: nat)
    requires x in s.execs && s.execs[x].offset < |s.log| && !s.execs[x].pc.Acquire?
    requires s.execs[x].pc.GetQueue? ==> !IsPaused(s, ReqOf(s, x).queue)
    ensures CanMove(s)
  {
    var req := ReqOf(s, x);
    var success := HandlerMay(req.typ, req.payload, req.attempt, true);
    assert !success ==> HandlerMay(req.typ, req.payload, req.attempt, false);
    assert FEnabled(s, FWork(x, success));
  }

  lemma ExecMoves(s: State, x: nat)
    requires FInv(s) && x in s.execs
    requires s.execs[x].pc.GetQueue? ==> !IsPaused(s, ReqOf(s, x).queue)
    ensures CanMove(s)
  {
    var w, typ := s.execs[x].worker, ReqOf(s, x).typ;
    if !s.execs[x].pc.Acquire? {
      HolderMoves(s, x);
    } else if s.limit <= 0 || Held(s, w, typ) < s.limit {
      assert FEnabled(s, FWork(x, true));
    } else {
      // the channel is full, so some execution holds it
      assert Held(s, w, typ) == |Holders(s, w, typ)|;
      var y :| y in Holders(s, w, typ);
      HolderMoves(s, y);
    }
  }

  /** While a message or an execution is left and no queue is paused, some step is possible. */
  lemma NeverStuck(s: State)
    requires FInv(s) && NoPause(s)
    requires (exists x :: x in s.execs) || (exists i: nat :: i < |s.log| && i !in s.taken)
    ensures CanMove(s)
  {
    if x :| x in s.execs {
      ExecMoves(s, x);
    } else {
      var i: nat :| i < |s.log| && i !in s.taken;
      assert FEnabled(s, FDeliver(i, 0));
    }
  }

  /** A row nothing more will happen to. */
  predicate Ended(row: Job) {
    row.status.Completed? || row.status.Archived? || row.status.Cancelled? || (row.status.Failed? && !Registered(row.typ))
  }

  lemma UnfinishedHasToken(s: State, j: nat)
    requires FInv(s) && j in s.jobs && Unfinished(s.jobs[j])
    ensures (exists x :: x in s.execs) || (exists i: nat :: i < |s.log| && i !in s.taken)
  {
    assert JobOk(s, j);
    var t :| t in TokensOf(s, j);
    match t {
      case InLog(i) => assert i < |s.log| && i !in s.taken;
      case Running(x) => assert x in s.execs;
    }
  }
}
