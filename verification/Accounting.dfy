/** Where an execution can stand, and what attempts are ever queued or stored. */
module Accounting {
  import opened Types
  import opened Tables
  import opened Protocol
  import opened Identity

  // ---- the producer drops only options the worker reads back as zero ----

  /** Whatever `Enqueue` drops, the worker reads the same priority, a max_retry that is at most
      zero where the original was, and takes the same retry decision for every real attempt. */
  lemma OptionsRoundTrip(job: nat, typ: string, payload: Payload, queue: string,
                         maxRetry: int, runAt: int, attempt: int, priority: int, next: int)
    ensures var r := MakeRequest(job, typ, payload, queue, maxRetry, runAt, attempt, priority);
            && PriorityOf(r) == priority
            && Budget(r) == Max(maxRetry, 0)
            && (maxRetry > 0 ==> MaxRetry(r) == maxRetry)
            && (next >= 1 ==> (next <= MaxRetry(r) <==> next <= maxRetry))
  {
  }

  // ---- program counters ----

  predicate PcOk(pc: Pc, req: JobRequest) {
    match pc
    case Handle => Registered(req.typ) && req.typ != EMAIL
    case Complete => Registered(req.typ) && req.typ != EMAIL
    case CompleteEmail => req.typ == EMAIL && ValidEmailPayload(req.payload)
    case MarkUnknown => !Registered(req.typ)
    case MarkFailed => Registered(req.typ) && (req.typ == EMAIL ==> !ValidEmailPayload(req.payload))
    case Reenqueue => Registered(req.typ) && Inc32(req.attempt) <= MaxRetry(req)
    case Archive => Registered(req.typ) && Inc32(req.attempt) > MaxRetry(req)
    case _ => true
  }

  predicate PcsOk(execs: map<nat, Exec>, log: seq<Entry>) {
    forall x :: x in execs ==> execs[x].offset < |log| && PcOk(execs[x].pc, log[execs[x].offset].req)
  }

  lemma PcsStep(s: State, e: Event)
    requires IdsOk(s) && Enabled(s, e) && PcsOk(s.execs, s.log)
    ensures PcsOk(Apply(s, e).execs, Apply(s, e).log)
  {
    ApplyExtends(s, e);
    if e.Work? {
      var pc := s.execs[e.exec].pc;
      assert PcOk(pc, ReqOf(s, e.exec));
      assert !pc.Return? ==> PcOk(WorkNext(s, ReqOf(s, e.exec), pc, e.outcome, e.success), ReqOf(s, e.exec));
    }
  }

  // ---- attempts ----

  /** Every message whose max_retry can be incremented carries an attempt within its budget. */
  predicate AttemptOk(r: JobRequest) {
    MaxRetry(r) < MAX_INT32 ==> 0 <= r.attempt <= Budget(r)
  }

  predicate AttemptsOk(log: seq<Entry>) {
    forall i :: 0 <= i < |log| ==> AttemptOk(log[i].req)
  }

  /** A stored attempt is zero or at most one past the budget of some message of the job. */
  ghost predicate Bounded(log: seq<Entry>, j: nat, attempt: int) {
    attempt == 0 ||
    exists i :: 0 <= i < |log| && log[i].req.job == j
                && (MaxRetry(log[i].req) < MAX_INT32 ==> 0 <= attempt <= Budget(log[i].req) + 1)
  }

  ghost predicate RowsBounded(jobs: map<nat, Job>, log: seq<Entry>) {
    forall j :: j in jobs ==> Bounded(log, j, jobs[j].attempt)
  }

  ghost predicate DueBounded(log: seq<Entry>, todo: seq<Due>) {
    forall k :: 0 <= k < |todo| ==> Bounded(log, todo[k].id, todo[k].row.attempt)
  }

  ghost predicate CallsBounded(calls: seq<Call>, log: seq<Entry>) {
    forall c :: 0 <= c < |calls| && calls[c].Promote? && !calls[c].ppc.PList? ==> DueBounded(log, calls[c].ppc.todo)
  }

  ghost predicate AccountsOk(s: State) {
    PcsOk(s.execs, s.log) && AttemptsOk(s.log) && RowsBounded(s.jobs, s.log) && CallsBounded(s.calls, s.log)
  }

  lemma BoundedGrows(log: seq<Entry>, op: Op, j: nat, attempt: int)
    requires Bounded(log, j, attempt)
    ensures Bounded(LogAfter(log, op), j, attempt)
  {
    if attempt != 0 {
      var i :| 0 <= i < |log| && log[i].req.job == j
               && (MaxRetry(log[i].req) < MAX_INT32 ==> 0 <= attempt <= Budget(log[i].req) + 1);
      assert LogAfter(log, op)[i] == log[i];
    }
  }

  /** What an operation writes stays within bounds. */
  ghost predicate OpBounded(op: Op, log: seq<Entry>) {
    && (op.Enqueue? ==> AttemptOk(op.entry.req))
    && (op.UpdateStatus? || op.CompleteWithOutbox? ==> Bounded(log, op.id, op.attempt))
    && (op.Insert? ==> op.job.attempt == 0)
  }

  lemma PerformBounded(s: State, op: Op)
    requires AttemptsOk(s.log) && RowsBounded(s.jobs, s.log) && CallsBounded(s.calls, s.log) && OpBounded(op, s.log)
    ensures var t := Perform(s, op);
            AttemptsOk(t.log) && RowsBounded(t.jobs, t.log) && CallsBounded(s.calls, t.log)
  {
    var t := Perform(s, op);
    forall j | j in t.jobs ensures Bounded(t.log, j, t.jobs[j].attempt) {
      BoundedGrows(s.log, op, j, t.jobs[j].attempt);
    }
    forall c | 0 <= c < |s.calls| && s.calls[c].Promote? && !s.calls[c].ppc.PList?
      ensures DueBounded(t.log, s.calls[c].ppc.todo)
    {
      DueGrows(s.log, op, s.calls[c].ppc.todo);
    }
  }

  lemma DueGrows(log: seq<Entry>, op: Op, todo: seq<Due>)
    requires DueBounded(log, todo)
    ensures DueBounded(LogAfter(log, op), todo)
  {
    forall k | 0 <= k < |todo| ensures Bounded(LogAfter(log, op), todo[k].id, todo[k].row.attempt) {
      BoundedGrows(log, op, todo[k].id, todo[k].row.attempt);
    }
  }

  lemma WorkOpBounded(s: State, x: nat, o: Outcome)
    requires AccountsOk(s) && x in s.execs
    ensures OpBounded(Effective(WorkOp(ReqOf(s, x), s.execs[x].pc, s.clock, x), o), s.log)
  {
    var req := ReqOf(s, x);
    assert s.log[s.execs[x].offset].req.job == req.job && AttemptOk(req) && PcOk(s.execs[x].pc, req);
  }

  lemma CallOpBounded(s: State, c: nat, o: Outcome, a: Answer)
    requires AccountsOk(s) && StepEnabled(s, c, o, a)
    ensures OpBounded(Effective(CallOp(s.calls[c], |s.born|, s.outbox, a), o), s.log)
  {
  }

  lemma AccountsStep(s: State, e: Event)
    requires IdsOk(s) && AccountsOk(s) && Enabled(s, e)
    ensures AccountsOk(Apply(s, e))
  {
    PcsStep(s, e);
    match e {
      case Work(x, o, _) =>
        WorkOpBounded(s, x, o);
        PerformBounded(s, Effective(WorkOp(ReqOf(s, x), s.execs[x].pc, s.clock, x), o));
      case Step(c, o, a) => AccountsCall(s, c, o, a);
      case _ =>
    }
  }

  lemma AccountsCall(s: State, c: nat, o: Outcome, a: Answer)
    requires IdsOk(s) && AccountsOk(s) && StepEnabled(s, c, o, a)
    ensures var t := AfterStep(s, c, o, a);
            AttemptsOk(t.log) && RowsBounded(t.jobs, t.log) && CallsBounded(t.calls, t.log)
  {
    var t := AfterStep(s, c, o, a);
    var op := Effective(CallOp(s.calls[c], |s.born|, s.outbox, a), o);
    CallOpBounded(s, c, o, a);
    PerformBounded(s, op);
    if s.calls[c].Promote? {
      PromoteBounded(s, c, o, a);
    }
  }

  lemma PromoteBounded(s: State, c: nat, o: Outcome, a: Answer)
    requires AccountsOk(s) && StepEnabled(s, c, o, a) && s.calls[c].Promote?
    ensures var t := AfterStep(s, c, o, a);
            t.calls[c].Promote? && (!t.calls[c].ppc.PList? ==> DueBounded(t.log, t.calls[c].ppc.todo))
  {
    var t := AfterStep(s, c, o, a);
    var op := Effective(CallOp(s.calls[c], |s.born|, s.outbox, a), o);
    match s.calls[c].ppc {
      case PList =>
        if o.Ok? {
          assert DueBounded(s.log, Snapshot(s.jobs, a.ids));
          DueGrows(s.log, op, Snapshot(s.jobs, a.ids));
        }
      case PEnqueue(todo) => DueGrows(s.log, op, todo);
      case PWrite(todo) => DueGrows(s.log, op, todo);
    }
  }
}
