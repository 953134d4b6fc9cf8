/** Rows, messages and calls agree with the id they were allocated. Kept by every event,
    whatever fails, is redelivered or crashes, and however the actors interleave. */
module Identity {
  import opened Types
  import opened Tables
  import opened Protocol

  predicate RowMatches(row: Job, b: Birth) {
    && row.typ == b.typ && row.payload == b.payload && row.runAt == b.runAt && row.key == b.key
    && row.queue == b.queue && row.priority == b.priority
  }

  predicate ReqMatches(req: JobRequest, born: seq<Birth>) {
    && req.job < |born| && req.typ == born[req.job].typ && req.payload == born[req.job].payload
    && req.queue == born[req.job].queue && PriorityOf(req) == born[req.job].priority
  }

  ghost predicate DueOk(s: State, todo: seq<Due>) {
    forall k :: 0 <= k < |todo| ==>
      todo[k].id in s.jobs && todo[k].id < |s.born| && RowMatches(todo[k].row, s.born[todo[k].id])
      && 0 < todo[k].row.runAt <= s.clock
  }

  ghost predicate BatchOk(s: State, todo: seq<nat>) {
    forall k :: 0 <= k < |todo| ==> todo[k] < |s.outbox|
  }

  ghost predicate CallOk(s: State, c: nat)
    requires c < |s.calls|
  {
    match s.calls[c]
    case Submit(r, SCheck(id)) => id in s.jobs && id < |s.born| && s.born[id] == BirthOf(r, c)
    case Submit(r, SEnqueue(id)) => id in s.jobs && id < |s.born| && s.born[id] == BirthOf(r, c) && r.runAt <= Max(s.clock, 0)
    case Submit(r, SDone(Some(id))) => id in s.jobs && SameKey(s.jobs[id], SubmitRow(r))
    case Replay(_, q, RCreate(id, typ, payload, priority)) =>
      id < |s.born| && s.born[id] == Birth(typ, payload, 0, "", QueueName(q), priority, c)
    case Promote(now, PList) => now <= s.clock
    case Promote(_, PEnqueue(todo)) => DueOk(s, todo)
    case Promote(_, PWrite(todo)) => DueOk(s, todo)
    case Cron(_, TEnqueue(todo, id)) =>
      todo != [] && id < |s.born|
      && s.born[id] == Birth(todo[0].row.typ, todo[0].row.payload, 0, "", todo[0].row.queue, 0, c)
    case Batch(BSend(todo)) => BatchOk(s, todo)
    case Batch(BMark(todo, _)) => BatchOk(s, todo)
    case _ => true
  }

  predicate RowsMatch(jobs: map<nat, Job>, born: seq<Birth>) {
    forall j :: j in jobs ==> j < |born| && RowMatches(jobs[j], born[j])
  }

  predicate LogMatches(log: seq<Entry>, born: seq<Birth>) {
    forall i :: 0 <= i < |log| ==> ReqMatches(log[i].req, born)
  }

  ghost predicate ExecsOk(execs: map<nat, Exec>, nextExec: nat, taken: set<nat>, size: nat) {
    && (forall x :: x in execs ==> execs[x].offset in taken && x < nextExec)
    && (forall i :: i in taken ==> i < size)
  }

  predicate BornOk(born: seq<Birth>, calls: nat) {
    forall j :: 0 <= j < |born| ==> born[j].runAt >= 0 && born[j].call < calls
  }

  ghost predicate IdsOk(s: State) {
    && RowsMatch(s.jobs, s.born)
    && LogMatches(s.log, s.born)
    && ExecsOk(s.execs, s.nextExec, s.taken, |s.log|)
    && BornOk(s.born, |s.calls|)
    && (forall c :: 0 <= c < |s.calls| ==> CallOk(s, c))
  }

  /** What no event undoes. */
  ghost predicate Extends(s: State, s': State) {
    && s.clock <= s'.clock && s.nextExec <= s'.nextExec && s.taken <= s'.taken
    && |s.born| <= |s'.born| && (forall i :: 0 <= i < |s.born| ==> s'.born[i] == s.born[i])
    && |s.log| <= |s'.log| && (forall i :: 0 <= i < |s.log| ==> s'.log[i] == s.log[i])
    && |s.calls| <= |s'.calls| && |s.outbox| <= |s'.outbox|
    && (forall j :: j in s.jobs ==>
          j in s'.jobs && SameKey(s.jobs[j], s'.jobs[j]) && s.jobs[j].payload == s'.jobs[j].payload
          && s.jobs[j].runAt == s'.jobs[j].runAt)
  }

  lemma PerformExtends(s: State, op: Op)
    ensures Extends(s, Perform(s, op))
  {
  }

  lemma ApplyExtends(s: State, e: Event)
    requires Enabled(s, e)
    ensures Extends(s, Apply(s, e))
  {
    match e {
      case Work(x, o, _) => PerformExtends(s, Effective(WorkOp(ReqOf(s, x), s.execs[x].pc, s.clock, x), o));
      case Step(c, o, a) => PerformExtends(s, Effective(CallOp(s.calls[c], |s.born|, s.outbox, a), o));
      case _ =>
    }
  }

  lemma CallFrame(s: State, s': State, c: nat)
    requires c < |s.calls| && c < |s'.calls| && s.calls[c] == s'.calls[c] && CallOk(s, c) && Extends(s, s')
    ensures CallOk(s', c)
  {
    match s.calls[c]
    case Promote(_, PEnqueue(todo)) => assert DueOk(s', todo);
    case Promote(_, PWrite(todo)) => assert DueOk(s', todo);
    case Batch(BSend(todo)) => assert BatchOk(s', todo);
    case Batch(BMark(todo, _)) => assert BatchOk(s', todo);
    case _ =>
  }

  /** An operation that agrees with the allocated ids. */
  predicate OpMatches(op: Op, born: seq<Birth>) {
    && (op.Insert? ==> op.id < |born| && RowMatches(op.job, born[op.id]))
    && (op.Enqueue? ==> ReqMatches(op.entry.req, born))
  }

  lemma RowsAfter(jobs: map<nat, Job>, op: Op, born: seq<Birth>, born': seq<Birth>)
    requires RowsMatch(jobs, born) && OpMatches(op, born')
    requires |born| <= |born'| && forall i :: 0 <= i < |born| ==> born'[i] == born[i]
    ensures RowsMatch(JobsAfter(jobs, op), born')
  {
  }

  lemma WorkOpMatches(s: State, x: nat, o: Outcome)
    requires IdsOk(s) && x in s.execs && s.execs[x].offset < |s.log|
    ensures OpMatches(Effective(WorkOp(ReqOf(s, x), s.execs[x].pc, s.clock, x), o), s.born)
  {
  }

  lemma CallOpMatches(s: State, c: nat, o: Outcome, a: Answer)
    requires IdsOk(s) && StepEnabled(s, c, o, a)
    ensures OpMatches(Effective(CallOp(s.calls[c], |s.born|, s.outbox, a), o), s.born + CallBirths(s.calls[c], c))
  {
    assert CallOk(s, c);
  }

  lemma CallsFrame(s: State, s': State)
    requires IdsOk(s) && Extends(s, s') && s.calls <= s'.calls
    ensures forall c :: 0 <= c < |s.calls| ==> CallOk(s', c)
  {
    forall c | 0 <= c < |s.calls| ensures CallOk(s', c) { CallFrame(s, s', c); }
  }

  lemma IdsStep(s: State, e: Event)
    requires IdsOk(s) && Enabled(s, e)
    ensures IdsOk(Apply(s, e))
  {
    match e {
      case Step(c, o, a) => IdsCall(s, c, o, a);
      case Work(x, o, success) => IdsWork(s, x, o, success);
      case _ =>
        ApplyExtends(s, e);
        CallsFrame(s, Apply(s, e));
    }
  }

  lemma IdsWork(s: State, x: nat, o: Outcome, success: bool)
    requires IdsOk(s) && WorkEnabled(s, x, success)
    ensures IdsOk(AfterWork(s, x, o, success))
  {
    ApplyExtends(s, Work(x, o, success));
    WorkOpMatches(s, x, o);
    RowsAfter(s.jobs, Effective(WorkOp(ReqOf(s, x), s.execs[x].pc, s.clock, x), o), s.born, s.born);
    CallsFrame(s, AfterWork(s, x, o, success));
  }

  lemma IdsCall(s: State, c: nat, o: Outcome, a: Answer)
    requires IdsOk(s) && StepEnabled(s, c, o, a)
    ensures IdsOk(AfterStep(s, c, o, a))
  {
    StepKeepsRows(s, c, o, a);
    StepKeepsOthers(s, c, o, a);
    match s.calls[c] {
      case Promote(_, _) => PromoteStays(s, c, o, a);
      case Batch(_) => BatchStays(s, c, o, a);
      case _ => OtherStays(s, c, o, a);
    }
  }

  lemma OtherCallsOk(s: State, s': State, c: nat)
    requires (forall k :: 0 <= k < |s.calls| ==> CallOk(s, k)) && Extends(s, s') && |s'.calls| == |s.calls|
    requires forall k :: 0 <= k < |s.calls| && k != c ==> s'.calls[k] == s.calls[k]
    ensures forall k :: 0 <= k < |s.calls| && k != c ==> CallOk(s', k)
  {
    forall k | 0 <= k < |s.calls| && k != c ensures CallOk(s', k) { CallFrame(s, s', k); }
  }

  lemma StepKeepsOthers(s: State, c: nat, o: Outcome, a: Answer)
    requires IdsOk(s) && StepEnabled(s, c, o, a)
    ensures forall k :: 0 <= k < |s.calls| && k != c ==> CallOk(AfterStep(s, c, o, a), k)
  {
    ApplyExtends(s, Step(c, o, a));
    OtherCallsOk(s, AfterStep(s, c, o, a), c);
  }

  lemma StepKeepsRows(s: State, c: nat, o: Outcome, a: Answer)
    requires IdsOk(s) && StepEnabled(s, c, o, a)
    ensures var s' := AfterStep(s, c, o, a); RowsMatch(s'.jobs, s'.born) && LogMatches(s'.log, s'.born)
  {
    CallOpMatches(s, c, o, a);
    RowsAfter(s.jobs, Effective(CallOp(s.calls[c], |s.born|, s.outbox, a), o), s.born, AfterStep(s, c, o, a).born);
  }

  lemma OtherStays(s: State, c: nat, o: Outcome, a: Answer)
    requires IdsOk(s) && StepEnabled(s, c, o, a) && !s.calls[c].Promote? && !s.calls[c].Batch?
    ensures CallOk(AfterStep(s, c, o, a), c)
  {
    assert CallOk(s, c);
    if s.calls[c].Submit? {
      SubmitStays(s, c, o, a);
    } else {
      ReplayOrCronStays(s, c, o, a);
    }
  }

  lemma SubmitStays(s: State, c: nat, o: Outcome, a: Answer)
    requires c < |s.calls| && CallOk(s, c) && RowsMatch(s.jobs, s.born) && StepEnabled(s, c, o, a) && s.calls[c].Submit?
    ensures CallOk(AfterStep(s, c, o, a), c)
  {
    ApplyExtends(s, Step(c, o, a));
  }

  lemma ReplayOrCronStays(s: State, c: nat, o: Outcome, a: Answer)
    requires c < |s.calls| && CallOk(s, c) && StepEnabled(s, c, o, a)
    requires !s.calls[c].Promote? && !s.calls[c].Batch? && !s.calls[c].Submit?
    ensures CallOk(AfterStep(s, c, o, a), c)
  {
  }

  lemma PromoteStays(s: State, c: nat, o: Outcome, a: Answer)
    requires IdsOk(s) && StepEnabled(s, c, o, a) && s.calls[c].Promote?
    ensures CallOk(AfterStep(s, c, o, a), c)
  {
    var s' := AfterStep(s, c, o, a);
    ApplyExtends(s, Step(c, o, a));
    assert CallOk(s, c);
    if s.calls[c].ppc.PList? {
      if o.Ok? { ListingStays(s, s', a.ids, s.calls[c].now); }
    } else {
      TailStays(s, s', s.calls[c].ppc.todo);
    }
  }

  lemma ListingStays(s: State, s': State, ids: seq<nat>, now: int)
    requires RowsMatch(s.jobs, s.born) && Extends(s, s') && now <= s.clock
    requires DueIds(s.jobs, ids) && Smallest(ids, DueJobs(s.jobs, now), PROMOTE_LIMIT)
    ensures DueOk(s', Snapshot(s.jobs, ids))
  {
    forall k | 0 <= k < |ids| ensures 0 < s.jobs[ids[k]].runAt <= s.clock {
      assert ids[k] in DueJobs(s.jobs, now);
    }
  }

  lemma TailStays(s: State, s': State, todo: seq<Due>)
    requires DueOk(s, todo) && Extends(s, s')
    ensures DueOk(s', todo) && (todo != [] ==> DueOk(s', todo[1..]))
  {
  }

  lemma BatchStays(s: State, c: nat, o: Outcome, a: Answer)
    requires IdsOk(s) && StepEnabled(s, c, o, a) && s.calls[c].Batch?
    ensures CallOk(AfterStep(s, c, o, a), c)
  {
    ApplyExtends(s, Step(c, o, a));
    assert CallOk(s, c);
    if s.calls[c].bpc.BList? && o.Ok? {
      forall k | 0 <= k < |a.ids| ensures a.ids[k] < |s.outbox| { assert a.ids[k] in UnsentRows(s.outbox); }
    }
  }
}
