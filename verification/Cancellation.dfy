/** Once a job is cancelled and nothing is already past the check, it stays cancelled. */
module Cancellation {
  import opened Types
  import opened Tables
  import opened Protocol
  import opened Identity

  /** An execution that has passed the cancelled check and has a status write left to make. */
  predicate PastCheck(pc: Pc) {
    pc.MarkProcessing? || pc.Handle? || pc.MarkUnknown? || pc.MarkFailed? || pc.Archive? || pc.Complete? || pc.CompleteEmail?
  }

  predicate NotDue(todo: seq<Due>, j: nat) {
    forall k :: 0 <= k < |todo| ==> todo[k].id != j
  }

  ghost predicate NoneRunning(execs: map<nat, Exec>, log: seq<Entry>, j: nat) {
    forall x :: x in execs && execs[x].offset < |log| && log[execs[x].offset].req.job == j ==> !PastCheck(execs[x].pc)
  }

  ghost predicate NoneListed(calls: seq<Call>, j: nat) {
    forall c :: 0 <= c < |calls| && calls[c].Promote? && !calls[c].ppc.PList? ==> NotDue(calls[c].ppc.todo, j)
  }

  ghost predicate Closed(s: State, j: nat) {
    IsCancelled(s, j) && NoneRunning(s.execs, s.log, j) && NoneListed(s.calls, j)
  }

  lemma WorkStaysCancelled(s: State, x: nat, o: Outcome, success: bool, j: nat)
    requires Closed(s, j) && WorkEnabled(s, x, success)
    ensures IsCancelled(AfterWork(s, x, o, success), j)
  {
  }

  lemma NoneStarts(s: State, x: nat, o: Outcome, success: bool, j: nat)
    requires Closed(s, j) && WorkEnabled(s, x, success) && ReqOf(s, x).job == j
    ensures !PastCheck(WorkNext(s, ReqOf(s, x), s.execs[x].pc, o, success))
  {
  }

  lemma MovedStartsNone(execs: map<nat, Exec>, execs': map<nat, Exec>, log: seq<Entry>, log': seq<Entry>, x: nat, j: nat)
    requires NoneRunning(execs, log, j) && x in execs && |log| <= |log'| && log'[..|log|] == log
    requires forall y :: y in execs ==> execs[y].offset < |log|
    requires forall y :: y in execs' ==> y in execs && execs'[y].offset == execs[y].offset && (y != x ==> execs'[y] == execs[y])
    requires x in execs' && log[execs[x].offset].req.job == j ==> !PastCheck(execs'[x].pc)
    ensures NoneRunning(execs', log', j)
  {
    forall y | y in execs' ensures log'[execs'[y].offset] == log[execs[y].offset] {
      assert log'[..|log|][execs[y].offset] == log[execs[y].offset];
    }
  }

  lemma WorkStartsNone(s: State, x: nat, o: Outcome, success: bool, j: nat)
    requires IdsOk(s) && Closed(s, j) && WorkEnabled(s, x, success)
    ensures NoneRunning(AfterWork(s, x, o, success).execs, AfterWork(s, x, o, success).log, j)
  {
    var s' := AfterWork(s, x, o, success);
    if ReqOf(s, x).job == j { NoneStarts(s, x, o, success, j); }
    assert s'.log[..|s.log|] == s.log;
    MovedStartsNone(s.execs, s'.execs, s.log, s'.log, x, j);
  }

  lemma ClosedWork(s: State, x: nat, o: Outcome, success: bool, j: nat)
    requires IdsOk(s) && Closed(s, j) && WorkEnabled(s, x, success)
    ensures Closed(AfterWork(s, x, o, success), j)
  {
    WorkStaysCancelled(s, x, o, success, j);
    WorkStartsNone(s, x, o, success, j);
  }

  lemma NoOutcome(s: State, x: nat, o: Outcome, success: bool, j: nat)
    requires Closed(s, j) && WorkEnabled(s, x, success)
    ensures Outcomes(AfterWork(s, x, o, success), j) == Outcomes(s, j)
  {
  }

  lemma CallWritesElsewhere(s: State, c: nat, o: Outcome, a: Answer, j: nat)
    requires Closed(s, j) && StepEnabled(s, c, o, a)
    ensures var op := Effective(CallOp(s.calls[c], |s.born|, s.outbox, a), o);
            !op.CompleteWithOutbox? && (op.UpdateStatus? && op.id == j ==> op.status.Cancelled?)
  {
  }

  lemma SnapshotSkips(s: State, c: nat, o: Outcome, a: Answer, j: nat)
    requires Closed(s, j) && StepEnabled(s, c, o, a)
    ensures var call := CallNext(s, c, o, a);
            call.Promote? && !call.ppc.PList? ==> NotDue(call.ppc.todo, j)
  {
    if s.calls[c].Promote? && s.calls[c].ppc.PList? && o.Ok? {
      forall k | 0 <= k < |a.ids| ensures a.ids[k] != j {
        assert a.ids[k] in DueJobs(s.jobs, s.calls[c].now);
      }
    }
  }

  lemma ClosedCall(s: State, c: nat, o: Outcome, a: Answer, j: nat)
    requires IdsOk(s) && Closed(s, j) && StepEnabled(s, c, o, a)
    ensures Closed(AfterStep(s, c, o, a), j)
  {
    CallWritesElsewhere(s, c, o, a, j);
    SnapshotSkips(s, c, o, a, j);
  }

  lemma ClosedQuiet(s: State, e: Event, j: nat)
    requires IdsOk(s) && Closed(s, j) && Enabled(s, e) && !e.Work? && !e.Step?
    ensures Closed(Apply(s, e), j) && Outcomes(Apply(s, e), j) == Outcomes(s, j)
  {
  }

  /** Every event of every actor, failures and redelivery included, leaves it so, and none
      runs a handler for the job. */
  lemma ClosedStep(s: State, e: Event, j: nat)
    requires IdsOk(s) && Closed(s, j) && Enabled(s, e)
    ensures Closed(Apply(s, e), j)
    ensures Outcomes(Apply(s, e), j) == Outcomes(s, j)
  {
    if e.Work? {
      ClosedWork(s, e.exec, e.outcome, e.success, j);
      NoOutcome(s, e.exec, e.outcome, e.success, j);
    } else if e.Step? {
      ClosedCall(s, e.id, e.outcome, e.answer, j);
    } else {
      ClosedQuiet(s, e, j);
    }
  }

  lemma {:induction false} ClosedForever(s: State, run: seq<Event>, j: nat)
    requires IdsOk(s) && Closed(s, j) && Legal(s, run)
    ensures Closed(After(s, run), j)
    ensures Outcomes(After(s, run), j) == Outcomes(s, j)
    decreases |run|
  {
    if run != [] {
      ClosedStep(s, run[0], j);
      IdsStep(s, run[0]);
      ClosedForever(Apply(s, run[0]), run[1..], j);
    }
  }
}
