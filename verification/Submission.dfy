/** Idempotent submit: whatever passes the lookup together, the unique index lets one row per
    (type, queue, key) in, and only the call that created it enqueues it. */
module Submission {
  import opened Types
  import opened Tables
  import opened Protocol
  import opened Identity

  predicate UniqueKeys(jobs: map<nat, Job>) {
    forall j, k :: j in jobs && k in jobs && j != k && jobs[j].key != "" ==> !SameKey(jobs[j], jobs[k])
  }

  /** A job submitted to the log was created by a submit call that is over. */
  predicate SubmitsOver(log: seq<Entry>, s: State) {
    forall i :: 0 <= i < |log| && log[i].origin.BySubmit? ==>
      var j := log[i].req.job;
      j in s.jobs && j < |s.born| && s.born[j].call < |s.calls|
      && s.calls[s.born[j].call].Submit? && s.calls[s.born[j].call].spc.SDone?
  }

  predicate SubmittedOnce(log: seq<Entry>) {
    forall i, k :: 0 <= i < k < |log| && log[i].origin.BySubmit? && log[k].origin.BySubmit? ==>
      log[i].req.job != log[k].req.job
  }

  ghost predicate SubmissionOk(s: State) {
    UniqueKeys(s.jobs) && SubmitsOver(s.log, s) && SubmittedOnce(s.log)
  }

  lemma UniqueAfter(jobs: map<nat, Job>, op: Op)
    requires UniqueKeys(jobs)
    ensures UniqueKeys(JobsAfter(jobs, op))
  {
  }

  lemma SubmissionWork(s: State, x: nat, o: Outcome, success: bool)
    requires IdsOk(s) && SubmissionOk(s) && WorkEnabled(s, x, success)
    ensures SubmissionOk(AfterWork(s, x, o, success))
  {
    UniqueAfter(s.jobs, Effective(WorkOp(ReqOf(s, x), s.execs[x].pc, s.clock, x), o));
    WorkSubmitsNothing(s, x, o, success);
  }

  lemma WorkSubmitsNothing(s: State, x: nat, o: Outcome, success: bool)
    requires SubmissionOk(s) && WorkEnabled(s, x, success)
    ensures var s' := AfterWork(s, x, o, success); SubmitsOver(s'.log, s') && SubmittedOnce(s'.log)
  {
  }

  /** A submit message is new: its creator is still the call sending it. */
  lemma SubmitIsNew(s: State, c: nat, o: Outcome, a: Answer)
    requires IdsOk(s) && SubmissionOk(s) && StepEnabled(s, c, o, a)
    ensures var op := Effective(CallOp(s.calls[c], |s.born|, s.outbox, a), o);
            op.Enqueue? && op.entry.origin.BySubmit? ==>
              && forall i :: 0 <= i < |s.log| && s.log[i].origin.BySubmit? ==> s.log[i].req.job != op.entry.req.job
  {
    assert CallOk(s, c);
  }

  lemma SubmissionCall(s: State, c: nat, o: Outcome, a: Answer)
    requires IdsOk(s) && SubmissionOk(s) && StepEnabled(s, c, o, a)
    ensures SubmissionOk(AfterStep(s, c, o, a))
  {
    var op := Effective(CallOp(s.calls[c], |s.born|, s.outbox, a), o);
    UniqueAfter(s.jobs, op);
    SubmitIsNew(s, c, o, a);
    OnceAfter(s.log, op);
    OverAfter(s, c, o, a);
  }

  lemma OnceAfter(log: seq<Entry>, op: Op)
    requires SubmittedOnce(log)
    requires op.Enqueue? && op.entry.origin.BySubmit? ==>
               forall i :: 0 <= i < |log| && log[i].origin.BySubmit? ==> log[i].req.job != op.entry.req.job
    ensures SubmittedOnce(LogAfter(log, op))
  {
  }

  /** The calls that made the jobs already sent are over, and stay so. */
  lemma OverStays(s: State, c: nat, o: Outcome, a: Answer)
    requires IdsOk(s) && SubmissionOk(s) && StepEnabled(s, c, o, a)
    ensures SubmitsOver(s.log, AfterStep(s, c, o, a))
  {
    ApplyExtends(s, Step(c, o, a));
  }

  lemma SenderIsOver(s: State, c: nat, o: Outcome, a: Answer)
    requires IdsOk(s) && StepEnabled(s, c, o, a)
    ensures var op := Effective(CallOp(s.calls[c], |s.born|, s.outbox, a), o);
            op.Enqueue? ==> SubmitsOver([op.entry], AfterStep(s, c, o, a))
  {
    assert CallOk(s, c);
    ApplyExtends(s, Step(c, o, a));
  }

  lemma OverAfter(s: State, c: nat, o: Outcome, a: Answer)
    requires IdsOk(s) && SubmissionOk(s) && StepEnabled(s, c, o, a)
    ensures SubmitsOver(AfterStep(s, c, o, a).log, AfterStep(s, c, o, a))
  {
    var op := Effective(CallOp(s.calls[c], |s.born|, s.outbox, a), o);
    OverStays(s, c, o, a);
    SenderIsOver(s, c, o, a);
    assert op.Enqueue? ==> [op.entry][0] == op.entry;
  }

  lemma SubmissionStep(s: State, e: Event)
    requires IdsOk(s) && SubmissionOk(s) && Enabled(s, e)
    ensures SubmissionOk(Apply(s, e))
  {
    match e {
      case Work(x, o, success) => SubmissionWork(s, x, o, success);
      case Step(c, o, a) => SubmissionCall(s, c, o, a);
      case _ =>
    }
  }

  // ---- what callers see ----

  /** Two requests for one (type, queue, non-empty key). */
  predicate SameKeyed(a: SubmitReq, b: SubmitReq) {
    a.typ == b.typ && QueueName(a.queue) == QueueName(b.queue) && a.key == b.key && a.key != ""
  }

  /** Submit call `c` has returned job id `id`. */
  predicate Answered(s: State, c: nat, id: nat) {
    c < |s.calls| && s.calls[c].Submit? && s.calls[c].spc == SDone(Some(id))
  }

  /** Message `i` was sent by a submit, for a job with a row. */
  predicate SubmitSent(s: State, i: nat) {
    i < |s.log| && s.log[i].origin.BySubmit? && s.log[i].req.job in s.jobs
  }

  /** The jobs of two such messages have one (type, queue, non-empty key). */
  predicate SameRows(s: State, i: nat, k: nat)
    requires SubmitSent(s, i) && SubmitSent(s, k)
  {
    var a, b := s.jobs[s.log[i].req.job], s.jobs[s.log[k].req.job];
    SameKey(a, b) && a.key != ""
  }

  lemma SameAnswer(s: State, c: nat, d: nat, i: nat, k: nat)
    requires IdsOk(s) && SubmissionOk(s) && Answered(s, c, i) && Answered(s, d, k)
    requires SameKeyed(s.calls[c].req, s.calls[d].req)
    ensures i == k
  {
    assert CallOk(s, c) && CallOk(s, d);
  }

  lemma SubmittedAtMostOnce(s: State, i: nat, k: nat)
    requires SubmissionOk(s) && SubmitSent(s, i) && SubmitSent(s, k)
    requires SameRows(s, i, k)
    ensures i == k
  {
    assert s.log[i].req.job == s.log[k].req.job;
  }
}
