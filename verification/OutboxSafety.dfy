/** The transactional outbox: a completed email always has its row, every row carries a valid
    payload, an execution writes at most one row, and a row is only marked after a delivery. */
module OutboxSafety {
  import opened Types
  import opened Tables
  import opened Protocol
  import opened Identity
  import opened Accounting

  /** A row as some execution wrote it, with the deliveries made for it since. */
  predicate RowOk(r: OutboxRow, nextExec: nat) {
    && r.typ == EMAIL && ValidEmailPayload(r.payload)
    && r.writer < nextExec
    && (!r.status.Unsent? ==> r.tries != [])
    && (r.status.Sent? ==> true in r.tries)
  }

  predicate RowsOk(outbox: seq<OutboxRow>, nextExec: nat) {
    && (forall i :: 0 <= i < |outbox| ==> RowOk(outbox[i], nextExec))
    && (forall i, k :: 0 <= i < k < |outbox| ==> outbox[i].writer != outbox[k].writer)
  }

  /** An execution that has not made its last call has written no row. */
  predicate WritersPast(outbox: seq<OutboxRow>, execs: map<nat, Exec>) {
    forall i :: 0 <= i < |outbox| && outbox[i].writer in execs ==> execs[outbox[i].writer].pc.Return?
  }

  ghost predicate HasRow(outbox: seq<OutboxRow>, j: nat) {
    exists i :: 0 <= i < |outbox| && outbox[i].job == j
  }

  ghost predicate EmailsBacked(jobs: map<nat, Job>, outbox: seq<OutboxRow>) {
    forall j :: j in jobs && jobs[j].typ == EMAIL && jobs[j].status.Completed? ==> HasRow(outbox, j)
  }

  /** A batch about to mark a row has just made the delivery it is going to record. */
  predicate BatchMarks(calls: seq<Call>, outbox: seq<OutboxRow>) {
    forall c :: 0 <= c < |calls| && calls[c].Batch? && calls[c].bpc.BMark? && calls[c].bpc.todo != [] ==>
      calls[c].bpc.todo[0] < |outbox| && calls[c].bpc.sent in outbox[calls[c].bpc.todo[0]].tries
  }

  ghost predicate OutboxOk(s: State) {
    && RowsOk(s.outbox, s.nextExec)
    && WritersPast(s.outbox, s.execs)
    && EmailsBacked(s.jobs, s.outbox)
    && BatchMarks(s.calls, s.outbox)
  }

  lemma RowStays(outbox: seq<OutboxRow>, op: Op, j: nat)
    requires HasRow(outbox, j)
    ensures HasRow(OutboxAfter(outbox, op), j)
  {
    var i :| 0 <= i < |outbox| && outbox[i].job == j;
    assert OutboxAfter(outbox, op)[i].job == j;
  }

  /** A completion that does not come with its row is not that of an email. */
  ghost predicate OpBacked(op: Op, jobs: map<nat, Job>) {
    && (op.UpdateStatus? && op.status.Completed? && op.id in jobs ==> jobs[op.id].typ != EMAIL)
    && (op.CompleteWithOutbox? ==> op.row.job == op.id)
    && (op.Insert? ==> !op.job.status.Completed?)
  }

  lemma EmailsAfter(s: State, op: Op)
    requires EmailsBacked(s.jobs, s.outbox) && OpBacked(op, s.jobs)
    ensures EmailsBacked(JobsAfter(s.jobs, op), OutboxAfter(s.outbox, op))
  {
    var jobs, outbox := JobsAfter(s.jobs, op), OutboxAfter(s.outbox, op);
    forall j | j in jobs && jobs[j].typ == EMAIL && jobs[j].status.Completed? ensures HasRow(outbox, j) {
      if op.CompleteWithOutbox? && op.id == j {
        assert outbox[|s.outbox|].job == j;
      } else {
        RowStays(s.outbox, op, j);
      }
    }
  }

  /** What an operation may do to the outbox: add the first row of a writer, record a delivery,
      or mark a row according to a delivery made for it. */
  ghost predicate OpDelivers(op: Op, outbox: seq<OutboxRow>, nextExec: nat) {
    && (op.CompleteWithOutbox? ==>
          RowOk(op.row, nextExec) && forall i :: 0 <= i < |outbox| ==> outbox[i].writer != op.row.writer)
    && (op.MarkOutbox? && op.index < |outbox| ==>
          && outbox[op.index].tries != []
          && (op.outboxStatus.Sent? ==> true in outbox[op.index].tries))
  }

  lemma RowsAfterOp(outbox: seq<OutboxRow>, op: Op, nextExec: nat)
    requires RowsOk(outbox, nextExec) && OpDelivers(op, outbox, nextExec)
    ensures RowsOk(OutboxAfter(outbox, op), nextExec)
    ensures forall i :: 0 <= i < |outbox| ==>
              OutboxAfter(outbox, op)[i].writer == outbox[i].writer && outbox[i].tries <= OutboxAfter(outbox, op)[i].tries
  {
    if op.Send? && op.index < |outbox| {
      var tries := outbox[op.index].tries;
      assert forall b :: b in tries ==> b in tries + [op.sent];
    }
  }

  lemma WorkOpDelivers(s: State, x: nat, o: Outcome)
    requires IdsOk(s) && PcsOk(s.execs, s.log) && OutboxOk(s) && x in s.execs
    ensures var op := Effective(WorkOp(ReqOf(s, x), s.execs[x].pc, s.clock, x), o);
            OpBacked(op, s.jobs) && OpDelivers(op, s.outbox, s.nextExec)
  {
    assert PcOk(s.execs[x].pc, ReqOf(s, x)) && ReqMatches(ReqOf(s, x), s.born);
  }

  lemma WritersWork(s: State, x: nat, o: Outcome, success: bool)
    requires WritersPast(s.outbox, s.execs) && WorkEnabled(s, x, success)
    ensures WritersPast(AfterWork(s, x, o, success).outbox, AfterWork(s, x, o, success).execs)
  {
  }

  lemma OutboxWork(s: State, x: nat, o: Outcome, success: bool)
    requires IdsOk(s) && PcsOk(s.execs, s.log) && OutboxOk(s) && WorkEnabled(s, x, success)
    ensures OutboxOk(AfterWork(s, x, o, success))
  {
    var op := Effective(WorkOp(ReqOf(s, x), s.execs[x].pc, s.clock, x), o);
    WorkOpDelivers(s, x, o);
    WritersWork(s, x, o, success);
    PerformOutbox(s, op);
  }

  lemma PerformOutbox(s: State, op: Op)
    requires OutboxOk(s) && OpBacked(op, s.jobs) && OpDelivers(op, s.outbox, s.nextExec)
    ensures EmailsBacked(JobsAfter(s.jobs, op), OutboxAfter(s.outbox, op))
    ensures RowsOk(OutboxAfter(s.outbox, op), s.nextExec)
    ensures BatchMarks(s.calls, OutboxAfter(s.outbox, op))
    ensures forall i :: 0 <= i < |s.outbox| ==> OutboxAfter(s.outbox, op)[i].writer == s.outbox[i].writer
  {
    EmailsAfter(s, op);
    RowsAfterOp(s.outbox, op, s.nextExec);
    MarksKept(s.calls, s.outbox, op);
  }

  lemma MarksKept(calls: seq<Call>, outbox: seq<OutboxRow>, op: Op)
    requires BatchMarks(calls, outbox)
    ensures BatchMarks(calls, OutboxAfter(outbox, op))
  {
  }

  lemma CallOpDelivers(s: State, c: nat, o: Outcome, a: Answer)
    requires StepEnabled(s, c, o, a) && OutboxOk(s)
    ensures var op := Effective(CallOp(s.calls[c], |s.born|, s.outbox, a), o);
            OpBacked(op, s.jobs) && OpDelivers(op, s.outbox, s.nextExec) && !op.CompleteWithOutbox?
  {
  }

  lemma MarkMatches(s: State, c: nat, o: Outcome, a: Answer)
    requires StepEnabled(s, c, o, a) && CallOk(s, c)
    ensures BatchMarks([CallNext(s, c, o, a)],
                       OutboxAfter(s.outbox, Effective(CallOp(s.calls[c], |s.born|, s.outbox, a), o)))
  {
  }

  lemma OutboxCall(s: State, c: nat, o: Outcome, a: Answer)
    requires StepEnabled(s, c, o, a) && CallOk(s, c) && OutboxOk(s)
    ensures OutboxOk(AfterStep(s, c, o, a))
  {
    CallOpDelivers(s, c, o, a);
    PerformOutbox(s, Effective(CallOp(s.calls[c], |s.born|, s.outbox, a), o));
    MarkMatches(s, c, o, a);
    assert [CallNext(s, c, o, a)][0] == AfterStep(s, c, o, a).calls[c];
  }

  lemma OutboxStep(s: State, e: Event)
    requires IdsOk(s) && PcsOk(s.execs, s.log) && OutboxOk(s) && Enabled(s, e)
    ensures OutboxOk(Apply(s, e))
  {
    match e {
      case Work(x, o, success) => OutboxWork(s, x, o, success);
      case Step(c, o, a) =>
        assert CallOk(s, c);
        OutboxCall(s, c, o, a);
      case _ =>
    }
  }

  /** How a row may change: it keeps its contents, gains attempts, and leaves Unsent only after one. */
  predicate RowMoves(r: OutboxRow, r': OutboxRow) {
    && r'.job == r.job && r'.payload == r.payload && r.tries <= r'.tries
    && (!r.status.Unsent? ==> !r'.status.Unsent?)
    && (r.status.Unsent? && !r'.status.Unsent? ==> r.tries != [])
  }

  lemma RowMovesByOp(outbox: seq<OutboxRow>, op: Op, i: nat)
    requires i < |outbox|
    requires op.MarkOutbox? ==> !op.outboxStatus.Unsent? && (op.index < |outbox| ==> outbox[op.index].tries != [])
    ensures i < |OutboxAfter(outbox, op)| && RowMoves(outbox[i], OutboxAfter(outbox, op)[i])
  {
  }

  lemma MarksFollowAttempts(s: State, c: nat, o: Outcome, a: Answer)
    requires OutboxOk(s) && StepEnabled(s, c, o, a)
    ensures var op := Effective(CallOp(s.calls[c], |s.born|, s.outbox, a), o);
            op.MarkOutbox? ==> !op.outboxStatus.Unsent? && (op.index < |s.outbox| ==> s.outbox[op.index].tries != [])
  {
    if s.calls[c].Batch? && s.calls[c].bpc.BMark? {
      assert s.calls[c].bpc.todo[0] < |s.outbox| ==> s.calls[c].bpc.sent in s.outbox[s.calls[c].bpc.todo[0]].tries;
    }
  }

  lemma WorkMarksNothing(s: State, x: nat, o: Outcome)
    requires x in s.execs && s.execs[x].offset < |s.log|
    ensures !Effective(WorkOp(ReqOf(s, x), s.execs[x].pc, s.clock, x), o).MarkOutbox?
  {
  }

  /** A row leaves Unsent only by the mark of a delivery made for it, and never returns. */
  lemma NeverUnsentAgain(s: State, e: Event, i: nat)
    requires OutboxOk(s) && Enabled(s, e) && i < |s.outbox|
    ensures i < |Apply(s, e).outbox| && RowMoves(s.outbox[i], Apply(s, e).outbox[i])
  {
    match e {
      case Work(x, o, _) =>
        WorkMarksNothing(s, x, o);
        RowMovesByOp(s.outbox, Effective(WorkOp(ReqOf(s, x), s.execs[x].pc, s.clock, x), o), i);
      case Step(c, o, a) =>
        MarksFollowAttempts(s, c, o, a);
        RowMovesByOp(s.outbox, Effective(CallOp(s.calls[c], |s.born|, s.outbox, a), o), i);
      case _ =>
    }
  }
}
