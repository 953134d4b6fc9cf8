/** No message exists, queued or running, for a job whose run_at lies in the future. */
module NeverEarly {
  import opened Types
  import opened Tables
  import opened Protocol
  import opened Identity

  predicate OnTime(log: seq<Entry>, born: seq<Birth>, clock: int) {
    forall i :: 0 <= i < |log| ==>
      log[i].req.job < |born| && (born[log[i].req.job].runAt > 0 ==> born[log[i].req.job].runAt <= clock)
  }

  lemma CallSendsOnTime(s: State, c: nat, o: Outcome, a: Answer)
    requires IdsOk(s) && StepEnabled(s, c, o, a)
    ensures var op := CallOp(s.calls[c], |s.born|, s.outbox, a);
            op.Enqueue? ==> OnTime([op.entry], s.born + CallBirths(s.calls[c], c), s.clock)
  {
    assert CallOk(s, c);
  }

  lemma OnTimeLog(log: seq<Entry>, op: Op, born: seq<Birth>, born': seq<Birth>, clock: int)
    requires OnTime(log, born, clock) && |born| <= |born'| && born'[..|born|] == born
    requires op.Enqueue? ==> OnTime([op.entry], born', clock)
    ensures OnTime(LogAfter(log, op), born', clock)
  {
    assert forall j :: 0 <= j < |born| ==> born'[j] == born'[..|born|][j];
    if op.Enqueue? {
      assert [op.entry][0] == op.entry;
    }
  }

  lemma OnTimeStep(s: State, e: Event)
    requires IdsOk(s) && Enabled(s, e) && OnTime(s.log, s.born, s.clock)
    ensures OnTime(Apply(s, e).log, Apply(s, e).born, Apply(s, e).clock)
  {
    match e {
      case Step(c, o, a) =>
        CallSendsOnTime(s, c, o, a);
        OnTimeLog(s.log, Effective(CallOp(s.calls[c], |s.born|, s.outbox, a), o), s.born,
                  s.born + CallBirths(s.calls[c], c), s.clock);
      case _ =>
    }
  }
}
