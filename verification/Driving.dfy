/** Runs of the protocol grown one event at a time, with what each event does spelled out: the
    bridge from the imperative code to the transition system. */
module Driving {
  import opened Types
  import opened Tables
  import opened Protocol

  ghost predicate Runs(s0: State, run: seq<Event>, s: State) {
    Legal(s0, run) && After(s0, run) == s
  }

  /** The parts of the state the imperative code holds change by `op` and nothing else. */
  ghost predicate Performs(s: State, s': State, op: Op) {
    && s'.jobs == JobsAfter(s.jobs, op) && s'.outbox == OutboxAfter(s.outbox, op)
    && s'.schedules == SchedulesAfter(s.schedules, op) && s'.log == LogAfter(s.log, op)
    && s'.paused == s.paused && s'.limit == s.limit && s'.clock == s.clock
  }

  lemma Start(s: State)
    ensures Runs(s, [], s)
  {
  }

  lemma DriveWork(s0: State, run: seq<Event>, s: State, x: nat, o: Outcome, success: bool) returns (run': seq<Event>, s': State)
    requires Runs(s0, run, s) && WorkEnabled(s, x, success)
    ensures Runs(s0, run', s') && run' == run + [Work(x, o, success)]
    ensures var e := s.execs[x]; var req := ReqOf(s, x);
            && Performs(s, s', Effective(WorkOp(req, e.pc, s.clock, x), o))
            && s'.born == s.born && s'.calls == s.calls
            && s'.execs == (if e.pc.Return? then s.execs - {x}
                            else s.execs[x := e.(pc := WorkNext(s, req, e.pc, o, success))])
            && s'.sem == WorkSem(s, e, req.typ)
            && s'.log[..|s.log|] == s.log
  {
    RunSnoc(s0, run, Work(x, o, success));
    run' := run + [Work(x, o, success)];
    s' := AfterWork(s, x, o, success);
  }

  lemma DriveCall(s0: State, run: seq<Event>, s: State, c: nat, o: Outcome, a: Answer) returns (run': seq<Event>, s': State)
    requires Runs(s0, run, s) && StepEnabled(s, c, o, a)
    ensures Runs(s0, run', s') && run' == run + [Step(c, o, a)]
    ensures Performs(s, s', Effective(CallOp(s.calls[c], |s.born|, s.outbox, a), o))
    ensures s'.born == s.born + CallBirths(s.calls[c], c) && s'.execs == s.execs && s'.sem == s.sem
    ensures s'.calls == s.calls[c := CallNext(s, c, o, a)]
  {
    RunSnoc(s0, run, Step(c, o, a));
    run' := run + [Step(c, o, a)];
    s' := AfterStep(s, c, o, a);
  }

  lemma DriveBegin(s: State, call: Call) returns (run: seq<Event>, s': State)
    requires Fresh(s, call)
    ensures Runs(s, run, s') && run == [Begin(call)]
    ensures s' == s.(calls := s.calls + [call])
  {
    Start(s);
    RunSnoc(s, [], Begin(call));
    run := [] + [Begin(call)];
    s' := s.(calls := s.calls + [call]);
  }
}
