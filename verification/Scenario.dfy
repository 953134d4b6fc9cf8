/** Small runs of one job, step by step: what the witnesses are built from. */
module Scenario {
  import opened Types
  import opened Tables
  import opened Protocol

  lemma ReachInit(clock: int)
    ensures Reachable(Init(0, clock))
  {
    var s := Init(0, clock);
    assert Legal(s, []) && After(s, []) == s;
  }

  lemma ReachStep(s: State, e: Event)
    requires Reachable(s) && Enabled(s, e)
    ensures Reachable(Apply(s, e))
  {
    var limit: int, clock: int, run: seq<Event> :| Legal(Init(limit, clock), run) && After(Init(limit, clock), run) == s;
    RunSnoc(Init(limit, clock), run, e);
  }

  // ---- the first submit ----

  /** A submit without key. */
  predicate Plain(r: SubmitReq) {
    r.typ != "" && r.key == ""
  }

  /** The first call is a submit, standing at `pc`; nothing else has happened yet. */
  ghost predicate Submitting(s: State, r: SubmitReq, pc: SubmitPc) {
    && Plain(r) && s.calls == [Submit(r, pc)] && s.limit == 0 && s.paused == map["default" := false]
    && s.execs == map[] && s.nextExec == 0 && s.taken == {} && s.outcomes == map[] && s.outbox == []
    && s.schedules == map[]
    && (pc.SLookup? || pc.SCreate? ==> s.jobs == map[] && s.born == [] && s.log == [])
    && (pc.SCheck? || pc.SEnqueue? || pc.SDone? ==> s.jobs == map[0 := SubmitRow(r)] && s.born == [BirthOf(r, 0)])
    && (pc.SCheck? || pc.SEnqueue? ==> s.log == [])
  }

  lemma SubmitBegins(r: SubmitReq, clock: int)
    requires Plain(r)
    ensures Submitting(Apply(Init(0, clock), Begin(Submit(r, SLookup))), r, SLookup)
  {
  }

  lemma Looks(s: State, r: SubmitReq)
    requires Submitting(s, r, SLookup)
    ensures StepEnabled(s, 0, Ok, Nothing) && Submitting(AfterStep(s, 0, Ok, Nothing), r, SCreate)
    ensures AfterStep(s, 0, Ok, Nothing).clock == s.clock
  {
  }

  lemma Creates(s: State, r: SubmitReq)
    requires Submitting(s, r, SCreate)
    ensures StepEnabled(s, 0, Ok, Nothing) && Submitting(AfterStep(s, 0, Ok, Nothing), r, SCheck(0))
    ensures AfterStep(s, 0, Ok, Nothing).clock == s.clock
  {
  }

  lemma Checks(s: State, r: SubmitReq)
    requires Submitting(s, r, SCheck(0))
    ensures StepEnabled(s, 0, Ok, Nothing)
    ensures var s' := AfterStep(s, 0, Ok, Nothing);
            && s'.clock == s.clock && s'.log == []
            && Submitting(s', r, if r.runAt > 0 && r.runAt > s.clock then SDone(Some(0)) else SEnqueue(0))
  {
  }

  lemma Enqueues(s: State, r: SubmitReq)
    requires Submitting(s, r, SEnqueue(0))
    ensures StepEnabled(s, 0, Ok, Nothing)
    ensures var s' := AfterStep(s, 0, Ok, Nothing);
            && s'.clock == s.clock && Submitting(s', r, SDone(Some(0)))
            && s'.log == [Entry(SubmitMessage(r, 0), BySubmit)]
  {
  }

  lemma Created(r: SubmitReq, clock: int) returns (s: State)
    requires Plain(r)
    ensures Reachable(s) && Submitting(s, r, SCheck(0)) && s.clock == clock
  {
    ReachInit(clock);
    ReachStep(Init(0, clock), Begin(Submit(r, SLookup)));
    SubmitBegins(r, clock);
    s := Apply(Init(0, clock), Begin(Submit(r, SLookup)));
    Looks(s, r);
    ReachStep(s, Step(0, Ok, Nothing));
    s := AfterStep(s, 0, Ok, Nothing);
    Creates(s, r);
    ReachStep(s, Step(0, Ok, Nothing));
    s := AfterStep(s, 0, Ok, Nothing);
  }

  // ---- executions ----

  /** The table has job `j` in status `st`, the log holds `req` for it at offset `m`, and execution `x`
      of that message stands at `pc`. Nothing is limited or paused. */
  ghost predicate Stands(s: State, m: nat, req: JobRequest, x: nat, pc: Pc, st: Status) {
    && s.limit == 0 && s.paused == map["default" := false] && req.queue == "default"
    && m < |s.log| && s.log[m].req == req && req.job in s.jobs && s.jobs[req.job].status == st
    && x in s.execs && s.execs[x] == Exec(0, m, pc) && m in s.taken
  }

  function StatusNext(pc: Pc, st: Status): Status {
    match pc
    case MarkProcessing => Processing
    case MarkUnknown => Failed
    case MarkFailed => Failed
    case Archive => Archived
    case Complete => Completed
    case CompleteEmail => Completed
    case _ => st
  }

  lemma Taken(s: State, m: nat, req: JobRequest, st: Status)
    requires s.limit == 0 && s.paused == map["default" := false] && req.queue == "default"
    requires m < |s.log| && s.log[m].req == req && req.job in s.jobs && s.jobs[req.job].status == st
    ensures Stands(Apply(s, Deliver(m, 0)), m, req, s.nextExec, GetQueue, st)
  {
  }

  /** Where an execution that is not cancelled goes next, every call going through. */
  function PcNext(req: JobRequest, pc: Pc, success: bool): Pc {
    match pc
    case GetQueue => Acquire
    case Acquire => Lookup
    case Lookup => MarkProcessing
    case MarkProcessing =>
      if req.typ == EMAIL then (if ValidEmailPayload(req.payload) then CompleteEmail else MarkFailed)
      else if Registered(req.typ) then Handle
      else MarkUnknown
    case Handle => if success then Complete else MarkFailed
    case MarkFailed => if Inc32(req.attempt) <= MaxRetry(req) then Reenqueue else Archive
    case _ => Return(true)
  }

  lemma Advances(s: State, m: nat, req: JobRequest, x: nat, pc: Pc, st: Status, success: bool)
    requires Stands(s, m, req, x, pc, st) && !st.Cancelled? && !pc.Return?
    requires pc.Handle? ==> HandlerMay(req.typ, req.payload, req.attempt, success)
    ensures WorkEnabled(s, x, success)
    ensures var s' := AfterWork(s, x, Ok, success);
            && Stands(s', m, req, x, PcNext(req, pc, success), StatusNext(pc, st))
            && s'.calls == s.calls && s'.born == s.born && s'.clock == s.clock && s'.jobs.Keys == s.jobs.Keys
            && s'.log == (if pc.Reenqueue? then s.log + [Entry(RetryRequest(req), ByRetry)] else s.log)
            && (forall k :: k in s.jobs && k != req.job ==> s'.jobs[k] == s.jobs[k])
  {
  }
}
