/** What an API call, a promotion or a cron firing does to the tables when nothing comes between
    its statements and none fails. */
module ApiEffects {
  import opened Types
  import opened Tables
  import opened Protocol
  import opened Identity
  import opened Accounting
  import opened Tokens
  import opened FaultFree
  import opened Conservation

  /** All but call `c` stand where they stood. */
  ghost predicate OtherCalls(s: State, s': State, c: nat) {
    && c <= |s.calls| && c < |s'.calls| && |s.calls| <= |s'.calls| <= Max(|s.calls|, c + 1)
    && (forall k :: 0 <= k < |s.calls| && k != c ==> s'.calls[k] == s.calls[k])
    && s'.schedules.Keys == s.schedules.Keys
    && (forall id :: id in s.schedules ==> s'.schedules[id].maxRetry == s.schedules[id].maxRetry)
  }

  lemma OthersThrough(s: State, s1: State, s2: State, c: nat)
    requires OtherCalls(s, s1, c) && OtherCalls(s1, s2, c)
    ensures OtherCalls(s, s2, c)
  {
  }

  lemma FinishOne(s: State, c: nat, n: nat)
    requires n > 0 && StepEnabled(s, c, Ok, Nothing)
    ensures Finish(s, c, n) == Finish(AfterStep(s, c, Ok, Nothing), c, n - 1)
  {
  }

  // ---- submit ----

  lemma SubmitDone(s: State, c: nat, n: nat)
    requires c < |s.calls| && s.calls[c].Submit? && s.calls[c].spc.SDone?
    ensures Finish(s, c, n) == s
  {
  }

  lemma SubmitSends(s: State, c: nat, n: nat)
    requires n >= 1 && c < |s.calls| && s.calls[c].Submit? && s.calls[c].spc.SEnqueue?
    ensures var r := s.calls[c].req; var id := s.calls[c].spc.id; var s' := Finish(s, c, n);
            && SameRuns(s, s') && s'.jobs == s.jobs && OtherCalls(s, s', c) && s'.calls[c].Submit?
            && s'.log == s.log + [Entry(SubmitMessage(r, id), BySubmit)]
  {
    FinishOne(s, c, n);
    SubmitDone(AfterStep(s, c, Ok, Nothing), c, n - 1);
  }

  /** The look at the clock changes nothing. */
  lemma SubmitLooks(s: State, c: nat)
    requires c < |s.calls| && s.calls[c].Submit? && s.calls[c].spc.SCheck?
    ensures StepEnabled(s, c, Ok, Nothing)
    ensures var r := s.calls[c].req; var id := s.calls[c].spc.id; var s' := AfterStep(s, c, Ok, Nothing);
            && SameRuns(s, s') && s'.jobs == s.jobs && s'.log == s.log && OtherCalls(s, s', c)
            && s'.calls[c] == Submit(r, if r.runAt > 0 && r.runAt > s.clock then SDone(Some(id)) else SEnqueue(id))
  {
  }

  lemma SubmitChecks(s: State, c: nat, n: nat)
    requires n >= 2 && c < |s.calls| && s.calls[c].Submit? && s.calls[c].spc.SCheck?
    ensures var r := s.calls[c].req; var id := s.calls[c].spc.id; var s' := Finish(s, c, n);
            && SameRuns(s, s') && s'.jobs == s.jobs && OtherCalls(s, s', c) && s'.calls[c].Submit?
            && s'.log == if r.runAt > 0 && r.runAt > s.clock then s.log else s.log + [Entry(SubmitMessage(r, id), BySubmit)]
  {
    var s1 := AfterStep(s, c, Ok, Nothing);
    SubmitLooks(s, c);
    FinishOne(s, c, n);
    if s1.calls[c].spc.SDone? {
      SubmitDone(s1, c, n - 1);
    } else {
      SubmitSends(s1, c, n - 1);
      OthersThrough(s, s1, Finish(s1, c, n - 1), c);
    }
  }

  /** The insert: the row appears, or the call is over. */
  lemma SubmitInserts(s: State, c: nat)
    requires c < |s.calls| && s.calls[c].Submit? && s.calls[c].spc.SCreate?
    ensures StepEnabled(s, c, Ok, Nothing)
    ensures var r := s.calls[c].req; var s' := AfterStep(s, c, Ok, Nothing);
            && SameRuns(s, s') && s'.log == s.log && s'.clock == s.clock && OtherCalls(s, s', c)
            && if Insertable(s.jobs, |s.born|, SubmitRow(r))
               then s'.calls[c] == Submit(r, SCheck(|s.born|)) && s'.jobs == s.jobs[|s.born| := SubmitRow(r)]
               else s'.calls[c] == Submit(r, SDone(None)) && s'.jobs == s.jobs
  {
  }

  lemma SubmitCreates(s: State, c: nat, n: nat)
    requires n >= 3 && c < |s.calls| && s.calls[c].Submit? && s.calls[c].spc.SCreate?
    requires s.calls[c].req.maxRetry < MAX_INT32 && !(0 < s.calls[c].req.runAt <= s.clock)
    ensures var s' := Finish(s, c, n);
            && (Unchanged(s, s') || Appears(s, s', |s.born|, SubmitRow(s.calls[c].req)))
            && OtherCalls(s, s', c) && s'.calls[c].Submit?
  {
    var s1 := AfterStep(s, c, Ok, Nothing);
    SubmitInserts(s, c);
    FinishOne(s, c, n);
    if s1.calls[c].spc.SCheck? {
      SubmitChecks(s1, c, n - 1);
      OthersThrough(s, s1, Finish(s1, c, n - 1), c);
    } else {
      SubmitDone(s1, c, n - 1);
    }
  }

  /** The lookup, on behalf of a call just begun. */
  lemma SubmitLooksUp(s: State, r: SubmitReq)
    ensures var c := |s.calls|; var s0 := Begun(s, Submit(r, SLookup));
            StepEnabled(s0, c, Ok, Nothing) &&
            var s1 := AfterStep(s0, c, Ok, Nothing);
            && Unchanged(s, s1) && s1.born == s.born && s1.clock == s.clock && OtherCalls(s, s1, c)
            && s1.calls[c].Submit? && s1.calls[c].req == r && (s1.calls[c].spc.SCreate? || s1.calls[c].spc.SDone?)
  {
  }

  lemma SubmitEffect(s: State, r: SubmitReq)
    requires r.maxRetry < MAX_INT32 && !(0 < r.runAt <= s.clock)
    ensures var c := |s.calls|; var s' := Finish(Begun(s, Submit(r, SLookup)), c, 4);
            && (Unchanged(s, s') || Appears(s, s', |s.born|, SubmitRow(r)))
            && OtherCalls(s, s', c) && s'.calls[c].Submit?
  {
    var c := |s.calls|;
    var s0 := Begun(s, Submit(r, SLookup));
    var s1 := AfterStep(s0, c, Ok, Nothing);
    SubmitLooksUp(s, r);
    FinishOne(s0, c, 4);
    if s1.calls[c].spc.SCreate? {
      SubmitCreates(s1, c, 3);
      OthersThrough(s, s1, Finish(s1, c, 3), c);
    } else {
      SubmitDone(s1, c, 3);
    }
  }

  // ---- cancel ----

  lemma CancelDone(s: State, c: nat, n: nat)
    requires c < |s.calls| && s.calls[c].Cancel? && s.calls[c].cpc.CDone?
    ensures Finish(s, c, n) == s
  {
  }

  lemma CancelEffect(s: State, j: nat)
    ensures var c := |s.calls|; var s' := Finish(Begun(s, Cancel(j, CLookup)), c, 2);
            && OtherCalls(s, s', c) && s'.calls[c].Cancel?
            && if j in s.jobs && !s.jobs[j].status.Completed? && !s.jobs[j].status.Processing?
               then GetsCancelled(s, s', j) else Unchanged(s, s')
  {
    var c := |s.calls|;
    var s0 := Begun(s, Cancel(j, CLookup));
    var s1 := AfterStep(s0, c, Ok, Nothing);
    FinishOne(s0, c, 2);
    if s1.calls[c].cpc.CWrite? {
      FinishOne(s1, c, 1);
      CancelDone(AfterStep(s1, c, Ok, Nothing), c, 0);
    } else {
      CancelDone(s1, c, 1);
    }
  }

  // ---- replay of an archived job ----

  lemma ReplayDone(s: State, c: nat, n: nat)
    requires c < |s.calls| && s.calls[c].Replay? && s.calls[c].rpc.RDone?
    ensures Finish(s, c, n) == s
  {
  }

  lemma ReplaySends(s: State, c: nat)
    requires IdsOk(s) && c < |s.calls| && s.calls[c].Replay? && s.calls[c].rpc.REnqueue?
    ensures var pc := s.calls[c].rpc; var s' := Finish(s, c, 2);
            && Appears(s, s', |s.born|, ReplayRow(s.calls[c].queue, pc.typ, pc.payload, pc.priority))
            && OtherCalls(s, s', c) && s'.calls[c].Replay?
  {
    var s1 := AfterStep(s, c, Ok, Nothing);
    FinishOne(s, c, 2);
    FinishOne(s1, c, 1);
    ReplayDone(AfterStep(s1, c, Ok, Nothing), c, 0);
  }

  /** The lookup, on behalf of a call just begun. */
  lemma ReplayLooks(s: State, j: nat, q: string)
    ensures var c := |s.calls|; var s0 := Begun(s, Replay(j, q, RLookup));
            StepEnabled(s0, c, Ok, Nothing) &&
            var s1 := AfterStep(s0, c, Ok, Nothing);
            && SameRuns(s, s1) && s1.jobs == s.jobs && s1.log == s.log && s1.born == s.born && OtherCalls(s, s1, c)
            && s1.calls[c] == Replay(j, q, if j in s.jobs && s.jobs[j].status.Archived?
                                           then REnqueue(s.jobs[j].typ, s.jobs[j].payload, s.jobs[j].priority) else RDone(false))
  {
  }

  lemma ReplayIds(s: State, j: nat, q: string)
    requires IdsOk(s)
    ensures var c := |s.calls|; var s0 := Begun(s, Replay(j, q, RLookup));
            StepEnabled(s0, c, Ok, Nothing) && IdsOk(AfterStep(s0, c, Ok, Nothing))
  {
    IdsStep(s, Begin(Replay(j, q, RLookup)));
    IdsStep(Begun(s, Replay(j, q, RLookup)), Step(|s.calls|, Ok, Nothing));
  }

  lemma ReplayEffect(s: State, j: nat, q: string)
    requires IdsOk(s)
    ensures var c := |s.calls|; var s' := Finish(Begun(s, Replay(j, q, RLookup)), c, 3);
            && OtherCalls(s, s', c) && s'.calls[c].Replay?
            && if j in s.jobs && s.jobs[j].status.Archived?
               then Appears(s, s', |s.born|, ReplayRow(q, s.jobs[j].typ, s.jobs[j].payload, s.jobs[j].priority))
               else Unchanged(s, s')
  {
    var c := |s.calls|;
    var s0 := Begun(s, Replay(j, q, RLookup));
    var s1 := AfterStep(s0, c, Ok, Nothing);
    ReplayLooks(s, j, q);
    FinishOne(s0, c, 3);
    if j in s.jobs && s.jobs[j].status.Archived? {
      ReplayIds(s, j, q);
      ReplaySends(s1, c);
      OthersThrough(s, s1, Finish(s1, c, 2), c);
    } else {
      ReplayDone(s1, c, 2);
    }
  }

  // ---- promotion of the next job of a tick ----

  lemma PromoteEffect(s: State, c: nat)
    requires HasTodo(s, c) && s.calls[c].Promote?
    requires Dormant(s, s.calls[c].ppc.todo[0].id)
    ensures var d := s.calls[c].ppc.todo[0]; var s' := Finish(s, c, 2);
            && GetsPromoted(s, s', d.id, d.row.attempt) && OtherCalls(s, s', c)
            && s'.calls[c] == Promote(s.calls[c].now, PEnqueue(s.calls[c].ppc.todo[1..]))
            && s'.schedules == s.schedules
  {
    var s1 := AfterStep(s, c, Ok, Nothing);
    FinishOne(s, c, 2);
    FinishOne(s1, c, 1);
  }

  // ---- firing of the next schedule of a tick ----

  /** The row is made first. */
  lemma FireCreates(s: State, c: nat)
    requires IdsOk(s) && HasTodo(s, c) && s.calls[c].Cron?
    ensures StepEnabled(s, c, Ok, Nothing)
    ensures var s' := AfterStep(s, c, Ok, Nothing);
            && SameRuns(s, s') && s'.log == s.log && OtherCalls(s, s', c) && |s.born| !in s.jobs
            && s'.jobs == s.jobs[|s.born| := CronRow(s.calls[c].tpc.todo[0])]
            && s'.calls[c] == Cron(s.calls[c].now, TEnqueue(s.calls[c].tpc.todo, |s.born|))
  {
  }

  /** Then the message is sent. */
  lemma FireSends(s: State, c: nat, id: nat)
    requires c < |s.calls| && s.calls[c].Cron? && s.calls[c].tpc.TEnqueue? && s.calls[c].tpc.todo != [] && s.calls[c].tpc.job == id
    ensures StepEnabled(s, c, Ok, Nothing)
    ensures var s' := AfterStep(s, c, Ok, Nothing); var d := s.calls[c].tpc.todo[0];
            && SameRuns(s, s') && s'.jobs == s.jobs && OtherCalls(s, s', c)
            && s'.log == s.log + [Entry(CronMessage(d, id), ByCron(d.id, d.row.nextRun))]
            && s'.calls[c] == Cron(s.calls[c].now, TUpdate(s.calls[c].tpc.todo))
  {
  }

  /** And the schedule moves on. */
  lemma FireMoves(s: State, c: nat, next: int)
    requires c < |s.calls| && s.calls[c].Cron? && s.calls[c].tpc.TUpdate? && s.calls[c].tpc.todo != []
    ensures StepEnabled(s, c, Ok, NextAt(next))
    ensures var s' := AfterStep(s, c, Ok, NextAt(next));
            && SameRuns(s, s') && s'.jobs == s.jobs && s'.log == s.log && OtherCalls(s, s', c)
            && s'.calls[c] == Cron(s.calls[c].now, TCreate(s.calls[c].tpc.todo[1..]))
  {
  }

  lemma FireEffect(s: State, c: nat, next: int)
    requires IdsOk(s) && HasTodo(s, c) && s.calls[c].Cron? && s.calls[c].tpc.todo[0].row.maxRetry < MAX_INT32
    ensures var d := s.calls[c].tpc.todo[0]; var s' := Fire(s, c, next);
            && Appears(s, s', |s.born|, CronRow(d)) && OtherCalls(s, s', c)
            && s'.calls[c] == Cron(s.calls[c].now, TCreate(s.calls[c].tpc.todo[1..]))
  {
    var s1 := AfterStep(s, c, Ok, Nothing);
    FireCreates(s, c);
    FireSends(s1, c, |s.born|);
    FinishOne(s, c, 2);
    FinishOne(s1, c, 1);
    FireMoves(AfterStep(s1, c, Ok, Nothing), c, next);
  }
}
