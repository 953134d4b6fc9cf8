/** When a cancelled job can never leave that status again, over all continuations. */
module CancelledExactly {
  import opened Types
  import opened Tables
  import opened Protocol
  import opened Identity
  import opened EveryRun
  import opened Cancellation

  /** Some continuation takes the job out of `cancelled`. */
  ghost predicate Revivable(s: State, j: nat) {
    exists run :: Legal(s, run) && !IsCancelled(After(s, run), j)
  }

  lemma RevivedNow(s: State, e: Event, j: nat)
    requires Enabled(s, e) && !IsCancelled(Apply(s, e), j)
    ensures Revivable(s, j)
  {
    var run := [e];
    assert run[1..] == [];
    assert Legal(Apply(s, e), []) && After(Apply(s, e), []) == Apply(s, e);
    assert Legal(s, run) && After(s, run) == Apply(s, e);
  }

  lemma RevivedLater(s: State, e: Event, j: nat)
    requires Enabled(s, e) && Revivable(Apply(s, e), j)
    ensures Revivable(s, j)
  {
    var rest :| Legal(Apply(s, e), rest) && !IsCancelled(After(Apply(s, e), rest), j);
    var run := [e] + rest;
    assert run[0] == e && run[1..] == rest;
    assert Legal(s, run) && After(s, run) == After(Apply(s, e), rest);
  }

  // ---- an execution past the check ----

  lemma WriteRevives(s: State, x: nat, j: nat)
    requires x in s.execs && s.execs[x].offset < |s.log| && ReqOf(s, x).job == j && j in s.jobs
    requires PastCheck(s.execs[x].pc) && !s.execs[x].pc.Handle?
    ensures !IsCancelled(AfterWork(s, x, Ok, true), j)
  {
  }

  /** Whatever the handler says, a status write follows. */
  lemma HandlerLeadsToWrite(s: State, x: nat, success: bool)
    requires WorkEnabled(s, x, success) && s.execs[x].pc.Handle?
    ensures var s' := AfterWork(s, x, Ok, success);
            && s'.jobs == s.jobs && s'.log == s.log && x in s'.execs && s'.execs[x].offset == s.execs[x].offset
            && PastCheck(s'.execs[x].pc) && !s'.execs[x].pc.Handle? && !s'.execs[x].pc.Acquire?
  {
  }

  lemma ExecutionRevives(s: State, x: nat, j: nat)
    requires x in s.execs && s.execs[x].offset < |s.log| && ReqOf(s, x).job == j && j in s.jobs && PastCheck(s.execs[x].pc)
    ensures Revivable(s, j)
  {
    if s.execs[x].pc.Handle? {
      var req := ReqOf(s, x);
      var success := HandlerMay(req.typ, req.payload, req.attempt, true);
      assert !success ==> HandlerMay(req.typ, req.payload, req.attempt, false);
      HandlerLeadsToWrite(s, x, success);
      var s' := Apply(s, Work(x, Ok, success));
      WriteRevives(s', x, j);
      RevivedNow(s', Work(x, Ok, true), j);
      RevivedLater(s, Work(x, Ok, success), j);
    } else {
      WriteRevives(s, x, j);
      RevivedNow(s, Work(x, Ok, true), j);
    }
  }

  // ---- a promoter that has listed the job ----

  /** A failing enqueue or write takes the promoter to its next row. */
  lemma PromoterSkips(s: State, c: nat)
    requires c < |s.calls| && s.calls[c].Promote? && !s.calls[c].ppc.PList? && s.calls[c].ppc.todo != []
    ensures StepEnabled(s, c, Failure, Nothing)
    ensures var s' := AfterStep(s, c, Failure, Nothing);
            s'.jobs == s.jobs && s'.calls == s.calls[c := Promote(s.calls[c].now, PEnqueue(s.calls[c].ppc.todo[1..]))]
  {
  }

  lemma PromoterEnqueues(s: State, c: nat)
    requires c < |s.calls| && s.calls[c].Promote? && s.calls[c].ppc.PEnqueue? && s.calls[c].ppc.todo != []
    ensures StepEnabled(s, c, Ok, Nothing)
    ensures var s' := AfterStep(s, c, Ok, Nothing);
            s'.jobs == s.jobs && s'.calls == s.calls[c := Promote(s.calls[c].now, PWrite(s.calls[c].ppc.todo))]
  {
  }

  lemma PromoterWrites(s: State, c: nat, j: nat)
    requires c < |s.calls| && s.calls[c].Promote? && s.calls[c].ppc.PWrite? && s.calls[c].ppc.todo != []
    requires s.calls[c].ppc.todo[0].id == j
    ensures StepEnabled(s, c, Ok, Nothing) && !IsCancelled(AfterStep(s, c, Ok, Nothing), j)
  {
  }

  lemma {:induction false} PromoterRevives(s: State, c: nat, j: nat, k: nat)
    requires c < |s.calls| && s.calls[c].Promote? && !s.calls[c].ppc.PList?
    requires k < |s.calls[c].ppc.todo| && s.calls[c].ppc.todo[k].id == j
    ensures Revivable(s, j)
    decreases k, s.calls[c].ppc.PEnqueue?
  {
    if k > 0 {
      PromoterSkips(s, c);
      PromoterRevives(AfterStep(s, c, Failure, Nothing), c, j, k - 1);
      RevivedLater(s, Step(c, Failure, Nothing), j);
    } else if s.calls[c].ppc.PEnqueue? {
      PromoterEnqueues(s, c);
      PromoterRevives(AfterStep(s, c, Ok, Nothing), c, j, 0);
      RevivedLater(s, Step(c, Ok, Nothing), j);
    } else {
      PromoterWrites(s, c, j);
      RevivedNow(s, Step(c, Ok, Nothing), j);
    }
  }

  lemma NotClosedRevives(s: State, j: nat)
    requires IsCancelled(s, j) && !Closed(s, j)
    ensures Revivable(s, j)
  {
    if !NoneRunning(s.execs, s.log, j) {
      var x :| x in s.execs && s.execs[x].offset < |s.log| && s.log[s.execs[x].offset].req.job == j && PastCheck(s.execs[x].pc);
      ExecutionRevives(s, x, j);
    } else {
      var c :| 0 <= c < |s.calls| && s.calls[c].Promote? && !s.calls[c].ppc.PList? && !NotDue(s.calls[c].ppc.todo, j);
      var k :| 0 <= k < |s.calls[c].ppc.todo| && s.calls[c].ppc.todo[k].id == j;
      PromoterRevives(s, c, j, k);
    }
  }

  /** The job stays cancelled in every continuation. */
  ghost predicate CancelledForever(s: State, j: nat) {
    forall run :: Legal(s, run) ==> IsCancelled(After(s, run), j)
  }

  lemma ClosedIsForever(s: State, j: nat)
    requires Reachable(s) && Closed(s, j)
    ensures CancelledForever(s, j)
  {
    forall run | Legal(s, run) ensures IsCancelled(After(s, run), j) { CancelledForGood(s, run, j); }
  }

  lemma RevivableIsNotForever(s: State, j: nat)
    requires Revivable(s, j)
    ensures !CancelledForever(s, j)
  {
    var run :| Legal(s, run) && !IsCancelled(After(s, run), j);
  }

  /** A cancelled job stays cancelled in every continuation, whatever fails, is redelivered or
      crashes, exactly when no execution of it is past the cancelled check with a status write left
      and no promoter's list still holds it. */
  lemma CancelledForeverExactly(s: State, j: nat)
    requires Reachable(s) && IsCancelled(s, j)
    ensures CancelledForever(s, j) <==> NoneRunning(s.execs, s.log, j) && NoneListed(s.calls, j)
  {
    if Closed(s, j) {
      ClosedIsForever(s, j);
    } else {
      NotClosedRevives(s, j);
      RevivableIsNotForever(s, j);
    }
  }
}
