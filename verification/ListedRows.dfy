/** What a promoter tick has listed stays dormant until the tick comes to it, when ticks do not
    overlap: a listed job may be cancelled meanwhile, but nothing is sent for it. */
module ListedRows {
  import opened Types
  import opened Tables
  import opened Protocol
  import opened Identity
  import opened Tokens
  import opened FaultFree
  import opened Conservation
  import opened ApiEffects

  ghost predicate ListOk(s: State, todo: seq<Due>) {
    && (forall i, k :: 0 <= i < k < |todo| ==> todo[i].id != todo[k].id)
    && (forall k :: 0 <= k < |todo| ==> Dormant(s, todo[k].id))
  }

  predicate OnePromoter(calls: seq<Call>) {
    forall c, d :: 0 <= c < |calls| && 0 <= d < |calls| && Promoting(calls[c]) && Promoting(calls[d]) ==> c == d
  }

  ghost predicate ListedOk(s: State) {
    OnePromoter(s.calls)
    && forall c :: 0 <= c < |s.calls| && s.calls[c].Promote? && s.calls[c].ppc.PEnqueue? ==> ListOk(s, s.calls[c].ppc.todo)
  }

  // ---- a dormant job stays dormant ----

  lemma DormantWork(s: State, x: nat, success: bool, j: nat)
    requires WorkEnabled(s, x, success) && Dormant(s, j)
    ensures Dormant(AfterWork(s, x, Ok, success), j)
  {
    assert ReqOf(s, x).job != j;
  }

  lemma DormantAppears(s: State, s': State, id: nat, row: Job, j: nat)
    requires (Unchanged(s, s') || Appears(s, s', id, row)) && Dormant(s, j)
    ensures Dormant(s', j)
  {
  }

  lemma DormantCancelled(s: State, s': State, k: nat, j: nat)
    requires (Unchanged(s, s') || GetsCancelled(s, s', k)) && Dormant(s, j)
    ensures Dormant(s', j)
  {
  }

  lemma DormantPromoted(s: State, s': State, k: nat, attempt: int, j: nat)
    requires GetsPromoted(s, s', k, attempt) && Dormant(s, j) && j != k
    ensures Dormant(s', j)
  {
  }

  ghost predicate KeepsDormant(s: State, s': State) {
    forall j :: Dormant(s, j) ==> Dormant(s', j)
  }

  // ---- the calls ----

  /** Call `c` may have changed, to one that promotes nothing it did not promote before. */
  lemma ListedKept(s: State, s': State, c: nat)
    requires ListedOk(s) && KeepsDormant(s, s') && OtherCalls(s, s', c)
    requires s'.calls[c].Promote? ==> c < |s.calls| && s'.calls[c] == s.calls[c]
    ensures ListedOk(s')
  {
    forall k | 0 <= k < |s'.calls| && s'.calls[k].Promote? && s'.calls[k].ppc.PEnqueue?
      ensures ListOk(s', s'.calls[k].ppc.todo)
    {
      assert s'.calls[k] == s.calls[k] && ListOk(s, s.calls[k].ppc.todo);
    }
  }

  lemma ListedSame(s: State, s': State)
    requires ListedOk(s) && KeepsDormant(s, s') && s'.calls == s.calls
    ensures ListedOk(s')
  {
    forall k | 0 <= k < |s'.calls| && s'.calls[k].Promote? && s'.calls[k].ppc.PEnqueue?
      ensures ListOk(s', s'.calls[k].ppc.todo)
    {
      assert ListOk(s, s.calls[k].ppc.todo);
    }
  }

  lemma ListedBegun(s: State, call: Call)
    requires ListedOk(s) && FEnabled(s, FBegin(call))
    ensures ListedOk(Begun(s, call))
  {
    var s' := Begun(s, call);
    forall k | 0 <= k < |s'.calls| && s'.calls[k].Promote? && s'.calls[k].ppc.PEnqueue?
      ensures ListOk(s', s'.calls[k].ppc.todo)
    {
      assert ListOk(s, s.calls[k].ppc.todo);
      assert forall j :: Dormant(s, j) ==> Dormant(s', j);
    }
  }

  /** A scheduled job in order is dormant. */
  lemma ScheduledDormant(s: State, j: nat)
    requires TokensOk(s) && j in s.jobs && s.jobs[j].status.Scheduled?
    ensures Dormant(s, j)
  {
    assert JobOk(s, j);
  }

  lemma ListOkWhenListed(s: State, s': State, ids: seq<nat>, now: int)
    requires TokensOk(s) && KeepsDormant(s, s') && DueIds(s.jobs, ids) && Smallest(ids, DueJobs(s.jobs, now), PROMOTE_LIMIT)
    ensures ListOk(s', Snapshot(s.jobs, ids))
  {
    forall k | 0 <= k < |ids|
      ensures Dormant(s', ids[k])
    {
      assert ids[k] in DueJobs(s.jobs, now);
      ScheduledDormant(s, ids[k]);
    }
  }

  lemma ListedList(s: State, c: nat, ids: seq<nat>)
    requires TokensOk(s) && ListedOk(s) && FEnabled(s, FList(c, ids)) && s.calls[c].Promote?
    ensures ListedOk(AfterStep(s, c, Ok, Rows(ids)))
  {
    var s' := AfterStep(s, c, Ok, Rows(ids));
    assert s'.jobs == s.jobs && s'.log == s.log && s'.outcomes == s.outcomes;
    assert KeepsDormant(s, s');
    assert s'.calls == s.calls[c := Promote(s.calls[c].now, PEnqueue(Snapshot(s.jobs, ids)))];
    ListOkWhenListed(s, s', ids, s.calls[c].now);
    forall k | 0 <= k < |s'.calls| && s'.calls[k].Promote? && s'.calls[k].ppc.PEnqueue?
      ensures ListOk(s', s'.calls[k].ppc.todo)
    {
      assert k != c ==> ListOk(s, s.calls[k].ppc.todo);
    }
  }

  /** The head of a list is promoted; the others were dormant and are not touched. */
  lemma ListedPromote(s: State, c: nat)
    requires ListedOk(s) && FEnabled(s, FPromote(c))
    ensures Dormant(s, s.calls[c].ppc.todo[0].id) && ListedOk(FApply(s, FPromote(c)))
  {
    var todo := s.calls[c].ppc.todo;
    assert ListOk(s, todo);
    PromoteEffect(s, c);
    var s' := FApply(s, FPromote(c));
    forall k | 0 <= k < |s'.calls| && s'.calls[k].Promote? && s'.calls[k].ppc.PEnqueue?
      ensures ListOk(s', s'.calls[k].ppc.todo)
    {
      if k == c {
        TailDormant(s, s', todo);
      } else {
        assert s'.calls[k] == s.calls[k] && s.calls[k].ppc.todo == [];
      }
    }
  }

  lemma TailDormant(s: State, s': State, todo: seq<Due>)
    requires todo != [] && ListOk(s, todo) && GetsPromoted(s, s', todo[0].id, todo[0].row.attempt)
    ensures ListOk(s', todo[1..])
  {
    forall k | 0 <= k < |todo| - 1
      ensures Dormant(s', todo[1..][k].id)
    {
      DormantPromoted(s, s', todo[0].id, todo[0].row.attempt, todo[k + 1].id);
    }
  }
}
