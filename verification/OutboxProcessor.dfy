/** The outbox processor: one batch as the code runs it, and what a batch does to the table. */
module OutboxProcessor {
  import opened Types
  import opened Tables
  import opened Protocol
  import opened Submission
  import opened Driving
  import opened Calls
  import opened PostgresStore

  /** Whether the side effect of a row comes off: only the email handler can fail. */
  predicate SideEffect(row: OutboxRow, i: nat, env: CallEnv)
    requires env.BatchEnv?
  {
    row.typ == EMAIL ==> env.delivers(i)
  }

  /** A row after it was attempted, and marked if the write took effect. */
  function RowDone(row: OutboxRow, i: nat, env: CallEnv): OutboxRow
    requires env.BatchEnv?
  {
    var sent := SideEffect(row, i, env);
    row.(tries := row.tries + [sent],
         status := if Applied(env.writes(i)) then (if sent then Sent else SendFailed) else row.status)
  }

  /** The table after the rows of a batch have been dealt with one by one. */
  function BatchRows(outbox: seq<OutboxRow>, ids: seq<nat>, env: CallEnv): seq<OutboxRow>
    requires env.BatchEnv?
  {
    if ids == [] then outbox
    else
      var i, before := ids[|ids| - 1], BatchRows(outbox, ids[..|ids| - 1], env);
      if i < |before| then before[i := RowDone(before[i], i, env)] else before
  }

  class Processor {
    const store: Store

    constructor (store: Store)
      ensures this.store == store
    {
      this.store := store;
    }

    ghost predicate Shows(s: State)
      reads store
    {
      store.Shows(s)
    }

    ghost predicate At(s0: State, run: seq<Event>, s: State, env: CallEnv, pc: BatchPc)
      reads store
    {
      Shows(s) && Made(s0, Batch(BList), run, s, env) && s.calls[|s0.calls|] == Batch(pc) && env.BatchEnv?
    }

    /** A batch: each row listed is attempted once and then marked; failed writes are not looked at. */
    method RunOutboxBatch(env: CallEnv, ghost s0: State)
      returns (ghost ids: seq<nat>, ghost run: seq<Event>, ghost s: State)
      requires Shows(s0) && env.BatchEnv?
      modifies store`outbox
      ensures At(s0, run, s, WithIds(env, ids), BSend([]))
      ensures if env.list.Ok? then Smallest(ids, UnsentRows(s0.outbox), 10) else ids == []
      ensures store.outbox == BatchRows(s0.outbox, ids, env)
      ensures if env.list.Ok? then OldestUnsent(ids, s0.outbox, 10) else ids == []
      ensures |store.outbox| == |s0.outbox|
      ensures forall i: nat :: i < |s0.outbox| ==>
                var row := s0.outbox[i]; var sent := row.typ != "email" || env.delivers(i);
                store.outbox[i] ==
                  if i !in ids then row
                  else if env.writes(i).Failure? then row.(tries := row.tries + [sent])
                  else row.(tries := row.tries + [sent], status := if sent then Sent else SendFailed)
      ensures forall i :: i in ids ==> (i in UnsentRows(store.outbox) <==> !Applied(env.writes(i)))
      ensures (forall i: nat :: Applied(env.writes(i))) ==> UnsentRows(store.outbox) == UnsentRows(s0.outbox) - Ids(ids)
    {
      ids, run, s := ListAndSend(env, s0);
      BatchLeaves(s0.outbox, ids, env);
      BatchWrites(s0.outbox, ids, env);
    }

    method ListAndSend(env: CallEnv, ghost s0: State)
      returns (ghost ids: seq<nat>, ghost run: seq<Event>, ghost s: State)
      requires Shows(s0) && env.BatchEnv?
      modifies store`outbox
      ensures At(s0, run, s, WithIds(env, ids), BSend([]))
      ensures if env.list.Ok? then Smallest(ids, UnsentRows(s0.outbox), 10) && OldestUnsent(ids, s0.outbox, 10) else ids == []
      ensures store.outbox == BatchRows(s0.outbox, ids, env)
    {
      var ok, pending := store.ListPendingOutbox(10, env.list);
      ids := pending;
      run, s := BeginCall(s0, Batch(BList), WithIds(env, ids));
      run, s := NextStatement(s0, Batch(BList), run, s, WithIds(env, ids));
      run, s := SendAll(pending, env, ids, s0, run, s);
    }

    method SendAll(pending: seq<nat>, env: CallEnv,
                   ghost ids: seq<nat>, ghost s0: State, ghost run0: seq<Event>, ghost s1: State)
      returns (ghost run: seq<Event>, ghost s: State)
      requires At(s0, run0, s1, WithIds(env, ids), BSend(pending)) && env.BatchEnv?
      requires forall n :: 0 <= n < |pending| ==> pending[n] < |s1.outbox|
      modifies store`outbox
      ensures At(s0, run, s, WithIds(env, ids), BSend([]))
      ensures store.outbox == BatchRows(old(store.outbox), pending, env)
    {
      run, s := run0, s1;
      for n := 0 to |pending|
        invariant At(s0, run, s, WithIds(env, ids), BSend(pending[n..])) && |store.outbox| == |s1.outbox|
        invariant store.outbox == BatchRows(old(store.outbox), pending[..n], env)
      {
        assert pending[..n + 1][..n] == pending[..n] && pending[n..][0] == pending[n] && pending[n..][1..] == pending[n + 1..];
        run, s := SendOne(pending[n], pending[n..], env, ids, s0, run, s);
      }
      assert pending[..|pending|] == pending && pending[|pending|..] == [];
    }

    method SendOne(i: nat, ghost todo: seq<nat>, env: CallEnv,
                   ghost ids: seq<nat>, ghost s0: State, ghost run0: seq<Event>, ghost s1: State)
      returns (ghost run: seq<Event>, ghost s: State)
      requires todo != [] && i == todo[0] && env.BatchEnv? && i < |store.outbox|
      requires At(s0, run0, s1, WithIds(env, ids), BSend(todo))
      modifies store`outbox
      ensures At(s0, run, s, WithIds(env, ids), BSend(todo[1..]))
      ensures store.outbox == old(store.outbox)[i := RowDone(old(store.outbox[i]), i, env)]
    {
      var sent;
      RowDoneIs(store.outbox, i, env);
      sent, run, s := Attempt(i, todo, env, ids, s0, run0, s1);
      run, s := Mark(i, sent, todo, env, ids, s0, run, s);
    }

    /** A row of an unknown type is skipped and counts as sent. */
    method Deliver(row: OutboxRow, i: nat, env: CallEnv) returns (sent: bool)
      requires env.BatchEnv?
      ensures sent == SideEffect(row, i, env)
    {
      if row.typ == EMAIL {
        sent := env.delivers(i);
      } else {
        sent := true;
      }
    }

    method Attempt(i: nat, ghost todo: seq<nat>, env: CallEnv,
                   ghost ids: seq<nat>, ghost s0: State, ghost run0: seq<Event>, ghost s1: State)
      returns (sent: bool, ghost run: seq<Event>, ghost s: State)
      requires todo != [] && i == todo[0] && env.BatchEnv? && i < |store.outbox|
      requires At(s0, run0, s1, WithIds(env, ids), BSend(todo))
      modifies store`outbox
      ensures At(s0, run, s, WithIds(env, ids), BMark(todo, sent)) && sent == SideEffect(old(store.outbox[i]), i, env)
      ensures store.outbox == OutboxAfter(old(store.outbox), Send(i, sent))
    {
      sent := Deliver(store.outbox[i], i, env);
      run, s := Attempts(todo, env, ids, s0, run0, s1);
      store.RecordAttempt(i, sent);
    }

    method Mark(i: nat, sent: bool, ghost todo: seq<nat>, env: CallEnv, ghost ids: seq<nat>,
                ghost s0: State, ghost run0: seq<Event>, ghost s1: State)
      returns (ghost run: seq<Event>, ghost s: State)
      requires todo != [] && i == todo[0] && env.BatchEnv?
      requires At(s0, run0, s1, WithIds(env, ids), BMark(todo, sent))
      modifies store`outbox
      ensures At(s0, run, s, WithIds(env, ids), BSend(todo[1..]))
      ensures store.outbox ==
                OutboxAfter(old(store.outbox), Effective(MarkOutbox(i, if sent then Sent else SendFailed), env.writes(i)))
    {
      var status := SendFailed;
      if sent { status := Sent; }
      run, s := Marks(todo, sent, env, ids, s0, run0, s1);
      var _ := store.UpdateOutboxStatus(i, status, env.writes(i));
    }
  }

  /** An attempt, on the side of the protocol. */
  lemma Attempts(todo: seq<nat>, env: CallEnv, ids: seq<nat>, s0: State, run0: seq<Event>, s1: State)
    returns (run: seq<Event>, s: State)
    requires Made(s0, Batch(BList), run0, s1, WithIds(env, ids)) && s1.calls[|s0.calls|] == Batch(BSend(todo))
    requires todo != [] && env.BatchEnv? && todo[0] < |s1.outbox|
    ensures Made(s0, Batch(BList), run, s, WithIds(env, ids))
    ensures var sent := SideEffect(s1.outbox[todo[0]], todo[0], env);
            Performs(s1, s, Send(todo[0], sent)) && s.born == s1.born && s.calls[|s0.calls|] == Batch(BMark(todo, sent))
  {
    AttemptIs(todo, env, ids, s1.outbox, |s1.born|);
    run, s := NextStatement(s0, Batch(BList), run0, s1, WithIds(env, ids));
  }

  lemma AttemptIs(todo: seq<nat>, env: CallEnv, ids: seq<nat>, outbox: seq<OutboxRow>, newId: nat)
    requires todo != [] && env.BatchEnv? && todo[0] < |outbox|
    ensures var call := Batch(BSend(todo)); var a := AnswerOf(WithIds(env, ids), call);
            && CallOp(call, newId, outbox, a) == Send(todo[0], SideEffect(outbox[todo[0]], todo[0], env))
            && BatchNext(outbox, BSend(todo), Ok, a) == BMark(todo, SideEffect(outbox[todo[0]], todo[0], env))
            && a.Delivered? && OutcomeOf(WithIds(env, ids), call) == Ok && CallBirths(call, newId) == []
  {
  }

  /** A mark, on the side of the protocol. */
  lemma Marks(todo: seq<nat>, sent: bool, env: CallEnv, ids: seq<nat>, s0: State, run0: seq<Event>, s1: State)
    returns (run: seq<Event>, s: State)
    requires Made(s0, Batch(BList), run0, s1, WithIds(env, ids)) && s1.calls[|s0.calls|] == Batch(BMark(todo, sent))
    requires todo != [] && env.BatchEnv?
    ensures Made(s0, Batch(BList), run, s, WithIds(env, ids))
    ensures Performs(s1, s, Effective(MarkOutbox(todo[0], if sent then Sent else SendFailed), env.writes(todo[0])))
    ensures s.born == s1.born && s.calls[|s0.calls|] == Batch(BSend(todo[1..]))
  {
    run, s := NextStatement(s0, Batch(BList), run0, s1, WithIds(env, ids));
  }

  lemma RowDoneIs(outbox: seq<OutboxRow>, i: nat, env: CallEnv)
    requires i < |outbox| && env.BatchEnv?
    ensures var sent := SideEffect(outbox[i], i, env);
            OutboxAfter(OutboxAfter(outbox, Send(i, sent)),
                        Effective(MarkOutbox(i, if sent then Sent else SendFailed), env.writes(i)))
            == outbox[i := RowDone(outbox[i], i, env)]
  {
  }

  // ---- what a batch does ----

  /** Every listed row is attempted exactly once and marked by its outcome, unless the write failed;
      every other row is as it was. */
  lemma {:induction false} BatchTouches(outbox: seq<OutboxRow>, ids: seq<nat>, env: CallEnv)
    requires env.BatchEnv? && Distinct(ids) && forall n :: 0 <= n < |ids| ==> ids[n] < |outbox|
    ensures |BatchRows(outbox, ids, env)| == |outbox|
    ensures forall i: nat :: i < |outbox| ==>
              BatchRows(outbox, ids, env)[i] == if i in ids then RowDone(outbox[i], i, env) else outbox[i]
    decreases |ids|
  {
    if ids != [] {
      var n := |ids| - 1;
      BatchTouches(outbox, ids[..n], env);
      assert ids == ids[..n] + [ids[n]] && ids[n] !in ids[..n];
    }
  }

  /** After a batch alone on the table, a row it attempted is up for another attempt exactly when its mark
      had no effect. `OutboxExactly` has the case of several batches. */
  lemma AttemptedAgainExactly(outbox: seq<OutboxRow>, ids: seq<nat>, env: CallEnv, i: nat)
    requires env.BatchEnv? && Smallest(ids, UnsentRows(outbox), OUTBOX_LIMIT) && i in ids
    ensures i in UnsentRows(BatchRows(outbox, ids, env)) <==> !Applied(env.writes(i))
    ensures i < |outbox| == |BatchRows(outbox, ids, env)|
    ensures BatchRows(outbox, ids, env)[i].tries == outbox[i].tries + [SideEffect(outbox[i], i, env)]
  {
    BatchTouches(outbox, ids, env);
    assert i in UnsentRows(outbox);
  }

  /** Alone on the table and with writes that succeed, a batch takes exactly min(10, n) of the n unsent
      rows, the oldest, and each is then sent or failed. */
  lemma BatchShrinksPending(outbox: seq<OutboxRow>, ids: seq<nat>, env: CallEnv)
    requires env.BatchEnv? && Smallest(ids, UnsentRows(outbox), OUTBOX_LIMIT)
    requires forall i: nat :: Applied(env.writes(i))
    ensures |ids| == Min(10, |UnsentRows(outbox)|)
    ensures UnsentRows(BatchRows(outbox, ids, env)) == UnsentRows(outbox) - Ids(ids)
    ensures |UnsentRows(BatchRows(outbox, ids, env))| == |UnsentRows(outbox)| - |ids|
  {
    BatchTouches(outbox, ids, env);
    var unsent, left := UnsentRows(outbox), UnsentRows(BatchRows(outbox, ids, env));
    var listed := Ids(ids);
    assert left == unsent - listed;
    DistinctCount(ids);
    assert left.Keys == unsent.Keys - listed && listed <= unsent.Keys;
    assert |unsent.Keys| == |left.Keys| + |listed| by {
      assert unsent.Keys == left.Keys + listed;
    }
  }
  lemma BatchLeaves(outbox: seq<OutboxRow>, ids: seq<nat>, env: CallEnv)
    requires env.BatchEnv? && (ids == [] || Smallest(ids, UnsentRows(outbox), OUTBOX_LIMIT))
    ensures forall i :: i in ids ==> (i in UnsentRows(BatchRows(outbox, ids, env)) <==> !Applied(env.writes(i)))
    ensures (forall i: nat :: Applied(env.writes(i))) ==> UnsentRows(BatchRows(outbox, ids, env)) == UnsentRows(outbox) - Ids(ids)
  {
    if ids == [] {
      assert Ids(ids) == {};
    } else {
      forall i | i in ids ensures i in UnsentRows(BatchRows(outbox, ids, env)) <==> !Applied(env.writes(i)) {
        AttemptedAgainExactly(outbox, ids, env, i);
      }
      if forall i: nat :: Applied(env.writes(i)) { BatchShrinksPending(outbox, ids, env); }
    }
  }

  /** What becomes of every row of the table. */
  lemma BatchWrites(outbox: seq<OutboxRow>, ids: seq<nat>, env: CallEnv)
    requires env.BatchEnv? && (ids == [] || Smallest(ids, UnsentRows(outbox), OUTBOX_LIMIT))
    ensures |BatchRows(outbox, ids, env)| == |outbox|
    ensures forall i: nat :: i < |outbox| ==>
              var row := outbox[i]; var sent := row.typ != "email" || env.delivers(i);
              BatchRows(outbox, ids, env)[i] ==
                if i !in ids then row
                else if env.writes(i).Failure? then row.(tries := row.tries + [sent])
                else row.(tries := row.tries + [sent], status := if sent then Sent else SendFailed)
  {
    forall n | 0 <= n < |ids| ensures ids[n] < |outbox| { assert ids[n] in UnsentRows(outbox); }
    BatchTouches(outbox, ids, env);
  }
}
