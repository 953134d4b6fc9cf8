/** When an outbox row is attempted no more than once, over all continuations in which marks take
    effect and no further batches overlap. */
module OutboxExactly {
  import opened Types
  import opened Tables
  import opened Protocol
  import opened Identity
  import opened OutboxSafety
  import opened EveryRun
  import opened OutboxOnce

  /** The rows a batch has still to send. */
  function ToSend(call: Call): seq<nat> {
    if call.Batch? && call.bpc.BSend? then call.bpc.todo
    else if call.Batch? && call.bpc.BMark? && call.bpc.todo != [] then call.bpc.todo[1..]
    else []
  }

  predicate WillSend(call: Call, i: nat) {
    i in ToSend(call)
  }

  predicate OneHolder(calls: seq<Call>, i: nat) {
    forall c, d :: 0 <= c < |calls| && 0 <= d < |calls| && WillSend(calls[c], i) && WillSend(calls[d], i) ==> c == d
  }

  predicate NoHolder(calls: seq<Call>, i: nat) {
    forall c :: 0 <= c < |calls| ==> !WillSend(calls[c], i)
  }

  /** Untried and to be sent by one batch at most; or tried once, to be sent by none, and marked or
      about to be. */
  ghost predicate SafeFromRetry(row: OutboxRow, calls: seq<Call>, i: nat) {
    if row.tries == [] then OneHolder(calls, i)
    else |row.tries| == 1 && NoHolder(calls, i) && (row.status.Unsent? ==> Head(calls, i))
  }

  /** In every such continuation the row has been attempted once at most. */
  ghost predicate AttemptedOnceAtMost(s: State, i: nat) {
    forall run :: Legal(s, run) && SoloAll(s, run) ==>
      i < |After(s, run).outbox| && |After(s, run).outbox[i].tries| <= 1
  }

  // ---- lists name a row once ----

  ghost predicate ListDistinct(call: Call) {
    call.Batch? && !call.bpc.BList? ==> Distinct(call.bpc.todo)
  }

  ghost predicate ListsDistinct(calls: seq<Call>) {
    forall c :: 0 <= c < |calls| ==> ListDistinct(calls[c])
  }

  lemma NextListDistinct(s: State, c: nat, o: Outcome, a: Answer)
    requires StepEnabled(s, c, o, a) && ListDistinct(s.calls[c])
    ensures ListDistinct(CallNext(s, c, o, a))
  {
  }

  lemma DistinctStep(s: State, e: Event)
    requires ListsDistinct(s.calls) && Enabled(s, e)
    ensures ListsDistinct(Apply(s, e).calls)
  {
    match e {
      case Step(c, o, a) => NextListDistinct(s, c, o, a);
      case _ =>
    }
  }

  lemma {:induction false} DistinctAlways(s: State, run: seq<Event>)
    requires ListsDistinct(s.calls) && Legal(s, run)
    ensures ListsDistinct(After(s, run).calls)
    decreases |run|
  {
    if run != [] {
      DistinctStep(s, run[0]);
      DistinctAlways(Apply(s, run[0]), run[1..]);
    }
  }

  lemma DistinctReachable(s: State)
    requires Reachable(s)
    ensures ListsDistinct(s.calls)
  {
    var limit: int, clock: int, run: seq<Event> :| Legal(Init(limit, clock), run) && After(Init(limit, clock), run) == s;
    DistinctAlways(Init(limit, clock), run);
  }

  // ---- the condition lasts ----

  lemma LastsAppends(s: State, s': State, i: nat)
    requires OnlyAppends(s, s') && i < |s.outbox| && SafeFromRetry(s.outbox[i], s.calls, i)
    ensures i < |s'.outbox| && SafeFromRetry(s'.outbox[i], s'.calls, i)
  {
    assert s'.outbox[i] == s'.outbox[..|s.outbox|][i];
    HeadsStay(s, s', i);
    forall c | 0 <= c < |s'.calls| && WillSend(s'.calls[c], i) ensures c < |s.calls| && WillSend(s.calls[c], i) {}
  }

  /** A list is made while no other batch has rows left, and names only unsent rows. */
  lemma LastsList(s: State, c: nat, o: Outcome, a: Answer, i: nat)
    requires StepEnabled(s, c, o, a) && s.calls[c] == Batch(BList) && (o.Ok? ==> NoneSending(s.calls))
    requires i < |s.outbox| && SafeFromRetry(s.outbox[i], s.calls, i)
    ensures var s' := AfterStep(s, c, o, a); i < |s'.outbox| && SafeFromRetry(s'.outbox[i], s'.calls, i)
  {
    var s' := AfterStep(s, c, o, a);
    ListMoves(s, c, o, a);
    var ids :| BatchMoves(s, s', c, s.outbox, BSend(ids)) && (ids == [] || o.Ok?)
               && (ids == [] || (a == Rows(ids) && Smallest(ids, UnsentRows(s.outbox), OUTBOX_LIMIT)));
    if ids == [] {
      HolderMoved(s, s', c, BSend([]), i);
    } else {
      ListedHolder(s, s', c, ids, i);
    }
  }

  /** Call `c` has moved without coming to send or mark the row, or to leave it. */
  lemma HolderMoved(s: State, s': State, c: nat, pc: BatchPc, i: nat)
    requires c < |s.calls| && s'.calls == s.calls[c := Batch(pc)]
    requires WillSend(s.calls[c], i) <==> WillSend(Batch(pc), i)
    requires IsHead(s.calls[c], i) <==> IsHead(Batch(pc), i)
    ensures OneHolder(s.calls, i) ==> OneHolder(s'.calls, i)
    ensures NoHolder(s.calls, i) ==> NoHolder(s'.calls, i)
    ensures Head(s.calls, i) <==> Head(s'.calls, i)
  {
    forall d | 0 <= d < |s.calls|
      ensures (WillSend(s.calls[d], i) <==> WillSend(s'.calls[d], i)) && (IsHead(s.calls[d], i) <==> IsHead(s'.calls[d], i))
    {
    }
  }

  lemma ListedHolder(s: State, s': State, c: nat, ids: seq<nat>, i: nat)
    requires BatchMoves(s, s', c, s.outbox, BSend(ids)) && NoneSending(s.calls)
    requires Smallest(ids, UnsentRows(s.outbox), OUTBOX_LIMIT)
    requires i < |s.outbox| && SafeFromRetry(s.outbox[i], s.calls, i)
    ensures SafeFromRetry(s'.outbox[i], s'.calls, i)
  {
    forall d | 0 <= d < |s.calls| && d != c ensures !WillSend(s'.calls[d], i) && !IsHead(s.calls[d], i) {
      assert !Sending(s.calls[d]);
    }
    assert !Head(s.calls, i);
    if s.outbox[i].tries != [] {
      assert i !in UnsentRows(s.outbox);
    }
  }

  lemma LastsSend(s: State, c: nat, o: Outcome, a: Answer, i: nat)
    requires StepEnabled(s, c, o, a) && s.calls[c].Batch? && s.calls[c].bpc.BSend? && ListDistinct(s.calls[c])
    requires i < |s.outbox| && SafeFromRetry(s.outbox[i], s.calls, i)
    ensures var s' := AfterStep(s, c, o, a); i < |s'.outbox| && SafeFromRetry(s'.outbox[i], s'.calls, i)
  {
    var s' := AfterStep(s, c, o, a);
    var todo := s.calls[c].bpc.todo;
    var sent := SendOutcome(s.outbox, todo[0], a);
    SendMoves(s, c, o, a);
    assert todo == [todo[0]] + todo[1..];
    if todo[0] == i {
      assert WillSend(s.calls[c], i);
      SentHolder(s, s', c, todo, sent, i);
    } else {
      HolderMoved(s, s', c, BMark(todo, sent), i);
    }
  }

  lemma SentHolder(s: State, s': State, c: nat, todo: seq<nat>, sent: bool, i: nat)
    requires c < |s.calls| && s.calls[c] == Batch(BSend(todo)) && s'.calls == s.calls[c := Batch(BMark(todo, sent))]
    requires todo != [] && todo[0] == i && Distinct(todo) && OneHolder(s.calls, i)
    ensures NoHolder(s'.calls, i) && Head(s'.calls, i)
  {
    assert WillSend(s.calls[c], i);
    forall d | 0 <= d < |s'.calls| ensures !WillSend(s'.calls[d], i) {
      if d == c {
        forall k | 0 <= k < |todo| - 1 ensures todo[1..][k] != i { assert todo[1..][k] == todo[k + 1]; }
      }
    }
    assert IsHead(s'.calls[c], i);
  }

  lemma LastsMark(s: State, c: nat, o: Outcome, a: Answer, i: nat)
    requires StepEnabled(s, c, o, a) && s.calls[c].Batch? && s.calls[c].bpc.BMark? && Applied(o)
    requires i < |s.outbox| && SafeFromRetry(s.outbox[i], s.calls, i)
    ensures var s' := AfterStep(s, c, o, a); i < |s'.outbox| && SafeFromRetry(s'.outbox[i], s'.calls, i)
  {
    var s' := AfterStep(s, c, o, a);
    var todo := s.calls[c].bpc.todo;
    MarkMoves(s, c, o, a);
    forall d | 0 <= d < |s.calls| ensures WillSend(s.calls[d], i) <==> WillSend(s'.calls[d], i) {}
    if todo[0] != i {
      HolderMoved(s, s', c, BSend(todo[1..]), i);
    }
  }

  lemma LastsBatch(s: State, c: nat, o: Outcome, a: Answer, i: nat)
    requires StepEnabled(s, c, o, a) && s.calls[c].Batch? && ListDistinct(s.calls[c]) && Solo(s, Step(c, o, a))
    requires i < |s.outbox| && SafeFromRetry(s.outbox[i], s.calls, i)
    ensures var s' := AfterStep(s, c, o, a); i < |s'.outbox| && SafeFromRetry(s'.outbox[i], s'.calls, i)
  {
    if s.calls[c].bpc.BList? { LastsList(s, c, o, a, i); }
    else if s.calls[c].bpc.BSend? { LastsSend(s, c, o, a, i); }
    else { LastsMark(s, c, o, a, i); }
  }

  lemma LastsStep(s: State, e: Event, i: nat)
    requires ListsDistinct(s.calls) && Enabled(s, e) && Solo(s, e)
    requires i < |s.outbox| && SafeFromRetry(s.outbox[i], s.calls, i)
    ensures i < |Apply(s, e).outbox| && SafeFromRetry(Apply(s, e).outbox[i], Apply(s, e).calls, i)
  {
    if e.Step? && s.calls[e.id].Batch? {
      LastsBatch(s, e.id, e.outcome, e.answer, i);
    } else {
      AppendsOnly(s, e);
      LastsAppends(s, Apply(s, e), i);
    }
  }

  lemma AppendsOnly(s: State, e: Event)
    requires Enabled(s, e) && !(e.Step? && s.calls[e.id].Batch?)
    ensures OnlyAppends(s, Apply(s, e))
  {
    match e {
      case Work(x, o, success) => WorkAppends(s, x, o, success);
      case Step(c, o, a) => OtherCallAppends(s, c, o, a);
      case _ => QuietAppends(s, e);
    }
  }

  lemma {:induction false} LastsAlways(s: State, run: seq<Event>, i: nat)
    requires ListsDistinct(s.calls) && Legal(s, run) && SoloAll(s, run)
    requires i < |s.outbox| && SafeFromRetry(s.outbox[i], s.calls, i)
    ensures i < |After(s, run).outbox| && SafeFromRetry(After(s, run).outbox[i], After(s, run).calls, i)
    decreases |run|
  {
    if run != [] {
      LastsStep(s, run[0], i);
      DistinctStep(s, run[0]);
      LastsAlways(Apply(s, run[0]), run[1..], i);
    }
  }

  // ---- continuations that attempt the row again ----

  ghost predicate SoloLeads(s: State, s': State) {
    exists run :: Legal(s, run) && SoloAll(s, run) && After(s, run) == s'
  }

  lemma SoloSelf(s: State)
    ensures SoloLeads(s, s)
  {
    assert Legal(s, []) && SoloAll(s, []) && After(s, []) == s;
  }

  lemma SoloFirst(s: State, e: Event, s': State)
    requires Enabled(s, e) && Solo(s, e) && SoloLeads(Apply(s, e), s')
    ensures SoloLeads(s, s')
  {
    var rest :| Legal(Apply(s, e), rest) && SoloAll(Apply(s, e), rest) && After(Apply(s, e), rest) == s';
    var run := [e] + rest;
    assert run[0] == e && run[1..] == rest;
    assert Legal(s, run) && SoloAll(s, run) && After(s, run) == s';
  }

  lemma {:induction false} SoloOn(s: State, run: seq<Event>, s': State)
    requires Legal(s, run) && SoloAll(s, run) && SoloLeads(After(s, run), s')
    ensures SoloLeads(s, s')
    decreases |run|
  {
    if run != [] {
      SoloOn(Apply(s, run[0]), run[1..], s');
      SoloFirst(s, run[0], s');
    }
  }

  lemma SoloThrough(s: State, s1: State, s2: State)
    requires SoloLeads(s, s1) && SoloLeads(s1, s2)
    ensures SoloLeads(s, s2)
  {
    var run :| Legal(s, run) && SoloAll(s, run) && After(s, run) == s1;
    SoloOn(s, run, s2);
  }

  /** Every list names rows that are there. */
  predicate ListsWithin(calls: seq<Call>, size: nat) {
    forall c :: 0 <= c < |calls| && calls[c].Batch? && !calls[c].bpc.BList? ==>
      forall k :: 0 <= k < |calls[c].bpc.todo| ==> calls[c].bpc.todo[k] < size
  }

  /** A batch sends its next row: nothing else happens to the outbox. */
  lemma SendStep(s: State, c: nat)
    requires c < |s.calls| && s.calls[c].Batch? && s.calls[c].bpc.BSend? && s.calls[c].bpc.todo != []
    requires s.calls[c].bpc.todo[0] < |s.outbox|
    ensures StepEnabled(s, c, Ok, Delivered(true)) && Solo(s, Step(c, Ok, Delivered(true)))
    ensures var s' := AfterStep(s, c, Ok, Delivered(true)); var todo := s.calls[c].bpc.todo; var h := todo[0];
            && s'.calls == s.calls[c := Batch(BMark(todo, true))]
            && s'.outbox == s.outbox[h := s.outbox[h].(tries := s.outbox[h].tries + [true])]
  {
    SendMoves(s, c, Ok, Delivered(true));
  }

  /** And marks it. */
  lemma MarkStep(s: State, c: nat)
    requires c < |s.calls| && s.calls[c].Batch? && s.calls[c].bpc.BMark? && s.calls[c].bpc.todo != []
    requires s.calls[c].bpc.todo[0] < |s.outbox|
    ensures StepEnabled(s, c, Ok, Nothing) && Solo(s, Step(c, Ok, Nothing))
    ensures var s' := AfterStep(s, c, Ok, Nothing); var todo := s.calls[c].bpc.todo; var h := todo[0];
            && s'.calls == s.calls[c := Batch(BSend(todo[1..]))]
            && exists st: OutboxStatus :: !st.Unsent? && s'.outbox == s.outbox[h := s.outbox[h].(status := st)]
  {
    MarkMoves(s, c, Ok, Nothing);
    var st := if s.calls[c].bpc.sent then Sent else SendFailed;
    assert AfterStep(s, c, Ok, Nothing).outbox
        == s.outbox[s.calls[c].bpc.todo[0] := s.outbox[s.calls[c].bpc.todo[0]].(status := st)];
  }

  /** A batch still to send the row, with no change to the row or to another call. */
  ghost predicate StillSends(s: State, s1: State, c: nat, i: nat) {
    && c < |s.calls| == |s1.calls| && WillSend(s1.calls[c], i) && i < |s.outbox| == |s1.outbox|
    && (forall k :: 0 <= k < |s1.calls[c].bpc.todo| ==> s1.calls[c].bpc.todo[k] < |s1.outbox|)
    && |s1.outbox[i].tries| >= |s.outbox[i].tries|
    && forall d :: 0 <= d < |s.calls| && d != c ==> s1.calls[d] == s.calls[d]
  }

  lemma MarkedStillSends(s: State, c: nat, i: nat)
    requires StillSends(s, s, c, i) && s.calls[c].bpc.BMark?
    ensures StepEnabled(s, c, Ok, Nothing) && Solo(s, Step(c, Ok, Nothing))
    ensures StillSends(s, AfterStep(s, c, Ok, Nothing), c, i)
    ensures AfterStep(s, c, Ok, Nothing).calls[c] == Batch(BSend(s.calls[c].bpc.todo[1..]))
  {
    var todo := s.calls[c].bpc.todo;
    assert todo == [todo[0]] + todo[1..];
    MarkStep(s, c);
  }

  lemma SentStillSends(s: State, c: nat, i: nat)
    requires StillSends(s, s, c, i) && s.calls[c].bpc.BSend? && s.calls[c].bpc.todo[0] != i
    ensures StepEnabled(s, c, Ok, Delivered(true)) && Solo(s, Step(c, Ok, Delivered(true)))
    ensures StillSends(s, AfterStep(s, c, Ok, Delivered(true)), c, i)
    ensures AfterStep(s, c, Ok, Delivered(true)).calls[c] == Batch(BMark(s.calls[c].bpc.todo, true))
  {
    var todo := s.calls[c].bpc.todo;
    assert todo == [todo[0]] + todo[1..];
    SendStep(s, c);
  }

  /** A batch that holds the row can go on to send it, whatever the others do. */
  lemma {:induction false} HolderSends(s: State, c: nat, i: nat) returns (s': State)
    requires c < |s.calls| && WillSend(s.calls[c], i) && i < |s.outbox|
    requires forall k :: 0 <= k < |s.calls[c].bpc.todo| ==> s.calls[c].bpc.todo[k] < |s.outbox|
    ensures SoloLeads(s, s') && |s'.outbox| == |s.outbox| && |s'.outbox[i].tries| > |s.outbox[i].tries|
    ensures |s'.calls| == |s.calls| && forall d :: 0 <= d < |s.calls| && d != c ==> s'.calls[d] == s.calls[d]
    decreases |s.calls[c].bpc.todo|, s.calls[c].bpc.BSend?
  {
    if s.calls[c].bpc.BMark? {
      MarkedStillSends(s, c, i);
      s' := HolderSends(AfterStep(s, c, Ok, Nothing), c, i);
      SoloFirst(s, Step(c, Ok, Nothing), s');
    } else if s.calls[c].bpc.todo[0] == i {
      SendStep(s, c);
      s' := AfterStep(s, c, Ok, Delivered(true));
      SoloSelf(s');
      SoloFirst(s, Step(c, Ok, Delivered(true)), s');
    } else {
      SentStillSends(s, c, i);
      s' := HolderSends(AfterStep(s, c, Ok, Delivered(true)), c, i);
      SoloFirst(s, Step(c, Ok, Delivered(true)), s');
    }
  }

  /** The row is as it was, and no row has become unsent. */
  ghost predicate LeavesRow(s: State, s': State, i: nat) {
    && |s'.outbox| == |s.outbox| && (i < |s.outbox| ==> s'.outbox[i] == s.outbox[i])
    && forall k: nat :: IsUnsent(s'.outbox, k) ==> IsUnsent(s.outbox, k)
  }

  /** A batch that does not hold the row can be through with its list. */
  lemma {:induction false} Drains(s: State, c: nat, i: nat) returns (s': State)
    requires c < |s.calls| && s.calls[c].Batch? && !s.calls[c].bpc.BList? && i !in s.calls[c].bpc.todo
    requires forall k :: 0 <= k < |s.calls[c].bpc.todo| ==> s.calls[c].bpc.todo[k] < |s.outbox|
    ensures SoloLeads(s, s') && LeavesRow(s, s', i)
    ensures |s'.calls| == |s.calls| && s'.calls[c].Batch? && !s'.calls[c].bpc.BList? && s'.calls[c].bpc.todo == []
    ensures forall d :: 0 <= d < |s.calls| && d != c ==> s'.calls[d] == s.calls[d]
    ensures s.calls[c].bpc.todo != [] ==> !IsUnsent(s'.outbox, s.calls[c].bpc.todo[0])
    decreases |s.calls[c].bpc.todo|, s.calls[c].bpc.BSend?
  {
    var todo := s.calls[c].bpc.todo;
    if todo == [] {
      s' := s;
      SoloSelf(s);
    } else if s.calls[c].bpc.BMark? {
      assert todo == [todo[0]] + todo[1..];
      MarkStep(s, c);
      s' := Drains(AfterStep(s, c, Ok, Nothing), c, i);
      SoloFirst(s, Step(c, Ok, Nothing), s');
    } else {
      SendStep(s, c);
      s' := Drains(AfterStep(s, c, Ok, Delivered(true)), c, i);
      SoloFirst(s, Step(c, Ok, Delivered(true)), s');
    }
  }

  /** All batches can, if none holds the row or is about to mark it. */
  lemma {:induction false} DrainsAll(s: State, n: nat, i: nat) returns (s': State)
    requires n <= |s.calls| && ListsWithin(s.calls, |s.outbox|)
    requires forall c :: n <= c < |s.calls| ==> !Sending(s.calls[c])
    requires NoHolder(s.calls, i) && !Head(s.calls, i)
    ensures SoloLeads(s, s') && LeavesRow(s, s', i) && NoneSending(s'.calls)
    decreases n
  {
    if n == 0 {
      s' := s;
      SoloSelf(s);
    } else if !Sending(s.calls[n - 1]) {
      s' := DrainsAll(s, n - 1, i);
    } else {
      NotInList(s.calls, n - 1, i);
      var s1 := Drains(s, n - 1, i);
      StillNone(s, s1, n - 1, i);
      s' := DrainsAll(s1, n - 1, i);
      SoloThrough(s, s1, s');
    }
  }

  lemma NotInList(calls: seq<Call>, c: nat, i: nat)
    requires NoHolder(calls, i) && !Head(calls, i) && c < |calls| && Sending(calls[c])
    ensures i !in calls[c].bpc.todo
  {
    var todo := calls[c].bpc.todo;
    assert todo == [todo[0]] + todo[1..];
    assert !WillSend(calls[c], i) && !IsHead(calls[c], i);
  }

  lemma StillNone(s: State, s1: State, c: nat, i: nat)
    requires c < |s.calls| && |s1.calls| == |s.calls| && !Sending(s1.calls[c])
    requires forall d :: 0 <= d < |s.calls| && d != c ==> s1.calls[d] == s.calls[d]
    requires NoHolder(s.calls, i) && !Head(s.calls, i)
    ensures NoHolder(s1.calls, i) && !Head(s1.calls, i)
  {
    forall d | 0 <= d < |s1.calls| ensures !WillSend(s1.calls[d], i) && !IsHead(s1.calls[d], i) {
      assert d != c ==> !IsHead(s.calls[d], i);
    }
  }

  /** A batch begun and listed now. */
  lemma NewBatch(s: State, ids: seq<nat>) returns (s': State)
    requires NoneSending(s.calls) && Smallest(ids, UnsentRows(s.outbox), OUTBOX_LIMIT)
    ensures SoloLeads(s, s') && s'.outbox == s.outbox && s'.calls == s.calls + [Batch(BSend(ids))]
  {
    var c := |s.calls|;
    var s1 := Apply(s, Begin(Batch(BList)));
    s' := AfterStep(s1, c, Ok, Rows(ids));
    SoloSelf(s');
    assert NoneSending(s1.calls);
    SoloFirst(s1, Step(c, Ok, Rows(ids)), s');
    SoloFirst(s, Begin(Batch(BList)), s');
  }

  /** An unsent row comes to be sent, when its turn comes: each batch before marks some older ones. */
  lemma {:induction false} ComesToSend(s: State, i: nat) returns (s': State)
    requires NoneSending(s.calls) && IsUnsent(s.outbox, i)
    ensures SoloLeads(s, s') && |s'.outbox| == |s.outbox| && |s'.outbox[i].tries| > |s.outbox[i].tries|
    decreases |UnsentIds(s.outbox)|
  {
    var ids := SomeSmallest(UnsentRows(s.outbox), OUTBOX_LIMIT);
    assert i in UnsentRows(s.outbox);
    assert ids != [];
    forall k | 0 <= k < |ids| ensures ids[k] < |s.outbox| && IsUnsent(s.outbox, ids[k]) { assert ids[k] in UnsentRows(s.outbox); }
    var s1 := NewBatch(s, ids);
    var c := |s.calls|;
    if i in ids {
      s' := HolderSends(s1, c, i);
      SoloThrough(s, s1, s');
    } else {
      var s2 := Drains(s1, c, i);
      FewerUnsent(s1, s2, ids[0], i);
      SoloThrough(s, s1, s2);
      s' := ComesToSend(s2, i);
      SoloThrough(s, s2, s');
    }
  }

  lemma FewerUnsent(s: State, s': State, h: nat, i: nat)
    requires LeavesRow(s, s', i) && IsUnsent(s.outbox, h) && !IsUnsent(s'.outbox, h)
    ensures |UnsentIds(s'.outbox)| < |UnsentIds(s.outbox)|
  {
    assert UnsentIds(s'.outbox) <= UnsentIds(s.outbox) - {h};
    CardMonotone(UnsentIds(s'.outbox), UnsentIds(s.outbox) - {h});
  }

  // ---- the exact condition ----

  lemma Refuted(s: State, s': State, i: nat)
    requires SoloLeads(s, s') && i < |s'.outbox| && |s'.outbox[i].tries| > 1
    ensures !AttemptedOnceAtMost(s, i)
  {
  }

  /** Two batches hold an untried row. */
  lemma HeldTwice(s: State, i: nat)
    requires ListsWithin(s.calls, |s.outbox|) && i < |s.outbox| && !OneHolder(s.calls, i)
    ensures !AttemptedOnceAtMost(s, i)
  {
    var c, d :| 0 <= c < |s.calls| && 0 <= d < |s.calls| && WillSend(s.calls[c], i) && WillSend(s.calls[d], i) && c != d;
    var s1 := HolderSends(s, c, i);
    var s2 := HolderSends(s1, d, i);
    SoloThrough(s, s1, s2);
    Refuted(s, s2, i);
  }

  /** A batch holds a row already tried. */
  lemma HeldAgain(s: State, i: nat)
    requires ListsWithin(s.calls, |s.outbox|) && i < |s.outbox| && s.outbox[i].tries != [] && !NoHolder(s.calls, i)
    ensures !AttemptedOnceAtMost(s, i)
  {
    var c :| 0 <= c < |s.calls| && WillSend(s.calls[c], i);
    var s1 := HolderSends(s, c, i);
    Refuted(s, s1, i);
  }

  /** A row tried and still unsent, with nobody about to mark it. */
  lemma LeftUnsent(s: State, i: nat)
    requires ListsWithin(s.calls, |s.outbox|) && IsUnsent(s.outbox, i) && s.outbox[i].tries != []
    requires NoHolder(s.calls, i) && !Head(s.calls, i)
    ensures !AttemptedOnceAtMost(s, i)
  {
    var s1 := DrainsAll(s, |s.calls|, i);
    var s2 := ComesToSend(s1, i);
    SoloThrough(s, s1, s2);
    Refuted(s, s2, i);
  }

  lemma WithinReachable(s: State)
    requires IdsOk(s)
    ensures ListsWithin(s.calls, |s.outbox|)
  {
    forall c | 0 <= c < |s.calls| && s.calls[c].Batch? && !s.calls[c].bpc.BList?
      ensures forall k :: 0 <= k < |s.calls[c].bpc.todo| ==> s.calls[c].bpc.todo[k] < |s.outbox|
    {
      assert CallOk(s, c);
    }
  }

  lemma NotSafeFromRetry(s: State, i: nat)
    requires IdsOk(s) && i < |s.outbox| && !SafeFromRetry(s.outbox[i], s.calls, i)
    ensures !AttemptedOnceAtMost(s, i)
  {
    WithinReachable(s);
    if s.outbox[i].tries == [] {
      HeldTwice(s, i);
    } else if |s.outbox[i].tries| > 1 {
      SoloSelf(s);
      Refuted(s, s, i);
    } else if !NoHolder(s.calls, i) {
      HeldAgain(s, i);
    } else {
      LeftUnsent(s, i);
    }
  }

  lemma SafeIsAtMostOnce(s: State, i: nat)
    requires ListsDistinct(s.calls) && i < |s.outbox| && SafeFromRetry(s.outbox[i], s.calls, i)
    ensures AttemptedOnceAtMost(s, i)
  {
    forall run | Legal(s, run) && SoloAll(s, run)
      ensures i < |After(s, run).outbox| && |After(s, run).outbox[i].tries| <= 1
    {
      LastsAlways(s, run, i);
    }
  }

  /** From any reachable state, however many batches are under way: no continuation in which marks take
      effect and no further batches overlap attempts the row twice, if and only if it is untried and in
      the list of one batch at most, or tried once, in nobody's list, and marked or about to be. */
  lemma AttemptedOnceExactly(s: State, i: nat)
    requires Reachable(s) && i < |s.outbox|
    ensures AttemptedOnceAtMost(s, i) <==>
              if s.outbox[i].tries == [] then OneHolder(s.calls, i)
              else |s.outbox[i].tries| == 1 && NoHolder(s.calls, i) && (s.outbox[i].status.Unsent? ==> Head(s.calls, i))
  {
    SafeReachable(s);
    DistinctReachable(s);
    if SafeFromRetry(s.outbox[i], s.calls, i) {
      SafeIsAtMostOnce(s, i);
    } else {
      NotSafeFromRetry(s, i);
    }
  }
}
