/** Outbox batches that do not overlap, and whose marks take effect, attempt every row at most once,
    while workers go on appending rows. */
module OutboxOnce {
  import opened Types
  import opened Tables
  import opened Protocol

  /** A batch that has listed rows left to send or to mark. */
  predicate Sending(call: Call) {
    call.Batch? && !call.bpc.BList? && call.bpc.todo != []
  }

  ghost predicate NoneSending(calls: seq<Call>) {
    forall c :: 0 <= c < |calls| ==> !Sending(calls[c])
  }

  /** No batch lists rows while another has some left, and marks take effect; everything else may fail. */
  ghost predicate Solo(s: State, e: Event) {
    && (e.Step? && e.id < |s.calls| && s.calls[e.id] == Batch(BList) && e.outcome.Ok? ==> NoneSending(s.calls))
    && (e.Step? && e.id < |s.calls| && s.calls[e.id].Batch? && s.calls[e.id].bpc.BMark? ==> Applied(e.outcome))
  }

  ghost predicate SoloAll(s: State, run: seq<Event>)
    requires Legal(s, run)
    decreases |run|
  {
    run != [] ==> Solo(s, run[0]) && SoloAll(Apply(s, run[0]), run[1..])
  }

  predicate OneSending(calls: seq<Call>) {
    forall c, d :: 0 <= c < |calls| && 0 <= d < |calls| && Sending(calls[c]) && Sending(calls[d]) ==> c == d
  }

  /** Row `i` has been attempted and is about to be marked. */
  predicate IsHead(call: Call, i: nat) {
    call.Batch? && call.bpc.BMark? && call.bpc.todo != [] && call.bpc.todo[0] == i
  }

  ghost predicate Head(calls: seq<Call>, i: nat) {
    exists c :: 0 <= c < |calls| && IsHead(calls[c], i)
  }

  /** A row is attempted at most once, and is unsent until it is, up to the mark that follows. */
  predicate RowOnce(row: OutboxRow, head: bool) {
    |row.tries| <= 1 && (row.status.Unsent? <==> row.tries == [] || head) && (head ==> row.tries != [])
  }

  ghost predicate RowsOnce(outbox: seq<OutboxRow>, calls: seq<Call>) {
    forall i: nat :: i < |outbox| ==> RowOnce(outbox[i], Head(calls, i))
  }

  /** The rows a batch still has to deal with are unsent, each listed once. */
  predicate ListUnsent(outbox: seq<OutboxRow>, todo: seq<nat>) {
    && (forall i, k :: 0 <= i < k < |todo| ==> todo[i] != todo[k])
    && (forall k :: 0 <= k < |todo| ==> todo[k] < |outbox| && outbox[todo[k]].status.Unsent?)
  }

  ghost predicate BatchesOk(outbox: seq<OutboxRow>, calls: seq<Call>) {
    forall c :: 0 <= c < |calls| && calls[c].Batch? && !calls[c].bpc.BList? ==> ListUnsent(outbox, calls[c].bpc.todo)
  }

  ghost predicate OnceOk(s: State) {
    OneSending(s.calls) && RowsOnce(s.outbox, s.calls) && BatchesOk(s.outbox, s.calls)
  }

  // ---- events that do not touch a batch ----

  /** Rows may have been appended, unsent and untried; batches stand where they stood. */
  ghost predicate OnlyAppends(s: State, s': State) {
    && |s.outbox| <= |s'.outbox| && s'.outbox[..|s.outbox|] == s.outbox
    && (forall i :: |s.outbox| <= i < |s'.outbox| ==> s'.outbox[i].status.Unsent? && s'.outbox[i].tries == [])
    && |s.calls| <= |s'.calls|
    && (forall c :: 0 <= c < |s.calls| ==> s'.calls[c].Batch? == s.calls[c].Batch? && (s.calls[c].Batch? ==> s'.calls[c] == s.calls[c]))
    && (forall c :: |s.calls| <= c < |s'.calls| && s'.calls[c].Batch? ==> s'.calls[c].bpc.BList?)
  }

  lemma HeadsStay(s: State, s': State, i: nat)
    requires OnlyAppends(s, s')
    ensures Head(s'.calls, i) <==> Head(s.calls, i)
  {
    forall c | 0 <= c < |s.calls| ensures IsHead(s'.calls[c], i) <==> IsHead(s.calls[c], i) {}
  }

  lemma OnceAppends(s: State, s': State)
    requires OnceOk(s) && OnlyAppends(s, s')
    ensures OnceOk(s')
  {
    forall i: nat | i < |s'.outbox| ensures RowOnce(s'.outbox[i], Head(s'.calls, i)) {
      HeadsStay(s, s', i);
      if i < |s.outbox| {
        assert s'.outbox[i] == s'.outbox[..|s.outbox|][i];
      } else {
        NotHead(s, i);
      }
    }
    assert forall i :: 0 <= i < |s.outbox| ==> s'.outbox[i] == s'.outbox[..|s.outbox|][i];
  }

  lemma NotHead(s: State, i: nat)
    requires BatchesOk(s.outbox, s.calls) && i >= |s.outbox|
    ensures !Head(s.calls, i)
  {
  }

  lemma WorkAppends(s: State, x: nat, o: Outcome, success: bool)
    requires WorkEnabled(s, x, success)
    ensures OnlyAppends(s, AfterWork(s, x, o, success))
  {
  }

  lemma OtherCallAppends(s: State, c: nat, o: Outcome, a: Answer)
    requires StepEnabled(s, c, o, a) && !s.calls[c].Batch?
    ensures OnlyAppends(s, AfterStep(s, c, o, a))
  {
  }

  lemma QuietAppends(s: State, e: Event)
    requires Enabled(s, e) && !e.Work? && !e.Step?
    ensures OnlyAppends(s, Apply(s, e))
  {
  }

  // ---- the batch's own statements ----

  /** The outbox and the call after a batch's statement. */
  ghost predicate BatchMoves(s: State, s': State, c: nat, outbox: seq<OutboxRow>, pc: BatchPc) {
    c < |s.calls| && s.calls[c].Batch? && s'.calls == s.calls[c := Batch(pc)] && s'.outbox == outbox
  }

  lemma ListMoves(s: State, c: nat, o: Outcome, a: Answer)
    requires StepEnabled(s, c, o, a) && s.calls[c] == Batch(BList)
    ensures exists ids :: BatchMoves(s, AfterStep(s, c, o, a), c, s.outbox, BSend(ids)) && (ids == [] || o.Ok?)
                          && (ids == [] || (a == Rows(ids) && Smallest(ids, UnsentRows(s.outbox), OUTBOX_LIMIT)))
  {
    var ids := if o.Ok? then a.ids else [];
    assert BatchMoves(s, AfterStep(s, c, o, a), c, s.outbox, BSend(ids));
  }

  lemma SendMoves(s: State, c: nat, o: Outcome, a: Answer)
    requires StepEnabled(s, c, o, a) && s.calls[c].Batch? && s.calls[c].bpc.BSend?
    ensures var todo := s.calls[c].bpc.todo; var i := todo[0]; var sent := SendOutcome(s.outbox, i, a);
            BatchMoves(s, AfterStep(s, c, o, a), c, OutboxAfter(s.outbox, Send(i, sent)), BMark(todo, sent))
  {
  }

  lemma MarkMoves(s: State, c: nat, o: Outcome, a: Answer)
    requires StepEnabled(s, c, o, a) && s.calls[c].Batch? && s.calls[c].bpc.BMark? && Applied(o)
    ensures var todo := s.calls[c].bpc.todo;
            BatchMoves(s, AfterStep(s, c, o, a), c,
                       OutboxAfter(s.outbox, MarkOutbox(todo[0], if s.calls[c].bpc.sent then Sent else SendFailed)), BSend(todo[1..]))
  {
  }

  /** Every other batch is through with its rows. */
  ghost predicate Alone(calls: seq<Call>, c: nat) {
    forall d :: 0 <= d < |calls| && d != c ==> !Sending(calls[d])
  }

  lemma SendingAlone(calls: seq<Call>, c: nat)
    requires OneSending(calls) && c < |calls| && Sending(calls[c])
    ensures Alone(calls, c)
  {
  }

  /** Which rows are heads after call `c` has moved, when no other batch is sending. */
  lemma HeadsAfter(s: State, s': State, c: nat, outbox: seq<OutboxRow>, pc: BatchPc, i: nat)
    requires Alone(s.calls, c) && BatchMoves(s, s', c, outbox, pc)
    ensures Head(s.calls, i) <==> IsHead(s.calls[c], i)
    ensures Head(s'.calls, i) <==> IsHead(Batch(pc), i)
  {
    forall d | 0 <= d < |s.calls| && d != c ensures !IsHead(s.calls[d], i) {
      assert !Sending(s.calls[d]);
    }
    if IsHead(Batch(pc), i) { assert IsHead(s'.calls[c], i); }
  }

  lemma OthersDone(s: State, s': State, c: nat, outbox: seq<OutboxRow>, pc: BatchPc)
    requires BatchesOk(s.outbox, s.calls) && Alone(s.calls, c) && BatchMoves(s, s', c, outbox, pc)
    requires pc.BList? || ListUnsent(outbox, pc.todo)
    ensures OneSending(s'.calls) && BatchesOk(outbox, s'.calls)
  {
    forall d | 0 <= d < |s'.calls| && s'.calls[d].Batch? && !s'.calls[d].bpc.BList?
      ensures ListUnsent(outbox, s'.calls[d].bpc.todo)
    {
      if d != c { assert !Sending(s.calls[d]); }
    }
    assert forall d :: 0 <= d < |s'.calls| && d != c ==> s'.calls[d] == s.calls[d] && !Sending(s.calls[d]);
  }

  lemma OnceList(s: State, c: nat, o: Outcome, a: Answer)
    requires OnceOk(s) && StepEnabled(s, c, o, a) && s.calls[c] == Batch(BList) && (o.Ok? ==> NoneSending(s.calls))
    ensures OnceOk(AfterStep(s, c, o, a))
  {
    var s' := AfterStep(s, c, o, a);
    ListMoves(s, c, o, a);
    var ids :| BatchMoves(s, s', c, s.outbox, BSend(ids)) && (ids == [] || o.Ok?)
               && (ids == [] || (a == Rows(ids) && Smallest(ids, UnsentRows(s.outbox), OUTBOX_LIMIT)));
    if ids == [] { OnceEmpty(s, s', c); } else { OnceListed(s, s', c, ids); }
  }

  lemma OnceListed(s: State, s': State, c: nat, ids: seq<nat>)
    requires OnceOk(s) && BatchMoves(s, s', c, s.outbox, BSend(ids)) && s.calls[c] == Batch(BList) && NoneSending(s.calls)
    requires Smallest(ids, UnsentRows(s.outbox), OUTBOX_LIMIT)
    ensures OnceOk(s')
  {
    forall k | 0 <= k < |ids| ensures ids[k] < |s.outbox| && s.outbox[ids[k]].status.Unsent? {
      assert ids[k] in UnsentRows(s.outbox);
    }
    OthersDone(s, s', c, s.outbox, BSend(ids));
    forall i: nat | i < |s'.outbox| ensures RowOnce(s'.outbox[i], Head(s'.calls, i)) {
      HeadsAfter(s, s', c, s.outbox, BSend(ids), i);
    }
  }

  /** A list that brings nothing changes nothing. */
  lemma OnceEmpty(s: State, s': State, c: nat)
    requires OnceOk(s) && BatchMoves(s, s', c, s.outbox, BSend([])) && s.calls[c] == Batch(BList)
    ensures OnceOk(s')
  {
    assert forall d :: 0 <= d < |s'.calls| && d != c ==> s'.calls[d] == s.calls[d];
    forall d | 0 <= d < |s'.calls| && s'.calls[d].Batch? && !s'.calls[d].bpc.BList?
      ensures ListUnsent(s'.outbox, s'.calls[d].bpc.todo)
    {
      if d != c { assert ListUnsent(s.outbox, s.calls[d].bpc.todo); }
    }
    forall i: nat | i < |s'.outbox| ensures RowOnce(s'.outbox[i], Head(s'.calls, i)) {
      forall d | 0 <= d < |s.calls| ensures IsHead(s'.calls[d], i) <==> IsHead(s.calls[d], i) {}
      assert RowOnce(s.outbox[i], Head(s.calls, i));
    }
  }

  lemma OnceSend(s: State, c: nat, o: Outcome, a: Answer)
    requires OnceOk(s) && StepEnabled(s, c, o, a) && s.calls[c].Batch? && s.calls[c].bpc.BSend?
    ensures OnceOk(AfterStep(s, c, o, a))
  {
    var s' := AfterStep(s, c, o, a);
    var todo := s.calls[c].bpc.todo;
    var sent := SendOutcome(s.outbox, todo[0], a);
    SendMoves(s, c, o, a);
    assert ListUnsent(s.outbox, todo);
    SendingAlone(s.calls, c);
    OthersDone(s, s', c, s'.outbox, BMark(todo, sent));
    forall i: nat | i < |s'.outbox| ensures RowOnce(s'.outbox[i], Head(s'.calls, i)) {
      HeadsAfter(s, s', c, s'.outbox, BMark(todo, sent), i);
      assert RowOnce(s.outbox[i], false);
    }
  }

  lemma OnceMark(s: State, c: nat, o: Outcome, a: Answer)
    requires OnceOk(s) && StepEnabled(s, c, o, a) && s.calls[c].Batch? && s.calls[c].bpc.BMark? && Applied(o)
    ensures OnceOk(AfterStep(s, c, o, a))
  {
    var s' := AfterStep(s, c, o, a);
    var todo := s.calls[c].bpc.todo;
    MarkMoves(s, c, o, a);
    assert ListUnsent(s.outbox, todo);
    SendingAlone(s.calls, c);
    OthersDone(s, s', c, s'.outbox, BSend(todo[1..]));
    forall i: nat | i < |s'.outbox| ensures RowOnce(s'.outbox[i], Head(s'.calls, i)) {
      HeadsAfter(s, s', c, s'.outbox, BSend(todo[1..]), i);
      assert RowOnce(s.outbox[i], i == todo[0]);
    }
  }

  lemma OnceStep(s: State, e: Event)
    requires OnceOk(s) && Enabled(s, e) && Solo(s, e)
    ensures OnceOk(Apply(s, e))
  {
    match e {
      case Work(x, o, success) => WorkAppends(s, x, o, success); OnceAppends(s, Apply(s, e));
      case Step(c, o, a) =>
        if !s.calls[c].Batch? { OtherCallAppends(s, c, o, a); OnceAppends(s, Apply(s, e)); }
        else if s.calls[c].bpc.BList? { OnceList(s, c, o, a); }
        else if s.calls[c].bpc.BSend? { OnceSend(s, c, o, a); }
        else { OnceMark(s, c, o, a); }
      case _ => QuietAppends(s, e); OnceAppends(s, Apply(s, e));
    }
  }

  lemma {:induction false} OnceAlways(s: State, run: seq<Event>)
    requires OnceOk(s) && Legal(s, run) && SoloAll(s, run)
    ensures OnceOk(After(s, run))
    decreases |run|
  {
    if run != [] {
      OnceStep(s, run[0]);
      OnceAlways(Apply(s, run[0]), run[1..]);
    }
  }

  /** Reached from an empty system without overlapping batches, all marks taking effect. */
  ghost predicate SoloReachable(s: State) {
    exists limit: int, clock: int, run: seq<Event> {:trigger Legal(Init(limit, clock), run)} ::
      Legal(Init(limit, clock), run) && SoloAll(Init(limit, clock), run) && After(Init(limit, clock), run) == s
  }

  lemma OnceReachable(s: State)
    requires SoloReachable(s)
    ensures OnceOk(s)
  {
    var limit: int, clock: int, run: seq<Event> :|
      Legal(Init(limit, clock), run) && SoloAll(Init(limit, clock), run) && After(Init(limit, clock), run) == s;
    OnceAlways(Init(limit, clock), run);
  }

  /** Without overlapping batches and with marks that take effect, in every run, whatever else fails or
      interleaves: no row is attempted twice, and but for the row about to be marked a row is unsent exactly while it
      has not been attempted. */
  lemma AttemptedAtMostOnce(s: State, i: nat)
    requires SoloReachable(s) && i < |s.outbox|
    ensures |s.outbox[i].tries| <= 1
    ensures !Head(s.calls, i) ==> (s.outbox[i].status.Unsent? <==> s.outbox[i].tries == [])
  {
    OnceReachable(s);
    assert RowOnce(s.outbox[i], Head(s.calls, i));
  }

  // ---- one batch ----

  predicate IsUnsent(outbox: seq<OutboxRow>, i: nat) {
    i < |outbox| && outbox[i].status.Unsent?
  }

  ghost function UnsentIds(outbox: seq<OutboxRow>): set<nat> {
    set i: nat | i < |outbox| && IsUnsent(outbox, i)
  }

  /** Batch `c` listed `ids` when `size` rows were there and those of `before` were unsent; what it has
      dealt with is no longer unsent, and nothing else has changed but for new rows. */
  ghost predicate Partway(s: State, c: nat, ids: seq<nat>, before: set<nat>, size: nat) {
    && c < |s.calls| && s.calls[c].Batch? && !s.calls[c].bpc.BList?
    && size <= |s.outbox|
    && (forall k :: 0 <= k < |ids| ==> ids[k] in before && ids[k] < size)
    && |s.calls[c].bpc.todo| <= |ids| && s.calls[c].bpc.todo == ids[|ids| - |s.calls[c].bpc.todo|..]
    && (forall i :: 0 <= i < size ==>
          (s.outbox[i].status.Unsent? <==> i in before && (i !in ids || i in s.calls[c].bpc.todo)))
    && (forall i :: size <= i < |s.outbox| ==> s.outbox[i].status.Unsent?)
  }

  ghost predicate During(s: State, run: seq<Event>, c: nat)
    requires Legal(s, run)
    decreases |run|
  {
    run != [] ==> c < |s.calls| && Sending(s.calls[c]) && During(Apply(s, run[0]), run[1..], c)
  }

  lemma PartwayAppends(s: State, s': State, c: nat, ids: seq<nat>, before: set<nat>, size: nat)
    requires Partway(s, c, ids, before, size) && OnlyAppends(s, s')
    ensures Partway(s', c, ids, before, size)
  {
    assert forall i :: 0 <= i < |s.outbox| ==> s'.outbox[i] == s'.outbox[..|s.outbox|][i];
  }

  lemma PartwaySend(s: State, c: nat, o: Outcome, a: Answer, ids: seq<nat>, before: set<nat>, size: nat)
    requires Partway(s, c, ids, before, size) && StepEnabled(s, c, o, a) && s.calls[c].bpc.BSend?
    ensures Partway(AfterStep(s, c, o, a), c, ids, before, size)
  {
    SendMoves(s, c, o, a);
  }

  lemma PartwayMark(s: State, c: nat, o: Outcome, a: Answer, ids: seq<nat>, before: set<nat>, size: nat)
    requires Partway(s, c, ids, before, size) && StepEnabled(s, c, o, a) && s.calls[c].bpc.BMark? && Applied(o)
    requires forall i, k :: 0 <= i < k < |ids| ==> ids[i] != ids[k]
    ensures Partway(AfterStep(s, c, o, a), c, ids, before, size)
  {
    var todo := s.calls[c].bpc.todo;
    MarkMoves(s, c, o, a);
    var n := |ids| - |todo|;
    assert todo[0] == ids[n] && todo[1..] == ids[n + 1..];
    forall i: nat ensures i in todo <==> i == todo[0] || i in todo[1..] {
      assert todo == [todo[0]] + todo[1..];
    }
    assert todo[0] !in todo[1..] by {
      forall k | 0 <= k < |todo| - 1 ensures todo[1..][k] != todo[0] { assert todo[1..][k] == ids[n + 1 + k]; }
    }
  }

  /** Another batch that lists meanwhile gets nothing. */
  lemma PartwayEmpty(s: State, d: nat, o: Outcome, a: Answer, c: nat, ids: seq<nat>, before: set<nat>, size: nat)
    requires Partway(s, c, ids, before, size) && Sending(s.calls[c]) && StepEnabled(s, d, o, a) && s.calls[d] == Batch(BList)
    requires o.Ok? ==> NoneSending(s.calls)
    ensures Partway(AfterStep(s, d, o, a), c, ids, before, size)
  {
    ListMoves(s, d, o, a);
  }

  lemma PartwayStep(s: State, e: Event, c: nat, ids: seq<nat>, before: set<nat>, size: nat)
    requires OnceOk(s) && Partway(s, c, ids, before, size) && Sending(s.calls[c]) && Enabled(s, e) && Solo(s, e)
    requires forall i, k :: 0 <= i < k < |ids| ==> ids[i] != ids[k]
    ensures Partway(Apply(s, e), c, ids, before, size)
  {
    var s' := Apply(s, e);
    match e {
      case Work(x, o, success) => WorkAppends(s, x, o, success); PartwayAppends(s, s', c, ids, before, size);
      case Step(d, o, a) =>
        if !s.calls[d].Batch? { OtherCallAppends(s, d, o, a); PartwayAppends(s, s', c, ids, before, size); }
        else if s.calls[d].bpc.BList? { PartwayEmpty(s, d, o, a, c, ids, before, size); }
        else {
          assert Sending(s.calls[d]);
          if s.calls[c].bpc.BSend? { PartwaySend(s, c, o, a, ids, before, size); } else { PartwayMark(s, c, o, a, ids, before, size); }
        }
      case _ => QuietAppends(s, e); PartwayAppends(s, s', c, ids, before, size);
    }
  }

  lemma {:induction false} PartwayAlways(s: State, run: seq<Event>, c: nat, ids: seq<nat>, before: set<nat>, size: nat)
    requires OnceOk(s) && Partway(s, c, ids, before, size)
    requires forall i, k :: 0 <= i < k < |ids| ==> ids[i] != ids[k]
    requires Legal(s, run) && SoloAll(s, run) && During(s, run, c)
    ensures OnceOk(After(s, run)) && Partway(After(s, run), c, ids, before, size)
    decreases |run|
  {
    if run != [] {
      PartwayStep(s, run[0], c, ids, before, size);
      OnceStep(s, run[0]);
      PartwayAlways(Apply(s, run[0]), run[1..], c, ids, before, size);
    }
  }

  lemma BatchRemoves(s: State, c: nat, ids: seq<nat>, run: seq<Event>, i: nat)
    requires SoloReachable(s) && NoneSending(s.calls) && StepEnabled(s, c, Ok, Rows(ids)) && s.calls[c] == Batch(BList)
    requires var s1 := AfterStep(s, c, Ok, Rows(ids));
             && Legal(s1, run) && SoloAll(s1, run) && During(s1, run, c)
             && c < |After(s1, run).calls| && After(s1, run).calls[c] == Batch(BSend([]))
    ensures |ids| == Min(10, |UnsentRows(s.outbox)|) && Smallest(ids, UnsentRows(s.outbox), OUTBOX_LIMIT)
    ensures var s' := After(AfterStep(s, c, Ok, Rows(ids)), run);
            && |s.outbox| <= |s'.outbox|
            && (i < |s.outbox| ==> (IsUnsent(s'.outbox, i) <==> IsUnsent(s.outbox, i) && i !in ids))
            && (|s.outbox| <= i < |s'.outbox| ==> IsUnsent(s'.outbox, i))
  {
    var s1 := AfterStep(s, c, Ok, Rows(ids));
    OnceReachable(s);
    OnceStep(s, Step(c, Ok, Rows(ids)));
    ListedPartway(s, c, ids);
    PartwayAlways(s1, run, c, ids, UnsentIds(s.outbox), |s.outbox|);
    PartwayDone(After(s1, run), c, ids, s.outbox, i);
  }

  /** A batch takes exactly the min(10, n) oldest of the n unsent rows out of the unsent set, whatever
      the other actors do and append from its list to its end: the rest stay unsent and so do the new. */
  lemma BatchRemovesExactly(s: State, c: nat, ids: seq<nat>, run: seq<Event>, i: nat)
    requires SoloReachable(s) && NoneSending(s.calls) && StepEnabled(s, c, Ok, Rows(ids)) && s.calls[c] == Batch(BList)
    requires var s1 := AfterStep(s, c, Ok, Rows(ids));
             && Legal(s1, run) && SoloAll(s1, run) && During(s1, run, c)
             && c < |After(s1, run).calls| && After(s1, run).calls[c] == Batch(BSend([]))
    ensures |ids| == Min(10, |UnsentRows(s.outbox)|) && OldestUnsent(ids, s.outbox, 10)
    ensures var s' := After(AfterStep(s, c, Ok, Rows(ids)), run);
            && |s.outbox| <= |s'.outbox|
            && (i < |s.outbox| ==> (IsUnsent(s'.outbox, i) <==> IsUnsent(s.outbox, i) && i !in ids))
            && (|s.outbox| <= i < |s'.outbox| ==> IsUnsent(s'.outbox, i))
  {
    BatchRemoves(s, c, ids, run, i);
    UnsentInOrder(ids, s.outbox, OUTBOX_LIMIT);
  }

  lemma PartwayDone(s: State, c: nat, ids: seq<nat>, outbox: seq<OutboxRow>, i: nat)
    requires Partway(s, c, ids, UnsentIds(outbox), |outbox|) && s.calls[c] == Batch(BSend([]))
    ensures |outbox| <= |s.outbox|
    ensures i < |outbox| ==> (IsUnsent(s.outbox, i) <==> IsUnsent(outbox, i) && i !in ids)
    ensures |outbox| <= i < |s.outbox| ==> IsUnsent(s.outbox, i)
  {
  }

  lemma ListedPartway(s: State, c: nat, ids: seq<nat>)
    requires StepEnabled(s, c, Ok, Rows(ids)) && s.calls[c] == Batch(BList)
    ensures Partway(AfterStep(s, c, Ok, Rows(ids)), c, ids, UnsentIds(s.outbox), |s.outbox|)
  {
    forall k | 0 <= k < |ids| ensures ids[k] in UnsentIds(s.outbox) { assert ids[k] in UnsentRows(s.outbox); }
  }
}
