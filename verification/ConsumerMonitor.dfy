/** The fetcher and the dispatcher of one consumer around the queue's mutex and condition
    variable. One event is one step of one of the two goroutines; the lock sections are split at
    every statement, so that everything the mutex does not exclude can happen. */
module ConsumerMonitor {
  import opened Types
  import opened PriorityHeap

  datatype Lock = Free | ByFetcher | ByDispatcher

  /** The fetch goroutine: at the top of its loop, holding a message it has fetched, inside
      `Push` (before the append, before the signal, before the unlock), inside `SetDrain`
      likewise, or returned. */
  datatype FPc =
    | Fetching | HasMessage(it: Item) | InPush(it: Item) | Pushed | PushSignalled
    | WantsDrain | InDrain | DrainSet | DrainSignalled | FetchDone

  /** The dispatch loop: about to call `Pop`, inside it holding the lock, parked in `Wait`, woken
      and queueing for the lock, leaving `Pop` with an item or without, or returned. */
  datatype DPc = Calling | InPop | Parked | Woken | Leaving(got: Option<Item>) | DispatchDone(drained: bool)

  datatype State = State(
    items: multiset<Item>, drain: bool, lock: Lock, f: FPc, d: DPc, cancelled: bool,
    fetched: multiset<Item>, rejected: multiset<Item>, pushed: multiset<Item>, dispatched: seq<Item>)

  function Init(): State {
    State(multiset{}, false, Free, Fetching, Calling, false, multiset{}, multiset{}, multiset{}, [])
  }

  /** `FetchOne` brings a message that decodes or not; `Stop` is the drain check or the context
      seen by the fetcher; `Take` names the item the heap gives up. */
  datatype Event = Cancel | FetchOne(it: Item, decodes: bool) | Stop | Fetcher | Dispatcher | Take(it: Item)

  ghost predicate MostUrgent(items: multiset<Item>, it: Item) {
    it in items && forall o :: o in items ==> PriorityOf(it.req) >= PriorityOf(o.req)
  }

  ghost predicate Enabled(s: State, e: Event) {
    match e
    case Cancel => true
    case FetchOne(_, _) => s.f.Fetching?
    case Stop => s.f.Fetching?
    case Fetcher =>
      !s.f.Fetching? && !s.f.FetchDone? && (s.f.HasMessage? || s.f.WantsDrain? ==> s.lock.Free?)
    case Dispatcher =>
      !s.d.Parked? && !s.d.DispatchDone? && (s.d.Calling? || s.d.Woken? ==> s.lock.Free?)
      && (s.d.InPop? ==> s.items == multiset{})
    case Take(it) => s.d.InPop? && MostUrgent(s.items, it)
  }

  /** `Signal` wakes the dispatcher if it is parked and is lost otherwise. */
  function Signal(d: DPc): DPc {
    if d.Parked? then Woken else d
  }

  function FetcherNext(f: FPc): FPc {
    match f
    case HasMessage(it) => InPush(it)
    case InPush(_) => Pushed
    case Pushed => PushSignalled
    case PushSignalled => Fetching
    case WantsDrain => InDrain
    case InDrain => DrainSet
    case DrainSet => DrainSignalled
    case DrainSignalled => FetchDone
    case _ => f
  }

  function FAfter(s: State, e: Event): FPc {
    match e
    case FetchOne(it, decodes) => if decodes then HasMessage(it) else s.f
    case Stop => WantsDrain
    case Fetcher => FetcherNext(s.f)
    case _ => s.f
  }

  /** In `Pop` with nothing queued: closed when draining or cancelled, else parked, with the lock
      given up in the same step. */
  function DispatcherNext(s: State): DPc {
    match s.d
    case Calling => InPop
    case Woken => InPop
    case InPop => if s.drain || s.cancelled then Leaving(None) else Parked
    case Leaving(got) => if got.Some? then Calling else DispatchDone(s.drain)
    case _ => s.d
  }

  function DAfter(s: State, e: Event): DPc {
    match e
    case Fetcher => if s.f.Pushed? || s.f.DrainSet? then Signal(s.d) else s.d
    case Dispatcher => DispatcherNext(s)
    case Take(it) => Leaving(Some(it))
    case _ => s.d
  }

  function LockAfter(s: State, e: Event): Lock {
    match e
    case Fetcher =>
      if s.f.HasMessage? || s.f.WantsDrain? then ByFetcher
      else if s.f.PushSignalled? || s.f.DrainSignalled? then Free
      else s.lock
    case Dispatcher =>
      if s.d.Calling? || s.d.Woken? then ByDispatcher
      else if s.d.InPop? && (s.drain || s.cancelled) then s.lock
      else Free
    case _ => s.lock
  }

  /** The message an event appends to the heap, takes from it, or starts to process. */
  function Appended(s: State, e: Event): multiset<Item> {
    if e.Fetcher? && s.f.InPush? then multiset{s.f.it} else multiset{}
  }

  function Taken(e: Event): multiset<Item> {
    if e.Take? then multiset{e.it} else multiset{}
  }

  function Started(s: State, e: Event): seq<Item> {
    if e.Dispatcher? && s.d.Leaving? && s.d.got.Some? then [s.d.got.value] else []
  }

  function Fetched(e: Event): multiset<Item> {
    if e.FetchOne? then multiset{e.it} else multiset{}
  }

  function Rejected(e: Event): multiset<Item> {
    if e.FetchOne? && !e.decodes then multiset{e.it} else multiset{}
  }

  ghost function Apply(s: State, e: Event): State
    requires Enabled(s, e)
  {
    State(
      s.items + Appended(s, e) - Taken(e), s.drain || (e.Fetcher? && s.f.InDrain?), LockAfter(s, e),
      FAfter(s, e), DAfter(s, e), s.cancelled || e.Cancel?,
      s.fetched + Fetched(e), s.rejected + Rejected(e), s.pushed + Appended(s, e), s.dispatched + Started(s, e))
  }

  ghost predicate Legal(s: State, run: seq<Event>)
    decreases |run|
  {
    run != [] ==> Enabled(s, run[0]) && Legal(Apply(s, run[0]), run[1..])
  }

  ghost function After(s: State, run: seq<Event>): State
    requires Legal(s, run)
    decreases |run|
  {
    if run == [] then s else After(Apply(s, run[0]), run[1..])
  }

  // ---- the invariant ----

  /** Fetched but not in the queue yet. */
  function InHand(f: FPc): multiset<Item> {
    if f.HasMessage? || f.InPush? then multiset{f.it} else multiset{}
  }

  /** Out of the queue but not started yet. */
  function Leaves(d: DPc): multiset<Item> {
    if d.Leaving? && d.got.Some? then multiset{d.got.value} else multiset{}
  }

  predicate FetcherInside(f: FPc) {
    f.InPush? || f.Pushed? || f.PushSignalled? || f.InDrain? || f.DrainSet? || f.DrainSignalled?
  }

  /** The mutex excludes, and only the fetcher sets drain, as the last thing it does. */
  ghost predicate Exclusion(s: State) {
    && (FetcherInside(s.f) <==> s.lock.ByFetcher?)
    && (s.d.InPop? || s.d.Leaving? <==> s.lock.ByDispatcher?)
    && (s.drain <==> s.f.DrainSet? || s.f.DrainSignalled? || s.f.FetchDone?)
  }

  /** Every message the reader handed over is rejected, about to be pushed, queued, or out. */
  ghost predicate Conserved(s: State) {
    && s.fetched == s.pushed + InHand(s.f) + s.rejected
    && s.pushed == s.items + Leaves(s.d) + multiset(s.dispatched)
  }

  /** A parked dispatcher has nothing to do, unless its signal is the fetcher's next statement. */
  ghost predicate NoLostWakeup(s: State) {
    s.d.Parked? ==> (s.items != multiset{} ==> s.f.Pushed?) && (s.drain ==> s.f.DrainSet?)
  }

  /** The dispatcher gives up only when nothing is queued and it was told to stop; if that was
      by drain, the fetcher has returned. */
  ghost predicate Quits(s: State) {
    && (s.d == Leaving(None) ==> s.items == multiset{} && (s.drain || s.cancelled))
    && (s.d == DispatchDone(true) ==> s.items == multiset{} && s.f.FetchDone?)
    && (s.d == DispatchDone(false) ==> s.cancelled)
  }

  ghost predicate Inv(s: State) {
    Exclusion(s) && Conserved(s) && NoLostWakeup(s) && Quits(s)
  }

  lemma ExclusionStep(s: State, e: Event)
    requires Inv(s) && Enabled(s, e)
    ensures Exclusion(Apply(s, e))
  {
  }

  lemma HandStep(s: State, e: Event)
    requires Exclusion(s) && Enabled(s, e)
    ensures Fetched(e) + InHand(s.f) == Appended(s, e) + InHand(FAfter(s, e)) + Rejected(e)
  {
  }

  lemma LeavesStep(s: State, e: Event)
    requires Exclusion(s) && Enabled(s, e)
    ensures Taken(e) + Leaves(s.d) == Leaves(DAfter(s, e)) + multiset(Started(s, e))
    ensures Taken(e) <= s.items
  {
  }

  lemma ConservedStep(s: State, e: Event)
    requires Inv(s) && Enabled(s, e)
    ensures Conserved(Apply(s, e))
  {
    HandStep(s, e);
    LeavesStep(s, e);
    FetchedBalance(s.pushed, InHand(s.f), s.rejected, Fetched(e), Appended(s, e), InHand(FAfter(s, e)), Rejected(e));
    PushedBalance(s.items, Leaves(s.d), s.dispatched, Appended(s, e), Taken(e), Leaves(DAfter(s, e)), Started(s, e));
  }

  lemma FetchedBalance(pushed: multiset<Item>, hand: multiset<Item>, rejected: multiset<Item>,
                       f: multiset<Item>, p: multiset<Item>, hand': multiset<Item>, r: multiset<Item>)
    requires f + hand == p + hand' + r
    ensures pushed + hand + rejected + f == (pushed + p) + hand' + (rejected + r)
  {
    calc {
      pushed + hand + rejected + f;
      pushed + rejected + (f + hand);
      (pushed + p) + hand' + (rejected + r);
    }
  }

  lemma PushedBalance(items: multiset<Item>, leaves: multiset<Item>, out: seq<Item>,
                      p: multiset<Item>, t: multiset<Item>, leaves': multiset<Item>, started: seq<Item>)
    requires t <= items && t + leaves == leaves' + multiset(started)
    ensures items + leaves + multiset(out) + p == (items + p - t) + leaves' + multiset(out + started)
  {
    calc {
      items + leaves + multiset(out) + p;
      (items + p - t) + (t + leaves) + multiset(out);
      (items + p - t) + leaves' + multiset(out + started);
    }
  }

  lemma NoLostWakeupStep(s: State, e: Event)
    requires Inv(s) && Enabled(s, e)
    ensures NoLostWakeup(Apply(s, e))
  {
  }

  lemma QuitsStep(s: State, e: Event)
    requires Inv(s) && Enabled(s, e)
    ensures Quits(Apply(s, e))
  {
  }

  lemma InvStep(s: State, e: Event)
    requires Inv(s) && Enabled(s, e)
    ensures Inv(Apply(s, e))
  {
    ExclusionStep(s, e);
    ConservedStep(s, e);
    NoLostWakeupStep(s, e);
    QuitsStep(s, e);
  }

  lemma {:induction false} InvAlways(s: State, run: seq<Event>)
    requires Inv(s) && Legal(s, run)
    ensures Inv(After(s, run))
    decreases |run|
  {
    if run != [] {
      InvStep(s, run[0]);
      InvAlways(Apply(s, run[0]), run[1..]);
    }
  }

  /** If `Pop` reported false because drain was set, everything ever pushed was dispatched, and
      whatever happens afterwards nothing is pushed or dispatched any more. */
  lemma DrainExitIsComplete(run: seq<Event>, more: seq<Event>)
    requires Legal(Init(), run) && After(Init(), run).d == DispatchDone(true)
    requires Legal(After(Init(), run), more)
    ensures var s := After(Init(), run); var s' := After(s, more);
            && s.pushed == multiset(s.dispatched) && s.fetched == multiset(s.dispatched) + s.rejected
            && s'.fetched == s.fetched && s'.dispatched == s.dispatched && s'.d == s.d
  {
    InvAlways(Init(), run);
    AllOut(After(Init(), run));
    NothingMore(After(Init(), run), more);
  }

  lemma AllOut(s: State)
    requires Inv(s) && s.d == DispatchDone(true)
    ensures s.f.FetchDone? && s.pushed == multiset(s.dispatched) && s.fetched == multiset(s.dispatched) + s.rejected
  {
    assert s.items == multiset{} && Leaves(s.d) == multiset{} && InHand(s.f) == multiset{};
  }

  lemma {:induction false} NothingMore(s: State, run: seq<Event>)
    requires s.f.FetchDone? && s.d.DispatchDone? && Legal(s, run)
    ensures var s' := After(s, run); s'.fetched == s.fetched && s'.dispatched == s.dispatched && s'.d == s.d
    decreases |run|
  {
    if run != [] {
      NothingMore(Apply(s, run[0]), run[1..]);
    }
  }

  // ---- draining ends ----

  function Rank(d: DPc): nat {
    match d
    case Leaving(Some(_)) => 4
    case Calling => 3
    case Woken => 3
    case InPop => 2
    case Leaving(None) => 1
    case _ => 0
  }

  /** Steps the dispatcher has left once nothing more is pushed. */
  function Remaining(s: State): nat {
    4 * |s.items| + Rank(s.d)
  }

  lemma SomeMostUrgent(items: multiset<Item>) returns (it: Item)
    requires items != multiset{}
    ensures MostUrgent(items, it)
    decreases |items|
  {
    var x :| x in items;
    var rest := items - multiset{x};
    it := x;
    if rest != multiset{} {
      var y := SomeMostUrgent(rest);
      if PriorityOf(y.req) > PriorityOf(x.req) { it := y; }
    }
    forall o | o in items
      ensures PriorityOf(it.req) >= PriorityOf(o.req)
    {
      assert o == x || o in rest;
    }
  }

  /** Once the fetcher has returned, the dispatcher can always go on until it is done. */
  lemma DrainingGoesOn(s: State)
    requires Inv(s) && s.f.FetchDone? && !s.d.DispatchDone?
    ensures exists e :: Enabled(s, e) && (e.Dispatcher? || e.Take?)
  {
    if s.d.InPop? && s.items != multiset{} {
      var it := SomeMostUrgent(s.items);
      assert Enabled(s, Take(it));
    } else {
      assert Enabled(s, Dispatcher);
    }
  }

  /** And every step it takes brings it closer, whichever item of equal priority the heap gives up. */
  lemma DrainingEnds(s: State, e: Event)
    requires Inv(s) && s.f.FetchDone? && Enabled(s, e)
    ensures FAfter(s, e).FetchDone?
    ensures !e.Cancel? ==> Remaining(Apply(s, e)) < Remaining(s)
  {
    var items' := s.items + Appended(s, e) - Taken(e);
    if e.Take? {
      assert |items'| == |s.items| - 1;
    } else {
      assert items' == s.items;
      assert !e.Cancel? ==> Rank(DAfter(s, e)) < Rank(s.d);
    }
  }

  // ---- the order of dispatch ----

  /** A message on its way out is at least as urgent as all that is queued. */
  ghost predicate UrgentFirst(s: State) {
    s.d.Leaving? && s.d.got.Some? ==> forall o :: o in s.items ==> PriorityOf(s.d.got.value.req) >= PriorityOf(o.req)
  }

  lemma UrgentFirstStep(s: State, e: Event)
    requires Inv(s) && UrgentFirst(s) && Enabled(s, e)
    ensures UrgentFirst(Apply(s, e))
  {
    if s.d.Leaving? {
      assert Appended(s, e) == multiset{};
    }
  }

  /** In every interleaving, a message that leaves the queue has none above it there, then and until it starts. */
  lemma {:induction false} UrgentFirstAlways(s: State, run: seq<Event>)
    requires Inv(s) && UrgentFirst(s) && Legal(s, run)
    ensures UrgentFirst(After(s, run))
    decreases |run|
  {
    if run != [] {
      InvStep(s, run[0]);
      UrgentFirstStep(s, run[0]);
      UrgentFirstAlways(Apply(s, run[0]), run[1..]);
    }
  }

  /** In every interleaving: nothing fetched is lost or doubled, the mutex excludes, the dispatcher
      never sleeps on an item or the drain flag without a signal on its way, and a message on its way
      out has none above it in the queue. */
  lemma EveryInterleaving(run: seq<Event>)
    requires Legal(Init(), run)
    ensures var s := After(Init(), run);
            && s.fetched == s.items + Leaves(s.d) + multiset(s.dispatched) + InHand(s.f) + s.rejected
            && !(FetcherInside(s.f) && (s.d.InPop? || s.d.Leaving?))
            && (s.d.Parked? && (s.items != multiset{} || s.drain) ==> s.f.Pushed? || s.f.DrainSet?)
            && (s.d.Leaving? && s.d.got.Some? ==>
                  forall o :: o in s.items ==> PriorityOf(s.d.got.value.req) >= PriorityOf(o.req))
  {
    InvAlways(Init(), run);
    UrgentFirstAlways(Init(), run);
  }

  /** What has started since the first `n` messages, and then what is about to. */
  function StartedSince(s: State, n: nat): seq<Item>
    requires n <= |s.dispatched|
  {
    s.dispatched[n..] + if s.d.Leaving? && s.d.got.Some? then [s.d.got.value] else []
  }

  ghost predicate InOrderSince(s: State, n: nat) {
    n <= |s.dispatched| && Descending(StartedSince(s, n)) && NoneAbove(StartedSince(s, n), s.items)
  }

  lemma StartedAlready(s: State, e: Event, n: nat)
    requires s.f.FetchDone? && n <= |s.dispatched| && Enabled(s, e) && !e.Take?
    ensures StartedSince(Apply(s, e), n) == StartedSince(s, n) && Apply(s, e).items == s.items
  {
  }

  lemma DrainingStep(s: State, e: Event, n: nat)
    requires Inv(s) && s.f.FetchDone? && InOrderSince(s, n) && Enabled(s, e)
    ensures FAfter(s, e).FetchDone? && InOrderSince(Apply(s, e), n)
  {
    var s' := Apply(s, e);
    if e.Take? {
      assert s.items == s'.items + multiset{e.it};
      assert StartedSince(s', n) == StartedSince(s, n) + [e.it];
      OneMoreOut(StartedSince(s, n), s.items, s'.items, e.it);
    } else {
      StartedAlready(s, e, n);
    }
  }

  lemma {:induction false} DrainingAlways(s: State, run: seq<Event>, n: nat)
    requires Inv(s) && s.f.FetchDone? && InOrderSince(s, n) && Legal(s, run)
    ensures InOrderSince(After(s, run), n)
    decreases |run|
  {
    if run != [] {
      DrainingStep(s, run[0], n);
      InvStep(s, run[0]);
      DrainingAlways(Apply(s, run[0]), run[1..], n);
    }
  }

  /** Once the fetcher has returned, whatever is still started comes in non-increasing priority. */
  lemma DrainsInOrder(run: seq<Event>, more: seq<Event>)
    requires Legal(Init(), run) && After(Init(), run).f.FetchDone? && Legal(After(Init(), run), more)
    ensures var s := After(Init(), run); var s' := After(s, more);
            |s.dispatched| <= |s'.dispatched| && Descending(s'.dispatched[|s.dispatched|..])
  {
    var s := After(Init(), run);
    InvAlways(Init(), run);
    UrgentFirstAlways(Init(), run);
    DrainingStarts(s);
    DrainingAlways(s, more, |s.dispatched|);
    StartedDescend(After(s, more), |s.dispatched|);
  }

  lemma DrainingStarts(s: State)
    requires UrgentFirst(s)
    ensures InOrderSince(s, |s.dispatched|)
  {
  }

  lemma StartedDescend(s: State, n: nat)
    requires InOrderSince(s, n)
    ensures Descending(s.dispatched[n..])
  {
    PrefixDescends(s.dispatched[n..], StartedSince(s, n));
  }

  lemma PrefixDescends(a: seq<Item>, b: seq<Item>)
    requires a <= b && Descending(b)
    ensures Descending(a)
  {
    assert forall i :: 0 <= i < |a| ==> a[i] == b[i];
  }

  /** Nobody is ever stuck: while the dispatcher has not quit and there is an item or the drain
      flag, one of the two goroutines can take a step other than fetching. */
  lemma NoDeadlock(s: State)
    requires Inv(s) && !s.d.DispatchDone? && (s.items != multiset{} || s.drain)
    ensures exists e :: Enabled(s, e) && (e.Fetcher? || e.Dispatcher? || e.Take?)
  {
    if FetcherInside(s.f) {
      assert Enabled(s, Fetcher);
    } else if s.d.InPop? && s.items != multiset{} {
      var it := SomeMostUrgent(s.items);
      assert Enabled(s, Take(it));
    } else {
      assert Enabled(s, Dispatcher);
    }
  }

  /** A cancelled context is different: whatever the reader still brings, or brought and had not
      been pushed, is never dispatched. */
  lemma AfterCancelNothingStarts(s: State, run: seq<Event>)
    requires Inv(s) && s.d == DispatchDone(false) && Legal(s, run)
    ensures var s' := After(s, run);
            && s'.dispatched == s.dispatched
            && s'.fetched == multiset(s.dispatched) + s'.items + InHand(s'.f) + s'.rejected
  {
    InvAlways(s, run);
    StaysDone(s, run);
  }

  lemma {:induction false} StaysDone(s: State, run: seq<Event>)
    requires s.d.DispatchDone? && Legal(s, run)
    ensures var s' := After(s, run); s'.dispatched == s.dispatched && s'.d == s.d
    decreases |run|
  {
    if run != [] {
      StaysDone(Apply(s, run[0]), run[1..]);
    }
  }

  /** Such a run exists: the context is cancelled between a fetch and its push. */
  lemma CancelAbandonsMessage(it: Item) returns (run: seq<Event>)
    ensures Legal(Init(), run)
    ensures After(Init(), run) == State(multiset{}, false, Free, HasMessage(it), DispatchDone(false), true,
                                        multiset{it}, multiset{}, multiset{}, [])
  {
    var s2 := Holding(it, Free, Calling, true);
    assert Apply(Init(), FetchOne(it, true)) == Holding(it, Free, Calling, false);
    assert Apply(Holding(it, Free, Calling, false), Cancel) == s2;
    run := QuitEmptyHanded(it);
    run := Prepend(Holding(it, Free, Calling, false), Cancel, run);
    run := Prepend(Init(), FetchOne(it, true), run);
  }

  lemma QuitEmptyHanded(it: Item) returns (run: seq<Event>)
    ensures var s := Holding(it, Free, Calling, true);
            Legal(s, run) && After(s, run) == Holding(it, Free, DispatchDone(false), true)
  {
    var s2 := Holding(it, Free, Calling, true);
    var s3 := Holding(it, ByDispatcher, InPop, true);
    var s4 := Holding(it, ByDispatcher, Leaving(None), true);
    assert Apply(s2, Dispatcher) == s3;
    assert Apply(s3, Dispatcher) == s4;
    assert Apply(s4, Dispatcher) == Holding(it, Free, DispatchDone(false), true);
    run := Prepend(s4, Dispatcher, []);
    run := Prepend(s3, Dispatcher, run);
    run := Prepend(s2, Dispatcher, run);
  }

  function Holding(it: Item, lock: Lock, d: DPc, cancelled: bool): State {
    State(multiset{}, false, lock, HasMessage(it), d, cancelled, multiset{it}, multiset{}, multiset{}, [])
  }

  lemma Prepend(s: State, e: Event, rest: seq<Event>) returns (run: seq<Event>)
    requires Enabled(s, e) && Legal(Apply(s, e), rest)
    ensures run == [e] + rest && Legal(s, run) && After(s, run) == After(Apply(s, e), rest)
  {
    run := [e] + rest;
    assert run[0] == e && run[1..] == rest;
  }
}
