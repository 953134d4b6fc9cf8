/** One scheduler replica without failures enqueues every occurrence of a schedule exactly once. */
module RecurringOnce {
  import opened Types
  import opened Tables
  import opened Protocol
  import opened Recurring

  /** A cron tick that still has work to do. */
  predicate Active(call: Call) {
    call.Cron? && !(call.tpc.TCreate? && call.tpc.todo == [])
  }

  /** Cron ticks do not overlap, none of their calls fails, and `Next` moves forward. */
  ghost predicate SoloTick(next: Next, s: State, e: Event) {
    && Follows(next, s, e)
    && (forall cron, t :: next(cron, t) > t)
    && (e.Begin? && e.call.Cron? ==> forall c :: 0 <= c < |s.calls| ==> !Active(s.calls[c]))
    && (e.Step? && e.id < |s.calls| && s.calls[e.id].Cron? ==> e.outcome.Ok?)
  }

  predicate OneActive(calls: seq<Call>) {
    forall c, d :: 0 <= c < |calls| && 0 <= d < |calls| && Active(calls[c]) && Active(calls[d]) ==> c == d
  }

  predicate EachOnce(log: seq<Entry>) {
    forall i, k :: 0 <= i < k < |log| && log[i].origin.ByCron? && log[k].origin.ByCron? ==> log[i].origin != log[k].origin
  }

  predicate KnownSchedules(log: seq<Entry>, nextSchedule: nat) {
    forall i :: 0 <= i < |log| && log[i].origin.ByCron? ==> log[i].origin.schedule < nextSchedule
  }

  /** Some tick has enqueued the current occurrence and is about to move the schedule on. */
  ghost predicate Moving(calls: seq<Call>, id: nat) {
    exists c :: 0 <= c < |calls| && calls[c].Cron? && calls[c].tpc.TUpdate? && calls[c].tpc.todo != []
                && calls[c].tpc.todo[0].id == id
  }

  /** What was enqueued lies before next_run_at, or is the occurrence being moved past. */
  ghost predicate FiredBefore(s: State, id: nat, t: int)
    requires id in s.schedules
  {
    t < s.schedules[id].nextRun || (t == s.schedules[id].nextRun && Moving(s.calls, id))
  }

  ghost predicate AllFiredBefore(s: State) {
    forall i :: 0 <= i < |s.log| && s.log[i].origin.ByCron? && s.log[i].origin.schedule in s.schedules ==>
      FiredBefore(s, s.log[i].origin.schedule, s.log[i].origin.occurrence)
  }

  /** A snapshot is up to date, and what it still has to fire has not been fired. */
  ghost predicate StillToFire(s: State, todo: seq<DueCron>, headFired: bool) {
    && (forall i, k :: 0 <= i < k < |todo| ==> todo[i].id != todo[k].id)
    && (forall k :: 0 <= k < |todo| ==>
          && todo[k].id < s.nextSchedule
          && (todo[k].id in s.schedules ==> s.schedules[todo[k].id].nextRun == todo[k].row.nextRun)
          && ((headFired && k == 0) || !Fired(s.log, todo[k].id, todo[k].row.nextRun)))
  }

  ghost predicate TickOk(s: State, call: Call) {
    call.Cron? ==>
      match call.tpc
      case TList => true
      case TCreate(todo) => StillToFire(s, todo, false)
      case TEnqueue(todo, _) => todo != [] && StillToFire(s, todo, false)
      case TUpdate(todo) => todo != [] && StillToFire(s, todo, true)
  }

  ghost predicate FiredOnceOk(s: State) {
    && OneActive(s.calls) && EachOnce(s.log) && KnownSchedules(s.log, s.nextSchedule)
    && AllFiredBefore(s)
    && (forall id :: id in s.schedules ==> id < s.nextSchedule)
    && (forall c :: 0 <= c < |s.calls| ==> TickOk(s, s.calls[c]))
  }

  // ---- events other than cron steps ----

  predicate NoCron(log: seq<Entry>, log': seq<Entry>) {
    |log| <= |log'| && (forall i :: 0 <= i < |log| ==> log'[i] == log[i])
    && (forall i :: |log| <= i < |log'| ==> !log'[i].origin.ByCron?)
  }

  /** Nothing about cron changed but schedules added or dropped. */
  ghost predicate Quiet(s: State, s': State) {
    && NoCron(s.log, s'.log)
    && s.nextSchedule <= s'.nextSchedule
    && (forall id :: id in s'.schedules ==>
          id < s'.nextSchedule
          && (id < s.nextSchedule ==> id in s.schedules && s'.schedules[id].nextRun == s.schedules[id].nextRun))
    && |s.calls| <= |s'.calls|
    && (forall c :: 0 <= c < |s.calls| ==> s'.calls[c] == s.calls[c] || (!s.calls[c].Cron? && !s'.calls[c].Cron?))
    && (forall c :: |s.calls| <= c < |s'.calls| ==> s'.calls[c].Cron? ==> s'.calls[c].tpc.TList?)
  }

  lemma QuietFired(s: State, s': State, id: nat, t: int)
    requires Quiet(s, s') && Fired(s'.log, id, t)
    ensures Fired(s.log, id, t)
  {
    var i :| 0 <= i < |s'.log| && s'.log[i].origin == ByCron(id, t);
    assert s.log[i].origin == ByCron(id, t);
  }

  lemma QuietTick(s: State, s': State, call: Call)
    requires Quiet(s, s') && TickOk(s, call)
    ensures TickOk(s', call)
  {
    if call.Cron? && !call.tpc.TList? {
      var todo := call.tpc.todo;
      forall k | 0 <= k < |todo| && Fired(s'.log, todo[k].id, todo[k].row.nextRun)
        ensures Fired(s.log, todo[k].id, todo[k].row.nextRun)
      {
        QuietFired(s, s', todo[k].id, todo[k].row.nextRun);
      }
    }
  }

  lemma QuietOnce(s: State, s': State)
    requires FiredOnceOk(s) && Quiet(s, s') && OneActive(s'.calls)
    ensures FiredOnceOk(s')
  {
    forall c | 0 <= c < |s'.calls| ensures TickOk(s', s'.calls[c]) {
      if c < |s.calls| { QuietTick(s, s', s.calls[c]); }
    }
    forall i | 0 <= i < |s'.log| && s'.log[i].origin.ByCron? && s'.log[i].origin.schedule in s'.schedules
      ensures FiredBefore(s', s'.log[i].origin.schedule, s'.log[i].origin.occurrence)
    {
      var id := s'.log[i].origin.schedule;
      assert s.log[i] == s'.log[i] && FiredBefore(s, id, s.log[i].origin.occurrence);
      if Moving(s.calls, id) {
        var c :| 0 <= c < |s.calls| && s.calls[c].Cron? && s.calls[c].tpc.TUpdate? && s.calls[c].tpc.todo != []
                 && s.calls[c].tpc.todo[0].id == id;
        assert s'.calls[c] == s.calls[c];
      }
    }
  }

  lemma QuietStep(next: Next, s: State, e: Event)
    requires FiredOnceOk(s) && Enabled(s, e) && SoloTick(next, s, e)
    requires !(e.Step? && s.calls[e.id].Cron?)
    ensures Quiet(s, Apply(s, e)) && OneActive(Apply(s, e).calls)
  {
    match e {
      case Step(c, o, a) => QuietCall(s, c, o, a);
      case _ =>
    }
  }

  lemma QuietCall(s: State, c: nat, o: Outcome, a: Answer)
    requires FiredOnceOk(s) && StepEnabled(s, c, o, a) && !s.calls[c].Cron?
    ensures Quiet(s, AfterStep(s, c, o, a)) && OneActive(AfterStep(s, c, o, a).calls)
  {
    var s' := AfterStep(s, c, o, a);
    assert forall d :: 0 <= d < |s.calls| && d != c ==> s'.calls[d] == s.calls[d];
    assert !s'.calls[c].Cron?;
    assert forall d :: 0 <= d < |s'.calls| && Active(s'.calls[d]) ==> d != c && Active(s.calls[d]);
  }

  // ---- cron steps ----

  /** The one active tick at work: every other tick is over. */
  lemma OthersOver(s: State, c: nat)
    requires FiredOnceOk(s) && c < |s.calls| && Active(s.calls[c])
    ensures forall d :: 0 <= d < |s.calls| && d != c && s.calls[d].Cron? ==> s.calls[d].tpc == TCreate([])
    ensures forall id :: Moving(s.calls, id) <==>
              s.calls[c].tpc.TUpdate? && s.calls[c].tpc.todo != [] && s.calls[c].tpc.todo[0].id == id
  {
    assert forall d :: 0 <= d < |s.calls| && Active(s.calls[d]) ==> d == c;
  }

  lemma ListStep(s: State, c: nat, a: Answer)
    requires FiredOnceOk(s) && StepEnabled(s, c, Ok, a) && s.calls[c].Cron? && s.calls[c].tpc.TList?
    ensures StillToFire(s, CronSnapshot(s.schedules, a.ids), false)
  {
    var todo := CronSnapshot(s.schedules, a.ids);
    OthersOver(s, c);
    forall k | 0 <= k < |todo| ensures !Fired(s.log, todo[k].id, todo[k].row.nextRun) {
      forall i | 0 <= i < |s.log| && s.log[i].origin.ByCron? && s.log[i].origin.schedule == todo[k].id
        ensures s.log[i].origin.occurrence < todo[k].row.nextRun
      {
        assert FiredBefore(s, todo[k].id, s.log[i].origin.occurrence);
      }
    }
  }

  /** What is left of a snapshot once its head has been dealt with. */
  lemma TailPending(s: State, s': State, todo: seq<DueCron>, headFired: bool)
    requires StillToFire(s, todo, headFired) && todo != []
    requires forall k :: 0 < k < |todo| && Fired(s'.log, todo[k].id, todo[k].row.nextRun) ==>
               Fired(s.log, todo[k].id, todo[k].row.nextRun)
    requires s'.nextSchedule == s.nextSchedule && s'.schedules.Keys == s.schedules.Keys
    requires forall id :: id in s.schedules && id != todo[0].id ==> s'.schedules[id].nextRun == s.schedules[id].nextRun
    ensures StillToFire(s', todo[1..], false)
  {
  }

  lemma OnlyHeadFires(log: seq<Entry>, log': seq<Entry>, todo: seq<DueCron>)
    requires todo != [] && forall i, k :: 0 <= i < k < |todo| ==> todo[i].id != todo[k].id
    requires |log'| == |log| + 1 && log'[..|log|] == log && log'[|log|].origin == ByCron(todo[0].id, todo[0].row.nextRun)
    ensures forall k :: 0 < k < |todo| && Fired(log', todo[k].id, todo[k].row.nextRun) ==>
              Fired(log, todo[k].id, todo[k].row.nextRun)
  {
    forall k | 0 < k < |todo| && Fired(log', todo[k].id, todo[k].row.nextRun)
      ensures Fired(log, todo[k].id, todo[k].row.nextRun)
    {
      var i :| 0 <= i < |log'| && log'[i].origin == ByCron(todo[k].id, todo[k].row.nextRun);
      assert i < |log| && log[i] == log'[..|log|][i];
    }
  }

  lemma CronTick(next: Next, s: State, c: nat, a: Answer)
    requires FiredOnceOk(s) && StepEnabled(s, c, Ok, a) && s.calls[c].Cron? && SoloTick(next, s, Step(c, Ok, a))
    ensures TickOk(AfterStep(s, c, Ok, a), CallNext(s, c, Ok, a))
  {
    var s' := AfterStep(s, c, Ok, a);
    assert TickOk(s, s.calls[c]);
    match s.calls[c].tpc {
      case TList =>
        ListStep(s, c, a);
      case TCreate(todo) => TailPending(s, s', todo, false);
      case TEnqueue(todo, _) =>
        if s'.log != s.log {
          OnlyHeadFires(s.log, s'.log, todo);
        }
      case TUpdate(todo) => TailPending(s, s', todo, true);
    }
  }

  /** The only other ticks are over, so they have nothing pending. */
  lemma OtherTicks(s: State, c: nat, o: Outcome, a: Answer, d: nat)
    requires FiredOnceOk(s) && StepEnabled(s, c, o, a) && s.calls[c].Cron? && d < |s.calls| && d != c
    ensures TickOk(AfterStep(s, c, o, a), s.calls[d])
  {
    OthersOver(s, c);
  }

  lemma LogOnce(log: seq<Entry>, op: Op, nextSchedule: nat)
    requires EachOnce(log) && KnownSchedules(log, nextSchedule)
    requires op.Enqueue? && op.entry.origin.ByCron? ==>
               op.entry.origin.schedule < nextSchedule && !Fired(log, op.entry.origin.schedule, op.entry.origin.occurrence)
    ensures EachOnce(LogAfter(log, op)) && KnownSchedules(LogAfter(log, op), nextSchedule)
  {
  }

  lemma CronOpNew(s: State, c: nat, a: Answer)
    requires FiredOnceOk(s) && StepEnabled(s, c, Ok, a) && s.calls[c].Cron?
    ensures var op := CallOp(s.calls[c], |s.born|, s.outbox, a);
            op.Enqueue? && op.entry.origin.ByCron? ==>
              op.entry.origin.schedule < s.nextSchedule && !Fired(s.log, op.entry.origin.schedule, op.entry.origin.occurrence)
  {
    assert TickOk(s, s.calls[c]);
  }

  lemma CronLog(s: State, c: nat, a: Answer)
    requires FiredOnceOk(s) && StepEnabled(s, c, Ok, a) && s.calls[c].Cron?
    ensures EachOnce(AfterStep(s, c, Ok, a).log) && KnownSchedules(AfterStep(s, c, Ok, a).log, s.nextSchedule)
  {
    CronOpNew(s, c, a);
    LogOnce(s.log, CallOp(s.calls[c], |s.born|, s.outbox, a), s.nextSchedule);
  }

  lemma CronFired(next: Next, s: State, c: nat, a: Answer, i: nat)
    requires FiredOnceOk(s) && StepEnabled(s, c, Ok, a) && s.calls[c].Cron? && SoloTick(next, s, Step(c, Ok, a))
    requires var s' := AfterStep(s, c, Ok, a);
             i < |s'.log| && s'.log[i].origin.ByCron? && s'.log[i].origin.schedule in s'.schedules
    ensures var s' := AfterStep(s, c, Ok, a);
            FiredBefore(s', s'.log[i].origin.schedule, s'.log[i].origin.occurrence)
  {
    var s' := AfterStep(s, c, Ok, a);
    var id, t := s'.log[i].origin.schedule, s'.log[i].origin.occurrence;
    OthersOver(s, c);
    assert TickOk(s, s.calls[c]);
    assert i < |s.log| ==> s'.log[i] == s.log[i] && FiredBefore(s, id, t);
    if s.calls[c].tpc.TEnqueue? && i == |s.log| {
      assert s'.calls[c].tpc.TUpdate?;
      assert Moving(s'.calls, id);
    }
  }

  lemma OneActiveStays(s: State, c: nat, o: Outcome, a: Answer)
    requires FiredOnceOk(s) && StepEnabled(s, c, o, a) && s.calls[c].Cron?
    ensures OneActive(AfterStep(s, c, o, a).calls)
  {
    OthersOver(s, c);
    assert forall d :: 0 <= d < |s.calls| && d != c ==> AfterStep(s, c, o, a).calls[d] == s.calls[d];
  }

  lemma CronOnce(next: Next, s: State, c: nat, a: Answer)
    requires FiredOnceOk(s) && StepEnabled(s, c, Ok, a) && s.calls[c].Cron? && SoloTick(next, s, Step(c, Ok, a))
    ensures FiredOnceOk(AfterStep(s, c, Ok, a))
  {
    var s' := AfterStep(s, c, Ok, a);
    OneActiveStays(s, c, Ok, a);
    CronLog(s, c, a);
    CronTick(next, s, c, a);
    forall d | 0 <= d < |s.calls| && d != c ensures TickOk(s', s.calls[d]) { OtherTicks(s, c, Ok, a, d); }
    forall i | 0 <= i < |s'.log| && s'.log[i].origin.ByCron? && s'.log[i].origin.schedule in s'.schedules
      ensures FiredBefore(s', s'.log[i].origin.schedule, s'.log[i].origin.occurrence)
    {
      CronFired(next, s, c, a, i);
    }
  }

  lemma FiredOnceStep(next: Next, s: State, e: Event)
    requires FiredOnceOk(s) && Enabled(s, e) && SoloTick(next, s, e)
    ensures FiredOnceOk(Apply(s, e))
  {
    if e.Step? && s.calls[e.id].Cron? {
      CronOnce(next, s, e.id, e.answer);
    } else {
      QuietStep(next, s, e);
      QuietOnce(s, Apply(s, e));
    }
  }

  ghost predicate SoloTicks(next: Next, s: State, run: seq<Event>)
    requires Legal(s, run)
    decreases |run|
  {
    run != [] ==> SoloTick(next, s, run[0]) && SoloTicks(next, Apply(s, run[0]), run[1..])
  }

  lemma {:induction false} FiredOnceAlways(next: Next, s: State, run: seq<Event>)
    requires FiredOnceOk(s) && CronOk(next, s) && Legal(s, run) && SoloTicks(next, s, run)
    ensures FiredOnceOk(After(s, run)) && CronOk(next, After(s, run))
    decreases |run|
  {
    if run != [] {
      FiredOnceStep(next, s, run[0]);
      CronStep(next, s, run[0]);
      FiredOnceAlways(next, Apply(s, run[0]), run[1..]);
    }
  }

  /** The messages enqueued for an occurrence. */
  ghost function Firings(log: seq<Entry>, id: nat, t: int): set<nat> {
    set i: nat | i < |log| && log[i].origin == ByCron(id, t)
  }

  /** From an empty system: every occurrence before next_run_at was enqueued exactly once, and
      no occurrence ever more than once. */
  lemma ExactlyOnce(next: Next, limit: int, clock: int, run: seq<Event>, id: nat)
    requires var s := Init(limit, clock); Legal(s, run) && SoloTicks(next, s, run)
    requires id in After(Init(limit, clock), run).schedules
    ensures var s := After(Init(limit, clock), run);
            var row := s.schedules[id];
            && (forall t :: |Firings(s.log, id, t)| <= 1)
            && exists k: nat ::
                 && row.nextRun == Occurrence(next, row.cron, row.first, k)
                 && forall i: nat :: i < k ==> |Firings(s.log, id, Occurrence(next, row.cron, row.first, i))| == 1
  {
    FiredOnceAlways(next, Init(limit, clock), run);
    var s := After(Init(limit, clock), run);
    var row := s.schedules[id];
    forall t ensures |Firings(s.log, id, t)| <= 1 && (Fired(s.log, id, t) ==> |Firings(s.log, id, t)| == 1) {
      AtMostOne(s.log, id, t);
    }
    var k: nat :| CaughtUp(next, s.log, id, row, row.nextRun, k);
    assert forall i: nat :: i < k ==> Fired(s.log, id, Occurrence(next, row.cron, row.first, i));
  }

  lemma AtMostOne(log: seq<Entry>, id: nat, t: int)
    requires EachOnce(log)
    ensures |Firings(log, id, t)| <= 1 && (Fired(log, id, t) ==> |Firings(log, id, t)| == 1)
  {
    var f := Firings(log, id, t);
    if Fired(log, id, t) {
      var i: nat :| i < |log| && log[i].origin == ByCron(id, t);
      assert f == {i};
    } else {
      assert f == {};
    }
  }
}
