/** Cron schedules: with any number of scheduler replicas and any failures, no occurrence is
    skipped and none is enqueued before its time; one replica without failures enqueues each
    occurrence once. */
module Recurring {
  import opened Types
  import opened Tables
  import opened Protocol
  import opened Identity

  /** `sched.Next` of the cron library, for every expression. */
  type Next = (string, int) -> int

  /** The k-th occurrence after `first`. */
  function Occurrence(next: Next, cron: string, first: int, k: nat): int {
    if k == 0 then first else next(cron, Occurrence(next, cron, first, k - 1))
  }

  ghost predicate Fired(log: seq<Entry>, id: nat, t: int) {
    exists i :: 0 <= i < |log| && log[i].origin == ByCron(id, t)
  }

  /** `t` is the k-th occurrence, and every earlier one has been enqueued. */
  ghost predicate CaughtUp(next: Next, log: seq<Entry>, id: nat, row: Schedule, t: int, k: nat) {
    t == Occurrence(next, row.cron, row.first, k)
    && forall i: nat :: i < k ==> Fired(log, id, Occurrence(next, row.cron, row.first, i))
  }

  ghost predicate NoSkip(next: Next, log: seq<Entry>, id: nat, row: Schedule, t: int) {
    exists k: nat :: CaughtUp(next, log, id, row, t, k)
  }

  ghost predicate SchedulesOk(next: Next, schedules: map<nat, Schedule>, log: seq<Entry>, nextSchedule: nat) {
    forall id :: id in schedules ==> id < nextSchedule && NoSkip(next, log, id, schedules[id], schedules[id].nextRun)
  }

  predicate SameCron(a: Schedule, b: Schedule) {
    a.cron == b.cron && a.first == b.first
  }

  ghost predicate TodoOk(next: Next, s: State, todo: seq<DueCron>) {
    forall k :: 0 <= k < |todo| ==>
      var d := todo[k];
      && d.id < s.nextSchedule && d.row.nextRun <= s.clock
      && (d.id in s.schedules ==> SameCron(d.row, s.schedules[d.id]))
      && NoSkip(next, s.log, d.id, d.row, d.row.nextRun)
  }

  ghost predicate CronCallOk(next: Next, s: State, call: Call) {
    call.Cron? ==>
      match call.tpc
      case TList => call.now <= s.clock
      case TCreate(todo) => TodoOk(next, s, todo)
      case TEnqueue(todo, _) => TodoOk(next, s, todo)
      case TUpdate(todo) => TodoOk(next, s, todo) && (todo != [] ==> Fired(s.log, todo[0].id, todo[0].row.nextRun))
  }

  predicate InTime(log: seq<Entry>, clock: int) {
    forall i :: 0 <= i < |log| && log[i].origin.ByCron? ==> log[i].origin.occurrence <= clock
  }

  ghost predicate CronOk(next: Next, s: State) {
    && SchedulesOk(next, s.schedules, s.log, s.nextSchedule)
    && (forall c :: 0 <= c < |s.calls| ==> CronCallOk(next, s, s.calls[c]))
    && InTime(s.log, s.clock)
  }

  /** An event that takes a schedule forward does so with the library's `Next`. */
  ghost predicate Follows(next: Next, s: State, e: Event) {
    e.Step? && e.id < |s.calls| && s.calls[e.id].Cron? && s.calls[e.id].tpc.TUpdate? && s.calls[e.id].tpc.todo != [] ==>
      var row := s.calls[e.id].tpc.todo[0].row;
      e.answer == NextAt(next(row.cron, row.nextRun))
  }

  ghost predicate FollowsAll(next: Next, s: State, run: seq<Event>)
    requires Legal(s, run)
    decreases |run|
  {
    run != [] ==> Follows(next, s, run[0]) && FollowsAll(next, Apply(s, run[0]), run[1..])
  }

  // ---- what later events keep ----

  predicate Prefix(log: seq<Entry>, log': seq<Entry>) {
    |log| <= |log'| && forall i :: 0 <= i < |log| ==> log'[i] == log[i]
  }

  lemma FiredStays(log: seq<Entry>, log': seq<Entry>, id: nat, t: int)
    requires Fired(log, id, t) && Prefix(log, log')
    ensures Fired(log', id, t)
  {
    var i :| 0 <= i < |log| && log[i].origin == ByCron(id, t);
    assert log'[i].origin == ByCron(id, t);
  }

  lemma NoSkipStays(next: Next, log: seq<Entry>, log': seq<Entry>, id: nat, row: Schedule, row': Schedule, t: int)
    requires NoSkip(next, log, id, row, t) && Prefix(log, log') && SameCron(row, row')
    ensures NoSkip(next, log', id, row', t)
  {
    var k: nat :| CaughtUp(next, log, id, row, t, k);
    forall i: nat | i < k ensures Fired(log', id, Occurrence(next, row.cron, row.first, i)) {
      FiredStays(log, log', id, Occurrence(next, row.cron, row.first, i));
    }
    assert CaughtUp(next, log', id, row', t, k);
  }

  /** Enqueueing an occurrence catches the next one up. */
  lemma NoSkipNext(next: Next, log: seq<Entry>, id: nat, row: Schedule, t: int)
    requires NoSkip(next, log, id, row, t) && Fired(log, id, t)
    ensures NoSkip(next, log, id, row, next(row.cron, t))
  {
    var k: nat :| CaughtUp(next, log, id, row, t, k);
    assert CaughtUp(next, log, id, row, next(row.cron, t), k + 1);
  }

  /** What no event does to a schedule: change its expression or reuse its id. */
  ghost predicate CronExtends(s: State, s': State) {
    && s.clock <= s'.clock && Prefix(s.log, s'.log) && s.nextSchedule <= s'.nextSchedule
    && (forall id :: id in s'.schedules && id < s.nextSchedule ==>
          id in s.schedules && SameCron(s.schedules[id], s'.schedules[id]))
  }

  lemma CronExtendsStep(s: State, e: Event)
    requires Enabled(s, e)
    ensures CronExtends(s, Apply(s, e))
  {
    match e {
      case Work(x, o, _) => CronPerform(s, Effective(WorkOp(ReqOf(s, x), s.execs[x].pc, s.clock, x), o));
      case Step(c, o, a) => CronPerform(s, Effective(CallOp(s.calls[c], |s.born|, s.outbox, a), o));
      case _ =>
    }
  }

  lemma CronPerform(s: State, op: Op)
    ensures CronExtends(s, Perform(s, op))
  {
  }

  lemma TodoStays(next: Next, s: State, s': State, todo: seq<DueCron>)
    requires TodoOk(next, s, todo) && CronExtends(s, s')
    ensures TodoOk(next, s', todo)
  {
    forall k | 0 <= k < |todo| ensures NoSkip(next, s'.log, todo[k].id, todo[k].row, todo[k].row.nextRun) {
      NoSkipStays(next, s.log, s'.log, todo[k].id, todo[k].row, todo[k].row, todo[k].row.nextRun);
    }
  }

  lemma CronCallStays(next: Next, s: State, s': State, call: Call)
    requires CronCallOk(next, s, call) && CronExtends(s, s')
    ensures CronCallOk(next, s', call)
  {
    if call.Cron? {
      match call.tpc {
        case TList =>
        case TCreate(todo) => TodoStays(next, s, s', todo);
        case TEnqueue(todo, _) => TodoStays(next, s, s', todo);
        case TUpdate(todo) =>
          TodoStays(next, s, s', todo);
          if todo != [] { FiredStays(s.log, s'.log, todo[0].id, todo[0].row.nextRun); }
      }
    }
  }

  lemma SchedulesStay(next: Next, s: State, op: Op)
    requires SchedulesOk(next, s.schedules, s.log, s.nextSchedule)
    requires op.SetNextRun? && op.schedule in s.schedules ==> NoSkip(next, s.log, op.schedule, s.schedules[op.schedule], op.time)
    ensures SchedulesOk(next, SchedulesAfter(s.schedules, op), LogAfter(s.log, op), s.nextSchedule)
  {
    var schedules := SchedulesAfter(s.schedules, op);
    forall id | id in schedules ensures NoSkip(next, LogAfter(s.log, op), id, schedules[id], schedules[id].nextRun) {
      NoSkipStays(next, s.log, LogAfter(s.log, op), id, s.schedules[id], schedules[id], schedules[id].nextRun);
    }
  }

  // ---- one cron call ----

  lemma CronOpOk(next: Next, s: State, c: nat, o: Outcome, a: Answer)
    requires CronOk(next, s) && StepEnabled(s, c, o, a) && Follows(next, s, Step(c, o, a))
    ensures var op := Effective(CallOp(s.calls[c], |s.born|, s.outbox, a), o);
            && (op.SetNextRun? && op.schedule in s.schedules ==>
                  NoSkip(next, s.log, op.schedule, s.schedules[op.schedule], op.time))
            && (op.Enqueue? && op.entry.origin.ByCron? ==> op.entry.origin.occurrence <= s.clock)
  {
    assert CronCallOk(next, s, s.calls[c]);
    if s.calls[c].Cron? && s.calls[c].tpc.TUpdate? {
      var d := s.calls[c].tpc.todo[0];
      NoSkipNext(next, s.log, d.id, d.row, d.row.nextRun);
      if d.id in s.schedules {
        NoSkipStays(next, s.log, s.log, d.id, d.row, s.schedules[d.id], next(d.row.cron, d.row.nextRun));
      }
    }
  }

  lemma CronNextOk(next: Next, s: State, c: nat, o: Outcome, a: Answer)
    requires CronOk(next, s) && StepEnabled(s, c, o, a)
    ensures CronCallOk(next, AfterStep(s, c, o, a), CallNext(s, c, o, a))
  {
    var call := s.calls[c];
    var s' := AfterStep(s, c, o, a);
    CronExtendsStep(s, Step(c, o, a));
    assert CronCallOk(next, s, call);
    if call.Cron? {
      match call.tpc {
        case TList =>
          if o.Ok? { ListedRun(next, s, a.ids, call.now); TodoStays(next, s, s', CronSnapshot(s.schedules, a.ids)); }
        case TCreate(todo) => TodoStays(next, s, s', todo);
        case TEnqueue(todo, _) =>
          TodoStays(next, s, s', todo);
          if o.Ok? { assert s'.log[|s.log|].origin == ByCron(todo[0].id, todo[0].row.nextRun); }
        case TUpdate(todo) => TodoStays(next, s, s', todo);
      }
    }
  }

  lemma ListedRun(next: Next, s: State, ids: seq<nat>, now: int)
    requires SchedulesOk(next, s.schedules, s.log, s.nextSchedule) && now <= s.clock
    requires CronIds(s.schedules, ids) && Smallest(ids, DueSchedules(s.schedules, now), SCHEDULE_LIMIT)
    ensures TodoOk(next, s, CronSnapshot(s.schedules, ids))
  {
    forall k | 0 <= k < |ids| ensures s.schedules[ids[k]].nextRun <= now {
      assert ids[k] in DueSchedules(s.schedules, now);
    }
  }

  lemma CronCall(next: Next, s: State, c: nat, o: Outcome, a: Answer)
    requires CronOk(next, s) && StepEnabled(s, c, o, a) && Follows(next, s, Step(c, o, a))
    ensures CronOk(next, AfterStep(s, c, o, a))
  {
    var s' := AfterStep(s, c, o, a);
    CronOpOk(next, s, c, o, a);
    SchedulesStay(next, s, Effective(CallOp(s.calls[c], |s.born|, s.outbox, a), o));
    CronNextOk(next, s, c, o, a);
    CronExtendsStep(s, Step(c, o, a));
    forall k | 0 <= k < |s.calls| && k != c ensures CronCallOk(next, s', s'.calls[k]) {
      CronCallStays(next, s, s', s.calls[k]);
    }
  }

  lemma CronOther(next: Next, s: State, e: Event)
    requires CronOk(next, s) && Enabled(s, e) && !e.Step?
    ensures CronOk(next, Apply(s, e))
  {
    var s' := Apply(s, e);
    CronExtendsStep(s, e);
    forall k | 0 <= k < |s.calls| ensures CronCallOk(next, s', s'.calls[k]) {
      CronCallStays(next, s, s', s.calls[k]);
    }
    forall id | id in s'.schedules ensures NoSkip(next, s'.log, id, s'.schedules[id], s'.schedules[id].nextRun) {
      if id in s.schedules && id < s.nextSchedule {
        NoSkipStays(next, s.log, s'.log, id, s.schedules[id], s'.schedules[id], s'.schedules[id].nextRun);
      } else {
        assert CaughtUp(next, s'.log, id, s'.schedules[id], s'.schedules[id].nextRun, 0);
      }
    }
  }

  lemma CronStep(next: Next, s: State, e: Event)
    requires CronOk(next, s) && Enabled(s, e) && Follows(next, s, e)
    ensures CronOk(next, Apply(s, e))
  {
    match e {
      case Step(c, o, a) => CronCall(next, s, c, o, a);
      case _ => CronOther(next, s, e);
    }
  }

  /** In every run, with any number of replicas, interleavings and failures: the next_run_at of
      a live schedule is the k-th occurrence for some k, each of the k before it has been
      enqueued at least once, and nothing was enqueued before its time. */
  lemma {:induction false} NeverSkips(next: Next, s: State, run: seq<Event>)
    requires CronOk(next, s) && Legal(s, run) && FollowsAll(next, s, run)
    ensures CronOk(next, After(s, run))
    decreases |run|
  {
    if run != [] {
      CronStep(next, s, run[0]);
      NeverSkips(next, Apply(s, run[0]), run[1..]);
    }
  }

  lemma CronInit(next: Next, limit: int, clock: int)
    ensures CronOk(next, Init(limit, clock))
  {
  }

  /** From an empty system: the next_run_at of a live schedule is its k-th occurrence for some k, each
      of the k before it has been enqueued, and nothing was enqueued before its time. */
  lemma NoOccurrenceSkipped(next: Next, limit: int, clock: int, run: seq<Event>, id: nat)
    requires Legal(Init(limit, clock), run) && FollowsAll(next, Init(limit, clock), run)
    requires id in After(Init(limit, clock), run).schedules
    ensures var s := After(Init(limit, clock), run); var row := s.schedules[id];
            exists k: nat ::
              && row.nextRun == Occurrence(next, row.cron, row.first, k)
              && forall i: nat :: i < k ==> Fired(s.log, id, Occurrence(next, row.cron, row.first, i))
    ensures var s := After(Init(limit, clock), run);
            forall i :: 0 <= i < |s.log| && s.log[i].origin.ByCron? ==> s.log[i].origin.occurrence <= s.clock
  {
    CronInit(next, limit, clock);
    NeverSkips(next, Init(limit, clock), run);
    var s := After(Init(limit, clock), run);
    var row := s.schedules[id];
    assert NoSkip(next, s.log, id, row, row.nextRun);
    var k: nat :| CaughtUp(next, s.log, id, row, row.nextRun, k);
    assert row.nextRun == Occurrence(next, row.cron, row.first, k);
  }
}
