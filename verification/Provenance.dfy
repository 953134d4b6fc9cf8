/** Who made a job and what for: every id carries what its call was asked for, and every message what
    its origin is to send. Kept by every event, whatever fails, is redelivered or crashes. */
module Provenance {
  import opened Types
  import opened Tables
  import opened Protocol
  import opened Identity
  import opened EveryRun

  // ---- ids ----

  /** A positive time is kept, any other stored as zero. */
  predicate StoredTime(stored: int, asked: int) {
    if asked > 0 then stored == asked else stored == 0
  }

  predicate StoredQueue(stored: string, asked: string) {
    stored == if asked == "" then "default" else asked
  }

  /** What id `j` was allocated for is what call `call` was asked for. */
  predicate MadeAsAsked(born: seq<Birth>, j: nat, call: Call)
    requires j < |born|
  {
    var b := born[j];
    match call
    case Submit(r, _) =>
      && b.typ == r.typ && b.payload == r.payload && b.key == r.key && b.priority == r.priority
      && StoredQueue(b.queue, r.queue) && StoredTime(b.runAt, r.runAt)
    case Replay(k, q, _) =>
      && k < |born| && b.typ == born[k].typ && b.payload == born[k].payload && b.priority == born[k].priority
      && StoredQueue(b.queue, q) && b.key == "" && b.runAt == 0
    case Cron(_, _) => b.key == "" && b.runAt == 0 && b.priority == 0
    case _ => false
  }

  predicate AllAsAsked(born: seq<Birth>, calls: seq<Call>) {
    forall j :: 0 <= j < |born| ==> born[j].call < |calls| && MadeAsAsked(born, j, calls[born[j].call])
  }

  /** A replay under way holds what its archived job was allocated for. */
  predicate ReplayKnows(born: seq<Birth>, call: Call) {
    match call
    case Replay(k, _, REnqueue(typ, payload, priority)) =>
      k < |born| && typ == born[k].typ && payload == born[k].payload && priority == born[k].priority
    case _ => true
  }

  predicate ReplaysKnow(born: seq<Birth>, calls: seq<Call>) {
    forall c :: 0 <= c < |calls| ==> ReplayKnows(born, calls[c])
  }

  /** The call goes on, asked for the same. */
  predicate SameAsked(a: Call, b: Call) {
    match a
    case Submit(r, _) => b.Submit? && b.req == r
    case Replay(k, q, _) => b.Replay? && b.job == k && b.queue == q
    case Cron(_, _) => b.Cron?
    case _ => !b.Submit? && !b.Replay? && !b.Cron?
  }

  predicate AllSameAsked(calls: seq<Call>, calls': seq<Call>) {
    |calls| <= |calls'| && forall c :: 0 <= c < |calls| ==> SameAsked(calls[c], calls'[c])
  }

  lemma CallsSameAsked(s: State, e: Event)
    requires Enabled(s, e)
    ensures AllSameAsked(s.calls, Apply(s, e).calls)
  {
    match e {
      case Step(c, o, a) => StepSameAsked(s, c, o, a);
      case Work(_, _, _) =>
      case _ =>
    }
  }

  lemma StepSameAsked(s: State, c: nat, o: Outcome, a: Answer)
    requires StepEnabled(s, c, o, a)
    ensures SameAsked(s.calls[c], CallNext(s, c, o, a))
    ensures AllSameAsked(s.calls, AfterStep(s, c, o, a).calls)
  {
  }

  lemma AskedStays(born: seq<Birth>, born': seq<Birth>, calls: seq<Call>, calls': seq<Call>, j: nat)
    requires j < |born| <= |born'| && born'[..|born|] == born && AllSameAsked(calls, calls')
    requires born[j].call < |calls| && MadeAsAsked(born, j, calls[born[j].call])
    ensures born'[j].call < |calls'| && MadeAsAsked(born', j, calls'[born'[j].call])
  {
    assert born'[..|born|][j] == born'[j];
    assert SameAsked(calls[born[j].call], calls'[born[j].call]);
    match calls[born[j].call] {
      case Replay(k, _, _) => assert born'[..|born|][k] == born'[k];
      case _ =>
    }
  }

  /** The id a call allocates is for what it was asked for. */
  lemma NewAsAsked(s: State, c: nat, j: nat)
    requires c < |s.calls| && ReplayKnows(s.born, s.calls[c]) && j == |s.born| && |CallBirths(s.calls[c], c)| == 1
    ensures var born' := s.born + CallBirths(s.calls[c], c); born'[j].call == c && MadeAsAsked(born', j, s.calls[c])
  {
  }

  lemma BirthsAsAsked(s: State, c: nat, o: Outcome, a: Answer)
    requires StepEnabled(s, c, o, a) && AllAsAsked(s.born, s.calls) && ReplayKnows(s.born, s.calls[c])
    ensures AllAsAsked(AfterStep(s, c, o, a).born, AfterStep(s, c, o, a).calls)
  {
    var born', calls' := s.born + CallBirths(s.calls[c], c), AfterStep(s, c, o, a).calls;
    StepSameAsked(s, c, o, a);
    forall j: nat | j < |born'| ensures born'[j].call < |calls'| && MadeAsAsked(born', j, calls'[born'[j].call]) {
      if j < |s.born| {
        AskedStays(s.born, born', s.calls, calls', j);
      } else {
        NewAsAsked(s, c, j);
        assert SameAsked(s.calls[c], calls'[c]);
      }
    }
  }

  lemma KnowsStays(born: seq<Birth>, born': seq<Birth>, call: Call)
    requires ReplayKnows(born, call) && |born| <= |born'| && born'[..|born|] == born
    ensures ReplayKnows(born', call)
  {
    match call {
      case Replay(k, _, REnqueue(_, _, _)) => assert born'[..|born|][k] == born'[k];
      case _ =>
    }
  }

  /** A replay reads a row, which agrees with its id. */
  lemma NextKnows(s: State, c: nat, o: Outcome, a: Answer)
    requires IdsOk(s) && StepEnabled(s, c, o, a)
    ensures ReplayKnows(s.born, CallNext(s, c, o, a))
  {
  }

  lemma StepKnows(s: State, c: nat, o: Outcome, a: Answer)
    requires IdsOk(s) && StepEnabled(s, c, o, a) && ReplaysKnow(s.born, s.calls)
    ensures ReplaysKnow(AfterStep(s, c, o, a).born, AfterStep(s, c, o, a).calls)
  {
    var s' := AfterStep(s, c, o, a);
    NextKnows(s, c, o, a);
    forall d | 0 <= d < |s'.calls| ensures ReplayKnows(s'.born, s'.calls[d]) {
      KnowsStays(s.born, s'.born, s'.calls[d]);
    }
  }

  // ---- messages ----

  /** Message `i` is what its origin sends for its job. */
  ghost predicate SentAsAsked(s: State, i: nat)
    requires i < |s.log| && s.log[i].req.job < |s.born| && s.born[s.log[i].req.job].call < |s.calls|
  {
    var m := s.log[i].req;
    var maker := s.calls[s.born[m.job].call];
    match s.log[i].origin
    case BySubmit =>
      && maker.Submit? && m.attempt == 0
      && (if maker.req.maxRetry > 0 then MaxRetry(m) == maker.req.maxRetry else MaxRetry(m) <= 0)
      && (m.options.Some? ==> m.options.value.runAt == maker.req.runAt)
    case ByReplay => maker.Replay? && m.attempt == 0 && MaxRetry(m) == 0
    case ByPromoter => m.attempt == 0 && MaxRetry(m) == 2
    case ByCron(_, _) => maker.Cron? && m.attempt == 0
    case ByRetry => exists k :: RetryOf(s.log, k, i)
  }

  /** Message `i` is an earlier one of the job over again, one attempt on. */
  predicate RetryOf(log: seq<Entry>, k: int, i: int) {
    && 0 <= k < i < |log| && log[k].req.job == log[i].req.job && Budget(log[i].req) == Budget(log[k].req)
    && (log[k].req.attempt < MAX_INT32 ==> log[i].req.attempt == log[k].req.attempt + 1)
  }

  ghost predicate Sent(s: State, i: nat) {
    && i < |s.log| && s.log[i].req.job < |s.born| && s.born[s.log[i].req.job].call < |s.calls| && SentAsAsked(s, i)
  }

  ghost predicate AllSent(s: State) {
    forall i: nat :: i < |s.log| ==> Sent(s, i)
  }

  /** Ids, messages and calls stay; the log may have grown. */
  ghost predicate Longer(s: State, s': State) {
    && |s.log| <= |s'.log| && s'.log[..|s.log|] == s.log && |s.born| <= |s'.born| && s'.born[..|s.born|] == s.born
    && AllSameAsked(s.calls, s'.calls)
  }

  lemma SentStays(s: State, s': State, i: nat)
    requires Longer(s, s') && Sent(s, i)
    ensures Sent(s', i)
  {
    var j := s.log[i].req.job;
    assert s'.log[..|s.log|][i] == s'.log[i] && s'.born[..|s.born|][j] == s'.born[j];
    assert SameAsked(s.calls[s.born[j].call], s'.calls[s.born[j].call]);
    if s.log[i].origin.ByRetry? {
      var k :| RetryOf(s.log, k, i);
      assert s'.log[..|s.log|][k] == s'.log[k];
      assert RetryOf(s'.log, k, i);
    }
  }

  lemma StepLonger(s: State, e: Event)
    requires Enabled(s, e)
    ensures Longer(s, Apply(s, e))
  {
    CallsSameAsked(s, e);
    ApplyExtends(s, e);
  }

  lemma CallSends(s: State, c: nat, o: Outcome, a: Answer)
    requires IdsOk(s) && AllAsAsked(s.born, s.calls) && StepEnabled(s, c, o, a) && |AfterStep(s, c, o, a).log| > |s.log|
    ensures Sent(AfterStep(s, c, o, a), |s.log|)
  {
    assert CallOk(s, c);
    StepSameAsked(s, c, o, a);
  }

  lemma WorkSends(s: State, x: nat, o: Outcome, success: bool)
    requires IdsOk(s) && WorkEnabled(s, x, success) && |AfterWork(s, x, o, success).log| > |s.log|
    ensures Sent(AfterWork(s, x, o, success), |s.log|)
  {
    var s' := AfterWork(s, x, o, success);
    assert s.execs[x].pc.Reenqueue? && s'.log == s.log + [Entry(RetryRequest(ReqOf(s, x)), ByRetry)];
    assert RetryOf(s'.log, s.execs[x].offset, |s.log|);
  }

  lemma AtMostOneSent(s: State, e: Event)
    requires Enabled(s, e)
    ensures |Apply(s, e).log| <= |s.log| + 1
  {
  }

  lemma SentStep(s: State, e: Event)
    requires IdsOk(s) && AllAsAsked(s.born, s.calls) && AllSent(s) && Enabled(s, e)
    ensures AllSent(Apply(s, e))
  {
    var s' := Apply(s, e);
    StepLonger(s, e);
    AtMostOneSent(s, e);
    forall i: nat | i < |s'.log| ensures Sent(s', i) {
      if i < |s.log| {
        SentStays(s, s', i);
      } else if e.Step? {
        CallSends(s, e.id, e.outcome, e.answer);
      } else {
        WorkSends(s, e.exec, e.outcome, e.success);
      }
    }
  }

  // ---- every run ----

  ghost predicate KnownOrigins(s: State) {
    AllAsAsked(s.born, s.calls) && ReplaysKnow(s.born, s.calls) && AllSent(s)
  }

  lemma QuietBirths(s: State, e: Event)
    requires Enabled(s, e) && !e.Step? && AllAsAsked(s.born, s.calls) && ReplaysKnow(s.born, s.calls)
    ensures AllAsAsked(Apply(s, e).born, Apply(s, e).calls) && ReplaysKnow(Apply(s, e).born, Apply(s, e).calls)
  {
    var s' := Apply(s, e);
    CallsSameAsked(s, e);
    assert s'.born == s.born;
    forall j: nat | j < |s'.born| ensures s'.born[j].call < |s'.calls| && MadeAsAsked(s'.born, j, s'.calls[s'.born[j].call]) {
      AskedStays(s.born, s'.born, s.calls, s'.calls, j);
    }
  }

  lemma OriginsStep(s: State, e: Event)
    requires IdsOk(s) && KnownOrigins(s) && Enabled(s, e)
    ensures KnownOrigins(Apply(s, e))
  {
    SentStep(s, e);
    if e.Step? {
      BirthsAsAsked(s, e.id, e.outcome, e.answer);
      StepKnows(s, e.id, e.outcome, e.answer);
    } else {
      QuietBirths(s, e);
    }
  }

  lemma {:induction false} OriginsAlways(s: State, run: seq<Event>)
    requires IdsOk(s) && KnownOrigins(s) && Legal(s, run)
    ensures KnownOrigins(After(s, run))
    decreases |run|
  {
    if run != [] {
      OriginsStep(s, run[0]);
      IdsStep(s, run[0]);
      OriginsAlways(Apply(s, run[0]), run[1..]);
    }
  }

  lemma OriginsReachable(s: State)
    requires Reachable(s)
    ensures IdsOk(s) && KnownOrigins(s)
  {
    var limit: int, clock: int, run: seq<Event> :| Legal(Init(limit, clock), run) && After(Init(limit, clock), run) == s;
    SafeInit(limit, clock);
    OriginsAlways(Init(limit, clock), run);
    SafeReachable(s);
  }

  /** In every reachable state the row of an id is what the call that allocated it was asked for: a submit's
      type, payload, key, priority, queue ("default" if it named none) and run_at (0 if it has none); a
      replay's queue and the archived job's type, payload and priority; a firing's row without key, run_at
      and priority. */
  lemma RowsAreAsAsked(s: State, j: nat)
    requires Reachable(s) && j in s.jobs
    ensures j < |s.born| && s.born[j].call < |s.calls|
    ensures var row := s.jobs[j];
            match s.calls[s.born[j].call]
            case Submit(r, _) =>
              && row.typ == r.typ && row.payload == r.payload && row.key == r.key && row.priority == r.priority
              && row.queue == (if r.queue == "" then "default" else r.queue)
              && row.runAt == (if r.runAt > 0 then r.runAt else 0)
            case Replay(k, q, _) =>
              && row.queue == (if q == "" then "default" else q) && row.key == "" && row.runAt == 0
              && (k in s.jobs ==>
                    row.typ == s.jobs[k].typ && row.payload == s.jobs[k].payload && row.priority == s.jobs[k].priority)
            case Cron(_, _) => row.key == "" && row.runAt == 0 && row.priority == 0
            case _ => false
  {
    OriginsReachable(s);
    assert RowMatches(s.jobs[j], s.born[j]);
    assert MadeAsAsked(s.born, j, s.calls[s.born[j].call]);
    match s.calls[s.born[j].call] {
      case Replay(k, _, _) => assert k in s.jobs ==> RowMatches(s.jobs[k], s.born[k]);
      case _ =>
    }
  }

  /** In every reachable state a message is what its origin sends: a submit's first attempt with the type,
      payload, queue, priority and max_retry of its request; a replay's, in its queue, without retries; a
      promoter's with two; a firing's; and a retry, which repeats an earlier message of the job with the
      same budget and one attempt more. */
  lemma MessagesAreAsAsked(s: State, i: nat)
    requires Reachable(s) && i < |s.log|
    ensures var m := s.log[i].req;
            && m.job < |s.born| && s.born[m.job].call < |s.calls|
            && var maker := s.calls[s.born[m.job].call];
               match s.log[i].origin
               case BySubmit =>
                 && maker.Submit? && m.attempt == 0 && m.typ == maker.req.typ && m.payload == maker.req.payload
                 && m.queue == (if maker.req.queue == "" then "default" else maker.req.queue)
                 && PriorityOf(m) == maker.req.priority
                 && Budget(m) == (if maker.req.maxRetry > 0 then maker.req.maxRetry else 0)
                 && (maker.req.maxRetry > 0 ==> MaxRetry(m) == maker.req.maxRetry)
                 && (m.options.Some? ==> m.options.value.runAt == maker.req.runAt)
               case ByReplay =>
                 && maker.Replay? && m.attempt == 0 && MaxRetry(m) == 0
                 && m.queue == (if maker.queue == "" then "default" else maker.queue)
                 && (maker.job in s.jobs ==>
                       var row := s.jobs[maker.job];
                       m.typ == row.typ && m.payload == row.payload && PriorityOf(m) == row.priority)
               case ByPromoter => m.attempt == 0 && MaxRetry(m) == 2
               case ByCron(_, _) => maker.Cron? && m.attempt == 0
               case ByRetry => exists k :: RetryOf(s.log, k, i)
  {
    OriginsReachable(s);
    assert Sent(s, i);
    MessagesCarryTheirJob(s, i);
    var j := s.log[i].req.job;
    assert MadeAsAsked(s.born, j, s.calls[s.born[j].call]);
    match s.calls[s.born[j].call] {
      case Replay(k, _, _) => assert k in s.jobs ==> RowMatches(s.jobs[k], s.born[k]);
      case _ =>
    }
  }

  // ---- firings ----

  predicate SameJob(a: Schedule, b: Schedule) {
    a.typ == b.typ && a.payload == b.payload && a.queue == b.queue && a.maxRetry == b.maxRetry
  }

  predicate Below(schedules: map<nat, Schedule>, nextSchedule: nat) {
    forall id :: id in schedules ==> id < nextSchedule
  }

  /** A row of a tick's snapshot differs from its schedule at most in next_run_at. */
  predicate SnapshotRow(schedules: map<nat, Schedule>, nextSchedule: nat, d: DueCron) {
    d.id < nextSchedule && (d.id in schedules ==> SameJob(d.row, schedules[d.id]))
  }

  predicate TickKnows(schedules: map<nat, Schedule>, nextSchedule: nat, call: Call) {
    call.Cron? && !call.tpc.TList? ==>
      forall k :: 0 <= k < |call.tpc.todo| ==> SnapshotRow(schedules, nextSchedule, call.tpc.todo[k])
  }

  /** A message of a firing carries what the schedule says. */
  predicate FiredAsAsked(schedules: map<nat, Schedule>, nextSchedule: nat, m: Entry) {
    m.origin.ByCron? ==>
      var id := m.origin.schedule;
      id < nextSchedule &&
      (id in schedules ==>
         && m.req.typ == schedules[id].typ && m.req.payload == schedules[id].payload && m.req.queue == schedules[id].queue
         && Budget(m.req) == if schedules[id].maxRetry > 0 then schedules[id].maxRetry else 0)
  }

  predicate FiringsKnown(s: State) {
    && Below(s.schedules, s.nextSchedule)
    && (forall c :: 0 <= c < |s.calls| ==> TickKnows(s.schedules, s.nextSchedule, s.calls[c]))
    && (forall i :: 0 <= i < |s.log| ==> FiredAsAsked(s.schedules, s.nextSchedule, s.log[i]))
  }

  /** Schedules come under new ids and keep what they make. */
  predicate SchedulesKeep(s: State, s': State) {
    && s.nextSchedule <= s'.nextSchedule && Below(s'.schedules, s'.nextSchedule)
    && (forall id :: id in s'.schedules && id < s.nextSchedule ==>
          id in s.schedules && SameJob(s.schedules[id], s'.schedules[id]))
  }

  lemma StepSchedulesKeep(s: State, e: Event)
    requires Enabled(s, e) && Below(s.schedules, s.nextSchedule)
    ensures SchedulesKeep(s, Apply(s, e))
  {
    match e {
      case Step(_, _, _) =>
      case Work(_, _, _) =>
      case _ =>
    }
  }

  lemma TickStays(s: State, s': State, call: Call)
    requires SchedulesKeep(s, s') && TickKnows(s.schedules, s.nextSchedule, call)
    ensures TickKnows(s'.schedules, s'.nextSchedule, call)
  {
    if call.Cron? && !call.tpc.TList? {
      forall k | 0 <= k < |call.tpc.todo| ensures SnapshotRow(s'.schedules, s'.nextSchedule, call.tpc.todo[k]) {
        assert SnapshotRow(s.schedules, s.nextSchedule, call.tpc.todo[k]);
      }
    }
  }

  lemma NextTickKnows(s: State, c: nat, o: Outcome, a: Answer)
    requires FiringsKnown(s) && StepEnabled(s, c, o, a)
    ensures TickKnows(s.schedules, s.nextSchedule, CallNext(s, c, o, a))
  {
    assert TickKnows(s.schedules, s.nextSchedule, s.calls[c]);
  }

  lemma FiringSends(s: State, c: nat, o: Outcome, a: Answer)
    requires FiringsKnown(s) && StepEnabled(s, c, o, a) && |AfterStep(s, c, o, a).log| > |s.log|
    ensures FiredAsAsked(s.schedules, s.nextSchedule, AfterStep(s, c, o, a).log[|s.log|])
  {
    assert TickKnows(s.schedules, s.nextSchedule, s.calls[c]);
    if s.calls[c].Cron? {
      assert SnapshotRow(s.schedules, s.nextSchedule, s.calls[c].tpc.todo[0]);
    }
  }

  lemma OtherSends(s: State, e: Event)
    requires Enabled(s, e) && !e.Step? && |Apply(s, e).log| > |s.log|
    ensures !Apply(s, e).log[|s.log|].origin.ByCron?
  {
  }

  lemma FiringsLogged(s: State, e: Event)
    requires FiringsKnown(s) && Enabled(s, e)
    ensures forall i :: 0 <= i < |Apply(s, e).log| ==> FiredAsAsked(Apply(s, e).schedules, Apply(s, e).nextSchedule, Apply(s, e).log[i])
  {
    var s' := Apply(s, e);
    StepSchedulesKeep(s, e);
    StepLonger(s, e);
    AtMostOneSent(s, e);
    forall i | 0 <= i < |s'.log| ensures FiredAsAsked(s'.schedules, s'.nextSchedule, s'.log[i]) {
      if i < |s.log| {
        assert s'.log[..|s.log|][i] == s'.log[i] && FiredAsAsked(s.schedules, s.nextSchedule, s.log[i]);
      } else if e.Step? {
        FiringSends(s, e.id, e.outcome, e.answer);
      } else {
        OtherSends(s, e);
      }
    }
  }

  lemma TicksKnow(s: State, e: Event)
    requires FiringsKnown(s) && Enabled(s, e)
    ensures forall c :: 0 <= c < |Apply(s, e).calls| ==> TickKnows(Apply(s, e).schedules, Apply(s, e).nextSchedule, Apply(s, e).calls[c])
  {
    var s' := Apply(s, e);
    StepSchedulesKeep(s, e);
    forall c | 0 <= c < |s'.calls| ensures TickKnows(s'.schedules, s'.nextSchedule, s'.calls[c]) {
      if e.Step? { NextTickKnows(s, e.id, e.outcome, e.answer); }
      if c < |s.calls| { assert TickKnows(s.schedules, s.nextSchedule, s.calls[c]); }
      TickStays(s, s', s'.calls[c]);
    }
  }

  lemma {:induction false} FiringsAlways(s: State, run: seq<Event>)
    requires FiringsKnown(s) && Legal(s, run)
    ensures FiringsKnown(After(s, run))
    decreases |run|
  {
    if run != [] {
      StepSchedulesKeep(s, run[0]);
      TicksKnow(s, run[0]);
      FiringsLogged(s, run[0]);
      FiringsAlways(Apply(s, run[0]), run[1..]);
    }
  }

  /** In every reachable state the message of a firing carries the type, payload, queue and max_retry of its
      schedule, as long as that has not been dropped. */
  lemma FiringsAreAsAsked(s: State, i: nat)
    requires Reachable(s) && i < |s.log| && s.log[i].origin.ByCron? && s.log[i].origin.schedule in s.schedules
    ensures var m := s.log[i].req; var row := s.schedules[s.log[i].origin.schedule];
            && m.typ == row.typ && m.payload == row.payload && m.queue == row.queue
            && Budget(m) == if row.maxRetry > 0 then row.maxRetry else 0
  {
    var limit: int, clock: int, run: seq<Event> :| Legal(Init(limit, clock), run) && After(Init(limit, clock), run) == s;
    FiringsAlways(Init(limit, clock), run);
    assert FiredAsAsked(s.schedules, s.nextSchedule, s.log[i]);
  }
}
