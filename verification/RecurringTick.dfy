/** The cron loop: one tick as the code runs it. */
module RecurringTick {
  import opened Types
  import opened Tables
  import opened Protocol
  import opened Submission
  import opened Recurring
  import opened Driving
  import opened Calls
  import opened PostgresStore
  import opened JobProducer

  class RunRecurring {
    const store: Store
    const producer: Producer
    const uuids: Uuids

    constructor (store: Store, producer: Producer, uuids: Uuids)
      ensures this.store == store && this.producer == producer && this.uuids == uuids
    {
      this.store := store;
      this.producer := producer;
      this.uuids := uuids;
    }

    ghost predicate Shows(s: State)
      reads store, producer, uuids
    {
      store.Shows(s) && uuids.Valid() && producer.log == s.log && uuids.born == s.born
    }

    ghost predicate At(s0: State, t0: int, run: seq<Event>, s: State, env: CallEnv, pc: CronPc)
      reads store, producer, uuids
    {
      Shows(s) && Made(s0, Cron(t0, TList), run, s, env) && s.calls[|s0.calls|] == Cron(t0, pc) && env.CronEnv?
    }

    /** A tick: for each due schedule a job is created, then enqueued, and only then does the schedule
        move to its next time; a failure of any of these leaves the schedule where it is. */
    method Tick(env: CallEnv, t0: int, ghost s0: State)
      returns (ghost ids: seq<nat>, ghost run: seq<Event>, ghost s: State)
      requires Shows(s0) && s0.clock == t0 && env.CronEnv?
      modifies store`jobs, store`schedules, producer, uuids
      ensures At(s0, t0, run, s, WithIds(env, ids), TCreate([])) && FollowsAll(env.next, s0, run)
      ensures if env.list.Ok? then Smallest(ids, DueSchedules(s0.schedules, t0), 50) && EarliestNextRun(ids, s0.schedules, t0, 50)
              else ids == []
      ensures forall i :: i in ids ==> i in s0.schedules
      ensures Ticked(Ledger(s0.jobs, s0.schedules, s0.log, |s0.born|), Now(), ids, env)
    {
      ghost var due;
      ids, due, run, s := ListAndRun(env, t0, s0);
      TickFollows(s0, Cron(t0, TList), run, s, env, ids);
      TickDoes(Ledger(s0.jobs, s0.schedules, s0.log, |s0.born|), Now(), ids, env);
    }

    method ListAndRun(env: CallEnv, t0: int, ghost s0: State)
      returns (ghost ids: seq<nat>, ghost due: seq<DueCron>, ghost run: seq<Event>, ghost s: State)
      requires Shows(s0) && s0.clock == t0 && env.CronEnv?
      modifies store`jobs, store`schedules, producer, uuids
      ensures At(s0, t0, run, s, WithIds(env, ids), TCreate([]))
      ensures if env.list.Ok? then Smallest(ids, DueSchedules(s0.schedules, t0), 50) && EarliestNextRun(ids, s0.schedules, t0, 50)
              else ids == []
      ensures CronIds(s0.schedules, ids) && due == CronSnapshot(s0.schedules, ids)
      ensures Progress(Ledger(s0.jobs, s0.schedules, s0.log, |s0.born|), Now(), due, |due|, env)
    {
      var ok, recs;
      ok, recs, ids := store.ListSchedulesDue(t0, 50, env.list);
      due := recs;
      run, s := BeginCall(s0, Cron(t0, TList), WithIds(env, ids));
      run, s := NextStatement(s0, Cron(t0, TList), run, s, WithIds(env, ids));
      run, s := RunAll(recs, env, ids, t0, s0, run, s);
    }

    method RunAll(due: seq<DueCron>, env: CallEnv, ghost ids: seq<nat>, t0: int,
                  ghost s0: State, ghost run0: seq<Event>, ghost s1: State)
      returns (ghost run: seq<Event>, ghost s: State)
      requires At(s0, t0, run0, s1, WithIds(env, ids), TCreate(due)) && env.CronEnv?
      requires forall i, k :: 0 <= i < k < |due| ==> due[i].id != due[k].id
      modifies store`jobs, store`schedules, producer, uuids
      ensures At(s0, t0, run, s, WithIds(env, ids), TCreate([]))
      ensures Progress(old(Now()), Now(), due, |due|, env)
    {
      run, s := run0, s1;
      ghost var begin := Now();
      NothingDealtWith(begin, due, env);
      for i := 0 to |due|
        invariant At(s0, t0, run, s, WithIds(env, ids), TCreate(due[i..]))
        invariant Progress(begin, Now(), due, i, env)
      {
        assert due[i..][0] == due[i] && due[i..][1..] == due[i + 1..];
        ghost var mid := Now();
        run, s := RunOne(due[i], due[i..], env, ids, t0, s0, run, s);
        OneMoreDealtWith(begin, mid, Now(), due, i, env);
      }
      assert due[|due|..] == [];
    }

    /** What a tick works on. */
    ghost function Now(): Ledger
      reads store, producer, uuids
    {
      Ledger(store.jobs, store.schedules, producer.log, |uuids.born|)
    }

    method RunOne(d: DueCron, ghost todo: seq<DueCron>, env: CallEnv, ghost ids: seq<nat>, t0: int,
                  ghost s0: State, ghost run0: seq<Event>, ghost s1: State)
      returns (ghost run: seq<Event>, ghost s: State)
      requires todo != [] && d == todo[0] && env.CronEnv?
      requires At(s0, t0, run0, s1, WithIds(env, ids), TCreate(todo))
      modifies store`jobs, store`schedules, producer, uuids
      ensures At(s0, t0, run, s, WithIds(env, ids), TCreate(todo[1..]))
      ensures DealtWith(old(Now()), Now(), d, env)
    {
      var id, ok;
      id, ok, run, s := CreateJob(d, todo, env, ids, t0, s0, run0, s1);
      if ok {
        ok, run, s := EnqueueJob(d, id, todo, env, ids, t0, s0, run, s);
        if ok {
          run, s := MoveOn(d, todo, env, ids, t0, s0, run, s);
        }
      }
    }

    method CreateJob(d: DueCron, ghost todo: seq<DueCron>, env: CallEnv, ghost ids: seq<nat>, t0: int,
                     ghost s0: State, ghost run0: seq<Event>, ghost s1: State)
      returns (id: nat, ok: bool, ghost run: seq<Event>, ghost s: State)
      requires todo != [] && d == todo[0] && env.CronEnv?
      requires At(s0, t0, run0, s1, WithIds(env, ids), TCreate(todo))
      modifies store`jobs, uuids
      ensures At(s0, t0, run, s, WithIds(env, ids), if ok then TEnqueue(todo, id) else TCreate(todo[1..]))
      ensures id == |old(uuids.born)| && |uuids.born| == |old(uuids.born)| + 1
      ensures ok == (env.creates(d.id).Ok? && id !in old(store.jobs))
      ensures if !env.creates(d.id).Failure? && id !in old(store.jobs)
              then JobFor(store.jobs, id, d) && store.jobs == old(store.jobs)[id := store.jobs[id]]
              else store.jobs == old(store.jobs)
    {
      id := uuids.New(Birth(d.row.typ, d.row.payload, 0, "", d.row.queue, 0, |s0.calls|));
      run, s := Inserts(d, todo, env, ids, t0, s0, run0, s1);
      ok := store.Create(id, NewJob(d.row.typ, d.row.payload, d.row.queue, Pending, 0, "", 0), env.creates(d.id));
    }

    method EnqueueJob(d: DueCron, id: nat, ghost todo: seq<DueCron>, env: CallEnv, ghost ids: seq<nat>, t0: int,
                      ghost s0: State, ghost run0: seq<Event>, ghost s1: State)
      returns (ok: bool, ghost run: seq<Event>, ghost s: State)
      requires todo != [] && d == todo[0] && env.CronEnv?
      requires At(s0, t0, run0, s1, WithIds(env, ids), TEnqueue(todo, id))
      modifies producer
      ensures At(s0, t0, run, s, WithIds(env, ids), if ok then TUpdate(todo) else TCreate(todo[1..]))
      ensures ok == env.enqueues(d.id).Ok?
      ensures if env.enqueues(d.id).Failure? then producer.log == old(producer.log)
              else SendsOne(old(producer.log), producer.log, ByCron(d.id, d.row.nextRun), id)
    {
      ok := producer.Enqueue(id, d.row.typ, d.row.payload, d.row.queue, d.row.maxRetry, 0, 0, 0, ByCron(d.id, d.row.nextRun),
                             env.enqueues(d.id));
      run, s := NextStatement(s0, Cron(t0, TList), run0, s1, WithIds(env, ids));
    }

    method MoveOn(d: DueCron, ghost todo: seq<DueCron>, env: CallEnv, ghost ids: seq<nat>, t0: int,
                  ghost s0: State, ghost run0: seq<Event>, ghost s1: State)
      returns (ghost run: seq<Event>, ghost s: State)
      requires todo != [] && d == todo[0] && env.CronEnv?
      requires At(s0, t0, run0, s1, WithIds(env, ids), TUpdate(todo))
      modifies store`schedules
      ensures At(s0, t0, run, s, WithIds(env, ids), TCreate(todo[1..]))
      ensures store.schedules == if !env.writes(d.id).Failure? && d.id in old(store.schedules)
                                 then old(store.schedules)[d.id := old(store.schedules)[d.id].(nextRun := env.next(d.row.cron, d.row.nextRun))]
                                 else old(store.schedules)
    {
      var next := env.next(d.row.cron, d.row.nextRun);
      var _ := store.UpdateScheduleNextRun(d.id, next, env.writes(d.id));
      run, s := NextStatement(s0, Cron(t0, TList), run0, s1, WithIds(env, ids));
    }
  }

  /** The insert of a firing, on the side of the protocol. */
  lemma Inserts(d: DueCron, todo: seq<DueCron>, env: CallEnv, ids: seq<nat>, t0: int, s0: State, run0: seq<Event>, s1: State)
    returns (run: seq<Event>, s: State)
    requires todo != [] && d == todo[0] && env.CronEnv?
    requires Made(s0, Cron(t0, TList), run0, s1, WithIds(env, ids)) && s1.calls[|s0.calls|] == Cron(t0, TCreate(todo))
    ensures Made(s0, Cron(t0, TList), run, s, WithIds(env, ids))
    ensures Performs(s1, s, Effective(Insert(|s1.born|, CronRow(d)), env.creates(d.id)))
    ensures s.born == s1.born + [Birth(d.row.typ, d.row.payload, 0, "", d.row.queue, 0, |s0.calls|)]
    ensures s.calls[|s0.calls|] == Cron(t0, if env.creates(d.id).Ok? && Insertable(s1.jobs, |s1.born|, CronRow(d))
                                            then TEnqueue(todo, |s1.born|) else TCreate(todo[1..]))
  {
    run, s := NextStatement(s0, Cron(t0, TList), run0, s1, WithIds(env, ids));
  }

  /** The tables and the log a tick writes, and the number of ids given out. */
  datatype Ledger = Ledger(jobs: map<nat, Job>, schedules: map<nat, Schedule>, log: seq<Entry>, born: nat)

  /** Ids given out so far cover the rows that are there. */
  predicate IdsBelow(jobs: map<nat, Job>, n: nat) {
    forall j :: j in jobs ==> j < n
  }

  /** Whether a listed schedule moves on: all three of its calls must go through, but for the reply of the last. */
  predicate Moves(env: CallEnv, id: nat)
    requires env.CronEnv?
  {
    env.creates(id).Ok? && env.enqueues(id).Ok? && !env.writes(id).Failure?
  }

  /** The job a firing makes: pending, and without run_at, key and priority. */
  predicate JobFor(jobs: map<nat, Job>, id: nat, d: DueCron) {
    id in jobs && jobs[id] == Job(d.row.typ, d.row.payload, d.row.queue, Pending, 0, None, 0, "", 0)
  }

  predicate SendsOne(log: seq<Entry>, log': seq<Entry>, origin: Origin, id: nat) {
    |log'| == |log| + 1 && log'[..|log|] == log && log'[|log|].origin == origin && log'[|log|].req.job == id
  }

  /** One listed schedule: its job, its message, its next time, as far as the calls go through. */
  ghost predicate DealtWith(a: Ledger, b: Ledger, d: DueCron, env: CallEnv)
    requires env.CronEnv?
  {
    var id := a.born;
    && b.born == id + 1
    && (if !env.creates(d.id).Failure? && id !in a.jobs
        then JobFor(b.jobs, id, d) && b.jobs == a.jobs[id := b.jobs[id]]
        else b.jobs == a.jobs)
    && (if id !in a.jobs && env.creates(d.id).Ok? && !env.enqueues(d.id).Failure?
        then SendsOne(a.log, b.log, ByCron(d.id, d.row.nextRun), id)
        else b.log == a.log)
    && b.schedules == if id !in a.jobs && Moves(env, d.id) && d.id in a.schedules
                      then a.schedules[d.id := a.schedules[d.id].(nextRun := env.next(d.row.cron, d.row.nextRun))]
                      else a.schedules
  }

  /** The first `n` listed schedules have been dealt with; the others are as they were. */
  ghost predicate SchedulesMoved(before: map<nat, Schedule>, after: map<nat, Schedule>, due: seq<DueCron>, n: nat, env: CallEnv)
    requires env.CronEnv? && n <= |due| && after.Keys == before.Keys
  {
    && (forall id :: id in before && (forall k :: 0 <= k < n ==> due[k].id != id) ==> after[id] == before[id])
    && (forall k :: 0 <= k < n && due[k].id in before ==>
          after[due[k].id] == if Moves(env, due[k].id)
                              then before[due[k].id].(nextRun := env.next(due[k].row.cron, due[k].row.nextRun))
                              else before[due[k].id])
  }

  /** The `k`th listed schedule has its job under the `k`th new id, unless the insert failed. */
  ghost predicate JobsMade(jobs: map<nat, Job>, first: nat, due: seq<DueCron>, n: nat, env: CallEnv)
    requires n <= |due| && env.CronEnv?
  {
    forall k :: 0 <= k < n ==> JobMade(jobs, first + k, due[k], env)
  }

  predicate JobMade(jobs: map<nat, Job>, id: nat, d: DueCron, env: CallEnv)
    requires env.CronEnv?
  {
    if env.creates(d.id).Failure? then id !in jobs else JobFor(jobs, id, d)
  }

  /** The listed schedules whose insert was reported and whose enqueue took effect, each with its job. */
  function Firings(due: seq<DueCron>, first: nat, env: CallEnv): seq<(DueCron, nat)>
    requires env.CronEnv?
  {
    if due == [] then []
    else
      var n := |due| - 1;
      Firings(due[..n], first, env)
      + if env.creates(due[n].id).Ok? && !env.enqueues(due[n].id).Failure? then [(due[n], first + n)] else []
  }

  /** One message more for each of them, in order. */
  ghost predicate MessagesMade(log: seq<Entry>, log': seq<Entry>, firings: seq<(DueCron, nat)>) {
    && |log'| == |log| + |firings| && log'[..|log|] == log
    && forall k :: 0 <= k < |firings| ==> MessageFor(log'[|log| + k], firings[k].0, firings[k].1)
  }

  predicate MessageFor(m: Entry, d: DueCron, id: nat) {
    m.origin == ByCron(d.id, d.row.nextRun) && m.req.job == id
  }

  ghost predicate Progress(a: Ledger, b: Ledger, due: seq<DueCron>, n: nat, env: CallEnv)
    requires env.CronEnv? && n <= |due|
  {
    && b.schedules.Keys == a.schedules.Keys
    && (IdsBelow(a.jobs, a.born) ==>
          && b.born == a.born + n && IdsBelow(b.jobs, b.born)
          && SchedulesMoved(a.schedules, b.schedules, due, n, env)
          && RowsKept(a.jobs, b.jobs) && JobsMade(b.jobs, a.born, due, n, env)
          && MessagesMade(a.log, b.log, Firings(due[..n], a.born, env)))
  }

  ghost predicate RowsKept(jobs: map<nat, Job>, jobs': map<nat, Job>) {
    forall j :: j in jobs ==> j in jobs' && jobs'[j] == jobs[j]
  }

  lemma NothingDealtWith(a: Ledger, due: seq<DueCron>, env: CallEnv)
    requires env.CronEnv?
    ensures Progress(a, a, due, 0, env)
  {
  }

  lemma MovesOneMore(before: map<nat, Schedule>, mid: map<nat, Schedule>, after: map<nat, Schedule>, due: seq<DueCron>, n: nat,
                     env: CallEnv)
    requires env.CronEnv? && n < |due| && mid.Keys == before.Keys && after.Keys == before.Keys
    requires forall i, k :: 0 <= i < k < |due| ==> due[i].id != due[k].id
    requires SchedulesMoved(before, mid, due, n, env)
    requires var d := due[n];
             after == if Moves(env, d.id) && d.id in mid then mid[d.id := mid[d.id].(nextRun := env.next(d.row.cron, d.row.nextRun))]
                      else mid
    ensures SchedulesMoved(before, after, due, n + 1, env)
  {
    assert due[n].id in before ==> mid[due[n].id] == before[due[n].id];
    forall k | 0 <= k < n + 1 && due[k].id in before
      ensures after[due[k].id] == if Moves(env, due[k].id)
                                  then before[due[k].id].(nextRun := env.next(due[k].row.cron, due[k].row.nextRun))
                                  else before[due[k].id]
    {
      if k < n { assert after[due[k].id] == mid[due[k].id]; }
    }
    forall id | id in before && forall k :: 0 <= k < n + 1 ==> due[k].id != id
      ensures after[id] == before[id]
    {
      assert due[n].id != id;
    }
  }

  lemma MakesOneMore(mid: map<nat, Job>, after: map<nat, Job>, first: nat, due: seq<DueCron>, n: nat, env: CallEnv)
    requires env.CronEnv? && n < |due| && IdsBelow(mid, first + n) && JobsMade(mid, first, due, n, env)
    requires if env.creates(due[n].id).Failure? then after == mid
             else JobFor(after, first + n, due[n]) && after == mid[first + n := after[first + n]]
    ensures JobsMade(after, first, due, n + 1, env) && IdsBelow(after, first + n + 1) && RowsKept(mid, after)
  {
    forall k | 0 <= k < n + 1 ensures JobMade(after, first + k, due[k], env) {
      if k < n { assert JobMade(mid, first + k, due[k], env); }
    }
  }

  lemma SendsOneMore(log: seq<Entry>, mid: seq<Entry>, after: seq<Entry>, first: nat, due: seq<DueCron>, n: nat, env: CallEnv)
    requires env.CronEnv? && n < |due| && MessagesMade(log, mid, Firings(due[..n], first, env))
    requires if env.creates(due[n].id).Ok? && !env.enqueues(due[n].id).Failure?
             then SendsOne(mid, after, ByCron(due[n].id, due[n].row.nextRun), first + n) else after == mid
    ensures MessagesMade(log, after, Firings(due[..n + 1], first, env))
  {
    var before, firings := Firings(due[..n], first, env), Firings(due[..n + 1], first, env);
    assert due[..n + 1][..n] == due[..n];
    assert after[..|log|] == after[..|mid|][..|log|];
    forall k | 0 <= k < |firings| ensures MessageFor(after[|log| + k], firings[k].0, firings[k].1) {
      if k < |before| {
        assert after[..|mid|][|log| + k] == after[|log| + k];
        assert MessageFor(mid[|log| + k], before[k].0, before[k].1);
      }
    }
  }

  lemma OneMoreDealtWith(a: Ledger, mid: Ledger, b: Ledger, due: seq<DueCron>, n: nat, env: CallEnv)
    requires env.CronEnv? && n < |due| && forall i, k :: 0 <= i < k < |due| ==> due[i].id != due[k].id
    requires Progress(a, mid, due, n, env) && DealtWith(mid, b, due[n], env)
    ensures Progress(a, b, due, n + 1, env)
  {
    if IdsBelow(a.jobs, a.born) {
      assert mid.born !in mid.jobs;
      MovesOneMore(a.schedules, mid.schedules, b.schedules, due, n, env);
      MakesOneMore(mid.jobs, b.jobs, a.born, due, n, env);
      SendsOneMore(a.log, mid.log, b.log, a.born, due, n, env);
    }
  }

  /** What a tick has done, once ids are given out in order: each listed schedule whose calls went through
      has moved to the occurrence after its own next_run_at, and every other is as it was; each whose insert
      took effect has its new pending job beside the jobs there were; and each that could then be enqueued
      has one message for it. */
  ghost predicate Ticked(a: Ledger, b: Ledger, ids: seq<nat>, env: CallEnv)
    requires env.CronEnv?
  {
    && CronIds(a.schedules, ids) && b.schedules.Keys == a.schedules.Keys
    && (IdsBelow(a.jobs, a.born) ==>
          && (forall id :: id in a.schedules ==>
                var row := a.schedules[id];
                b.schedules[id] == if id in ids && Moves(env, id) then row.(nextRun := env.next(row.cron, row.nextRun)) else row)
          && b.born == a.born + |ids| && IdsBelow(b.jobs, b.born) && RowsKept(a.jobs, b.jobs)
          && (forall k :: 0 <= k < |ids| ==> JobMade(b.jobs, a.born + k, DueCron(ids[k], a.schedules[ids[k]]), env))
          && MessagesMade(a.log, b.log, Firings(CronSnapshot(a.schedules, ids), a.born, env)))
  }

  lemma TickDoes(a: Ledger, b: Ledger, ids: seq<nat>, env: CallEnv)
    requires env.CronEnv? && CronIds(a.schedules, ids) && Progress(a, b, CronSnapshot(a.schedules, ids), |ids|, env)
    ensures Ticked(a, b, ids, env)
  {
    if IdsBelow(a.jobs, a.born) {
      var due := CronSnapshot(a.schedules, ids);
      TickMoves(a.schedules, b.schedules, ids, env);
      assert due[..|ids|] == due;
      forall k | 0 <= k < |ids| ensures JobMade(b.jobs, a.born + k, DueCron(ids[k], a.schedules[ids[k]]), env) {
        assert JobMade(b.jobs, a.born + k, due[k], env);
      }
    }
  }

  lemma TickMoves(before: map<nat, Schedule>, after: map<nat, Schedule>, ids: seq<nat>, env: CallEnv)
    requires env.CronEnv? && CronIds(before, ids) && after.Keys == before.Keys
    requires SchedulesMoved(before, after, CronSnapshot(before, ids), |ids|, env)
    ensures forall id :: id in before ==>
              var row := before[id];
              after[id] == if id in ids && Moves(env, id) then row.(nextRun := env.next(row.cron, row.nextRun)) else row
  {
    var due := CronSnapshot(before, ids);
    assert forall k :: 0 <= k < |ids| ==> due[k] == DueCron(ids[k], before[ids[k]]);
    forall id | id in before
      ensures var row := before[id];
              after[id] == if id in ids && Moves(env, id) then row.(nextRun := env.next(row.cron, row.nextRun)) else row
    {
      if id in ids {
        var k :| 0 <= k < |ids| && ids[k] == id;
        assert due[k].id == id;
      } else {
        assert forall k :: 0 <= k < |due| ==> due[k].id == ids[k];
      }
    }
  }

  /** A tick takes every schedule forward with the library's `Next`, from its own next_run_at: what
      `NoOccurrenceSkipped` and `ExactlyOnce` ask of it. */
  lemma {:induction false} StepsFollow(s: State, run: seq<Event>, c: nat, env: CallEnv)
    requires Legal(s, run) && Obeys(s, run, c, env) && env.CronEnv?
    ensures FollowsAll(env.next, s, run)
    decreases |run|
  {
    if run != [] {
      StepsFollow(Apply(s, run[0]), run[1..], c, env);
    }
  }

  lemma TickFollows(s0: State, call: Call, run: seq<Event>, s: State, env: CallEnv, ids: seq<nat>)
    requires Made(s0, call, run, s, WithIds(env, ids)) && env.CronEnv?
    ensures FollowsAll(env.next, s0, run)
  {
    StepsFollow(Begun(s0, call), run[1..], |s0.calls|, WithIds(env, ids));
  }
}
