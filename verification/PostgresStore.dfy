/** The Postgres store: the tables as fields, every statement as a method. How a call comes out
    is the environment's choice. */
module PostgresStore {
  import opened Types
  import opened Tables
  import opened Protocol
  import opened Submission

  /** The points at which the outbox transaction can end. */
  datatype TxOutcome = BeginFails | UpdateFails | InsertFails | CommitFails | Committed | CommitReplyLost

  function TxCall(t: TxOutcome): Outcome {
    match t
    case Committed => Ok
    case CommitReplyLost => LostReply
    case _ => Failure
  }

  /** A limit outside 1..cap falls back to the default. */
  function Limit(limit: int, cap: int, fallback: nat): nat {
    if limit <= 0 || limit > cap then fallback else limit
  }

  /** The row with the smallest key. */
  method ArgMin(keys: map<nat, int>) returns (k: nat)
    requires keys != map[]
    ensures k in keys && forall i :: i in keys ==> keys[k] <= keys[i]
  {
    k :| k in keys;
    var rest := keys.Keys - {k};
    while rest != {}
      invariant rest <= keys.Keys && k in keys
      invariant forall i :: i in keys && i !in rest ==> keys[k] <= keys[i]
      decreases |rest|
    {
      var i :| i in rest;
      if keys[i] < keys[k] { k := i; }
      rest := rest - {i};
    }
  }

  /** The selection so far, and the rows not selected yet. */
  ghost predicate Selecting(ids: seq<nat>, rest: map<nat, int>, keys: map<nat, int>) {
    && |ids| + |rest| == |keys| && Distinct(ids)
    && (forall i :: i in keys <==> i in rest || i in ids)
    && (forall i :: i in rest ==> i !in ids && rest[i] == keys[i])
    && (forall i, k :: 0 <= i < k < |ids| ==> keys[ids[i]] <= keys[ids[k]])
    && (forall i, k :: 0 <= i < |ids| && k in rest ==> keys[ids[i]] <= keys[k])
  }

  lemma SelectsNext(ids: seq<nat>, rest: map<nat, int>, keys: map<nat, int>, k: nat)
    requires Selecting(ids, rest, keys) && k in rest && forall i :: i in rest ==> rest[k] <= rest[i]
    ensures Selecting(ids + [k], rest - {k}, keys)
  {
    assert rest.Keys == (rest - {k}).Keys + {k};
  }

  /** `ORDER BY key ASC LIMIT limit`. */
  method SelectSmallest(keys: map<nat, int>, limit: nat) returns (ids: seq<nat>)
    ensures Smallest(ids, keys, limit)
  {
    ids := [];
    var rest := keys;
    while |ids| < limit && rest != map[]
      invariant Selecting(ids, rest, keys) && |ids| <= limit
      decreases |rest|
    {
      var k := ArgMin(rest);
      SelectsNext(ids, rest, keys, k);
      ids := ids + [k];
      rest := rest - {k};
    }
    assert |ids| == Min(limit, |keys|);
  }

  class Store {
    var jobs: map<nat, Job>
    var outbox: seq<OutboxRow>
    var queues: map<string, bool>
    var schedules: map<nat, Schedule>

    /** The unique index on (type, queue, idempotency_key). */
    ghost predicate Valid()
      reads this
    {
      UniqueKeys(jobs)
    }

    /** The tables are those of the protocol state. */
    ghost predicate Shows(s: State)
      reads this
    {
      Valid() && jobs == s.jobs && outbox == s.outbox && queues == s.paused && schedules == s.schedules
    }

    method Create(id: nat, row: Job, o: Outcome) returns (ok: bool)
      requires Valid()
      modifies this`jobs
      ensures Valid()
      ensures jobs == JobsAfter(old(jobs), Effective(Insert(id, row), o))
      ensures ok == (o.Ok? && Insertable(old(jobs), id, row))
      ensures var fits := id !in old(jobs) &&
                          (row.key == "" || forall k :: k in old(jobs) ==>
                             old(jobs)[k].typ != row.typ || old(jobs)[k].queue != row.queue || old(jobs)[k].key != row.key);
              ok == (o.Ok? && fits) && jobs == if !o.Failure? && fits then old(jobs)[id := row] else old(jobs)
    {
      var fits := Insertable(jobs, id, row);
      if Applied(o) && fits {
        jobs := jobs[id := row];
      }
      ok := o.Ok? && fits;
    }

    method GetByID(id: nat, o: Outcome) returns (ok: bool, rec: Option<Job>)
      ensures ok == o.Ok?
      ensures rec == if ok && id in jobs then Some(jobs[id]) else None
    {
      ok := o.Ok?;
      rec := if ok && id in jobs then Some(jobs[id]) else None;
    }

    method GetByIdempotencyKey(typ: string, queue: string, key: string, o: Outcome) returns (ok: bool, found: Option<nat>)
      ensures key == "" ==> ok && found == None
      ensures key != "" ==> ok == o.Ok?
      ensures found.Some? ==>
                found.value in jobs
                && jobs[found.value].typ == typ && jobs[found.value].queue == queue && jobs[found.value].key == key
      ensures key != "" && ok && found.None? ==>
                forall j :: j in jobs ==> !(jobs[j].typ == typ && jobs[j].queue == queue && jobs[j].key == key)
    {
      if key == "" { return true, None; }
      ok, found := o.Ok?, None;
      if ok && exists j :: j in jobs && jobs[j].typ == typ && jobs[j].queue == queue && jobs[j].key == key {
        var j :| j in jobs && jobs[j].typ == typ && jobs[j].queue == queue && jobs[j].key == key;
        found := Some(j);
      }
    }

    method UpdateStatus(id: nat, status: Status, attempt: int, completedAt: Option<int>, o: Outcome) returns (ok: bool)
      requires Valid()
      modifies this`jobs
      ensures Valid()
      ensures jobs == JobsAfter(old(jobs), Effective(Op.UpdateStatus(id, status, attempt, completedAt), o))
      ensures jobs == if !o.Failure? && id in old(jobs)
                      then old(jobs)[id := old(jobs)[id].(status := status, attempt := attempt, completedAt := completedAt)]
                      else old(jobs)
      ensures ok == o.Ok?
    {
      if Applied(o) && id in jobs {
        jobs := jobs[id := jobs[id].(status := status, attempt := attempt, completedAt := completedAt)];
      }
      ok := o.Ok?;
    }

    /** The job update and the outbox row are written together or, on every early return, not at all. */
    method CompleteJobWithOutbox(id: nat, attempt: int, at: int, row: OutboxRow, t: TxOutcome) returns (ok: bool)
      requires Valid()
      modifies this`jobs, this`outbox
      ensures Valid()
      ensures jobs == JobsAfter(old(jobs), Effective(CompleteWithOutbox(id, attempt, at, row), TxCall(t)))
      ensures outbox == OutboxAfter(old(outbox), Effective(CompleteWithOutbox(id, attempt, at, row), TxCall(t)))
      ensures if t.Committed? || t.CommitReplyLost?
              then
                && outbox == old(outbox) + [row]
                && jobs == if id in old(jobs)
                           then old(jobs)[id := old(jobs)[id].(status := Completed, attempt := attempt, completedAt := Some(at))]
                           else old(jobs)
              else jobs == old(jobs) && outbox == old(outbox)
      ensures ok == TxCall(t).Ok?
    {
      if t.BeginFails? { return false; }
      var txJobs, txOutbox := jobs, outbox;
      if t.UpdateFails? { return false; }
      txJobs := SetStatus(txJobs, id, Completed, attempt, Some(at));
      if t.InsertFails? { return false; }
      txOutbox := txOutbox + [row];
      if t.CommitFails? { return false; }
      jobs, outbox := txJobs, txOutbox;
      ok := t.Committed?;
    }

    /** The scheduled jobs that are due, earliest run_at first, as they are now. */
    method ListScheduledDue(now: int, limit: int, o: Outcome) returns (ok: bool, recs: seq<Due>, ghost ids: seq<nat>)
      ensures ok == o.Ok? && DueIds(jobs, ids) && recs == Snapshot(jobs, ids)
      ensures if ok then Smallest(ids, DueJobs(jobs, now), Limit(limit, 500, 100)) else ids == []
      ensures ok ==> EarliestRunAt(ids, jobs, now, if 0 < limit <= 500 then limit else 100)
    {
      ok, recs, ids := o.Ok?, [], [];
      if ok {
        var found := SelectSmallest(DueJobs(jobs, now), Limit(limit, 500, 100));
        DueInOrder(found, jobs, now, Limit(limit, 500, 100));
        recs := Snapshot(jobs, found);
        ids := found;
      }
    }

    /** The schedules that are due, earliest next_run_at first, as they are now. */
    method ListSchedulesDue(now: int, limit: int, o: Outcome) returns (ok: bool, recs: seq<DueCron>, ghost ids: seq<nat>)
      ensures ok == o.Ok? && CronIds(schedules, ids) && recs == CronSnapshot(schedules, ids)
      ensures if ok then Smallest(ids, DueSchedules(schedules, now), Limit(limit, 100, 20)) else ids == []
      ensures ok ==> EarliestNextRun(ids, schedules, now, if 0 < limit <= 100 then limit else 20)
    {
      ok, recs, ids := o.Ok?, [], [];
      if ok {
        var found := SelectSmallest(DueSchedules(schedules, now), Limit(limit, 100, 20));
        SchedulesInOrder(found, schedules, now, Limit(limit, 100, 20));
        recs := CronSnapshot(schedules, found);
        ids := found;
      }
    }

    /** The unsent outbox rows, oldest first. */
    method ListPendingOutbox(limit: int, o: Outcome) returns (ok: bool, ids: seq<nat>)
      ensures ok == o.Ok?
      ensures if ok then Smallest(ids, UnsentRows(outbox), Limit(limit, 100, 20)) else ids == []
      ensures ok ==> OldestUnsent(ids, outbox, if 0 < limit <= 100 then limit else 20)
    {
      ok, ids := o.Ok?, [];
      if ok {
        ids := SelectSmallest(UnsentRows(outbox), Limit(limit, 100, 20));
        UnsentInOrder(ids, outbox, Limit(limit, 100, 20));
      }
    }

    /** A delivery attempt is remembered beside the row; no column changes. */
    method RecordAttempt(i: nat, sent: bool)
      modifies this`outbox
      ensures outbox == OutboxAfter(old(outbox), Send(i, sent))
    {
      if i < |outbox| {
        outbox := outbox[i := outbox[i].(tries := outbox[i].tries + [sent])];
      }
    }

    method UpdateOutboxStatus(i: nat, status: OutboxStatus, o: Outcome) returns (ok: bool)
      modifies this`outbox
      ensures outbox == OutboxAfter(old(outbox), Effective(MarkOutbox(i, status), o))
      ensures outbox == if !o.Failure? && i < |old(outbox)| then old(outbox)[i := old(outbox)[i].(status := status)] else old(outbox)
      ensures ok == o.Ok?
    {
      if Applied(o) && i < |outbox| {
        outbox := outbox[i := outbox[i].(status := status)];
      }
      ok := o.Ok?;
    }

    method UpdateScheduleNextRun(id: nat, time: int, o: Outcome) returns (ok: bool)
      modifies this`schedules
      ensures schedules == SchedulesAfter(old(schedules), Effective(SetNextRun(id, time), o))
      ensures schedules == if !o.Failure? && id in old(schedules)
                           then old(schedules)[id := old(schedules)[id].(nextRun := time)] else old(schedules)
      ensures ok == o.Ok?
    {
      if Applied(o) && id in schedules {
        schedules := schedules[id := schedules[id].(nextRun := time)];
      }
      ok := o.Ok?;
    }

    /** A queue that is not in the table is not paused. */
    method GetQueue(name: string, o: Outcome) returns (ok: bool, paused: bool)
      ensures ok == o.Ok?
      ensures paused == (ok && name in queues && queues[name])
    {
      ok := o.Ok?;
      paused := ok && name in queues && queues[name];
    }
  }
}
