/** The Postgres tables as values: what each statement of the store does to a table, and what
    an ordered, limited SELECT may return. */
module Tables {
  import opened Types

  /** `UPDATE jobs SET status, attempt, completed_at WHERE id`: no row, no effect. */
  function SetStatus(jobs: map<nat, Job>, id: nat, status: Status, attempt: int, completedAt: Option<int>): map<nat, Job> {
    if id in jobs then jobs[id := jobs[id].(status := status, attempt := attempt, completedAt := completedAt)] else jobs
  }

  predicate SameKey(a: Job, b: Job) {
    a.typ == b.typ && a.queue == b.queue && a.key == b.key
  }

  /** Whether an INSERT passes the primary key and the partial unique index on
      (type, queue, idempotency_key). */
  predicate Insertable(jobs: map<nat, Job>, id: nat, row: Job) {
    id !in jobs && (row.key != "" ==> forall k :: k in jobs ==> !SameKey(jobs[k], row))
  }

  /** The row `Create` writes: a negative run_at is stored as zero. */
  function NewJob(typ: string, payload: Payload, queue: string, status: Status, runAt: int, key: string, priority: int): Job {
    Job(typ, payload, queue, status, 0, None, Max(runAt, 0), key, priority)
  }

  // ---- SELECT ... ORDER BY key ASC LIMIT n ----

  ghost predicate Distinct(ids: seq<nat>) {
    forall i, k :: 0 <= i < k < |ids| ==> ids[i] != ids[k]
  }

  lemma CardMonotone<T>(a: set<T>, b: set<T>)
    requires a <= b
    ensures |a| <= |b|
  {
    assert b == a + (b - a);
  }

  function Ids(ids: seq<nat>): set<nat> {
    set i | i in ids
  }

  lemma {:induction false} DistinctCount(ids: seq<nat>)
    requires Distinct(ids)
    ensures |Ids(ids)| == |ids|
  {
    if ids != [] {
      var n := |ids| - 1;
      DistinctCount(ids[..n]);
      assert ids == ids[..n] + [ids[n]];
      assert Ids(ids) == Ids(ids[..n]) + {ids[n]};
    }
  }

  /** `ids` is a possible answer to selecting the rows of `keys`, smallest key first, at most
      `limit` of them. Ties may come in any order. */
  ghost predicate Smallest(ids: seq<nat>, keys: map<nat, int>, limit: nat) {
    && |ids| == Min(limit, |keys|)
    && Distinct(ids)
    && (forall i :: 0 <= i < |ids| ==> ids[i] in keys)
    && (forall i, k :: 0 <= i < k < |ids| ==> keys[ids[i]] <= keys[ids[k]])
    && (forall i, k :: 0 <= i < |ids| && k in keys && k !in ids ==> keys[ids[i]] <= keys[k])
  }

  lemma Least(keys: map<nat, int>) returns (k: nat)
    requires keys != map[]
    ensures k in keys && forall i :: i in keys ==> keys[k] <= keys[i]
    decreases |keys|
  {
    var x :| x in keys;
    k := x;
    var rest := keys - {x};
    if rest != map[] {
      assert keys.Keys == rest.Keys + {x};
      var y := Least(rest);
      if keys[y] < keys[x] { k := y; }
    }
    forall i | i in keys
      ensures keys[k] <= keys[i]
    {
      assert i == x || i in rest;
    }
  }

  /** A limited, ordered SELECT always has an answer. */
  lemma {:induction false} SomeSmallest(keys: map<nat, int>, limit: nat) returns (ids: seq<nat>)
    ensures Smallest(ids, keys, limit)
    decreases limit
  {
    ids := [];
    if limit > 0 && keys != map[] {
      var k := Least(keys);
      var rest := keys - {k};
      assert keys.Keys == rest.Keys + {k};
      assert |keys| == |rest| + 1;
      var more := SomeSmallest(rest, limit - 1);
      ids := [k] + more;
      LeastFirst(keys, limit, k, more);
    }
  }

  lemma LeastFirst(keys: map<nat, int>, limit: nat, k: nat, more: seq<nat>)
    requires limit > 0 && k in keys && (forall i :: i in keys ==> keys[k] <= keys[i])
    requires Smallest(more, keys - {k}, limit - 1) && |keys| == |keys - {k}| + 1
    ensures Smallest([k] + more, keys, limit)
  {
    var ids := [k] + more;
    var rest := keys - {k};
    forall i, m | 0 <= i < m < |ids|
      ensures ids[i] != ids[m] && ids[m] in keys && keys[ids[i]] <= keys[ids[m]]
    {
      assert ids[m] == more[m - 1] && ids[m] in rest;
      assert i > 0 ==> ids[i] == more[i - 1];
    }
    forall i, m | 0 <= i < |ids| && m in keys && m !in ids
      ensures keys[ids[i]] <= keys[m]
    {
      assert m != k && m in rest && m !in more;
      assert i > 0 ==> ids[i] == more[i - 1];
    }
  }

  /** The rows `ListScheduledDue` selects from, with their run_at. */
  function DueJobs(jobs: map<nat, Job>, now: int): map<nat, int> {
    map j | j in jobs && jobs[j].status.Scheduled? && 0 < jobs[j].runAt <= now :: jobs[j].runAt
  }

  /** The rows `ListSchedulesDue` selects from, with their next_run_at. */
  function DueSchedules(schedules: map<nat, Schedule>, now: int): map<nat, int> {
    map j | j in schedules && schedules[j].nextRun <= now :: schedules[j].nextRun
  }

  /** The rows `ListPendingOutbox` selects from, with their created_at. */
  function UnsentRows(outbox: seq<OutboxRow>): map<nat, int> {
    map i: nat | i < |outbox| && outbox[i].status.Unsent? :: outbox[i].createdAt
  }

  // ---- the same, column by column ----

  /** At most `limit` of the scheduled jobs with 0 < run_at <= now, each once, least run_at first, none
      later than one left out; and all of them, unless there are more than `limit`. */
  ghost predicate EarliestRunAt(ids: seq<nat>, jobs: map<nat, Job>, now: int, limit: int) {
    && |ids| <= limit && (forall i, k :: 0 <= i < k < |ids| ==> ids[i] != ids[k])
    && (forall n :: 0 <= n < |ids| ==> ids[n] in jobs && jobs[ids[n]].status == Scheduled && 0 < jobs[ids[n]].runAt <= now)
    && (forall i, k :: 0 <= i < k < |ids| ==> jobs[ids[i]].runAt <= jobs[ids[k]].runAt)
    && (forall j :: j in jobs && jobs[j].status == Scheduled && 0 < jobs[j].runAt <= now && j !in ids ==>
          |ids| == limit && forall i :: i in ids ==> jobs[i].runAt <= jobs[j].runAt)
  }

  /** Likewise of the schedules with next_run_at <= now. */
  ghost predicate EarliestNextRun(ids: seq<nat>, schedules: map<nat, Schedule>, now: int, limit: int) {
    && |ids| <= limit && (forall i, k :: 0 <= i < k < |ids| ==> ids[i] != ids[k])
    && (forall n :: 0 <= n < |ids| ==> ids[n] in schedules && schedules[ids[n]].nextRun <= now)
    && (forall i, k :: 0 <= i < k < |ids| ==> schedules[ids[i]].nextRun <= schedules[ids[k]].nextRun)
    && (forall j :: j in schedules && schedules[j].nextRun <= now && j !in ids ==>
          |ids| == limit && forall i :: i in ids ==> schedules[i].nextRun <= schedules[j].nextRun)
  }

  /** Likewise of the unsent outbox rows, by created_at. */
  ghost predicate OldestUnsent(ids: seq<nat>, outbox: seq<OutboxRow>, limit: int) {
    && |ids| <= limit && (forall i, k :: 0 <= i < k < |ids| ==> ids[i] != ids[k])
    && (forall n :: 0 <= n < |ids| ==> ids[n] < |outbox| && outbox[ids[n]].status == Unsent)
    && (forall i, k :: 0 <= i < k < |ids| ==> outbox[ids[i]].createdAt <= outbox[ids[k]].createdAt)
    && (forall j: nat :: j < |outbox| && outbox[j].status == Unsent && j !in ids ==>
          |ids| == limit && forall i :: i in ids ==> outbox[i].createdAt <= outbox[j].createdAt)
  }

  /** A selection that leaves a row out is full. */
  lemma LeftOutOfFull(ids: seq<nat>, keys: map<nat, int>, limit: nat, j: nat)
    requires Smallest(ids, keys, limit) && j in keys && j !in ids
    ensures |ids| == limit
    ensures forall i :: i in ids ==> keys[i] <= keys[j]
  {
    DistinctCount(ids);
    assert Ids(ids) + {j} <= keys.Keys;
    CardMonotone(Ids(ids) + {j}, keys.Keys);
    assert |Ids(ids) + {j}| == |ids| + 1;
    assert |keys.Keys| == |keys|;
    forall i | i in ids ensures keys[i] <= keys[j] {
      var n :| 0 <= n < |ids| && ids[n] == i;
    }
  }

  lemma DueInOrder(ids: seq<nat>, jobs: map<nat, Job>, now: int, limit: nat)
    requires Smallest(ids, DueJobs(jobs, now), limit)
    ensures EarliestRunAt(ids, jobs, now, limit)
  {
    var keys := DueJobs(jobs, now);
    assert forall i :: 0 <= i < |ids| ==> ids[i] in keys;
    forall j | j in jobs && jobs[j].status == Scheduled && 0 < jobs[j].runAt <= now && j !in ids
      ensures |ids| == limit && forall i :: i in ids ==> jobs[i].runAt <= jobs[j].runAt
    {
      assert j in keys;
      LeftOutOfFull(ids, keys, limit, j);
      assert forall i :: i in ids ==> i in keys && keys[i] == jobs[i].runAt;
    }
  }

  lemma SchedulesInOrder(ids: seq<nat>, schedules: map<nat, Schedule>, now: int, limit: nat)
    requires Smallest(ids, DueSchedules(schedules, now), limit)
    ensures EarliestNextRun(ids, schedules, now, limit)
  {
    var keys := DueSchedules(schedules, now);
    assert forall i :: 0 <= i < |ids| ==> ids[i] in keys;
    forall j | j in schedules && schedules[j].nextRun <= now && j !in ids
      ensures |ids| == limit && forall i :: i in ids ==> schedules[i].nextRun <= schedules[j].nextRun
    {
      assert j in keys;
      LeftOutOfFull(ids, keys, limit, j);
      assert forall i :: i in ids ==> i in keys && keys[i] == schedules[i].nextRun;
    }
  }

  lemma UnsentInOrder(ids: seq<nat>, outbox: seq<OutboxRow>, limit: nat)
    requires Smallest(ids, UnsentRows(outbox), limit)
    ensures OldestUnsent(ids, outbox, limit)
  {
    var keys := UnsentRows(outbox);
    assert forall i :: 0 <= i < |ids| ==> ids[i] in keys;
    forall j: nat | j < |outbox| && outbox[j].status == Unsent && j !in ids
      ensures |ids| == limit && forall i :: i in ids ==> outbox[i].createdAt <= outbox[j].createdAt
    {
      assert j in keys;
      LeftOutOfFull(ids, keys, limit, j);
      assert forall i :: i in ids ==> i in keys && keys[i] == outbox[i].createdAt;
    }
  }

  const PROMOTE_LIMIT: nat := 50
  const SCHEDULE_LIMIT: nat := 50
  const OUTBOX_LIMIT: nat := 10
}
