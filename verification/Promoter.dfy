/** The promoter: one tick as the code runs it, which is proved to be a run of the protocol. */
module Promoter {
  import opened Types
  import opened Tables
  import opened Protocol
  import opened Submission
  import opened Driving
  import opened Calls
  import opened PostgresStore
  import opened JobProducer

  /** Whether a row is promoted: it must be enqueued without error, and the write must take effect. */
  predicate Promoted(env: CallEnv, id: nat)
    requires env.PromoteEnv?
  {
    env.enqueues(id).Ok? && Applied(env.writes(id))
  }

  /** The table after the rows of a tick have been dealt with one by one. */
  function PromoteRows(jobs: map<nat, Job>, due: seq<Due>, env: CallEnv): map<nat, Job>
    requires env.PromoteEnv?
  {
    if due == [] then jobs
    else
      var d, before := due[|due| - 1], PromoteRows(jobs, due[..|due| - 1], env);
      if Promoted(env, d.id) then SetStatus(before, d.id, Pending, d.row.attempt, None) else before
  }

  /** The table with some scheduled jobs made pending. */
  function Pend(jobs: map<nat, Job>, ids: set<nat>): map<nat, Job> {
    map j | j in jobs :: if j in ids then jobs[j].(status := Pending, completedAt := None) else jobs[j]
  }

  function PromotedIds(ids: seq<nat>, env: CallEnv): set<nat>
    requires env.PromoteEnv?
  {
    set i | i in ids && Promoted(env, i)
  }

  /** A tick makes pending exactly the listed jobs whose enqueue and write succeeded; nothing else
      in the table changes. */
  lemma {:induction false} TickPends(jobs: map<nat, Job>, ids: seq<nat>, env: CallEnv)
    requires env.PromoteEnv? && DueIds(jobs, ids) && Distinct(ids)
    ensures PromoteRows(jobs, Snapshot(jobs, ids), env) == Pend(jobs, PromotedIds(ids, env))
    decreases |ids|
  {
    if ids == [] {
      assert Pend(jobs, {}) == jobs;
    } else {
      var n := |ids| - 1;
      var init := ids[..n];
      assert Snapshot(jobs, ids)[..n] == Snapshot(jobs, init);
      TickPends(jobs, init, env);
      assert ids == init + [ids[n]];
      assert ids[n] !in init;
      assert PromotedIds(ids, env) == PromotedIds(init, env) + (if Promoted(env, ids[n]) then {ids[n]} else {});
      PendOne(jobs, PromotedIds(init, env), ids[n]);
    }
  }

  lemma PendOne(jobs: map<nat, Job>, ids: set<nat>, j: nat)
    requires j in jobs && j !in ids
    ensures SetStatus(Pend(jobs, ids), j, Pending, jobs[j].attempt, None) == Pend(jobs, ids + {j})
  {
  }

  predicate MessageFor(m: Entry, id: nat) {
    m.origin == ByPromoter && m.req.job == id
  }

  /** The listed jobs whose enqueue takes effect, in order. */
  function Enqueued(ids: seq<nat>, env: CallEnv): seq<nat>
    requires env.PromoteEnv?
  {
    if ids == [] then []
    else
      var i, before := ids[|ids| - 1], Enqueued(ids[..|ids| - 1], env);
      if env.enqueues(i).Failure? then before else before + [i]
  }

  /** One message more for each of the jobs, in order. */
  ghost predicate MessagesSent(log: seq<Entry>, log': seq<Entry>, ids: seq<nat>) {
    |log'| == |log| + |ids| && log'[..|log|] == log && forall k :: 0 <= k < |ids| ==> MessageFor(log'[|log| + k], ids[k])
  }

  lemma SendsOneMore(log: seq<Entry>, mid: seq<Entry>, after: seq<Entry>, ids: seq<nat>, i: nat, env: CallEnv)
    requires env.PromoteEnv? && MessagesSent(log, mid, Enqueued(ids, env))
    requires if env.enqueues(i).Failure? then after == mid else MessagesSent(mid, after, [i])
    ensures MessagesSent(log, after, Enqueued(ids + [i], env))
  {
    assert (ids + [i])[..|ids|] == ids;
    if !env.enqueues(i).Failure? {
      var sent := Enqueued(ids, env);
      assert after[..|log|] == after[..|mid|][..|log|];
      forall k | 0 <= k < |sent| + 1 ensures MessageFor(after[|log| + k], (sent + [i])[k]) {
        if k < |sent| {
          assert after[..|mid|][|log| + k] == after[|log| + k];
          assert MessageFor(mid[|log| + k], sent[k]);
        } else {
          assert MessageFor(after[|mid| + 0], [i][0]);
        }
      }
    }
  }

  /** What a tick has done: each listed job that was enqueued without error and written is pending, and every
      other row is as it was; and each whose enqueue took effect has one more message, in order. */
  ghost predicate Ticked(jobs: map<nat, Job>, jobs': map<nat, Job>, log: seq<Entry>, log': seq<Entry>, ids: seq<nat>, env: CallEnv)
    requires env.PromoteEnv?
  {
    && jobs'.Keys == jobs.Keys
    && (forall j :: j in jobs ==>
          jobs'[j] == if j in ids && env.enqueues(j).Ok? && !env.writes(j).Failure?
                      then jobs[j].(status := Pending, completedAt := None) else jobs[j])
    && MessagesSent(log, log', Enqueued(ids, env))
  }

  lemma TickDoes(jobs: map<nat, Job>, log: seq<Entry>, log': seq<Entry>, ids: seq<nat>, env: CallEnv)
    requires env.PromoteEnv? && DueIds(jobs, ids) && Distinct(ids) && MessagesSent(log, log', Enqueued(ids, env))
    ensures Ticked(jobs, PromoteRows(jobs, Snapshot(jobs, ids), env), log, log', ids, env)
  {
    TickPends(jobs, ids, env);
  }

  function IdsOf(due: seq<Due>): seq<nat> {
    seq(|due|, k requires 0 <= k < |due| => due[k].id)
  }

  lemma SendsNext(log: seq<Entry>, mid: seq<Entry>, after: seq<Entry>, due: seq<Due>, i: nat, env: CallEnv)
    requires env.PromoteEnv? && i < |due| && MessagesSent(log, mid, Enqueued(IdsOf(due[..i]), env))
    requires if env.enqueues(due[i].id).Failure? then after == mid else MessagesSent(mid, after, [due[i].id])
    ensures MessagesSent(log, after, Enqueued(IdsOf(due[..i + 1]), env))
  {
    assert IdsOf(due[..i + 1]) == IdsOf(due[..i]) + [due[i].id];
    SendsOneMore(log, mid, after, IdsOf(due[..i]), due[i].id, env);
  }

  class RunPromoter {
    const store: Store
    const producer: Producer

    constructor (store: Store, producer: Producer)
      ensures this.store == store && this.producer == producer
    {
      this.store := store;
      this.producer := producer;
    }

    ghost predicate Shows(s: State)
      reads store, producer
    {
      store.Shows(s) && producer.log == s.log
    }

    ghost predicate At(s0: State, call: Call, run: seq<Event>, s: State, env: CallEnv, now: Call)
      reads store, producer
    {
      Shows(s) && Made(s0, call, run, s, env) && s.calls[|s0.calls|] == now
    }

    /** A tick: each due job listed is enqueued, and then marked pending; a failure of either is
        passed over. `ids` is what the list brought. */
    method PromoteDue(env: CallEnv, now: int, ghost s0: State)
      returns (ghost ids: seq<nat>, ghost run: seq<Event>, ghost s: State)
      requires Shows(s0) && s0.clock == now && env.PromoteEnv?
      modifies store`jobs, producer
      ensures At(s0, Promote(now, PList), run, s, WithIds(env, ids), Promote(now, PEnqueue([])))
      ensures if env.list.Ok? then Smallest(ids, DueJobs(s0.jobs, now), 50) else ids == []
      ensures DueIds(s0.jobs, ids) && store.jobs == PromoteRows(s0.jobs, Snapshot(s0.jobs, ids), env)
      ensures if env.list.Ok? then EarliestRunAt(ids, s0.jobs, now, 50) else ids == []
      ensures Ticked(s0.jobs, store.jobs, s0.log, producer.log, ids, env)
    {
      ids, run, s := ListAndPromote(env, now, s0);
      TickDoes(s0.jobs, s0.log, producer.log, ids, env);
    }

    method ListAndPromote(env: CallEnv, now: int, ghost s0: State)
      returns (ghost ids: seq<nat>, ghost run: seq<Event>, ghost s: State)
      requires Shows(s0) && s0.clock == now && env.PromoteEnv?
      modifies store`jobs, producer
      ensures At(s0, Promote(now, PList), run, s, WithIds(env, ids), Promote(now, PEnqueue([])))
      ensures if env.list.Ok? then Smallest(ids, DueJobs(s0.jobs, now), 50) && EarliestRunAt(ids, s0.jobs, now, 50) else ids == []
      ensures DueIds(s0.jobs, ids) && store.jobs == PromoteRows(s0.jobs, Snapshot(s0.jobs, ids), env)
      ensures MessagesSent(s0.log, producer.log, Enqueued(ids, env))
    {
      var ok, due;
      ok, due, ids := store.ListScheduledDue(now, 50, env.list);
      run, s := BeginCall(s0, Promote(now, PList), WithIds(env, ids));
      run, s := NextStatement(s0, Promote(now, PList), run, s, WithIds(env, ids));
      run, s := PromoteAll(due, env, ids, now, s0, run, s);
      assert IdsOf(due) == ids;
    }

    method PromoteAll(due: seq<Due>, env: CallEnv, ghost ids: seq<nat>, now: int,
                      ghost s0: State, ghost run0: seq<Event>, ghost s1: State)
      returns (ghost run: seq<Event>, ghost s: State)
      requires At(s0, Promote(now, PList), run0, s1, WithIds(env, ids), Promote(now, PEnqueue(due))) && env.PromoteEnv?
      modifies store`jobs, producer
      ensures At(s0, Promote(now, PList), run, s, WithIds(env, ids), Promote(now, PEnqueue([])))
      ensures store.jobs == PromoteRows(old(store.jobs), due, env)
      ensures MessagesSent(old(producer.log), producer.log, Enqueued(IdsOf(due), env))
    {
      run, s := run0, s1;
      for i := 0 to |due|
        invariant At(s0, Promote(now, PList), run, s, WithIds(env, ids), Promote(now, PEnqueue(due[i..])))
        invariant store.jobs == PromoteRows(old(store.jobs), due[..i], env)
        invariant MessagesSent(old(producer.log), producer.log, Enqueued(IdsOf(due[..i]), env))
      {
        assert due[..i + 1][..i] == due[..i] && due[i..][0] == due[i] && due[i..][1..] == due[i + 1..];
        ghost var log := producer.log;
        run, s := PromoteOne(due[i], due[i..], env, ids, now, s0, run, s);
        SendsNext(old(producer.log), log, producer.log, due, i, env);
      }
      assert due[..|due|] == due && due[|due|..] == [];
    }

    method PromoteOne(d: Due, ghost todo: seq<Due>, env: CallEnv, ghost ids: seq<nat>, now: int,
                      ghost s0: State, ghost run0: seq<Event>, ghost s1: State)
      returns (ghost run: seq<Event>, ghost s: State)
      requires todo != [] && d == todo[0] && env.PromoteEnv?
      requires At(s0, Promote(now, PList), run0, s1, WithIds(env, ids), Promote(now, PEnqueue(todo)))
      modifies store`jobs, producer
      ensures At(s0, Promote(now, PList), run, s, WithIds(env, ids), Promote(now, PEnqueue(todo[1..])))
      ensures store.jobs == if Promoted(env, d.id) then SetStatus(old(store.jobs), d.id, Pending, d.row.attempt, None)
                            else old(store.jobs)
      ensures if env.enqueues(d.id).Failure? then producer.log == old(producer.log)
              else MessagesSent(old(producer.log), producer.log, [d.id])
    {
      var ok := producer.Enqueue(d.id, d.row.typ, d.row.payload, d.row.queue, 2, 0, 0, d.row.priority, ByPromoter,
                                 env.enqueues(d.id));
      run, s := NextStatement(s0, Promote(now, PList), run0, s1, WithIds(env, ids));
      if ok {
        run, s := MarkPending(d, todo, env, ids, now, s0, run, s);
      }
    }

    method MarkPending(d: Due, ghost todo: seq<Due>, env: CallEnv, ghost ids: seq<nat>, now: int,
                       ghost s0: State, ghost run0: seq<Event>, ghost s1: State)
      returns (ghost run: seq<Event>, ghost s: State)
      requires todo != [] && d == todo[0] && env.PromoteEnv?
      requires At(s0, Promote(now, PList), run0, s1, WithIds(env, ids), Promote(now, PWrite(todo)))
      modifies store`jobs
      ensures At(s0, Promote(now, PList), run, s, WithIds(env, ids), Promote(now, PEnqueue(todo[1..])))
      ensures store.jobs == if Applied(env.writes(d.id)) then SetStatus(old(store.jobs), d.id, Pending, d.row.attempt, None)
                            else old(store.jobs)
    {
      var _ := store.UpdateStatus(d.id, Pending, d.row.attempt, None, env.writes(d.id));
      run, s := NextStatement(s0, Promote(now, PList), run0, s1, WithIds(env, ids));
    }
  }
}
