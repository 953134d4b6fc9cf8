/** The waiting time of a due job, on runs of the protocol: promoter ticks as calls that go through
    with nothing in between, and any legal events from one tick to the next. */
module PromotionRuns {
  import opened Types
  import opened Tables
  import opened Protocol
  import opened Calls
  import opened Promoter
  import opened PromotionProgress

  /** An enqueue and a write for each of `n` rows. */
  function Steps(c: nat, n: nat): seq<Event> {
    if n == 0 then [] else [Step(c, Ok, Nothing)] + ([Step(c, Ok, Nothing)] + Steps(c, n - 1))
  }

  /** A tick by call `c` that lists `ids` and promotes them all. */
  function TickEvents(c: nat, now: int, ids: seq<nat>): seq<Event> {
    [Begin(Promote(now, PList))] + ([Step(c, Ok, Rows(ids))] + Steps(c, |ids|))
  }

  function AllOk(ids: seq<nat>): (env: CallEnv)
    ensures env.PromoteEnv?
  {
    PromoteEnv(Ok, ids, i => Ok, i => Ok)
  }

  /** Rows up to the `n`-th have been promoted. */
  ghost predicate Along(s: State, c: nat, now: int, jobs: map<nat, Job>, due: seq<Due>, ids: seq<nat>, n: nat) {
    && n <= |due| && c < |s.calls| && s.calls[c] == Promote(now, PEnqueue(due[n..]))
    && s.jobs == PromoteRows(jobs, due[..n], AllOk(ids))
  }

  /** One row: its message, then its status. */
  lemma OneRow(s: State, c: nat, now: int, jobs: map<nat, Job>, due: seq<Due>, ids: seq<nat>, n: nat)
    requires Along(s, c, now, jobs, due, ids, n) && n < |due|
    ensures Enabled(s, Step(c, Ok, Nothing))
    ensures Enabled(Apply(s, Step(c, Ok, Nothing)), Step(c, Ok, Nothing))
    ensures Along(Apply(Apply(s, Step(c, Ok, Nothing)), Step(c, Ok, Nothing)), c, now, jobs, due, ids, n + 1)
  {
    var s1 := Apply(s, Step(c, Ok, Nothing));
    assert s1.calls[c] == Promote(now, PWrite(due[n..])) && s1.jobs == s.jobs;
    assert due[n..][0] == due[n] && due[n..][1..] == due[n + 1..] && due[..n + 1][..n] == due[..n];
  }

  lemma Prepended(s: State, e: Event, rest: seq<Event>)
    requires Enabled(s, e) && Legal(Apply(s, e), rest)
    ensures Legal(s, [e] + rest) && After(s, [e] + rest) == After(Apply(s, e), rest)
  {
    assert ([e] + rest)[1..] == rest;
  }

  lemma {:induction false} AllRows(s: State, c: nat, now: int, jobs: map<nat, Job>, due: seq<Due>, ids: seq<nat>, n: nat)
    requires Along(s, c, now, jobs, due, ids, n)
    ensures Legal(s, Steps(c, |due| - n))
    ensures After(s, Steps(c, |due| - n)).jobs == PromoteRows(jobs, due, AllOk(ids))
    decreases |due| - n
  {
    if n == |due| {
      assert due[..n] == due;
    } else {
      var e := Step(c, Ok, Nothing);
      var rest := Steps(c, |due| - n - 1);
      OneRow(s, c, now, jobs, due, ids, n);
      AllRows(Apply(Apply(s, e), e), c, now, jobs, due, ids, n + 1);
      Prepended(Apply(s, e), e, rest);
      Prepended(s, e, [e] + rest);
    }
  }

  lemma Listing(s: State, ids: seq<nat>) returns (s2: State)
    requires Smallest(ids, DueJobs(s.jobs, s.clock), PROMOTE_LIMIT)
    ensures DueIds(s.jobs, ids)
    ensures var c := |s.calls|; var s1 := Apply(s, Begin(Promote(s.clock, PList)));
            && Enabled(s1, Step(c, Ok, Rows(ids))) && s2 == Apply(s1, Step(c, Ok, Rows(ids)))
            && Along(s2, c, s.clock, s.jobs, Snapshot(s.jobs, ids), ids, 0)
  {
    assert DueIds(s.jobs, ids) by {
      forall i | 0 <= i < |ids|
        ensures ids[i] in s.jobs
      {
        assert ids[i] in DueJobs(s.jobs, s.clock);
      }
    }
    var due := Snapshot(s.jobs, ids);
    assert due[..0] == [] && due[0..] == due;
    s2 := Apply(Apply(s, Begin(Promote(s.clock, PList))), Step(|s.calls|, Ok, Rows(ids)));
  }

  /** A tick that goes through is a legal run from any state, and makes pending exactly what it lists. */
  lemma TickRuns(s: State, ids: seq<nat>)
    requires Smallest(ids, DueJobs(s.jobs, s.clock), PROMOTE_LIMIT)
    ensures Legal(s, TickEvents(|s.calls|, s.clock, ids))
    ensures After(s, TickEvents(|s.calls|, s.clock, ids)).jobs == Pend(s.jobs, Ids(ids))
  {
    var s2 := Listing(s, ids);
    RowsPend(s2, |s.calls|, s.clock, s.jobs, ids);
    TwoThenRest(s, Begin(Promote(s.clock, PList)), Step(|s.calls|, Ok, Rows(ids)), Steps(|s.calls|, |ids|));
  }

  lemma TwoThenRest(s: State, e1: Event, e2: Event, rest: seq<Event>)
    requires Enabled(s, e1) && Enabled(Apply(s, e1), e2) && Legal(Apply(Apply(s, e1), e2), rest)
    ensures Legal(s, [e1] + ([e2] + rest)) && After(s, [e1] + ([e2] + rest)) == After(Apply(Apply(s, e1), e2), rest)
  {
    Prepended(Apply(s, e1), e2, rest);
    Prepended(s, e1, [e2] + rest);
  }

  lemma RowsPend(s: State, c: nat, now: int, jobs: map<nat, Job>, ids: seq<nat>)
    requires DueIds(jobs, ids) && Distinct(ids) && Along(s, c, now, jobs, Snapshot(jobs, ids), ids, 0)
    ensures Legal(s, Steps(c, |ids|)) && After(s, Steps(c, |ids|)).jobs == Pend(jobs, Ids(ids))
  {
    RowsInTurn(s, c, now, jobs, Snapshot(jobs, ids), ids);
    SmoothPends(jobs, ids);
  }

  lemma RowsInTurn(s: State, c: nat, now: int, jobs: map<nat, Job>, due: seq<Due>, ids: seq<nat>)
    requires Along(s, c, now, jobs, due, ids, 0) && |due| == |ids|
    ensures Legal(s, Steps(c, |ids|)) && After(s, Steps(c, |ids|)).jobs == PromoteRows(jobs, due, AllOk(ids))
  {
    AllRows(s, c, now, jobs, due, ids, 0);
  }

  lemma SmoothPends(jobs: map<nat, Job>, ids: seq<nat>)
    requires DueIds(jobs, ids) && Distinct(ids)
    ensures PromoteRows(jobs, Snapshot(jobs, ids), AllOk(ids)) == Pend(jobs, Ids(ids))
  {
    TickPends(jobs, ids, AllOk(ids));
    assert PromotedIds(ids, AllOk(ids)) == Ids(ids);
  }

  /** `states[i]` is where the i-th tick begins; it lists `lists[i]` and goes through, and the events
      `between[i]` lead to the next. */
  ghost predicate TickedRun(states: seq<State>, lists: seq<seq<nat>>, between: seq<seq<Event>>) {
    && |lists| == |states| && |between| == |states|
    && (forall i :: 0 <= i < |states| ==> Smallest(lists[i], DueJobs(states[i].jobs, states[i].clock), PROMOTE_LIMIT))
    && (forall i, k :: 0 <= i && k == i + 1 < |states| ==> Leads(states[i], lists[i], between[i], states[k]))
  }

  ghost predicate Leads(s: State, ids: seq<nat>, run: seq<Event>, s': State) {
    && Legal(s, TickEvents(|s.calls|, s.clock, ids))
    && Legal(After(s, TickEvents(|s.calls|, s.clock, ids)), run)
    && After(After(s, TickEvents(|s.calls|, s.clock, ids)), run) == s'
  }

  /** Before each tick `j` is due; after a tick, until the next, it is left as the tick left it and
      gets no new rival. */
  ghost predicate KeptWaiting(states: seq<State>, lists: seq<seq<nat>>, j: nat)
    requires |lists| == |states|
  {
    && (forall i :: 0 <= i < |states| ==> DueAt(states[i].jobs, j, states[i].clock))
    && (forall i, k :: 0 <= i && k == i + 1 < |states| ==> Unharmed(states[i], lists[i], states[k], j))
  }

  ghost predicate Unharmed(s: State, ids: seq<nat>, s': State, j: nat) {
    Legal(s, TickEvents(|s.calls|, s.clock, ids)) && j in s'.jobs &&
    var jobs := After(s, TickEvents(|s.calls|, s.clock, ids)).jobs;
    j in jobs && s'.jobs[j] == jobs[j] && Rivals(s'.jobs, j) <= Rivals(jobs, j)
  }

  /** In such a run of the protocol a due job with r rivals sees at most floor(r / 50) + 1 ticks, and the
      last of that many promotes it. */
  lemma PromotedInTimeOnRuns(states: seq<State>, lists: seq<seq<nat>>, between: seq<seq<Event>>, j: nat)
    requires states != [] && TickedRun(states, lists, between) && KeptWaiting(states, lists, j)
    ensures |states| <= |Rivals(states[0].jobs, j)| / 50 + 1
    ensures |states| == |Rivals(states[0].jobs, j)| / 50 + 1 ==>
              var s := states[|states| - 1]; var tick := TickEvents(|s.calls|, s.clock, lists[|states| - 1]);
              && Legal(s, tick)
              && j in After(s, tick).jobs && After(s, tick).jobs[j].status.Pending?
  {
    var ticks := seq(|states|, i requires 0 <= i < |states| => PromoterTick(states[i].jobs, states[i].clock, lists[i]));
    forall i | 0 <= i < |ticks| - 1
      ensures LeftAlone(ticks[i], ticks[i + 1].before, j)
    {
      TickRuns(states[i], lists[i]);
      assert Unharmed(states[i], lists[i], states[i + 1], j);
    }
    PromotedInTime(ticks, j);
    TickRuns(states[|states| - 1], lists[|states| - 1]);
  }
}
