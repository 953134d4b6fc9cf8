/** What a promoter tick does to the table, and how many ticks a due job may have to wait. */
module PromotionProgress {
  import opened Types
  import opened Tables
  import opened Protocol
  import opened Calls
  import opened Promoter

  /** A fault-free tick promotes exactly min(50, n) of the n due jobs, none of them later than a
      due job left behind. */
  lemma TickPromotes(jobs: map<nat, Job>, now: int, ids: seq<nat>)
    requires Smallest(ids, DueJobs(jobs, now), PROMOTE_LIMIT)
    ensures |Ids(ids)| == Min(50, |DueJobs(jobs, now)|)
    ensures DueJobs(Pend(jobs, Ids(ids)), now) == DueJobs(jobs, now) - Ids(ids)
    ensures forall i, k :: i in ids && k in DueJobs(jobs, now) && k !in ids ==> jobs[i].runAt <= jobs[k].runAt
  {
    DistinctCount(ids);
  }

  /** The other jobs that must be served no later than `j`. */
  function Rivals(jobs: map<nat, Job>, j: nat): set<nat>
    requires j in jobs
  {
    set k | k in jobs && k != j && jobs[k].status.Scheduled? && 0 < jobs[k].runAt <= jobs[j].runAt
  }

  predicate DueAt(jobs: map<nat, Job>, j: nat, now: int) {
    j in jobs && jobs[j].status.Scheduled? && 0 < jobs[j].runAt <= now
  }

  /** A tick either takes a due job or takes fifty of its rivals. */
  lemma TakenOrFiftyRivalsFewer(jobs: map<nat, Job>, now: int, ids: seq<nat>, j: nat)
    requires Smallest(ids, DueJobs(jobs, now), PROMOTE_LIMIT) && DueAt(jobs, j, now) && j !in ids
    ensures |Rivals(Pend(jobs, Ids(ids)), j)| + 50 == |Rivals(jobs, j)|
  {
    var keys := DueJobs(jobs, now);
    DistinctCount(ids);
    assert j in keys;
    assert Ids(ids) + {j} <= keys.Keys;
    Bigger(Ids(ids), j, keys.Keys);
    assert |ids| == 50;
    forall i | i in Ids(ids)
      ensures i in Rivals(jobs, j)
    {
      var x :| 0 <= x < |ids| && ids[x] == i;
      assert keys[ids[x]] <= keys[j];
    }
    assert Rivals(Pend(jobs, Ids(ids)), j) == Rivals(jobs, j) - Ids(ids);
  }

  lemma Bigger(a: set<nat>, j: nat, b: set<nat>)
    requires a + {j} <= b && j !in a
    ensures |a| < |b|
  {
    assert |a + {j}| == |a| + 1;
    assert b == (a + {j}) + (b - (a + {j}));
  }

  /** A tick: the table it finds, the time, and the rows it lists. */
  datatype PromoterTick = PromoterTick(before: map<nat, Job>, now: int, ids: seq<nat>)

  function AfterTick(t: PromoterTick): map<nat, Job> {
    Pend(t.before, Ids(t.ids))
  }

  /** Fault-free ticks with `j` due before each of them; between ticks it is left alone, in particular
      not cancelled, and it gets no new rival. */
  ghost predicate Waiting(ticks: seq<PromoterTick>, j: nat) {
    && (forall i :: 0 <= i < |ticks| ==>
          DueAt(ticks[i].before, j, ticks[i].now)
          && Smallest(ticks[i].ids, DueJobs(ticks[i].before, ticks[i].now), PROMOTE_LIMIT))
    && (forall i :: 0 <= i < |ticks| - 1 ==> LeftAlone(ticks[i], ticks[i + 1].before, j))
  }

  predicate LeftAlone(t: PromoterTick, next: map<nat, Job>, j: nat) {
    j in AfterTick(t) && j in next && next[j] == AfterTick(t)[j] && Rivals(next, j) <= Rivals(AfterTick(t), j)
  }

  lemma FewerEachTick(t: PromoterTick, next: map<nat, Job>, j: nat)
    requires Smallest(t.ids, DueJobs(t.before, t.now), PROMOTE_LIMIT) && DueAt(t.before, j, t.now)
    requires LeftAlone(t, next, j) && next[j].status.Scheduled?
    ensures |Rivals(next, j)| + 50 <= |Rivals(t.before, j)|
  {
    TakenOrFiftyRivalsFewer(t.before, t.now, t.ids, j);
    CardMonotone(Rivals(next, j), Rivals(AfterTick(t), j));
  }

  lemma {:induction false} RivalsRunOut(ticks: seq<PromoterTick>, j: nat)
    requires ticks != [] && Waiting(ticks, j)
    ensures |Rivals(ticks[|ticks| - 1].before, j)| + 50 * (|ticks| - 1) <= |Rivals(ticks[0].before, j)|
    decreases |ticks|
  {
    if |ticks| > 1 {
      FewerEachTick(ticks[0], ticks[1].before, j);
      var rest := ticks[1..];
      forall i | 0 <= i < |rest| - 1
        ensures LeftAlone(rest[i], rest[i + 1].before, j)
      {
        assert rest[i] == ticks[i + 1] && rest[i + 1] == ticks[i + 2];
        assert LeftAlone(ticks[i + 1], ticks[i + 2].before, j);
      }
      RivalsRunOut(rest, j);
    }
  }

  /** A due job with r rivals waits for at most floor(r / 50) + 1 ticks: it is due before no more
      than that many, and the last of them promotes it. */
  lemma PromotedInTime(ticks: seq<PromoterTick>, j: nat)
    requires ticks != [] && Waiting(ticks, j)
    ensures |ticks| <= |Rivals(ticks[0].before, j)| / 50 + 1
    ensures |ticks| == |Rivals(ticks[0].before, j)| / 50 + 1 ==> AfterTick(ticks[|ticks| - 1])[j].status.Pending?
  {
    RivalsRunOut(ticks, j);
    var t := ticks[|ticks| - 1];
    if j !in t.ids {
      TakenOrFiftyRivalsFewer(t.before, t.now, t.ids, j);
    }
  }
}
