/** The main results about every run of the protocol, whatever fails, is redelivered or crashes. */
module EveryRun {
  import opened Types
  import opened Tables
  import opened Protocol
  import opened Identity
  import opened Accounting
  import opened OutboxSafety
  import opened NeverEarly
  import opened Submission
  import opened Semaphore
  import opened Cancellation

  /** Histories only mention allocated ids. */
  ghost predicate HistoryOk(s: State) {
    && (forall j :: j in s.outcomes ==> j < |s.born|)
    && (forall i :: 0 <= i < |s.outbox| ==> s.outbox[i].job < |s.born|)
  }

  lemma HistoryStep(s: State, e: Event)
    requires IdsOk(s) && HistoryOk(s) && Enabled(s, e)
    ensures HistoryOk(Apply(s, e))
  {
    match e {
      case Work(x, _, _) => assert ReqMatches(ReqOf(s, x), s.born);
      case _ =>
    }
  }

  ghost predicate Safe(s: State) {
    && IdsOk(s) && HistoryOk(s) && AccountsOk(s) && OutboxOk(s) && SubmissionOk(s) && SemOk(s)
    && OnTime(s.log, s.born, s.clock)
  }

  lemma SafeInit(limit: int, clock: int)
    ensures Safe(Init(limit, clock))
  {
    var s := Init(limit, clock);
    forall w: nat, typ: string ensures Holders(s, w, typ) == {} {}
  }

  lemma SafeStep(s: State, e: Event)
    requires Safe(s) && Enabled(s, e)
    ensures Safe(Apply(s, e))
  {
    IdsStep(s, e);
    HistoryStep(s, e);
    AccountsStep(s, e);
    OutboxStep(s, e);
    SubmissionStep(s, e);
    SemStep(s, e);
    OnTimeStep(s, e);
  }

  lemma {:induction false} SafeAlways(s: State, run: seq<Event>)
    requires Safe(s) && Legal(s, run)
    ensures Safe(After(s, run))
    decreases |run|
  {
    if run != [] {
      SafeStep(s, run[0]);
      SafeAlways(Apply(s, run[0]), run[1..]);
    }
  }

  lemma SafeReachable(s: State)
    requires Reachable(s)
    ensures Safe(s)
  {
    var limit: int, clock: int, run: seq<Event> :| Legal(Init(limit, clock), run) && After(Init(limit, clock), run) == s;
    SafeInit(limit, clock);
    SafeAlways(Init(limit, clock), run);
  }

  // ---- what it means ----

  /** Every queued attempt lies within the budget of its message, unless that budget is the one
      value that wraps; every stored attempt is at most one past the budget of some message of
      the job. */
  lemma AttemptsBounded(s: State)
    requires Reachable(s)
    ensures forall i :: 0 <= i < |s.log| && MaxRetry(s.log[i].req) < MAX_INT32 ==>
              0 <= s.log[i].req.attempt <= Max(MaxRetry(s.log[i].req), 0)
    ensures forall j :: j in s.jobs && s.jobs[j].attempt != 0 ==>
              exists i :: 0 <= i < |s.log| && s.log[i].req.job == j
                          && (MaxRetry(s.log[i].req) < MAX_INT32 ==>
                                0 <= s.jobs[j].attempt <= Max(MaxRetry(s.log[i].req), 0) + 1)
  {
    SafeReachable(s);
    assert forall i :: 0 <= i < |s.log| ==> AttemptOk(s.log[i].req);
    forall j | j in s.jobs && s.jobs[j].attempt != 0
      ensures exists i :: 0 <= i < |s.log| && s.log[i].req.job == j
                          && (MaxRetry(s.log[i].req) < MAX_INT32 ==>
                                0 <= s.jobs[j].attempt <= Max(MaxRetry(s.log[i].req), 0) + 1)
    {
      assert Bounded(s.log, j, s.jobs[j].attempt);
    }
  }

  /** A completed email has its outbox row, every row carries a valid email and comes from an
      execution of its own, and a row marked sent had a delivery that returned no error. */
  lemma CompletedEmailsAreInOutbox(s: State)
    requires Reachable(s)
    ensures forall j :: j in s.jobs && s.jobs[j].typ == EMAIL && s.jobs[j].status.Completed? ==>
              exists i :: 0 <= i < |s.outbox| && s.outbox[i].job == j
    ensures forall i :: 0 <= i < |s.outbox| ==>
              ValidEmailPayload(s.outbox[i].payload)
              && (s.outbox[i].status.Sent? ==> true in s.outbox[i].tries)
              && (!s.outbox[i].status.Unsent? ==> s.outbox[i].tries != [])
    ensures forall i, k :: 0 <= i < k < |s.outbox| ==> s.outbox[i].writer != s.outbox[k].writer
  {
    SafeReachable(s);
    assert forall i :: 0 <= i < |s.outbox| ==> RowOk(s.outbox[i], s.nextExec);
    forall j | j in s.jobs && s.jobs[j].typ == EMAIL && s.jobs[j].status.Completed?
      ensures exists i :: 0 <= i < |s.outbox| && s.outbox[i].job == j
    {
      assert HasRow(s.outbox, j);
    }
  }

  /** No message, and so no execution, exists for a job before its run_at. */
  lemma NeverBeforeRunAt(s: State, i: nat)
    requires Reachable(s) && i < |s.log| && s.log[i].req.job in s.jobs && s.jobs[s.log[i].req.job].runAt > 0
    ensures s.jobs[s.log[i].req.job].runAt <= s.clock
  {
    SafeReachable(s);
    assert RowMatches(s.jobs[s.log[i].req.job], s.born[s.log[i].req.job]);
  }

  lemma NeverRunsBeforeRunAt(s: State, x: nat)
    requires Reachable(s) && x in s.execs
    ensures s.execs[x].offset < |s.log|
    ensures ReqOf(s, x).job in s.jobs && s.jobs[ReqOf(s, x).job].runAt > 0 ==> s.jobs[ReqOf(s, x).job].runAt <= s.clock
  {
    SafeReachable(s);
    if ReqOf(s, x).job in s.jobs && s.jobs[ReqOf(s, x).job].runAt > 0 { NeverBeforeRunAt(s, s.execs[x].offset); }
  }

  /** Whoever sent it, a submit, a replay, a promoter, a cron loop or a retry: a message carries the type,
      payload, queue and priority its id was allocated with, and so those of the job's row. */
  lemma MessagesCarryTheirJob(s: State, i: nat)
    requires Reachable(s) && i < |s.log|
    ensures var m := s.log[i].req;
            && m.job < |s.born|
            && m.typ == s.born[m.job].typ && m.payload == s.born[m.job].payload
            && m.queue == s.born[m.job].queue && PriorityOf(m) == s.born[m.job].priority
            && (m.job in s.jobs ==>
                  && m.typ == s.jobs[m.job].typ && m.payload == s.jobs[m.job].payload
                  && m.queue == s.jobs[m.job].queue && PriorityOf(m) == s.jobs[m.job].priority)
  {
    SafeReachable(s);
    assert ReqMatches(s.log[i].req, s.born);
    assert s.log[i].req.job in s.jobs ==> RowMatches(s.jobs[s.log[i].req.job], s.born[s.log[i].req.job]);
  }

  /** At most one row per (type, queue, non-empty key); every successful submit of it returns the
      same id; and submits send at most one message for it. */
  lemma IdempotentSubmit(s: State)
    requires Reachable(s)
    ensures forall j, k :: j in s.jobs && k in s.jobs && s.jobs[j].key != "" && SameKey(s.jobs[j], s.jobs[k]) ==> j == k
    ensures forall c: nat, d: nat, i: nat, k: nat ::
              Answered(s, c, i) && Answered(s, d, k) && SameKeyed(s.calls[c].req, s.calls[d].req) ==> i == k
    ensures forall i: nat, k: nat :: SubmitSent(s, i) && SubmitSent(s, k) && SameRows(s, i, k) ==> i == k
  {
    SafeReachable(s);
    forall c: nat, d: nat, i: nat, k: nat |
      Answered(s, c, i) && Answered(s, d, k) && SameKeyed(s.calls[c].req, s.calls[d].req)
      ensures i == k
    {
      SameAnswer(s, c, d, i, k);
    }
    forall i: nat, k: nat | SubmitSent(s, i) && SubmitSent(s, k) && SameRows(s, i, k) ensures i == k {
      SubmittedAtMostOnce(s, i, k);
    }
  }

  /** The channel of a type is as long as the number of executions holding it, within the limit,
      and never empty when one of them releases it. */
  lemma SemaphoreCounts(s: State, w: nat, typ: string)
    requires Reachable(s) && s.limit > 0
    ensures Held(s, w, typ) == |Holders(s, w, typ)| <= s.limit
    ensures forall x :: x in s.execs && s.execs[x].pc == Return(true) && s.execs[x].offset < |s.log| ==>
              Held(s, s.execs[x].worker, ReqOf(s, x).typ) >= 1
  {
    SafeReachable(s);
    forall x | x in s.execs && s.execs[x].pc == Return(true) && s.execs[x].offset < |s.log|
      ensures Held(s, s.execs[x].worker, ReqOf(s, x).typ) >= 1
    {
      ReleaseNeverBlocks(s, x);
    }
  }

  // ---- what no continuation undoes ----

  /** Once a job is cancelled, no worker is past the check for it and no promoter holds it, whatever
      happens keeps it cancelled, and its handler is never run again. */
  lemma CancelledForGood(s: State, run: seq<Event>, j: nat)
    requires Reachable(s) && Closed(s, j) && Legal(s, run)
    ensures IsCancelled(After(s, run), j) && Outcomes(After(s, run), j) == Outcomes(s, j)
  {
    SafeReachable(s);
    ClosedForever(s, run, j);
  }

  /** Whatever happens to an outbox row keeps its contents and its attempts, never makes it unsent
      again, and has marked it only after an attempt, as sent only after one without error. */
  lemma OutboxRowsOnlyMoveOn(s: State, run: seq<Event>, i: nat)
    requires Reachable(s) && Legal(s, run) && i < |s.outbox|
    ensures i < |After(s, run).outbox|
    ensures var r := s.outbox[i]; var r' := After(s, run).outbox[i];
            && r'.job == r.job && r'.payload == r.payload && r.tries <= r'.tries
            && (!r.status.Unsent? ==> !r'.status.Unsent?)
            && (!r'.status.Unsent? ==> r'.tries != [])
            && (r'.status.Sent? ==> true in r'.tries)
  {
    SafeReachable(s);
    RowHistory(s, run, i);
    SafeAlways(s, run);
    assert RowOk(After(s, run).outbox[i], After(s, run).nextExec);
  }

  ghost predicate RowLater(r: OutboxRow, r': OutboxRow) {
    r'.job == r.job && r'.payload == r.payload && r.tries <= r'.tries && (!r.status.Unsent? ==> !r'.status.Unsent?)
  }

  lemma {:induction false} RowHistory(s: State, run: seq<Event>, i: nat)
    requires Safe(s) && Legal(s, run) && i < |s.outbox|
    ensures i < |After(s, run).outbox| && RowLater(s.outbox[i], After(s, run).outbox[i])
    decreases |run|
  {
    if run != [] {
      NeverUnsentAgain(s, run[0], i);
      SafeStep(s, run[0]);
      RowHistory(Apply(s, run[0]), run[1..], i);
    }
  }
}
