/** In fault-free runs every unfinished job has exactly one live message or execution, and a
    finished one has none. */
module Conservation {
  import opened Types
  import opened Tables
  import opened Protocol
  import opened Identity
  import opened Accounting
  import opened Tokens
  import opened FaultFree
  import opened EveryRun

  // ---- what one API call does to one job ----

  ghost predicate SameRuns(s: State, s': State) {
    s'.execs == s.execs && s'.taken == s.taken && s'.outbox == s.outbox && s'.outcomes == s.outcomes
  }

  predicate Longer(log: seq<Entry>, log': seq<Entry>) {
    |log'| == |log| + 1 && forall i :: 0 <= i < |log| ==> log'[i] == log[i]
  }

  /** A job appears: scheduled without a message, or pending with its first message. */
  ghost predicate Appears(s: State, s': State, id: nat, row: Job) {
    && SameRuns(s, s') && id !in s.jobs && id == |s.born| && s'.jobs == s.jobs[id := row]
    && (row.status.Scheduled? ==> s'.log == s.log)
    && (row.status.Pending? ==>
          && Longer(s.log, s'.log)
          && s'.log[|s.log|].req.job == id && s'.log[|s.log|].req.attempt == 0
          && MaxRetry(s'.log[|s.log|].req) < MAX_INT32)
    && (row.status.Scheduled? || row.status.Pending?)
  }

  ghost predicate GetsCancelled(s: State, s': State, j: nat) {
    && SameRuns(s, s') && s'.log == s.log && j in s.jobs
    && !s.jobs[j].status.Completed? && !s.jobs[j].status.Processing?
    && s'.jobs == SetStatus(s.jobs, j, Cancelled, 0, None)
  }

  /** A job nothing has been sent for: scheduled, or cancelled before it was ever promoted. */
  ghost predicate Dormant(s: State, j: nat) {
    && j in s.jobs && (s.jobs[j].status.Scheduled? || s.jobs[j].status.Cancelled?)
    && Outcomes(s, j) == []
    && forall i :: 0 <= i < |s.log| ==> s.log[i].req.job != j
  }

  lemma DormantIdle(s: State, j: nat)
    requires Dormant(s, j)
    ensures TokensOf(s, j) == {}
  {
  }

  ghost predicate GetsPromoted(s: State, s': State, j: nat, attempt: int) {
    && SameRuns(s, s') && Dormant(s, j)
    && s'.jobs == SetStatus(s.jobs, j, Pending, attempt, None)
    && Longer(s.log, s'.log)
    && s'.log[|s.log|].req.job == j && s'.log[|s.log|].req.attempt == 0
    && MaxRetry(s'.log[|s.log|].req) < MAX_INT32
  }

  ghost predicate Unchanged(s: State, s': State) {
    SameRuns(s, s') && s'.log == s.log && s'.jobs == s.jobs
  }

  // ---- each effect keeps every job in order ----

  /** Only job `j` and its messages changed. */
  ghost predicate Only(s: State, s': State, j: nat) {
    && SameRuns(s, s')
    && s'.jobs.Keys == s.jobs.Keys + {j} && (forall k :: k in s.jobs && k != j ==> s'.jobs[k] == s.jobs[k])
    && |s.log| <= |s'.log| && (forall i :: 0 <= i < |s.log| ==> s'.log[i] == s.log[i])
    && (forall i :: |s.log| <= i < |s'.log| ==> s'.log[i].req.job == j)
  }

  lemma OtherJob(s: State, s': State, j: nat, k: nat)
    requires Only(s, s', j) && k != j && k in s.jobs && JobOk(s, k)
    ensures k in s'.jobs && JobOk(s', k)
  {
    UntouchedOk(s, s', k);
  }

  lemma Others(s: State, s': State, j: nat)
    requires TokensOk(s) && Only(s, s', j) && LogOk(s') && j in s'.jobs && JobOk(s', j)
    ensures TokensOk(s')
  {
    forall k | k in s'.jobs && k != j ensures JobOk(s', k) { OtherJob(s, s', j, k); }
  }

  /** One new message for a job that had none and no execution. */
  lemma FirstMessage(s: State, s': State, j: nat)
    requires IdsOk(s) && SameRuns(s, s') && TokensOf(s, j) == {}
    requires Longer(s.log, s'.log) && s'.log[|s.log|].req.job == j
    ensures TokensOf(s', j) == {InLog(|s.log|)}
    ensures forall i: nat :: LiveMessage(s', i, j) ==> i == |s.log|
    ensures forall x: nat :: !LiveExec(s', x, j)
  {
    assert |s.log| !in s.taken;
    forall i: nat ensures LiveMessage(s', i, j) <==> i == |s.log| {
      assert LiveMessage(s, i, j) ==> InLog(i) in TokensOf(s, j);
    }
    forall x: nat ensures !LiveExec(s', x, j) {
      assert LiveExec(s, x, j) ==> Running(x) in TokensOf(s, j);
    }
    assert LiveMessage(s', |s.log|, j);
  }

  lemma NoTokens(s: State, j: nat)
    requires LogOk(s) && j !in s.jobs
    ensures TokensOf(s, j) == {}
  {
  }

  lemma AppearsJob(s: State, s': State, id: nat, row: Job)
    requires IdsOk(s) && LogOk(s) && HistoryOk(s) && Appears(s, s', id, row)
    ensures JobOk(s', id)
  {
    NoTokens(s, id);
    assert RowsOf(s'.outbox, id) == {};
    assert Failures(0) == [];
    if row.status.Pending? {
      FirstMessage(s, s', id);
    } else {
      assert TokensOf(s', id) == {};
      TokenOfJob(s', id);
    }
  }

  lemma AppearsLog(s: State, s': State, id: nat, row: Job)
    requires LogOk(s) && Appears(s, s', id, row)
    ensures LogOk(s')
  {
  }

  lemma AppearsOnly(s: State, s': State, id: nat, row: Job)
    requires Appears(s, s', id, row)
    ensures Only(s, s', id)
  {
  }

  lemma CancelledOnly(s: State, s': State, j: nat)
    requires GetsCancelled(s, s', j)
    ensures Only(s, s', j)
  {
  }

  lemma PromotedOnly(s: State, s': State, j: nat, attempt: int)
    requires GetsPromoted(s, s', j, attempt)
    ensures Only(s, s', j)
  {
  }

  lemma AppearsOk(s: State, s': State, id: nat, row: Job)
    requires IdsOk(s) && TokensOk(s) && HistoryOk(s) && Appears(s, s', id, row)
    ensures TokensOk(s')
  {
    AppearsJob(s, s', id, row);
    AppearsLog(s, s', id, row);
    AppearsOnly(s, s', id, row);
    Others(s, s', id);
  }

  lemma CancelledJob(s: State, s': State, j: nat)
    requires GetsCancelled(s, s', j) && JobOk(s, j)
    ensures JobOk(s', j)
  {
    CancelledTokens(s, s', j);
    CancelledSettled(s, s', j);
    CancelledFits(s, s', j);
  }

  lemma CancelledSettled(s: State, s': State, j: nat)
    requires GetsCancelled(s, s', j) && Settled(s, j)
    ensures Settled(s', j)
  {
  }

  /** A token of a job that may be cancelled stands where a cancelled row fits too. */
  lemma CancelledFits(s: State, s': State, j: nat)
    requires GetsCancelled(s, s', j) && JobOk(s, j)
    ensures forall i: nat :: LiveMessage(s', i, j) ==> TokenOk(s', j, GetQueue, s'.log[i].req)
    ensures forall x: nat :: LiveExec(s', x, j) ==> TokenOk(s', j, s'.execs[x].pc, s'.log[s'.execs[x].offset].req)
  {
    forall x: nat | LiveExec(s', x, j) ensures TokenOk(s', j, s'.execs[x].pc, s'.log[s'.execs[x].offset].req) {
      assert LiveExec(s, x, j) && TokenOk(s, j, s.execs[x].pc, s.log[s.execs[x].offset].req);
    }
    forall i: nat | LiveMessage(s', i, j) ensures TokenOk(s', j, GetQueue, s'.log[i].req) {
      assert LiveMessage(s, i, j) && TokenOk(s, j, GetQueue, s.log[i].req);
    }
  }

  lemma CancelledTokens(s: State, s': State, j: nat)
    requires GetsCancelled(s, s', j)
    ensures TokensOf(s', j) == TokensOf(s, j)
    ensures forall i: nat :: LiveMessage(s', i, j) <==> LiveMessage(s, i, j)
    ensures forall x: nat :: LiveExec(s', x, j) <==> LiveExec(s, x, j)
  {
  }

  lemma CancelledOk(s: State, s': State, j: nat)
    requires TokensOk(s) && GetsCancelled(s, s', j)
    ensures TokensOk(s')
  {
    assert JobOk(s, j);
    CancelledJob(s, s', j);
    CancelledOnly(s, s', j);
    CancelledLog(s, s', j);
    Others(s, s', j);
  }

  lemma CancelledLog(s: State, s': State, j: nat)
    requires LogOk(s) && GetsCancelled(s, s', j)
    ensures LogOk(s')
  {
  }

  lemma PromotedJob(s: State, s': State, j: nat, attempt: int)
    requires IdsOk(s) && GetsPromoted(s, s', j, attempt) && JobOk(s, j)
    ensures JobOk(s', j)
  {
    DormantIdle(s, j);
    FirstMessage(s, s', j);
    PromotedSettled(s, s', j, attempt);
  }

  lemma PromotedSettled(s: State, s': State, j: nat, attempt: int)
    requires GetsPromoted(s, s', j, attempt) && Settled(s, j)
    ensures Settled(s', j) && TokenOk(s', j, GetQueue, s'.log[|s.log|].req)
  {
    MoreFailures(0);
  }

  /** A dormant job has no message yet, so the promoter's max_retry is the only one. */
  lemma PromotedLog(s: State, s': State, j: nat, attempt: int)
    requires LogOk(s) && GetsPromoted(s, s', j, attempt)
    ensures LogOk(s')
  {
  }

  lemma PromotedOk(s: State, s': State, j: nat, attempt: int)
    requires IdsOk(s) && TokensOk(s) && GetsPromoted(s, s', j, attempt)
    ensures TokensOk(s')
  {
    PromotedJob(s, s', j, attempt);
    PromotedLog(s, s', j, attempt);
    PromotedOnly(s, s', j, attempt);
    Others(s, s', j);
  }

  lemma UnchangedJob(s: State, s': State, k: nat)
    requires Unchanged(s, s') && k in s.jobs && JobOk(s, k)
    ensures JobOk(s', k)
  {
    UntouchedOk(s, s', k);
  }

  lemma UnchangedOk(s: State, s': State)
    requires TokensOk(s) && Unchanged(s, s')
    ensures TokensOk(s')
  {
    forall k | k in s'.jobs ensures JobOk(s', k) { UnchangedJob(s, s', k); }
  }

  lemma DeliveredTokens(s: State, i: nat, w: nat, j: nat)
    requires IdsOk(s) && i < |s.log| && i !in s.taken && s.log[i].req.job == j && TokensOf(s, j) == {InLog(i)}
    ensures TokensOf(Apply(s, Deliver(i, w)), j) == {Running(s.nextExec)}
    ensures forall k: nat :: !LiveMessage(Apply(s, Deliver(i, w)), k, j)
    ensures forall x: nat :: LiveExec(Apply(s, Deliver(i, w)), x, j) ==> x == s.nextExec
  {
    var s' := Apply(s, Deliver(i, w));
    forall k: nat ensures !LiveMessage(s', k, j) { assert LiveMessage(s, k, j) ==> InLog(k) in TokensOf(s, j); }
    forall x: nat ensures LiveExec(s', x, j) <==> x == s.nextExec {
      assert LiveExec(s, x, j) ==> Running(x) in TokensOf(s, j);
    }
  }

  lemma DeliveredJob(s: State, i: nat, w: nat, j: nat)
    requires IdsOk(s) && i < |s.log| && i !in s.taken && s.log[i].req.job == j && j in s.jobs && JobOk(s, j)
    ensures JobOk(Apply(s, Deliver(i, w)), j)
  {
    assert LiveMessage(s, i, j) && InLog(i) in TokensOf(s, j);
    OnlyLogged(s, i, j);
    DeliveredTokens(s, i, w, j);
    DeliveredSettled(s, i, w, j);
  }

  lemma DeliveredSettled(s: State, i: nat, w: nat, j: nat)
    requires i < |s.log| && j in s.jobs && Settled(s, j)
    ensures Settled(Apply(s, Deliver(i, w)), j)
  {
  }

  lemma OnlyLogged(s: State, i: nat, j: nat)
    requires |TokensOf(s, j)| <= 1 && InLog(i) in TokensOf(s, j)
    ensures TokensOf(s, j) == {InLog(i)}
  {
    if t :| t in TokensOf(s, j) && t != InLog(i) {
      assert {t, InLog(i)} <= TokensOf(s, j);
      CardMonotone({t, InLog(i)}, TokensOf(s, j));
    }
  }

  lemma DeliveredOther(s: State, i: nat, w: nat, k: nat)
    requires IdsOk(s) && i < |s.log| && s.log[i].req.job != k && k in s.jobs && JobOk(s, k)
    ensures JobOk(Apply(s, Deliver(i, w)), k)
  {
    UntouchedOk(s, Apply(s, Deliver(i, w)), k);
  }

  lemma DeliveredOk(s: State, i: nat, w: nat)
    requires IdsOk(s) && TokensOk(s) && i < |s.log| && i !in s.taken
    ensures TokensOk(Apply(s, Deliver(i, w)))
  {
    forall k | k in s.jobs ensures JobOk(Apply(s, Deliver(i, w)), k) {
      if k == s.log[i].req.job { DeliveredJob(s, i, w, k); } else { DeliveredOther(s, i, w, k); }
    }
  }
}
