/** The token of a job: the one message or execution that is entitled to move it, and what it
    knows about the job. The invariant of fault-free runs, and the worker's steps that keep it. */
module Tokens {
  import opened Types
  import opened Tables
  import opened Protocol
  import opened Identity
  import opened Accounting

  datatype Token = InLog(offset: nat) | Running(exec: nat)

  /** An execution of job `j` that has a store or Kafka call left to make. */
  ghost predicate LiveExec(s: State, x: nat, j: nat) {
    x in s.execs && s.execs[x].offset < |s.log| && s.log[s.execs[x].offset].req.job == j && !s.execs[x].pc.Return?
  }

  /** A message of job `j` that no worker has taken. */
  ghost predicate LiveMessage(s: State, i: nat, j: nat) {
    i < |s.log| && i !in s.taken && s.log[i].req.job == j
  }

  ghost function TokensOf(s: State, j: nat): set<Token> {
    (set i: nat | i < |s.log| && LiveMessage(s, i, j) :: InLog(i)) + (set x | x in s.execs && LiveExec(s, x, j) :: Running(x))
  }

  lemma TokenOfJob(s: State, j: nat)
    ensures forall i: nat :: LiveMessage(s, i, j) ==> InLog(i) in TokensOf(s, j)
    ensures forall x: nat :: LiveExec(s, x, j) ==> Running(x) in TokensOf(s, j)
  {
  }

  // ---- what the token knows ----

  /** `n` failed attempts. */
  function Failures(n: nat): seq<bool> {
    seq(n, i => false)
  }

  /** The statuses a job can have while its token stands at a program counter. */
  predicate Fits(pc: Pc, status: Status) {
    match pc
    case Handle => status.Processing?
    case MarkUnknown => status.Processing?
    case MarkFailed => status.Processing?
    case Complete => status.Processing?
    case CompleteEmail => status.Processing?
    case Reenqueue => status.Failed? || status.Cancelled?
    case Archive => status.Failed? || status.Cancelled?
    case _ => status.Pending? || status.Failed? || status.Cancelled?
  }

  /** The outcomes so far, as the token at `pc` carrying attempt `n` accounts for them. */
  function Expected(pc: Pc, n: nat): seq<bool> {
    if pc.Complete? || pc.CompleteEmail? then Failures(n) + [true]
    else if pc.MarkFailed? || pc.Reenqueue? || pc.Archive? then Failures(n + 1)
    else Failures(n)
  }

  /** The attempt a row shows while its token stands at `pc` with attempt `n`: that one, or the next once
      its failure has been stored. */
  predicate ShowsAttempt(pc: Pc, n: int, row: Job) {
    && (row.status.Processing? ==> row.attempt == n)
    && (row.status.Failed? ==> row.attempt == if pc.Reenqueue? || pc.Archive? then n + 1 else n)
  }

  ghost predicate TokenOk(s: State, j: nat, pc: Pc, req: JobRequest)
    requires j in s.jobs
  {
    && 0 <= req.attempt <= Budget(req)
    && Fits(pc, s.jobs[j].status)
    && ShowsAttempt(pc, req.attempt, s.jobs[j])
    && Outcomes(s, j) == Expected(pc, req.attempt)
  }

  /** Whether a job in this status still has work to be done for it. */
  predicate Unfinished(row: Job) {
    row.status.Pending? || row.status.Processing? || (row.status.Failed? && Registered(row.typ))
  }

  ghost function RowsOf(outbox: seq<OutboxRow>, j: nat): set<nat> {
    set i: nat | i < |outbox| && outbox[i].job == j
  }

  /** The accounts of a job that has come to its end. */
  ghost predicate Settled(s: State, j: nat)
    requires j in s.jobs
  {
    var row := s.jobs[j];
    && (row.status.Completed? ==>
          && row.attempt >= 0 && Outcomes(s, j) == Failures(row.attempt) + [true] && row.completedAt.Some?
          && forall i :: 0 <= i < |s.log| && s.log[i].req.job == j ==> row.attempt <= Budget(s.log[i].req))
    && (row.status.Archived? ==>
          && row.attempt >= 0 && Outcomes(s, j) == Failures(row.attempt)
          && forall i :: 0 <= i < |s.log| && s.log[i].req.job == j ==> row.attempt == Budget(s.log[i].req) + 1)
    && (row.status.Completed? || row.status.Archived? ==> exists i :: 0 <= i < |s.log| && s.log[i].req.job == j)
    && (row.status.Scheduled? ==>
          Outcomes(s, j) == [] && forall i :: 0 <= i < |s.log| ==> s.log[i].req.job != j)
    && |RowsOf(s.outbox, j)| == if row.status.Completed? && row.typ == EMAIL then 1 else 0
  }

  ghost predicate JobOk(s: State, j: nat)
    requires j in s.jobs
  {
    && |TokensOf(s, j)| <= 1
    && (Unfinished(s.jobs[j]) ==> |TokensOf(s, j)| == 1)
    && (!Unfinished(s.jobs[j]) && !s.jobs[j].status.Cancelled? ==> TokensOf(s, j) == {})
    // a queued message is as good as an execution about to start
    && (forall i: nat :: LiveMessage(s, i, j) ==> TokenOk(s, j, GetQueue, s.log[i].req))
    && (forall x: nat :: LiveExec(s, x, j) ==> TokenOk(s, j, s.execs[x].pc, s.log[s.execs[x].offset].req))
    && Settled(s, j)
  }

  /** Every message belongs to a row, no max_retry wraps, and all messages of a job agree on it. */
  ghost predicate LogOk(s: State) {
    && (forall i :: 0 <= i < |s.log| ==> s.log[i].req.job in s.jobs && MaxRetry(s.log[i].req) < MAX_INT32)
    && (forall i, k :: 0 <= i < |s.log| && 0 <= k < |s.log| && s.log[i].req.job == s.log[k].req.job ==>
          Budget(s.log[i].req) == Budget(s.log[k].req))
  }

  ghost predicate TokensOk(s: State) {
    LogOk(s) && forall j {:trigger JobOk(s, j)} :: j in s.jobs ==> JobOk(s, j)
  }

  // ---- jobs an event does not concern ----

  ghost predicate Untouched(s: State, s': State, j: nat) {
    && j in s.jobs && j in s'.jobs && s'.jobs[j] == s.jobs[j]
    && Outcomes(s', j) == Outcomes(s, j)
    && |s.log| <= |s'.log| && (forall i :: 0 <= i < |s.log| ==> s'.log[i] == s.log[i])
    && (forall i :: |s.log| <= i < |s'.log| ==> s'.log[i].req.job != j)
    && (forall i: nat :: i < |s.log| && s.log[i].req.job == j ==> (i in s.taken <==> i in s'.taken))
    && (forall x: nat :: LiveExec(s, x, j) <==> LiveExec(s', x, j))
    && (forall x: nat :: LiveExec(s, x, j) ==> s'.execs[x] == s.execs[x])
    && RowsOf(s'.outbox, j) == RowsOf(s.outbox, j)
  }

  lemma UntouchedTokens(s: State, s': State, j: nat)
    requires Untouched(s, s', j)
    ensures TokensOf(s', j) == TokensOf(s, j)
    ensures forall i: nat :: LiveMessage(s', i, j) <==> LiveMessage(s, i, j)
  {
  }

  lemma UntouchedOk(s: State, s': State, j: nat)
    requires Untouched(s, s', j) && JobOk(s, j)
    ensures JobOk(s', j)
  {
    UntouchedTokens(s, s', j);
    UntouchedSettled(s, s', j);
  }

  lemma UntouchedSettled(s: State, s': State, j: nat)
    requires Untouched(s, s', j) && Settled(s, j)
    ensures Settled(s', j)
  {
    if exists i :: 0 <= i < |s.log| && s.log[i].req.job == j {
      var i :| 0 <= i < |s.log| && s.log[i].req.job == j;
      assert s'.log[i].req.job == j;
    }
  }

  // ---- a worker's step ----

  lemma OnlyToken(s: State, x: nat, j: nat)
    requires j in s.jobs && |TokensOf(s, j)| <= 1 && LiveExec(s, x, j)
    ensures TokensOf(s, j) == {Running(x)}
  {
    assert Running(x) in TokensOf(s, j);
    if t :| t in TokensOf(s, j) && t != Running(x) {
      assert {t, Running(x)} <= TokensOf(s, j);
      CardMonotone({t, Running(x)}, TokensOf(s, j));
    }
  }

  lemma WorkRows(s: State, x: nat, success: bool, j: nat)
    requires WorkEnabled(s, x, success)
    ensures RowsOf(AfterWork(s, x, Ok, success).outbox, j) ==
              RowsOf(s.outbox, j) + if s.execs[x].pc.CompleteEmail? && ReqOf(s, x).job == j then {|s.outbox|} else {}
  {
  }

  lemma WorkUntouched(s: State, x: nat, success: bool, j: nat)
    requires WorkEnabled(s, x, success) && j in s.jobs
    requires ReqOf(s, x).job != j || s.execs[x].pc.Return?
    ensures Untouched(s, AfterWork(s, x, Ok, success), j)
  {
    WorkRows(s, x, success, j);
  }

  /** The token after its own step: it moves on, turns into the retry message, or is spent. */
  lemma TokenMoves(s: State, x: nat, success: bool)
    requires IdsOk(s) && WorkEnabled(s, x, success) && !s.execs[x].pc.Return?
    requires TokensOf(s, ReqOf(s, x).job) == {Running(x)}
    ensures var j := ReqOf(s, x).job;
            var next := WorkNext(s, ReqOf(s, x), s.execs[x].pc, Ok, success);
            TokensOf(AfterWork(s, x, Ok, success), j) ==
              if s.execs[x].pc.Reenqueue? then {InLog(|s.log|)} else if next.Return? then {} else {Running(x)}
  {
    var j := ReqOf(s, x).job;
    var s' := AfterWork(s, x, Ok, success);
    var next := WorkNext(s, ReqOf(s, x), s.execs[x].pc, Ok, success);
    assert |s.log| !in s.taken;
    forall i: nat ensures LiveMessage(s', i, j) <==> s.execs[x].pc.Reenqueue? && i == |s.log| {
      assert LiveMessage(s, i, j) ==> InLog(i) in TokensOf(s, j);
    }
    forall y: nat ensures LiveExec(s', y, j) <==> y == x && !next.Return? {
      assert LiveExec(s, y, j) ==> Running(y) in TokensOf(s, j);
    }
    if s.execs[x].pc.Reenqueue? { assert LiveMessage(s', |s.log|, j); }
    else if !next.Return? { assert LiveExec(s', x, j); }
  }

  lemma MoreFailures(n: nat)
    ensures Failures(n) + [false] == Failures(n + 1)
    ensures Failures(0) == []
  {
  }

  /** A worker that finds its queue running, with every call going through. */
  ghost predicate Smooth(s: State, x: nat, success: bool) {
    WorkEnabled(s, x, success) && (s.execs[x].pc.GetQueue? ==> !IsPaused(s, ReqOf(s, x).queue))
  }

  /** An execution whose job is in order: what the steps below start from. */
  ghost predicate InOrder(s: State, x: nat, success: bool) {
    && Smooth(s, x, success) && !s.execs[x].pc.Return?
    && PcOk(s.execs[x].pc, ReqOf(s, x))
    && MaxRetry(ReqOf(s, x)) < MAX_INT32
    && ReqOf(s, x).job in s.jobs && s.jobs[ReqOf(s, x).job].typ == ReqOf(s, x).typ
    && TokenOk(s, ReqOf(s, x).job, s.execs[x].pc, ReqOf(s, x))
    && (Unfinished(s.jobs[ReqOf(s, x).job]) || s.jobs[ReqOf(s, x).job].status.Cancelled?)
  }

  /** What the token knows after its step. */
  lemma TokenKnows(s: State, x: nat, success: bool)
    requires InOrder(s, x, success)
    ensures var req := ReqOf(s, x);
            var next := WorkNext(s, req, s.execs[x].pc, Ok, success);
            var s' := AfterWork(s, x, Ok, success);
            req.job in s'.jobs && (!next.Return? ==> TokenOk(s', req.job, next, req))
  {
    MoreFailures(ReqOf(s, x).attempt);
  }

  lemma RetryKnows(s: State, x: nat, success: bool)
    requires InOrder(s, x, success) && s.execs[x].pc.Reenqueue?
    ensures var req := ReqOf(s, x);
            var s' := AfterWork(s, x, Ok, success);
            && TokenOk(s', req.job, GetQueue, RetryRequest(req))
            && Budget(RetryRequest(req)) == Budget(req) && MaxRetry(RetryRequest(req)) == MaxRetry(req)
  {
  }

  /** Whether the job still needs a token. */
  lemma JobAfter(s: State, x: nat, success: bool)
    requires InOrder(s, x, success)
    ensures var req := ReqOf(s, x);
            var s' := AfterWork(s, x, Ok, success);
            var spent := !s.execs[x].pc.Reenqueue? && WorkNext(s, req, s.execs[x].pc, Ok, success).Return?;
            req.job in s'.jobs && (s'.jobs[req.job].status.Cancelled? || (Unfinished(s'.jobs[req.job]) <==> !spent))
  {
  }

  /** What ends a job, and with which accounts. */
  lemma StatusAfter(s: State, x: nat, success: bool)
    requires InOrder(s, x, success)
    ensures var req := ReqOf(s, x); var pc := s.execs[x].pc;
            var s' := AfterWork(s, x, Ok, success); var row := s'.jobs[req.job];
            && req.job in s'.jobs && !row.status.Scheduled? && row.typ == s.jobs[req.job].typ
            && (row.status.Completed? <==> pc.Complete? || pc.CompleteEmail?)
            && (row.status.Completed? ==>
                  row.attempt == req.attempt && row.completedAt.Some? && Outcomes(s', req.job) == Failures(req.attempt) + [true])
            && (row.status.Archived? <==> pc.Archive?)
            && (row.status.Archived? ==>
                  row.attempt == req.attempt + 1 == Budget(req) + 1 && Outcomes(s', req.job) == Failures(row.attempt))
            && (pc.CompleteEmail? <==> row.status.Completed? && row.typ == EMAIL)
  {
  }

  lemma SettledAfter(s: State, x: nat, success: bool)
    requires InOrder(s, x, success) && LogOk(s) && Settled(s, ReqOf(s, x).job)
    ensures ReqOf(s, x).job in AfterWork(s, x, Ok, success).jobs
    ensures Settled(AfterWork(s, x, Ok, success), ReqOf(s, x).job)
  {
    var s' := AfterWork(s, x, Ok, success);
    var req := ReqOf(s, x);
    assert s'.log[s.execs[x].offset].req.job == req.job;
    assert |RowsOf(s.outbox, req.job)| == 0;
    WorkRows(s, x, success, req.job);
    StatusAfter(s, x, success);
    assert s'.jobs[req.job].status.Completed? || s'.jobs[req.job].status.Archived? ==> s'.log == s.log;
  }

  /** As many tokens as the status of the row calls for. */
  predicate Fitting(tokens: set<Token>, row: Job) {
    && |tokens| <= 1
    && (Unfinished(row) ==> |tokens| == 1)
    && (!Unfinished(row) && !row.status.Cancelled? ==> tokens == {})
  }

  lemma SpentOrNot(tokens: set<Token>, t: Token, row: Job, spent: bool)
    requires tokens == if spent then {} else {t}
    requires row.status.Cancelled? || (Unfinished(row) <==> !spent)
    ensures Fitting(tokens, row)
  {
  }

  lemma CountsAfter(s: State, x: nat, success: bool)
    requires IdsOk(s) && InOrder(s, x, success) && TokensOf(s, ReqOf(s, x).job) == {Running(x)}
    ensures var s' := AfterWork(s, x, Ok, success); var j := ReqOf(s, x).job;
            j in s'.jobs && Fitting(TokensOf(s', j), s'.jobs[j])
  {
    var s' := AfterWork(s, x, Ok, success);
    var j := ReqOf(s, x).job;
    var pc := s.execs[x].pc;
    TokenMoves(s, x, success);
    JobAfter(s, x, success);
    SpentOrNot(TokensOf(s', j), if pc.Reenqueue? then InLog(|s.log|) else Running(x), s'.jobs[j],
               !pc.Reenqueue? && WorkNext(s, ReqOf(s, x), pc, Ok, success).Return?);
  }

  lemma WorkJobOk(s: State, x: nat, success: bool)
    requires IdsOk(s) && LogOk(s) && InOrder(s, x, success) && JobOk(s, ReqOf(s, x).job)
    ensures ReqOf(s, x).job in AfterWork(s, x, Ok, success).jobs
    ensures JobOk(AfterWork(s, x, Ok, success), ReqOf(s, x).job)
  {
    OnlyToken(s, x, ReqOf(s, x).job);
    CountsAfter(s, x, success);
    SettledAfter(s, x, success);
    MessagesKnow(s, x, success);
    ExecsKnow(s, x, success);
  }

  lemma MessagesKnow(s: State, x: nat, success: bool)
    requires IdsOk(s) && InOrder(s, x, success) && TokensOf(s, ReqOf(s, x).job) == {Running(x)}
    ensures var s' := AfterWork(s, x, Ok, success); var j := ReqOf(s, x).job;
            && j in s'.jobs && forall i: nat :: LiveMessage(s', i, j) ==> TokenOk(s', j, GetQueue, s'.log[i].req)
  {
    var s' := AfterWork(s, x, Ok, success);
    var j := ReqOf(s, x).job;
    TokenMoves(s, x, success);
    TokenKnows(s, x, success);
    if s.execs[x].pc.Reenqueue? { RetryKnows(s, x, success); }
    forall i: nat | LiveMessage(s', i, j) ensures TokenOk(s', j, GetQueue, s'.log[i].req) {
      assert InLog(i) in TokensOf(s', j);
    }
  }

  lemma ExecsKnow(s: State, x: nat, success: bool)
    requires IdsOk(s) && InOrder(s, x, success) && TokensOf(s, ReqOf(s, x).job) == {Running(x)}
    ensures var s' := AfterWork(s, x, Ok, success); var j := ReqOf(s, x).job;
            && j in s'.jobs
            && forall y: nat :: LiveExec(s', y, j) ==> TokenOk(s', j, s'.execs[y].pc, s'.log[s'.execs[y].offset].req)
  {
    var s' := AfterWork(s, x, Ok, success);
    var j := ReqOf(s, x).job;
    TokenMoves(s, x, success);
    TokenKnows(s, x, success);
    forall y: nat | LiveExec(s', y, j) ensures TokenOk(s', j, s'.execs[y].pc, s'.log[s'.execs[y].offset].req) {
      assert Running(y) in TokensOf(s', j);
    }
  }

  /** The execution of a job in order is in order. */
  lemma ExecInOrder(s: State, x: nat, success: bool)
    requires IdsOk(s) && PcsOk(s.execs, s.log) && TokensOk(s) && Smooth(s, x, success) && !s.execs[x].pc.Return?
    ensures InOrder(s, x, success) && JobOk(s, ReqOf(s, x).job)
  {
    var j := ReqOf(s, x).job;
    assert JobOk(s, j) && LiveExec(s, x, j) && ReqMatches(ReqOf(s, x), s.born);
    assert Running(x) in TokensOf(s, j);
  }

  lemma WorkLogOk(s: State, x: nat, success: bool)
    requires LogOk(s) && WorkEnabled(s, x, success) && (s.execs[x].pc.Reenqueue? ==> InOrder(s, x, success))
    ensures LogOk(AfterWork(s, x, Ok, success))
  {
    if s.execs[x].pc.Reenqueue? { RetryKnows(s, x, success); }
  }

  lemma WorkKeys(s: State, x: nat, success: bool)
    requires WorkEnabled(s, x, success)
    ensures AfterWork(s, x, Ok, success).jobs.Keys == s.jobs.Keys
  {
  }

  lemma OtherJobOk(s: State, x: nat, success: bool, k: nat)
    requires WorkEnabled(s, x, success) && k in s.jobs && JobOk(s, k)
    requires ReqOf(s, x).job != k || s.execs[x].pc.Return?
    ensures k in AfterWork(s, x, Ok, success).jobs && JobOk(AfterWork(s, x, Ok, success), k)
  {
    WorkUntouched(s, x, success, k);
    UntouchedOk(s, AfterWork(s, x, Ok, success), k);
  }

  lemma EveryJobOk(s: State, x: nat, success: bool, k: nat)
    requires IdsOk(s) && PcsOk(s.execs, s.log) && TokensOk(s) && Smooth(s, x, success) && k in s.jobs
    ensures k in AfterWork(s, x, Ok, success).jobs && JobOk(AfterWork(s, x, Ok, success), k)
  {
    if k == ReqOf(s, x).job && !s.execs[x].pc.Return? {
      ExecInOrder(s, x, success);
      WorkJobOk(s, x, success);
    } else {
      OtherJobOk(s, x, success, k);
    }
  }

  /** A step of a worker that finds its queue running keeps every job in order. */
  lemma TokensWork(s: State, x: nat, success: bool)
    requires IdsOk(s) && PcsOk(s.execs, s.log) && TokensOk(s) && Smooth(s, x, success)
    ensures TokensOk(AfterWork(s, x, Ok, success))
  {
    if s.execs[x].pc.Reenqueue? { ExecInOrder(s, x, success); }
    WorkLogOk(s, x, success);
    WorkKeys(s, x, success);
    forall k | k in s.jobs ensures JobOk(AfterWork(s, x, Ok, success), k) { EveryJobOk(s, x, success, k); }
  }
}
