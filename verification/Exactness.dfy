/** Where a guarantee stops short, and exactly when: the branch of the code that gives it up. */
module Exactness {
  import opened Types
  import opened Tables
  import opened Protocol
  import opened Identity
  import opened Accounting
  import opened Tokens
  import opened FaultFree
  import opened EveryRun
  import opened Submission
  import opened Conservation
  import opened ApiEffects
  import opened FaultFreeRuns

  // ---- a paused queue ----

  /** A worker that asks for the queue gives the job's only token up exactly when the queue is
      paused; the row is left as it was. */
  lemma PausedQueueDropsToken(s: State, x: nat)
    requires FReachable(s) && x in s.execs && s.execs[x].pc == GetQueue && s.execs[x].offset < |s.log|
    ensures var s' := AfterWork(s, x, Ok, true); var j := ReqOf(s, x).job;
            && |TokensOf(s, j)| == 1
            && (TokensOf(s', j) == {} <==> IsPaused(s, ReqOf(s, x).queue))
            && s'.jobs == s.jobs
  {
    FInvReachable(s);
    HolderOf(s, x);
    TokenMoves(s, x, true);
  }

  lemma HolderOf(s: State, x: nat)
    requires TokensOk(s) && x in s.execs && !s.execs[x].pc.Return? && s.execs[x].offset < |s.log|
    ensures TokensOf(s, ReqOf(s, x).job) == {Running(x)}
  {
    var j := ReqOf(s, x).job;
    assert LiveExec(s, x, j);
    JobOfExec(s, x, j);
    assert JobOk(s, j);
    OnlyToken(s, x, j);
  }

  // ---- a retry that is not written ----

  /** The error of a retry's enqueue is not looked at: the job, marked failed, keeps a token exactly
      when the enqueue took effect. */
  lemma FailedRetryLosesToken(s: State, x: nat, o: Outcome)
    requires FReachable(s) && x in s.execs && s.execs[x].pc == Reenqueue && s.execs[x].offset < |s.log|
    ensures var s' := AfterWork(s, x, o, true); var j := ReqOf(s, x).job;
            && (TokensOf(s', j) == {} <==> o.Failure?)
            && s'.jobs == s.jobs
  {
    FInvReachable(s);
    HolderOf(s, x);
    RetryToken(s, x, o);
    RetryWritesNoRow(s, x, o);
  }

  lemma RetryWritesNoRow(s: State, x: nat, o: Outcome)
    requires x in s.execs && s.execs[x].pc == Reenqueue && s.execs[x].offset < |s.log|
    ensures AfterWork(s, x, o, true).jobs == s.jobs
  {
  }

  lemma RetryToken(s: State, x: nat, o: Outcome)
    requires IdsOk(s) && x in s.execs && s.execs[x].pc == Reenqueue && s.execs[x].offset < |s.log|
    requires TokensOf(s, ReqOf(s, x).job) == {Running(x)}
    ensures TokensOf(AfterWork(s, x, o, true), ReqOf(s, x).job) == {} <==> o.Failure?
  {
    if o.Failure? {
      SpentToken(s, x);
    } else {
      TokenMoves(s, x, true);
      ReplyDoesNotMatter(s, x);
    }
  }

  lemma ReplyDoesNotMatter(s: State, x: nat)
    requires x in s.execs && s.execs[x].pc == Reenqueue && s.execs[x].offset < |s.log|
    ensures AfterWork(s, x, LostReply, true) == AfterWork(s, x, Ok, true)
  {
  }

  lemma SpentToken(s: State, x: nat)
    requires x in s.execs && s.execs[x].pc == Reenqueue && s.execs[x].offset < |s.log|
    requires TokensOf(s, ReqOf(s, x).job) == {Running(x)}
    ensures TokensOf(AfterWork(s, x, Failure, true), ReqOf(s, x).job) == {}
  {
    var j := ReqOf(s, x).job;
    var s' := AfterWork(s, x, Failure, true);
    TokenOfJob(s, j);
    forall i: nat ensures !LiveMessage(s', i, j) {
      assert !LiveMessage(s, i, j);
    }
    forall y: nat ensures !LiveExec(s', y, j) {
      assert y != x ==> !LiveExec(s, y, j);
    }
  }

  // ---- any step of a worker ----

  /** Whether a step of a worker leaves its job in order: it depends on the call being made, how it
      came out, whether the queue is paused and whether the job is cancelled. */
  predicate KeepsOrder(pc: Pc, o: Outcome, paused: bool, cancelled: bool) {
    match pc
    case GetQueue => cancelled || (o.Ok? && !paused)
    case Lookup => cancelled || o.Ok?
    case Reenqueue => cancelled || Applied(o)
    case Archive => cancelled || Applied(o)
    case Acquire => true
    case Handle => true
    case Return(_) => true
    case _ => Applied(o)
  }

  /** A call that took effect does the same whether or not the reply came, unless the reply is what
      it was made for; so does one that writes nothing. */
  lemma OutcomeDoesNotMatter(s: State, x: nat, o: Outcome, success: bool)
    requires x in s.execs && s.execs[x].offset < |s.log|
    requires var pc := s.execs[x].pc;
             !pc.GetQueue? && !pc.Lookup? && (Applied(o) || pc.Acquire? || pc.Handle? || pc.Return?)
    ensures AfterWork(s, x, o, success) == AfterWork(s, x, Ok, success)
  {
  }

  /** The token ends and nothing is written. */
  ghost predicate Spends(s: State, s': State, x: nat) {
    && x in s.execs && s'.jobs == s.jobs && s'.log == s.log && s'.taken == s.taken && s'.outbox == s.outbox
    && s'.outcomes == s.outcomes
    && (forall y :: y != x && y in s.execs ==> y in s'.execs && s'.execs[y] == s.execs[y])
    && (forall y :: y in s'.execs ==> y in s.execs)
    && (x in s'.execs ==> s'.execs[x].pc.Return?)
  }

  lemma SpentTokens(s: State, s': State, x: nat, j: nat)
    requires Spends(s, s', x) && TokensOf(s, j) == {Running(x)}
    ensures TokensOf(s', j) == {}
  {
    TokenOfJob(s, j);
    forall y: nat ensures !LiveExec(s', y, j) {
      assert y != x ==> !LiveExec(s, y, j);
    }
    forall i: nat ensures !LiveMessage(s', i, j) {
      assert !LiveMessage(s, i, j);
    }
  }

  lemma SpentInOrder(s: State, s': State, x: nat, j: nat)
    requires Spends(s, s', x) && TokensOf(s, j) == {Running(x)} && j in s.jobs && JobOk(s, j)
    ensures JobOk(s', j) <==> IsCancelled(s, j)
  {
    SpentTokens(s, s', x, j);
    if IsCancelled(s, j) {
      TokenOfJob(s', j);
      assert Settled(s', j);
    } else {
      assert Unfinished(s.jobs[j]);
    }
  }

  /** A token that stands where its job's status does not fit. */
  lemma MisfitNotOk(s: State, x: nat, j: nat)
    requires j in s.jobs && LiveExec(s, x, j) && !Fits(s.execs[x].pc, s.jobs[j].status)
    ensures !JobOk(s, j)
  {
    assert !TokenOk(s, j, s.execs[x].pc, s.log[s.execs[x].offset].req);
  }

  /** The calls after which `process` has nothing more to do when they fail. */
  lemma FailedCallSpends(s: State, x: nat, o: Outcome, success: bool)
    requires WorkEnabled(s, x, success)
    requires var pc := s.execs[x].pc;
             || (pc.GetQueue? && (!o.Ok? || IsPaused(s, ReqOf(s, x).queue))) || (pc.Lookup? && !o.Ok?)
             || (o.Failure? && (pc.Reenqueue? || pc.Archive? || pc.MarkUnknown? || pc.Complete? || pc.CompleteEmail?))
    ensures Spends(s, AfterWork(s, x, o, success), x)
  {
  }

  /** The writes after which `process` goes on although they failed. */
  lemma FailedWriteMisfits(s: State, x: nat, success: bool)
    requires WorkEnabled(s, x, success) && (s.execs[x].pc.MarkProcessing? || s.execs[x].pc.MarkFailed?)
    requires ReqOf(s, x).job in s.jobs && Fits(s.execs[x].pc, s.jobs[ReqOf(s, x).job].status)
    ensures var s' := AfterWork(s, x, Failure, success); var j := ReqOf(s, x).job;
            j in s'.jobs && LiveExec(s', x, j) && !Fits(s'.execs[x].pc, s'.jobs[j].status)
  {
  }

  /** From any fault-free reachable state, whatever the outcome: a worker's step keeps its job in order
      exactly when `KeepsOrder` says so. A failing GetQueue or GetByID, a paused queue, a retry or an
      archive not written lose the token of a job that is not cancelled; any other status write, or
      the outbox transaction, not taking effect leaves the row behind its execution. */
  lemma WorkerStepKeepsOrderExactly(s: State, x: nat, o: Outcome, success: bool)
    requires FReachable(s) && WorkEnabled(s, x, success)
    ensures var s' := AfterWork(s, x, o, success); var j := ReqOf(s, x).job;
            j in s.jobs && j in s'.jobs
            && (JobOk(s', j) <==> KeepsOrder(s.execs[x].pc, o, IsPaused(s, ReqOf(s, x).queue), IsCancelled(s, j)))
  {
    FInvReachable(s);
    var pc := s.execs[x].pc;
    var paused, cancelled := IsPaused(s, ReqOf(s, x).queue), IsCancelled(s, ReqOf(s, x).job);
    JobInTable(s, x);
    OrderCases(pc, o, paused, cancelled);
    if StopsAsking(pc, o, paused) {
      TokenSpent(s, x, o, success);
    } else if o.Failure? && Writes(pc) {
      WriteFails(s, x, success);
    } else {
      GoesOn(s, x, o, success);
    }
  }

  /** The lookups whose answer ends `process`. */
  predicate StopsAsking(pc: Pc, o: Outcome, paused: bool) {
    (pc.GetQueue? && (!o.Ok? || paused)) || (pc.Lookup? && !o.Ok?)
  }

  predicate Writes(pc: Pc) {
    !pc.Acquire? && !pc.Handle? && !pc.Return? && !pc.GetQueue? && !pc.Lookup?
  }

  lemma OrderCases(pc: Pc, o: Outcome, paused: bool, cancelled: bool)
    ensures StopsAsking(pc, o, paused) ==> KeepsOrder(pc, o, paused, cancelled) == cancelled
    ensures o.Failure? && Writes(pc) ==> KeepsOrder(pc, o, paused, cancelled) == KeepsOrder(pc, Failure, false, cancelled)
    ensures !StopsAsking(pc, o, paused) && !(o.Failure? && Writes(pc)) ==> KeepsOrder(pc, o, paused, cancelled)
  {
  }

  lemma GoesOn(s: State, x: nat, o: Outcome, success: bool)
    requires FInv(s) && WorkEnabled(s, x, success) && ReqOf(s, x).job in s.jobs
    requires !StopsAsking(s.execs[x].pc, o, IsPaused(s, ReqOf(s, x).queue)) && !(o.Failure? && Writes(s.execs[x].pc))
    ensures var s' := AfterWork(s, x, o, success); var j := ReqOf(s, x).job;
            j in s'.jobs && JobOk(s', j)
  {
    if !o.Ok? { OutcomeDoesNotMatter(s, x, o, success); }
    EveryJobOk(s, x, success, ReqOf(s, x).job);
  }

  lemma JobInTable(s: State, x: nat)
    requires LogOk(s) && x in s.execs && s.execs[x].offset < |s.log|
    ensures ReqOf(s, x).job in s.jobs
  {
  }

  lemma TokenSpent(s: State, x: nat, o: Outcome, success: bool)
    requires FInv(s) && WorkEnabled(s, x, success)
    requires var pc := s.execs[x].pc;
             || (pc.GetQueue? && (!o.Ok? || IsPaused(s, ReqOf(s, x).queue))) || (pc.Lookup? && !o.Ok?)
             || (o.Failure? && (pc.Reenqueue? || pc.Archive? || pc.MarkUnknown? || pc.Complete? || pc.CompleteEmail?))
    ensures var s' := AfterWork(s, x, o, success); var j := ReqOf(s, x).job;
            j in s.jobs && j in s'.jobs && (JobOk(s', j) <==> IsCancelled(s, j))
  {
    var j := ReqOf(s, x).job;
    JobInTable(s, x);
    HolderOf(s, x);
    FailedCallSpends(s, x, o, success);
    assert JobOk(s, j);
    SpentInOrder(s, AfterWork(s, x, o, success), x, j);
  }

  lemma WriteFails(s: State, x: nat, success: bool)
    requires FInv(s) && WorkEnabled(s, x, success)
    requires Writes(s.execs[x].pc)
    ensures var s' := AfterWork(s, x, Failure, success); var j := ReqOf(s, x).job;
            j in s.jobs && j in s'.jobs && (JobOk(s', j) <==> KeepsOrder(s.execs[x].pc, Failure, false, IsCancelled(s, j)))
  {
    TokenFits(s, x);
    if s.execs[x].pc.MarkProcessing? || s.execs[x].pc.MarkFailed? {
      FailedWriteMisfits(s, x, success);
      MisfitNotOk(AfterWork(s, x, Failure, success), x, ReqOf(s, x).job);
    } else {
      TokenSpent(s, x, Failure, success);
    }
  }

  lemma TokenFits(s: State, x: nat)
    requires TokensOk(s) && x in s.execs && s.execs[x].offset < |s.log| && !s.execs[x].pc.Return?
    ensures ReqOf(s, x).job in s.jobs && Fits(s.execs[x].pc, s.jobs[ReqOf(s, x).job].status)
  {
    var j := ReqOf(s, x).job;
    assert LiveExec(s, x, j);
    JobInTable(s, x);
    assert JobOk(s, j);
  }

  // ---- redelivery ----

  lemma DeliveryAddsToken(s: State, i: nat, w: nat)
    requires IdsOk(s) && i < |s.log| && i in s.taken
    ensures var s' := Apply(s, Deliver(i, w)); var j := s.log[i].req.job;
            && Running(s.nextExec) !in TokensOf(s, j)
            && TokensOf(s', j) == TokensOf(s, j) + {Running(s.nextExec)}
  {
    var s' := Apply(s, Deliver(i, w));
    var j := s.log[i].req.job;
    forall k: nat ensures LiveMessage(s', k, j) <==> LiveMessage(s, k, j) {}
    forall x: nat ensures LiveExec(s', x, j) <==> LiveExec(s, x, j) || x == s.nextExec {}
  }

  /** Delivering a message again gives its job a second token exactly when it had one left. The job is
      in order only if it was cancelled, had none left, and its failed attempts are those the message
      counts; a completed or archived job never is. */
  lemma RedeliveryKeepsOrderExactly(s: State, i: nat, w: nat)
    requires FReachable(s) && i < |s.log| && i in s.taken
    ensures var s' := Apply(s, Deliver(i, w)); var j := s.log[i].req.job;
            && j in s.jobs && s.log[i].req.attempt >= 0
            && (|TokensOf(s', j)| <= 1 <==> TokensOf(s, j) == {})
            && (JobOk(s', j) <==> IsCancelled(s, j) && TokensOf(s, j) == {} && Outcomes(s, j) == Failures(s.log[i].req.attempt))
  {
    FInvReachable(s);
    var j := s.log[i].req.job;
    assert AttemptOk(s.log[i].req);
    DeliveryAddsToken(s, i, w);
    RedeliveredJob(s, i, w);
  }

  lemma RedeliveredJob(s: State, i: nat, w: nat)
    requires IdsOk(s) && LogOk(s) && i < |s.log| && i in s.taken && AttemptOk(s.log[i].req)
    requires s.log[i].req.job in s.jobs && JobOk(s, s.log[i].req.job)
    requires TokensOf(Apply(s, Deliver(i, w)), s.log[i].req.job) == TokensOf(s, s.log[i].req.job) + {Running(s.nextExec)}
    requires Running(s.nextExec) !in TokensOf(s, s.log[i].req.job)
    ensures var s' := Apply(s, Deliver(i, w)); var j := s.log[i].req.job;
            && s.log[i].req.attempt >= 0
            && (|TokensOf(s', j)| <= 1 <==> TokensOf(s, j) == {})
            && (JobOk(s', j) <==> IsCancelled(s, j) && TokensOf(s, j) == {} && Outcomes(s, j) == Failures(s.log[i].req.attempt))
  {
    var s' := Apply(s, Deliver(i, w));
    var j := s.log[i].req.job;
    assert LiveExec(s', s.nextExec, j);
    if TokensOf(s, j) == {} && IsCancelled(s, j) && Outcomes(s, j) == Failures(s.log[i].req.attempt) {
      RedeliveredCancelled(s, i, w);
    }
  }

  lemma RedeliveredCancelled(s: State, i: nat, w: nat)
    requires LogOk(s) && i < |s.log| && i in s.taken && AttemptOk(s.log[i].req)
    requires var j := s.log[i].req.job;
             && j in s.jobs && JobOk(s, j) && TokensOf(s, j) == {} && IsCancelled(s, j)
             && Outcomes(s, j) == Failures(s.log[i].req.attempt)
             && TokensOf(Apply(s, Deliver(i, w)), j) == {Running(s.nextExec)}
    ensures JobOk(Apply(s, Deliver(i, w)), s.log[i].req.job)
  {
    var s' := Apply(s, Deliver(i, w));
    var j := s.log[i].req.job;
    TokenOfJob(s', j);
    assert Settled(s', j);
  }

  // ---- a crash ----

  /** An execution of a job that is not cancelled dies with worker `w`. */
  ghost predicate CutOff(s: State, w: nat, x: nat, j: nat) {
    LiveExec(s, x, j) && s.execs[x].worker == w && !IsCancelled(s, j)
  }

  lemma CrashedJob(s: State, w: nat, j: nat)
    requires IdsOk(s) && j in s.jobs && JobOk(s, j)
    ensures JobOk(AfterCrash(s, w), j) <==> forall x :: !CutOff(s, w, x, j)
  {
    if x :| LiveExec(s, x, j) && s.execs[x].worker == w {
      CrashedHolder(s, w, x, j);
      assert CutOff(s, w, x, j) <==> !IsCancelled(s, j);
    } else {
      CrashedElsewhere(s, w, j);
    }
  }

  lemma CrashedElsewhere(s: State, w: nat, j: nat)
    requires j in s.jobs && JobOk(s, j) && forall x :: LiveExec(s, x, j) ==> s.execs[x].worker != w
    ensures JobOk(AfterCrash(s, w), j)
  {
    UntouchedOk(s, AfterCrash(s, w), j);
  }

  lemma CrashedHolder(s: State, w: nat, x: nat, j: nat)
    requires IdsOk(s) && j in s.jobs && JobOk(s, j) && LiveExec(s, x, j) && s.execs[x].worker == w
    ensures JobOk(AfterCrash(s, w), j) <==> IsCancelled(s, j)
  {
    var s' := AfterCrash(s, w);
    OnlyToken(s, x, j);
    TokenOfJob(s, j);
    assert forall y: nat :: LiveExec(s', y, j) ==> LiveExec(s, y, j) && y != x;
    assert forall i: nat :: LiveMessage(s', i, j) <==> LiveMessage(s, i, j);
    assert TokensOf(s', j) == {};
    CrashedSettled(s, w, j);
  }

  lemma CrashedSettled(s: State, w: nat, j: nat)
    requires j in s.jobs && Settled(s, j)
    ensures Settled(AfterCrash(s, w), j)
  {
  }

  lemma CrashLogOk(s: State, w: nat)
    requires LogOk(s)
    ensures LogOk(AfterCrash(s, w))
  {
  }

  lemma CrashKeeps(s: State, w: nat)
    requires IdsOk(s) && TokensOk(s) && forall x, j :: !CutOff(s, w, x, j)
    ensures TokensOk(AfterCrash(s, w))
  {
    CrashLogOk(s, w);
    forall j | j in s.jobs ensures JobOk(AfterCrash(s, w), j) {
      assert JobOk(s, j);
      CrashedJob(s, w, j);
    }
  }

  lemma CrashBreaks(s: State, w: nat, x: nat, j: nat)
    requires IdsOk(s) && TokensOk(s) && CutOff(s, w, x, j)
    ensures j in s.jobs && !JobOk(AfterCrash(s, w), j)
  {
    JobOfExec(s, x, j);
    assert JobOk(s, j);
    CrashedJob(s, w, j);
  }

  /** A crash keeps every job in order exactly when the worker was running nothing but cancelled jobs. */
  lemma CrashKeepsOrderExactly(s: State, w: nat)
    requires FReachable(s)
    ensures TokensOk(AfterCrash(s, w)) <==> forall x, j :: !CutOff(s, w, x, j)
  {
    FInvReachable(s);
    if x, j :| CutOff(s, w, x, j) {
      CrashBreaks(s, w, x, j);
    } else {
      CrashKeeps(s, w);
    }
  }

  // ---- a promotion ----

  /** A job no worker has tried yet and none is about to. */
  ghost predicate Untried(s: State, j: nat) {
    TokensOf(s, j) == {} && Outcomes(s, j) == []
  }

  /** The two statements for the head of a promoter's list, answered `o1` and `o2`; an enqueue that
      reports an error is not followed by the write. */
  ghost function AfterPromotion(s: State, c: nat, o1: Outcome, o2: Outcome): State
    requires HasTodo(s, c) && s.calls[c].Promote?
  {
    var s1 := AfterStep(s, c, o1, Nothing);
    if o1.Ok? then AfterStep(s1, c, o2, Nothing) else s1
  }

  ghost predicate PromotedAs(s: State, s': State, d: Due, sent: bool, written: bool) {
    && SameRuns(s, s')
    && s'.log == (if sent then s.log + [Entry(PromoteMessage(d), ByPromoter)] else s.log)
    && s'.jobs == if written then SetStatus(s.jobs, d.id, Pending, d.row.attempt, None) else s.jobs
  }

  lemma PromotionDoes(s: State, c: nat, o1: Outcome, o2: Outcome)
    requires HasTodo(s, c) && s.calls[c].Promote?
    ensures PromotedAs(s, AfterPromotion(s, c, o1, o2), s.calls[c].ppc.todo[0], Applied(o1), o1.Ok? && Applied(o2))
  {
  }

  lemma PromotedTokens(s: State, s': State, d: Due, written: bool)
    requires IdsOk(s) && PromotedAs(s, s', d, true, written)
    ensures InLog(|s.log|) !in TokensOf(s, d.id)
    ensures TokensOf(s', d.id) == TokensOf(s, d.id) + {InLog(|s.log|)}
  {
    assert |s.log| !in s.taken;
    forall i: nat ensures LiveMessage(s', i, d.id) <==> LiveMessage(s, i, d.id) || i == |s.log| {}
    forall x: nat ensures LiveExec(s', x, d.id) <==> LiveExec(s, x, d.id) {}
  }

  /** A second token, or a first one for a job whose attempts it does not count. */
  lemma TriedNotOk(s: State, s': State, d: Due, written: bool)
    requires IdsOk(s) && PromotedAs(s, s', d, true, written) && d.id in s.jobs && !Untried(s, d.id)
    ensures !JobOk(s', d.id)
  {
    PromotedTokens(s, s', d, written);
    assert LiveMessage(s', |s.log|, d.id);
    assert Failures(0) == [];
    if TokensOf(s, d.id) != {} {
      var t :| t in TokensOf(s, d.id);
      CardMonotone({t, InLog(|s.log|)}, TokensOf(s', d.id));
    }
  }

  /** A message for a job that is neither pending nor cancelled. */
  lemma UnwrittenNotOk(s: State, s': State, d: Due)
    requires IdsOk(s) && PromotedAs(s, s', d, true, false) && d.id in s.jobs && JobOk(s, d.id) && Untried(s, d.id)
    requires !IsCancelled(s, d.id)
    ensures !JobOk(s', d.id)
  {
    PromotedTokens(s, s', d, false);
    assert !Unfinished(s.jobs[d.id]);
  }

  /** The row of an untried job, now pending or still cancelled, with no outbox row. */
  lemma UntriedSettled(s: State, s': State, d: Due, written: bool)
    requires PromotedAs(s, s', d, true, written) && d.id in s.jobs && Settled(s, d.id) && Outcomes(s, d.id) == []
    requires written || IsCancelled(s, d.id)
    ensures d.id in s'.jobs && Settled(s', d.id)
  {
    assert RowsOf(s'.outbox, d.id) == RowsOf(s.outbox, d.id);
    MoreFailures(0);
    assert s.jobs[d.id].status.Completed? ==> Outcomes(s, d.id) != [];
  }

  lemma UntriedOk(s: State, s': State, d: Due, written: bool)
    requires IdsOk(s) && PromotedAs(s, s', d, true, written) && d.id in s.jobs && JobOk(s, d.id) && Untried(s, d.id)
    requires written || IsCancelled(s, d.id)
    ensures JobOk(s', d.id)
  {
    var j := d.id;
    PromotedTokens(s, s', d, written);
    UntriedSettled(s, s', d, written);
    TokenOfJob(s, j);
    MoreFailures(0);
    forall i: nat | LiveMessage(s', i, j) ensures i == |s.log| { assert !LiveMessage(s, i, j); }
    forall x: nat ensures !LiveExec(s', x, j) { assert !LiveExec(s, x, j); }
  }

  lemma PromotedInOrder(s: State, s': State, d: Due, written: bool)
    requires IdsOk(s) && PromotedAs(s, s', d, true, written) && d.id in s.jobs && JobOk(s, d.id)
    ensures JobOk(s', d.id) <==> Untried(s, d.id) && (written || IsCancelled(s, d.id))
  {
    if !Untried(s, d.id) {
      TriedNotOk(s, s', d, written);
    } else if written || IsCancelled(s, d.id) {
      UntriedOk(s, s', d, written);
    } else {
      UnwrittenNotOk(s, s', d);
    }
  }

  /** Whatever listed it and however old the list is, with any outcomes, nothing coming between the two
      statements: promoting a job leaves it in order exactly when its enqueue had no effect, or the job
      was untried and the write took effect too. A cancelled job may go without the write.
      `PromotionGap` has what comes in between. */
  lemma PromotionKeepsOrderExactly(s: State, c: nat, o1: Outcome, o2: Outcome)
    requires IdsOk(s) && TokensOk(s) && HasTodo(s, c) && s.calls[c].Promote?
    ensures var j := s.calls[c].ppc.todo[0].id; var s' := AfterPromotion(s, c, o1, o2);
            && j in s.jobs && j in s'.jobs
            && (JobOk(s', j) <==> o1.Failure? || (Untried(s, j) && ((o1.Ok? && Applied(o2)) || IsCancelled(s, j))))
  {
    var d := s.calls[c].ppc.todo[0];
    assert CallOk(s, c);
    assert JobOk(s, d.id);
    PromotionDoes(s, c, o1, o2);
    var s' := AfterPromotion(s, c, o1, o2);
    if o1.Failure? {
      UnchangedJob(s, s', d.id);
    } else {
      PromotedInOrder(s, s', d, o1.Ok? && Applied(o2));
    }
  }

  // ---- a new row and its message ----

  /** A row was created, and its message sent or not. */
  ghost predicate RowMade(s: State, s': State, row: Job, req: JobRequest, sent: bool) {
    && SameRuns(s, s') && s'.jobs == s.jobs[|s.born| := row] && req.job == |s.born| && req.attempt == 0
    && |s'.log| == |s.log| + (if sent then 1 else 0) && s'.log[..|s.log|] == s.log
    && (sent ==> s'.log[|s.log|].req == req)
  }

  /** It is in order exactly when a pending row has its message and a scheduled one has none. */
  lemma MadeInOrder(s: State, s': State, row: Job, req: JobRequest, sent: bool)
    requires IdsOk(s) && LogOk(s) && HistoryOk(s) && RowMade(s, s', row, req, sent) && MaxRetry(req) < MAX_INT32
    requires row.status.Scheduled? || row.status.Pending?
    ensures |s.born| in s'.jobs && (JobOk(s', |s.born|) <==> (sent <==> row.status.Pending?))
  {
    var id := |s.born|;
    assert id !in s.jobs;
    assert forall i :: 0 <= i < |s.log| ==> s'.log[i] == s'.log[..|s.log|][i];
    if sent <==> row.status.Pending? {
      AppearsJob(s, s', id, row);
    } else if sent {
      assert s'.log[|s.log|].req.job == id;
    } else {
      NoTokens(s, id);
      assert TokensOf(s', id) == TokensOf(s, id);
    }
  }

  ghost predicate Accepts(s: State, r: SubmitReq) {
    r.typ != "" && (r.key == "" || !KeyTaken(s.jobs, SubmitRow(r)))
  }

  /** A submit from its insert on: insert, look at the clock, enqueue. */
  ghost function AfterSubmit(s: State, c: nat, o1: Outcome, o2: Outcome): State
    requires c < |s.calls| && s.calls[c].Submit? && s.calls[c].spc.SCreate?
  {
    var s1 := AfterStep(s, c, o1, Nothing);
    if !s1.calls[c].spc.SCheck? then s1
    else
      var s2 := AfterStep(s1, c, Ok, Nothing);
      if s2.calls[c].spc.SEnqueue? then AfterStep(s2, c, o2, Nothing) else s2
  }

  /** Whether the message of a submit gets onto the log. */
  predicate GoesOut(r: SubmitReq, clock: int, o1: Outcome, o2: Outcome) {
    o1.Ok? && !(r.runAt > 0 && r.runAt > clock) && Applied(o2)
  }

  lemma InsertMakes(s: State, c: nat, o: Outcome)
    requires IdsOk(s) && c < |s.calls| && s.calls[c].Submit? && s.calls[c].spc.SCreate? && Accepts(s, s.calls[c].req)
    requires Applied(o)
    ensures StepEnabled(s, c, o, Nothing)
    ensures var r := s.calls[c].req; var s1 := AfterStep(s, c, o, Nothing);
            && SameRuns(s, s1) && s1.jobs == s.jobs[|s.born| := SubmitRow(r)] && s1.log == s.log && s1.clock == s.clock
            && c < |s1.calls| && s1.calls[c] == Submit(r, if o.Ok? then SCheck(|s.born|) else SDone(None))
  {
  }

  lemma EnqueueMakes(s: State, c: nat, o: Outcome)
    requires c < |s.calls| && s.calls[c].Submit? && s.calls[c].spc.SEnqueue?
    ensures StepEnabled(s, c, o, Nothing)
    ensures var r := s.calls[c].req; var id := s.calls[c].spc.id; var s' := AfterStep(s, c, o, Nothing);
            && SameRuns(s, s') && s'.jobs == s.jobs
            && s'.log == if Applied(o) then s.log + [Entry(SubmitMessage(r, id), BySubmit)] else s.log
  {
  }

  lemma SubmitMakes(s: State, c: nat, o1: Outcome, o2: Outcome)
    requires IdsOk(s) && c < |s.calls| && s.calls[c].Submit? && s.calls[c].spc.SCreate? && Accepts(s, s.calls[c].req)
    requires Applied(o1)
    ensures var r := s.calls[c].req;
            RowMade(s, AfterSubmit(s, c, o1, o2), SubmitRow(r), SubmitMessage(r, |s.born|), GoesOut(r, s.clock, o1, o2))
  {
    var s1 := AfterStep(s, c, o1, Nothing);
    InsertMakes(s, c, o1);
    if o1.Ok? {
      SubmitLooks(s1, c);
      var s2 := AfterStep(s1, c, Ok, Nothing);
      if s2.calls[c].spc.SEnqueue? { EnqueueMakes(s2, c, o2); }
    }
  }

  /** With nothing coming between its statements, a submit that creates a row leaves the new job in order
      exactly when its message is sent if and only if it has no run_at. With every call going through that
      is so exactly when its run_at has not come yet, or it has none: otherwise the job is enqueued and
      still marked scheduled, for the promoter to enqueue again. `MessageGap` has what comes in between. */
  lemma SubmitKeepsOrderExactly(s: State, c: nat, o1: Outcome, o2: Outcome)
    requires Safe(s) && TokensOk(s) && c < |s.calls| && s.calls[c].Submit? && s.calls[c].spc.SCreate?
    requires Accepts(s, s.calls[c].req) && s.calls[c].req.maxRetry < MAX_INT32 && Applied(o1)
    ensures var r := s.calls[c].req; var s' := AfterSubmit(s, c, o1, o2);
            && |s.born| in s'.jobs
            && (JobOk(s', |s.born|) <==> (GoesOut(r, s.clock, o1, o2) <==> r.runAt <= 0))
            && (o1.Ok? && o2.Ok? ==> (JobOk(s', |s.born|) <==> !(0 < r.runAt <= s.clock)))
  {
    var r := s.calls[c].req;
    SubmitMakes(s, c, o1, o2);
    MadeInOrder(s, AfterSubmit(s, c, o1, o2), SubmitRow(r), SubmitMessage(r, |s.born|), GoesOut(r, s.clock, o1, o2));
  }

  /** The first two statements of a cron firing. */
  ghost function AfterFiring(s: State, c: nat, o1: Outcome, o2: Outcome): State
    requires HasTodo(s, c) && s.calls[c].Cron?
  {
    var s1 := AfterStep(s, c, o1, Nothing);
    if s1.calls[c].tpc.TEnqueue? then AfterStep(s1, c, o2, Nothing) else s1
  }

  lemma FiringMakes(s: State, c: nat, o1: Outcome, o2: Outcome)
    requires IdsOk(s) && HasTodo(s, c) && s.calls[c].Cron? && Applied(o1)
    ensures var d := s.calls[c].tpc.todo[0];
            RowMade(s, AfterFiring(s, c, o1, o2), CronRow(d), CronMessage(d, |s.born|), o1.Ok? && Applied(o2))
  {
  }

  /** With nothing coming between its statements, a cron firing that creates a row leaves the new job in
      order exactly when the insert reported no error and the enqueue took effect: otherwise a pending row
      has no message. */
  lemma FiringKeepsOrderExactly(s: State, c: nat, o1: Outcome, o2: Outcome)
    requires Safe(s) && TokensOk(s) && HasTodo(s, c) && s.calls[c].Cron? && Applied(o1)
    requires s.calls[c].tpc.todo[0].row.maxRetry < MAX_INT32
    ensures var s' := AfterFiring(s, c, o1, o2);
            |s.born| in s'.jobs && (JobOk(s', |s.born|) <==> o1.Ok? && Applied(o2))
  {
    var d := s.calls[c].tpc.todo[0];
    FiringMakes(s, c, o1, o2);
    MadeInOrder(s, AfterFiring(s, c, o1, o2), CronRow(d), CronMessage(d, |s.born|), o1.Ok? && Applied(o2));
  }

  // ---- a submit whose enqueue failed ----

  /** Submit call `c` made job `id`, is over, and has not sent its message. */
  ghost predicate Silent(s: State, c: nat, r: SubmitReq, id: nat) {
    && id < |s.born| && s.born[id] == BirthOf(r, c) && id in s.jobs
    && c < |s.calls| && s.calls[c].Submit? && s.calls[c].spc.SDone?
    && (forall i :: 0 <= i < |s.log| && s.log[i].origin.BySubmit? ==> s.log[i].req.job != id)
  }

  lemma SilentLog(s: State, c: nat, r: SubmitReq, id: nat, d: nat, o: Outcome, a: Answer)
    requires IdsOk(s) && Silent(s, c, r, id) && StepEnabled(s, d, o, a)
    ensures var op := CallOp(s.calls[d], |s.born|, s.outbox, a);
            op.Enqueue? && op.entry.origin.BySubmit? ==> op.entry.req.job != id
  {
    if s.calls[d].Submit? && s.calls[d].spc.SEnqueue? {
      assert CallOk(s, d);
    }
  }

  lemma SilentStep(s: State, e: Event, c: nat, r: SubmitReq, id: nat)
    requires IdsOk(s) && Silent(s, c, r, id) && Enabled(s, e)
    ensures Silent(Apply(s, e), c, r, id)
  {
    match e {
      case Step(d, o, a) => SilentCall(s, c, r, id, d, o, a);
      case Work(x, o, success) => SilentWork(s, x, o, success, c, r, id);
      case _ =>
    }
  }

  lemma SilentCall(s: State, c: nat, r: SubmitReq, id: nat, d: nat, o: Outcome, a: Answer)
    requires IdsOk(s) && Silent(s, c, r, id) && StepEnabled(s, d, o, a)
    ensures Silent(AfterStep(s, d, o, a), c, r, id)
  {
    SilentLog(s, c, r, id, d, o, a);
  }

  lemma SilentWork(s: State, x: nat, o: Outcome, success: bool, c: nat, r: SubmitReq, id: nat)
    requires Silent(s, c, r, id) && WorkEnabled(s, x, success)
    ensures Silent(AfterWork(s, x, o, success), c, r, id)
  {
  }

  lemma {:induction false} SilentForever(s: State, run: seq<Event>, c: nat, r: SubmitReq, id: nat)
    requires Safe(s) && Silent(s, c, r, id) && Legal(s, run)
    ensures Safe(After(s, run)) && Silent(After(s, run), c, r, id)
    decreases |run|
  {
    if run != [] {
      SilentStep(s, run[0], c, r, id);
      SafeStep(s, run[0]);
      SilentForever(Apply(s, run[0]), run[1..], c, r, id);
    }
  }

  /** If the enqueue of a submit has no effect, no submit ever sends the job's message, whatever is
      submitted afterwards; every submit of the same key that succeeds answers with that job's id. */
  lemma FailedEnqueueIsFinal(s: State, c: nat, run: seq<Event>)
    requires Reachable(s) && c < |s.calls| && s.calls[c].Submit? && s.calls[c].spc.SEnqueue?
    requires Legal(AfterStep(s, c, Failure, Nothing), run)
    ensures var s' := After(AfterStep(s, c, Failure, Nothing), run); var id := s.calls[c].spc.id;
            && id in s'.jobs
            && (forall i :: 0 <= i < |s'.log| && s'.log[i].origin.BySubmit? ==> s'.log[i].req.job != id)
            && (forall d: nat, k: nat :: Answered(s', d, k) && SameKeyed(s'.calls[d].req, s.calls[c].req) ==> k == id)
  {
    SafeReachable(s);
    assert CallOk(s, c);
    var s1 := AfterStep(s, c, Failure, Nothing);
    var r, id := s.calls[c].req, s.calls[c].spc.id;
    NotSentYet(s, c);
    SafeStep(s, Step(c, Failure, Nothing));
    SilentForever(s1, run, c, r, id);
    var s' := After(s1, run);
    forall d: nat, k: nat | Answered(s', d, k) && SameKeyed(s'.calls[d].req, r) ensures k == id {
      KeyAnswersOwner(s', c, r, id, d, k);
    }
  }

  lemma KeyAnswersOwner(s: State, c: nat, r: SubmitReq, id: nat, d: nat, k: nat)
    requires IdsOk(s) && UniqueKeys(s.jobs) && Silent(s, c, r, id) && Answered(s, d, k) && SameKeyed(s.calls[d].req, r)
    ensures k == id
  {
    assert CallOk(s, d);
    assert RowMatches(s.jobs[id], s.born[id]);
  }

  lemma NotSentYet(s: State, c: nat)
    requires IdsOk(s) && SubmissionOk(s) && c < |s.calls| && s.calls[c].Submit? && s.calls[c].spc.SEnqueue?
    ensures Silent(AfterStep(s, c, Failure, Nothing), c, s.calls[c].req, s.calls[c].spc.id)
  {
    assert CallOk(s, c);
  }
}
