/** Runs in which another actor comes between two statements of a call, or two outbox batches overlap,
    and a guarantee is lost although no call fails; and one in which a mark fails. */
module GapWitnesses {
  import opened Types
  import opened Tables
  import opened Protocol
  import opened Identity
  import opened Tokens
  import opened FaultFree
  import opened ApiEffects
  import opened ListedRows
  import opened FaultFreeRuns
  import opened OpenCalls
  import opened Scenario
  import opened Witnesses
  import opened PromotionGap
  import opened CancelGap
  import opened OutboxOnce
  import opened OutboxExactly

  // ---- fault-free runs with open calls ----

  lemma {:induction false} OSnoc(s: State, run: seq<OEvent>, e: OEvent)
    requires OLegal(s, run) && OEnabled(OAfter(s, run), e)
    ensures OLegal(s, run + [e]) && OAfter(s, run + [e]) == OApply(OAfter(s, run), e)
    decreases |run|
  {
    if run == [] {
      assert [e][1..] == [] && OLegal(OApply(s, e), []);
    } else {
      assert (run + [e])[0] == run[0] && (run + [e])[1..] == run[1..] + [e];
      OSnoc(OApply(s, run[0]), run[1..], e);
    }
  }

  lemma OReachStep(s: State, e: OEvent)
    requires OReachable(s) && OEnabled(s, e)
    ensures OReachable(OApply(s, e))
  {
    var limit: int, clock: int, run: seq<OEvent> :| OLegal(Init(limit, clock), run) && OAfter(Init(limit, clock), run) == s;
    OSnoc(Init(limit, clock), run, e);
  }

  lemma {:induction false} OReachRun(s: State, run: seq<OEvent>)
    requires OReachable(s) && OLegal(s, run)
    ensures OReachable(OAfter(s, run))
    decreases |run|
  {
    if run != [] {
      OReachStep(s, run[0]);
      OReachRun(OApply(s, run[0]), run[1..]);
    }
  }

  lemma OReachableToo(s: State)
    requires OReachable(s)
    ensures Reachable(s)
  {
    var limit: int, clock: int, run: seq<OEvent> :| OLegal(Init(limit, clock), run) && OAfter(Init(limit, clock), run) == s;
    ORunIsRun(Init(limit, clock), run);
  }

  ghost predicate LeadsTo(s: State, run: seq<OEvent>, s': State) {
    OLegal(s, run) && OAfter(s, run) == s'
  }

  // ---- one execution ----

  lemma TakenIn(s1: State, req: JobRequest, st: Status) returns (run: seq<OEvent>, s: State)
    requires s1.limit == 0 && s1.paused == map["default" := false] && req.queue == "default"
    requires |s1.log| == 1 && s1.log[0].req == req && s1.taken == {} && s1.nextExec == 0
    requires req.job in s1.jobs && s1.jobs[req.job].status == st
    ensures LeadsTo(s1, run, s) && Stands(s, 0, req, 0, GetQueue, st) && s.calls == s1.calls && s.outbox == s1.outbox
  {
    Taken(s1, 0, req, st);
    assert OLegal(s1, []) && OAfter(s1, []) == s1;
    OSnoc(s1, [], Whole(FDeliver(0, 0)));
    run := [] + [Whole(FDeliver(0, 0))];
    s := Apply(s1, Deliver(0, 0));
  }

  /** The next call of the execution, the handler succeeding. */
  lemma NextStep(s1: State, run: seq<OEvent>, s: State, req: JobRequest, pc: Pc, st: Status) returns (run': seq<OEvent>, s': State)
    requires LeadsTo(s1, run, s) && Stands(s, 0, req, 0, pc, st) && !st.Cancelled? && !pc.Return? && !pc.Reenqueue?
    requires req.typ == "hello" || req.typ == EMAIL
    ensures LeadsTo(s1, run', s') && Stands(s', 0, req, 0, PcNext(req, pc, true), StatusNext(pc, st)) && s'.calls == s.calls
    ensures s'.outbox == if pc.CompleteEmail? then s.outbox + [OutboxRow(req.job, EMAIL, req.payload, Unsent, s.clock, 0, [])]
                         else s.outbox
  {
    Advances(s, 0, req, 0, pc, st, true);
    OSnoc(s1, run, Whole(FWork(0, true)));
    run' := run + [Whole(FWork(0, true))];
    s' := AfterWork(s, 0, Ok, true);
  }

  lemma ReachesMark(s1: State, req: JobRequest, st: Status) returns (run: seq<OEvent>, s: State)
    requires s1.limit == 0 && s1.paused == map["default" := false] && req.queue == "default"
    requires |s1.log| == 1 && s1.log[0].req == req && s1.taken == {} && s1.nextExec == 0
    requires req.job in s1.jobs && s1.jobs[req.job].status == st && !st.Cancelled?
    requires req.typ == "hello" || req.typ == EMAIL
    ensures LeadsTo(s1, run, s) && Stands(s, 0, req, 0, MarkProcessing, st) && s.calls == s1.calls && s.outbox == s1.outbox
  {
    run, s := TakenIn(s1, req, st);
    run, s := NextStep(s1, run, s, req, GetQueue, st);
    run, s := NextStep(s1, run, s, req, Acquire, st);
    run, s := NextStep(s1, run, s, req, Lookup, st);
  }

  lemma RunsToEnd(s1: State, run0: seq<OEvent>, s0: State, req: JobRequest, st: Status) returns (run: seq<OEvent>, s: State)
    requires LeadsTo(s1, run0, s0) && Stands(s0, 0, req, 0, MarkProcessing, st) && !st.Cancelled? && req.typ == "hello"
    ensures LeadsTo(s1, run, s) && Stands(s, 0, req, 0, Return(true), Completed)
  {
    run, s := NextStep(s1, run0, s0, req, MarkProcessing, st);
    run, s := NextStep(s1, run, s, req, Handle, Processing);
    run, s := NextStep(s1, run, s, req, Complete, Processing);
  }

  // ---- a promotion overtaken by its own message ----

  const DUE := Due(0, SubmitRow(LATER))

  /** The job is due, and a tick has begun. */
  lemma TickBegun() returns (s: State)
    ensures OReachable(s) && s.clock == 5 && |s.calls| == 2 && s.calls[1] == Promote(5, PList) && OnlyScheduled(s)
  {
    s := SubmittedFirst(LATER);
    WholeReachable(s);
    OReachStep(s, Whole(FTick(5)));
    s := Apply(s, Tick(5));
    OReachStep(s, Whole(FBegin(Promote(5, PList))));
    s := Begun(s, Promote(5, PList));
  }

  /** The scheduled job is all there is. */
  ghost predicate OnlyScheduled(s: State) {
    && s.limit == 0 && s.paused == map["default" := false] && s.log == [] && s.taken == {} && s.nextExec == 0
    && s.jobs == map[0 := SubmitRow(LATER)] && s.outbox == []
  }

  lemma ListsDue(s: State)
    requires s.clock == 5 && |s.calls| == 2 && s.calls[1] == Promote(5, PList) && OnlyScheduled(s)
    ensures FEnabled(s, FList(1, [0]))
    ensures var s' := AfterStep(s, 1, Ok, Rows([0]));
            |s'.calls| == 2 && s'.calls[1] == Promote(5, PEnqueue([DUE])) && OnlyScheduled(s')
  {
    assert DueJobs(s.jobs, 5) == map[0 := 5];
    assert Smallest([0], map[0 := 5], PROMOTE_LIMIT);
    assert Snapshot(s.jobs, [0]) == [DUE];
  }

  /** A tick has listed it. */
  lemma ListedDue() returns (s: State)
    ensures OReachable(s) && |s.calls| == 2 && s.calls[1] == Promote(5, PEnqueue([DUE])) && OnlyScheduled(s)
  {
    s := TickBegun();
    ListsDue(s);
    OReachStep(s, Whole(FList(1, [0])));
    s := AfterStep(s, 1, Ok, Rows([0]));
  }

  lemma EnqueuesDue(s: State)
    requires |s.calls| == 2 && s.calls[1] == Promote(5, PEnqueue([DUE])) && OnlyScheduled(s)
    ensures StepEnabled(s, 1, Ok, Nothing)
    ensures var s1 := AfterStep(s, 1, Ok, Nothing);
            && s1.log == [Entry(PromoteMessage(DUE), ByPromoter)] && s1.jobs == s.jobs && s1.limit == 0 && s1.paused == s.paused
            && s1.taken == {} && s1.nextExec == 0
  {
  }

  /** A worker executes its message to the end. */
  lemma DueCompletes(s1: State) returns (run: seq<OEvent>, s: State)
    requires s1.limit == 0 && s1.paused == map["default" := false] && s1.taken == {} && s1.nextExec == 0
    requires s1.log == [Entry(PromoteMessage(DUE), ByPromoter)] && s1.jobs == map[0 := SubmitRow(LATER)]
    ensures LeadsTo(s1, run, s) && 0 in s.jobs && s.jobs[0].status.Completed?
  {
    run, s := ReachesMark(s1, PromoteMessage(DUE), Scheduled);
    run, s := RunsToEnd(s1, run, s, PromoteMessage(DUE), Scheduled);
  }

  /** The promoter enqueues, a worker executes the message to its end, the promoter writes: the job that
      has just been completed is pending, with nothing left to move it. */
  lemma PromotedAfterCompletion() returns (s: State, run: seq<OEvent>)
    ensures OReachable(s) && HasTodo(s, 1) && s.calls[1] == Promote(5, PEnqueue([DUE]))
    ensures OLegal(AfterStep(s, 1, Ok, Nothing), run)
    ensures var s2 := OAfter(AfterStep(s, 1, Ok, Nothing), run);
            0 in s2.jobs && s2.jobs[0].status.Completed? && StepEnabled(s2, 1, Ok, Nothing) &&
            var s' := AfterStep(s2, 1, Ok, Nothing);
            0 in s'.jobs && s'.jobs[0].status.Pending? && TokensOf(s', 0) == {} && !JobOk(s', 0)
  {
    s := ListedDue();
    EnqueuesDue(s);
    var s2;
    run, s2 := DueCompletes(AfterStep(s, 1, Ok, Nothing));
    PromotedMeanwhileExactly(s, 1, run, Ok);
    CompletedInGap(s, 1, run);
    PromoterWritesRow(s2, 1);
    NoTokenLeft(s2, AfterStep(s2, 1, Ok, Nothing), 0);
  }

  lemma PromoterWritesRow(s: State, c: nat)
    requires c < |s.calls| && s.calls[c].Promote? && s.calls[c].ppc.PWrite? && s.calls[c].ppc.todo != []
    ensures StepEnabled(s, c, Ok, Nothing)
    ensures var s' := AfterStep(s, c, Ok, Nothing); s'.log == s.log && s'.taken == s.taken && s'.execs == s.execs
  {
  }

  lemma CompletedInGap(s: State, c: nat, run: seq<OEvent>)
    requires OReachable(s) && HasTodo(s, c) && s.calls[c].Promote? && OLegal(AfterStep(s, c, Ok, Nothing), run)
    ensures var j := s.calls[c].ppc.todo[0].id; var s2 := OAfter(AfterStep(s, c, Ok, Nothing), run);
            && j in s2.jobs && (s2.jobs[j].status.Completed? ==> TokensOf(s2, j) == {})
            && c < |s2.calls| && s2.calls[c].Promote? && s2.calls[c].ppc.PWrite? && s2.calls[c].ppc.todo != []
  {
    var j := s.calls[c].ppc.todo[0].id;
    var s2 := OAfter(AfterStep(s, c, Ok, Nothing), run);
    OInvReachable(s);
    PromotionOpens(s, c);
    PromotionLasts(AfterStep(s, c, Ok, Nothing), run, c, j);
    if s2.jobs[j].status.Completed? { CompletedIdle(s2, j); }
  }

  lemma CompletedIdle(s: State, j: nat)
    requires j in s.jobs && TokensOk(AsPending(s, j)) && s.jobs[j].status.Completed?
    ensures TokensOf(s, j) == {}
  {
    FinishedIdle(AsPending(s, j), j);
  }

  lemma NoTokenLeft(s: State, s': State, j: nat)
    requires TokensOf(s, j) == {} && s'.log == s.log && s'.taken == s.taken && s'.execs == s.execs
    ensures TokensOf(s', j) == {} && !NotYetMarked(s, j)
  {
    TokenOfJob(s, j);
    assert forall i: nat :: LiveMessage(s', i, j) <==> LiveMessage(s, i, j);
    assert forall x: nat :: LiveExec(s', x, j) <==> LiveExec(s, x, j);
  }

  // ---- a cancel that comes after the completion it did not see ----

  const MAIL := SubmitReq(EMAIL, Payload(Some("a"), None), "", 1, 0, "", 0)

  lemma MailIsValid()
    ensures ValidEmailPayload(MAIL.payload)
  {
    assert !IsSpace(MAIL.payload.emailTo.value[0]);
  }

  /** The email is completed, and its outbox row written. */
  lemma Mails(s1: State) returns (run: seq<OEvent>, s: State)
    requires s1.limit == 0 && s1.paused == map["default" := false] && s1.taken == {} && s1.nextExec == 0
    requires s1.log == [Entry(SubmitMessage(MAIL, 0), BySubmit)] && s1.jobs == map[0 := SubmitRow(MAIL)]
    ensures LeadsTo(s1, run, s) && s.calls == s1.calls && 0 in s.jobs && s.jobs[0].status.Completed?
    ensures |s.outbox| == |s1.outbox| + 1
    ensures var row := s.outbox[|s1.outbox|]; row.typ == EMAIL && row.status.Unsent? && row.tries == []
  {
    var req := SubmitMessage(MAIL, 0);
    MailIsValid();
    run, s := ReachesMark(s1, req, Pending);
    run, s := NextStep(s1, run, s, req, MarkProcessing, Pending);
    run, s := NextStep(s1, run, s, req, CompleteEmail, Processing);
  }

  /** A cancel is called for, and looks the row up; the email is completed; the cancel writes. */
  lemma CancelledAfterCompletion() returns (s: State, run: seq<OEvent>)
    ensures OReachable(s) && |s.calls| == 2 && s.calls[1] == Cancel(0, CLookup)
    ensures var s1 := AfterStep(s, 1, Ok, Nothing); s1.calls[1] == Cancel(0, CWrite) && OLegal(s1, run)
    ensures var s2 := OAfter(AfterStep(s, 1, Ok, Nothing), run);
            0 in s2.jobs && s2.jobs[0].status.Completed? && StepEnabled(s2, 1, Ok, Nothing) &&
            var s' := AfterStep(s2, 1, Ok, Nothing);
            IsCancelled(s', 0) && Succeeded(s', 0) && s'.jobs[0].completedAt.None? && !TokensOk(s')
  {
    s := SubmittedFirst(MAIL);
    WholeReachable(s);
    OReachStep(s, Open(Cancel(0, CLookup)));
    s := Begun(s, Cancel(0, CLookup));
    var s1 := AfterStep(s, 1, Ok, Nothing);
    assert s1.calls[1] == Cancel(0, CWrite) && s1.jobs == s.jobs && s1.log == s.log;
    var s2;
    run, s2 := Mails(s1);
    CancelledMeanwhileExactly(s, 1, run, Ok);
    MailRemains(s, 1, run);
  }

  /** A job keeps its type. */
  lemma MailRemains(s: State, c: nat, run: seq<OEvent>)
    requires c < |s.calls| && Looking(s.calls[c]) && 0 in s.jobs && s.jobs[0].typ == EMAIL
    requires OLegal(AfterStep(s, c, Ok, Nothing), run)
    ensures var s2 := OAfter(AfterStep(s, c, Ok, Nothing), run); 0 in s2.jobs && s2.jobs[0].typ == EMAIL
  {
    var s1 := AfterStep(s, c, Ok, Nothing);
    ORunIsRun(s1, run);
    var events :| Legal(s1, events) && After(s1, events) == OAfter(s1, run);
    TypeStays(s1, events, 0);
  }

  lemma {:induction false} TypeStays(s: State, run: seq<Event>, j: nat)
    requires Legal(s, run) && j in s.jobs
    ensures j in After(s, run).jobs && After(s, run).jobs[j].typ == s.jobs[j].typ
    decreases |run|
  {
    if run != [] {
      ApplyExtends(s, run[0]);
      TypeStays(Apply(s, run[0]), run[1..], j);
    }
  }

  // ---- a submit overtaken by the clock ----

  /** The insert comes before run_at, the look at the clock after it: the job is enqueued, and still
      scheduled for the promoter to enqueue again. */
  lemma SubmitOvertakenByClock() returns (s: State)
    ensures OReachable(s) && s.clock == 0 && |s.calls| == 1 && s.calls[0] == Submit(LATER, SCreate) && s.born == []
    ensures StepEnabled(s, 0, Ok, Nothing)
    ensures var s2 := Apply(AfterStep(s, 0, Ok, Nothing), Tick(5));
            StepEnabled(s2, 0, Ok, Nothing) &&
            var s3 := AfterStep(s2, 0, Ok, Nothing);
            StepEnabled(s3, 0, Ok, Nothing) &&
            var s' := AfterStep(s3, 0, Ok, Nothing);
            0 in s'.jobs && s'.jobs[0].status.Scheduled? && |s'.log| == 1 && s'.log[0].req.job == 0 && !JobOk(s', 0)
  {
    FReachInit(0);
    WholeReachable(Init(0, 0));
    OReachStep(Init(0, 0), Open(Submit(LATER, SLookup)));
    SubmitBegins(LATER, 0);
    s := Begun(Init(0, 0), Submit(LATER, SLookup));
    Looks(s, LATER);
    OReachStep(s, Look(0));
    s := AfterStep(s, 0, Ok, Nothing);
    ClockPasses(s);
  }

  lemma ClockPasses(s: State)
    requires Submitting(s, LATER, SCreate) && s.clock == 0
    ensures StepEnabled(s, 0, Ok, Nothing)
    ensures var s2 := Apply(AfterStep(s, 0, Ok, Nothing), Tick(5));
            StepEnabled(s2, 0, Ok, Nothing) &&
            var s3 := AfterStep(s2, 0, Ok, Nothing);
            StepEnabled(s3, 0, Ok, Nothing) &&
            var s' := AfterStep(s3, 0, Ok, Nothing);
            0 in s'.jobs && s'.jobs[0].status.Scheduled? && |s'.log| == 1 && s'.log[0].req.job == 0 && !JobOk(s', 0)
  {
    Creates(s, LATER);
    var s2 := Apply(AfterStep(s, 0, Ok, Nothing), Tick(5));
    Checks(s2, LATER);
    var s3 := AfterStep(s2, 0, Ok, Nothing);
    Enqueues(s3, LATER);
    ScheduledWithMessage(AfterStep(s3, 0, Ok, Nothing));
  }

  lemma ScheduledWithMessage(s: State)
    requires 0 in s.jobs && s.jobs[0].status.Scheduled? && |s.log| == 1 && s.log[0].req.job == 0
    ensures !JobOk(s, 0)
  {
    assert !Settled(s, 0);
  }

  // ---- an outbox row sent twice ----

  /** One unsent row, and `n` batches begun. */
  ghost predicate BatchesBegun(s: State, n: nat) {
    && Reachable(s) && |s.outbox| == 1 && s.outbox[0].typ == EMAIL && s.outbox[0].status.Unsent? && s.outbox[0].tries == []
    && |s.calls| == n + 1 && s.calls[0].Submit? && forall c :: 1 <= c < |s.calls| ==> s.calls[c] == Batch(BList)
  }

  lemma OneUnsent() returns (s: State)
    ensures BatchesBegun(s, 0)
  {
    s := SubmittedFirst(MAIL);
    WholeReachable(s);
    var run, s2 := Mails(s);
    OReachRun(s, run);
    OReachableToo(s2);
    s := s2;
  }

  lemma OneMoreBatch(s: State, n: nat) returns (s': State)
    requires BatchesBegun(s, n)
    ensures BatchesBegun(s', n + 1)
  {
    ReachStep(s, Begin(Batch(BList)));
    s' := Apply(s, Begin(Batch(BList)));
  }

  /** The run leads to `s`, and every call of it goes through. */
  ghost predicate AllThrough(s0: State, run: seq<Event>, s: State) {
    && Legal(s0, run) && After(s0, run) == s && |s.outbox| == 1
    && forall k :: 0 <= k < |run| ==> run[k].Step? && run[k].outcome.Ok?
  }

  lemma Through(s0: State, run: seq<Event>, s: State, c: nat, a: Answer) returns (run': seq<Event>, s': State)
    requires AllThrough(s0, run, s) && StepEnabled(s, c, Ok, a) && |AfterStep(s, c, Ok, a).outbox| == 1
    ensures AllThrough(s0, run', s') && s' == AfterStep(s, c, Ok, a)
  {
    RunSnoc(s0, run, Step(c, Ok, a));
    run' := run + [Step(c, Ok, a)];
    s' := AfterStep(s, c, Ok, a);
  }

  lemma ListsRow(s0: State, run: seq<Event>, s: State, c: nat) returns (run': seq<Event>, s': State)
    requires AllThrough(s0, run, s) && s.outbox[0].status.Unsent? && c < |s.calls| && s.calls[c] == Batch(BList)
    ensures AllThrough(s0, run', s') && s'.outbox == s.outbox && s'.calls == s.calls[c := Batch(BSend([0]))]
  {
    assert UnsentRows(s.outbox) == map[0 := s.outbox[0].createdAt];
    assert Smallest([0], UnsentRows(s.outbox), OUTBOX_LIMIT);
    run', s' := Through(s0, run, s, c, Rows([0]));
  }

  lemma SendsRow(s0: State, run: seq<Event>, s: State, c: nat) returns (run': seq<Event>, s': State)
    requires AllThrough(s0, run, s) && c < |s.calls| && s.calls[c] == Batch(BSend([0]))
    ensures AllThrough(s0, run', s') && s'.outbox == [s.outbox[0].(tries := s.outbox[0].tries + [true])]
    ensures s'.calls == s.calls[c := Batch(BMark([0], true))]
  {
    SendStep(s, c);
    run', s' := Through(s0, run, s, c, Delivered(true));
  }

  lemma MarksRow(s0: State, run: seq<Event>, s: State, c: nat) returns (run': seq<Event>, s': State)
    requires AllThrough(s0, run, s) && c < |s.calls| && s.calls[c] == Batch(BMark([0], true))
    ensures AllThrough(s0, run', s') && s'.outbox == [s.outbox[0].(status := Sent)]
    ensures s'.calls == s.calls[c := Batch(BSend([]))]
  {
    assert [0 as nat][1..] == [];
    run', s' := Through(s0, run, s, c, Nothing);
  }

  lemma NothingYet(s: State)
    requires |s.outbox| == 1
    ensures AllThrough(s, [], s)
  {
  }

  /** The batches of two workers overlap: both list the row, both send it and both mark it, and every call
      goes through. */
  lemma OverlappingBatchesDouble() returns (s0: State, run: seq<Event>)
    ensures Reachable(s0) && |s0.outbox| == 1 && s0.outbox[0].tries == []
    ensures Legal(s0, run) && forall k :: 0 <= k < |run| ==> run[k].Step? && run[k].outcome.Ok?
    ensures var s := After(s0, run); |s.outbox| == 1 && s.outbox[0].tries == [true, true] && s.outbox[0].status.Sent?
  {
    s0 := OneUnsent();
    s0 := OneMoreBatch(s0, 0);
    s0 := OneMoreBatch(s0, 1);
    NothingYet(s0);
    var s := s0;
    run := [];
    run, s := ListsRow(s0, run, s, 1);
    run, s := ListsRow(s0, run, s, 2);
    run, s := SendBoth(s0, run, s);
  }

  lemma SendBoth(s0: State, run0: seq<Event>, s1: State) returns (run: seq<Event>, s: State)
    requires AllThrough(s0, run0, s1) && s1.outbox[0].tries == [] && |s1.calls| == 3
    requires s1.calls[1] == Batch(BSend([0])) && s1.calls[2] == Batch(BSend([0]))
    ensures AllThrough(s0, run, s) && s.outbox[0].tries == [true, true] && s.outbox[0].status.Sent?
  {
    run, s := SendsRow(s0, run0, s1, 1);
    run, s := MarksRow(s0, run, s, 1);
    run, s := SendsRow(s0, run, s, 2);
    run, s := MarksRow(s0, run, s, 2);
  }

  lemma ReachThrough(s0: State, run: seq<Event>, s: State)
    requires Reachable(s0) && AllThrough(s0, run, s)
    ensures Reachable(s)
  {
    var limit: int, clock: int, r0: seq<Event> :| Legal(Init(limit, clock), r0) && After(Init(limit, clock), r0) == s0;
    RunConcat(Init(limit, clock), r0, run);
  }

  /** One batch, about to mark the row it has sent. */
  lemma AboutToMark() returns (s: State)
    ensures Reachable(s) && |s.outbox| == 1 && s.outbox[0].tries == [true] && s.outbox[0].status.Unsent?
    ensures |s.calls| == 2 && s.calls[0].Submit? && s.calls[1] == Batch(BMark([0], true))
  {
    var s0 := OneUnsent();
    s0 := OneMoreBatch(s0, 0);
    NothingYet(s0);
    var run;
    run, s := ListsRow(s0, [], s0, 1);
    run, s := SendsRow(s0, run, s, 1);
    ReachThrough(s0, run, s);
  }

  /** Nobody would send the row again, until marking it fails: then the next batch may. */
  lemma FailedMarkDoubles() returns (s: State)
    ensures Reachable(s) && |s.outbox| == 1 && |s.calls| == 2 && s.calls[1] == Batch(BMark([0], true))
    ensures AttemptedOnceAtMost(s, 0)
    ensures StepEnabled(s, 1, Failure, Nothing) && !AttemptedOnceAtMost(AfterStep(s, 1, Failure, Nothing), 0)
  {
    s := AboutToMark();
    assert IsHead(s.calls[1], 0);
    AttemptedOnceExactly(s, 0);
    MarkFails(s);
  }

  lemma MarkFails(s: State)
    requires Reachable(s) && |s.outbox| == 1 && s.outbox[0].tries == [true] && s.outbox[0].status.Unsent?
    requires |s.calls| == 2 && s.calls[0].Submit? && s.calls[1] == Batch(BMark([0], true))
    ensures StepEnabled(s, 1, Failure, Nothing) && !AttemptedOnceAtMost(AfterStep(s, 1, Failure, Nothing), 0)
  {
    var s' := AfterStep(s, 1, Failure, Nothing);
    ReachStep(s, Step(1, Failure, Nothing));
    assert s'.outbox == s.outbox && s'.calls == s.calls[1 := Batch(BSend([]))] by { assert [0 as nat][1..] == []; }
    assert !Head(s'.calls, 0);
    AttemptedOnceExactly(s', 0);
  }
}
