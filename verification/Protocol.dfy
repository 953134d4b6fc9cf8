/** The job lifecycle as one transition system.

    The state is the four tables, the job.requests log, the executions in flight on every
    worker, the per-type semaphores, and every API call, promoter tick, cron tick and outbox
    batch in progress. One event is one store call, one Kafka call, one handler call or one
    semaphore operation; it names the actor and how the call came out, so `Apply` is a function.
    Any message of the log may be delivered again at any time, and a worker may crash. */
module Protocol {
  import opened Types
  import opened Tables

  // ---- state ----

  /** Who wrote a message to the log. */
  datatype Origin =
    | BySubmit
    | ByReplay
    | ByPromoter
    | ByRetry
    | ByCron(schedule: nat, occurrence: int)

  datatype Entry = Entry(req: JobRequest, origin: Origin)

  /** Where an execution of `process` stands: the call it makes next. `Return(held)` has only
      the deferred release (if it acquired) and the offset commit left. */
  datatype Pc =
    | GetQueue | Acquire | Lookup
    | MarkProcessing | Handle | MarkUnknown | MarkFailed | Reenqueue | Archive | Complete | CompleteEmail
    | Return(held: bool)

  datatype Exec = Exec(worker: nat, offset: nat, pc: Pc)

  datatype SubmitReq = SubmitReq(
    typ: string, payload: Payload, queue: string, maxRetry: int, runAt: int, key: string, priority: int)

  datatype SubmitPc = SLookup | SCreate | SCheck(id: nat) | SEnqueue(id: nat) | SDone(answer: Option<nat>)
  datatype CancelPc = CLookup | CWrite | CDone(ok: bool)
  datatype ReplayPc =
    | RLookup
    | REnqueue(typ: string, payload: Payload, priority: int)
    | RCreate(id: nat, typ: string, payload: Payload, priority: int)
    | RDone(ok: bool)

  /** A row of the promoter's snapshot. */
  datatype Due = Due(id: nat, row: Job)
  datatype PromotePc = PList | PEnqueue(todo: seq<Due>) | PWrite(todo: seq<Due>)

  /** A row of a cron tick's snapshot. */
  datatype DueCron = DueCron(id: nat, row: Schedule)
  datatype CronPc = TList | TCreate(todo: seq<DueCron>) | TEnqueue(todo: seq<DueCron>, job: nat) | TUpdate(todo: seq<DueCron>)

  /** An outbox batch: rows still to send, and the outcome of the send just made. */
  datatype BatchPc = BList | BSend(todo: seq<nat>) | BMark(todo: seq<nat>, sent: bool)

  datatype Call =
    | Submit(req: SubmitReq, spc: SubmitPc)
    | Cancel(job: nat, cpc: CancelPc)
    | Replay(job: nat, queue: string, rpc: ReplayPc)
    | Promote(now: int, ppc: PromotePc)
    | Cron(now: int, tpc: CronPc)
    | Batch(bpc: BatchPc)

  /** The immutable attributes of an allocated job id, and the call that allocated it. */
  datatype Birth = Birth(
    typ: string, payload: Payload, runAt: int, key: string, queue: string, priority: int, call: nat)

  datatype State = State(
    clock: int,
    limit: int,                        // WORKER_MAX_CONCURRENT_PER_TYPE; not positive: no limiter
    born: seq<Birth>,                  // every id ever allocated
    jobs: map<nat, Job>,
    outbox: seq<OutboxRow>,
    paused: map<string, bool>,         // table queues
    schedules: map<nat, Schedule>,
    nextSchedule: nat,
    log: seq<Entry>,                   // job.requests
    taken: set<nat>,                   // offsets delivered at least once
    execs: map<nat, Exec>,
    nextExec: nat,
    sem: map<(nat, string), int>,      // channel length per worker and type
    calls: seq<Call>,                  // every call ever begun
    outcomes: map<nat, seq<bool>>)     // per job: the outcome of every handler (or email validation) run

  /** An empty system; schema.sql puts the default queue in the queues table. */
  function Init(limit: int, clock: int): State {
    State(clock, limit, [], map[], [], map["default" := false], map[], 0, [], {}, map[], 0, map[], [], map[])
  }

  function Outcomes(s: State, j: nat): seq<bool> {
    if j in s.outcomes then s.outcomes[j] else []
  }

  function Held(s: State, w: nat, typ: string): int {
    if (w, typ) in s.sem then s.sem[(w, typ)] else 0
  }

  function ReqOf(s: State, x: nat): JobRequest
    requires x in s.execs && s.execs[x].offset < |s.log|
  {
    s.log[s.execs[x].offset].req
  }

  predicate Holding(pc: Pc) {
    !pc.GetQueue? && !pc.Acquire? && (pc.Return? ==> pc.held)
  }

  // ---- events ----

  /** What a call brings back besides its outcome. */
  datatype Answer = Nothing | Rows(ids: seq<nat>) | NextAt(time: int) | Delivered(ok: bool)

  datatype Event =
    | Tick(seconds: nat)
    | Pause(queue: string, paused: bool)
    | AddSchedule(row: Schedule)
    | DropSchedule(id: nat)
    | Deliver(offset: nat, worker: nat)
    | Work(exec: nat, outcome: Outcome, success: bool)
    | Crash(worker: nat)
    | Begin(call: Call)
    | Step(id: nat, outcome: Outcome, answer: Answer)

  // ---- operations on the tables and the log ----

  /** The one call an event makes outside its own actor. `Select` stands for every call that
      changes nothing there. */
  datatype Op =
    | Select
    | UpdateStatus(id: nat, status: Status, attempt: int, completedAt: Option<int>)
    | CompleteWithOutbox(id: nat, attempt: int, at: int, row: OutboxRow)
    | Insert(id: nat, job: Job)
    | SetNextRun(schedule: nat, time: int)
    | Enqueue(entry: Entry)
    | Send(index: nat, sent: bool)
    | MarkOutbox(index: nat, outboxStatus: OutboxStatus)

  function JobsAfter(jobs: map<nat, Job>, op: Op): map<nat, Job> {
    match op
    case UpdateStatus(id, status, attempt, completedAt) => SetStatus(jobs, id, status, attempt, completedAt)
    case CompleteWithOutbox(id, attempt, at, _) => SetStatus(jobs, id, Completed, attempt, Some(at))
    case Insert(id, row) => if Insertable(jobs, id, row) then jobs[id := row] else jobs
    case _ => jobs
  }

  function OutboxAfter(outbox: seq<OutboxRow>, op: Op): seq<OutboxRow> {
    match op
    case CompleteWithOutbox(_, _, _, row) => outbox + [row]
    case Send(i, sent) => if i < |outbox| then outbox[i := outbox[i].(tries := outbox[i].tries + [sent])] else outbox
    case MarkOutbox(i, status) => if i < |outbox| then outbox[i := outbox[i].(status := status)] else outbox
    case _ => outbox
  }

  function SchedulesAfter(schedules: map<nat, Schedule>, op: Op): map<nat, Schedule> {
    if op.SetNextRun? && op.schedule in schedules
    then schedules[op.schedule := schedules[op.schedule].(nextRun := op.time)] else schedules
  }

  function LogAfter(log: seq<Entry>, op: Op): seq<Entry> {
    if op.Enqueue? then log + [op.entry] else log
  }

  ghost function Perform(s: State, op: Op): State {
    s.(jobs := JobsAfter(s.jobs, op), outbox := OutboxAfter(s.outbox, op),
       schedules := SchedulesAfter(s.schedules, op), log := LogAfter(s.log, op))
  }

  /** A call that fails has no effect. */
  function Effective(op: Op, o: Outcome): Op {
    if Applied(o) then op else Select
  }

  // ---- the worker: one call of `process` per event ----

  ghost predicate WorkEnabled(s: State, x: nat, success: bool) {
    x in s.execs && s.execs[x].offset < |s.log| &&
    (s.execs[x].pc.Acquire? && s.limit > 0 ==> Held(s, s.execs[x].worker, ReqOf(s, x).typ) < s.limit) &&
    (s.execs[x].pc.Handle? ==> HandlerMay(ReqOf(s, x).typ, ReqOf(s, x).payload, ReqOf(s, x).attempt, success))
  }

  /** The write an execution makes at a program counter. */
  function WorkOp(req: JobRequest, pc: Pc, clock: int, x: nat): Op {
    match pc
    case MarkProcessing => UpdateStatus(req.job, Processing, req.attempt, None)
    case MarkUnknown => UpdateStatus(req.job, Failed, req.attempt, None)
    case MarkFailed => UpdateStatus(req.job, Failed, Inc32(req.attempt), None)
    case Reenqueue => Enqueue(Entry(RetryRequest(req), ByRetry))
    case Archive => UpdateStatus(req.job, Archived, Inc32(req.attempt), None)
    case Complete => UpdateStatus(req.job, Completed, req.attempt, Some(clock))
    case CompleteEmail =>
      CompleteWithOutbox(req.job, req.attempt, clock, OutboxRow(req.job, EMAIL, req.payload, Unsent, clock, x, []))
    case _ => Select
  }

  predicate IsPaused(s: State, queue: string) {
    var q := QueueName(queue);
    q in s.paused && s.paused[q]
  }

  predicate IsCancelled(s: State, j: nat) {
    j in s.jobs && s.jobs[j].status.Cancelled?
  }

  /** Where control goes. Only `GetQueue`, `GetByID` and the outbox transaction have their error
      looked at; a failed attempt is retried while the new attempt is within max_retry. */
  function WorkNext(s: State, req: JobRequest, pc: Pc, o: Outcome, success: bool): Pc {
    match pc
    case GetQueue => if o.Ok? && !IsPaused(s, req.queue) then Acquire else Return(false)
    case Acquire => Lookup
    case Lookup => if o.Ok? && !IsCancelled(s, req.job) then MarkProcessing else Return(true)
    case MarkProcessing =>
      if req.typ == EMAIL then (if ValidEmailPayload(req.payload) then CompleteEmail else MarkFailed)
      else if Registered(req.typ) then Handle
      else MarkUnknown
    case Handle => if success then Complete else MarkFailed
    case MarkFailed => if Inc32(req.attempt) <= MaxRetry(req) then Reenqueue else Archive
    case _ => Return(true)
  }

  /** Acquire puts a token in the channel of the type; the deferred release takes one out. */
  function WorkSem(s: State, e: Exec, typ: string): map<(nat, string), int> {
    if s.limit > 0 && (e.pc.Acquire? || e.pc == Return(true))
    then s.sem[(e.worker, typ) := Held(s, e.worker, typ) + if e.pc.Acquire? then 1 else -1]
    else s.sem
  }

  /** The outcome of an attempt is known when the handler returns, or when an email validates. */
  function WorkOutcomes(s: State, req: JobRequest, pc: Pc, success: bool): map<nat, seq<bool>> {
    if pc.Handle? then s.outcomes[req.job := Outcomes(s, req.job) + [success]]
    else if pc.MarkProcessing? && req.typ == EMAIL then s.outcomes[req.job := Outcomes(s, req.job) + [ValidEmailPayload(req.payload)]]
    else s.outcomes
  }

  ghost function AfterWork(s: State, x: nat, o: Outcome, success: bool): State
    requires x in s.execs && s.execs[x].offset < |s.log|
  {
    var e := s.execs[x];
    var req := ReqOf(s, x);
    Perform(s, Effective(WorkOp(req, e.pc, s.clock, x), o)).(
      execs := if e.pc.Return? then s.execs - {x} else s.execs[x := e.(pc := WorkNext(s, req, e.pc, o, success))],
      sem := WorkSem(s, e, req.typ),
      outcomes := WorkOutcomes(s, req, e.pc, success))
  }

  /** A worker process dies with its executions and its semaphores. */
  function AfterCrash(s: State, w: nat): State {
    s.(execs := map x | x in s.execs && s.execs[x].worker != w :: s.execs[x],
       sem := map k | k in s.sem && k.0 != w :: s.sem[k])
  }

  // ---- API calls, promoter, cron and outbox batches: one store or Kafka call per event ----

  function BirthOf(r: SubmitReq, c: nat): Birth {
    Birth(r.typ, r.payload, Max(r.runAt, 0), r.key, QueueName(r.queue), r.priority, c)
  }

  function SubmitRow(r: SubmitReq): Job {
    NewJob(r.typ, r.payload, QueueName(r.queue), if r.runAt > 0 then Scheduled else Pending, r.runAt, r.key, r.priority)
  }

  function SubmitMessage(r: SubmitReq, id: nat): JobRequest {
    MakeRequest(id, r.typ, r.payload, QueueName(r.queue), r.maxRetry, r.runAt, 0, r.priority)
  }

  ghost predicate KeyTaken(jobs: map<nat, Job>, row: Job) {
    exists j :: j in jobs && SameKey(jobs[j], row)
  }

  /** The row the idempotency lookup finds. */
  ghost function KeyOwner(jobs: map<nat, Job>, row: Job): (j: nat)
    requires KeyTaken(jobs, row)
    ensures j in jobs && SameKey(jobs[j], row)
  {
    var j :| j in jobs && SameKey(jobs[j], row);
    j
  }

  function ReplayRow(queue: string, typ: string, payload: Payload, priority: int): Job {
    NewJob(typ, payload, QueueName(queue), Pending, 0, "", priority)
  }

  function PromoteMessage(d: Due): JobRequest {
    MakeRequest(d.id, d.row.typ, d.row.payload, d.row.queue, 2, 0, 0, d.row.priority)
  }

  function CronRow(d: DueCron): Job {
    NewJob(d.row.typ, d.row.payload, d.row.queue, Pending, 0, "", 0)
  }

  function CronMessage(d: DueCron, id: nat): JobRequest {
    MakeRequest(id, d.row.typ, d.row.payload, d.row.queue, d.row.maxRetry, 0, 0, 0)
  }

  predicate DueIds(jobs: map<nat, Job>, ids: seq<nat>) {
    forall i :: 0 <= i < |ids| ==> ids[i] in jobs
  }

  function Snapshot(jobs: map<nat, Job>, ids: seq<nat>): seq<Due>
    requires DueIds(jobs, ids)
  {
    seq(|ids|, i requires 0 <= i < |ids| => Due(ids[i], jobs[ids[i]]))
  }

  predicate CronIds(schedules: map<nat, Schedule>, ids: seq<nat>) {
    forall i :: 0 <= i < |ids| ==> ids[i] in schedules
  }

  function CronSnapshot(schedules: map<nat, Schedule>, ids: seq<nat>): seq<DueCron>
    requires CronIds(schedules, ids)
  {
    seq(|ids|, i requires 0 <= i < |ids| => DueCron(ids[i], schedules[ids[i]]))
  }

  /** Only rows that are there can be listed; a batch list needs a matching answer, the cron
      update needs a next run, and a delivery attempt needs its outcome. */
  ghost predicate StepEnabled(s: State, c: nat, o: Outcome, a: Answer) {
    c < |s.calls| &&
    match s.calls[c]
    case Submit(_, pc) => !pc.SDone?
    case Cancel(_, pc) => !pc.CDone?
    case Replay(_, _, pc) => !pc.RDone?
    case Promote(now, PList) =>
      o.Ok? ==> a.Rows? && DueIds(s.jobs, a.ids) && Smallest(a.ids, DueJobs(s.jobs, now), PROMOTE_LIMIT)
    case Promote(_, PEnqueue(todo)) => todo != []
    case Promote(_, PWrite(todo)) => todo != []
    case Cron(now, TList) =>
      o.Ok? ==> a.Rows? && CronIds(s.schedules, a.ids) && Smallest(a.ids, DueSchedules(s.schedules, now), SCHEDULE_LIMIT)
    case Cron(_, TCreate(todo)) => todo != []
    case Cron(_, TEnqueue(todo, _)) => todo != []
    case Cron(_, TUpdate(todo)) => todo != [] && a.NextAt?
    case Batch(BList) => o.Ok? ==> a.Rows? && Smallest(a.ids, UnsentRows(s.outbox), OUTBOX_LIMIT)
    case Batch(BSend(todo)) => todo != [] && o.Ok? && a.Delivered?
    case Batch(BMark(todo, _)) => todo != []
  }

  /** The id a call allocates at its next statement, if any. */
  function CallBirths(call: Call, c: nat): seq<Birth> {
    match call
    case Submit(r, SCreate) => [BirthOf(r, c)]
    case Replay(_, q, REnqueue(typ, payload, priority)) => [Birth(typ, payload, 0, "", QueueName(q), priority, c)]
    case Cron(_, TCreate(todo)) =>
      if todo == [] then [] else [Birth(todo[0].row.typ, todo[0].row.payload, 0, "", todo[0].row.queue, 0, c)]
    case _ => []
  }

  /** The write a call makes at its next statement; `newId` is the id it allocates. */
  function CallOp(call: Call, newId: nat, outbox: seq<OutboxRow>, a: Answer): Op {
    match call
    case Submit(r, SCreate) => Insert(newId, SubmitRow(r))
    case Submit(r, SEnqueue(id)) => Enqueue(Entry(SubmitMessage(r, id), BySubmit))
    case Cancel(j, CWrite) => UpdateStatus(j, Cancelled, 0, None)
    case Replay(_, q, REnqueue(typ, payload, priority)) =>
      Enqueue(Entry(MakeRequest(newId, typ, payload, QueueName(q), 0, 0, 0, priority), ByReplay))
    case Replay(_, q, RCreate(id, typ, payload, priority)) => Insert(id, ReplayRow(q, typ, payload, priority))
    case Promote(_, PEnqueue(todo)) => if todo == [] then Select else Enqueue(Entry(PromoteMessage(todo[0]), ByPromoter))
    case Promote(_, PWrite(todo)) => if todo == [] then Select else UpdateStatus(todo[0].id, Pending, todo[0].row.attempt, None)
    case Cron(_, TCreate(todo)) => if todo == [] then Select else Insert(newId, CronRow(todo[0]))
    case Cron(_, TEnqueue(todo, id)) =>
      if todo == [] then Select else Enqueue(Entry(CronMessage(todo[0], id), ByCron(todo[0].id, todo[0].row.nextRun)))
    case Cron(_, TUpdate(todo)) => if todo == [] || !a.NextAt? then Select else SetNextRun(todo[0].id, a.time)
    case Batch(BSend(todo)) => if todo == [] then Select else Send(todo[0], SendOutcome(outbox, todo[0], a))
    case Batch(BMark(todo, sent)) => if todo == [] then Select else MarkOutbox(todo[0], if sent then Sent else SendFailed)
    case _ => Select
  }

  /** Only a row of a known type goes through a handler that can fail. */
  predicate SendOutcome(outbox: seq<OutboxRow>, i: nat, a: Answer) {
    i < |outbox| && outbox[i].typ == EMAIL && a.Delivered? ==> a.ok
  }

  ghost function SubmitNext(s: State, r: SubmitReq, pc: SubmitPc, o: Outcome): SubmitPc {
    match pc
    case SLookup =>
      if r.typ == "" then SDone(None)
      else if r.key == "" then SCreate
      else if !o.Ok? then SDone(None)
      else if KeyTaken(s.jobs, SubmitRow(r)) then SDone(Some(KeyOwner(s.jobs, SubmitRow(r))))
      else SCreate
    case SCreate => if o.Ok? && Insertable(s.jobs, |s.born|, SubmitRow(r)) then SCheck(|s.born|) else SDone(None)
    case SCheck(id) => if r.runAt > 0 && r.runAt > s.clock then SDone(Some(id)) else SEnqueue(id)
    case SEnqueue(id) => SDone(if o.Ok? then Some(id) else None)
    case SDone(_) => pc
  }

  function CancelNext(s: State, j: nat, pc: CancelPc, o: Outcome): CancelPc {
    match pc
    case CLookup =>
      if o.Ok? && j in s.jobs && !s.jobs[j].status.Completed? && !s.jobs[j].status.Processing? then CWrite else CDone(false)
    case CWrite => CDone(o.Ok?)
    case CDone(_) => pc
  }

  ghost function ReplayNext(s: State, j: nat, queue: string, pc: ReplayPc, o: Outcome): ReplayPc {
    match pc
    case RLookup =>
      if o.Ok? && j in s.jobs && s.jobs[j].status.Archived?
      then REnqueue(s.jobs[j].typ, s.jobs[j].payload, s.jobs[j].priority) else RDone(false)
    case REnqueue(typ, payload, priority) => if o.Ok? then RCreate(|s.born|, typ, payload, priority) else RDone(false)
    case RCreate(id, typ, payload, priority) => RDone(o.Ok? && Insertable(s.jobs, id, ReplayRow(queue, typ, payload, priority)))
    case RDone(_) => pc
  }

  function PromoteNext(s: State, pc: PromotePc, o: Outcome, a: Answer): PromotePc
    requires pc.PList? && o.Ok? ==> a.Rows? && DueIds(s.jobs, a.ids)
  {
    match pc
    case PList => PEnqueue(if o.Ok? then Snapshot(s.jobs, a.ids) else [])
    case PEnqueue(todo) => if todo == [] then pc else if o.Ok? then PWrite(todo) else PEnqueue(todo[1..])
    case PWrite(todo) => if todo == [] then pc else PEnqueue(todo[1..])
  }

  ghost function CronNext(s: State, pc: CronPc, o: Outcome, a: Answer): CronPc
    requires pc.TList? && o.Ok? ==> a.Rows? && CronIds(s.schedules, a.ids)
  {
    match pc
    case TList => TCreate(if o.Ok? then CronSnapshot(s.schedules, a.ids) else [])
    case TCreate(todo) =>
      if todo == [] then pc
      else if o.Ok? && Insertable(s.jobs, |s.born|, CronRow(todo[0])) then TEnqueue(todo, |s.born|)
      else TCreate(todo[1..])
    case TEnqueue(todo, _) => if todo == [] then pc else if o.Ok? then TUpdate(todo) else TCreate(todo[1..])
    case TUpdate(todo) => if todo == [] then pc else TCreate(todo[1..])
  }

  function BatchNext(outbox: seq<OutboxRow>, pc: BatchPc, o: Outcome, a: Answer): BatchPc {
    match pc
    case BList => BSend(if o.Ok? && a.Rows? then a.ids else [])
    case BSend(todo) => if todo == [] then pc else BMark(todo, SendOutcome(outbox, todo[0], a))
    case BMark(todo, _) => if todo == [] then pc else BSend(todo[1..])
  }

  ghost function CallNext(s: State, c: nat, o: Outcome, a: Answer): Call
    requires StepEnabled(s, c, o, a)
  {
    match s.calls[c]
    case Submit(r, pc) => Submit(r, SubmitNext(s, r, pc, o))
    case Cancel(j, pc) => Cancel(j, CancelNext(s, j, pc, o))
    case Replay(j, q, pc) => Replay(j, q, ReplayNext(s, j, q, pc, o))
    case Promote(now, pc) => Promote(now, PromoteNext(s, pc, o, a))
    case Cron(now, pc) => Cron(now, CronNext(s, pc, o, a))
    case Batch(pc) => Batch(BatchNext(s.outbox, pc, o, a))
  }

  ghost function AfterStep(s: State, c: nat, o: Outcome, a: Answer): State
    requires StepEnabled(s, c, o, a)
  {
    Perform(s, Effective(CallOp(s.calls[c], |s.born|, s.outbox, a), o)).(
      born := s.born + CallBirths(s.calls[c], c),
      calls := s.calls[c := CallNext(s, c, o, a)])
  }

  function Begun(s: State, call: Call): State {
    s.(calls := s.calls + [call])
  }

  /** Calls start at their first statement; ticks read the clock first. */
  predicate Fresh(s: State, call: Call) {
    match call
    case Submit(_, pc) => pc.SLookup?
    case Cancel(_, pc) => pc.CLookup?
    case Replay(_, _, pc) => pc.RLookup?
    case Promote(now, pc) => now == s.clock && pc.PList?
    case Cron(now, pc) => now == s.clock && pc.TList?
    case Batch(pc) => pc.BList?
  }

  ghost predicate Enabled(s: State, e: Event) {
    match e
    case Tick(_) => true
    case Pause(_, _) => true
    case AddSchedule(row) => row.first == row.nextRun
    case DropSchedule(_) => true
    case Deliver(i, _) => i < |s.log|
    case Work(x, _, success) => WorkEnabled(s, x, success)
    case Crash(_) => true
    case Begin(call) => Fresh(s, call)
    case Step(c, o, a) => StepEnabled(s, c, o, a)
  }

  ghost function Apply(s: State, e: Event): State
    requires Enabled(s, e)
  {
    match e
    case Tick(d) => s.(clock := s.clock + d)
    case Pause(q, paused) => s.(paused := s.paused[q := paused])
    case AddSchedule(row) => s.(schedules := s.schedules[s.nextSchedule := row], nextSchedule := s.nextSchedule + 1)
    case DropSchedule(id) => s.(schedules := s.schedules - {id})
    case Deliver(i, w) =>
      s.(taken := s.taken + {i}, execs := s.execs[s.nextExec := Exec(w, i, GetQueue)], nextExec := s.nextExec + 1)
    case Work(x, o, success) => AfterWork(s, x, o, success)
    case Crash(w) => AfterCrash(s, w)
    case Begin(call) => Begun(s, call)
    case Step(c, o, a) => AfterStep(s, c, o, a)
  }

  // ---- runs ----

  ghost predicate Legal(s: State, run: seq<Event>)
    decreases |run|
  {
    run != [] ==> Enabled(s, run[0]) && Legal(Apply(s, run[0]), run[1..])
  }

  ghost function After(s: State, run: seq<Event>): State
    requires Legal(s, run)
    decreases |run|
  {
    if run == [] then s else After(Apply(s, run[0]), run[1..])
  }

  ghost predicate Reachable(s: State) {
    exists limit: int, clock: int, run: seq<Event> {:trigger Legal(Init(limit, clock), run)} ::
      Legal(Init(limit, clock), run) && After(Init(limit, clock), run) == s
  }

  lemma {:induction false} RunConcat(s: State, a: seq<Event>, b: seq<Event>)
    requires Legal(s, a) && Legal(After(s, a), b)
    ensures Legal(s, a + b) && After(s, a + b) == After(After(s, a), b)
    decreases |a|
  {
    if a == [] {
      assert a + b == b;
    } else {
      assert (a + b)[0] == a[0] && (a + b)[1..] == a[1..] + b;
      RunConcat(Apply(s, a[0]), a[1..], b);
    }
  }

  lemma RunSnoc(s: State, a: seq<Event>, e: Event)
    requires Legal(s, a) && Enabled(After(s, a), e)
    ensures Legal(s, a + [e]) && After(s, a + [e]) == Apply(After(s, a), e)
  {
    var s1 := After(s, a);
    var s2 := Apply(s1, e);
    assert Legal(s2, []) && After(s2, []) == s2;
    assert [e][1..] == [];
    assert Legal(s1, [e]) && After(s1, [e]) == s2;
    RunConcat(s, a, [e]);
  }
}
