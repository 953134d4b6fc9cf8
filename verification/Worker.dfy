/** The worker: the per-type limiter, and `process` as the code runs it when nothing comes between
    its statements, which is proved to be a run of the protocol. */
module Worker {
  import opened Types
  import opened Tables
  import opened Protocol
  import opened Submission
  import opened Driving
  import opened PostgresStore
  import opened JobProducer

  /** Channel-based semaphores, one per type, made on first use; a channel is its length. */
  class ConcurrencyLimiter {
    const limit: int
    var chs: map<string, int>

    constructor (perTypeLimit: int)
      ensures limit == perTypeLimit && chs == map[]
    {
      limit := perTypeLimit;
      chs := map[];
    }

    function Len(typ: string): int
      reads this
    {
      if typ in chs then chs[typ] else 0
    }

    /** A channel holds no more than its capacity. */
    ghost predicate Valid()
      reads this
    {
      forall typ :: 0 <= Len(typ) && (typ in chs ==> Len(typ) <= limit)
    }

    method GetCh(typ: string)
      modifies this
      ensures typ in chs && chs == old(chs)[typ := old(Len(typ))] && forall t :: Len(t) == old(Len(t))
    {
      if typ !in chs {
        chs := chs[typ := 0];
      }
    }

    /** Sends into the channel if there is room; on a full channel the caller waits, and nothing has
        happened yet. */
    method Acquire(typ: string) returns (entered: bool)
      requires Valid() && limit > 0
      modifies this
      ensures Valid() && entered == (old(Len(typ)) < limit)
      ensures forall t :: Len(t) == old(Len(t)) + if entered && t == typ then 1 else 0
    {
      GetCh(typ);
      entered := chs[typ] < limit;
      if entered {
        chs := chs[typ := chs[typ] + 1];
      }
    }

    /** Receives from the channel; on an empty one the caller would wait. */
    method Release(typ: string)
      requires Valid() && limit > 0 && Len(typ) >= 1
      modifies this
      ensures Valid() && forall t :: Len(t) == old(Len(t)) - if t == typ then 1 else 0
    {
      GetCh(typ);
      chs := chs[typ := chs[typ] - 1];
    }
  }

  /** What becomes of a call of `process`: it returns, with an error or without, or it waits for the
      channel of its type. */
  datatype Exit = Returned(ok: bool) | Waits

  /** How the calls of one execution come out, in the order `process` makes them. */
  datatype Env = Env(
    getQueue: Outcome, getByID: Outcome, markProcessing: Outcome, complete: Outcome, outboxTx: TxOutcome,
    markUnknown: Outcome, handled: bool, markFailed: Outcome, enqueue: Outcome, archive: Outcome)

  // ---- what `process` does, written out ----

  /** The tables and the log it writes. */
  datatype Ledger = Ledger(jobs: map<nat, Job>, outbox: seq<OutboxRow>, log: seq<Entry>)

  /** The rows once a status write is over: the row of the job, if there is one and the write took
      effect, says so; no other has changed. */
  function Written(jobs: map<nat, Job>, j: nat, status: Status, attempt: int, completedAt: Option<int>, o: Outcome): map<nat, Job> {
    if o.Failure? || j !in jobs then jobs
    else jobs[j := jobs[j].(status := status, attempt := attempt, completedAt := completedAt)]
  }

  /** A retry repeats the message with attempt `n`, unless it cannot be sent. */
  predicate RetrySent(log: seq<Entry>, log': seq<Entry>, req: JobRequest, n: int, o: Outcome) {
    if o.Failure? then log' == log
    else |log'| == |log| + 1 && log'[..|log|] == log && RetryMessage(log'[|log|], req, n)
  }

  predicate RetryMessage(m: Entry, req: JobRequest, n: int) {
    && m.origin == ByRetry && m.req.job == req.job && m.req.typ == req.typ && m.req.payload == req.payload
    && m.req.queue == req.queue && m.req.attempt == n && PriorityOf(m.req) == PriorityOf(req) && Budget(m.req) == Budget(req)
  }

  /** A failed attempt: the row is to show the next one, and a message goes out for it while it is
      within max_retry; otherwise the job is archived. No error keeps the rest from being tried. */
  predicate FailedAttempt(a: Ledger, b: Ledger, req: JobRequest, env: Env) {
    var n := if req.attempt == 0x7fff_ffff then -0x8000_0000 else req.attempt + 1;
    var maxRetry := if req.options.Some? then req.options.value.maxRetry else 0;
    RetriedOrArchived(a.(jobs := Written(a.jobs, req.job, Failed, n, None, env.markFailed)), b, req, n, maxRetry, env)
  }

  predicate RetriedOrArchived(a: Ledger, b: Ledger, req: JobRequest, n: int, maxRetry: int, env: Env) {
    && b.outbox == a.outbox
    && if n <= maxRetry
       then b.jobs == a.jobs && RetrySent(a.log, b.log, req, n, env.enqueue)
       else b.jobs == Written(a.jobs, req.job, Archived, n, None, env.archive) && b.log == a.log
  }

  lemma ThenRetriedOrArchived(a: Ledger, failed: Ledger, b: Ledger, req: JobRequest, env: Env)
    requires failed == a.(jobs := Written(a.jobs, req.job, Failed, Inc32(req.attempt), None, env.markFailed))
    requires RetriedOrArchived(failed, b, req, Inc32(req.attempt), MaxRetry(req), env)
    ensures FailedAttempt(a, b, req, env)
  {
  }

  /** One attempt at a job: its row is to show it, and then comes the work. */
  predicate Attempted(a: Ledger, b: Ledger, req: JobRequest, x: nat, env: Env, now: int) {
    WorkedOn(a.(jobs := Written(a.jobs, req.job, Processing, req.attempt, None, env.markProcessing)), b, req, x, env, now)
  }

  /** A valid email is completed together with its outbox row, or neither is written; a type no
      handler is registered for is failed for good; a handler that succeeds completes the job; and
      anything else is a failed attempt. */
  predicate WorkedOn(a: Ledger, b: Ledger, req: JobRequest, x: nat, env: Env, now: int) {
    if req.typ == "email" && ValidEmailPayload(req.payload) then
      if env.outboxTx.Committed? || env.outboxTx.CommitReplyLost? then
        && b.jobs == Written(a.jobs, req.job, Completed, req.attempt, Some(now), Ok) && b.log == a.log
        && b.outbox == a.outbox + [OutboxRow(req.job, "email", req.payload, Unsent, now, x, [])]
      else b == a
    else if req.typ !in {"hello", "email", "image", "invoice", "report", "sleep"} then
      b == a.(jobs := Written(a.jobs, req.job, Failed, req.attempt, None, env.markUnknown))
    else if req.typ != "email" && env.handled then
      b == a.(jobs := Written(a.jobs, req.job, Completed, req.attempt, Some(now), env.complete))
    else FailedAttempt(a, b, req, env)
  }

  /** An execution that holds its channel: nothing for a job that cannot be looked up or is cancelled. */
  predicate Executed(a: Ledger, b: Ledger, req: JobRequest, x: nat, env: Env, now: int) {
    if !env.getByID.Ok? || (req.job in a.jobs && a.jobs[req.job].status == Cancelled) then b == a
    else Attempted(a, b, req, x, env, now)
  }

  /** Whether `process` returns without error once it holds the channel: the lookup and the outbox transaction
      of a valid email have theirs looked at, no other call has. */
  predicate Succeeds(jobs: map<nat, Job>, req: JobRequest, env: Env) {
    env.getByID.Ok? &&
    ((req.job in jobs && jobs[req.job].status == Cancelled)
       || req.typ != "email" || !ValidEmailPayload(req.payload) || env.outboxTx.Committed?)
  }

  /** From the channel on: on a full one it waits, and nothing has happened. */
  predicate RunHeld(a: Ledger, b: Ledger, full: bool, exit: Exit, req: JobRequest, x: nat, env: Env, now: int) {
    if full then exit == Waits && b == a
    else exit == Returned(Succeeds(a.jobs, req, env)) && Executed(a, b, req, x, env, now)
  }

  /** `process` as a whole: a queue that cannot be asked for is an error, and a paused one drops the message. */
  predicate Processed(a: Ledger, b: Ledger, queues: map<string, bool>, full: bool, exit: Exit, req: JobRequest, x: nat, env: Env,
                      now: int) {
    if !env.getQueue.Ok? then exit == Returned(false) && b == a
    else if QueuePaused(queues, req) then exit == Returned(true) && b == a
    else RunHeld(a, b, full, exit, req, x, env, now)
  }

  /** The queue of the message is paused. */
  predicate QueuePaused(queues: map<string, bool>, req: JobRequest) {
    var queue := if req.queue == "" then "default" else req.queue;
    queue in queues && queues[queue]
  }

  class Worker {
    const id: nat
    const store: Store
    const producer: Producer
    const limiter: ConcurrencyLimiter?

    constructor (id: nat, store: Store, producer: Producer, limiter: ConcurrencyLimiter?)
      ensures this.id == id && this.store == store && this.producer == producer && this.limiter == limiter
    {
      this.id := id;
      this.store := store;
      this.producer := producer;
      this.limiter := limiter;
    }

    /** The tables and the log are those of the protocol state. */
    ghost predicate Shows(s: State)
      reads store, producer
    {
      store.Shows(s) && producer.log == s.log
    }

    ghost function Now(): Ledger
      reads store, producer
    {
      Ledger(store.jobs, store.outbox, producer.log)
    }

    /** And so are this worker's channels. */
    ghost predicate LimiterShows(s: State)
      reads limiter
    {
      && (limiter != null <==> s.limit > 0)
      && (limiter != null ==> limiter.Valid() && limiter.limit == s.limit && forall typ :: limiter.Len(typ) == Held(s, id, typ))
    }

    /** A run has led from `s0` to `s`, which shows in the tables, with `x` executing `req` here. */
    ghost predicate Ready(s0: State, run: seq<Event>, s: State, x: nat, req: JobRequest, env: Env)
      reads store, producer
    {
      && Shows(s) && Runs(s0, run, s) && Obeys(s0, run, x, env) && HandlerMay(req.typ, req.payload, req.attempt, env.handled)
      && x in s.execs && s.execs[x].worker == id && s.execs[x].offset < |s.log| && ReqOf(s, x) == req
    }

    /** One status write of an execution. */
    method Write(req: JobRequest, x: nat, status: Status, attempt: int, completedAt: Option<int>, env: Env, o: Outcome,
                 ghost s0: State, ghost run0: seq<Event>, ghost s1: State)
      returns (ghost run: seq<Event>, ghost s: State)
      requires Ready(s0, run0, s1, x, req, env) && o == OutcomeOf(env, s1.execs[x].pc)
      requires WorkOp(req, s1.execs[x].pc, s1.clock, x) == Op.UpdateStatus(req.job, status, attempt, completedAt)
      modifies store`jobs
      ensures Ready(s0, run, s, x, req, env) && Moved(s1, s, x, WorkNext(s1, req, s1.execs[x].pc, o, env.handled))
      ensures store.jobs == Written(old(store.jobs), req.job, status, attempt, completedAt, o)
    {
      run, s := Drive(s0, run0, s1, x, env);
      var _ := store.UpdateStatus(req.job, status, attempt, completedAt, o);
    }

    /** A step that writes nothing: a lookup or the handler. */
    lemma Pass(req: JobRequest, x: nat, env: Env, s0: State, run0: seq<Event>, s1: State)
      returns (run: seq<Event>, s: State)
      requires Ready(s0, run0, s1, x, req, env) && (s1.execs[x].pc.GetQueue? || s1.execs[x].pc.Lookup? || s1.execs[x].pc.Handle?)
      ensures Ready(s0, run, s, x, req, env)
      ensures Moved(s1, s, x, WorkNext(s1, req, s1.execs[x].pc, OutcomeOf(env, s1.execs[x].pc), env.handled))
    {
      run, s := Drive(s0, run0, s1, x, env);
    }

    /** The return that releases nothing. */
    lemma Leave(req: JobRequest, x: nat, env: Env, s0: State, run0: seq<Event>, s1: State)
      returns (run: seq<Event>, s: State)
      requires Ready(s0, run0, s1, x, req, env) && s1.execs[x].pc == Return(false)
      ensures Shows(s) && Runs(s0, run, s) && Obeys(s0, run, x, env) && s.execs == s1.execs - {x}
      ensures s.sem == s1.sem && s.limit == s1.limit
    {
      run, s := Drive(s0, run0, s1, x, env);
    }

    /** The retry is put on the log with one attempt more; run_at is not carried over. */
    method Retry(req: JobRequest, x: nat, env: Env, ghost s0: State, ghost run0: seq<Event>, ghost s1: State)
      returns (ghost run: seq<Event>, ghost s: State)
      requires Ready(s0, run0, s1, x, req, env) && s1.execs[x].pc == Reenqueue
      modifies producer
      ensures Ready(s0, run, s, x, req, env) && Moved(s1, s, x, Return(true))
      ensures RetrySent(old(producer.log), producer.log, req, Inc32(req.attempt), env.enqueue)
    {
      var maxRetry, pri := 0, 0;
      if req.options.Some? { maxRetry, pri := req.options.value.maxRetry, req.options.value.priority; }
      var _ := producer.Enqueue(req.job, req.typ, req.payload, req.queue, maxRetry, 0, Inc32(req.attempt), pri, ByRetry,
                                 env.enqueue);
      run, s := Drive(s0, run0, s1, x, env);
    }

    /** A failed attempt is stored, then retried while within max_retry, else archived. Errors of
        these calls are not looked at. */
    method FailAttempt(req: JobRequest, x: nat, env: Env, ghost s0: State, ghost run0: seq<Event>, ghost s1: State)
      returns (ghost run: seq<Event>, ghost s: State)
      requires Ready(s0, run0, s1, x, req, env) && s1.execs[x].pc == MarkFailed
      modifies store`jobs, producer
      ensures Ready(s0, run, s, x, req, env) && Moved(s1, s, x, Return(true))
      ensures FailedAttempt(old(Now()), Now(), req, env)
    {
      var attempt := Inc32(req.attempt);
      var maxRetry := 0;
      if req.options.Some? { maxRetry := req.options.value.maxRetry; }
      run, s := Write(req, x, Failed, attempt, None, env, env.markFailed, s0, run0, s1);
      ghost var failed := Now();
      run, s := RetryOrArchive(req, x, attempt, maxRetry, env, s0, run, s);
      ThenRetriedOrArchived(old(Now()), failed, Now(), req, env);
    }

    method RetryOrArchive(req: JobRequest, x: nat, attempt: int, maxRetry: int, env: Env,
                          ghost s0: State, ghost run0: seq<Event>, ghost s1: State)
      returns (ghost run: seq<Event>, ghost s: State)
      requires Ready(s0, run0, s1, x, req, env) && attempt == Inc32(req.attempt) && maxRetry == MaxRetry(req)
      requires s1.execs[x].pc == if attempt <= maxRetry then Reenqueue else Archive
      modifies store`jobs, producer
      ensures Ready(s0, run, s, x, req, env) && Moved(s1, s, x, Return(true))
      ensures RetriedOrArchived(old(Now()), Now(), req, attempt, maxRetry, env)
    {
      if attempt <= maxRetry {
        run, s := Retry(req, x, env, s0, run0, s1);
      } else {
        run, s := Write(req, x, Archived, attempt, None, env, env.archive, s0, run0, s1);
      }
    }

    /** From the job lookup to the last call, holding the limiter. */
    method Execute(req: JobRequest, x: nat, env: Env, now: int, ghost s0: State, ghost run0: seq<Event>, ghost s1: State)
      returns (ok: bool, ghost run: seq<Event>, ghost s: State)
      requires Ready(s0, run0, s1, x, req, env) && s1.execs[x].pc == Lookup && s1.clock == now
      modifies store`jobs, store`outbox, producer
      ensures Ready(s0, run, s, x, req, env) && Moved(s1, s, x, Return(true))
      ensures Executed(old(Now()), Now(), req, x, env, now)
      ensures ok == Succeeds(old(store.jobs), req, env)
    {
      var lookupOk, rec := store.GetByID(req.job, env.getByID);
      run, s := Pass(req, x, env, s0, run0, s1);
      if !lookupOk { return false, run, s; }
      if rec.Some? && rec.value.status == Cancelled { return true, run, s; }
      ok, run, s := Attempt(req, x, env, now, s0, run, s);
    }

    /** One attempt at a job that is not cancelled. */
    method Attempt(req: JobRequest, x: nat, env: Env, now: int, ghost s0: State, ghost run0: seq<Event>, ghost s1: State)
      returns (ok: bool, ghost run: seq<Event>, ghost s: State)
      requires Ready(s0, run0, s1, x, req, env) && s1.execs[x].pc == MarkProcessing && s1.clock == now
      modifies store`jobs, store`outbox, producer
      ensures Ready(s0, run, s, x, req, env) && Moved(s1, s, x, Return(true))
      ensures Attempted(old(Now()), Now(), req, x, env, now)
      ensures ok == (req.typ != EMAIL || !ValidEmailPayload(req.payload) || env.outboxTx.Committed?)
    {
      run, s := Write(req, x, Processing, req.attempt, None, env, env.markProcessing, s0, run0, s1);
      ok, run, s := WorkOn(req, x, env, now, s0, run, s);
    }

    method WorkOn(req: JobRequest, x: nat, env: Env, now: int, ghost s0: State, ghost run0: seq<Event>, ghost s1: State)
      returns (ok: bool, ghost run: seq<Event>, ghost s: State)
      requires Ready(s0, run0, s1, x, req, env) && s1.clock == now
      requires s1.execs[x].pc == AtWork(req)
      modifies store`jobs, store`outbox, producer
      ensures Ready(s0, run, s, x, req, env) && Moved(s1, s, x, Return(true))
      ensures WorkedOn(old(Now()), Now(), req, x, env, now)
      ensures ok == (req.typ != EMAIL || !ValidEmailPayload(req.payload) || env.outboxTx.Committed?)
    {
      if req.typ == EMAIL {
        ok, run, s := SendEmail(req, x, env, now, s0, run0, s1);
      } else {
        ok := true;
        run, s := RunHandler(req, x, env, now, s0, run0, s1);
      }
    }

    /** An email is only put in the outbox, in one transaction with its completion. */
    method SendEmail(req: JobRequest, x: nat, env: Env, now: int, ghost s0: State, ghost run0: seq<Event>, ghost s1: State)
      returns (ok: bool, ghost run: seq<Event>, ghost s: State)
      requires Ready(s0, run0, s1, x, req, env) && req.typ == EMAIL && s1.clock == now
      requires s1.execs[x].pc == AtWork(req)
      modifies store`jobs, store`outbox, producer
      ensures Ready(s0, run, s, x, req, env) && Moved(s1, s, x, Return(true))
      ensures WorkedOn(old(Now()), Now(), req, x, env, now)
      ensures ok == (!ValidEmailPayload(req.payload) || env.outboxTx.Committed?)
    {
      if !ValidEmailPayload(req.payload) {
        run, s := FailAttempt(req, x, env, s0, run0, s1);
        return true, run, s;
      }
      var row := OutboxRow(req.job, EMAIL, req.payload, Unsent, now, x, []);
      run, s := Drive(s0, run0, s1, x, env);
      ok := store.CompleteJobWithOutbox(req.job, req.attempt, now, row, env.outboxTx);
    }

    method RunHandler(req: JobRequest, x: nat, env: Env, now: int, ghost s0: State, ghost run0: seq<Event>, ghost s1: State)
      returns (ghost run: seq<Event>, ghost s: State)
      requires Ready(s0, run0, s1, x, req, env) && req.typ != EMAIL && s1.clock == now
      requires s1.execs[x].pc == AtWork(req)
      modifies store`jobs, producer
      ensures Ready(s0, run, s, x, req, env) && Moved(s1, s, x, Return(true))
      ensures WorkedOn(old(Now()), Now(), req, x, env, now)
    {
      if !Registered(req.typ) {
        run, s := Write(req, x, Failed, req.attempt, None, env, env.markUnknown, s0, run0, s1);
        return;
      }
      run, s := Pass(req, x, env, s0, run0, s1);
      run, s := StoreResult(req, x, env, now, s0, run, s);
    }

    /** What the handler said is stored. */
    method StoreResult(req: JobRequest, x: nat, env: Env, now: int, ghost s0: State, ghost run0: seq<Event>, ghost s1: State)
      returns (ghost run: seq<Event>, ghost s: State)
      requires Ready(s0, run0, s1, x, req, env) && s1.clock == now
      requires s1.execs[x].pc == if env.handled then Complete else MarkFailed
      modifies store`jobs, producer
      ensures Ready(s0, run, s, x, req, env) && Moved(s1, s, x, Return(true))
      ensures if env.handled
              then store.jobs == Written(old(store.jobs), req.job, Completed, req.attempt, Some(now), env.complete)
                   && producer.log == old(producer.log)
              else FailedAttempt(old(Now()), Now(), req, env)
    {
      if !env.handled {
        run, s := FailAttempt(req, x, env, s0, run0, s1);
      } else {
        run, s := Write(req, x, Completed, req.attempt, Some(now), env, env.complete, s0, run0, s1);
      }
    }

    /** The channel of the type is full. */
    predicate Full(typ: string)
      reads limiter
    {
      limiter != null && limiter.Len(typ) >= limiter.limit
    }

    /** `process` for one message, with nothing in between. The calls it makes, their order, what it
        does with their errors and what it returns are those of a run of the protocol that takes
        execution `x` from its start to its end, or to a full channel. */
    method Process(req: JobRequest, x: nat, env: Env, now: int, ghost s0: State)
      returns (exit: Exit, ghost run: seq<Event>, ghost s: State)
      requires Shows(s0) && LimiterShows(s0) && s0.clock == now
      requires x in s0.execs && s0.execs[x].worker == id && s0.execs[x].pc == GetQueue && s0.execs[x].offset < |s0.log|
      requires ReqOf(s0, x) == req && HandlerMay(req.typ, req.payload, req.attempt, env.handled)
      modifies store`jobs, store`outbox, producer, limiter
      ensures Shows(s) && LimiterShows(s) && Runs(s0, run, s) && Obeys(s0, run, x, env)
      ensures limiter != null ==> forall typ :: limiter.Len(typ) == old(limiter.Len(typ))
      ensures s.execs == if exit.Waits? then s0.execs[x := s0.execs[x].(pc := Acquire)] else s0.execs - {x}
      ensures Processed(old(Now()), Now(), old(store.queues), old(Full(req.typ)), exit, req, x, env, now)
    {
      var queueOk, running;
      queueOk, running, run, s := AskQueue(req, x, env, s0);
      if running {
        exit, run, s := ProcessHeld(req, x, env, now, s0, run, s);
      } else {
        run, s := Leave(req, x, env, s0, run, s);
        exit := Returned(queueOk);
      }
    }

    /** Whether the queue could be asked for, and is running. */
    method AskQueue(req: JobRequest, x: nat, env: Env, ghost s0: State)
      returns (queueOk: bool, running: bool, ghost run: seq<Event>, ghost s: State)
      requires Shows(s0) && LimiterShows(s0) && x in s0.execs && s0.execs[x].worker == id && s0.execs[x].pc == GetQueue && s0.execs[x].offset < |s0.log|
      requires ReqOf(s0, x) == req && HandlerMay(req.typ, req.payload, req.attempt, env.handled)
      ensures queueOk == env.getQueue.Ok? && running == (queueOk && !QueuePaused(store.queues, req))
      ensures Ready(s0, run, s, x, req, env) && LimiterShows(s)
      ensures Moved(s0, s, x, if running then Acquire else Return(false))
    {
      NothingDone(s0, x, env);
      var paused;
      queueOk, paused := store.GetQueue(QueueName(req.queue), env.getQueue);
      running := queueOk && !paused;
      run, s := Pass(req, x, env, s0, [], s0);
    }

    /** From acquiring the type's channel, if that is possible, to releasing it. */
    method ProcessHeld(req: JobRequest, x: nat, env: Env, now: int, ghost s0: State, ghost run0: seq<Event>, ghost s1: State)
      returns (exit: Exit, ghost run: seq<Event>, ghost s: State)
      requires Ready(s0, run0, s1, x, req, env) && LimiterShows(s1) && s1.execs[x].pc == Acquire && s1.clock == now
      modifies store`jobs, store`outbox, producer, limiter
      ensures Shows(s) && LimiterShows(s) && Runs(s0, run, s) && Obeys(s0, run, x, env)
      ensures limiter != null ==> forall typ :: limiter.Len(typ) == old(limiter.Len(typ))
      ensures s.execs == if exit.Waits? then s1.execs else s1.execs - {x}
      ensures RunHeld(old(Now()), Now(), old(Full(req.typ)), exit, req, x, env, now)
    {
      exit := Waits;
      var entered;
      ghost var before := Now();
      entered, run, s := AcquireType(req, x, env, s0, run0, s1);
      assert Now() == before;
      if entered {
        var ok;
        ok, run, s := ExecuteAndRelease(req, x, env, now, s0, run, s);
        exit := Returned(ok);
      }
    }

    method ExecuteAndRelease(req: JobRequest, x: nat, env: Env, now: int, ghost s0: State, ghost run0: seq<Event>, ghost s1: State)
      returns (ok: bool, ghost run: seq<Event>, ghost s: State)
      requires Ready(s0, run0, s1, x, req, env) && LimiterShows(s1) && s1.execs[x].pc == Lookup && s1.clock == now
      requires limiter != null ==> limiter.Len(req.typ) >= 1
      modifies store`jobs, store`outbox, producer, limiter
      ensures Shows(s) && LimiterShows(s) && Runs(s0, run, s) && Obeys(s0, run, x, env)
      ensures s.execs == s1.execs - {x}
      ensures RunHeld(old(Now()), Now(), false, Returned(ok), req, x, env, now)
      ensures limiter != null ==> forall typ :: limiter.Len(typ) == old(limiter.Len(typ)) - if typ == req.typ then 1 else 0
    {
      ok, run, s := Execute(req, x, env, now, s0, run0, s1);
      run, s := ReleaseType(req, x, env, s0, run, s);
    }

    method AcquireType(req: JobRequest, x: nat, env: Env, ghost s0: State, ghost run0: seq<Event>, ghost s1: State)
      returns (entered: bool, ghost run: seq<Event>, ghost s: State)
      requires Ready(s0, run0, s1, x, req, env) && LimiterShows(s1) && s1.execs[x].pc == Acquire
      modifies limiter
      ensures Ready(s0, run, s, x, req, env) && LimiterShows(s) && s.clock == s1.clock && s.jobs == s1.jobs
      ensures entered == !old(Full(req.typ))
      ensures s.execs == if entered then s1.execs[x := s1.execs[x].(pc := Lookup)] else s1.execs
      ensures limiter != null ==>
                forall typ :: limiter.Len(typ) == old(limiter.Len(typ)) + if entered && typ == req.typ then 1 else 0
    {
      entered := true;
      if limiter != null { entered := limiter.Acquire(req.typ); }
      run, s := run0, s1;
      if entered { run, s := Enter(req, x, env, s0, run0, s1); }
    }

    /** The step that puts a token in the channel, on the side of the protocol. */
    lemma Enter(req: JobRequest, x: nat, env: Env, s0: State, run0: seq<Event>, s1: State)
      returns (run: seq<Event>, s: State)
      requires Ready(s0, run0, s1, x, req, env) && s1.execs[x].pc == Acquire
      requires s1.limit > 0 ==> Held(s1, id, req.typ) < s1.limit
      ensures Ready(s0, run, s, x, req, env) && s.clock == s1.clock && s.jobs == s1.jobs && s.limit == s1.limit
      ensures s.execs == s1.execs[x := s1.execs[x].(pc := Lookup)]
      ensures forall typ :: Held(s, id, typ) == Held(s1, id, typ) + if s.limit > 0 && typ == req.typ then 1 else 0
    {
      run, s := Drive(s0, run0, s1, x, env);
    }

    method ReleaseType(req: JobRequest, x: nat, env: Env, ghost s0: State, ghost run0: seq<Event>, ghost s1: State)
      returns (ghost run: seq<Event>, ghost s: State)
      requires Ready(s0, run0, s1, x, req, env) && LimiterShows(s1) && s1.execs[x].pc == Return(true)
      requires limiter != null ==> limiter.Len(req.typ) >= 1
      modifies limiter
      ensures Shows(s) && LimiterShows(s) && Runs(s0, run, s) && Obeys(s0, run, x, env) && s.execs == s1.execs - {x}
      ensures limiter != null ==> forall typ :: limiter.Len(typ) == old(limiter.Len(typ)) - if typ == req.typ then 1 else 0
    {
      if limiter != null { limiter.Release(req.typ); }
      run, s := Drive(s0, run0, s1, x, env);
    }
  }

  /** Where the work on a job starts. */
  function AtWork(req: JobRequest): Pc {
    if req.typ == EMAIL then if ValidEmailPayload(req.payload) then CompleteEmail else MarkFailed
    else if Registered(req.typ) then Handle else MarkUnknown
  }

  /** How the environment answers the call made at a program counter. */
  function OutcomeOf(env: Env, pc: Pc): Outcome {
    match pc
    case GetQueue => env.getQueue
    case Lookup => env.getByID
    case MarkProcessing => env.markProcessing
    case MarkUnknown => env.markUnknown
    case MarkFailed => env.markFailed
    case Reenqueue => env.enqueue
    case Archive => env.archive
    case Complete => env.complete
    case CompleteEmail => TxCall(env.outboxTx)
    case _ => Ok
  }

  function EventAt(x: nat, env: Env, pc: Pc): Event {
    Work(x, OutcomeOf(env, pc), env.handled)
  }

  /** Every event of the run is a step of execution `x`, answered as `env` says. The protocol being
      deterministic, this leaves no choice of run. */
  ghost predicate Obeys(s: State, run: seq<Event>, x: nat, env: Env)
    decreases |run|
  {
    run == [] ||
    (x in s.execs && run[0] == EventAt(x, env, s.execs[x].pc) && Enabled(s, run[0])
     && Obeys(Apply(s, run[0]), run[1..], x, env))
  }

  lemma {:induction false} ObeysGrows(s: State, run: seq<Event>, x: nat, env: Env)
    requires Legal(s, run) && Obeys(s, run, x, env)
    requires x in After(s, run).execs && WorkEnabled(After(s, run), x, env.handled)
    ensures Obeys(s, run + [EventAt(x, env, After(s, run).execs[x].pc)], x, env)
    decreases |run|
  {
    var e := EventAt(x, env, After(s, run).execs[x].pc);
    if run == [] {
      assert Obeys(Apply(s, e), [], x, env);
      assert [e][1..] == [];
    } else {
      ObeysGrows(Apply(s, run[0]), run[1..], x, env);
      assert (run + [e])[0] == run[0] && (run + [e])[1..] == run[1..] + [e];
    }
  }

  lemma NothingDone(s: State, x: nat, env: Env)
    ensures Runs(s, [], s) && Obeys(s, [], x, env)
  {
    Start(s);
  }

  /** The next step of the execution. */
  lemma Drive(s0: State, run: seq<Event>, s: State, x: nat, env: Env) returns (run': seq<Event>, s': State)
    requires Runs(s0, run, s) && Obeys(s0, run, x, env) && WorkEnabled(s, x, env.handled)
    ensures Runs(s0, run', s') && Obeys(s0, run', x, env)
    ensures var e := s.execs[x]; var req := ReqOf(s, x); var o := OutcomeOf(env, e.pc);
            && Performs(s, s', Effective(WorkOp(req, e.pc, s.clock, x), o))
            && s'.execs == (if e.pc.Return? then s.execs - {x}
                            else s.execs[x := e.(pc := WorkNext(s, req, e.pc, o, env.handled))])
            && s'.sem == WorkSem(s, e, req.typ)
            && s'.log[..|s.log|] == s.log
  {
    ObeysGrows(s0, run, x, env);
    run', s' := DriveWork(s0, run, s, x, OutcomeOf(env, s.execs[x].pc), env.handled);
  }

  /** Only execution `x` has moved; the semaphores, the limit and the clock are as they were. */
  ghost predicate Moved(s: State, s': State, x: nat, pc: Pc) {
    x in s.execs && s'.execs == s.execs[x := s.execs[x].(pc := pc)]
    && s'.sem == s.sem && s'.limit == s.limit && s'.clock == s.clock
  }
}
