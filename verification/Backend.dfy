/** The API backend: Submit, CancelJob and RetryArchivedJob as the code runs them when nothing
    comes between their statements. Each is proved to be a run of the protocol. */
module Backend {
  import opened Types
  import opened Tables
  import opened Protocol
  import opened Submission
  import opened Driving
  import opened Calls
  import opened PostgresStore
  import opened JobProducer

  class KafkaPostgresBackend {
    const store: Store
    const producer: Producer
    const uuids: Uuids

    constructor (store: Store, producer: Producer, uuids: Uuids)
      ensures this.store == store && this.producer == producer && this.uuids == uuids
    {
      this.store := store;
      this.producer := producer;
      this.uuids := uuids;
    }

    /** The tables, the log and the ids given out are those of the protocol state. */
    ghost predicate Shows(s: State)
      reads store, producer, uuids
    {
      store.Shows(s) && uuids.Valid() && producer.log == s.log && uuids.born == s.born
    }

    /** A run has made `call` up to the state `s`, which shows, and it goes on at `now`. */
    ghost predicate At(s0: State, call: Call, run: seq<Event>, s: State, env: CallEnv, now: Call)
      reads store, producer, uuids
    {
      Shows(s) && Made(s0, call, run, s, env) && s.calls[|s0.calls|] == now
    }

    /** What a call works on. */
    ghost function Now(): Ledger
      reads store, producer, uuids
    {
      Ledger(store.jobs, producer.log, |uuids.born|)
    }

    /** A step that writes nothing. */
    lemma Pass(s0: State, call: Call, run0: seq<Event>, s1: State, env: CallEnv, now: Call) returns (run: seq<Event>, s: State)
      requires At(s0, call, run0, s1, env, now) && Ready(s1, |s0.calls|, env)
      requires CallOp(now, |s1.born|, s1.outbox, AnswerOf(env, now)).Select? && CallBirths(now, |s0.calls|) == []
      ensures At(s0, call, run, s, env, CallNext(s1, |s0.calls|, OutcomeOf(env, now), AnswerOf(env, now)))
      ensures s.jobs == s1.jobs
    {
      run, s := NextStatement(s0, call, run0, s1, env);
    }

    /** Submit looks an idempotent job up, or creates the row, then enqueues it unless it is for
        later. Its error paths return no id. */
    method Submit(r: SubmitReq, env: CallEnv, now: int, ghost s0: State)
      returns (answer: Option<nat>, ghost run: seq<Event>, ghost s: State)
      requires Shows(s0) && s0.clock == now && env.SubmitEnv?
      modifies store`jobs, producer, uuids
      ensures At(s0, Call.Submit(r, SLookup), run, s, env, Call.Submit(r, SDone(answer)))
      ensures Submitted(old(Now()), Now(), r, now, env, answer)
    {
      var queue := r.queue;
      if queue == "" { queue := "default"; }
      var done;
      done, answer, run, s := LookUp(r, queue, env, s0);
      if !done {
        answer, run, s := CreateAndEnqueue(r, queue, env, now, s0, run, s);
      }
    }

    /** The checks before the insert: there must be a type, and a key must not be taken. */
    method LookUp(r: SubmitReq, queue: string, env: CallEnv, ghost s0: State)
      returns (done: bool, answer: Option<nat>, ghost run: seq<Event>, ghost s: State)
      requires Shows(s0) && env.SubmitEnv? && queue == QueueName(r.queue)
      ensures At(s0, Call.Submit(r, SLookup), run, s, env, Call.Submit(r, if done then SDone(answer) else SCreate))
      ensures s.clock == s0.clock
      ensures done <==> r.typ == "" || (r.key != "" && !env.lookup.Ok?)
                        || (r.key != "" && exists j :: j in store.jobs && HasKey(store.jobs[j], r))
      ensures done && (r.typ == "" || !env.lookup.Ok?) ==> answer == None
      ensures done && r.typ != "" && env.lookup.Ok? ==>
                answer.Some? && answer.value in store.jobs && HasKey(store.jobs[answer.value], r)
    {
      ghost var call := Call.Submit(r, SLookup);
      run, s := BeginCall(s0, call, env);
      done, answer := true, None;
      if r.typ != "" && r.key == "" {
        done := false;
      } else if r.typ != "" {
        var ok, existing := store.GetByIdempotencyKey(r.typ, queue, r.key, env.lookup);
        OwnerFound(store.jobs, SubmitRow(r), existing);
        done := !ok || existing.Some?;
        if ok { answer := existing; }
      }
      run, s := Pass(s0, call, run, s, env, call);
    }

    method CreateAndEnqueue(r: SubmitReq, queue: string, env: CallEnv, now: int,
                            ghost s0: State, ghost run0: seq<Event>, ghost s1: State)
      returns (answer: Option<nat>, ghost run: seq<Event>, ghost s: State)
      requires At(s0, Call.Submit(r, SLookup), run0, s1, env, Call.Submit(r, SCreate))
      requires env.SubmitEnv? && queue == QueueName(r.queue) && s1.clock == now
      requires r.key == "" || forall j :: j in store.jobs ==> !HasKey(store.jobs[j], r)
      modifies store`jobs, producer, uuids
      ensures At(s0, Call.Submit(r, SLookup), run, s, env, Call.Submit(r, SDone(answer)))
      ensures Created(old(Now()), Now(), r, now, env, answer)
    {
      var id, created;
      id, created, run, s := CreateRow(r, queue, env, s0, run0, s1);
      if !created { return None, run, s; }
      run, s := Pass(s0, Call.Submit(r, SLookup), run, s, env, Call.Submit(r, SCheck(id)));
      if r.runAt > 0 && r.runAt > now { return Some(id), run, s; }
      answer, run, s := SendMessage(r, id, queue, env, s0, run, s);
    }

    method SendMessage(r: SubmitReq, id: nat, queue: string, env: CallEnv,
                       ghost s0: State, ghost run0: seq<Event>, ghost s1: State)
      returns (answer: Option<nat>, ghost run: seq<Event>, ghost s: State)
      requires At(s0, Call.Submit(r, SLookup), run0, s1, env, Call.Submit(r, SEnqueue(id)))
      requires env.SubmitEnv? && queue == QueueName(r.queue)
      modifies producer
      ensures At(s0, Call.Submit(r, SLookup), run, s, env, Call.Submit(r, SDone(answer)))
      ensures answer == if env.enqueue.Ok? then Some(id) else None
      ensures if env.enqueue.Failure? then producer.log == old(producer.log)
              else OneMoreMessage(old(producer.log), producer.log) && SubmittedMessage(producer.log[|old(producer.log)|], id, r)
    {
      var ok := producer.Enqueue(id, r.typ, r.payload, queue, r.maxRetry, r.runAt, 0, r.priority, BySubmit, env.enqueue);
      run, s := NextStatement(s0, Call.Submit(r, SLookup), run0, s1, env);
      answer := if ok then Some(id) else None;
    }

    method CreateRow(r: SubmitReq, queue: string, env: CallEnv, ghost s0: State, ghost run0: seq<Event>, ghost s1: State)
      returns (id: nat, ok: bool, ghost run: seq<Event>, ghost s: State)
      requires At(s0, Call.Submit(r, SLookup), run0, s1, env, Call.Submit(r, SCreate))
      requires env.SubmitEnv? && queue == QueueName(r.queue)
      requires r.key == "" || forall j :: j in store.jobs ==> !HasKey(store.jobs[j], r)
      modifies store`jobs, uuids
      ensures At(s0, Call.Submit(r, SLookup), run, s, env, Call.Submit(r, if ok then SCheck(id) else SDone(None)))
      ensures id == |old(uuids.born)| && ok == (env.create.Ok? && id !in old(store.jobs))
      ensures if !env.create.Failure? && id !in old(store.jobs)
              then id in store.jobs && SubmittedRow(store.jobs[id], r) && store.jobs == old(store.jobs)[id := store.jobs[id]]
              else store.jobs == old(store.jobs)
    {
      NoneInTheWay(store.jobs, |uuids.born|, r);
      id := uuids.New(BirthOf(r, |s0.calls|));
      var status := Pending;
      if r.runAt > 0 { status := Scheduled; }
      run, s := Inserts(r, env, s0, run0, s1);
      ok := store.Create(id, NewJob(r.typ, r.payload, queue, status, r.runAt, r.key, r.priority), env.create);
    }

    /** A job is cancelled unless it is completed or being processed. */
    method CancelJob(id: nat, env: CallEnv, ghost s0: State) returns (ok: bool, ghost run: seq<Event>, ghost s: State)
      requires Shows(s0) && env.CancelEnv?
      modifies store`jobs
      ensures At(s0, Cancel(id, CLookup), run, s, env, Cancel(id, CDone(ok)))
      ensures var jobs := old(store.jobs);
              var found := env.lookup.Ok? && id in jobs && jobs[id].status != Completed && jobs[id].status != Processing;
              && ok == (found && env.write.Ok?)
              && store.jobs == if found && !env.write.Failure?
                               then jobs[id := jobs[id].(status := Cancelled, attempt := 0, completedAt := None)] else jobs
    {
      ghost var call := Cancel(id, CLookup);
      run, s := BeginCall(s0, call, env);
      var found, rec := store.GetByID(id, env.lookup);
      run, s := Pass(s0, call, run, s, env, call);
      if !found || rec.None? { return false, run, s; }
      if rec.value.status == Completed || rec.value.status == Processing { return false, run, s; }
      ok, run, s := WriteCancelled(id, env, s0, run, s);
    }

    method WriteCancelled(id: nat, env: CallEnv, ghost s0: State, ghost run0: seq<Event>, ghost s1: State)
      returns (ok: bool, ghost run: seq<Event>, ghost s: State)
      requires At(s0, Cancel(id, CLookup), run0, s1, env, Cancel(id, CWrite)) && env.CancelEnv?
      modifies store`jobs
      ensures At(s0, Cancel(id, CLookup), run, s, env, Cancel(id, CDone(ok)))
      ensures ok == env.write.Ok?
      ensures store.jobs == if !env.write.Failure? && id in old(store.jobs)
                            then old(store.jobs)[id := old(store.jobs)[id].(status := Cancelled, attempt := 0, completedAt := None)]
                            else old(store.jobs)
    {
      ok := store.UpdateStatus(id, Cancelled, 0, None, env.write);
      run, s := NextStatement(s0, Cancel(id, CLookup), run0, s1, env);
    }

    /** An archived job is enqueued under a new id, and only then is the row of that id created. */
    method RetryArchivedJob(id: nat, queue: string, env: CallEnv, ghost s0: State)
      returns (ok: bool, ghost run: seq<Event>, ghost s: State)
      requires Shows(s0) && env.ReplayEnv?
      modifies store`jobs, producer, uuids
      ensures At(s0, Replay(id, queue, RLookup), run, s, env, Replay(id, queue, RDone(ok)))
      ensures if env.lookup.Ok? && id in old(store.jobs) && old(store.jobs)[id].status == Archived
              then Replayed(old(Now()), Now(), old(store.jobs)[id], queue, env, ok)
              else !ok && Now() == old(Now())
    {
      ghost var call := Replay(id, queue, RLookup);
      var name := queue;
      if name == "" { name := "default"; }
      run, s := BeginCall(s0, call, env);
      var found, rec := store.GetByID(id, env.lookup);
      run, s := Pass(s0, call, run, s, env, call);
      if !found || rec.None? { return false, run, s; }
      if rec.value.status != Archived { return false, run, s; }
      ok, run, s := EnqueueAndCreate(id, rec.value, queue, name, env, s0, run, s);
    }

    method EnqueueAndCreate(id: nat, rec: Job, queue: string, name: string, env: CallEnv,
                            ghost s0: State, ghost run0: seq<Event>, ghost s1: State)
      returns (ok: bool, ghost run: seq<Event>, ghost s: State)
      requires At(s0, Replay(id, queue, RLookup), run0, s1, env,
                  Replay(id, queue, REnqueue(rec.typ, rec.payload, rec.priority)))
      requires env.ReplayEnv? && name == QueueName(queue)
      modifies store`jobs, producer, uuids
      ensures At(s0, Replay(id, queue, RLookup), run, s, env, Replay(id, queue, RDone(ok)))
      ensures Replayed(old(Now()), Now(), rec, queue, env, ok)
    {
      var newId := uuids.New(Birth(rec.typ, rec.payload, 0, "", name, rec.priority, |s0.calls|));
      run, s := NextStatement(s0, Replay(id, queue, RLookup), run0, s1, env);
      ok := producer.Enqueue(newId, rec.typ, rec.payload, name, 0, 0, 0, rec.priority, ByReplay, env.enqueue);
      if ok {
        ok, run, s := CreateReplayed(id, newId, rec, queue, name, env, s0, run, s);
      }
    }

    method CreateReplayed(id: nat, newId: nat, rec: Job, queue: string, name: string, env: CallEnv,
                          ghost s0: State, ghost run0: seq<Event>, ghost s1: State)
      returns (ok: bool, ghost run: seq<Event>, ghost s: State)
      requires At(s0, Replay(id, queue, RLookup), run0, s1, env,
                  Replay(id, queue, RCreate(newId, rec.typ, rec.payload, rec.priority)))
      requires env.ReplayEnv? && name == QueueName(queue)
      modifies store`jobs
      ensures At(s0, Replay(id, queue, RLookup), run, s, env, Replay(id, queue, RDone(ok)))
      ensures ok == (env.create.Ok? && newId !in old(store.jobs))
      ensures if !env.create.Failure? && newId !in old(store.jobs)
              then newId in store.jobs && ReplayedRow(store.jobs[newId], rec, queue) && store.jobs == old(store.jobs)[newId := store.jobs[newId]]
              else store.jobs == old(store.jobs)
    {
      ok := store.Create(newId, NewJob(rec.typ, rec.payload, name, Pending, 0, "", rec.priority), env.create);
      run, s := NextStatement(s0, Replay(id, queue, RLookup), run0, s1, env);
    }
  }

  // ---- what the calls do, written out ----

  /** The table and the log the calls write, and the number of ids given out. */
  datatype Ledger = Ledger(jobs: map<nat, Job>, log: seq<Entry>, born: nat)

  /** The row has the idempotency triple of the request. */
  predicate HasKey(row: Job, r: SubmitReq) {
    row.typ == r.typ && row.queue == (if r.queue == "" then "default" else r.queue) && row.key == r.key
  }

  predicate OneMoreMessage(log: seq<Entry>, log': seq<Entry>) {
    |log'| == |log| + 1 && log'[..|log|] == log
  }

  /** The row of a submitted job. */
  predicate SubmittedRow(row: Job, r: SubmitReq) {
    row == Job(r.typ, r.payload, if r.queue == "" then "default" else r.queue,
               if r.runAt > 0 then Scheduled else Pending, 0, None, if r.runAt > 0 then r.runAt else 0, r.key, r.priority)
  }

  /** Its message. */
  predicate SubmittedMessage(m: Entry, id: nat, r: SubmitReq) {
    && m.origin == BySubmit && m.req.job == id && m.req.typ == r.typ && m.req.payload == r.payload
    && m.req.queue == (if r.queue == "" then "default" else r.queue)
    && m.req.attempt == 0 && PriorityOf(m.req) == r.priority
    && (if r.maxRetry > 0 then MaxRetry(m.req) == r.maxRetry else MaxRetry(m.req) <= 0)
  }

  /** A submit that gets as far as its insert. */
  ghost predicate Created(a: Ledger, b: Ledger, r: SubmitReq, now: int, env: CallEnv, answer: Option<nat>)
    requires env.SubmitEnv?
  {
    var id := a.born; var made := env.create.Ok? && id !in a.jobs; var later := r.runAt > 0 && r.runAt > now;
    && (if !env.create.Failure? && id !in a.jobs
        then id in b.jobs && SubmittedRow(b.jobs[id], r) && b.jobs == a.jobs[id := b.jobs[id]]
        else b.jobs == a.jobs)
    && (if made && !later && !env.enqueue.Failure?
        then OneMoreMessage(a.log, b.log) && SubmittedMessage(b.log[|a.log|], id, r)
        else b.log == a.log)
    && answer == if made && (later || env.enqueue.Ok?) then Some(id) else None
  }

  /** A submit: refused without a type, answered with the job of its key if there is one, and otherwise a new
      row and, unless it is for later, a message. */
  ghost predicate Submitted(a: Ledger, b: Ledger, r: SubmitReq, now: int, env: CallEnv, answer: Option<nat>)
    requires env.SubmitEnv?
  {
    if r.typ == "" || (r.key != "" && !env.lookup.Ok?) then answer == None && b == a
    else if r.key != "" && exists j :: j in a.jobs && HasKey(a.jobs[j], r) then
      answer.Some? && answer.value in a.jobs && HasKey(a.jobs[answer.value], r) && b == a
    else Created(a, b, r, now, env, answer)
  }

  predicate ReplayedRow(row: Job, rec: Job, queue: string) {
    row == Job(rec.typ, rec.payload, if queue == "" then "default" else queue, Pending, 0, None, 0, "", rec.priority)
  }

  predicate ReplayedMessage(m: Entry, id: nat, rec: Job, queue: string) {
    && m.origin == ByReplay && m.req.job == id && m.req.typ == rec.typ && m.req.payload == rec.payload
    && m.req.queue == (if queue == "" then "default" else queue)
    && m.req.attempt == 0 && PriorityOf(m.req) == rec.priority && MaxRetry(m.req) == 0
  }

  /** A replay of an archived job: a message under a new id and then, if no error was reported, its row. */
  ghost predicate Replayed(a: Ledger, b: Ledger, rec: Job, queue: string, env: CallEnv, ok: bool)
    requires env.ReplayEnv?
  {
    var id := a.born;
    && (if env.enqueue.Failure? then b.log == a.log
        else OneMoreMessage(a.log, b.log) && ReplayedMessage(b.log[|a.log|], id, rec, queue))
    && (if env.enqueue.Ok? && !env.create.Failure? && id !in a.jobs
        then id in b.jobs && ReplayedRow(b.jobs[id], rec, queue) && b.jobs == a.jobs[id := b.jobs[id]]
        else b.jobs == a.jobs)
    && ok == (env.enqueue.Ok? && env.create.Ok? && id !in a.jobs)
  }

  /** With its key not taken only its id can keep a row out. */
  lemma NoneInTheWay(jobs: map<nat, Job>, id: nat, r: SubmitReq)
    requires r.key == "" || forall j :: j in jobs ==> !HasKey(jobs[j], r)
    ensures SubmittedRow(SubmitRow(r), r) && (Insertable(jobs, id, SubmitRow(r)) <==> id !in jobs)
  {
    forall j | j in jobs && SameKey(jobs[j], SubmitRow(r)) ensures HasKey(jobs[j], r) {}
  }

  /** The insert of a submit, on the side of the protocol. */
  lemma Inserts(r: SubmitReq, env: CallEnv, s0: State, run0: seq<Event>, s1: State) returns (run: seq<Event>, s: State)
    requires Made(s0, Call.Submit(r, SLookup), run0, s1, env) && s1.calls[|s0.calls|] == Call.Submit(r, SCreate) && env.SubmitEnv?
    ensures Made(s0, Call.Submit(r, SLookup), run, s, env)
    ensures Performs(s1, s, Effective(Insert(|s1.born|, SubmitRow(r)), env.create)) && s.born == s1.born + [BirthOf(r, |s0.calls|)]
    ensures s.calls[|s0.calls|] ==
              Call.Submit(r, if env.create.Ok? && Insertable(s1.jobs, |s1.born|, SubmitRow(r)) then SCheck(|s1.born|) else SDone(None))
  {
    run, s := NextStatement(s0, Call.Submit(r, SLookup), run0, s1, env);
  }

  /** Keys being unique, the row the lookup finds is the one that owns the key. */
  lemma OwnerFound(jobs: map<nat, Job>, row: Job, found: Option<nat>)
    requires UniqueKeys(jobs) && row.key != ""
    requires found.Some? ==> found.value in jobs && SameKey(jobs[found.value], row)
    ensures found.Some? ==> KeyTaken(jobs, row) && KeyOwner(jobs, row) == found.value
  {
    if found.Some? {
      var k := KeyOwner(jobs, row);
    }
  }
}
