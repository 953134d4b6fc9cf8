/** The job.requests log and its producer, and the source of new job ids. */
module JobProducer {
  import opened Types
  import opened Protocol

  /** `uuid.New`: an id never given out before. What it was given out for is remembered beside it. */
  class Uuids {
    var next: nat
    ghost var born: seq<Birth>

    ghost predicate Valid()
      reads this
    {
      next == |born|
    }

    method New(ghost birth: Birth) returns (id: nat)
      requires Valid()
      modifies this
      ensures Valid() && id == |old(born)| && born == old(born) + [birth]
    {
      id := next;
      next := next + 1;
      born := born + [birth];
    }
  }

  class Producer {
    var log: seq<Entry>

    /** Options are attached only if one of them matters; a message that cannot be written has
        no effect. */
    method Enqueue(job: nat, typ: string, payload: Payload, queue: string, maxRetry: int, runAt: int, attempt: int,
                   priority: int, origin: Origin, o: Outcome)
      returns (ok: bool)
      modifies this
      ensures log == LogAfter(old(log), Effective(Op.Enqueue(
                Entry(MakeRequest(job, typ, payload, queue, maxRetry, runAt, attempt, priority), origin)), o))
      ensures log == if o.Failure? then old(log) else old(log) + [Entry(JobRequest(job, typ, payload, queue, attempt,
                if maxRetry <= 0 && runAt <= 0 && priority == 0 then None else Some(Options(maxRetry, runAt, priority))), origin)]
      ensures ok == o.Ok?
    {
      var req := JobRequest(job, typ, payload, queue, attempt, None);
      if maxRetry > 0 || runAt > 0 || priority != 0 {
        req := req.(options := Some(Options(maxRetry, runAt, priority)));
      }
      if Applied(o) {
        log := log + [Entry(req, origin)];
      }
      ok := o.Ok?;
    }
  }
}
