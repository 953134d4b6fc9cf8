/** The one max_retry whose retries do not stay within it: the attempt of a message is an int32, and
    past the largest it starts again from the smallest. */
module RetryWrap {
  import opened Types
  import opened Tables
  import opened Protocol
  import opened EveryRun
  import opened Scenario

  /** In every run, every message with this max_retry stays within its budget. */
  ghost predicate StaysWithin(maxRetry: int) {
    forall s: State, i: nat :: Reachable(s) && i < |s.log| && MaxRetry(s.log[i].req) == maxRetry ==>
      0 <= s.log[i].req.attempt <= Max(maxRetry, 0)
  }

  // ---- one job that always fails ----

  const HOPELESS := SubmitReq("hello", Payload(None, None), "", MAX_INT32, 0, "", 0)

  /** The attempt of the n-th retry. */
  function AttemptAfter(n: nat): int {
    if n == 0 then 0 else Inc32(AttemptAfter(n - 1))
  }

  function Nth(n: nat): JobRequest {
    MakeRequest(0, "hello", Payload(None, None), "default", MAX_INT32, 0, AttemptAfter(n), 0)
  }

  /** The job has been retried `n` times, and nothing stands in the way of the last message. */
  ghost predicate Retried(s: State, n: nat) {
    && Reachable(s) && s.limit == 0 && s.paused == map["default" := false]
    && 0 in s.jobs && !s.jobs[0].status.Cancelled? && |s.log| == n + 1 && s.log[n].req == Nth(n)
  }

  lemma Starts() returns (s: State)
    ensures Retried(s, 0)
  {
    s := Created(HOPELESS, 0);
    Checks(s, HOPELESS);
    ReachStep(s, Step(0, Ok, Nothing));
    s := AfterStep(s, 0, Ok, Nothing);
    Enqueues(s, HOPELESS);
    ReachStep(s, Step(0, Ok, Nothing));
    s := AfterStep(s, 0, Ok, Nothing);
  }

  /** The n-th retry is executed up to `pc`. */
  ghost predicate Tries(s: State, n: nat, x: nat, pc: Pc, st: Status) {
    Reachable(s) && Stands(s, n, Nth(n), x, pc, st) && |s.log| == n + 1
  }

  /** The next call of `process`, the handler failing. */
  lemma Goes(s: State, n: nat, x: nat, pc: Pc, st: Status) returns (s': State)
    requires Tries(s, n, x, pc, st) && !st.Cancelled? && !pc.Return? && !pc.Reenqueue?
    ensures Tries(s', n, x, PcNext(Nth(n), pc, false), StatusNext(pc, st))
  {
    Advances(s, n, Nth(n), x, pc, st, false);
    ReachStep(s, Work(x, Ok, false));
    s' := AfterWork(s, x, Ok, false);
  }

  lemma NeverOver(n: nat)
    ensures Inc32(AttemptAfter(n)) <= MAX_INT32 && Int32(AttemptAfter(n))
  {
    if n > 0 { NeverOver(n - 1); }
  }

  lemma Path(n: nat)
    ensures PcNext(Nth(n), MarkProcessing, false) == Handle && PcNext(Nth(n), MarkFailed, false) == Reenqueue
    ensures RetryRequest(Nth(n)) == Nth(n + 1)
  {
    NeverOver(n);
  }

  lemma Begins(s: State, n: nat) returns (s': State, x: nat)
    requires Retried(s, n)
    ensures Tries(s', n, x, Handle, Processing)
  {
    var st := s.jobs[0].status;
    x := s.nextExec;
    Path(n);
    Taken(s, n, Nth(n), st);
    ReachStep(s, Deliver(n, 0));
    s' := Apply(s, Deliver(n, 0));
    s' := Goes(s', n, x, GetQueue, st);
    s' := Goes(s', n, x, Acquire, st);
    s' := Goes(s', n, x, Lookup, st);
    s' := Goes(s', n, x, MarkProcessing, st);
  }

  lemma Fails(s: State, n: nat) returns (s': State, x: nat)
    requires Retried(s, n)
    ensures Tries(s', n, x, Reenqueue, Failed)
  {
    s', x := Begins(s, n);
    Path(n);
    s' := Goes(s', n, x, Handle, Processing);
    s' := Goes(s', n, x, MarkFailed, Processing);
  }

  /** However often the job has been retried, it is retried once more. */
  lemma OnceMore(s: State, n: nat) returns (s': State)
    requires Retried(s, n)
    ensures Retried(s', n + 1)
  {
    var s1, x := Fails(s, n);
    Path(n);
    Advances(s1, n, Nth(n), x, Reenqueue, Failed, false);
    ReachStep(s1, Work(x, Ok, false));
    s' := AfterWork(s1, x, Ok, false);
  }

  /** One submit with the largest max_retry and a handler that always fails: the retries never end. */
  lemma {:induction false} RetriesNeverEnd(n: nat) returns (s: State)
    ensures Retried(s, n)
    decreases n
  {
    if n == 0 {
      s := Starts();
    } else {
      s := RetriesNeverEnd(n - 1);
      s := OnceMore(s, n - 1);
    }
  }

  lemma {:induction false} CountsUp(n: nat)
    requires n <= MAX_INT32
    ensures AttemptAfter(n) == n
  {
    if n > 0 { CountsUp(n - 1); }
  }

  /** Every message stays within its budget in every run exactly when its max_retry is not the largest
      int32: there the attempt wraps to a negative number and the job is retried on. */
  lemma RetriesBoundedExactly(maxRetry: int)
    requires Int32(maxRetry)
    ensures StaysWithin(maxRetry) <==> maxRetry != MAX_INT32
  {
    if maxRetry != MAX_INT32 {
      forall s: State, i: nat | Reachable(s) && i < |s.log| && MaxRetry(s.log[i].req) == maxRetry
        ensures 0 <= s.log[i].req.attempt <= Max(maxRetry, 0)
      {
        AttemptsBounded(s);
      }
    } else {
      var n := MAX_INT32 + 1;
      var s := RetriesNeverEnd(n);
      CountsUp(MAX_INT32);
      assert AttemptAfter(n) == Inc32(AttemptAfter(MAX_INT32)) < 0;
      assert MaxRetry(s.log[n].req) == MAX_INT32 && s.log[n].req.attempt < 0;
    }
  }
}
