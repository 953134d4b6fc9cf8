/** Submit admission: a token bucket per queue and one for all. Tokens and times are real
    numbers; a bucket refills at its rate up to its burst. */
module RateLimit {
  import opened Types

  // ---- the bucket ----

  /** A limiter of golang.org/x/time/rate: `tokens` as they were at time `last`. */
  datatype Bucket = Bucket(rate: real, burst: real, tokens: real, last: real)

  function Rmin(a: real, b: real): real {
    if a < b then a else b
  }

  /** Seconds since the tokens were counted; a clock reading before that counts as none. */
  function Elapsed(b: Bucket, t: real): real {
    if t < b.last then 0.0 else t - b.last
  }

  /** Tokens in the bucket after `dt` seconds, and at time `t`. */
  function Filled(b: Bucket, dt: real): real {
    Rmin(b.burst, b.tokens + b.rate * dt)
  }

  function Avail(b: Bucket, t: real): real {
    Filled(b, Elapsed(b, t))
  }

  predicate Admits(b: Bucket, t: real) {
    Avail(b, t) >= 1.0
  }

  /** A token is taken if there is a whole one; a refusal leaves the bucket as it was. */
  function Take(b: Bucket, t: real): Bucket {
    if Admits(b, t) then b.(tokens := Avail(b, t) - 1.0, last := t) else b
  }

  predicate Sound(b: Bucket) {
    0.0 <= b.tokens <= b.burst && b.rate >= 0.0 && b.burst >= 1.0
  }

  /** One call: the tokens left, plus those taken, are at most what had been and what time brought. */
  lemma TakeSpends(b: Bucket, t: real, t': real)
    requires Sound(b) && b.last <= t <= t'
    ensures Sound(Take(b, t)) && Take(b, t).last <= t
    ensures Avail(Take(b, t), t') + (if Admits(b, t) then 1.0 else 0.0) <= Avail(b, t) + b.rate * (t' - t)
  {
    assert b.rate * (t - b.last) >= 0.0;
    assert b.rate * (t' - t) >= 0.0;
    assert b.rate * (t' - b.last) == b.rate * (t - b.last) + b.rate * (t' - t);
  }

  /** Waiting adds at most the rate. */
  lemma Refills(b: Bucket, t: real, t': real)
    requires Sound(b) && b.last <= t <= t'
    ensures 0.0 <= Avail(b, t) <= Avail(b, t') <= Avail(b, t) + b.rate * (t' - t)
    ensures Avail(b, t') <= b.burst
  {
    assert b.rate * (t - b.last) >= 0.0;
    assert b.rate * (t' - t) >= 0.0;
    assert b.rate * (t' - b.last) == b.rate * (t - b.last) + b.rate * (t' - t);
  }

  // ---- the limiter ----

  function Burst(perMin: int): int {
    if perMin < 10 then perMin else if perMin < 60 then 10 else perMin / 6
  }

  /** A fresh bucket is full. */
  function NewBucket(perMin: int, t: real): Bucket {
    Bucket(perMin as real / 60.0, Burst(perMin) as real, Burst(perMin) as real, t)
  }

  /** The buckets as values. A rate that is not positive means no limit. */
  datatype Buckets = Buckets(perQueue: map<string, Bucket>, global: Option<Bucket>, perMinute: int)

  datatype Request = Request(queue: string, time: real)

  function QueueBucket(l: Buckets, queue: string, t: real): Option<Bucket> {
    if queue in l.perQueue then Some(l.perQueue[queue])
    else if l.perMinute <= 0 then None
    else Some(NewBucket(l.perMinute, t))
  }

  predicate Open(b: Option<Bucket>, t: real) {
    b.Some? ==> Admits(b.value, t)
  }

  function Spend(b: Option<Bucket>, t: real): Option<Bucket> {
    if b.Some? then Some(Take(b.value, t)) else None
  }

  predicate Decision(l: Buckets, r: Request) {
    Open(l.global, r.time) && Open(QueueBucket(l, QueueName(r.queue), r.time), r.time)
  }

  /** The global bucket is asked first; only then is the queue's touched, or made. */
  function Next(l: Buckets, r: Request): Buckets {
    var q := QueueName(r.queue);
    var b := Spend(QueueBucket(l, q, r.time), r.time);
    l.(global := Spend(l.global, r.time),
       perQueue := if Open(l.global, r.time) && b.Some? then l.perQueue[q := b.value] else l.perQueue)
  }

  function Later(l: Buckets, rs: seq<Request>): Buckets
    decreases |rs|
  {
    if rs == [] then l else Later(Next(l, rs[0]), rs[1..])
  }

  /** How many of the requests are accepted, on one queue and on all. */
  function AcceptedOn(l: Buckets, rs: seq<Request>, queue: string): nat
    decreases |rs|
  {
    if rs == [] then 0
    else (if QueueName(rs[0].queue) == queue && Decision(l, rs[0]) then 1 else 0) + AcceptedOn(Next(l, rs[0]), rs[1..], queue)
  }

  function Accepted(l: Buckets, rs: seq<Request>): nat
    decreases |rs|
  {
    if rs == [] then 0 else (if Decision(l, rs[0]) then 1 else 0) + Accepted(Next(l, rs[0]), rs[1..])
  }

  class TokenBucketLimiter {
    var perQueue: map<string, Bucket>
    var global: Option<Bucket>
    var perMinute: int

    ghost function Contents(): Buckets
      reads this
    {
      Buckets(perQueue, global, perMinute)
    }

    constructor (perQueuePerMin: int, globalPerMin: int, now: real)
      ensures Contents() == Start(perQueuePerMin, globalPerMin, now)
    {
      global := if globalPerMin > 0 then Some(NewBucket(globalPerMin, now)) else None;
      perQueue := map[];
      perMinute := perQueuePerMin;
    }

    method GetQueueLimiter(queue: string, now: real) returns (b: Option<Bucket>)
      modifies this`perQueue
      ensures b == QueueBucket(old(Contents()), queue, now)
      ensures perQueue == if b.Some? then old(perQueue)[queue := b.value] else old(perQueue)
    {
      if queue in perQueue { return Some(perQueue[queue]); }
      if perMinute <= 0 { return None; }
      b := Some(NewBucket(perMinute, now));
      perQueue := perQueue[queue := b.value];
    }

    /** Whether a submit is let in and, if not, the seconds to wait. */
    method Allow(queue: string, now: real) returns (allowed: bool, retryAfter: int)
      modifies this
      ensures allowed == Decision(old(Contents()), Request(queue, now))
      ensures retryAfter == if allowed then 0 else 60
      ensures Contents() == Next(old(Contents()), Request(queue, now))
    {
      var name := queue;
      if name == "" { name := "default"; }
      if global.Some? {
        var ok := Admits(global.value, now);
        global := Some(Take(global.value, now));
        if !ok { return false, 60; }
      }
      var ql := GetQueueLimiter(name, now);
      if ql.Some? {
        var ok := Admits(ql.value, now);
        perQueue := perQueue[name := Take(ql.value, now)];
        if !ok { return false, 60; }
      }
      return true, 0;
    }
  }

  function Start(perQueuePerMin: int, globalPerMin: int, now: real): Buckets {
    Buckets(map[], if globalPerMin > 0 then Some(NewBucket(globalPerMin, now)) else None, perQueuePerMin)
  }

  // ---- the bounds ----

  predicate Config(b: Bucket, perMin: int) {
    perMin > 0 && b.rate == perMin as real / 60.0 && b.burst == Burst(perMin) as real
  }

  /** Every bucket is sound, was configured with the given rates, and is no later than `t`. */
  ghost predicate Good(l: Buckets, g: int, t: real) {
    && (l.global.Some? <==> g > 0)
    && (l.global.Some? ==> Sound(l.global.value) && Config(l.global.value, g) && l.global.value.last <= t)
    && (forall q :: q in l.perQueue ==>
          Sound(l.perQueue[q]) && Config(l.perQueue[q], l.perMinute) && l.perQueue[q].last <= t)
  }

  /** Times do not go back, and lie between the two. */
  ghost predicate Between(rs: seq<Request>, t0: real, t1: real) {
    && t0 <= t1
    && (forall i :: 0 <= i < |rs| ==> t0 <= rs[i].time <= t1)
    && (forall i, k :: 0 <= i < k < |rs| ==> rs[i].time <= rs[k].time)
  }

  lemma BurstPositive(perMin: int)
    requires perMin > 0
    ensures 1 <= Burst(perMin) <= perMin
  {
  }

  lemma GoodNext(l: Buckets, g: int, r: Request, t: real)
    requires Good(l, g, t) && t <= r.time
    ensures Good(Next(l, r), g, r.time) && Next(l, r).perMinute == l.perMinute
  {
    var q := QueueName(r.queue);
    if l.global.Some? { TakeSpends(l.global.value, r.time, r.time); }
    var b := QueueBucket(l, q, r.time);
    if b.Some? {
      BurstPositive(l.perMinute);
      TakeSpends(b.value, r.time, r.time);
    }
  }

  lemma {:induction false} GoodLater(l: Buckets, g: int, rs: seq<Request>, t0: real, t1: real)
    requires Good(l, g, t0) && Between(rs, t0, t1)
    ensures Good(Later(l, rs), g, if rs == [] then t0 else rs[|rs| - 1].time)
    ensures Later(l, rs).perMinute == l.perMinute
    decreases |rs|
  {
    if rs != [] {
      GoodNext(l, g, rs[0], t0);
      assert Between(rs[1..], rs[0].time, t1);
      GoodLater(Next(l, rs[0]), g, rs[1..], rs[0].time, t1);
    }
  }

  /** The first request of a run, then the rest of them. */
  lemma OneMoreOn(l: Buckets, rs: seq<Request>, queue: string, avail0: real, avail: real, gain0: real, gain: real)
    requires rs != []
    requires avail + (if QueueName(rs[0].queue) == queue && Decision(l, rs[0]) then 1.0 else 0.0) <= avail0 + gain0
    requires AcceptedOn(Next(l, rs[0]), rs[1..], queue) as real <= avail + gain
    ensures AcceptedOn(l, rs, queue) as real <= avail0 + gain0 + gain
  {
  }

  lemma OneMore(l: Buckets, rs: seq<Request>, avail0: real, avail: real, gain0: real, gain: real)
    requires rs != []
    requires avail + (if Decision(l, rs[0]) then 1.0 else 0.0) <= avail0 + gain0
    requires Accepted(Next(l, rs[0]), rs[1..]) as real <= avail + gain
    ensures Accepted(l, rs) as real <= avail0 + gain0 + gain
  {
  }

  /** What a rate per minute brings between two times. */
  function Gain(perMin: int, t0: real, t1: real): real {
    perMin as real / 60.0 * (t1 - t0)
  }

  lemma GainAdds(perMin: int, t0: real, t: real, t1: real)
    ensures Gain(perMin, t0, t) + Gain(perMin, t, t1) == Gain(perMin, t0, t1)
    ensures perMin > 0 && t0 <= t ==> Gain(perMin, t0, t) >= 0.0
  {
  }

  /** What a queue's bucket holds at a time; one not made yet will be full. */
  function QueueAvail(l: Buckets, queue: string, t: real): real {
    if queue in l.perQueue then Avail(l.perQueue[queue], t) else Burst(l.perMinute) as real
  }

  lemma QueueAvailable(l: Buckets, g: int, queue: string, t: real)
    requires Good(l, g, t) && l.perMinute > 0
    ensures 0.0 <= QueueAvail(l, queue, t) <= Burst(l.perMinute) as real
  {
    BurstPositive(l.perMinute);
    if queue in l.perQueue { Refills(l.perQueue[queue], t, t); }
  }

  /** A bucket not made yet is as good as a full one. */
  lemma QueueRefills(l: Buckets, g: int, queue: string, t0: real, t: real)
    requires Good(l, g, t0) && t0 <= t && l.perMinute > 0
    ensures QueueAvail(l, queue, t) <= QueueAvail(l, queue, t0) + Gain(l.perMinute, t0, t)
    ensures Avail(QueueBucket(l, queue, t).value, t) == QueueAvail(l, queue, t)
  {
    GainAdds(l.perMinute, t0, t, t);
    if queue in l.perQueue { Refills(l.perQueue[queue], t0, t); }
  }

  lemma QueueSpends(l: Buckets, g: int, r: Request, queue: string)
    requires Good(l, g, r.time) && l.perMinute > 0
    ensures QueueAvail(Next(l, r), queue, r.time) + (if QueueName(r.queue) == queue && Decision(l, r) then 1.0 else 0.0)
            <= QueueAvail(l, queue, r.time)
  {
    BurstPositive(l.perMinute);
    TakesOne(QueueBucket(l, queue, r.time).value, r.time);
  }

  lemma QueueStep(l: Buckets, g: int, r: Request, queue: string, t0: real)
    requires Good(l, g, t0) && t0 <= r.time && l.perMinute > 0
    ensures QueueAvail(Next(l, r), queue, r.time) + (if QueueName(r.queue) == queue && Decision(l, r) then 1.0 else 0.0)
            <= QueueAvail(l, queue, t0) + Gain(l.perMinute, t0, r.time)
  {
    QueueRefills(l, g, queue, t0, r.time);
    QueueSpends(l, g, r, queue);
  }

  /** From any state of the limiter, the accepts on a queue are paid for by what its bucket
      holds and what time brings. */
  lemma {:induction false} QueueBound(l: Buckets, g: int, rs: seq<Request>, queue: string, t0: real, t1: real)
    requires Good(l, g, t0) && Between(rs, t0, t1) && l.perMinute > 0
    ensures AcceptedOn(l, rs, queue) as real <= QueueAvail(l, queue, t0) + Gain(l.perMinute, t0, t1)
    decreases |rs|
  {
    if rs == [] {
      QueueAvailable(l, g, queue, t0);
      GainAdds(l.perMinute, t0, t1, t1);
    } else {
      var t := rs[0].time;
      var l' := Next(l, rs[0]);
      QueueStep(l, g, rs[0], queue, t0);
      GoodNext(l, g, rs[0], t0);
      QueueBound(l', g, rs[1..], queue, t, t1);
      OneMoreOn(l, rs, queue, QueueAvail(l, queue, t0), QueueAvail(l', queue, t),
                Gain(l.perMinute, t0, t), Gain(l.perMinute, t, t1));
      GainAdds(l.perMinute, t0, t, t1);
    }
  }

  lemma GlobalRefills(l: Buckets, g: int, t0: real, t: real)
    requires Good(l, g, t0) && t0 <= t && g > 0
    ensures Avail(l.global.value, t) <= Avail(l.global.value, t0) + Gain(g, t0, t)
  {
    Refills(l.global.value, t0, t);
  }

  lemma GlobalSpends(l: Buckets, g: int, r: Request)
    requires Good(l, g, r.time) && g > 0
    ensures Next(l, r).global.Some?
    ensures Avail(Next(l, r).global.value, r.time) + (if Decision(l, r) then 1.0 else 0.0) <= Avail(l.global.value, r.time)
  {
    TakeSpends(l.global.value, r.time, r.time);
  }

  lemma GlobalStep(l: Buckets, g: int, r: Request, t0: real)
    requires Good(l, g, t0) && t0 <= r.time && g > 0
    ensures Next(l, r).global.Some?
    ensures Avail(Next(l, r).global.value, r.time) + (if Decision(l, r) then 1.0 else 0.0)
            <= Avail(l.global.value, t0) + Gain(g, t0, r.time)
  {
    GlobalRefills(l, g, t0, r.time);
    GlobalSpends(l, g, r);
  }

  lemma {:induction false} GlobalBound(l: Buckets, g: int, rs: seq<Request>, t0: real, t1: real)
    requires Good(l, g, t0) && Between(rs, t0, t1) && g > 0
    ensures Accepted(l, rs) as real <= Avail(l.global.value, t0) + Gain(g, t0, t1)
    decreases |rs|
  {
    if rs == [] {
      Refills(l.global.value, t0, t0);
      GainAdds(g, t0, t1, t1);
    } else {
      var t := rs[0].time;
      var l' := Next(l, rs[0]);
      GlobalStep(l, g, rs[0], t0);
      GoodNext(l, g, rs[0], t0);
      GlobalBound(l', g, rs[1..], t, t1);
      OneMore(l, rs, Avail(l.global.value, t0), Avail(l'.global.value, t), Gain(g, t0, t), Gain(g, t, t1));
      GainAdds(g, t0, t, t1);
    }
  }

  ghost predicate InOrder(rs: seq<Request>) {
    forall i, k :: 0 <= i < k < |rs| ==> rs[i].time <= rs[k].time
  }

  /** The requests from the `i`th up to the `j`th all come within `span` seconds. */
  ghost predicate Window(rs: seq<Request>, i: nat, j: nat, span: real) {
    i < j <= |rs| && InOrder(rs) && rs[j - 1].time <= rs[i].time + span
  }

  lemma WindowState(p: int, g: int, now: real, rs: seq<Request>, i: nat, j: nat, span: real)
    requires Window(rs, i, j, span) && now <= rs[0].time
    ensures var l := Later(Start(p, g, now), rs[..i]);
            Good(l, g, rs[i].time) && l.perMinute == p
    ensures Between(rs[i..j], rs[i].time, rs[i].time + span)
  {
    StartGood(p, g, now);
    PartBetween(rs, 0, i, now, rs[i].time);
    PartBetween(rs, i, j, rs[i].time, rs[i].time + span);
    assert rs[0..i] == rs[..i];
    GoodLater(Start(p, g, now), g, rs[..i], now, rs[i].time);
  }

  lemma StartGood(p: int, g: int, now: real)
    ensures Good(Start(p, g, now), g, now)
  {
    if g > 0 { BurstPositive(g); }
  }

  lemma PartBetween(rs: seq<Request>, i: nat, j: nat, t0: real, t1: real)
    requires InOrder(rs) && i <= j <= |rs| && t0 <= t1
    requires i < j ==> t0 <= rs[i].time && rs[j - 1].time <= t1
    ensures Between(rs[i..j], t0, t1)
  {
  }

  lemma SpanGain(p: int, t: real, span: real)
    ensures Gain(p, t, t + span) == p as real * span / 60.0
  {
  }

  /** Admission bound: whatever came before, the submits of one queue accepted in any window of
      `span` seconds are at most p * span / 60 and a burst, when p is a positive limit. The
      burst is a sixth of the limit, but ten from ten on and no more than the limit itself. */
  lemma QueueAdmissionBound(p: int, g: int, now: real, rs: seq<Request>, i: nat, j: nat, span: real, queue: string)
    requires Window(rs, i, j, span) && now <= rs[0].time && p > 0
    ensures var accepted := AcceptedOn(Later(Start(p, g, now), rs[..i]), rs[i..j], queue) as real;
            && (p >= 60 ==> accepted <= (p / 6) as real + p as real * span / 60.0)
            && (10 <= p < 60 ==> accepted <= 10.0 + p as real * span / 60.0)
            && (p < 10 ==> accepted <= p as real + p as real * span / 60.0)
  {
    WindowState(p, g, now, rs, i, j, span);
    var l := Later(Start(p, g, now), rs[..i]);
    QueueBound(l, g, rs[i..j], queue, rs[i].time, rs[i].time + span);
    QueueAvailable(l, g, queue, rs[i].time);
    SpanGain(p, rs[i].time, span);
  }

  /** And so for the submits in all, when g is a positive global limit. */
  lemma GlobalAdmissionBound(p: int, g: int, now: real, rs: seq<Request>, i: nat, j: nat, span: real)
    requires Window(rs, i, j, span) && now <= rs[0].time && g > 0
    ensures var accepted := Accepted(Later(Start(p, g, now), rs[..i]), rs[i..j]) as real;
            && (g >= 60 ==> accepted <= (g / 6) as real + g as real * span / 60.0)
            && (10 <= g < 60 ==> accepted <= 10.0 + g as real * span / 60.0)
            && (g < 10 ==> accepted <= g as real + g as real * span / 60.0)
  {
    WindowState(p, g, now, rs, i, j, span);
    var l := Later(Start(p, g, now), rs[..i]);
    GlobalBound(l, g, rs[i..j], rs[i].time, rs[i].time + span);
    Refills(l.global.value, rs[i].time, rs[i].time);
    SpanGain(g, rs[i].time, span);
  }

  // ---- and no fewer: bursts at one instant ----

  ghost predicate AtOnce(rs: seq<Request>, t: real) {
    forall i :: 0 <= i < |rs| ==> rs[i].time == t
  }

  function Fewer(n: nat, k: int): int {
    if n < k then n else k
  }

  /** What one call does to a bucket, exactly. */
  lemma TakesOne(b: Bucket, t: real)
    requires Sound(b) && b.last <= t
    ensures Avail(Take(b, t), t) == Avail(b, t) - (if Admits(b, t) then 1.0 else 0.0)
  {
    if Admits(b, t) { NoTimeNoTokens(Take(b, t), t); }
  }

  lemma NoTimeNoTokens(b: Bucket, t: real)
    requires b.tokens <= b.burst && b.last == t
    ensures Avail(b, t) == b.tokens
  {
    assert b.rate * Elapsed(b, t) == 0.0;
  }

  lemma QueueTakesOne(l: Buckets, g: int, r: Request, queue: string)
    requires Good(l, g, r.time) && l.global.None? && l.perMinute > 0
    ensures Next(l, r).global.None?
    ensures var mine := QueueName(r.queue) == queue;
            && (mine ==> (Decision(l, r) <==> QueueAvail(l, queue, r.time) >= 1.0))
            && QueueAvail(Next(l, r), queue, r.time)
               == QueueAvail(l, queue, r.time) - (if mine && Decision(l, r) then 1.0 else 0.0)
  {
    BurstPositive(l.perMinute);
    if queue in l.perQueue {
      TakesOne(l.perQueue[queue], r.time);
    } else {
      TakesOne(NewBucket(l.perMinute, r.time), r.time);
    }
  }

  /** Of submits at one instant, without a global limit, a queue's bucket lets in as many as it
      has whole tokens. */
  lemma {:induction false} QueueAtOnce(l: Buckets, g: int, rs: seq<Request>, queue: string, t: real)
    requires Good(l, g, t) && l.global.None? && l.perMinute > 0 && AtOnce(rs, t)
    ensures AcceptedOn(l, rs, queue) == Fewer(|Only(rs, queue)|, QueueAvail(l, queue, t).Floor)
    decreases |rs|
  {
    QueueAvailable(l, g, queue, t);
    if rs != [] {
      GoodNext(l, g, rs[0], t);
      QueueTakesOne(l, g, rs[0], queue);
      QueueAtOnce(Next(l, rs[0]), g, rs[1..], queue, t);
      QueueAvailable(Next(l, rs[0]), g, queue, t);
    }
  }

  /** The burst is granted in full and no further: of n submits of one queue at one instant, on
      a fresh limiter without a global limit, exactly min(n, p / 6) are accepted, or min(n, 10),
      or min(n, p), whatever other queues submit with them. Without a limit all of them are. */
  lemma QueueBurstExactly(p: int, g: int, now: real, rs: seq<Request>, queue: string, t: real)
    requires AtOnce(rs, t) && now <= t && g <= 0
    ensures var n := |Only(rs, queue)|;
            var accepted := AcceptedOn(Start(p, g, now), rs, queue);
            && (p >= 60 ==> accepted == Fewer(n, p / 6))
            && (10 <= p < 60 ==> accepted == Fewer(n, 10))
            && (0 < p < 10 ==> accepted == Fewer(n, p))
            && (p <= 0 ==> accepted == n)
  {
    if p > 0 {
      QueueAtOnce(Start(p, g, now), g, rs, queue, t);
    } else {
      NoLimitNoRefusal(Start(p, g, now), rs, queue);
    }
  }

  lemma {:induction false} NoLimitNoRefusal(l: Buckets, rs: seq<Request>, queue: string)
    requires l.global.None? && l.perMinute <= 0 && l.perQueue == map[]
    ensures AcceptedOn(l, rs, queue) == |Only(rs, queue)|
    decreases |rs|
  {
    if rs != [] { NoLimitNoRefusal(Next(l, rs[0]), rs[1..], queue); }
  }

  lemma {:induction false} GlobalAtOnce(l: Buckets, g: int, rs: seq<Request>, t: real)
    requires Good(l, g, t) && g > 0 && l.perMinute <= 0 && l.perQueue == map[] && AtOnce(rs, t)
    ensures Accepted(l, rs) == Fewer(|rs|, Avail(l.global.value, t).Floor)
    decreases |rs|
  {
    Refills(l.global.value, t, t);
    if rs != [] {
      GoodNext(l, g, rs[0], t);
      TakesOne(l.global.value, t);
      GlobalAtOnce(Next(l, rs[0]), g, rs[1..], t);
    }
  }

  /** So it is with all submits together when the only limit is the global one. */
  lemma GlobalBurstExactly(p: int, g: int, now: real, rs: seq<Request>, t: real)
    requires AtOnce(rs, t) && now <= t && p <= 0 && g > 0
    ensures var accepted := Accepted(Start(p, g, now), rs);
            && (g >= 60 ==> accepted == Fewer(|rs|, g / 6))
            && (10 <= g < 60 ==> accepted == Fewer(|rs|, 10))
            && (g < 10 ==> accepted == Fewer(|rs|, g))
  {
    BurstPositive(g);
    Refills(NewBucket(g, now), now, t);
    GlobalFull(g, now, t);
    GlobalAtOnce(Start(p, g, now), g, rs, t);
  }

  lemma GlobalFull(g: int, now: real, t: real)
    requires g > 0 && now <= t
    ensures Avail(NewBucket(g, now), t) == Burst(g) as real
  {
    assert g as real / 60.0 * (t - now) >= 0.0;
  }

  /** What a refusal costs: one by the global bucket changes nothing; one by the queue's has
      taken a token from the global bucket and left the queue's own tokens as they were. */
  lemma RefusalCosts(l: Buckets, g: int, r: Request)
    requires Good(l, g, r.time) && g > 0 && !Decision(l, r)
    ensures var q := QueueName(r.queue);
            var available := Avail(l.global.value, r.time);
            && (available < 1.0 ==> Next(l, r) == l)
            && (available >= 1.0 ==> q in l.perQueue && Avail(l.perQueue[q], r.time) < 1.0
                                     && Next(l, r).perQueue == l.perQueue
                                     && Avail(Next(l, r).global.value, r.time) == available - 1.0)
  {
    var q := QueueName(r.queue);
    TakesOne(l.global.value, r.time);
    if l.perMinute > 0 { BurstPositive(l.perMinute); }
    if Open(l.global, r.time) {
      assert q in l.perQueue;
      assert l.perQueue[q := l.perQueue[q]] == l.perQueue;
    }
  }

  // ---- queues do not disturb each other ----

  /** The requests on one queue. */
  function Only(rs: seq<Request>, queue: string): seq<Request> {
    if rs == [] then []
    else if QueueName(rs[0].queue) == queue then [rs[0]] + Only(rs[1..], queue)
    else Only(rs[1..], queue)
  }

  function Decisions(l: Buckets, rs: seq<Request>): seq<bool>
    decreases |rs|
  {
    if rs == [] then [] else [Decision(l, rs[0])] + Decisions(Next(l, rs[0]), rs[1..])
  }

  /** The decisions on one queue, in the company of the others. */
  function DecisionsOn(l: Buckets, rs: seq<Request>, queue: string): seq<bool>
    decreases |rs|
  {
    if rs == [] then []
    else (if QueueName(rs[0].queue) == queue then [Decision(l, rs[0])] else []) + DecisionsOn(Next(l, rs[0]), rs[1..], queue)
  }

  /** Two limiters without a global bucket that agree on one queue. */
  predicate AgreeOn(a: Buckets, b: Buckets, queue: string) {
    && a.global.None? && b.global.None? && a.perMinute == b.perMinute
    && (queue in a.perQueue <==> queue in b.perQueue)
    && (queue in a.perQueue ==> a.perQueue[queue] == b.perQueue[queue])
  }

  /** Without a global limit, what a queue's submits are told does not depend on any other queue's. */
  lemma {:induction false} QueuesAreIndependent(a: Buckets, b: Buckets, rs: seq<Request>, queue: string)
    requires AgreeOn(a, b, queue)
    ensures DecisionsOn(a, rs, queue) == Decisions(b, Only(rs, queue))
    decreases |rs|
  {
    if rs != [] {
      var r := rs[0];
      if QueueName(r.queue) == queue {
        assert Only(rs, queue)[0] == r && Only(rs, queue)[1..] == Only(rs[1..], queue);
        QueuesAreIndependent(Next(a, r), Next(b, r), rs[1..], queue);
      } else {
        QueuesAreIndependent(Next(a, r), b, rs[1..], queue);
      }
    }
  }

  lemma OneTokenTime(p: int, rate: real, wait: real, longer: real)
    requires rate == p as real / 60.0 && p > 0 && wait * p as real >= 60.0 && longer >= wait
    ensures rate * longer >= 1.0
  {
    assert rate * wait == wait * p as real / 60.0;
    assert rate * (longer - wait) >= 0.0;
    assert rate * longer == rate * wait + rate * (longer - wait);
  }

  lemma AdmitsAfterWait(b: Bucket, p: int, t: real, t': real)
    requires Sound(b) && Config(b, p) && b.last <= t <= t' && (t' - t) * p as real >= 60.0
    ensures Admits(b, t')
  {
    OneTokenTime(p, b.rate, t' - t, t' - b.last);
    EnoughTokens(b, t' - b.last);
  }

  lemma EnoughTokens(b: Bucket, dt: real)
    requires Sound(b) && b.rate * dt >= 1.0
    ensures Filled(b, dt) >= 1.0
  {
  }

  /** A queue left alone for 60/p seconds is let in again, if there is no global limit. */
  lemma IdleQueueIsAdmitted(l: Buckets, g: int, r: Request, t: real)
    requires Good(l, g, t) && l.global.None? && l.perMinute > 0
    requires t <= r.time && (r.time - t) * l.perMinute as real >= 60.0
    ensures Decision(l, r)
  {
    var q := QueueName(r.queue);
    if q in l.perQueue {
      AdmitsAfterWait(l.perQueue[q], l.perMinute, t, r.time);
    } else {
      BurstPositive(l.perMinute);
    }
  }
}
