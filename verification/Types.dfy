/** The values the job processor passes between its API, its workers and its tables. */
module Types {

  datatype Option<+T> = None | Some(value: T)

  const MAX_INT32 := 0x7fff_ffff

  predicate Int32(n: int) {
    -MAX_INT32 - 1 <= n <= MAX_INT32
  }

  /** `attempt + 1` on an int32: the largest value wraps to the smallest. */
  function Inc32(n: int): int {
    if n == MAX_INT32 then -MAX_INT32 - 1 else n + 1
  }

  function Max(a: int, b: int): int {
    if a < b then b else a
  }

  function Min(a: int, b: int): int {
    if a < b then a else b
  }

  // ---- payloads and job types ----

  /** An invoice payload that decodes. `failUntil` is `_demo_fail_until_attempt`; a sound
      invoice is one whose template, data and output path are all usable. */
  datatype InvoiceBody = InvoiceBody(failUntil: Option<int>, sound: bool)

  /** A payload is seen through the two decoders whose verdict matters to the protocol:
      the `to` field if it decodes as an email, the body if it decodes as an invoice. */
  datatype Payload = Payload(emailTo: Option<string>, invoice: Option<InvoiceBody>)

  const EMAIL := "email"
  const INVOICE := "invoice"

  /** The handlers the worker registers at start-up. */
  predicate Registered(typ: string) {
    typ in {"hello", EMAIL, "image", INVOICE, "report", "sleep"}
  }

  /** The characters `strings.TrimSpace` removes (Unicode White_Space). */
  predicate IsSpace(c: char) {
    c in {' ', '\t', '\n', '\r', '\U{0B}', '\U{0C}', '\U{85}', '\U{A0}', '\U{1680}', '\U{2028}', '\U{2029}',
          '\U{202F}', '\U{205F}', '\U{3000}'}
    || '\U{2000}' <= c <= '\U{200A}'
  }

  predicate ValidEmailPayload(p: Payload) {
    p.emailTo.Some? && exists i :: 0 <= i < |p.emailTo.value| && !IsSpace(p.emailTo.value[i])
  }

  // What remains of a string without the white space at its two ends.

  /** The code points of the Unicode property White_Space. */
  predicate WhiteSpace(c: char) {
    var k := c as int;
    9 <= k <= 13 || k == 32 || k == 133 || k == 160 || k == 5760
    || 8192 <= k <= 8202 || k == 8232 || k == 8233 || k == 8239 || k == 8287 || k == 12288
  }

  function TrimLeft(s: string): string {
    if s != [] && WhiteSpace(s[0]) then TrimLeft(s[1..]) else s
  }

  function TrimRight(s: string): string {
    if s != [] && WhiteSpace(s[|s| - 1]) then TrimRight(s[..|s| - 1]) else s
  }

  function Trim(s: string): string {
    TrimRight(TrimLeft(s))
  }

  lemma SpacesAgree(c: char)
    ensures IsSpace(c) <==> WhiteSpace(c)
  {
  }

  lemma {:induction false} TrimLeftKeepsInk(s: string)
    ensures (exists i :: 0 <= i < |s| && !IsSpace(s[i])) <==> TrimLeft(s) != ""
    ensures TrimLeft(s) != "" ==> !WhiteSpace(TrimLeft(s)[0])
  {
    if s != [] {
      SpacesAgree(s[0]);
      if WhiteSpace(s[0]) {
        TrimLeftKeepsInk(s[1..]);
        forall i | 0 <= i < |s| && !IsSpace(s[i]) ensures !IsSpace(s[1..][i - 1]) { }
      }
    }
  }

  lemma {:induction false} TrimRightKeepsFirst(s: string)
    requires s != "" && !WhiteSpace(s[0])
    ensures TrimRight(s) != ""
  {
    if |s| > 1 && WhiteSpace(s[|s| - 1]) { TrimRightKeepsFirst(s[..|s| - 1]); }
  }

  /** A payload passes the email validation exactly when it decodes and something of its
      recipient remains after trimming. */
  lemma ValidExactlyWhenTrimmed(p: Payload)
    ensures ValidEmailPayload(p) <==> p.emailTo.Some? && Trim(p.emailTo.value) != ""
  {
    if p.emailTo.Some? {
      TrimLeftKeepsInk(p.emailTo.value);
      if TrimLeft(p.emailTo.value) != "" { TrimRightKeepsFirst(TrimLeft(p.emailTo.value)); }
    }
  }

  /** Which outcomes a handler may have. Only the invoice handler is constrained: it refuses
      every attempt below `failUntil`, and past that gate a sound invoice is produced. */
  predicate HandlerMay(typ: string, p: Payload, attempt: int, success: bool) {
    typ == INVOICE ==>
      match p.invoice
      case None => !success
      case Some(b) =>
        if b.failUntil.Some? && attempt < b.failUntil.value then !success
        else b.sound ==> success
  }

  /** An empty queue name means the default queue. */
  function QueueName(q: string): string {
    if q == "" then "default" else q
  }

  // ---- messages on job.requests ----

  datatype Options = Options(maxRetry: int, runAt: int, priority: int)

  datatype JobRequest = JobRequest(
    job: nat, typ: string, payload: Payload, queue: string, attempt: int, options: Option<Options>)

  /** The record `Producer.Enqueue` writes: options are attached only if one of them matters. */
  function MakeRequest(job: nat, typ: string, payload: Payload, queue: string,
                       maxRetry: int, runAt: int, attempt: int, priority: int): JobRequest {
    JobRequest(job, typ, payload, queue, attempt,
      if maxRetry > 0 || runAt > 0 || priority != 0 then Some(Options(maxRetry, runAt, priority)) else None)
  }

  /** What the worker reads back: absent options count as zero. */
  function MaxRetry(r: JobRequest): int {
    if r.options.Some? then r.options.value.maxRetry else 0
  }

  function PriorityOf(r: JobRequest): int {
    if r.options.Some? then r.options.value.priority else 0
  }

  /** Retries a message is good for. */
  function Budget(r: JobRequest): nat {
    Max(MaxRetry(r), 0)
  }

  function RetryRequest(r: JobRequest): JobRequest {
    MakeRequest(r.job, r.typ, r.payload, r.queue, MaxRetry(r), 0, Inc32(r.attempt), PriorityOf(r))
  }

  // ---- rows ----

  datatype Status = Pending | Scheduled | Processing | Completed | Failed | Archived | Cancelled

  datatype Job = Job(
    typ: string, payload: Payload, queue: string, status: Status, attempt: int,
    completedAt: Option<int>, runAt: int, key: string, priority: int)

  datatype OutboxStatus = Unsent | Sent | SendFailed

  /** An outbox row; its id is its position. `writer` is the execution that wrote it and `tries`
      records the delivery attempts made for it (neither is a column). */
  datatype OutboxRow = OutboxRow(
    job: nat, typ: string, payload: Payload, status: OutboxStatus, createdAt: int, writer: nat, tries: seq<bool>)

  /** A cron schedule. `first` is the next_run_at it was created with (not a column). */
  datatype Schedule = Schedule(
    typ: string, payload: Payload, cron: string, queue: string, maxRetry: int, nextRun: int, first: int)

  // ---- what a call to the store or to Kafka may do ----

  /** A call takes effect and says so, fails without effect, or takes effect and loses the reply. */
  datatype Outcome = Ok | Failure | LostReply

  predicate Applied(o: Outcome) {
    !o.Failure?
  }
}
