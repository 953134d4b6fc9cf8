/** How many outbox rows a job has: one for each completion that was committed. */
module Completions {
  import opened Types
  import opened Tables
  import opened Protocol
  import opened Tokens

  /** Whether an event commits a completion of job `j` together with its outbox row. */
  ghost predicate Commits(s: State, e: Event, j: nat) {
    e.Work? && e.exec in s.execs && s.execs[e.exec].offset < |s.log| && ReqOf(s, e.exec).job == j
    && s.execs[e.exec].pc.CompleteEmail? && Applied(e.outcome)
  }

  /** The committed completions of job `j` in a run. */
  ghost function Committed(s: State, run: seq<Event>, j: nat): nat
    requires Legal(s, run)
    decreases |run|
  {
    if run == [] then 0
    else (if Commits(s, run[0], j) then 1 else 0) + Committed(Apply(s, run[0]), run[1..], j)
  }

  lemma WorkCommits(s: State, x: nat, o: Outcome, success: bool, j: nat)
    requires WorkEnabled(s, x, success)
    ensures RowsOf(AfterWork(s, x, o, success).outbox, j)
            == RowsOf(s.outbox, j) + if Commits(s, Work(x, o, success), j) then {|s.outbox|} else {}
  {
  }

  lemma CallsDoNot(s: State, c: nat, o: Outcome, a: Answer, j: nat)
    requires StepEnabled(s, c, o, a)
    ensures RowsOf(AfterStep(s, c, o, a).outbox, j) == RowsOf(s.outbox, j)
  {
  }

  lemma CommitStep(s: State, e: Event, j: nat)
    requires Enabled(s, e)
    ensures |RowsOf(Apply(s, e).outbox, j)| == |RowsOf(s.outbox, j)| + if Commits(s, e, j) then 1 else 0
  {
    match e {
      case Work(x, o, success) =>
        WorkCommits(s, x, o, success, j);
        assert |s.outbox| !in RowsOf(s.outbox, j);
      case Step(c, o, a) => CallsDoNot(s, c, o, a, j);
      case _ =>
    }
  }

  /** In every run, whatever fails, is redelivered or crashes: a job gains exactly as many outbox
      rows as completions of it are committed. */
  lemma {:induction false} OneRowPerCommit(s: State, run: seq<Event>, j: nat)
    requires Legal(s, run)
    ensures |RowsOf(After(s, run).outbox, j)| == |RowsOf(s.outbox, j)| + Committed(s, run, j)
    decreases |run|
  {
    if run != [] {
      CommitStep(s, run[0], j);
      OneRowPerCommit(Apply(s, run[0]), run[1..], j);
    }
  }
}
