/** Offsets of one partition: fetched in order, processed in any order by any number of
    goroutines, committed one message at a time, and fetched again from the committed offset
    after a restart. */
module PartitionLog {

  datatype State = State(
    end: nat,                 // messages in the partition
    committed: nat,           // where a restarted consumer begins
    position: nat,            // next offset to fetch
    outstanding: set<nat>,    // queued or being processed
    toCommit: set<nat>,       // `process` returned, or the message did not decode; commit still to be called
    done: set<nat>,           // ever processed or rejected
    overtaken: set<nat>)      // ever outstanding while a higher offset was committed

  function Init(): State {
    State(0, 0, 0, {}, {}, {}, {})
  }

  /** `Commit` may fail; when it succeeds the committed offset is the one after the message,
      which may lie below what was committed before. */
  datatype Event = Produce | Fetch(decodes: bool) | Finish(offset: nat) | Commit(offset: nat, applied: bool) | Restart

  predicate Enabled(s: State, e: Event) {
    match e
    case Produce => true
    case Fetch(_) => s.position < s.end
    case Finish(o) => o in s.outstanding
    case Commit(o, _) => o in s.toCommit
    case Restart => true
  }

  function Below(outstanding: set<nat>, o: nat): set<nat> {
    set k | k in outstanding && k < o
  }

  function Apply(s: State, e: Event): State
    requires Enabled(s, e)
  {
    match e
    case Produce => s.(end := s.end + 1)
    case Fetch(true) => s.(position := s.position + 1, outstanding := s.outstanding + {s.position})
    case Fetch(false) =>
      s.(position := s.position + 1, done := s.done + {s.position}, toCommit := s.toCommit + {s.position})
    case Finish(o) =>
      s.(outstanding := s.outstanding - {o}, done := s.done + {o}, toCommit := s.toCommit + {o})
    case Commit(o, true) =>
      s.(toCommit := s.toCommit - {o}, committed := o + 1, overtaken := s.overtaken + Below(s.outstanding, o))
    case Commit(o, false) => s.(toCommit := s.toCommit - {o})
    case Restart => s.(position := s.committed, outstanding := {}, toCommit := {})
  }

  predicate Legal(s: State, run: seq<Event>)
    decreases |run|
  {
    run != [] ==> Enabled(s, run[0]) && Legal(Apply(s, run[0]), run[1..])
  }

  function After(s: State, run: seq<Event>): State
    requires Legal(s, run)
    decreases |run|
  {
    if run == [] then s else After(Apply(s, run[0]), run[1..])
  }

  /** Some step of the run commits past an offset that is still outstanding. */
  predicate Overtakes(s: State, run: seq<Event>)
    requires Legal(s, run)
    decreases |run|
  {
    run != [] &&
    ((run[0].Commit? && run[0].applied && Below(s.outstanding, run[0].offset) != {}) || Overtakes(Apply(s, run[0]), run[1..]))
  }

  /** Passed over by a restart for good: below the committed offset, and neither done nor held. */
  predicate Lost(s: State, k: nat) {
    k < s.committed && k < s.position && k !in s.done && k !in s.outstanding
  }

  ghost predicate Covered(s: State) {
    && s.committed <= s.end && s.position <= s.end
    && (forall k :: k in s.outstanding ==> k < s.position)
    && (forall k :: k in s.toCommit ==> k < s.position && k in s.done)
    && (forall k: nat :: k < s.committed ==> k in s.done || k in s.overtaken)
    && (forall k: nat :: k < s.position ==> k in s.done || k in s.outstanding || k in s.overtaken)
  }

  lemma CoveredStep(s: State, e: Event)
    requires Covered(s) && Enabled(s, e)
    ensures Covered(Apply(s, e))
  {
  }

  lemma {:induction false} CoveredAlways(s: State, run: seq<Event>)
    requires Covered(s) && Legal(s, run)
    ensures Covered(After(s, run))
    decreases |run|
  {
    if run != [] {
      CoveredStep(s, run[0]);
      CoveredAlways(Apply(s, run[0]), run[1..]);
    }
  }

  /** In every run, crashes included: each offset below the committed one was processed or
      rejected, or was outstanding when a higher offset was committed. */
  lemma CommittedIsDoneOrOvertaken(run: seq<Event>, k: nat)
    requires Legal(Init(), run) && k < After(Init(), run).committed
    ensures k in After(Init(), run).done || k in After(Init(), run).overtaken
  {
    CoveredAlways(Init(), run);
  }

  /** The history of overtaking is what the steps of the run say. */
  lemma {:induction false} OvertakenIff(s: State, run: seq<Event>)
    requires Legal(s, run)
    ensures s.overtaken <= After(s, run).overtaken
    ensures s.overtaken == {} ==> (After(s, run).overtaken != {} <==> Overtakes(s, run))
    decreases |run|
  {
    if run != [] {
      OvertakenIff(Apply(s, run[0]), run[1..]);
    }
  }

  /** Without overtaking nothing is lost: at any moment every message of the partition is done, or
      held, or still to be fetched, even right after a restart. */
  lemma NothingLost(run: seq<Event>, k: nat)
    requires Legal(Init(), run) && !Overtakes(Init(), run) && k < After(Init(), run).end
    ensures var s := After(Init(), run);
            && (k in s.done || k in s.outstanding || k >= s.position)
            && (k in s.done || k >= Apply(s, Restart).position)
  {
    CoveredAlways(Init(), run);
    OvertakenIff(Init(), run);
  }

  /** Exactly what a restart loses: the messages below the committed offset not done by then. */
  lemma RestartLoses(run: seq<Event>, k: nat)
    requires Legal(Init(), run)
    ensures var s := After(Init(), run);
            Lost(Apply(s, Restart), k) <==> k < s.committed && k !in s.done
    ensures Lost(Apply(After(Init(), run), Restart), k) ==> Overtakes(Init(), run)
  {
    CoveredAlways(Init(), run);
    OvertakenIff(Init(), run);
  }

  /** What the last commit of the run to succeed said, read from its end. */
  function LastCommit(run: seq<Event>): nat {
    if run == [] then 0
    else
      var e := run[|run| - 1];
      if e.Commit? && e.applied then e.offset + 1 else LastCommit(run[..|run| - 1])
  }

  lemma {:induction false} LastStep(s: State, run: seq<Event>, e: Event)
    requires Legal(s, run + [e])
    ensures Legal(s, run) && Enabled(After(s, run), e) && After(s, run + [e]) == Apply(After(s, run), e)
    decreases |run|
  {
    assert (run + [e])[0] == if run == [] then e else run[0];
    if run == [] {
      assert (run + [e])[1..] == [];
    } else {
      assert (run + [e])[1..] == run[1..] + [e];
      LastStep(Apply(s, run[0]), run[1..], e);
    }
  }

  /** The committed offset is that of the last commit alone, lower or higher than those before it;
      from there a restarted consumer fetches, and so repeats what is done beyond it. */
  lemma {:induction false} CommittedIsLast(run: seq<Event>)
    requires Legal(Init(), run)
    ensures After(Init(), run).committed == LastCommit(run)
    ensures Apply(After(Init(), run), Restart).position == LastCommit(run)
    decreases |run|
  {
    if run != [] {
      var init := run[..|run| - 1];
      assert run == init + [run[|run| - 1]];
      LastStep(Init(), init, run[|run| - 1]);
      CommittedIsLast(init);
    }
  }

  /** Two messages are enough: the later one finishes and commits first, then the worker dies. */
  lemma OvertakingLoses() returns (run: seq<Event>)
    ensures Legal(Init(), run) && Lost(After(Init(), run), 0)
  {
    var s2 := State(2, 0, 0, {}, {}, {}, {});
    var s4 := State(2, 0, 2, {0, 1}, {}, {}, {});
    var s5 := State(2, 0, 2, {0}, {1}, {1}, {});
    var s6 := State(2, 2, 2, {0}, {}, {1}, {0});
    var s7 := State(2, 2, 2, {}, {}, {1}, {0});
    assert Apply(s6, Restart) == s7;
    assert Apply(s5, Commit(1, true)) == s6 by { assert Below({0}, 1) == {0}; }
    assert Apply(s4, Finish(1)) == s5;
    assert Apply(Apply(s2, Fetch(true)), Fetch(true)) == s4;
    assert Apply(Apply(Init(), Produce), Produce) == s2;
    run := Prepend(s6, Restart, []);
    run := Prepend(s5, Commit(1, true), run);
    run := Prepend(s4, Finish(1), run);
    run := Prepend(Apply(s2, Fetch(true)), Fetch(true), run);
    run := Prepend(s2, Fetch(true), run);
    run := Prepend(Apply(Init(), Produce), Produce, run);
    run := Prepend(Init(), Produce, run);
  }

  lemma Prepend(s: State, e: Event, rest: seq<Event>) returns (run: seq<Event>)
    requires Enabled(s, e) && Legal(Apply(s, e), rest)
    ensures run == [e] + rest && Legal(s, run) && After(s, run) == After(Apply(s, e), rest)
  {
    run := [e] + rest;
    assert run[0] == e && run[1..] == rest;
  }
}
