/** The per-type limit: the length of every channel is the number of executions holding it. */
module Semaphore {
  import opened Types
  import opened Tables
  import opened Protocol
  import opened Identity

  ghost predicate Holds(s: State, x: nat, w: nat, typ: string) {
    x in s.execs && s.execs[x].offset < |s.log| && s.execs[x].worker == w && Holding(s.execs[x].pc)
    && s.log[s.execs[x].offset].req.typ == typ
  }

  ghost function Holders(s: State, w: nat, typ: string): set<nat> {
    set x | x in s.execs && Holds(s, x, w, typ)
  }

  ghost predicate SemOk(s: State) {
    s.limit > 0 ==>
      forall w: nat, typ: string :: Held(s, w, typ) == |Holders(s, w, typ)| <= s.limit
  }

  lemma HoldersWork(s: State, x: nat, o: Outcome, success: bool, w: nat, typ: string)
    requires IdsOk(s) && WorkEnabled(s, x, success)
    ensures var e := s.execs[x];
            var mine := e.worker == w && ReqOf(s, x).typ == typ;
            Holders(AfterWork(s, x, o, success), w, typ) ==
              if mine && e.pc.Acquire? then Holders(s, w, typ) + {x}
              else if mine && e.pc == Return(true) then Holders(s, w, typ) - {x}
              else Holders(s, w, typ)
  {
    var s' := AfterWork(s, x, o, success);
    OthersHold(s, x, o, success, w, typ);
    assert Holds(s', x, w, typ) ==> s.execs[x].worker == w && ReqOf(s, x).typ == typ;
  }

  lemma OthersHold(s: State, x: nat, o: Outcome, success: bool, w: nat, typ: string)
    requires IdsOk(s) && WorkEnabled(s, x, success)
    ensures forall y: nat :: y != x ==> Holds(AfterWork(s, x, o, success), y, w, typ) == Holds(s, y, w, typ)
  {
  }

  lemma HeldWork(s: State, x: nat, o: Outcome, success: bool, w: nat, typ: string)
    requires WorkEnabled(s, x, success) && s.limit > 0
    ensures var e := s.execs[x];
            var mine := e.worker == w && ReqOf(s, x).typ == typ;
            Held(AfterWork(s, x, o, success), w, typ) ==
              Held(s, w, typ) + if mine && e.pc.Acquire? then 1 else if mine && e.pc == Return(true) then -1 else 0
  {
  }

  lemma SemWork(s: State, x: nat, o: Outcome, success: bool)
    requires IdsOk(s) && SemOk(s) && WorkEnabled(s, x, success)
    ensures SemOk(AfterWork(s, x, o, success))
  {
    if s.limit > 0 {
      var s' := AfterWork(s, x, o, success);
      forall w: nat, typ: string ensures Held(s', w, typ) == |Holders(s', w, typ)| <= s'.limit {
        CountWork(s, x, o, success, w, typ);
      }
    }
  }

  lemma CountWork(s: State, x: nat, o: Outcome, success: bool, w: nat, typ: string)
    requires IdsOk(s) && WorkEnabled(s, x, success) && s.limit > 0
    requires Held(s, w, typ) == |Holders(s, w, typ)| <= s.limit
    ensures Held(AfterWork(s, x, o, success), w, typ) == |Holders(AfterWork(s, x, o, success), w, typ)| <= s.limit
  {
    HoldersWork(s, x, o, success, w, typ);
    HeldWork(s, x, o, success, w, typ);
    assert x in Holders(s, w, typ) <==> Holds(s, x, w, typ);
  }

  lemma SemOther(s: State, e: Event)
    requires IdsOk(s) && SemOk(s) && Enabled(s, e) && !e.Work? && !e.Crash?
    ensures SemOk(Apply(s, e))
  {
    var s' := Apply(s, e);
    ApplyExtends(s, e);
    assert forall x :: x in s.execs ==> x in s'.execs && s'.execs[x] == s.execs[x];
    if s.limit > 0 {
      forall w: nat, typ: string ensures Held(s', w, typ) == |Holders(s', w, typ)| <= s'.limit {
        assert Held(s, w, typ) == |Holders(s, w, typ)| <= s.limit;
        assert Holders(s', w, typ) == Holders(s, w, typ);
      }
    }
  }

  lemma SemCrash(s: State, dead: nat)
    requires IdsOk(s) && SemOk(s)
    ensures SemOk(AfterCrash(s, dead))
  {
    var s' := AfterCrash(s, dead);
    if s.limit > 0 {
      forall w: nat, typ: string ensures Held(s', w, typ) == |Holders(s', w, typ)| <= s'.limit {
        assert Held(s, w, typ) == |Holders(s, w, typ)| <= s.limit;
        assert Holders(s', w, typ) == if w == dead then {} else Holders(s, w, typ);
      }
    }
  }

  lemma SemStep(s: State, e: Event)
    requires IdsOk(s) && SemOk(s) && Enabled(s, e)
    ensures SemOk(Apply(s, e))
  {
    match e {
      case Work(x, o, success) => SemWork(s, x, o, success);
      case Crash(w) => SemCrash(s, w);
      case _ => SemOther(s, e);
    }
  }

  /** Release never blocks: the channel of an execution that acquired is not empty. */
  lemma ReleaseNeverBlocks(s: State, x: nat)
    requires IdsOk(s) && SemOk(s) && s.limit > 0 && x in s.execs && s.execs[x].pc == Return(true)
    ensures Held(s, s.execs[x].worker, ReqOf(s, x).typ) >= 1
  {
    var w, typ := s.execs[x].worker, ReqOf(s, x).typ;
    assert Held(s, w, typ) == |Holders(s, w, typ)|;
    assert x in Holders(s, w, typ);
  }
}
