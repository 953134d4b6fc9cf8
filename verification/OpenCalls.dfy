/** Fault-free runs in which submits and cancels may also be under way: begun, and past their lookup,
    with anything in between. Until such a call writes, every job stays in order. */
module OpenCalls {
  import opened Types
  import opened Tables
  import opened Protocol
  import opened Identity
  import opened Tokens
  import opened FaultFree
  import opened EveryRun
  import opened Conservation
  import opened ApiEffects
  import opened ListedRows
  import opened FaultFreeRuns

  datatype OEvent =
    | Whole(f: FEvent)
    | Open(call: Call)    // a submit or a cancel begins
    | Look(c: nat)        // and looks its row up

  predicate Opens(call: Call) {
    call.Submit? || call.Cancel?
  }

  predicate Looking(call: Call) {
    (call.Submit? && call.spc.SLookup?) || (call.Cancel? && call.cpc.CLookup?)
  }

  ghost predicate OEnabled(s: State, e: OEvent) {
    match e
    case Whole(f) => FEnabled(s, f)
    case Open(call) => Fresh(s, call) && Opens(call)
    case Look(c) => c < |s.calls| && Looking(s.calls[c])
  }

  ghost function OApply(s: State, e: OEvent): State
    requires OEnabled(s, e)
  {
    match e
    case Whole(f) => FApply(s, f)
    case Open(call) => Begun(s, call)
    case Look(c) => AfterStep(s, c, Ok, Nothing)
  }

  ghost predicate OLegal(s: State, run: seq<OEvent>)
    decreases |run|
  {
    run != [] ==> OEnabled(s, run[0]) && OLegal(OApply(s, run[0]), run[1..])
  }

  ghost function OAfter(s: State, run: seq<OEvent>): State
    requires OLegal(s, run)
    decreases |run|
  {
    if run == [] then s else OAfter(OApply(s, run[0]), run[1..])
  }

  ghost predicate OReachable(s: State) {
    exists limit: int, clock: int, run: seq<OEvent> {:trigger OLegal(Init(limit, clock), run)} ::
      OLegal(Init(limit, clock), run) && OAfter(Init(limit, clock), run) == s
  }

  function Wholes(run: seq<FEvent>): seq<OEvent> {
    if run == [] then [] else [Whole(run[0])] + Wholes(run[1..])
  }

  lemma {:induction false} WholesLegal(s: State, run: seq<FEvent>)
    requires FLegal(s, run)
    ensures OLegal(s, Wholes(run)) && OAfter(s, Wholes(run)) == FAfter(s, run)
    decreases |run|
  {
    if run != [] {
      WholesLegal(FApply(s, run[0]), run[1..]);
      assert Wholes(run)[1..] == Wholes(run[1..]);
    }
  }

  /** Every fault-free run is one of these. */
  lemma WholeReachable(s: State)
    requires FReachable(s)
    ensures OReachable(s)
  {
    var limit: int, clock: int, run: seq<FEvent> :| FLegal(Init(limit, clock), run) && FAfter(Init(limit, clock), run) == s;
    WholesLegal(Init(limit, clock), run);
  }

  // ---- what such a step keeps ----

  lemma OpensQuietly(s: State, call: Call)
    requires Opens(call)
    ensures Unchanged(s, Begun(s, call)) && OtherCalls(s, Begun(s, call), |s.calls|)
    ensures Begun(s, call).calls[|s.calls|] == call
  {
  }

  lemma LooksQuietly(s: State, c: nat)
    requires c < |s.calls| && Looking(s.calls[c])
    ensures StepEnabled(s, c, Ok, Nothing)
    ensures var s' := AfterStep(s, c, Ok, Nothing);
            Unchanged(s, s') && OtherCalls(s, s', c) && Opens(s'.calls[c])
  {
  }

  /** A call that promotes and fires nothing has moved, and no table has changed. */
  lemma QuietMove(s: State, s': State, c: nat)
    requires FInv(s) && Safe(s') && Unchanged(s, s') && OtherCalls(s, s', c) && Opens(s'.calls[c])
    ensures FInv(s')
  {
    UnchangedOk(s, s');
    OthersRest(s, s', c);
    assert forall j :: Dormant(s, j) ==> Dormant(s', j);
    ListedKept(s, s', c);
  }

  lemma OpenKeeps(s: State, call: Call)
    requires FInv(s) && Fresh(s, call) && Opens(call)
    ensures FInv(Begun(s, call))
  {
    OpensQuietly(s, call);
    SafeStep(s, Begin(call));
    QuietMove(s, Begun(s, call), |s.calls|);
  }

  lemma LookKeeps(s: State, c: nat)
    requires FInv(s) && c < |s.calls| && Looking(s.calls[c])
    ensures FInv(AfterStep(s, c, Ok, Nothing))
  {
    LooksQuietly(s, c);
    SafeStep(s, Step(c, Ok, Nothing));
    QuietMove(s, AfterStep(s, c, Ok, Nothing), c);
  }

  lemma OStep(s: State, e: OEvent)
    requires FInv(s) && OEnabled(s, e)
    ensures FInv(OApply(s, e))
  {
    match e {
      case Whole(f) => FStep(s, f);
      case Open(call) => OpenKeeps(s, call);
      case Look(c) => LookKeeps(s, c);
    }
  }

  // ---- an open call stands still until its own next statement ----

  /** Past its lookup. */
  predicate Waits(call: Call) {
    Opens(call) && !Looking(call)
  }

  lemma WholeLeaves(s: State, f: FEvent, c: nat)
    requires FInv(s) && FEnabled(s, f) && c < |s.calls| && Waits(s.calls[c])
    ensures c < |FApply(s, f).calls| && FApply(s, f).calls[c] == s.calls[c]
  {
    if f.FSubmit? { SubmitEffect(s, f.req); }
    else if f.FCancel? { CancelEffect(s, f.job); }
    else if f.FReplay? { ReplayEffect(s, f.job, f.queue); }
    else if f.FPromote? || f.FFire? || f.FList? || f.FBatch? { TickLeaves(s, f, c); }
    else { QuietLeaves(s, f, c); }
  }

  lemma TickLeaves(s: State, f: FEvent, c: nat)
    requires FInv(s) && FEnabled(s, f) && c < |s.calls| && Waits(s.calls[c])
    requires f.FPromote? || f.FFire? || f.FList? || f.FBatch?
    ensures c < |FApply(s, f).calls| && FApply(s, f).calls[c] == s.calls[c]
  {
    if f.FPromote? { ListedPromote(s, f.tick); PromoteEffect(s, f.tick); }
    else if f.FFire? { assert CallRests(s.calls[f.tick]); FireEffect(s, f.tick, f.next); }
    else if f.FList? { StepRests(s, f.tick, Rows(f.ids)); }
    else { StepRests(s, f.tick, f.answer); }
  }

  lemma QuietLeaves(s: State, f: FEvent, c: nat)
    requires FEnabled(s, f) && c < |s.calls|
    requires f.FTick? || f.FPause? || f.FAddSchedule? || f.FDropSchedule? || f.FBegin? || f.FDeliver? || f.FWork?
    ensures c < |FApply(s, f).calls| && FApply(s, f).calls[c] == s.calls[c]
  {
  }

  lemma OpenLeaves(s: State, e: OEvent, c: nat)
    requires FInv(s) && OEnabled(s, e) && c < |s.calls| && Waits(s.calls[c])
    ensures c < |OApply(s, e).calls| && OApply(s, e).calls[c] == s.calls[c]
  {
    match e {
      case Whole(f) => WholeLeaves(s, f, c);
      case Open(call) => OpensQuietly(s, call);
      case Look(d) => LooksQuietly(s, d);
    }
  }

  lemma {:induction false} OpenStands(s: State, run: seq<OEvent>, c: nat)
    requires FInv(s) && OLegal(s, run) && c < |s.calls| && Waits(s.calls[c])
    ensures FInv(OAfter(s, run)) && c < |OAfter(s, run).calls| && OAfter(s, run).calls[c] == s.calls[c]
    decreases |run|
  {
    if run != [] {
      OpenLeaves(s, run[0], c);
      OStep(s, run[0]);
      OpenStands(OApply(s, run[0]), run[1..], c);
    }
  }

  lemma {:induction false} OAlways(s: State, run: seq<OEvent>)
    requires FInv(s) && OLegal(s, run)
    ensures FInv(OAfter(s, run))
    decreases |run|
  {
    if run != [] {
      OStep(s, run[0]);
      OAlways(OApply(s, run[0]), run[1..]);
    }
  }

  lemma OInvReachable(s: State)
    requires OReachable(s)
    ensures FInv(s)
  {
    var limit: int, clock: int, run: seq<OEvent> :| OLegal(Init(limit, clock), run) && OAfter(Init(limit, clock), run) == s;
    FInit(limit, clock);
    OAlways(Init(limit, clock), run);
  }

  // ---- every such run is a run of the protocol ----

  lemma OStepIsRun(s: State, e: OEvent)
    requires OEnabled(s, e)
    ensures Reaches(s, OApply(s, e))
  {
    match e {
      case Whole(f) => FStepIsRun(s, f);
      case Open(call) => BegunReached(s, call);
      case Look(c) => ReachesSelf(s); ReachesThen(s, s, Step(c, Ok, Nothing));
    }
  }

  lemma {:induction false} ORunIsRun(s: State, run: seq<OEvent>)
    requires OLegal(s, run)
    ensures Reaches(s, OAfter(s, run))
    decreases |run|
  {
    if run == [] {
      ReachesSelf(s);
    } else {
      OStepIsRun(s, run[0]);
      ORunIsRun(OApply(s, run[0]), run[1..]);
      ReachesThrough(s, OApply(s, run[0]), OAfter(s, run));
    }
  }
  lemma KeysStay(s: State, s': State, j: nat)
    requires Reaches(s, s') && j in s.jobs
    ensures j in s'.jobs
  {
    var run :| Legal(s, run) && After(s, run) == s';
    KeyStays(s, run, j);
  }

  lemma {:induction false} KeyStays(s: State, run: seq<Event>, j: nat)
    requires Legal(s, run) && j in s.jobs
    ensures j in After(s, run).jobs
    decreases |run|
  {
    if run != [] {
      ApplyExtends(s, run[0]);
      KeyStays(Apply(s, run[0]), run[1..], j);
    }
  }

  lemma RowsRemain(s: State, run: seq<OEvent>, j: nat)
    requires OLegal(s, run) && j in s.jobs
    ensures j in OAfter(s, run).jobs
  {
    ORunIsRun(s, run);
    KeysStay(s, OAfter(s, run), j);
  }
}
