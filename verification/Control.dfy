/** The pure decision core: classify every UPS, combine the governing sources with the
    external request into a verdict, and turn verdict and observation into actions. */
module Control {
  import opened Common
  import opened Ordering

  datatype Status = Status(onLine: bool, onBattery: bool, lowBattery: bool)

  /** One UPS reading; runtime and charge are -1 when absent. */
  datatype Telemetry = Telemetry(ok: bool, status: Status, runtime: int, charge: int)

  const NO_READING := Telemetry(false, Status(false, false, false), 0, 0)

  datatype UPSConfig = UPSConfig(shedRuntime: int, shedCharge: int, recoverCharge: int)

  datatype SourceState = SourceUnknown | SourceShed | SourceHold | SourceHealthy
  datatype Desired = DesiredHold | DesiredOff | DesiredOn
  datatype Request = NoRequest | RequestHold | RequestOff | RequestOn
  datatype LoadType = Chassis | NutServer
  datatype ActualState = ActualUnknown | ActualUp | ActualDown
  datatype ShedState = ShedUnknown | ShedAsserted | ShedReleased
  datatype ActionKind = ChassisShutdown | ChassisPowerUp | AssertServerShed | ReleaseServerShed | WakeServer
  datatype Action = Action(kind: ActionKind, load: string)
  datatype LoadConfig = LoadConfig(loadType: LoadType, governedBy: seq<string>)

  // ---- one UPS ----

  function Classify(c: UPSConfig, t: Telemetry): SourceState {
    if !t.ok then SourceUnknown
    else if t.status.onBattery then
      if t.status.lowBattery then SourceShed
      else if 0 <= t.runtime <= c.shedRuntime then SourceShed
      else if c.shedCharge > 0 && 0 <= t.charge <= c.shedCharge then SourceShed
      else SourceHold
    else if t.status.onLine then
      if t.charge < 0 || t.charge >= c.recoverCharge then SourceHealthy else SourceHold
    else SourceHold
  }

  /** The shed signal every floor and flag stands for. */
  predicate Critical(c: UPSConfig, t: Telemetry) {
    t.ok && t.status.onBattery &&
    (t.status.lowBattery
     || 0 <= t.runtime <= c.shedRuntime
     || (c.shedCharge > 0 && 0 <= t.charge <= c.shedCharge))
  }

  /** Polled, on mains, and recharged (or without a charge reading). */
  predicate Recovered(c: UPSConfig, t: Telemetry) {
    t.ok && t.status.onLine && !t.status.onBattery && (t.charge < 0 || t.charge >= c.recoverCharge)
  }

  // ---- the verdict for one load ----

  /** Reference verdict. It reads the governing sources as a set, so neither their order
      nor their multiplicity can matter. */
  function Verdict(sources: set<SourceState>, req: Request): Desired {
    if SourceShed in sources || req == RequestOff then DesiredOff
    else if sources <= {SourceHealthy} && req in {NoRequest, RequestOn} then DesiredOn
    else DesiredHold
  }

  function Elements<T>(s: seq<T>): set<T> {
    set x | x in s
  }

  method DesiredFromSources(states: seq<SourceState>) returns (d: Desired)
    ensures d == Verdict(Elements(states), NoRequest)
  {
    var anyShed, anyUnknown, allHealthy := false, false, true;
    for k := 0 to |states|
      invariant anyShed <==> SourceShed in states[..k]
      invariant anyUnknown <==> SourceUnknown in states[..k]
      invariant allHealthy <==> forall j :: 0 <= j < k ==> states[j] == SourceHealthy
    {
      var s := states[k];
      assert states[..k + 1] == states[..k] + [s];
      if s != SourceHealthy { allHealthy := false; }
      match s
      case SourceShed => anyShed := true;
      case SourceUnknown => anyUnknown := true;
      case _ =>
    }
    assert states[..|states|] == states;
    assert allHealthy <==> Elements(states) <= {SourceHealthy} by {
      if Elements(states) <= {SourceHealthy} {
        forall j | 0 <= j < |states| ensures states[j] == SourceHealthy {
          assert states[j] in Elements(states);
        }
      }
    }
    if anyShed {
      d := DesiredOff;
    } else if anyUnknown {
      d := DesiredHold;
      assert SourceUnknown in Elements(states);
    } else if allHealthy {
      d := DesiredOn;
    } else {
      d := DesiredHold;
    }
  }

  method DesiredForLoad(states: seq<SourceState>, req: Request) returns (d: Desired)
    ensures d == Verdict(Elements(states), req)
  {
    d := DesiredFromSources(states);
    if d == DesiredOff { return; }
    match req
    case RequestOff => d := DesiredOff;
    case RequestOn => d := if d == DesiredOn then DesiredOn else DesiredHold;
    case RequestHold => d := DesiredHold;
    case NoRequest =>
  }

  // ---- the actions for one load ----

  function ReconcileLoad(name: string, lt: LoadType, d: Desired, actual: ActualState, shed: ShedState): seq<Action> {
    match (lt, d)
    case (Chassis, DesiredOff) => if actual == ActualUp then [Action(ChassisShutdown, name)] else []
    case (Chassis, DesiredOn) => if actual == ActualDown then [Action(ChassisPowerUp, name)] else []
    case (NutServer, DesiredOff) => if shed != ShedAsserted then [Action(AssertServerShed, name)] else []
    case (NutServer, DesiredOn) =>
      (if shed != ShedReleased then [Action(ReleaseServerShed, name)] else [])
      + (if actual == ActualDown then [Action(WakeServer, name)] else [])
    case (_, DesiredHold) => []
  }

  // ---- the whole poll ----

  /** Everything one call of Decide reads. */
  datatype Inputs = Inputs(
    upsCfgs: map<string, UPSConfig>,
    tel: map<string, Telemetry>,
    loads: map<string, LoadConfig>,
    actual: map<string, ActualState>,
    shed: map<string, ShedState>,
    ext: map<string, Request>)

  function SourceOf(i: Inputs, ups: string): SourceState {
    if ups in i.upsCfgs then Classify(i.upsCfgs[ups], Get(i.tel, ups, NO_READING)) else SourceUnknown
  }

  function SourcesOf(i: Inputs, load: string): set<SourceState>
    requires load in i.loads
  {
    set u | u in i.loads[load].governedBy :: SourceOf(i, u)
  }

  function VerdictFor(i: Inputs, load: string): Desired
    requires load in i.loads
  {
    Verdict(SourcesOf(i, load), Get(i.ext, load, NoRequest))
  }

  function LoadActions(i: Inputs, load: string): seq<Action>
    requires load in i.loads
  {
    ReconcileLoad(load, i.loads[load].loadType, VerdictFor(i, load),
                  Get(i.actual, load, ActualUnknown), Get(i.shed, load, ShedUnknown))
  }

  function DecideOver(i: Inputs, names: seq<string>): seq<Action>
    requires forall n :: n in names ==> n in i.loads
  {
    if names == [] then [] else LoadActions(i, names[0]) + DecideOver(i, names[1..])
  }

  /** What Decide returns: every load reconciled, in name order. */
  ghost function Decisions(i: Inputs): seq<Action> {
    DecideOver(i, SortedKeys(i.loads.Keys))
  }

  lemma {:induction false} DecideOverAppends(i: Inputs, names: seq<string>, last: string)
    requires (forall n :: n in names ==> n in i.loads) && last in i.loads
    ensures DecideOver(i, names + [last]) == DecideOver(i, names) + LoadActions(i, last)
  {
    if names == [] {
      assert names + [last] == [last];
      assert DecideOver(i, []) == [];
    } else {
      assert (names + [last])[1..] == names[1..] + [last];
      DecideOverAppends(i, names[1..], last);
    }
  }

  method Decide(i: Inputs) returns (out: seq<Action>)
    ensures out == Decisions(i)
  {
    var src := ClassifyAll(i);
    var names := CollectSortedKeys(i.loads.Keys);
    out := DecideInOrder(i, src, names);
  }

  /** Classifies every configured UPS, in whatever order the map yields them. */
  method ClassifyAll(i: Inputs) returns (src: map<string, SourceState>)
    ensures IsTable(i, src)
  {
    src := map[];
    var rest := i.upsCfgs.Keys;
    while rest != {}
      invariant rest <= i.upsCfgs.Keys
      invariant src.Keys == i.upsCfgs.Keys - rest
      invariant forall u :: u in src ==> src[u] == SourceOf(i, u)
      decreases rest
    {
      var u :| u in rest;
      src := src[u := Classify(i.upsCfgs[u], Get(i.tel, u, NO_READING))];
      rest := rest - {u};
    }
  }

  /** `src` is the classification of every configured UPS. */
  ghost predicate IsTable(i: Inputs, src: map<string, SourceState>) {
    src.Keys == i.upsCfgs.Keys && forall u :: u in src ==> src[u] == SourceOf(i, u)
  }

  method DecideInOrder(i: Inputs, src: map<string, SourceState>, names: seq<string>) returns (out: seq<Action>)
    requires IsTable(i, src) && forall n :: n in names ==> n in i.loads
    ensures out == DecideOver(i, names)
  {
    out := [];
    for k := 0 to |names|
      invariant out == DecideOver(i, names[..k])
    {
      var name := names[k];
      assert name in names;
      var acts := DecideOne(i, src, name);
      DecideOverAppends(i, names[..k], name);
      assert names[..k + 1] == names[..k] + [name];
      out := out + acts;
    }
    assert names[..|names|] == names;
  }

  method DecideOne(i: Inputs, src: map<string, SourceState>, name: string) returns (acts: seq<Action>)
    requires IsTable(i, src) && name in i.loads
    ensures acts == LoadActions(i, name)
  {
    var d := DesiredNow(i, src, name);
    acts := ReconcileLoad(name, i.loads[name].loadType, d, Get(i.actual, name, ActualUnknown),
                          Get(i.shed, name, ShedUnknown));
  }

  /** One load's verdict, from the classification table. */
  method DesiredNow(i: Inputs, src: map<string, SourceState>, load: string) returns (d: Desired)
    requires IsTable(i, src) && load in i.loads
    ensures d == VerdictFor(i, load)
  {
    var states := CollectStates(i, src, i.loads[load].governedBy);
    StatesAreTheSources(i, load, states);
    d := DesiredForLoad(states, Get(i.ext, load, NoRequest));
  }

  /** The governing sources of one load, read from the classification table. */
  method CollectStates(i: Inputs, src: map<string, SourceState>, governedBy: seq<string>)
    returns (states: seq<SourceState>)
    requires IsTable(i, src)
    ensures |states| == |governedBy|
    ensures forall k :: 0 <= k < |governedBy| ==> states[k] == SourceOf(i, governedBy[k])
  {
    states := [];
    for k := 0 to |governedBy|
      invariant |states| == k
      invariant forall j :: 0 <= j < k ==> states[j] == SourceOf(i, governedBy[j])
    {
      states := states + [Get(src, governedBy[k], SourceUnknown)];
    }
  }

  lemma StatesAreTheSources(i: Inputs, load: string, states: seq<SourceState>)
    requires load in i.loads
    requires |states| == |i.loads[load].governedBy|
    requires forall k :: 0 <= k < |states| ==> states[k] == SourceOf(i, i.loads[load].governedBy[k])
    ensures Elements(states) == SourcesOf(i, load)
  {
    var gov := i.loads[load].governedBy;
    forall s | s in Elements(states) ensures s in SourcesOf(i, load) {
      var k :| 0 <= k < |states| && states[k] == s;
      assert gov[k] in gov;
    }
    forall s | s in SourcesOf(i, load) ensures s in Elements(states) {
      var u :| u in gov && SourceOf(i, u) == s;
      var k :| 0 <= k < |gov| && gov[k] == u;
      assert states[k] == s;
    }
  }
}
