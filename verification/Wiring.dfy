/** How main puts a checked configuration together, and why nothing the core decides can then
    miss its target. */
module MainWiring {
  import opened ClosedLoop
  import opened Common
  import opened Config
  import opened Control
  import opened ControlLaws
  import opened Effects
  import opened SignalLaws

  /** How a load's power state is probed. */
  datatype ProbeBy = NoRunner | ChassisState(cmcHost: string) | TcpProbe(addr: string)

  /** The fields wireLoads reads of a load are there; of a load of neither type it reads none. */
  predicate Wirable(l: LoadSpec) {
    (l.kind == TYPE_CHASSIS ==> l.cmcHost.Some?)
    && (l.kind == TYPE_NUT_SERVER ==> l.wake.Some? && l.probeHost.Some?)
  }

  predicate AllWirable(loads: map<string, LoadSpec>) {
    forall l :: l in loads ==> Wirable(loads[l])
  }

  predicate KnownType(l: LoadSpec) {
    l.kind == TYPE_CHASSIS || l.kind == TYPE_NUT_SERVER
  }

  function ProbeOf(l: LoadSpec, chassisReady: bool): ProbeBy
    requires Wirable(l) && KnownType(l)
  {
    if l.kind != TYPE_CHASSIS then TcpProbe(l.probeHost.value)
    else if chassisReady then ChassisState(l.cmcHost.value)
    else NoRunner
  }

  function TargetOf(l: LoadSpec): Target
    requires Wirable(l) && KnownType(l)
  {
    if l.kind == TYPE_CHASSIS then Target(l.cmcHost.value, "", "")
    else Target("", l.wake.value.mac, l.wake.value.broadcast)
  }

  function TargetsOf(loads: map<string, LoadSpec>): map<string, Target>
    requires AllWirable(loads)
  {
    map l | l in loads && KnownType(loads[l]) :: TargetOf(loads[l])
  }

  function ProbesOf(loads: map<string, LoadSpec>, chassisReady: bool): map<string, ProbeBy>
    requires AllWirable(loads)
  {
    map l | l in loads && KnownType(loads[l]) :: ProbeOf(loads[l], chassisReady)
  }

  function ShedUpsOf(loads: map<string, LoadSpec>): map<string, string> {
    map l | l in loads && loads[l].kind == TYPE_NUT_SERVER :: ShedUpsName(l)
  }

  /** A checked configuration has every field wireLoads reads. */
  lemma ValidIsWirable(c: Configuration)
    requires Valid(c)
    ensures AllWirable(c.loads)
  {
    forall l | l in c.loads ensures Wirable(c.loads[l]) {
      assert ValidLoad(c, c.loads[l]);
    }
  }

  method WireLoads(loads: map<string, LoadSpec>, chassisReady: bool)
    returns (probes: map<string, ProbeBy>, targets: map<string, Target>, shedUps: map<string, string>)
    requires AllWirable(loads)
    ensures probes == ProbesOf(loads, chassisReady) && targets == TargetsOf(loads) && shedUps == ShedUpsOf(loads)
    ensures forall l :: l in probes || l in targets ==> l in loads
    ensures forall l :: l in loads && loads[l].kind == "chassis" ==>
              l in probes && l in targets
              && targets[l].cmcHost == loads[l].cmcHost.value && targets[l].wakeMac == ""
              && probes[l] == if chassisReady then ChassisState(loads[l].cmcHost.value) else NoRunner
    ensures forall l :: l in loads && loads[l].kind == "nut-server" ==>
              l in probes && l in targets
              && targets[l].cmcHost == ""
              && targets[l].wakeMac == loads[l].wake.value.mac
              && targets[l].wakeBroadcast == loads[l].wake.value.broadcast
              && probes[l] == TcpProbe(loads[l].probeHost.value)
    ensures forall l :: l in shedUps <==> l in loads && loads[l].kind == "nut-server"
    ensures forall l :: l in shedUps ==> shedUps[l] == "shed-" + l
  {
    probes, targets, shedUps := map[], map[], map[];
    TypesDiffer();
    var rest := loads.Keys;
    while rest != {}
      invariant rest <= loads.Keys
      invariant probes.Keys == targets.Keys <= loads.Keys
      invariant forall l :: l in targets <==> l in loads.Keys - rest && KnownType(loads[l])
      invariant forall l :: l in targets ==> targets[l] == TargetOf(loads[l])
      invariant forall l :: l in probes ==> probes[l] == ProbeOf(loads[l], chassisReady)
      invariant forall l :: l in shedUps <==> l in loads.Keys - rest && loads[l].kind == TYPE_NUT_SERVER
      invariant forall l :: l in shedUps ==> shedUps[l] == ShedUpsName(l)
      decreases rest
    {
      var name :| name in rest;
      rest := rest - {name};
      var l := loads[name];
      if l.kind == TYPE_CHASSIS {
        var host := l.cmcHost.value;
        probes := probes[name := if chassisReady then ChassisState(host) else NoRunner];
        targets := targets[name := Target(host, "", "")];
      } else if l.kind == TYPE_NUT_SERVER {
        probes := probes[name := TcpProbe(l.probeHost.value)];
        targets := targets[name := Target("", l.wake.value.mac, l.wake.value.broadcast)];
        shedUps := shedUps[name := ShedUpsName(name)];
      }
    }
  }

  /** The executor main builds. */
  function WiringOf(c: Configuration, chassisReady: bool): Wiring
    requires Valid(c)
  {
    ValidIsWirable(c);
    Wiring(c.dryRun, TargetsOf(c.loads), chassisReady, Some(ShedUpsOf(c.loads)), true)
  }

  predicate HasChassis(c: Configuration) {
    exists l :: l in c.loads && c.loads[l].kind == TYPE_CHASSIS
  }

  /** The deployment main starts. */
  function PlantOf(c: Configuration, chassisReady: bool): Plant
    requires Valid(c)
  {
    Plant(CoreUpses(c), CoreLoads(c), WiringOf(c, chassisReady), true, c.powerAPI.Some?,
          if c.powerAPI.Some? then Elements(c.powerAPI.value.loads) else {},
          if c.powerAPI.Some? then c.powerAPI.value.requestTTL else 0,
          c.startupGrace)
  }

  lemma ShedNamesDiffer(a: string, b: string)
    ensures ShedUpsName(a) == ShedUpsName(b) ==> a == b
  {
    assert ShedUpsName(a)[5..] == a && ShedUpsName(b)[5..] == b;
  }

  lemma KindsAreTwo(l: LoadSpec)
    ensures CoreLoad(l).loadType == NutServer <==> l.kind == TYPE_NUT_SERVER
    ensures l.kind == TYPE_CHASSIS ==> CoreLoad(l).loadType == Chassis
  {
    TypesDiffer();
  }

  lemma TypesDiffer()
    ensures TYPE_CHASSIS != TYPE_NUT_SERVER
  {
    assert TYPE_CHASSIS[0] != TYPE_NUT_SERVER[0];
  }

  /** Chassis commands are for chassis loads, signals and wakes for NUT servers. */
  predicate Fits(c: Configuration, a: Action) {
    a.load in c.loads
    && (a.kind == ChassisShutdown || a.kind == ChassisPowerUp <==> c.loads[a.load].kind == TYPE_CHASSIS)
  }

  /** The one effect each decided action is meant to have, read off the configuration. */
  function MeantEffect(c: Configuration, a: Action): Effect
    requires Valid(c) && Fits(c, a)
  {
    var l := c.loads[a.load];
    assert ValidLoad(c, l);
    match a.kind
    case ChassisShutdown => Shutdown(l.cmcHost.value)
    case ChassisPowerUp => PowerUp(l.cmcHost.value)
    case AssertServerShed => SetVar(ShedUpsName(a.load), "ups.status", STATUS_SHED)
    case ReleaseServerShed => SetVar(ShedUpsName(a.load), "ups.status", STATUS_OK)
    case WakeServer => Effect.Wake(l.wake.value.mac, l.wake.value.broadcast)
  }

  /** With a valid configuration, armed and with its chassis runner ready, no decided action can
      miss its target, its effect or its dummy-ups; a chassis action carries a real CMC host and
      a wake a real MAC. In dryRun none touches anything. */
  lemma EveryDecisionDispatches(c: Configuration, chassisReady: bool, i: Inputs, a: Action)
    requires Valid(c) && (HasChassis(c) && !c.dryRun ==> chassisReady)
    requires i.loads == CoreLoads(c) && a in Decisions(i)
    ensures Fits(c, a)
    ensures DispatchOf(WiringOf(c, chassisReady), a) == if c.dryRun then Nothing else Call(MeantEffect(c, a))
    ensures match MeantEffect(c, a)
            case Shutdown(host) => host != ""
            case PowerUp(host) => host != ""
            case Wake(mac, broadcast) => mac != "" && broadcast != ""
            case SetVar(_, _, _) => true
    ensures MeantEffect(c, a) ==
            match a.kind
            case ChassisShutdown => Shutdown(c.loads[a.load].cmcHost.value)
            case ChassisPowerUp => PowerUp(c.loads[a.load].cmcHost.value)
            case AssertServerShed => SetVar("shed-" + a.load, "ups.status", "OB LB FSD")
            case ReleaseServerShed => SetVar("shed-" + a.load, "ups.status", "OL")
            case WakeServer => Effect.Wake(c.loads[a.load].wake.value.mac, c.loads[a.load].wake.value.broadcast)
  {
    KindsFitTypes(i, a);
    var l := c.loads[a.load];
    assert ValidLoad(c, l) && i.loads[a.load] == CoreLoad(l);
    KindsAreTwo(l);
  }

  /** The same for every action applied in any run of the deployment. */
  lemma EveryAppliedActionDispatches(c: Configuration, chassisReady: bool, r: Run, k: nat, a: Action)
    requires Valid(c) && (HasChassis(c) && !c.dryRun ==> chassisReady)
    requires IsRun(PlantOf(c, chassisReady), r) && ActsAt(r, k) && a in AppliedAt(PlantOf(c, chassisReady), r, k)
    ensures Fits(c, a)
    ensures DispatchOf(WiringOf(c, chassisReady), a) == if c.dryRun then Nothing else Call(MeantEffect(c, a))
  {
    var p := PlantOf(c, chassisReady);
    assert StepAt(p, r, k);
    AlwaysCoherent(p, r, k);
    AppliedActions(p, r.states[k], r.events[k], a);
    EveryDecisionDispatches(c, chassisReady, InputsAt(p, r, k), a);
  }

  /** Every NUT server of an armed, valid configuration drives a dummy-ups of its own. */
  lemma ArmedServersAreWired(c: Configuration, chassisReady: bool, load: string)
    requires Valid(c) && !c.dryRun && load in c.loads && c.loads[load].kind == TYPE_NUT_SERVER
    ensures Server(PlantOf(c, chassisReady), load)
  {
    var w := WiringOf(c, chassisReady);
    forall other | other in w.shedUps.value && w.shedUps.value[other] == w.shedUps.value[load] ensures other == load {
      ShedNamesDiffer(other, load);
    }
  }
}
