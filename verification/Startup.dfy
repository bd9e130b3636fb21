/** How main brings a deployment up from a checked configuration. */
module Startup {
  import opened App
  import opened Clocks
  import opened ClosedLoop
  import opened Common
  import opened Config
  import opened Control
  import opened Effects
  import opened MainWiring
  import opened Metrics
  import opened Nut
  import opened PowerApi

  /** The request server, when one is configured. */
  method StartServer(c: Configuration, clock: Clock) returns (server: Server?)
    ensures server != null <==> c.powerAPI.Some?
    ensures server != null ==>
              fresh(server) && server.clock == clock && server.want == map[] && server.seen == map[]
              && server.loads == Elements(c.powerAPI.value.loads) && server.ttl == c.powerAPI.value.requestTTL
  {
    server := null;
    if c.powerAPI.Some? {
      server := new Server(c.powerAPI.value.loads, c.powerAPI.value.requestTTL, clock);
    }
  }

  /** The executor, over a store of its own. */
  method BuildExecutor(c: Configuration, chassisReady: bool, outside: Outside, parse: FloatParser)
    returns (executor: Executor)
    requires Valid(c)
    ensures fresh(executor) && fresh(executor.metrics)
    ensures executor.wiring == WiringOf(c, chassisReady) && executor.outside == outside
    ensures executor.metrics.MatchesHistory() && executor.metrics.OneHotEverywhere() && executor.metrics.polls == []
    ensures executor.metrics.actions == map[] && executor.metrics.actionFails == map[]
  {
    ValidIsWirable(c);
    var probes, targets, shedUps := WireLoads(c.loads, chassisReady);
    var metrics := new Store(parse);
    executor := new Executor(Wiring(c.dryRun, targets, chassisReady, Some(shedUps), true), outside, metrics);
  }

  /** The controller: it is the plant the configuration describes, not yet ticking. */
  method Build(c: Configuration, chassisReady: bool, clock: Clock, outside: Outside, parse: FloatParser,
               atoi: IntParser)
    returns (ctrl: Controller)
    requires Valid(c) && clock.Valid()
    ensures fresh(ctrl) && fresh(ctrl.metrics) && (ctrl.server != null ==> fresh(ctrl.server))
    ensures ctrl.Valid() && ctrl.startedAt == None
    ensures ctrl.clock == clock && ctrl.executor.outside == outside && ctrl.polled == c.upses.Keys
    ensures ctrl.ThePlant() == PlantOf(c, chassisReady)
    ensures ctrl.grace == c.startupGrace && ctrl.readsSignals && ctrl.executor.wiring.dryRun == c.dryRun
    ensures ctrl.upsConfigs.Keys == c.upses.Keys && ctrl.loads.Keys == c.loads.Keys
    ensures ctrl.server != null <==> c.powerAPI.Some?
    ensures ctrl.server != null ==>
              ctrl.server.ttl == c.powerAPI.value.requestTTL
              && forall l :: l in ctrl.server.loads <==> l in c.powerAPI.value.loads
    ensures ctrl.server != null ==> ctrl.server.want == map[] && ctrl.server.seen == map[]
    ensures ctrl.executor.TheSite().actions == map[] && ctrl.executor.TheSite().actionFails == map[]
  {
    var upses := ControlUPS(c);
    var loads := ControlLoads(c);
    var server := StartServer(c, clock);
    var executor := BuildExecutor(c, chassisReady, outside, parse);
    ctrl := new Controller(upses, loads, server, executor, clock, atoi, c.upses.Keys, true, c.startupGrace);
  }

  /** A process that starts on a checked configuration, first or after another one has gone down
      anywhere in a tick, continues the deployment's run by a Restart, its counters at zero. */
  method Launch(c: Configuration, chassisReady: bool, clock: Clock, outside: Outside, parse: FloatParser,
                atoi: IntParser, ghost r: Run)
    returns (ctrl: Controller, ghost q: Run)
    requires Valid(c) && clock.Valid()
    requires IsRun(PlantOf(c, chassisReady), r) && Last(r).status == outside.status && Last(r).now <= clock.Time()
    ensures fresh(ctrl) && fresh(ctrl.metrics) && (ctrl.server != null ==> fresh(ctrl.server))
    ensures ctrl.Valid() && ctrl.clock == clock && ctrl.executor.outside == outside
    ensures ctrl.ThePlant() == PlantOf(c, chassisReady) && ctrl.polled == c.upses.Keys
    ensures ctrl.At(q) && Continues(r, q, [Restart(clock.Time())]) && Last(q).phase.Idle?
    ensures ctrl.Counts(q, |q.events|)
  {
    ctrl := Build(c, chassisReady, clock, outside, parse, atoi);
    q := Grown(PlantOf(c, chassisReady), r, Restart(clock.Time()));
    ctrl.TakesOver(r);
    NothingCounted(ctrl.ThePlant(), q, ctrl.executor.TheSite());
  }

  /** Launching and starting the grace clock: the run goes on by a Restart and a Start. */
  method LaunchAndStart(c: Configuration, chassisReady: bool, clock: Clock, outside: Outside, parse: FloatParser,
                        atoi: IntParser, ghost r: Run)
    returns (ctrl: Controller, ghost q: Run)
    requires Valid(c) && clock.Valid()
    requires IsRun(PlantOf(c, chassisReady), r) && Last(r).status == outside.status && Last(r).now <= clock.Time()
    modifies clock
    ensures fresh(ctrl) && fresh(ctrl.metrics) && (ctrl.server != null ==> fresh(ctrl.server))
    ensures ctrl.Valid() && ctrl.clock == clock && ctrl.executor.outside == outside
    ensures ctrl.ThePlant() == PlantOf(c, chassisReady)
    ensures ctrl.At(q) && Continues(r, q, [Restart(old(clock.Time())), Start(old(clock.Time()))]) && Last(q).phase.Idle?
    ensures ctrl.Counts(q, |r.events| + 1)
  {
    ghost var restart, start := Restart(clock.Time()), Start(clock.Time());
    ghost var q0;
    ctrl, q0 := Launch(c, chassisReady, clock, outside, parse, atoi, r);
    q := ctrl.StartClock(q0);
    ContinuesOn(r, q0, q, [restart], [start]);
    assert [restart] + [start] == [restart, start];
  }

  /** From a checked configuration to the first tick: the deployment's run goes on by a Restart, a
      Start and a tick, and the action counters are those of the run since the Restart. */
  method Begin(c: Configuration, chassisReady: bool, clock: Clock, outside: Outside, parse: FloatParser,
               atoi: IntParser, fetch: string -> Answer, probe: string -> ActualState, readable: string -> bool,
               ghost r: Run)
    returns (ctrl: Controller, ghost observe: Event, ghost snapshot: Event, ghost act: Event, ghost q: Run)
    requires Valid(c) && clock.Valid()
    requires IsRun(PlantOf(c, chassisReady), r) && Last(r).status == outside.status && Last(r).now <= clock.Time()
    modifies clock, outside
    ensures fresh(ctrl) && fresh(ctrl.metrics) && (ctrl.server != null ==> fresh(ctrl.server))
    ensures ctrl.ThePlant() == PlantOf(c, chassisReady) && ctrl.Valid() && ctrl.At(q) && Last(q).phase.Idle?
    ensures observe.Observe? && snapshot.Snapshot? && act.Act?
    ensures Continues(r, q, [Restart(old(clock.Time())), Start(old(clock.Time()))] + [observe, snapshot, act])
    ensures ctrl.Counts(q, |r.events| + 1)
  {
    ghost var started := [Restart(clock.Time()), Start(clock.Time())];
    ghost var q1;
    ctrl, q1 := LaunchAndStart(c, chassisReady, clock, outside, parse, atoi, r);
    observe, snapshot, act, q := ctrl.Tick(fetch, probe, readable, q1);
    ContinuesOn(r, q1, q, started, [observe, snapshot, act]);
  }
}
