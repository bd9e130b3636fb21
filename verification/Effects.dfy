/** The layer that touches the outside world: the shed signal writer and reader, and the
    executor that dispatches decided actions in order and never stops at a failure. */
module Effects {
  import opened Common
  import opened Control
  import opened Metrics
  import opened Text

  const STATUS_SHED: string := "OB LB FSD"
  const STATUS_OK: string := "OL"

  // ---- the shed signal ----

  /** Position of a signal by the tokens of its ups.status. */
  ghost function SignalPosition(status: string): ShedState {
    if HasField(status, "FSD") then ShedAsserted
    else if HasField(status, "OL") then ShedReleased
    else ShedUnknown
  }

  method ParseShedStatus(status: string) returns (s: ShedState)
    ensures s == SignalPosition(status)
    ensures s == ShedAsserted <==> HasField(status, "FSD")
    ensures s == ShedReleased <==> HasField(status, "OL") && !HasField(status, "FSD")
  {
    var ol := false;
    var fields := Fields(status);
    FieldsAreTheTokens(status, "FSD");
    FieldsAreTheTokens(status, "OL");
    for k := 0 to |fields|
      invariant "FSD" !in fields[..k]
      invariant ol <==> "OL" in fields[..k]
    {
      assert fields[..k + 1] == fields[..k] + [fields[k]];
      if fields[k] == "FSD" {
        return ShedAsserted;
      } else if fields[k] == "OL" {
        ol := true;
      }
    }
    assert fields[..|fields|] == fields;
    s := if ol then ShedReleased else ShedUnknown;
  }

  /** The reader inverts the writer: Assert's and Release's strings come back as such, and a
      signal nobody ever wrote reads as unknown. */
  lemma WrittenSignalsReadBack()
    ensures SignalPosition(STATUS_SHED) == ShedAsserted
    ensures SignalPosition(STATUS_OK) == ShedReleased
    ensures SignalPosition("OB LB FSD") == ShedAsserted && SignalPosition("OL") == ShedReleased
    ensures SignalPosition("") == ShedUnknown
  {
    assert TokenAt(STATUS_SHED, "FSD", 6, 9);
    assert TokenAt(STATUS_OK, "OL", 0, 2);
  }

  // ---- what can be done to the world ----

  datatype Effect =
    | SetVar(ups: string, name: string, value: string)
    | Shutdown(cmcHost: string)
    | PowerUp(cmcHost: string)
    | Wake(mac: string, broadcast: string)

  /** The statuses served by the local upsd after a successful effect. */
  function Written(status: map<string, string>, e: Effect): map<string, string> {
    if e.SetVar? && e.name == "ups.status" then status[e.ups := e.value] else status
  }

  /** Everything beyond the program: which attempts succeed is not ours to choose. */
  class Outside {
    const accepts: nat -> bool
    var calls: seq<Effect>
    var status: map<string, string>

    constructor (accepts: nat -> bool, status: map<string, string>)
      ensures this.accepts == accepts && this.status == status && calls == []
    {
      this.accepts, this.status, calls := accepts, status, [];
    }

    method Perform(e: Effect) returns (ok: bool)
      modifies this
      ensures ok == accepts(|old(calls)|)
      ensures calls == old(calls) + [e]
      ensures status == if ok then Written(old(status), e) else old(status)
    {
      ok := accepts(|calls|);
      calls := calls + [e];
      if ok { status := Written(status, e); }
    }
  }

  // ---- dispatch ----

  datatype Target = Target(cmcHost: string, wakeMac: string, wakeBroadcast: string)

  /** How an executor is wired: the loads' targets, and which effects exist. */
  datatype Wiring = Wiring(
    dryRun: bool,
    targets: map<string, Target>,
    chassis: bool,
    shedUps: Option<map<string, string>>,
    waker: bool)

  datatype EffectError = NoTarget | NoEffect | NoShedUps | Refused
  datatype Outcome = Done | Failed(error: EffectError)

  /** What one action comes to: nothing in dryRun, a mis-wiring, or one effect. */
  datatype Dispatch = Nothing | Blocked(error: EffectError) | Call(effect: Effect)

  function DispatchOf(w: Wiring, a: Action): Dispatch {
    if w.dryRun then Nothing
    else if a.load !in w.targets then Blocked(NoTarget)
    else
      var t := w.targets[a.load];
      match a.kind
      case ChassisShutdown => if w.chassis then Call(Shutdown(t.cmcHost)) else Blocked(NoEffect)
      case ChassisPowerUp => if w.chassis then Call(PowerUp(t.cmcHost)) else Blocked(NoEffect)
      case AssertServerShed => SignalDispatch(w.shedUps, a.load, STATUS_SHED)
      case ReleaseServerShed => SignalDispatch(w.shedUps, a.load, STATUS_OK)
      case WakeServer => if w.waker then Call(Wake(t.wakeMac, t.wakeBroadcast)) else Blocked(NoEffect)
  }

  function SignalDispatch(shedder: Option<map<string, string>>, load: string, status: string): Dispatch {
    if shedder.None? then Blocked(NoEffect)
    else if load !in shedder.value then Blocked(NoShedUps)
    else Call(SetVar(shedder.value[load], "ups.status", status))
  }

  /** What a run of actions leaves behind. */
  datatype Site = Site(
    calls: seq<Effect>,
    status: map<string, string>,
    actions: map<(string, string), nat>,
    actionFails: map<(string, string), nat>)

  function OutcomeOf(w: Wiring, accepts: nat -> bool, s: Site, a: Action): Outcome {
    match DispatchOf(w, a)
    case Nothing => Done
    case Blocked(e) => Failed(e)
    case Call(_) => if accepts(|s.calls|) then Done else Failed(Refused)
  }

  function Step(w: Wiring, accepts: nat -> bool, s: Site, a: Action): Site {
    var key := (a.load, KindName(a.kind));
    var actions := s.actions[key := Counter(s.actions, key.0, key.1) + 1];
    var fails := if OutcomeOf(w, accepts, s, a).Failed?
                 then s.actionFails[key := Counter(s.actionFails, key.0, key.1) + 1] else s.actionFails;
    match DispatchOf(w, a)
    case Call(e) => Site(s.calls + [e], if accepts(|s.calls|) then Written(s.status, e) else s.status, actions, fails)
    case _ => Site(s.calls, s.status, actions, fails)
  }

  /** The site once a list has been worked through in order. */
  function Worked(w: Wiring, accepts: nat -> bool, s: Site, acts: seq<Action>): Site {
    if acts == [] then s else Step(w, accepts, Worked(w, accepts, s, acts[..|acts| - 1]), acts[|acts| - 1])
  }

  /** The outcome of the k-th action of a list. */
  function OutcomeAt(w: Wiring, accepts: nat -> bool, s: Site, acts: seq<Action>, k: nat): Outcome
    requires k < |acts|
  {
    OutcomeOf(w, accepts, Worked(w, accepts, s, acts[..k]), acts[k])
  }

  class Executor {
    const wiring: Wiring
    const outside: Outside
    const metrics: Store

    constructor (wiring: Wiring, outside: Outside, metrics: Store)
      ensures this.wiring == wiring && this.outside == outside && this.metrics == metrics
    {
      this.wiring, this.outside, this.metrics := wiring, outside, metrics;
    }

    function TheSite(): Site
      reads outside, metrics`actions, metrics`actionFails
    {
      Site(outside.calls, outside.status, metrics.actions, metrics.actionFails)
    }

    method SetSignal(load: string, status: string) returns (o: Outcome)
      requires wiring.shedUps.Some?
      modifies outside
      ensures var d := SignalDispatch(wiring.shedUps, load, status);
              match d
              case Call(e) =>
                o == (if outside.accepts(|old(outside.calls)|) then Done else Failed(Refused))
                && outside.calls == old(outside.calls) + [e]
                && outside.status == if o == Done then Written(old(outside.status), e) else old(outside.status)
              case Blocked(e) => o == Failed(e) && outside.calls == old(outside.calls)
                  && outside.status == old(outside.status)
              case Nothing => false
    {
      var shedUps := wiring.shedUps.value;
      if load !in shedUps { return Failed(NoShedUps); }
      var ok := outside.Perform(SetVar(shedUps[load], "ups.status", status));
      o := if ok then Done else Failed(Refused);
    }

    method Do(a: Action) returns (o: Outcome)
      modifies outside
      ensures wiring.dryRun ==> o == Done && outside.calls == old(outside.calls)
      ensures !wiring.dryRun && outside.calls == old(outside.calls) ==> o.Failed?
      ensures outside.calls != old(outside.calls) ==>
                !wiring.dryRun && a.load in wiring.targets
                && |outside.calls| == |old(outside.calls)| + 1 && old(outside.calls) <= outside.calls
                && (o == Done <==> outside.accepts(|old(outside.calls)|))
      ensures outside.calls != old(outside.calls) ==>
                var t, call := wiring.targets[a.load], outside.calls[|old(outside.calls)|];
                && (a.kind == ChassisShutdown ==> call == Shutdown(t.cmcHost))
                && (a.kind == ChassisPowerUp ==> call == PowerUp(t.cmcHost))
                && (a.kind == WakeServer ==> call == Wake(t.wakeMac, t.wakeBroadcast))
                && (a.kind == AssertServerShed ==>
                      wiring.shedUps.Some? && a.load in wiring.shedUps.value
                      && call == SetVar(wiring.shedUps.value[a.load], "ups.status", "OB LB FSD"))
                && (a.kind == ReleaseServerShed ==>
                      wiring.shedUps.Some? && a.load in wiring.shedUps.value
                      && call == SetVar(wiring.shedUps.value[a.load], "ups.status", "OL"))
      ensures outside.calls == old(outside.calls) && !wiring.dryRun && a.load in wiring.targets ==>
                ((a.kind == ChassisShutdown || a.kind == ChassisPowerUp) && !wiring.chassis)
                || (a.kind == WakeServer && !wiring.waker)
                || ((a.kind == AssertServerShed || a.kind == ReleaseServerShed)
                    && (wiring.shedUps.None? || a.load !in wiring.shedUps.value))
      ensures o == OutcomeOf(wiring, outside.accepts, old(TheSite()), a)
      ensures outside.calls == Step(wiring, outside.accepts, old(TheSite()), a).calls
      ensures outside.status == Step(wiring, outside.accepts, old(TheSite()), a).status
    {
      if wiring.dryRun { return Done; }
      if a.load !in wiring.targets { return Failed(NoTarget); }
      var t := wiring.targets[a.load];
      var ok: bool;
      match a.kind {
        case ChassisShutdown =>
          if !wiring.chassis { return Failed(NoEffect); }
          ok := outside.Perform(Shutdown(t.cmcHost));
        case ChassisPowerUp =>
          if !wiring.chassis { return Failed(NoEffect); }
          ok := outside.Perform(PowerUp(t.cmcHost));
        case AssertServerShed =>
          if wiring.shedUps.None? { return Failed(NoEffect); }
          o := SetSignal(a.load, STATUS_SHED);
          return;
        case ReleaseServerShed =>
          if wiring.shedUps.None? { return Failed(NoEffect); }
          o := SetSignal(a.load, STATUS_OK);
          return;
        case WakeServer =>
          if !wiring.waker { return Failed(NoEffect); }
          ok := outside.Perform(Wake(t.wakeMac, t.wakeBroadcast));
      }
      o := if ok then Done else Failed(Refused);
    }

    /** Every action is attempted in list order, whatever happened to the ones before it. */
    method Apply(actions: seq<Action>)
      modifies outside, metrics`actions, metrics`actionFails
      ensures TheSite() == Worked(wiring, outside.accepts, old(TheSite()), actions)
    {
      ghost var before := TheSite();
      for k := 0 to |actions|
        invariant TheSite() == Worked(wiring, outside.accepts, before, actions[..k])
      {
        assert actions[..k + 1][..k] == actions[..k];
        DoAndCount(actions[k]);
      }
      assert actions[..|actions|] == actions;
    }

    method DoAndCount(a: Action)
      modifies outside, metrics`actions, metrics`actionFails
      ensures TheSite() == Step(wiring, outside.accepts, old(TheSite()), a)
      ensures var key := (a.load, KindName(a.kind));
              metrics.actions == old(metrics.actions)[key := Counter(old(metrics.actions), key.0, key.1) + 1]
      ensures var key := (a.load, KindName(a.kind));
              var called := outside.calls != old(outside.calls);
              metrics.actionFails
              == if !wiring.dryRun && (!called || !outside.accepts(|old(outside.calls)|))
                 then old(metrics.actionFails)[key := Counter(old(metrics.actionFails), key.0, key.1) + 1]
                 else old(metrics.actionFails)
    {
      var o := Do(a);
      metrics.RecordAction(a.load, KindName(a.kind), o.Failed?);
    }
  }

  // ---- what the executor guarantees over whole lists ----

  /** How many of the first n actions are `a` and failed. */
  function Failures(w: Wiring, accepts: nat -> bool, s: Site, acts: seq<Action>, a: Action): nat {
    if acts == [] then 0
    else
      var n := |acts| - 1;
      Failures(w, accepts, s, acts[..n], a)
      + (if acts[n] == a && OutcomeOf(w, accepts, Worked(w, accepts, s, acts[..n]), a).Failed? then 1 else 0)
  }

  /** Whether an action failed shows in the world: outside dryRun, when it made no call, or one that
      was not accepted. */
  lemma OutcomeShows(w: Wiring, accepts: nat -> bool, s: Site, a: Action)
    ensures var t := Step(w, accepts, s, a);
            OutcomeOf(w, accepts, s, a).Failed? <==> !w.dryRun && (t.calls == s.calls || !accepts(|s.calls|))
    ensures |s.calls| <= |Step(w, accepts, s, a).calls| <= |s.calls| + 1
    ensures w.dryRun ==> Step(w, accepts, s, a).calls == s.calls
  {
  }

  /** How many of the attempts from the n-th to the m-th were not accepted. */
  function Refusals(accepts: nat -> bool, n: nat, m: nat): nat {
    if m <= n then 0 else Refusals(accepts, n, m - 1) + if accepts(m - 1) then 0 else 1
  }

  function AllFailures(w: Wiring, accepts: nat -> bool, s: Site, acts: seq<Action>): nat {
    if acts == [] then 0
    else
      var n := |acts| - 1;
      AllFailures(w, accepts, s, acts[..n])
      + if OutcomeOf(w, accepts, Worked(w, accepts, s, acts[..n]), acts[n]).Failed? then 1 else 0
  }

  lemma {:induction false} CallsGrow(w: Wiring, accepts: nat -> bool, s: Site, acts: seq<Action>)
    ensures |s.calls| <= |Worked(w, accepts, s, acts).calls| <= |s.calls| + |acts|
    ensures w.dryRun ==> Worked(w, accepts, s, acts).calls == s.calls
  {
    if acts != [] {
      var front := acts[..|acts| - 1];
      CallsGrow(w, accepts, s, front);
      OutcomeShows(w, accepts, Worked(w, accepts, s, front), acts[|acts| - 1]);
    }
  }

  /** Over a whole list, what failed is the calls that were not accepted and, outside dryRun, the
      actions that made none. */
  lemma {:induction false} FailuresShow(w: Wiring, accepts: nat -> bool, s: Site, acts: seq<Action>)
    ensures AllFailures(w, accepts, s, acts)
            == Refusals(accepts, |s.calls|, |Worked(w, accepts, s, acts).calls|)
               + if w.dryRun then 0 else |acts| - (|Worked(w, accepts, s, acts).calls| - |s.calls|)
  {
    CallsGrow(w, accepts, s, acts);
    if acts != [] {
      var front, last := acts[..|acts| - 1], acts[|acts| - 1];
      var t := Worked(w, accepts, s, front);
      CallsGrow(w, accepts, s, front);
      FailuresShow(w, accepts, s, front);
      OutcomeShows(w, accepts, t, last);
      assert Worked(w, accepts, s, acts) == Step(w, accepts, t, last);
      assert |Step(w, accepts, t, last).calls| == |t.calls| + 1 ==>
          Refusals(accepts, |s.calls|, |t.calls| + 1)
          == Refusals(accepts, |s.calls|, |t.calls|) + if accepts(|t.calls|) then 0 else 1;
    }
  }

  lemma KindNamesDiffer(a: ActionKind, b: ActionKind)
    requires KindName(a) == KindName(b)
    ensures a == b
  {
    assert KindName(ChassisShutdown)[7] == 'S' && KindName(ChassisPowerUp)[7] == 'P';
    assert KindName(ChassisShutdown)[0] == 'C' && KindName(ChassisPowerUp)[0] == 'C';
    assert KindName(AssertServerShed)[0] == 'A' && KindName(ReleaseServerShed)[0] == 'R'
        && KindName(WakeServer)[0] == 'W';
  }

  lemma StepCounts(w: Wiring, accepts: nat -> bool, s: Site, last: Action, a: Action)
    ensures var t := Step(w, accepts, s, last);
            && Counter(t.actions, a.load, KindName(a.kind))
               == Counter(s.actions, a.load, KindName(a.kind)) + (if last == a then 1 else 0)
            && Counter(t.actionFails, a.load, KindName(a.kind))
               == Counter(s.actionFails, a.load, KindName(a.kind))
                  + (if last == a && OutcomeOf(w, accepts, s, a).Failed? then 1 else 0)
  {
    if last.load == a.load && KindName(last.kind) == KindName(a.kind) {
      KindNamesDiffer(last.kind, a.kind);
      assert last == a;
    }
  }

  /** The action counters grow by the occurrences applied, the failure counters by the
      occurrences that failed; dryRun counts too. */
  lemma {:induction false} CountersAreExact(w: Wiring, accepts: nat -> bool, s: Site, acts: seq<Action>, a: Action)
    ensures var t := Worked(w, accepts, s, acts);
            Counter(t.actions, a.load, KindName(a.kind))
                == Counter(s.actions, a.load, KindName(a.kind)) + multiset(acts)[a]
    ensures var t := Worked(w, accepts, s, acts);
            Counter(t.actionFails, a.load, KindName(a.kind))
            == Counter(s.actionFails, a.load, KindName(a.kind)) + Failures(w, accepts, s, acts, a)
  {
    if acts != [] {
      var n := |acts| - 1;
      CountersAreExact(w, accepts, s, acts[..n], a);
      StepCounts(w, accepts, Worked(w, accepts, s, acts[..n]), acts[n], a);
      assert acts == acts[..n] + [acts[n]];
    }
  }

  /** The labels the counters go by. */
  lemma CounterLabels(w: Wiring, accepts: nat -> bool, s: Site, acts: seq<Action>, load: string)
    ensures var now, before := Worked(w, accepts, s, acts).actions, s.actions;
            && Counter(now, load, "ChassisShutdown")
               == Counter(before, load, "ChassisShutdown") + multiset(acts)[Action(ChassisShutdown, load)]
            && Counter(now, load, "ChassisPowerUp")
               == Counter(before, load, "ChassisPowerUp") + multiset(acts)[Action(ChassisPowerUp, load)]
            && Counter(now, load, "AssertServerShed")
               == Counter(before, load, "AssertServerShed") + multiset(acts)[Action(AssertServerShed, load)]
            && Counter(now, load, "ReleaseServerShed")
               == Counter(before, load, "ReleaseServerShed") + multiset(acts)[Action(ReleaseServerShed, load)]
            && Counter(now, load, "WakeServer")
               == Counter(before, load, "WakeServer") + multiset(acts)[Action(WakeServer, load)]
  {
    CountersAreExact(w, accepts, s, acts, Action(ChassisShutdown, load));
    CountersAreExact(w, accepts, s, acts, Action(ChassisPowerUp, load));
    CountersAreExact(w, accepts, s, acts, Action(AssertServerShed, load));
    CountersAreExact(w, accepts, s, acts, Action(ReleaseServerShed, load));
    CountersAreExact(w, accepts, s, acts, Action(WakeServer, load));
  }

  /** In dryRun nothing outside is touched and nothing fails. */
  lemma {:induction false} DryRunTouchesNothing(w: Wiring, accepts: nat -> bool, s: Site, acts: seq<Action>)
    requires w.dryRun
    ensures Worked(w, accepts, s, acts).calls == s.calls
    ensures Worked(w, accepts, s, acts).status == s.status
    ensures Worked(w, accepts, s, acts).actionFails == s.actionFails
  {
    if acts != [] {
      DryRunTouchesNothing(w, accepts, s, acts[..|acts| - 1]);
    }
  }
}
