/** What the decision core promises for all inputs: the interlock, independence of map
    order and of other loads, and settling. */
module ControlLaws {
  import opened Common
  import opened Ordering
  import opened Control

  // ---- the interlock ----

  /** A source sheds when it was polled, is on battery, and flags LB or is down to a floor; it is
      healthy when it was polled, is online, off battery, and recharged or without a charge reading;
      and unknown when it was not polled. */
  lemma ClassifyMeaning(c: UPSConfig, t: Telemetry)
    ensures Classify(c, t) == SourceShed
            <==> t.ok && t.status.onBattery
                 && (t.status.lowBattery
                     || (0 <= t.runtime && t.runtime <= c.shedRuntime)
                     || (0 < c.shedCharge && 0 <= t.charge && t.charge <= c.shedCharge))
    ensures Classify(c, t) == SourceHealthy
            <==> t.ok && t.status.onLine && !t.status.onBattery && (t.charge < 0 || c.recoverCharge <= t.charge)
    ensures Classify(c, t) == SourceUnknown <==> !t.ok
    ensures Critical(c, t) <==> Classify(c, t) == SourceShed
    ensures Recovered(c, t) <==> Classify(c, t) == SourceHealthy
  {
  }

  /** A UPS without a reading, or with one that is not ok, is unknown, and no other configured one is. */
  lemma UnreadIsUnknown(i: Inputs, u: string)
    ensures SourceOf(i, u) == SourceUnknown <==> u !in i.upsCfgs || u !in i.tel || !i.tel[u].ok
  {
    if u in i.upsCfgs { ClassifyMeaning(i.upsCfgs[u], Get(i.tel, u, NO_READING)); }
  }

  ghost predicate CriticalUps(i: Inputs, u: string) {
    u in i.upsCfgs && Critical(i.upsCfgs[u], Get(i.tel, u, NO_READING))
  }

  ghost predicate RecoveredUps(i: Inputs, u: string) {
    u in i.upsCfgs && Recovered(i.upsCfgs[u], Get(i.tel, u, NO_READING))
  }

  /** What the two mean of a UPS's own reading. */
  lemma UpsMeaning(i: Inputs, u: string)
    ensures RecoveredUps(i, u) <==> u in i.upsCfgs && u in i.tel && Classify(i.upsCfgs[u], i.tel[u]) == SourceHealthy
    ensures CriticalUps(i, u) <==> u in i.upsCfgs && u in i.tel && Classify(i.upsCfgs[u], i.tel[u]) == SourceShed
  {
    if u in i.upsCfgs { ClassifyMeaning(i.upsCfgs[u], Get(i.tel, u, NO_READING)); }
  }

  /** A load is wanted on exactly when every governing UPS was polled, is online, off battery
      and recharged, and nobody asked for less; it is wanted off exactly when some governing
      UPS is on battery past a floor or flags LB, or the caller asked for off. */
  lemma Interlock(i: Inputs, load: string)
    requires load in i.loads
    ensures VerdictFor(i, load) == DesiredOn <==>
              (forall u :: u in i.loads[load].governedBy ==> RecoveredUps(i, u))
              && Get(i.ext, load, NoRequest) in {NoRequest, RequestOn}
    ensures VerdictFor(i, load) == DesiredOff <==>
              (exists u :: u in i.loads[load].governedBy && CriticalUps(i, u))
              || Get(i.ext, load, NoRequest) == RequestOff
  {
    var gov := i.loads[load].governedBy;
    var sources := SourcesOf(i, load);
    forall u | u in gov
      ensures SourceOf(i, u) in sources
      ensures SourceOf(i, u) == SourceHealthy <==> RecoveredUps(i, u)
      ensures SourceOf(i, u) == SourceShed <==> CriticalUps(i, u)
    {
      if u in i.upsCfgs { ClassifyMeaning(i.upsCfgs[u], Get(i.tel, u, NO_READING)); }
    }
    if sources <= {SourceHealthy} {
      forall u | u in gov ensures SourceOf(i, u) == SourceHealthy {
        assert SourceOf(i, u) in sources;
      }
    }
    if SourceShed in sources {
      var u :| u in gov && SourceOf(i, u) == SourceShed;
      assert CriticalUps(i, u);
    }
  }

  /** One more governing UPS can only make a load harder to power and easier to shed. */
  lemma MoreSourcesAreMoreCautious(sources: set<SourceState>, more: set<SourceState>, req: Request)
    requires sources <= more
    ensures Verdict(more, req) == DesiredOn ==> Verdict(sources, req) == DesiredOn
    ensures Verdict(sources, req) == DesiredOff ==> Verdict(more, req) == DesiredOff
  {
  }

  /** The same over a load's configuration: governedBy extended by any list. */
  lemma GoverningMoreIsMoreCautious(i: Inputs, load: string, added: seq<string>, j: Inputs)
    requires load in i.loads
    requires j == i.(loads := i.loads[load := i.loads[load].(governedBy := i.loads[load].governedBy + added)])
    ensures VerdictFor(j, load) == DesiredOn ==> VerdictFor(i, load) == DesiredOn
    ensures VerdictFor(i, load) == DesiredOff ==> VerdictFor(j, load) == DesiredOff
  {
    forall s | s in SourcesOf(i, load) ensures s in SourcesOf(j, load) {
      var u :| u in i.loads[load].governedBy && SourceOf(i, u) == s;
      assert SourceOf(j, u) == s && u in j.loads[load].governedBy;
    }
    MoreSourcesAreMoreCautious(SourcesOf(i, load), SourcesOf(j, load), Get(i.ext, load, NoRequest));
  }

  // ---- shape of the decided list ----

  /** The actions for one load, in list order. */
  function ForLoad(acts: seq<Action>, load: string): seq<Action> {
    if acts == [] then []
    else (if acts[0].load == load then [acts[0]] else []) + ForLoad(acts[1..], load)
  }

  lemma {:induction false} ForLoadConcat(a: seq<Action>, b: seq<Action>, load: string)
    ensures ForLoad(a + b, load) == ForLoad(a, load) + ForLoad(b, load)
  {
    if a == [] {
      assert a + b == b;
    } else {
      var own := if a[0].load == load then [a[0]] else [];
      assert (a + b)[0] == a[0] && (a + b)[1..] == a[1..] + b;
      ForLoadConcat(a[1..], b, load);
      assert ForLoad(a + b, load) == own + ForLoad(a[1..] + b, load);
      assert own + (ForLoad(a[1..], load) + ForLoad(b, load)) == (own + ForLoad(a[1..], load)) + ForLoad(b, load);
    }
  }

  lemma {:induction false} ForLoadKeepsOrDrops(acts: seq<Action>, name: string, load: string)
    requires forall a :: a in acts ==> a.load == name
    ensures ForLoad(acts, load) == if load == name then acts else []
  {
    if acts != [] {
      assert acts[0] in acts;
      ForLoadKeepsOrDrops(acts[1..], name, load);
    }
  }

  lemma ForLoadOfOwn(i: Inputs, name: string, load: string)
    requires name in i.loads
    ensures ForLoad(LoadActions(i, name), load) == if load == name then LoadActions(i, name) else []
  {
    var acts := LoadActions(i, name);
    assert forall a :: a in acts ==> a.load == name;
    ForLoadKeepsOrDrops(acts, name, load);
  }

  lemma {:induction false} ProjectionOver(i: Inputs, names: seq<string>, load: string)
    requires (forall n :: n in names ==> n in i.loads) && Distinct(names)
    ensures ForLoad(DecideOver(i, names), load) == if load in names then LoadActions(i, load) else []
  {
    if names != [] {
      var first, rest := LoadActions(i, names[0]), DecideOver(i, names[1..]);
      ForLoadConcat(first, rest, load);
      ForLoadOfOwn(i, names[0], load);
      ProjectionOver(i, names[1..], load);
      assert names == [names[0]] + names[1..];
    }
  }

  /** Seen from one load, the whole list is that load's own reconciliation. */
  lemma DecisionsForOneLoad(i: Inputs, load: string)
    ensures ForLoad(Decisions(i), load) == if load in i.loads then LoadActions(i, load) else []
  {
    SortedIsDistinct(SortedKeys(i.loads.Keys));
    ProjectionOver(i, SortedKeys(i.loads.Keys), load);
  }

  lemma {:induction false} InForLoad(acts: seq<Action>, a: Action)
    ensures a in acts <==> a in ForLoad(acts, a.load)
  {
    if acts != [] {
      InForLoad(acts[1..], a);
      assert acts == [acts[0]] + acts[1..];
    }
  }

  lemma DecidedActions(i: Inputs, a: Action)
    ensures a in Decisions(i) <==> a.load in i.loads && a in LoadActions(i, a.load)
  {
    InForLoad(Decisions(i), a);
    DecisionsForOneLoad(i, a.load);
  }

  lemma ReconciledChassis(name: string, d: Desired, actual: ActualState, shed: ShedState, k: ActionKind)
    ensures Action(k, name) in ReconcileLoad(name, Chassis, d, actual, shed)
            <==> (k == ChassisShutdown && d == DesiredOff && actual == ActualUp)
                 || (k == ChassisPowerUp && d == DesiredOn && actual == ActualDown)
  {
  }

  lemma ReconciledServer(name: string, d: Desired, actual: ActualState, shed: ShedState, k: ActionKind)
    ensures Action(k, name) in ReconcileLoad(name, NutServer, d, actual, shed)
            <==> (k == AssertServerShed && d == DesiredOff && shed != ShedAsserted)
                 || (k == ReleaseServerShed && d == DesiredOn && shed != ShedReleased)
                 || (k == WakeServer && d == DesiredOn && actual == ActualDown)
  {
    if d == DesiredOn {
      var release := if shed != ShedReleased then [Action(ReleaseServerShed, name)] else [];
      var wake := if actual == ActualDown then [Action(WakeServer, name)] else [];
      assert ReconcileLoad(name, NutServer, d, actual, shed) == release + wake;
      assert forall a :: a in release + wake <==> a in release || a in wake;
    }
  }

  /** Edge triggering: an action is decided exactly when the verdict wants a state that the
      observation of this kind of load does not show. A probe that says nothing never calls for a
      power command; a signal that cannot be read always calls for a write. */
  lemma DecidedIffCalledFor(i: Inputs, a: Action)
    ensures a in Decisions(i) ==> a.load in i.loads
    ensures a.load in i.loads ==>
              var lt, d := i.loads[a.load].loadType, VerdictFor(i, a.load);
              var actual, shed := Get(i.actual, a.load, ActualUnknown), Get(i.shed, a.load, ShedUnknown);
              (a in Decisions(i)
               <==> (lt == Chassis && a.kind == ChassisShutdown && d == DesiredOff && actual == ActualUp)
                    || (lt == Chassis && a.kind == ChassisPowerUp && d == DesiredOn && actual == ActualDown)
                    || (lt == NutServer && a.kind == AssertServerShed && d == DesiredOff && shed != ShedAsserted)
                    || (lt == NutServer && a.kind == ReleaseServerShed && d == DesiredOn && shed != ShedReleased)
                    || (lt == NutServer && a.kind == WakeServer && d == DesiredOn && actual == ActualDown))
  {
    DecidedActions(i, a);
    if a.load in i.loads {
      var d := VerdictFor(i, a.load);
      var actual, shed := Get(i.actual, a.load, ActualUnknown), Get(i.shed, a.load, ShedUnknown);
      ReconciledChassis(a.load, d, actual, shed, a.kind);
      ReconciledServer(a.load, d, actual, shed, a.kind);
    }
  }

  /** Bringing a load up, or letting it up. */
  predicate Raises(k: ActionKind) {
    k == WakeServer || k == ChassisPowerUp || k == ReleaseServerShed
  }

  /** The interlock for a decided action: what raises a load needs every governing UPS
      recovered and no contrary request; what sheds it needs a critical one or an off request. */
  lemma InterlockOfActions(i: Inputs, a: Action)
    requires a in Decisions(i)
    ensures a.load in i.loads
    ensures Raises(a.kind) <==> a.kind == WakeServer || a.kind == ChassisPowerUp || a.kind == ReleaseServerShed
    ensures Raises(a.kind) ==>
              (forall u :: u in i.loads[a.load].governedBy ==> RecoveredUps(i, u))
              && Get(i.ext, a.load, NoRequest) in {NoRequest, RequestOn}
    ensures !Raises(a.kind) ==>
              (exists u :: u in i.loads[a.load].governedBy && CriticalUps(i, u))
              || Get(i.ext, a.load, NoRequest) == RequestOff
  {
    DecidedActions(i, a);
    Interlock(i, a.load);
  }

  /** Chassis commands go to chassis loads and signals and wakes to NUT servers. */
  lemma KindsFitTypes(i: Inputs, a: Action)
    requires a in Decisions(i)
    ensures a.load in i.loads
    ensures i.loads[a.load].loadType == Chassis <==> a.kind == ChassisShutdown || a.kind == ChassisPowerUp
  {
    DecidedActions(i, a);
  }

  /** Any order the runtime visits the load map in leads to the same list. */
  lemma MapOrderIsIrrelevant(i: Inputs, order: seq<string>)
    requires Enumerates(order, i.loads.Keys)
    ensures (forall n :: n in Sort(order) ==> n in i.loads) && DecideOver(i, Sort(order)) == Decisions(i)
  {
    SortedEnumeration(order, i.loads.Keys);
  }

  /** `x` may stand somewhere in front of `y` in the decided list. */
  predicate InOrder(x: Action, y: Action) {
    !Less(y.load, x.load) && x != y
  }

  ghost predicate AllInOrder(acts: seq<Action>) {
    forall x, y :: 0 <= x < y < |acts| ==> InOrder(acts[x], acts[y])
  }

  lemma OwnActionsInOrder(i: Inputs, name: string)
    requires name in i.loads
    ensures AllInOrder(LoadActions(i, name)) && forall a :: a in LoadActions(i, name) ==> a.load == name
  {
    if Less(name, name) { LessAsymmetric(name, name); }
  }

  lemma InOrderConcat(a: seq<Action>, b: seq<Action>)
    requires AllInOrder(a) && AllInOrder(b)
    requires forall x, y :: x in a && y in b ==> InOrder(x, y)
    ensures AllInOrder(a + b)
  {
  }

  lemma {:induction false} OrderedOver(i: Inputs, names: seq<string>)
    requires (forall n :: n in names ==> n in i.loads) && StrictlySorted(names)
    ensures forall a :: a in DecideOver(i, names) ==> a.load in names
    ensures AllInOrder(DecideOver(i, names))
  {
    if names != [] {
      var first, rest := LoadActions(i, names[0]), DecideOver(i, names[1..]);
      OrderedOver(i, names[1..]);
      OwnActionsInOrder(i, names[0]);
      assert names == [names[0]] + names[1..];
      forall x, y | x in first && y in rest ensures InOrder(x, y) {
        var k :| 0 <= k < |names[1..]| && names[1..][k] == y.load;
        assert Less(names[0], names[k + 1]);
        LessAsymmetric(names[0], y.load);
      }
      InOrderConcat(first, rest);
    }
  }

  /** The list is in name order and never repeats an action. */
  lemma DecisionsAreOrdered(i: Inputs)
    ensures forall x, y :: 0 <= x < y < |Decisions(i)| ==> !Less(Decisions(i)[y].load, Decisions(i)[x].load)
    ensures Distinct(Decisions(i))
  {
    OrderedOver(i, SortedKeys(i.loads.Keys));
    assert forall x, y :: 0 <= x < y < |Decisions(i)| ==> InOrder(Decisions(i)[x], Decisions(i)[y]);
  }

  /** Two polls that agree on one load's configuration, governing sources, request and
      observation decide the same for it, whatever else differs. */
  lemma OtherLoadsAreIrrelevant(i: Inputs, j: Inputs, load: string)
    requires load in i.loads && load in j.loads && i.loads[load] == j.loads[load]
    requires forall u :: u in i.loads[load].governedBy ==> SourceOf(i, u) == SourceOf(j, u)
    requires Get(i.ext, load, NoRequest) == Get(j.ext, load, NoRequest)
    requires Get(i.actual, load, ActualUnknown) == Get(j.actual, load, ActualUnknown)
    requires Get(i.shed, load, ShedUnknown) == Get(j.shed, load, ShedUnknown)
    ensures ForLoad(Decisions(i), load) == ForLoad(Decisions(j), load)
  {
    DecisionsForOneLoad(i, load);
    DecisionsForOneLoad(j, load);
    assert SourcesOf(i, load) == SourcesOf(j, load);
  }

  // ---- settling ----

  /** The observation once an action has taken full effect. */
  function TakeEffect(i: Inputs, a: Action): Inputs {
    Inputs(i.upsCfgs, i.tel, i.loads, PowerAfter(i.actual, a), SignalAfter(i.shed, a), i.ext)
  }

  function PowerAfter(actual: map<string, ActualState>, a: Action): map<string, ActualState> {
    if a.kind == ChassisShutdown then actual[a.load := ActualDown]
    else if a.kind == ChassisPowerUp || a.kind == WakeServer then actual[a.load := ActualUp]
    else actual
  }

  function SignalAfter(shed: map<string, ShedState>, a: Action): map<string, ShedState> {
    if a.kind == AssertServerShed then shed[a.load := ShedAsserted]
    else if a.kind == ReleaseServerShed then shed[a.load := ShedReleased]
    else shed
  }

  function TakeAllEffects(i: Inputs, acts: seq<Action>): Inputs
    decreases |acts|
  {
    if acts == [] then i else TakeAllEffects(TakeEffect(i, acts[0]), acts[1..])
  }

  /** What ReconcileLoad observes of one load. */
  function Seen(i: Inputs, load: string): (ActualState, ShedState) {
    (Get(i.actual, load, ActualUnknown), Get(i.shed, load, ShedUnknown))
  }

  lemma OneEffectIsLocal(i: Inputs, j: Inputs, a: Action, load: string)
    requires Seen(i, load) == Seen(j, load)
    ensures a.load != load ==> Seen(TakeEffect(i, a), load) == Seen(j, load)
    ensures a.load == load ==> Seen(TakeEffect(i, a), load) == Seen(TakeEffect(j, a), load)
  {
  }

  lemma {:induction false} EffectsAreLocal(i: Inputs, j: Inputs, acts: seq<Action>, load: string)
    requires Seen(i, load) == Seen(j, load)
    ensures Seen(TakeAllEffects(i, acts), load) == Seen(TakeAllEffects(j, ForLoad(acts, load)), load)
    decreases |acts|
  {
    if acts != [] {
      var a := acts[0];
      OneEffectIsLocal(i, j, a, load);
      var own := ForLoad(acts, load);
      if a.load == load {
        EffectsAreLocal(TakeEffect(i, a), TakeEffect(j, a), acts[1..], load);
        assert own[0] == a && own[1..] == ForLoad(acts[1..], load);
      } else {
        EffectsAreLocal(TakeEffect(i, a), j, acts[1..], load);
        assert own == ForLoad(acts[1..], load);
      }
    }
  }

  ghost predicate SameOutsideReadings(i: Inputs, j: Inputs) {
    i.upsCfgs == j.upsCfgs && i.tel == j.tel && i.loads == j.loads && i.ext == j.ext
  }

  lemma {:induction false} EffectsKeepReadings(i: Inputs, acts: seq<Action>)
    ensures SameOutsideReadings(i, TakeAllEffects(i, acts))
    decreases |acts|
  {
    if acts != [] {
      EffectsKeepReadings(TakeEffect(i, acts[0]), acts[1..]);
    }
  }

  lemma TakingOne(i: Inputs, a: Action)
    ensures TakeAllEffects(i, [a]) == TakeEffect(i, a)
  {
    assert [a][1..] == [];
    assert TakeAllEffects(i, [a]) == TakeAllEffects(TakeEffect(i, a), []);
  }

  lemma TakingTwo(i: Inputs, a: Action, b: Action)
    ensures TakeAllEffects(i, [a, b]) == TakeEffect(TakeEffect(i, a), b)
  {
    assert [a, b][1..] == [b];
    TakingOne(TakeEffect(i, a), b);
  }

  /** What one action leaves to be seen of its own load. */
  lemma OneActionSeen(i: Inputs, a: Action)
    ensures Seen(TakeEffect(i, a), a.load).0
            == (match a.kind
                case ChassisShutdown => ActualDown
                case ChassisPowerUp => ActualUp
                case WakeServer => ActualUp
                case _ => Seen(i, a.load).0)
    ensures Seen(TakeEffect(i, a), a.load).1
            == (match a.kind case AssertServerShed => ShedAsserted case ReleaseServerShed => ShedReleased
                             case _ => Seen(i, a.load).1)
  {
  }

  lemma OneLoadSettles(i: Inputs, load: string, lt: LoadType, d: Desired)
    ensures var acts := ReconcileLoad(load, lt, d, Seen(i, load).0, Seen(i, load).1);
            var after := Seen(TakeAllEffects(i, acts), load);
            ReconcileLoad(load, lt, d, after.0, after.1) == []
  {
    var acts := ReconcileLoad(load, lt, d, Seen(i, load).0, Seen(i, load).1);
    var release, wake := Action(ReleaseServerShed, load), Action(WakeServer, load);
    if acts == [] {
    } else if acts == [release, wake] {
      TakingTwo(i, release, wake);
      OneActionSeen(i, release);
      OneActionSeen(TakeEffect(i, release), wake);
    } else {
      assert acts == [acts[0]];
      TakingOne(i, acts[0]);
      OneActionSeen(i, acts[0]);
    }
  }

  lemma {:induction false} NothingToDo(i: Inputs, names: seq<string>)
    requires forall n :: n in names ==> n in i.loads && LoadActions(i, n) == []
    ensures DecideOver(i, names) == []
  {
    if names != [] {
      assert names[0] in names;
      NothingToDo(i, names[1..]);
    }
  }

  /** Once every decided action has taken effect, the next poll of the same readings is silent. */
  lemma Settling(i: Inputs)
    ensures Decisions(TakeAllEffects(i, Decisions(i))) == []
  {
    var j := TakeAllEffects(i, Decisions(i));
    EffectsKeepReadings(i, Decisions(i));
    forall l | l in i.loads ensures LoadActions(j, l) == [] {
      EffectsAreLocal(i, i, Decisions(i), l);
      DecisionsForOneLoad(i, l);
      OneLoadSettles(i, l, i.loads[l].loadType, VerdictFor(i, l));
      assert SourcesOf(j, l) == SourcesOf(i, l);
    }
    NothingToDo(j, SortedKeys(j.loads.Keys));
  }
}
