/** The reconcile tick: poll, probe, read the signals back, publish, snapshot the requests,
    record, decide, hold back early power-ons, apply. */
module App {
  import opened Clocks
  import opened ClosedLoop
  import opened Common
  import opened Control
  import opened ControlLaws
  import opened Effects
  import opened Metrics
  import opened Nut
  import opened Ordering
  import opened PowerApi
  import opened SignalLaws
  import opened Text
  import opened TickLaws

  // ---- the executor as the closed loop sees it ----

  /** The actions of a list that did not get through. */
  function FailedOnes(w: Wiring, accepts: nat -> bool, s: Site, acts: seq<Action>): set<Action> {
    set k | 0 <= k < |acts| && OutcomeAt(w, accepts, s, acts, k).Failed? :: acts[k]
  }

  lemma {:induction false} PrefixPerforms(w: Wiring, accepts: nat -> bool, s: Site, acts: seq<Action>, k: nat)
    requires Distinct(acts) && k <= |acts|
    ensures PerformAll(w, s.status, acts[..k], FailedOnes(w, accepts, s, acts))
            == Worked(w, accepts, s, acts[..k]).status
  {
    if k > 0 {
      PrefixPerforms(w, accepts, s, acts, k - 1);
      assert acts[..k][..k - 1] == acts[..k - 1];
      var a, o := acts[k - 1], OutcomeAt(w, accepts, s, acts, k - 1);
      assert a in FailedOnes(w, accepts, s, acts) <==> o.Failed?;
    }
  }

  /** Working through a list that never repeats an action moves the signals as the closed loop
      says, the failures being those the executor met. */
  lemma ExecutorRefinesLoop(w: Wiring, accepts: nat -> bool, s: Site, acts: seq<Action>)
    requires Distinct(acts)
    ensures PerformAll(w, s.status, acts, FailedOnes(w, accepts, s, acts)) == Worked(w, accepts, s, acts).status
  {
    PrefixPerforms(w, accepts, s, acts, |acts|);
    assert acts[..|acts|] == acts;
  }

  lemma OneMoreOutcome(w: Wiring, accepts: nat -> bool, s: Site, front: seq<Action>, last: Action, a: Action)
    ensures a in FailedOnes(w, accepts, s, front + [last])
            <==> a in FailedOnes(w, accepts, s, front)
                 || (a == last && OutcomeOf(w, accepts, Worked(w, accepts, s, front), last).Failed?)
  {
    var acts := front + [last];
    assert acts[..|front|] == front;
    forall k | 0 <= k < |front| ensures OutcomeAt(w, accepts, s, front, k) == OutcomeAt(w, accepts, s, acts, k) {
      assert front[..k] == acts[..k];
    }
    assert OutcomeAt(w, accepts, s, acts, |front|) == OutcomeOf(w, accepts, Worked(w, accepts, s, front), last);
    if a in FailedOnes(w, accepts, s, front) {
      var k :| 0 <= k < |front| && OutcomeAt(w, accepts, s, front, k).Failed? && front[k] == a;
      assert OutcomeAt(w, accepts, s, acts, k).Failed? && acts[k] == a;
    }
  }

  /** In a list that never repeats an action, each fails at most once. */
  lemma {:induction false} FailuresOfDistinct(w: Wiring, accepts: nat -> bool, s: Site, acts: seq<Action>, a: Action)
    requires Distinct(acts)
    ensures Failures(w, accepts, s, acts, a) == if a in FailedOnes(w, accepts, s, acts) then 1 else 0
    ensures a in FailedOnes(w, accepts, s, acts) ==> a in acts
  {
    if acts != [] {
      var front, last := acts[..|acts| - 1], acts[|acts| - 1];
      assert acts == front + [last] && last !in front;
      FailuresOfDistinct(w, accepts, s, front, a);
      OneMoreOutcome(w, accepts, s, front, last, a);
    }
  }

  // ---- the action counters over a run ----

  /** The counters of one action since event `from`. */
  ghost predicate CountIs(p: Plant, r: Run, from: nat, s: Site, a: Action)
    requires IsRun(p, r) && from <= |r.events|
  {
    Counter(s.actions, a.load, KindName(a.kind)) + TimesApplied(p, r, from, a) == TimesApplied(p, r, |r.events|, a)
    && Counter(s.actionFails, a.load, KindName(a.kind)) + TimesFailed(p, r, from, a) == TimesFailed(p, r, |r.events|, a)
  }

  ghost predicate CountsAre(p: Plant, r: Run, from: nat, s: Site) {
    IsRun(p, r) && from <= |r.events| && forall a :: CountIs(p, r, from, s, a)
  }

  /** Working off one list counts each of its actions once, and once as failed if it failed. */
  lemma ListCounts(w: Wiring, accepts: nat -> bool, s: Site, acts: seq<Action>, fails: set<Action>, a: Action)
    requires Distinct(acts) && fails == FailedOnes(w, accepts, s, acts)
    ensures Counter(Worked(w, accepts, s, acts).actions, a.load, KindName(a.kind))
            == Counter(s.actions, a.load, KindName(a.kind)) + multiset(acts)[a]
    ensures Counter(Worked(w, accepts, s, acts).actionFails, a.load, KindName(a.kind))
            == Counter(s.actionFails, a.load, KindName(a.kind)) + if a in acts && a in fails then 1 else 0
  {
    CountersAreExact(w, accepts, s, acts, a);
    FailuresOfDistinct(w, accepts, s, acts, a);
  }

  lemma AppliedIsDistinct(p: Plant, r: Run, k: nat)
    requires IsRun(p, r) && ActsAt(r, k)
    ensures Distinct(AppliedAt(p, r, k))
  {
    assert StepAt(p, r, k);
    AppliedActions(p, r.states[k], r.events[k], Action(WakeServer, ""));
  }

  /** An Act that the executor works off moves the counters by what it applied and what failed. */
  lemma ActCounts(p: Plant, accepts: nat -> bool, r: Run, q: Run, e: Event, s: Site, from: nat, a: Action)
    requires IsRun(p, r) && IsRun(p, q) && Continues(r, q, [e]) && e.Act?
    requires e.fails == FailedOnes(p.wiring, accepts, s, AppliedAt(p, q, |r.events|))
    requires from <= |r.events| && CountIs(p, r, from, s, a)
    ensures CountIs(p, q, from, Worked(p.wiring, accepts, s, AppliedAt(p, q, |r.events|)), a)
  {
    var k := |r.events|;
    AppliedIsDistinct(p, q, k);
    CountsAreSettled(p, r, q, [e], from, a);
    CountsAreSettled(p, r, q, [e], k, a);
    ListCounts(p.wiring, accepts, s, AppliedAt(p, q, k), e.fails, a);
  }

  lemma ActsCount(p: Plant, accepts: nat -> bool, r: Run, q: Run, e: Event, s: Site)
    requires IsRun(p, r) && IsRun(p, q) && Continues(r, q, [e]) && e.Act?
    requires e.fails == FailedOnes(p.wiring, accepts, s, AppliedAt(p, q, |r.events|))
    ensures forall from: nat :: CountsAre(p, r, from, s) ==>
              CountsAre(p, q, from, Worked(p.wiring, accepts, s, AppliedAt(p, q, |r.events|)))
  {
    var after := Worked(p.wiring, accepts, s, AppliedAt(p, q, |r.events|));
    forall from: nat | CountsAre(p, r, from, s) ensures CountsAre(p, q, from, after) {
      forall a ensures CountIs(p, q, from, after, a) {
        assert CountIs(p, r, from, s, a);
        ActCounts(p, accepts, r, q, e, s, from, a);
      }
    }
  }

  /** Empty counters are those of the run since now. */
  lemma NothingCounted(p: Plant, r: Run, s: Site)
    requires IsRun(p, r) && s.actions == map[] && s.actionFails == map[]
    ensures CountsAre(p, r, |r.events|, s)
  {
    forall a ensures CountIs(p, r, |r.events|, s, a) {}
  }

  lemma QuietStretchesCount(p: Plant, r: Run, q: Run, more: seq<Event>, s: Site)
    requires IsRun(p, r) && IsRun(p, q) && Continues(r, q, more) && forall e :: e in more ==> !e.Act?
    ensures forall from: nat :: CountsAre(p, r, from, s) ==> CountsAre(p, q, from, s)
  {
    forall from: nat | CountsAre(p, r, from, s) ensures CountsAre(p, q, from, s) {
      forall a ensures CountIs(p, q, from, s, a) {
        assert CountIs(p, r, from, s, a);
        CountsAreSettled(p, r, q, more, from, a);
        CountsAreSettled(p, r, q, more, |r.events|, a);
        NothingApplied(p, q, |r.events|, |q.events|, a);
      }
    }
  }

  lemma {:induction false} NothingApplied(p: Plant, q: Run, j: nat, k: nat, a: Action)
    requires IsRun(p, q) && j <= k <= |q.events| && forall m :: j <= m < k ==> !q.events[m].Act?
    ensures TimesApplied(p, q, k, a) == TimesApplied(p, q, j, a) && TimesFailed(p, q, k, a) == TimesFailed(p, q, j, a)
  {
    if j < k { NothingApplied(p, q, j, k - 1, a); }
  }

  /** The two halves of a tick make one, and counters that were those of the run stay so. */
  lemma TickContinues(p: Plant, accepts: nat -> bool, r: Run, r2: Run, q: Run,
                      observe: Event, snapshot: Event, act: Event, s: Site)
    requires IsRun(p, r) && IsRun(p, r2) && IsRun(p, q)
    requires Continues(r, r2, [observe, snapshot]) && Continues(r2, q, [act])
    requires observe.Observe? && snapshot.Snapshot? && act.Act? && Last(r2).phase.Ready?
    requires act.fails == FailedOnes(p.wiring, accepts, s, AppliedAt(p, q, |r2.events|))
    ensures Continues(r, q, [observe, snapshot, act]) && |r2.events| == |r.events| + 2 && ActsAt(q, |r.events| + 2)
    ensures InputsAt(p, q, |r.events| + 2) == Last(r2).phase.i && Last(q).phase.Idle?
    ensures forall from: nat :: CountsAre(p, r, from, s) ==>
              CountsAre(p, q, from, Worked(p.wiring, accepts, s, AppliedAt(p, q, |r.events| + 2)))
  {
    assert StepAt(p, q, |r2.events|);
    ContinuesFurther(r, r2, q, [observe, snapshot], act);
    assert [observe, snapshot] + [act] == [observe, snapshot, act];
    QuietStretchesCount(p, r, r2, [observe, snapshot], s);
    ActsCount(p, accepts, r2, q, act, s);
  }

  /** Going through what the run applied at event k leads from one site to the other, and what
      failed on the way is what the event says. */
  ghost predicate WorksOff(p: Plant, accepts: nat -> bool, before: Site, after: Site, r: Run, k: nat)
    requires IsRun(p, r) && ActsAt(r, k)
  {
    var acts := AppliedAt(p, r, k);
    after == Worked(p.wiring, accepts, before, acts) && r.events[k].fails == FailedOnes(p.wiring, accepts, before, acts)
  }

  /** Working off what is left to do is one legal Act. */
  lemma ActContinues(p: Plant, accepts: nat -> bool, r: Run, site: Site, todo: seq<Action>, first: int, check: int)
    returns (e: Event, q: Run)
    requires IsRun(p, r) && Last(r).phase.Ready? && Last(r).now <= first <= check && site.status == Last(r).status
    requires var i := Last(r).phase.i;
             todo == if Holding(p.grace, Last(r).started, first, check) then WithoutPowerOn(Decisions(i))
                 else Decisions(i)
    ensures e == Act(first, check, FailedOnes(p.wiring, accepts, site, todo))
    ensures IsRun(p, q) && Continues(r, q, [e]) && ActsAt(q, |r.events|) && q.events[|r.events|] == e
    ensures AppliedAt(p, q, |r.events|) == todo
    ensures var s := Last(r);
            Last(q) == State(s.want, s.seen, if p.grace > 0 then Some(StartedAt(s.started, first)) else s.started,
                             Worked(p.wiring, accepts, site, todo).status, check, Idle)
    ensures q.states[|r.events|] == Last(r)
  {
    e := Act(first, check, FailedOnes(p.wiring, accepts, site, todo));
    q := Grown(p, r, e);
    GrownIsRun(p, r, e);
    assert q.states[|r.events|] == Last(r);
    AppliedActions(p, Last(r), e, Action(WakeServer, ""));
    ExecutorRefinesLoop(p.wiring, accepts, site, todo);
  }

  // ---- the in-place filter ----

  /** Compacts the array onto its own front, dropping power-on actions. */
  method DropPowerOns(actions: array<Action>) returns (kept: nat)
    modifies actions
    ensures kept <= actions.Length
    ensures actions[..kept] == WithoutPowerOn(old(actions[..]))
  {
    kept := 0;
    ghost var was := actions[..];
    for k := 0 to actions.Length
      invariant kept <= k
      invariant actions[k..] == was[k..]
      invariant actions[..kept] == WithoutPowerOn(was[..k])
    {
      var a := actions[k];
      assert a == was[k];
      assert was[..k + 1][..k] == was[..k];
      assert actions[k + 1..] == actions[k..][1..] == was[k + 1..];
      if IsPowerOn(a.kind) { continue; }
      ghost var front, back := actions[..kept], actions[k + 1..];
      actions[kept] := a;
      kept := kept + 1;
      assert actions[..kept] == front + [a];
      assert actions[k + 1..] == back;
    }
    assert was[..actions.Length] == was;
  }

  /** What the state endpoint answers from a table of sightings. */
  function Served(seen: map<string, Sighting>, load: string, at: int): StateReply {
    if load in seen then Power(seen[load].state, WholeSeconds(at - seen[load].at)) else Power(ActualUnknown, 0)
  }

  // ---- the controller ----

  // ---- what the enum gauges should show ----

  function SourceGroup(i: Inputs, u: string): map<string, real> {
    HotGroup(SOURCE_STATES, SourceName(SourceOf(i, u)))
  }

  /** The four gauges of the loads. */
  datatype LoadGauges = LoadGauges(desired: EnumGauge, requested: EnumGauge, actual: EnumGauge, shed: EnumGauge)

  predicate ShownAt(g: EnumGauge, id: string, group: map<string, real>) {
    id in g && g[id] == group
  }

  /** One load's gauges show the verdict Decide acts on, the request, the probe and, for a NUT
      server, the signal read. */
  predicate LoadShown(i: Inputs, l: string, g: LoadGauges)
    requires l in i.loads
  {
    ShownAt(g.desired, l, HotGroup(DESIRED_STATES, DesiredName(VerdictFor(i, l))))
    && ShownAt(g.requested, l, HotGroup(REQUEST_STATES, RequestName(Get(i.ext, l, NoRequest))))
    && ShownAt(g.actual, l, HotGroup(ACTUAL_STATES, ActualName(Get(i.actual, l, ActualUnknown))))
    && (i.loads[l].loadType == NutServer ==>
          ShownAt(g.shed, l, HotGroup(SHED_STATES, ShedName(Get(i.shed, l, ShedUnknown)))))
  }

  ghost predicate SourcesShown(i: Inputs, g: EnumGauge) {
    forall u :: u in i.upsCfgs ==> ShownAt(g, u, SourceGroup(i, u))
  }

  ghost predicate LoadsShown(i: Inputs, g: LoadGauges) {
    forall l :: l in i.loads ==> LoadShown(i, l, g)
  }

  /** The gauges of a load name its verdict, its request, its probe and its signal: each group is
      hot at that label and at no other. */
  lemma GaugesTell(i: Inputs, l: string, g: LoadGauges)
    requires l in i.loads && LoadShown(i, l, g)
    ensures forall d :: HotAt(g.desired[l], DESIRED_STATES, DesiredName(d)) <==> d == VerdictFor(i, l)
    ensures forall q :: HotAt(g.requested[l], REQUEST_STATES, RequestName(q)) <==> q == Get(i.ext, l, NoRequest)
    ensures forall a :: HotAt(g.actual[l], ACTUAL_STATES, ActualName(a)) <==> a == Get(i.actual, l, ActualUnknown)
    ensures i.loads[l].loadType == NutServer ==>
              forall s :: HotAt(g.shed[l], SHED_STATES, ShedName(s)) <==> s == Get(i.shed, l, ShedUnknown)
  {
    NamesAreStates();
    forall d ensures HotAt(g.desired[l], DESIRED_STATES, DesiredName(d)) <==> d == VerdictFor(i, l) {
      HotExactlyAt(DESIRED_STATES, DesiredName(VerdictFor(i, l)), DesiredName(d));
      if DesiredName(d) == DesiredName(VerdictFor(i, l)) { DesiredNamesDiffer(d, VerdictFor(i, l)); }
    }
    forall q ensures HotAt(g.requested[l], REQUEST_STATES, RequestName(q)) <==> q == Get(i.ext, l, NoRequest) {
      HotExactlyAt(REQUEST_STATES, RequestName(Get(i.ext, l, NoRequest)), RequestName(q));
      if RequestName(q) == RequestName(Get(i.ext, l, NoRequest)) { RequestNamesDiffer(q, Get(i.ext, l, NoRequest)); }
    }
    forall a ensures HotAt(g.actual[l], ACTUAL_STATES, ActualName(a)) <==> a == Get(i.actual, l, ActualUnknown) {
      HotExactlyAt(ACTUAL_STATES, ActualName(Get(i.actual, l, ActualUnknown)), ActualName(a));
      if ActualName(a) == ActualName(Get(i.actual, l, ActualUnknown)) {
        ActualNamesDiffer(a, Get(i.actual, l, ActualUnknown));
      }
    }
    if i.loads[l].loadType == NutServer {
      forall s ensures HotAt(g.shed[l], SHED_STATES, ShedName(s)) <==> s == Get(i.shed, l, ShedUnknown) {
        HotExactlyAt(SHED_STATES, ShedName(Get(i.shed, l, ShedUnknown)), ShedName(s));
        if ShedName(s) == ShedName(Get(i.shed, l, ShedUnknown)) { ShedNamesTell(s, Get(i.shed, l, ShedUnknown)); }
      }
    }
  }

  /** Label by label, for the verdict and the request. */
  lemma LoadLabels(i: Inputs, l: string, g: LoadGauges)
    requires l in i.loads && LoadShown(i, l, g)
    ensures HotAt(g.desired[l], DESIRED_STATES, "on") <==> VerdictFor(i, l) == DesiredOn
    ensures HotAt(g.desired[l], DESIRED_STATES, "off") <==> VerdictFor(i, l) == DesiredOff
    ensures HotAt(g.desired[l], DESIRED_STATES, "hold") <==> VerdictFor(i, l) == DesiredHold
    ensures HotAt(g.requested[l], REQUEST_STATES, "on") <==> Get(i.ext, l, NoRequest) == RequestOn
    ensures HotAt(g.requested[l], REQUEST_STATES, "off") <==> Get(i.ext, l, NoRequest) == RequestOff
    ensures HotAt(g.requested[l], REQUEST_STATES, "hold") <==> Get(i.ext, l, NoRequest) == RequestHold
  {
    GaugesTell(i, l, g);
    assert DesiredName(DesiredOn) == "on" && DesiredName(DesiredOff) == "off" && DesiredName(DesiredHold) == "hold";
    assert RequestName(RequestOn) == "on" && RequestName(RequestOff) == "off" && RequestName(RequestHold) == "hold";
  }

  /** And for the probe and the signal. */
  lemma ReadingLabels(i: Inputs, l: string, g: LoadGauges)
    requires l in i.loads && LoadShown(i, l, g)
    ensures HotAt(g.actual[l], ACTUAL_STATES, "up") <==> Get(i.actual, l, ActualUnknown) == ActualUp
    ensures HotAt(g.actual[l], ACTUAL_STATES, "down") <==> Get(i.actual, l, ActualUnknown) == ActualDown
    ensures i.loads[l].loadType == NutServer ==>
              (HotAt(g.shed[l], SHED_STATES, "asserted") <==> Get(i.shed, l, ShedUnknown) == ShedAsserted)
              && (HotAt(g.shed[l], SHED_STATES, "released") <==> Get(i.shed, l, ShedUnknown) == ShedReleased)
  {
    GaugesTell(i, l, g);
    assert ActualName(ActualUp) == "up" && ActualName(ActualDown) == "down";
    assert ShedName(ShedAsserted) == "asserted" && ShedName(ShedReleased) == "released";
  }

  /** So does the gauge of a UPS: it is hot at the label of its classification and at no other. */
  lemma SourceGaugeTells(i: Inputs, u: string, g: EnumGauge, state: SourceState)
    requires SourcesShown(i, g) && u in i.upsCfgs
    ensures u in g
    ensures HotAt(g[u], SOURCE_STATES, SourceName(state)) <==> state == SourceOf(i, u)
  {
    assert ShownAt(g, u, SourceGroup(i, u));
    NamesAreStates();
    HotExactlyAt(SOURCE_STATES, SourceName(SourceOf(i, u)), SourceName(state));
    if SourceName(state) == SourceName(SourceOf(i, u)) { SourceNamesDiffer(state, SourceOf(i, u)); }
  }

  lemma SourceLabels(i: Inputs, u: string, g: EnumGauge)
    requires SourcesShown(i, g) && u in i.upsCfgs
    ensures u in g
    ensures HotAt(g[u], SOURCE_STATES, "shed") <==> SourceOf(i, u) == SourceShed
    ensures HotAt(g[u], SOURCE_STATES, "hold") <==> SourceOf(i, u) == SourceHold
    ensures HotAt(g[u], SOURCE_STATES, "healthy") <==> SourceOf(i, u) == SourceHealthy
    ensures HotAt(g[u], SOURCE_STATES, "unknown") <==> SourceOf(i, u) == SourceUnknown
  {
    SourceGaugeTells(i, u, g, SourceShed);
    SourceGaugeTells(i, u, g, SourceHold);
    SourceGaugeTells(i, u, g, SourceHealthy);
    SourceGaugeTells(i, u, g, SourceUnknown);
  }

  ghost predicate Covers(names: seq<string>, keys: set<string>) {
    forall x :: x in names <==> x in keys
  }

  // ---- recording, name by name ----

  /** What one fetch comes to, and the wall clock when it is recorded. */
  datatype Answer = Answer(vars: Option<map<string, string>>, stamp: int)

  function PollOf(ups: string, a: Answer): Poll {
    Metrics.Poll(ups, a.vars.Some?, if a.vars.Some? then a.vars.value else map[], a.stamp)
  }

  /** One poll for each UPS the poller knows, in order. */
  function PollsOf(known: set<string>, fetch: string -> Answer, names: seq<string>): seq<Poll> {
    if names == [] then []
    else
      var u := names[|names| - 1];
      PollsOf(known, fetch, names[..|names| - 1]) + (if u in known then [PollOf(u, fetch(u))] else [])
  }

  function TableOver(i: Inputs, names: seq<string>): map<string, SourceState> {
    if names == [] then map[]
    else
      var u := names[|names| - 1];
      TableOver(i, names[..|names| - 1])[u := SourceOf(i, u)]
  }

  function SourcesOver(i: Inputs, names: seq<string>, g: EnumGauge): EnumGauge {
    if names == [] then g
    else
      var u := names[|names| - 1];
      SourcesOver(i, names[..|names| - 1], g)[u := SourceGroup(i, u)]
  }

  function WithLoad(i: Inputs, l: string, g: LoadGauges): LoadGauges
    requires l in i.loads
  {
    LoadGauges(g.desired[l := HotGroup(DESIRED_STATES, DesiredName(VerdictFor(i, l)))],
               g.requested[l := HotGroup(REQUEST_STATES, RequestName(Get(i.ext, l, NoRequest)))],
               g.actual[l := HotGroup(ACTUAL_STATES, ActualName(Get(i.actual, l, ActualUnknown)))],
               if i.loads[l].loadType == NutServer
               then g.shed[l := HotGroup(SHED_STATES, ShedName(Get(i.shed, l, ShedUnknown)))] else g.shed)
  }

  function LoadsOver(i: Inputs, names: seq<string>, g: LoadGauges): LoadGauges
    requires forall n :: n in names ==> n in i.loads
  {
    if names == [] then g
    else
      var l := names[|names| - 1];
      WithLoad(i, l, LoadsOver(i, names[..|names| - 1], g))
  }

  lemma {:induction false} SourcesOverShows(i: Inputs, names: seq<string>, g: EnumGauge, u: string)
    ensures u in TableOver(i, names) <==> u in names
    ensures u in names ==>
            TableOver(i, names)[u] == SourceOf(i, u) && ShownAt(SourcesOver(i, names, g), u, SourceGroup(i, u))
  {
    if names != [] {
      var front := names[..|names| - 1];
      assert names == front + [names[|names| - 1]];
      SourcesOverShows(i, front, g, u);
    }
  }

  lemma WithLoadShows(i: Inputs, l: string, g: LoadGauges, other: string)
    requires l in i.loads && other in i.loads
    ensures LoadShown(i, l, WithLoad(i, l, g))
    ensures LoadShown(i, other, g) ==> LoadShown(i, other, WithLoad(i, l, g))
  {
  }

  lemma {:induction false} LoadsOverShows(i: Inputs, names: seq<string>, g: LoadGauges, l: string)
    requires (forall n :: n in names ==> n in i.loads) && l in names
    ensures LoadShown(i, l, LoadsOver(i, names, g))
  {
    var front, last := names[..|names| - 1], names[|names| - 1];
    assert names == front + [last];
    WithLoadShows(i, last, LoadsOver(i, front, g), l);
    if l != last { LoadsOverShows(i, front, g, l); }
  }

  lemma AllSourcesAreShown(i: Inputs, names: seq<string>, g: EnumGauge)
    requires Covers(names, i.upsCfgs.Keys)
    ensures IsTable(i, TableOver(i, names)) && SourcesShown(i, SourcesOver(i, names, g))
  {
    forall u ensures u in TableOver(i, names) <==> u in names { SourcesOverShows(i, names, g, u); }
    forall u | u in i.upsCfgs
      ensures TableOver(i, names)[u] == SourceOf(i, u) && ShownAt(SourcesOver(i, names, g), u, SourceGroup(i, u))
    {
      SourcesOverShows(i, names, g, u);
    }
  }

  lemma AllLoadsAreShown(i: Inputs, names: seq<string>, g: LoadGauges)
    requires Covers(names, i.loads.Keys)
    ensures LoadsShown(i, LoadsOver(i, names, g))
  {
    forall l | l in i.loads ensures LoadShown(i, l, LoadsOver(i, names, g)) { LoadsOverShows(i, names, g, l); }
  }

  class Controller {
    const upsConfigs: map<string, UPSConfig>
    const loads: map<string, LoadConfig>
    const upsNames: seq<string>
    const loadNames: seq<string>
    const server: Server?
    const executor: Executor
    const metrics: Store
    const clock: Clock
    const atoi: IntParser
    const readsSignals: bool
    const polled: set<string>    // the UPSes the poller has an address for
    const grace: int
    var startedAt: Option<int>

    ghost predicate Valid()
      reads metrics`telemetry, metrics`upsStatus, metrics`upsPollFails, metrics`upsReachable
      reads metrics`upsLastSuccess, metrics`polls
      reads metrics`upsSource, metrics`loadDesired, metrics`loadRequested, metrics`loadActual, metrics`loadShed
    {
      Covers(upsNames, upsConfigs.Keys) && Covers(loadNames, loads.Keys)
      && clock.Valid() && (server != null ==> server.clock == clock)
      && executor.metrics == metrics
      && metrics.MatchesHistory() && metrics.OneHotEverywhere()
    }

    constructor (upsConfigs: map<string, UPSConfig>, loads: map<string, LoadConfig>, server: Server?,
                 executor: Executor, clock: Clock, atoi: IntParser, polled: set<string>, readsSignals: bool, grace: int)
      requires clock.Valid() && (server != null ==> server.clock == clock)
      requires executor.metrics.MatchesHistory() && executor.metrics.OneHotEverywhere()
      ensures Valid() && startedAt == None
      ensures upsNames == SortedKeys(upsConfigs.Keys) && loadNames == SortedKeys(loads.Keys)
      ensures this.upsConfigs == upsConfigs && this.loads == loads && this.server == server && this.executor == executor
      ensures this.clock == clock && this.grace == grace && this.readsSignals == readsSignals && this.atoi == atoi
      ensures this.polled == polled
      ensures At(Run([Beginning()], []))
    {
      var ups := CollectSortedKeys(upsConfigs.Keys);
      var names := CollectSortedKeys(loads.Keys);
      this.upsConfigs, this.loads, this.upsNames, this.loadNames := upsConfigs, loads, ups, names;
      this.server, this.executor, this.metrics, this.clock := server, executor, executor.metrics, clock;
      this.atoi, this.polled, this.readsSignals, this.grace, this.startedAt := atoi, polled, readsSignals, grace, None;
    }

    function ServerSet(): set<object> {
      if server == null then {} else {server}
    }

    ghost function ThePlant(): Plant {
      Plant(upsConfigs, loads, executor.wiring, readsSignals, server != null,
            if server != null then server.loads else {}, if server != null then server.ttl else 0, grace)
    }

    /** The objects are in this state of the closed loop. */
    ghost predicate Represents(s: State)
      reads this, clock, executor.outside, ServerSet()
    {
      s.want == (if server != null then server.want else map[])
      && s.seen == (if server != null then server.seen else map[])
      && s.started == startedAt && s.status == executor.outside.status && s.now <= clock.Time()
    }

    /** Where the objects are before any event this controller takes part in. */
    ghost function Beginning(): State
      reads this, clock, executor.outside, ServerSet()
    {
      State(if server != null then server.want else map[], if server != null then server.seen else map[],
            startedAt, executor.outside.status, clock.Time(), Idle)
    }

    /** The deployment's history, a run, has led to where the objects are now. */
    ghost predicate At(r: Run)
      reads this, clock, executor.outside, ServerSet()
    {
      IsRun(ThePlant(), r) && Represents(Last(r))
    }

    /** Starts the startup grace, between two ticks. */
    method StartClock(ghost r: Run) returns (ghost q: Run)
      requires clock.Valid() && (server != null ==> server.clock == clock)
      requires At(r) && Last(r).phase.Idle?
      modifies this`startedAt, clock
      ensures startedAt == Some(old(clock.Time()))
      ensures At(q) && Continues(r, q, [Start(old(clock.Time()))]) && Last(q).phase.Idle?
      ensures forall from: nat :: old(Counts(r, from)) ==> Counts(q, from)
    {
      ghost var e := Start(clock.Time());
      var t := clock.Now();
      startedAt := Some(t);
      q := Grown(ThePlant(), r, e);
      GrownIsRun(ThePlant(), r, e);
      QuietStretchesCount(ThePlant(), r, q, [e], executor.TheSite());
    }

    // ---- reading the world ----

    ghost function Reading(ups: string, a: Answer): Telemetry {
      if ups !in polled || a.vars.None? then NO_READING else TelemetryOf(atoi, a.vars.value)
    }

    ghost function Readings(fetch: string -> Answer): map<string, Telemetry> {
      map u | u in upsConfigs :: Reading(u, fetch(u))
    }

    function Probes(probe: string -> ActualState): map<string, ActualState> {
      map l | l in loads :: probe(l)
    }

    function Readable(readable: string -> bool): set<string> {
      set l | l in loads && readable(l)
    }

    /** One fetch: an unknown UPS or a failed fetch is telemetry with ok false, and the poll of a
        known one is recorded either way. */
    method Poll(ups: string, a: Answer) returns (t: Telemetry)
      requires metrics.MatchesHistory()
      modifies metrics`upsReachable, metrics`upsPollFails, metrics`upsLastSuccess, metrics`upsStatus
      modifies metrics`telemetry, metrics`polls
      ensures metrics.MatchesHistory()
      ensures metrics.polls == old(metrics.polls) + if ups in polled then [PollOf(ups, a)] else []
      ensures ups in polled && a.vars.Some? ==> PollOf(ups, a) == Metrics.Poll(ups, true, a.vars.value, a.stamp)
      ensures ups in polled && a.vars.None? ==> PollOf(ups, a) == Metrics.Poll(ups, false, map[], a.stamp)
      ensures t == Reading(ups, a)
      ensures ups !in polled || a.vars.None? ==> !t.ok
      ensures ups in polled && a.vars.Some? ==> t == TelemetryOf(atoi, a.vars.value)
      ensures t.ok <==> ups in polled && a.vars.Some? && "ups.status" in a.vars.value
    {
      if ups !in polled { return NO_READING; }
      if a.vars.None? {
        metrics.RecordPoll(ups, false, map[], a.stamp);
        return NO_READING;
      }
      metrics.RecordPoll(ups, true, a.vars.value, a.stamp);
      t := TelemetryFromVars(atoi, a.vars.value);
    }

    /** The signal reader: a load without a dummy-ups, or a failed read, is Unknown. */
    method ReadShed(load: string, readable: bool) returns (s: ShedState)
      ensures s == if readable then Position(executor.wiring, executor.outside.status, load) else ShedUnknown
      ensures var ups := executor.wiring.shedUps;
              readable && ups.Some? && load in ups.value && ups.value[load] in executor.outside.status ==>
                (s == ShedAsserted <==> HasField(executor.outside.status[ups.value[load]], "FSD"))
                && (s == ShedReleased
                    <==> HasField(executor.outside.status[ups.value[load]], "OL")
                         && !HasField(executor.outside.status[ups.value[load]], "FSD"))
      ensures !readable || executor.wiring.shedUps.None? || load !in executor.wiring.shedUps.value ==> s == ShedUnknown
    {
      WrittenSignalsReadBack();
      if executor.wiring.shedUps.None? || load !in executor.wiring.shedUps.value { return ShedUnknown; }
      if !readable { return ShedUnknown; }
      s := ParseShedStatus(Get(executor.outside.status, executor.wiring.shedUps.value[load], ""));
    }

    method PollAll(fetch: string -> Answer) returns (tel: map<string, Telemetry>)
      requires Covers(upsNames, upsConfigs.Keys) && metrics.MatchesHistory()
      modifies metrics`upsReachable, metrics`upsPollFails, metrics`upsLastSuccess, metrics`upsStatus
      modifies metrics`telemetry, metrics`polls
      ensures metrics.MatchesHistory()
      ensures metrics.polls == old(metrics.polls) + PollsOf(polled, fetch, upsNames)
      ensures tel == Readings(fetch)
    {
      tel := map[];
      for k := 0 to |upsNames|
        invariant metrics.MatchesHistory()
        invariant metrics.polls == old(metrics.polls) + PollsOf(polled, fetch, upsNames[..k])
        invariant forall u :: u in tel <==> u in upsNames[..k]
        invariant forall u :: u in tel ==> tel[u] == Reading(u, fetch(u))
      {
        var u := upsNames[k];
        assert upsNames[..k + 1] == upsNames[..k] + [u] && upsNames[..k + 1][..k] == upsNames[..k];
        var t := Poll(u, fetch(u));
        tel := tel[u := t];
      }
      assert upsNames[..|upsNames|] == upsNames;
    }

    method ProbeAll(probe: string -> ActualState, readable: string -> bool)
      returns (actual: map<string, ActualState>, shed: map<string, ShedState>)
      requires Covers(loadNames, loads.Keys)
      ensures actual == Probes(probe)
      ensures shed == ReadSignals(ThePlant(), executor.outside.status, Readable(readable))
    {
      actual, shed := map[], map[];
      ghost var truth := ReadSignals(ThePlant(), executor.outside.status, Readable(readable));
      for k := 0 to |loadNames|
        invariant forall l :: l in actual <==> l in loadNames[..k]
        invariant forall l :: l in actual ==> actual[l] == probe(l)
        invariant forall l :: l in shed <==> l in loadNames[..k] && l in truth
        invariant forall l :: l in shed ==> shed[l] == truth[l]
      {
        var l := loadNames[k];
        assert l in loadNames && loadNames[..k + 1] == loadNames[..k] + [l];
        actual := actual[l := probe(l)];
        if readsSignals && loads[l].loadType == NutServer {
          var s := ReadShed(l, readable(l));
          assert l in truth && s == truth[l];
          shed := shed[l := s];
        }
      }
      assert loadNames[..|loadNames|] == loadNames;
      assert shed == truth;
    }

    // ---- metrics ----

    function TheLoadGauges(): LoadGauges
      reads metrics`loadDesired, metrics`loadRequested, metrics`loadActual, metrics`loadShed
    {
      LoadGauges(metrics.loadDesired, metrics.loadRequested, metrics.loadActual, metrics.loadShed)
    }

    /** What record publishes is what Decide goes by. */
    ghost predicate Recorded(i: Inputs)
      reads metrics`upsSource, metrics`loadDesired, metrics`loadRequested, metrics`loadActual, metrics`loadShed
    {
      SourcesShown(i, metrics.upsSource) && LoadsShown(i, TheLoadGauges())
    }

    /** Whatever leaves the enum gauges alone leaves what they show standing. */
    twostate lemma RecordStands(i: Inputs)
      requires old(metrics.OneHotEverywhere()) && old(Recorded(i))
      requires unchanged(metrics`upsSource, metrics`loadDesired, metrics`loadRequested, metrics`loadActual,
                         metrics`loadShed)
      ensures metrics.OneHotEverywhere() && Recorded(i)
    {
      metrics.OneHotStands();
    }

    method RecordSources(i: Inputs) returns (src: map<string, SourceState>)
      requires Covers(upsNames, upsConfigs.Keys) && metrics.OneHotEverywhere() && i.upsCfgs == upsConfigs
      modifies metrics`upsSource
      ensures metrics.OneHotEverywhere()
      ensures IsTable(i, src) && SourcesShown(i, metrics.upsSource)
    {
      src := map[];
      ghost var before := metrics.upsSource;
      for k := 0 to |upsNames|
        invariant metrics.OneHotEverywhere()
        invariant src == TableOver(i, upsNames[..k])
        invariant metrics.upsSource == SourcesOver(i, upsNames[..k], before)
      {
        var u := upsNames[k];
        assert u in upsNames && upsNames[..k + 1][..k] == upsNames[..k];
        var s := RecordOneSource(i, u);
        src := src[u := s];
      }
      assert upsNames[..|upsNames|] == upsNames;
      AllSourcesAreShown(i, upsNames, before);
    }

    method RecordOneSource(i: Inputs, u: string) returns (s: SourceState)
      requires metrics.OneHotEverywhere() && i.upsCfgs == upsConfigs && u in upsConfigs
      modifies metrics`upsSource
      ensures metrics.OneHotEverywhere()
      ensures s == SourceOf(i, u)
      ensures metrics.upsSource == old(metrics.upsSource)[u := SourceGroup(i, u)]
    {
      s := Classify(upsConfigs[u], Get(i.tel, u, NO_READING));
      metrics.RecordSource(u, s);
    }

    method RecordLoads(i: Inputs, src: map<string, SourceState>)
      requires Covers(loadNames, loads.Keys) && metrics.OneHotEverywhere() && i.loads == loads
      requires IsTable(i, src)
      modifies metrics`loadDesired, metrics`loadRequested, metrics`loadActual, metrics`loadShed
      ensures metrics.OneHotEverywhere()
      ensures LoadsShown(i, TheLoadGauges())
    {
      ghost var before := TheLoadGauges();
      for k := 0 to |loadNames|
        invariant metrics.OneHotEverywhere()
        invariant TheLoadGauges() == LoadsOver(i, loadNames[..k], before)
      {
        assert loadNames[k] in loadNames && loadNames[..k + 1][..k] == loadNames[..k];
        RecordOne(i, src, loadNames[k]);
      }
      assert loadNames[..|loadNames|] == loadNames;
      AllLoadsAreShown(i, loadNames, before);
    }

    method RecordOne(i: Inputs, src: map<string, SourceState>, l: string)
      requires metrics.OneHotEverywhere() && i.loads == loads && l in loads
      requires IsTable(i, src)
      modifies metrics`loadDesired, metrics`loadRequested, metrics`loadActual, metrics`loadShed
      ensures metrics.OneHotEverywhere()
      ensures TheLoadGauges() == WithLoad(i, l, old(TheLoadGauges()))
    {
      var d := DesiredNow(i, src, l);
      metrics.RecordLoad(l, d, Get(i.ext, l, NoRequest), Get(i.actual, l, ActualUnknown), Get(i.shed, l, ShedUnknown),
                         loads[l].loadType == NutServer);
    }

    /** Publishes the interpretation of these inputs. */
    method Record(i: Inputs)
      requires Covers(upsNames, upsConfigs.Keys) && Covers(loadNames, loads.Keys)
      requires metrics.MatchesHistory() && metrics.OneHotEverywhere()
      requires i.upsCfgs == upsConfigs && i.loads == loads
      modifies metrics`upsSource, metrics`loadDesired, metrics`loadRequested, metrics`loadActual, metrics`loadShed
      ensures metrics.MatchesHistory() && metrics.OneHotEverywhere() && Recorded(i)
    {
      var src := RecordSources(i);
      RecordLoads(i, src);
      metrics.HistoryStands();
    }

    // ---- the tick ----

    /** Filters the decided list while the grace lasts; `first` and `check` are the clock
        readings it went by. */
    method HoldStartupWakes(actions: array<Action>) returns (kept: nat, ghost first: int, ghost check: int)
      requires clock.Valid()
      modifies this`startedAt, clock, metrics`graceActive, actions
      ensures kept <= actions.Length
      ensures old(clock.Time()) <= first <= check <= clock.Time()
      ensures startedAt == if grace > 0 then Some(StartedAt(old(startedAt), first)) else old(startedAt)
      ensures actions[..kept] == if Holding(grace, old(startedAt), first, check)
                                 then WithoutPowerOn(old(actions[..])) else old(actions[..])
      ensures grace > 0 ==> metrics.graceActive == B2F(Holding(grace, old(startedAt), first, check))
      ensures forall a :: a in actions[..kept]
                <==> a in old(actions[..])
                     && !((a.kind == WakeServer || a.kind == ChassisPowerUp)
                          && grace > 0
                          && check - (if old(startedAt).Some? then old(startedAt).value else first) < grace)
      ensures grace > 0 ==>
                startedAt == Some(if old(startedAt).Some? then old(startedAt).value else first)
                && metrics.graceActive == if check - startedAt.value < grace then 1.0 else 0.0
    {
      ghost var was := actions[..];
      forall a ensures a in WithoutPowerOn(was) <==> a in was && a.kind != WakeServer && a.kind != ChassisPowerUp {
        FilterKeeps(was, a);
      }
      first, check, kept := clock.Time(), clock.Time(), actions.Length;
      if grace <= 0 { return; }
      if startedAt.None? {
        var t := clock.Now();
        startedAt := Some(t);
      }
      var now := clock.Now();
      check := now;
      if now - startedAt.value >= grace {
        metrics.RecordStartupGrace(false);
        return;
      }
      metrics.RecordStartupGrace(true);
      kept := DropPowerOns(actions);
    }

    /** The first part of a tick: everything is read, and the probes are published. */
    method ObserveAll(fetch: string -> Answer, probe: string -> ActualState, readable: string -> bool,
                      ghost r: Run)
      returns (tel: map<string, Telemetry>, actual: map<string, ActualState>, shed: map<string, ShedState>,
               ghost e: Event, ghost q: Run)
      requires Valid() && At(r) && Last(r).phase.Idle?
      modifies metrics`upsReachable, metrics`upsPollFails, metrics`upsLastSuccess, metrics`upsStatus
      modifies metrics`telemetry, metrics`polls
      modifies clock, ServerSet()
      ensures metrics.MatchesHistory() && metrics.polls == old(metrics.polls) + PollsOf(polled, fetch, upsNames)
      ensures e.Observe? && e.tel == tel == Readings(fetch) && e.actual == actual == Probes(probe)
              && e.readable == Readable(readable)
      ensures At(q) && Continues(r, q, [e]) && Last(q).phase == Observed(tel, actual, shed)
    {
      tel := PollAll(fetch);
      actual, shed := ProbeAll(probe, readable);
      e := Observe(tel, actual, Readable(readable), clock.Time());
      if server != null {
        var now := clock.Now();
        e := Observe(tel, actual, Readable(readable), now);
        server.PublishActual(actual, now);
      }
      q := Grown(ThePlant(), r, e);
      GrownIsRun(ThePlant(), r, e);
    }

    /** The second part: the request snapshot. */
    method Requested(ghost r: Run) returns (ext: map<string, Request>, ghost e: Event, ghost q: Run)
      requires clock.Valid() && (server != null ==> server.clock == clock)
      requires At(r) && Last(r).phase.Observed?
      modifies ServerSet(), clock
      ensures e.Snapshot? && At(q) && Continues(r, q, [e])
      ensures var ph := Last(r).phase;
              Last(q).phase == Ready(Inputs(upsConfigs, ph.tel, loads, ph.actual, ph.shed, ext))
    {
      if server == null {
        ext := map[];
        e := Snapshot(map[], clock.Time());
        assert Surviving(Last(r).want, 0, map[], clock.Time()) == map[];
      } else {
        ghost var when, end;
        ext, when, end := server.Desired();
        e := Snapshot(when, end);
      }
      q := Grown(ThePlant(), r, e);
      GrownIsRun(ThePlant(), r, e);
    }

    /** What is decided on these inputs, less the power-on actions the grace holds back. */
    method DecideAndHold(i: Inputs) returns (todo: seq<Action>, ghost first: int, ghost check: int)
      requires clock.Valid()
      modifies this`startedAt, clock, metrics`graceActive
      ensures old(clock.Time()) <= first <= check <= clock.Time()
      ensures startedAt == if grace > 0 then Some(StartedAt(old(startedAt), first)) else old(startedAt)
      ensures todo == if Holding(grace, old(startedAt), first, check) then WithoutPowerOn(Decisions(i))
              else Decisions(i)
      ensures grace > 0 ==> metrics.graceActive == B2F(Holding(grace, old(startedAt), first, check))
      ensures forall a :: a in todo
                <==> a in Decisions(i)
                     && !((a.kind == WakeServer || a.kind == ChassisPowerUp)
                          && grace > 0
                          && check - (if old(startedAt).Some? then old(startedAt).value else first) < grace)
    {
      var decided := Decide(i);
      var actions := new Action[|decided|](k requires 0 <= k < |decided| => decided[k]);
      assert actions[..] == decided;
      var kept;
      kept, first, check := HoldStartupWakes(actions);
      todo := actions[..kept];
    }

    /** The last part: decide on the inputs, hold early power-ons back, apply the rest. */
    method Reconcile(i: Inputs, ghost r: Run) returns (ghost e: Event, ghost q: Run)
      requires clock.Valid() && executor.metrics == metrics && metrics.MatchesHistory()
      requires At(r) && Last(r).phase == Ready(i)
      modifies this`startedAt, clock, executor.outside, metrics`graceActive, metrics`actions, metrics`actionFails
      ensures metrics.MatchesHistory()
      ensures e.Act? && At(q) && Continues(r, q, [e])
      ensures WorkedOff(old(executor.TheSite()), q, |r.events|)
    {
      ghost var site := executor.TheSite();
      var todo;
      ghost var first, check;
      todo, first, check := DecideAndHold(i);
      e, q := ActContinues(ThePlant(), executor.outside.accepts, r, site, todo, first, check);
      executor.Apply(todo);
      metrics.HistoryStands();
    }

    /** The executor went from `before` through exactly the actions the run applied at event k,
        those that failed are the event's failures, and the grace gauge shows whether power-on
        actions were held back. */
    ghost predicate WorkedOff(before: Site, r: Run, k: nat)
      reads executor.outside, executor.metrics`actions, executor.metrics`actionFails, metrics`graceActive
    {
      IsRun(ThePlant(), r) && ActsAt(r, k)
      && WorksOff(ThePlant(), executor.outside.accepts, before, executor.TheSite(), r, k)
      && (grace > 0 ==>
            metrics.graceActive == B2F(Holding(grace, r.states[k].started, r.events[k].first, r.events[k].check)))
    }

    /** The action counters are those of the run since event `from`. */
    ghost predicate Counts(r: Run, from: nat)
      reads executor.outside, executor.metrics`actions, executor.metrics`actionFails
    {
      CountsAre(ThePlant(), r, from, executor.TheSite())
    }

    /** Publishes the interpretation and acts on the very same inputs. */
    method RecordAndReconcile(i: Inputs, ghost r: Run) returns (ghost e: Event, ghost q: Run)
      requires Valid() && At(r) && Last(r).phase == Ready(i) && i.upsCfgs == upsConfigs && i.loads == loads
      modifies this`startedAt, clock, executor.outside
      modifies metrics`upsSource, metrics`loadDesired, metrics`loadRequested, metrics`loadActual, metrics`loadShed
      modifies metrics`graceActive, metrics`actions, metrics`actionFails
      ensures metrics.MatchesHistory() && metrics.OneHotEverywhere() && Recorded(i)
      ensures e.Act? && At(q) && Continues(r, q, [e])
      ensures WorkedOff(old(executor.TheSite()), q, |r.events|)
    {
      Record(i);
      label recorded:
      e, q := Reconcile(i, r);
      RecordStands@recorded(i);
    }

    /** The reading half of a tick: an Observe of this world and a Snapshot. */
    method Gather(fetch: string -> Answer, probe: string -> ActualState, readable: string -> bool, ghost r: Run)
      returns (i: Inputs, ghost observe: Event, ghost snapshot: Event, ghost q: Run)
      requires Valid() && At(r) && Last(r).phase.Idle?
      modifies metrics`upsReachable, metrics`upsPollFails, metrics`upsLastSuccess, metrics`upsStatus
      modifies metrics`telemetry, metrics`polls
      modifies clock, ServerSet()
      ensures Valid() && At(q) && Last(q).phase == Ready(i) && i.upsCfgs == upsConfigs && i.loads == loads
      ensures metrics.polls == old(metrics.polls) + PollsOf(polled, fetch, upsNames)
      ensures observe.Observe? && observe.tel == Readings(fetch) && observe.actual == Probes(probe)
              && observe.readable == Readable(readable)
      ensures snapshot.Snapshot? && Continues(r, q, [observe, snapshot])
      ensures executor.TheSite() == old(executor.TheSite())
    {
      var tel, actual, shed;
      ghost var r1;
      tel, actual, shed, observe, r1 := ObserveAll(fetch, probe, readable, r);
      metrics.OneHotStands();
      label observed:
      var ext;
      ext, snapshot, q := Requested(r1);
      metrics.HistoryStands@observed();
      metrics.OneHotStands@observed();
      i := Inputs(upsConfigs, tel, loads, actual, shed, ext);
      ContinuesFurther(r, r1, q, [observe], snapshot);
      assert [observe] + [snapshot] == [observe, snapshot];
    }

    /** What the fetches and the probes come to: a reading is ok exactly when the poller knows the
        UPS, the fetch got through and it told the status. */
    lemma ReadingsMean(fetch: string -> Answer, probe: string -> ActualState)
      ensures forall u :: u in upsConfigs ==>
                u in Readings(fetch)
                && (Readings(fetch)[u].ok
                    <==> u in polled && fetch(u).vars.Some? && "ups.status" in fetch(u).vars.value)
      ensures forall u :: u in Readings(fetch) ==> u in upsConfigs
      ensures forall l :: l in loads ==> l in Probes(probe) && Probes(probe)[l] == probe(l)
    {
    }

    /** A UPS whose fetch failed is unknown to the tick and not critical, and the tick neither powers
        on nor releases a load it governs. */
    lemma FailedFetchHolds(fetch: string -> Answer, probe: string -> ActualState, q: Run, k: nat, u: string, l: string)
      requires IsRun(ThePlant(), q) && ActsAt(q, k + 2) && q.events[k].Observe? && q.events[k + 1].Snapshot?
      requires q.events[k].tel == Readings(fetch) && l in loads && u in loads[l].governedBy
      requires u !in polled || fetch(u).vars.None?
      ensures SourceOf(InputsAt(ThePlant(), q, k + 2), u) == SourceUnknown
      ensures !CriticalUps(InputsAt(ThePlant(), q, k + 2), u)
      ensures forall a :: a in AppliedAt(ThePlant(), q, k + 2) && a.load == l ==>
                a.kind != WakeServer && a.kind != ChassisPowerUp && a.kind != ReleaseServerShed
    {
      ReadingsMean(fetch, probe);
      TickReads(ThePlant(), q, k);
      FailedReadingHolds(ThePlant(), q, k + 2, l, u);
    }

    /** The tick whose readings are event k went by these fetches and probes: its readings are ok
        exactly when the poller knows the UPS, the fetch got through and it told the status, and no
        load with a failed fetch among its governing UPSes was powered on or released. */
    ghost predicate Heeded(fetch: string -> Answer, probe: string -> ActualState, q: Run, k: nat)
      requires IsRun(ThePlant(), q) && ActsAt(q, k + 2) && q.events[k].Observe?
    {
      (forall u :: u in upsConfigs ==>
         u in q.events[k].tel
         && (q.events[k].tel[u].ok <==> u in polled && fetch(u).vars.Some? && "ups.status" in fetch(u).vars.value))
      && (forall l :: l in loads ==> l in q.events[k].actual && q.events[k].actual[l] == probe(l))
      && forall l, u, a :: l in loads && u in loads[l].governedBy && (u !in polled || fetch(u).vars.None?)
                           && a in AppliedAt(ThePlant(), q, k + 2) && a.load == l ==>
           a.kind != WakeServer && a.kind != ChassisPowerUp && a.kind != ReleaseServerShed
    }

    lemma FetchesAreHeeded(fetch: string -> Answer, probe: string -> ActualState, q: Run, k: nat)
      requires IsRun(ThePlant(), q) && ActsAt(q, k + 2) && q.events[k].Observe? && q.events[k + 1].Snapshot?
      requires q.events[k].tel == Readings(fetch) && q.events[k].actual == Probes(probe)
      ensures Heeded(fetch, probe, q, k)
    {
      ReadingsMean(fetch, probe);
      forall l, u | l in loads && u in loads[l].governedBy && (u !in polled || fetch(u).vars.None?)
        ensures forall a :: a in AppliedAt(ThePlant(), q, k + 2) && a.load == l ==>
                  a.kind != WakeServer && a.kind != ChassisPowerUp && a.kind != ReleaseServerShed
      {
        FailedFetchHolds(fetch, probe, q, k, u, l);
      }
    }

    /** One tick continues the deployment's run by one Observe of this world, one Snapshot and
        one Act, all legal; the executor applied what that Act applies, the states published in the
        metrics are the verdicts it acted on, and the action counters stay those of the run. */
    method Tick(fetch: string -> Answer, probe: string -> ActualState, readable: string -> bool, ghost r: Run)
      returns (ghost observe: Event, ghost snapshot: Event, ghost act: Event, ghost q: Run)
      requires Valid() && At(r) && Last(r).phase.Idle?
      modifies this`startedAt, clock, ServerSet(), executor.outside, metrics
      ensures Valid() && At(q) && Last(q).phase.Idle?
      ensures metrics.polls == old(metrics.polls) + PollsOf(polled, fetch, upsNames)
      ensures observe.Observe? && observe.tel == Readings(fetch) && observe.actual == Probes(probe)
              && observe.readable == Readable(readable)
      ensures snapshot.Snapshot? && act.Act? && Continues(r, q, [observe, snapshot, act])
      ensures WorkedOff(old(executor.TheSite()), q, |r.events| + 2)
      ensures Recorded(InputsAt(ThePlant(), q, |r.events| + 2))
      ensures forall from: nat :: old(Counts(r, from)) ==> Counts(q, from)
      ensures q.events[|r.events|] == observe && Heeded(fetch, probe, q, |r.events|)
    {
      ghost var before := executor.TheSite();
      var i;
      ghost var r2;
      i, observe, snapshot, r2 := Gather(fetch, probe, readable, r);
      act, q := RecordAndReconcile(i, r2);
      TickContinues(ThePlant(), executor.outside.accepts, r, r2, q, observe, snapshot, act, before);
      FetchesAreHeeded(fetch, probe, q, |r.events|);
    }

    /** A call of the power endpoint continues the run by a Put when it is accepted, and changes
        nothing otherwise; it may land between any two parts of a tick. */
    method ServePower(load: string, desired: string, ghost r: Run) returns (reply: PowerReply, ghost q: Run)
      requires clock.Valid() && server != null && server.clock == clock && At(r)
      modifies ServerSet(), clock
      ensures reply == NoContent ==>
                desired in REQUEST_BY_NAME && At(q)
                && exists at :: Continues(r, q, [Put(load, REQUEST_BY_NAME[desired], at)])
      ensures reply != NoContent ==> At(r) && q == r
      ensures Last(q).phase == Last(r).phase
      ensures forall from: nat :: old(Counts(r, from)) ==> Counts(q, from)
    {
      ghost var at := clock.Time();
      reply := server.HandlePower(load, desired);
      q := r;
      if reply == NoContent {
        ghost var e := Put(load, REQUEST_BY_NAME[desired], at);
        q := Grown(ThePlant(), r, e);
        GrownIsRun(ThePlant(), r, e);
        assert Continues(r, q, [e]);
        QuietStretchesCount(ThePlant(), r, q, [e], executor.TheSite());
      }
    }

    /** A call of the state endpoint for a known load continues the run by a Query and serves the
        sighting the run has come to, aged by the clock; it too may land anywhere. */
    method ServeState(load: string, ghost r: Run) returns (reply: StateReply, ghost e: Event, ghost q: Run)
      requires clock.Valid() && server != null && server.clock == clock && At(r)
      modifies clock
      ensures reply == NoSuchLoad <==> load !in ThePlant().allow
      ensures reply == NoSuchLoad ==> At(r) && q == r
      ensures reply != NoSuchLoad ==>
                e.Query? && e.load == load && At(q) && Continues(r, q, [e])
                && reply == Served(Last(r).seen, load, e.at)
      ensures Last(q).phase == Last(r).phase
      ensures forall from: nat :: old(Counts(r, from)) ==> Counts(q, from)
    {
      e := Query(load, clock.Time());
      reply := server.HandleState(load);
      q := r;
      if reply != NoSuchLoad {
        q := Grown(ThePlant(), r, e);
        GrownIsRun(ThePlant(), r, e);
        QuietStretchesCount(ThePlant(), r, q, [e], executor.TheSite());
      }
    }

    /** A fresh controller with a fresh server continues the deployment's run by a Restart,
        wherever in a tick the one before it went down. */
    lemma TakesOver(r: Run)
      requires IsRun(ThePlant(), r) && Last(r).status == executor.outside.status && Last(r).now <= clock.Time()
      requires startedAt == None && (server != null ==> server.want == map[] && server.seen == map[])
      ensures At(Grown(ThePlant(), r, Restart(clock.Time())))
      ensures Continues(r, Grown(ThePlant(), r, Restart(clock.Time())), [Restart(clock.Time())])
    {
      GrownIsRun(ThePlant(), r, Restart(clock.Time()));
    }
  }
}
