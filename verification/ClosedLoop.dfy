/** The closed reconcile loop as a state machine: power requests, state reads, restarts and
    the three atomic parts of a tick may interleave in any order the code allows. */
module ClosedLoop {
  import opened Common
  import opened Control
  import opened ControlLaws
  import opened Effects
  import opened Ordering
  import opened PowerApi

  /** What is fixed for the life of a deployment. */
  datatype Plant = Plant(
    upsCfgs: map<string, UPSConfig>,
    loads: map<string, LoadConfig>,
    wiring: Wiring,
    readsSignals: bool,    // a ShedReader is wired
    api: bool,             // the power API is served
    allow: set<string>,    // loads its callers may control
    ttl: int,
    grace: int)

  /** How far the current tick has come. */
  datatype Phase =
    | Idle
    | Observed(tel: map<string, Telemetry>, actual: map<string, ActualState>, shed: map<string, ShedState>)
    | Ready(i: Inputs)

  datatype State = State(
    want: map<string, Entry>,
    seen: map<string, Sighting>,
    started: Option<int>,
    status: map<string, string>,    // ups.status per UPS name on the local upsd
    now: int,                       // no later clock reading is below this
    phase: Phase)

  datatype Event =
    /** an accepted power request */
    | Put(load: string, req: Request, at: int)
    /** a state read */
    | Query(load: string, at: int)
    /** a tick polls, probes, reads the signals of `readable` loads back, and publishes */
    | Observe(tel: map<string, Telemetry>, actual: map<string, ActualState>, readable: set<string>, at: int)
    /** the tick takes its request snapshot */
    | Snapshot(when: map<string, int>, end: int)
    /** the tick reads the grace clock, decides, filters and applies; `fails` do not get through */
    | Act(first: int, check: int, fails: set<Action>)
    /** a fresh controller and server take over */
    | Restart(at: int)
    /** the startup grace begins */
    | Start(at: int)

  // ---- the shed signal ----

  function SignalText(w: Wiring, status: map<string, string>, load: string): string {
    if w.shedUps.Some? && load in w.shedUps.value then Get(status, w.shedUps.value[load], "") else ""
  }

  ghost function Position(w: Wiring, status: map<string, string>, load: string): ShedState {
    SignalPosition(SignalText(w, status, load))
  }

  /** One read of every NUT server's signal: its position, or Unknown where the read fails. */
  ghost function ReadSignals(p: Plant, status: map<string, string>, readable: set<string>): map<string, ShedState> {
    map l | l in p.loads && p.readsSignals && p.loads[l].loadType == NutServer ::
      if l in readable then Position(p.wiring, status, l) else ShedUnknown
  }

  function Perform(w: Wiring, status: map<string, string>, a: Action, fails: set<Action>): map<string, string> {
    match DispatchOf(w, a)
    case Call(e) => if a in fails then status else Written(status, e)
    case _ => status
  }

  /** The served statuses once a list has been applied in order. */
  function PerformAll(w: Wiring, status: map<string, string>, acts: seq<Action>,
                      fails: set<Action>): map<string, string> {
    if acts == [] then status
    else Perform(w, PerformAll(w, status, acts[..|acts| - 1], fails), acts[|acts| - 1], fails)
  }

  // ---- the startup grace ----

  predicate IsPowerOn(k: ActionKind) {
    k == WakeServer || k == ChassisPowerUp
  }

  /** The list without its power-on actions, order kept. */
  function WithoutPowerOn(acts: seq<Action>): (r: seq<Action>)
    ensures |r| <= |acts|
  {
    if acts == [] then []
    else
      var n := |acts| - 1;
      WithoutPowerOn(acts[..n]) + (if IsPowerOn(acts[n].kind) then [] else [acts[n]])
  }

  function StartedAt(started: Option<int>, first: int): int {
    if started.None? then first else started.value
  }

  predicate Holding(grace: int, started: Option<int>, first: int, check: int) {
    grace > 0 && check - StartedAt(started, first) < grace
  }

  /** What reaches the executor at an Act. */
  ghost function Applied(p: Plant, s: State, e: Event): seq<Action>
    requires s.phase.Ready? && e.Act?
  {
    if Holding(p.grace, s.started, e.first, e.check) then WithoutPowerOn(Decisions(s.phase.i)) else Decisions(s.phase.i)
  }

  // ---- steps ----

  function Max(a: int, b: int): int {
    if a < b then b else a
  }

  ghost function After(p: Plant, s: State, e: Event): State {
    match e
    case Put(load, req, at) => s.(want := s.want[load := Entry(req, at)], now := at)
    case Query(_, at) => s.(now := at)
    case Observe(tel, actual, readable, at) =>
      State(s.want, if p.api then s.seen + Published(actual, at) else s.seen, s.started, s.status, Max(s.now, at),
            Observed(tel, actual, ReadSignals(p, s.status, readable)))
    case Snapshot(when, end) =>
      if !s.phase.Observed? then s else
        var want := Surviving(s.want, p.ttl, when, end);
        State(want, s.seen, s.started, s.status, end,
              Ready(Inputs(p.upsCfgs, s.phase.tel, p.loads, s.phase.actual, s.phase.shed, RequestsOf(want))))
    case Act(first, check, fails) =>
      if !s.phase.Ready? then s else
        State(s.want, s.seen, if p.grace > 0 then Some(StartedAt(s.started, first)) else s.started,
              PerformAll(p.wiring, s.status, Applied(p, s, e), fails), check, Idle)
    case Restart(at) => State(map[], map[], None, s.status, at, Idle)
    case Start(at) => s.(started := Some(at), now := at)
  }

  /** The interleavings the code allows: readings never go back, requests pass the allowlist
      and are never "none", and a tick's parts come in order. */
  ghost predicate Legal(p: Plant, s: State, e: Event) {
    match e
    case Put(load, req, at) => p.api && load in p.allow && req != NoRequest && s.now <= at
    case Query(_, at) => s.now <= at
    case Observe(_, _, _, _) => s.phase.Idle?
    case Snapshot(when, end) =>
      s.phase.Observed? && s.now <= end
      && (forall l :: l in when ==> s.now <= when[l] <= end)
      && when.Keys == if p.ttl > 0 then s.want.Keys else {}
    case Act(first, check, _) => s.phase.Ready? && s.now <= first <= check
    case Restart(at) => s.now <= at
    case Start(at) => s.phase.Idle? && s.now <= at
  }

  // ---- runs ----

  /** The states a deployment went through and the events between them. */
  datatype Run = Run(states: seq<State>, events: seq<Event>)

  ghost predicate StepAt(p: Plant, r: Run, k: nat)
    requires k < |r.events| && |r.states| == |r.events| + 1
  {
    Legal(p, r.states[k], r.events[k]) && r.states[k + 1] == After(p, r.states[k], r.events[k])
  }

  ghost predicate IsRun(p: Plant, r: Run) {
    |r.states| == |r.events| + 1 && r.states[0].phase.Idle?
    && forall k :: 0 <= k < |r.events| ==> StepAt(p, r, k)
  }

  ghost function Last(r: Run): State
    requires r.states != []
  {
    r.states[|r.states| - 1]
  }

  /** The run with one more event. */
  ghost function Grown(p: Plant, r: Run, e: Event): Run
    requires r.states != []
  {
    Run(r.states + [After(p, Last(r), e)], r.events + [e])
  }

  lemma GrownIsRun(p: Plant, r: Run, e: Event)
    requires IsRun(p, r) && Legal(p, Last(r), e)
    ensures IsRun(p, Grown(p, r, e)) && Last(Grown(p, r, e)) == After(p, Last(r), e)
  {
    var q := Grown(p, r, e);
    forall k | 0 <= k < |q.events| ensures StepAt(p, q, k) {
      if k < |r.events| { assert StepAt(p, r, k); }
    }
  }

  /** `q` is `r` with further events `more` behind it. */
  ghost predicate Continues(r: Run, q: Run, more: seq<Event>) {
    q.events == r.events + more && r.states <= q.states
  }

  lemma ContinuesFurther(r: Run, r1: Run, q: Run, first: seq<Event>, e: Event)
    requires Continues(r, r1, first) && Continues(r1, q, [e]) && |r1.states| == |r1.events| + 1
            && |r.states| <= |r1.states|
    ensures Continues(r, q, first + [e])
    ensures |r1.events| == |r.events| + |first| && q.states[|r1.events|] == Last(r1)
  {
    assert r.events + (first + [e]) == (r.events + first) + [e];
  }

  lemma ContinuesOn(r: Run, r1: Run, q: Run, first: seq<Event>, more: seq<Event>)
    requires Continues(r, r1, first) && Continues(r1, q, more)
    ensures Continues(r, q, first + more)
  {
    assert r.events + (first + more) == (r.events + first) + more;
  }

  /** The k-th event of a run is an Act. */
  ghost predicate ActsAt(r: Run, k: nat) {
    k < |r.events| && r.events[k].Act?
  }

  ghost function InputsAt(p: Plant, r: Run, k: nat): Inputs
    requires IsRun(p, r) && ActsAt(r, k)
  {
    assert StepAt(p, r, k);
    r.states[k].phase.i
  }

  ghost function AppliedAt(p: Plant, r: Run, k: nat): seq<Action>
    requires IsRun(p, r) && ActsAt(r, k)
  {
    assert StepAt(p, r, k);
    Applied(p, r.states[k], r.events[k])
  }

  // ---- first facts ----

  /** The filter keeps exactly what is neither a wake nor a chassis power-up. */
  lemma {:induction false} FilterKeeps(acts: seq<Action>, a: Action)
    ensures a in WithoutPowerOn(acts) <==> a in acts && a.kind != WakeServer && a.kind != ChassisPowerUp
  {
    if acts != [] {
      var n := |acts| - 1;
      assert acts == acts[..n] + [acts[n]];
      FilterKeeps(acts[..n], a);
    }
  }

  /** And keeps it in order: what stands in front of something afterwards stood in front of it. */
  lemma {:induction false} FilterKeepsOrder(acts: seq<Action>, x: nat, y: nat) returns (i: nat, j: nat)
    requires x < y < |WithoutPowerOn(acts)|
    ensures i < j < |acts| && acts[i] == WithoutPowerOn(acts)[x] && acts[j] == WithoutPowerOn(acts)[y]
  {
    var n := |acts| - 1;
    var front := WithoutPowerOn(acts[..n]);
    if y < |front| {
      i, j := FilterKeepsOrder(acts[..n], x, y);
    } else {
      j := n;
      FilterKeeps(acts[..n], front[x]);
      i :| 0 <= i < n && acts[..n][i] == front[x];
    }
  }

  lemma {:induction false} FilterKeepsDistinct(acts: seq<Action>)
    requires Distinct(acts)
    ensures Distinct(WithoutPowerOn(acts))
  {
    if acts != [] {
      var n := |acts| - 1;
      FilterKeepsDistinct(acts[..n]);
      FilterKeeps(acts[..n], acts[n]);
      assert acts[n] !in acts[..n];
    }
  }

  /** What a tick applies: everything decided, except that wakes and chassis power-ups are held
      back while a positive grace has not passed since the clock was started. */
  lemma AppliedActions(p: Plant, s: State, e: Event, a: Action)
    requires s.phase.Ready? && e.Act?
    ensures a in Applied(p, s, e)
            <==> a in Decisions(s.phase.i)
                 && !((a.kind == WakeServer || a.kind == ChassisPowerUp)
                      && p.grace > 0
                      && e.check - (if s.started.Some? then s.started.value else e.first) < p.grace)
    ensures Distinct(Applied(p, s, e))
  {
    DecisionsAreOrdered(s.phase.i);
    FilterKeeps(Decisions(s.phase.i), a);
    FilterKeepsDistinct(Decisions(s.phase.i));
  }

  /** What a tick has read of the signals is still true when it acts. */
  ghost predicate SeenTruly(p: Plant, status: map<string, string>, shed: map<string, ShedState>) {
    forall l :: l in p.loads && Get(shed, l, ShedUnknown) != ShedUnknown ==>
      Get(shed, l, ShedUnknown) == Position(p.wiring, status, l)
  }

  ghost predicate Coherent(p: Plant, s: State) {
    match s.phase
    case Idle => true
    case Observed(_, _, shed) => SeenTruly(p, s.status, shed)
    case Ready(i) => i.upsCfgs == p.upsCfgs && i.loads == p.loads && SeenTruly(p, s.status, i.shed)
  }

  lemma StepsKeepCoherence(p: Plant, t: State, e: Event)
    requires Legal(p, t, e) && Coherent(p, t)
    ensures Coherent(p, After(p, t, e))
  {
  }

  lemma {:induction false} AlwaysCoherent(p: Plant, r: Run, k: nat)
    requires IsRun(p, r) && k <= |r.events|
    ensures Coherent(p, r.states[k])
  {
    if k > 0 {
      AlwaysCoherent(p, r, k - 1);
      assert StepAt(p, r, k - 1);
      StepsKeepCoherence(p, r.states[k - 1], r.events[k - 1]);
    }
  }

  /** Between events s and k every read of this load's signal succeeds. */
  ghost predicate SoundReads(p: Plant, r: Run, s: nat, k: nat, load: string)
    requires k <= |r.events|
  {
    p.readsSignals && forall m :: s <= m < k && r.events[m].Observe? ==> load in r.events[m].readable
  }

  ghost function ShedSeen(s: State, load: string): ShedState
    requires !s.phase.Idle?
  {
    if s.phase.Ready? then Get(s.phase.i.shed, load, ShedUnknown) else Get(s.phase.shed, load, ShedUnknown)
  }

  ghost predicate SeesExactly(p: Plant, t: State, load: string) {
    !t.phase.Idle? ==> ShedSeen(t, load) == Position(p.wiring, t.status, load)
  }

  lemma StepsKeepExactSight(p: Plant, t: State, e: Event, load: string)
    requires Legal(p, t, e) && SeesExactly(p, t, load) && load in p.loads && p.loads[load].loadType == NutServer
    requires p.readsSignals && (e.Observe? ==> load in e.readable)
    ensures SeesExactly(p, After(p, t, e), load)
  {
  }

  /** From between two ticks on, sound reads see the signal as it is. */
  lemma {:induction false} SoundReadsSee(p: Plant, r: Run, s: nat, k: nat, load: string)
    requires IsRun(p, r) && s <= k <= |r.events| && SoundReads(p, r, s, k, load) && r.states[s].phase.Idle?
    requires load in p.loads && p.loads[load].loadType == NutServer
    ensures SeesExactly(p, r.states[k], load)
  {
    if s < k {
      SoundReadsSee(p, r, s, k - 1, load);
      assert StepAt(p, r, k - 1);
      StepsKeepExactSight(p, r.states[k - 1], r.events[k - 1], load);
    }
  }
}
