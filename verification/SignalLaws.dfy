/** The shed signal over whole runs: the latch the stateless controller implements, the
    emergency guarantee, wake ordering, the interlock, and the absence of flapping. */
module SignalLaws {
  import opened ClosedLoop
  import opened Common
  import opened Control
  import opened ControlLaws
  import opened Effects
  import opened Ordering

  function Assert(load: string): Action {
    Action(AssertServerShed, load)
  }

  function Release(load: string): Action {
    Action(ReleaseServerShed, load)
  }

  /** An armed deployment in which this NUT server has a dummy-ups of its own. */
  ghost predicate Wired(w: Wiring, load: string) {
    !w.dryRun && load in w.targets && w.shedUps.Some? && load in w.shedUps.value
    && forall other :: other in w.shedUps.value && w.shedUps.value[other] == w.shedUps.value[load] ==> other == load
  }

  ghost predicate Server(p: Plant, load: string) {
    load in p.loads && p.loads[load].loadType == NutServer && Wired(p.wiring, load)
  }

  ghost function VerdictAt(p: Plant, r: Run, k: nat, load: string): Desired
    requires IsRun(p, r) && ActsAt(r, k) && load in p.loads
  {
    AlwaysCoherent(p, r, k);
    assert StepAt(p, r, k);
    VerdictFor(InputsAt(p, r, k), load)
  }

  ghost function PositionAt(p: Plant, r: Run, k: nat, load: string): ShedState
    requires k < |r.states|
  {
    Position(p.wiring, r.states[k].status, load)
  }

  // ---- one list ----

  lemma OneWrite(w: Wiring, status: map<string, string>, a: Action, fails: set<Action>, load: string)
    requires Wired(w, load)
    ensures Position(w, Perform(w, status, a, fails), load)
            == if a in fails then Position(w, status, load)
               else if a == Assert(load) then ShedAsserted
               else if a == Release(load) then ShedReleased
               else Position(w, status, load)
  {
    WrittenSignalsReadBack();
  }

  /** A list moves a signal only through that server's own actions. */
  lemma {:induction false} ListWrites(w: Wiring, status: map<string, string>, acts: seq<Action>, fails: set<Action>,
                                      load: string)
    requires Wired(w, load)
    requires !(Assert(load) in acts && Release(load) in acts)
    ensures Position(w, PerformAll(w, status, acts, fails), load)
            == if Assert(load) in acts && Assert(load) !in fails then ShedAsserted
               else if Release(load) in acts && Release(load) !in fails then ShedReleased
               else Position(w, status, load)
  {
    if acts != [] {
      var n := |acts| - 1;
      assert acts == acts[..n] + [acts[n]];
      ListWrites(w, status, acts[..n], fails, load);
      OneWrite(w, PerformAll(w, status, acts[..n], fails), acts[n], fails, load);
    }
  }

  /** When a tick drives a signal. */
  lemma SignalActions(p: Plant, s: State, e: Event, load: string)
    requires e.Act? && s.phase.Ready? && s.phase.i.loads == p.loads && load in p.loads
            && p.loads[load].loadType == NutServer
    ensures Assert(load) in Applied(p, s, e)
            <==> VerdictFor(s.phase.i, load) == DesiredOff && ShedSeen(s, load) != ShedAsserted
    ensures Release(load) in Applied(p, s, e)
            <==> VerdictFor(s.phase.i, load) == DesiredOn && ShedSeen(s, load) != ShedReleased
  {
    AppliedActions(p, s, e, Assert(load));
    AppliedActions(p, s, e, Release(load));
    DecidedActions(s.phase.i, Assert(load));
    DecidedActions(s.phase.i, Release(load));
  }

  /** Where a tick leaves a signal. */
  lemma SignalStep(p: Plant, s: State, e: Event, load: string)
    requires e.Act? && s.phase.Ready? && s.phase.i.loads == p.loads && Server(p, load)
    ensures Position(p.wiring, After(p, s, e).status, load)
            == if Assert(load) in Applied(p, s, e) && Assert(load) !in e.fails then ShedAsserted
               else if Release(load) in Applied(p, s, e) && Release(load) !in e.fails then ShedReleased
               else Position(p.wiring, s.status, load)
  {
    SignalActions(p, s, e, load);
    ListWrites(p.wiring, s.status, Applied(p, s, e), e.fails, load);
  }

  /** Other events never move a signal. */
  lemma OnlyActsMoveSignals(p: Plant, s: State, e: Event)
    requires Legal(p, s, e) && !e.Act?
    ensures After(p, s, e).status == s.status
  {
  }

  // ---- the latch ----

  /** Where a verdict leaves a signal. */
  function Driven(d: Desired, before: ShedState): ShedState {
    match d case DesiredOff => ShedAsserted case DesiredOn => ShedReleased case DesiredHold => before
  }

  /** A set/reset latch driven by verdicts alone. */
  function Latch(start: ShedState, verdicts: seq<Desired>): ShedState {
    if verdicts == [] then start
    else Driven(verdicts[|verdicts| - 1], Latch(start, verdicts[..|verdicts| - 1]))
  }

  function LatchChanges(start: ShedState, verdicts: seq<Desired>): nat {
    if verdicts == [] then 0
    else
      var front := verdicts[..|verdicts| - 1];
      LatchChanges(start, front) + if Latch(start, verdicts) != Latch(start, front) then 1 else 0
  }

  /** A signal that every verdict drives is where the latch is, and a count that each move raises
      by one rises by the latch changes. */
  lemma {:induction false} DrivenIsLatched(positions: seq<ShedState>, counts: seq<int>, verdicts: seq<Desired>)
    requires |positions| == |counts| == |verdicts| + 1
    requires forall i :: 0 <= i < |verdicts| ==> positions[i + 1] == Driven(verdicts[i], positions[i])
    ensures positions[|verdicts|] == Latch(positions[0], verdicts)
    ensures (forall i :: 0 <= i < |verdicts| ==>
               counts[i + 1] == counts[i] + if positions[i + 1] != positions[i] then 1 else 0) ==>
              counts[|verdicts|] == counts[0] + LatchChanges(positions[0], verdicts)
  {
    if verdicts != [] {
      var n := |verdicts| - 1;
      DrivenIsLatched(positions[..n + 1], counts[..n + 1], verdicts[..n]);
      assert positions[n + 1] == Driven(verdicts[n], positions[n]);
    }
  }

  /** How often an action was applied during the first k events. */
  ghost function TimesApplied(p: Plant, r: Run, k: nat, a: Action): nat
    requires IsRun(p, r) && k <= |r.events|
  {
    if k == 0 then 0
    else TimesApplied(p, r, k - 1, a) + TimesIn(p, r, k - 1, a)
  }

  lemma {:induction false} DistinctCounts(acts: seq<Action>, a: Action)
    requires Distinct(acts)
    ensures multiset(acts)[a] == if a in acts then 1 else 0
  {
    if acts != [] {
      var n := |acts| - 1;
      assert acts == acts[..n] + [acts[n]];
      DistinctCounts(acts[..n], a);
    }
  }

  /** Neither write of this load's signal fails at event k. */
  ghost predicate WritesPass(r: Run, k: nat, load: string) {
    ActsAt(r, k) ==> Assert(load) !in r.events[k].fails && Release(load) !in r.events[k].fails
  }

  ghost predicate WritesSucceed(r: Run, s: nat, k: nat, load: string) {
    forall m :: s <= m < k ==> WritesPass(r, m, load)
  }

  ghost function TimesIn(p: Plant, r: Run, k: nat, a: Action): nat
    requires IsRun(p, r) && k < |r.events|
  {
    if ActsAt(r, k) then multiset(AppliedAt(p, r, k))[a] else 0
  }

  /** How often it failed. */
  ghost function TimesFailed(p: Plant, r: Run, k: nat, a: Action): nat
    requires IsRun(p, r) && k <= |r.events|
  {
    if k == 0 then 0
    else TimesFailed(p, r, k - 1, a) + FailedIn(p, r, k - 1, a)
  }

  ghost function FailedIn(p: Plant, r: Run, k: nat, a: Action): nat
    requires IsRun(p, r) && k < |r.events|
  {
    if ActsAt(r, k) && a in AppliedAt(p, r, k) && a in r.events[k].fails then 1 else 0
  }

  /** What happened by event k stays so however the run goes on. */
  lemma {:induction false} CountsAreSettled(p: Plant, r: Run, q: Run, more: seq<Event>, k: nat, a: Action)
    requires IsRun(p, r) && IsRun(p, q) && Continues(r, q, more) && k <= |r.events|
    ensures TimesApplied(p, q, k, a) == TimesApplied(p, r, k, a) && TimesFailed(p, q, k, a) == TimesFailed(p, r, k, a)
  {
    if k > 0 {
      CountsAreSettled(p, r, q, more, k - 1, a);
      assert q.events[k - 1] == r.events[k - 1] && q.states[k - 1] == r.states[k - 1];
    }
  }

  lemma QuietStep(p: Plant, r: Run, k: nat, load: string)
    requires IsRun(p, r) && k < |r.events| && !ActsAt(r, k)
    ensures PositionAt(p, r, k + 1, load) == PositionAt(p, r, k, load)
  {
    assert StepAt(p, r, k);
    OnlyActsMoveSignals(p, r.states[k], r.events[k]);
  }

  /** With a successful write, one Act moves the signal where its verdict says, whatever was
      read: a failed read leads to a write, and what was read is still true. */
  lemma DrivenStep(p: Plant, r: Run, k: nat, load: string)
    requires IsRun(p, r) && ActsAt(r, k) && Server(p, load) && WritesPass(r, k, load)
    ensures PositionAt(p, r, k + 1, load) == Driven(VerdictAt(p, r, k, load), PositionAt(p, r, k, load))
  {
    assert StepAt(p, r, k);
    var t, e := r.states[k], r.events[k];
    AlwaysCoherent(p, r, k);
    SignalActions(p, t, e, load);
    SignalStep(p, t, e, load);
    assert StepAt(p, r, k);
  }

  /** With a true reading besides, it takes one action exactly when that is a move. */
  lemma SoundStep(p: Plant, r: Run, k: nat, load: string)
    requires IsRun(p, r) && ActsAt(r, k) && Server(p, load) && WritesPass(r, k, load)
    requires SeesExactly(p, r.states[k], load)
    ensures VerdictAt(p, r, k, load) != DesiredOn ==> TimesIn(p, r, k, Release(load)) == 0
    ensures TimesIn(p, r, k, Assert(load)) + TimesIn(p, r, k, Release(load))
            == if PositionAt(p, r, k + 1, load) != PositionAt(p, r, k, load) then 1 else 0
  {
    assert StepAt(p, r, k);
    var t, e := r.states[k], r.events[k];
    AlwaysCoherent(p, r, k);
    DrivenStep(p, r, k, load);
    SignalActions(p, t, e, load);
    AppliedActions(p, t, e, Assert(load));
    DistinctCounts(Applied(p, t, e), Assert(load));
    DistinctCounts(Applied(p, t, e), Release(load));
    assert StepAt(p, r, k);
  }

  /** The verdict an event acts on, holding when it is no Act. */
  ghost function VerdictOf(p: Plant, r: Run, k: nat, load: string): Desired
    requires IsRun(p, r) && k < |r.events| && load in p.loads
  {
    if ActsAt(r, k) then VerdictAt(p, r, k, load) else DesiredHold
  }

  /** The verdicts of the events from s to k. */
  ghost function Verdicts(p: Plant, r: Run, s: nat, k: nat, load: string): seq<Desired>
    requires IsRun(p, r) && s <= k <= |r.events| && load in p.loads
  {
    seq(k - s, i requires 0 <= i < k - s => VerdictOf(p, r, s + i, load))
  }

  ghost function Positions(p: Plant, r: Run, s: nat, k: nat, load: string): seq<ShedState>
    requires IsRun(p, r) && s <= k <= |r.events|
  {
    seq(k - s + 1, i requires 0 <= i < k - s + 1 => PositionAt(p, r, s + i, load))
  }

  lemma OneEventIsDriven(p: Plant, r: Run, k: nat, load: string)
    requires IsRun(p, r) && k < |r.events| && Server(p, load) && WritesPass(r, k, load)
    ensures PositionAt(p, r, k + 1, load) == Driven(VerdictOf(p, r, k, load), PositionAt(p, r, k, load))
  {
    if ActsAt(r, k) {
      DrivenStep(p, r, k, load);
    } else {
      QuietStep(p, r, k, load);
    }
  }

  lemma StretchIsDriven(p: Plant, r: Run, s: nat, k: nat, load: string)
    requires IsRun(p, r) && s <= k <= |r.events| && Server(p, load) && WritesSucceed(r, s, k, load)
    ensures var positions, verdicts := Positions(p, r, s, k, load), Verdicts(p, r, s, k, load);
            forall i :: 0 <= i < |verdicts| ==> positions[i + 1] == Driven(verdicts[i], positions[i])
  {
    var positions, verdicts := Positions(p, r, s, k, load), Verdicts(p, r, s, k, load);
    forall i | 0 <= i < |verdicts| ensures positions[i + 1] == Driven(verdicts[i], positions[i]) {
      assert s + (i + 1) == (s + i) + 1;
      assert WritesPass(r, s + i, load);
      OneEventIsDriven(p, r, s + i, load);
    }
  }

  /** The stateless reconcile refines the latch: over any stretch of a run in which writes succeed
      the signal is where the latch is, grace or not, restarts or not, and whether or not the
      signal could be read. */
  lemma LatchRefinement(p: Plant, r: Run, s: nat, k: nat, load: string)
    requires IsRun(p, r) && s <= k <= |r.events| && Server(p, load) && WritesSucceed(r, s, k, load)
    ensures PositionAt(p, r, k, load) == Latch(PositionAt(p, r, s, load), Verdicts(p, r, s, k, load))
  {
    StretchIsDriven(p, r, s, k, load);
    DrivenIsLatched(Positions(p, r, s, k, load), seq(k - s + 1, i => 0), Verdicts(p, r, s, k, load));
  }

  /** How often the signal was driven by event k. */
  ghost function SignalActionsBy(p: Plant, r: Run, k: nat, load: string): nat
    requires IsRun(p, r) && k <= |r.events|
  {
    TimesApplied(p, r, k, Assert(load)) + TimesApplied(p, r, k, Release(load))
  }

  lemma OneEventDrives(p: Plant, r: Run, k: nat, load: string)
    requires IsRun(p, r) && k < |r.events| && Server(p, load) && WritesPass(r, k, load)
    requires SeesExactly(p, r.states[k], load)
    ensures SignalActionsBy(p, r, k + 1, load)
            == SignalActionsBy(p, r, k, load)
               + if PositionAt(p, r, k + 1, load) != PositionAt(p, r, k, load) then 1 else 0
  {
    if ActsAt(r, k) {
      SoundStep(p, r, k, load);
    } else {
      QuietStep(p, r, k, load);
    }
  }

  ghost function Drives(p: Plant, r: Run, s: nat, k: nat, load: string): seq<int>
    requires IsRun(p, r) && s <= k <= |r.events|
  {
    seq(k - s + 1, i requires 0 <= i < k - s + 1 => SignalActionsBy(p, r, s + i, load))
  }

  lemma StretchIsCounted(p: Plant, r: Run, s: nat, k: nat, load: string)
    requires IsRun(p, r) && s <= k <= |r.events| && Server(p, load) && WritesSucceed(r, s, k, load)
    requires r.states[s].phase.Idle? && SoundReads(p, r, s, k, load)
    ensures var positions, drives := Positions(p, r, s, k, load), Drives(p, r, s, k, load);
            forall i :: 0 <= i < k - s ==>
              drives[i + 1] == drives[i] + if positions[i + 1] != positions[i] then 1 else 0
  {
    var positions, drives := Positions(p, r, s, k, load), Drives(p, r, s, k, load);
    forall i | 0 <= i < k - s
      ensures drives[i + 1] == drives[i] + if positions[i + 1] != positions[i] then 1 else 0
    {
      assert s + (i + 1) == (s + i) + 1;
      SoundReadsSee(p, r, s, s + i, load);
      assert WritesPass(r, s + i, load);
      OneEventDrives(p, r, s + i, load);
    }
  }

  /** Over a stretch that begins between two ticks and whose reads are sound besides, the signal is
      driven exactly as often as the latch changes. */
  lemma ActionsAreLatchChanges(p: Plant, r: Run, s: nat, k: nat, load: string)
    requires IsRun(p, r) && s <= k <= |r.events| && Server(p, load) && WritesSucceed(r, s, k, load)
    requires r.states[s].phase.Idle? && SoundReads(p, r, s, k, load)
    ensures SignalActionsBy(p, r, k, load)
            == SignalActionsBy(p, r, s, load) + LatchChanges(PositionAt(p, r, s, load), Verdicts(p, r, s, k, load))
  {
    StretchIsDriven(p, r, s, k, load);
    StretchIsCounted(p, r, s, k, load);
    DrivenIsLatched(Positions(p, r, s, k, load), Drives(p, r, s, k, load), Verdicts(p, r, s, k, load));
  }

  // ---- emergencies ----

  ghost predicate CriticalAt(p: Plant, r: Run, k: nat, load: string)
    requires IsRun(p, r) && ActsAt(r, k) && load in p.loads
  {
    exists u :: u in p.loads[load].governedBy && CriticalUps(InputsAt(p, r, k), u)
  }

  /** After a tick with a critical governing UPS the signal is asserted unless that tick's
      write failed, whatever the requests, the TTL, the grace or the signal read said; and
      the write is attempted whenever the signal was not asserted yet. */
  lemma EmergencyGuarantee(p: Plant, r: Run, k: nat, load: string)
    requires IsRun(p, r) && ActsAt(r, k) && Server(p, load)
    requires CriticalAt(p, r, k, load)
    ensures PositionAt(p, r, k, load) != ShedAsserted ==> Assert(load) in AppliedAt(p, r, k)
    ensures PositionAt(p, r, k + 1, load) == ShedAsserted
            <==> PositionAt(p, r, k, load) == ShedAsserted || Assert(load) !in r.events[k].fails
  {
    assert StepAt(p, r, k);
    var t, e := r.states[k], r.events[k];
    AlwaysCoherent(p, r, k);
    Interlock(t.phase.i, load);
    assert StepAt(p, r, k);
    SignalActions(p, t, e, load);
    SignalStep(p, t, e, load);
    assert StepAt(p, r, k);
  }

  /** Some write of the shed signal got through between events j and k. */
  ghost predicate ShedGotThrough(r: Run, j: nat, k: nat, load: string) {
    exists m :: j <= m < k && WriteGotThrough(r, m, load)
  }

  ghost predicate WriteGotThrough(r: Run, m: nat, load: string) {
    ActsAt(r, m) && Assert(load) !in r.events[m].fails
  }

  /** A flag that each step can only set is set at the end exactly when it was or a step set it. */
  lemma {:induction false} SetOnceStaysSet(flag: nat -> bool, sets: nat -> bool, j: nat, k: nat)
    requires j <= k
    requires forall m :: j <= m < k ==> (flag(m + 1) <==> flag(m) || sets(m))
    ensures flag(k) <==> flag(j) || exists m :: j <= m < k && sets(m)
  {
    if j < k {
      SetOnceStaysSet(flag, sets, j, k - 1);
      assert flag((k - 1) + 1) <==> flag(k - 1) || sets(k - 1);
    }
  }

  /** Over a critical window the signal ends up asserted exactly when it was at the start or
      one write succeeded, and stays so. */
  lemma EmergencyWindow(p: Plant, r: Run, j: nat, k: nat, load: string)
    requires IsRun(p, r) && j <= k <= |r.events| && Server(p, load)
    requires forall m :: j <= m < k && ActsAt(r, m) ==> CriticalAt(p, r, m, load)
    ensures PositionAt(p, r, k, load) == ShedAsserted
            <==> PositionAt(p, r, j, load) == ShedAsserted || ShedGotThrough(r, j, k, load)
  {
    var asserted := (m: nat) => m < |r.states| && PositionAt(p, r, m, load) == ShedAsserted;
    var written := (m: nat) => WriteGotThrough(r, m, load);
    forall m | j <= m < k ensures asserted(m + 1) <==> asserted(m) || written(m) {
      if ActsAt(r, m) {
        EmergencyGuarantee(p, r, m, load);
      } else {
        QuietStep(p, r, m, load);
      }
    }
    SetOnceStaysSet(asserted, written, j, k);
    if ShedGotThrough(r, j, k, load) {
      var m :| j <= m < k && WriteGotThrough(r, m, load);
      assert written(m);
    }
  }

  // ---- recovery ----

  /** After a tick that wants the server on the signal is released unless that tick's write
      failed, whatever the grace and the signal read said; and the write is attempted whenever
      the signal was not released yet. */
  lemma RecoveryGuarantee(p: Plant, r: Run, k: nat, load: string)
    requires IsRun(p, r) && ActsAt(r, k) && Server(p, load)
    requires VerdictAt(p, r, k, load) == DesiredOn
    ensures PositionAt(p, r, k, load) != ShedReleased ==> Release(load) in AppliedAt(p, r, k)
    ensures PositionAt(p, r, k + 1, load) == ShedReleased
            <==> PositionAt(p, r, k, load) == ShedReleased || Release(load) !in r.events[k].fails
  {
    assert StepAt(p, r, k);
    var t, e := r.states[k], r.events[k];
    AlwaysCoherent(p, r, k);
    SignalActions(p, t, e, load);
    SignalStep(p, t, e, load);
    assert StepAt(p, r, k);
  }

  ghost predicate ReleaseGotThrough(r: Run, m: nat, load: string) {
    ActsAt(r, m) && Release(load) !in r.events[m].fails
  }

  /** Over a window of such ticks the signal ends up released exactly when it was at the start or
      one write succeeded, and stays so. */
  lemma RecoveryWindow(p: Plant, r: Run, j: nat, k: nat, load: string)
    requires IsRun(p, r) && j <= k <= |r.events| && Server(p, load)
    requires forall m :: j <= m < k && ActsAt(r, m) ==> VerdictAt(p, r, m, load) == DesiredOn
    ensures PositionAt(p, r, k, load) == ShedReleased
            <==> PositionAt(p, r, j, load) == ShedReleased || exists m :: j <= m < k && ReleaseGotThrough(r, m, load)
  {
    var released := (m: nat) => m < |r.states| && PositionAt(p, r, m, load) == ShedReleased;
    var written := (m: nat) => ReleaseGotThrough(r, m, load);
    forall m | j <= m < k ensures released(m + 1) <==> released(m) || written(m) {
      if ActsAt(r, m) {
        RecoveryGuarantee(p, r, m, load);
      } else {
        QuietStep(p, r, m, load);
      }
    }
    SetOnceStaysSet(released, written, j, k);
    if m: nat :| j <= m < k && ReleaseGotThrough(r, m, load) { assert written(m); }
  }

  // ---- wake ordering ----

  lemma EarlierInPair(acts: seq<Action>, a: Action, b: Action, x: nat)
    requires x < |acts| && acts[x] == b && a != b && a.load == b.load
    requires ForLoad(acts, b.load) == [a, b]
    ensures a in acts[..x]
  {
    var l := b.load;
    assert acts == acts[..x] + acts[x..];
    ForLoadConcat(acts[..x], acts[x..], l);
    var front, back := ForLoad(acts[..x], l), ForLoad(acts[x..], l);
    assert back[0] == b;
    assert (front + back)[0] == a;
    assert front != [] && front[0] == a;
    InForLoad(acts[..x], a);
  }

  /** A list with a wake in it is the whole decided list, and releases the signal first unless
      it was seen released. */
  lemma WakeComesLast(p: Plant, t: State, e: Event, load: string, x: nat)
    requires e.Act? && t.phase.Ready? && t.phase.i.loads == p.loads && load in p.loads
            && p.loads[load].loadType == NutServer
    requires x < |Applied(p, t, e)| && Applied(p, t, e)[x] == Action(WakeServer, load)
    ensures Assert(load) !in Applied(p, t, e)
    ensures ShedSeen(t, load) != ShedReleased ==> Release(load) in Applied(p, t, e)[..x]
    ensures Release(load) in Applied(p, t, e) ==> ShedSeen(t, load) != ShedReleased
  {
    var i, wake := t.phase.i, Action(WakeServer, load);
    var acts := Applied(p, t, e);
    assert wake in acts;
    AppliedActions(p, t, e, wake);
    DecidedActions(i, wake);
    SignalActions(p, t, e, load);
    if ShedSeen(t, load) != ShedReleased {
      DecisionsForOneLoad(i, load);
      EarlierInPair(acts, Release(load), wake, x);
    }
  }

  /** Whenever a wake packet is dispatched, the server's signal already reads released: unless it
      was truly read so, the release comes first in the list, and no other load's write touches
      this signal. */
  lemma WakesFindTheSignalReleased(p: Plant, r: Run, k: nat, load: string, x: nat)
    requires IsRun(p, r) && ActsAt(r, k) && Server(p, load)
    requires Release(load) !in r.events[k].fails
    requires x < |AppliedAt(p, r, k)| && AppliedAt(p, r, k)[x] == Action(WakeServer, load)
    ensures Position(p.wiring,
                     PerformAll(p.wiring, r.states[k].status, AppliedAt(p, r, k)[..x], r.events[k].fails),
                     load) == ShedReleased
  {
    assert StepAt(p, r, k);
    var t, e := r.states[k], r.events[k];
    AlwaysCoherent(p, r, k);
    WakeComesLast(p, t, e, load, x);
    var front := AppliedAt(p, r, k)[..x];
    assert Assert(load) !in front;
    ListWrites(p.wiring, t.status, front, e.fails, load);
  }

  // ---- the interlock over runs ----

  /** A tick in progress holds these readings. */
  ghost predicate Holds(p: Plant, ph: Phase, tel: map<string, Telemetry>, actual: map<string, ActualState>) {
    match ph
    case Idle => false
    case Observed(t, a, _) => t == tel && a == actual
    case Ready(i) => i.tel == tel && i.actual == actual && i.loads == p.loads && i.upsCfgs == p.upsCfgs
  }

  lemma ReadingsAreCarried(p: Plant, t: State, e: Event, tel: map<string, Telemetry>, actual: map<string, ActualState>)
    requires Legal(p, t, e) && !After(p, t, e).phase.Idle?
    ensures !e.Act? && !e.Restart?
    ensures e.Observe? ==> Holds(p, After(p, t, e).phase, e.tel, e.actual)
    ensures !e.Observe? ==>
            !t.phase.Idle? && (Holds(p, t.phase, tel, actual) ==> Holds(p, After(p, t, e).phase, tel, actual))
  {
  }

  /** The observation a tick acts on is the latest one, untouched by anything in between. */
  lemma {:induction false} ActsOnLatestReadings(p: Plant, r: Run, k: nat) returns (j: nat)
    requires IsRun(p, r) && k <= |r.events| && !r.states[k].phase.Idle?
    ensures j < k && r.events[j].Observe?
    ensures forall m :: j < m < k ==> !r.events[m].Observe? && !r.events[m].Act? && !r.events[m].Restart?
    ensures forall m :: j < m <= k ==> !r.states[m].phase.Idle?
    ensures Holds(p, r.states[k].phase, r.events[j].tel, r.events[j].actual)
  {
    assert k > 0;
    var t, e := r.states[k - 1], r.events[k - 1];
    assert StepAt(p, r, k - 1);
    ReadingsAreCarried(p, t, e, map[], map[]);
    if e.Observe? {
      j := k - 1;
    } else {
      j := ActsOnLatestReadings(p, r, k - 1);
      ReadingsAreCarried(p, t, e, r.events[j].tel, r.events[j].actual);
    }
  }

  ghost predicate RecoveredIn(p: Plant, tel: map<string, Telemetry>, u: string) {
    u in p.upsCfgs && Recovered(p.upsCfgs[u], Get(tel, u, NO_READING))
  }

  ghost predicate CriticalIn(p: Plant, tel: map<string, Telemetry>, u: string) {
    u in p.upsCfgs && Critical(p.upsCfgs[u], Get(tel, u, NO_READING))
  }

  /** Every power-on or release ever applied had all its governing UPSes polled, online, off
      battery and recharged in that tick's own readings, and no contrary request; every shed
      ever applied had a critical governing UPS or an off request. */
  lemma InterlockOverRuns(p: Plant, r: Run, k: nat, a: Action) returns (j: nat)
    requires IsRun(p, r) && ActsAt(r, k) && a in AppliedAt(p, r, k)
    ensures a.load in p.loads && j < k && r.events[j].Observe?
    ensures forall m :: j < m < k ==> !r.events[m].Observe?
    ensures var req := Get(InputsAt(p, r, k).ext, a.load, NoRequest);
            && (Raises(a.kind) ==>
                  req in {NoRequest, RequestOn}
                  && forall u :: u in p.loads[a.load].governedBy ==> RecoveredIn(p, r.events[j].tel, u))
            && (!Raises(a.kind) ==>
                  req == RequestOff
                  || exists u :: u in p.loads[a.load].governedBy && CriticalIn(p, r.events[j].tel, u))
  {
    assert StepAt(p, r, k);
    j := ActsOnLatestReadings(p, r, k);
    var i := InputsAt(p, r, k);
    AppliedActions(p, r.states[k], r.events[k], a);
    InterlockOfActions(i, a);
    assert forall u :: CriticalIn(p, r.events[j].tel, u) == CriticalUps(i, u);
    assert forall u :: RecoveredIn(p, r.events[j].tel, u) == RecoveredUps(i, u);
  }

  // ---- no flapping ----

  /** Between events s and k every successful poll of this UPS shows a charge below its recover
      floor. */
  ghost predicate BelowFloor(p: Plant, r: Run, s: nat, k: nat, u: string)
    requires k <= |r.events|
  {
    u in p.upsCfgs
    && forall m :: s <= m < k && r.events[m].Observe? ==>
         var t := Get(r.events[m].tel, u, NO_READING);
         t.ok ==> 0 <= t.charge < p.upsCfgs[u].recoverCharge
  }

  lemma NeverWantedOn(p: Plant, r: Run, s: nat, k: nat, load: string, u: string)
    requires IsRun(p, r) && s <= k && ActsAt(r, k) && load in p.loads && r.states[s].phase.Idle?
    requires u in p.loads[load].governedBy && BelowFloor(p, r, s, k, u)
    ensures VerdictAt(p, r, k, load) != DesiredOn
    ensures forall a :: a in Decisions(InputsAt(p, r, k)) && a.load == load ==> !Raises(a.kind)
  {
    assert StepAt(p, r, k);
    var j := ActsOnLatestReadings(p, r, k);
    assert s <= j;
    var i := InputsAt(p, r, k);
    Interlock(i, load);
    assert !RecoveredUps(i, u);
    forall a | a in Decisions(i) && a.load == load ensures !Raises(a.kind) {
      InterlockOfActions(i, a);
    }
  }

  /** One event of such a stretch: no release, and an assert exactly when the signal becomes asserted. */
  lemma NoFlappingStep(p: Plant, r: Run, s: nat, k: nat, load: string, u: string)
    requires IsRun(p, r) && s <= k < |r.events| && Server(p, load) && r.states[s].phase.Idle?
    requires u in p.loads[load].governedBy && BelowFloor(p, r, s, k, u)
    requires SoundReads(p, r, s, k, load) && WritesPass(r, k, load)
    ensures TimesIn(p, r, k, Release(load)) == 0
    ensures var before, after := PositionAt(p, r, k, load), PositionAt(p, r, k + 1, load);
            TimesIn(p, r, k, Assert(load)) == (if after != before then 1 else 0)
            && (after != before ==> after == ShedAsserted)
  {
    if ActsAt(r, k) {
      NeverWantedOn(p, r, s, k, load, u);
      SoundReadsSee(p, r, s, k, load);
      DrivenStep(p, r, k, load);
      SoundStep(p, r, k, load);
    } else {
      QuietStep(p, r, k, load);
    }
  }

  /** Mains that comes and goes cannot make a load flap while a governing UPS recharges: from
      between two ticks on, no release is applied and at most one assert. */
  lemma {:induction false} NoFlapping(p: Plant, r: Run, s: nat, k: nat, load: string, u: string)
    requires IsRun(p, r) && s <= k <= |r.events| && Server(p, load) && r.states[s].phase.Idle?
    requires u in p.loads[load].governedBy && BelowFloor(p, r, s, k, u)
    requires SoundReads(p, r, s, k, load) && WritesSucceed(r, s, k, load)
    ensures TimesApplied(p, r, k, Release(load)) == TimesApplied(p, r, s, Release(load))
    ensures var asserts := TimesApplied(p, r, k, Assert(load)) - TimesApplied(p, r, s, Assert(load));
            0 <= asserts <= 1 && (asserts == 1 ==> PositionAt(p, r, k, load) == ShedAsserted)
  {
    if s < k {
      NoFlapping(p, r, s, k - 1, load, u);
      assert WritesPass(r, k - 1, load);
      NoFlappingStep(p, r, s, k - 1, load, u);
    }
  }
}
