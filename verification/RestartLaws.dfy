/** Restart transparency: the controller keeps nothing that a fresh one would miss. */
module RestartLaws {
  import opened ClosedLoop
  import opened Common
  import opened Control
  import opened Effects

  lemma {:induction false} FilterTwice(acts: seq<Action>)
    ensures WithoutPowerOn(WithoutPowerOn(acts)) == WithoutPowerOn(acts)
  {
    if acts != [] {
      var n := |acts| - 1;
      FilterTwice(acts[..n]);
      var front := WithoutPowerOn(acts[..n]);
      assert (front + [acts[n]])[..|front|] == front;
      if IsPowerOn(acts[n].kind) { assert front + [] == front; }
    }
  }

  lemma PowerOnLeavesSignals(w: Wiring, status: map<string, string>, a: Action, fails: set<Action>)
    requires IsPowerOn(a.kind)
    ensures Perform(w, status, a, fails) == status
  {
  }

  /** Holding power-on actions back changes no shed signal. */
  lemma {:induction false} FilterLeavesSignals(w: Wiring, status: map<string, string>, acts: seq<Action>,
                                               fails: set<Action>)
    ensures PerformAll(w, status, WithoutPowerOn(acts), fails) == PerformAll(w, status, acts, fails)
  {
    if acts != [] {
      var n := |acts| - 1;
      var front := WithoutPowerOn(acts[..n]);
      FilterLeavesSignals(w, status, acts[..n], fails);
      if IsPowerOn(acts[n].kind) {
        PowerOnLeavesSignals(w, PerformAll(w, status, acts[..n], fails), acts[n], fails);
        assert front + [] == front;
      } else {
        assert (front + [acts[n]])[..|front|] == front;
      }
    }
  }

  /** Both clocks still stand, or the second was started no earlier. */
  predicate NoEarlier(t: Option<int>, u: Option<int>) {
    (t.None? && u.None?) || (t.Some? && u.Some? && t.value <= u.value)
  }

  /** One state with the controller replaced by one that started no earlier. */
  ghost predicate Replaced(t: State, u: State) {
    u.status == t.status && u.phase == t.phase && t.want == map[] && u.want == map[] && NoEarlier(t.started, u.started)
  }

  lemma ReplacedActs(p: Plant, t: State, u: State, e: Event)
    requires Replaced(t, u) && e.Act? && t.phase.Ready?
    ensures Applied(p, u, e)
            == if Holding(p.grace, u.started, e.first, e.check) then WithoutPowerOn(Applied(p, t, e))
                else Applied(p, t, e)
    ensures PerformAll(p.wiring, u.status, Applied(p, u, e), e.fails)
            == PerformAll(p.wiring, t.status, Applied(p, t, e), e.fails)
  {
    FilterTwice(Decisions(t.phase.i));
    FilterLeavesSignals(p.wiring, t.status, Applied(p, t, e), e.fails);
  }

  lemma ReplacedStep(p: Plant, t: State, u: State, e: Event)
    requires Replaced(t, u) && !e.Put? && Legal(p, t, e) && Legal(p, u, e)
    ensures Replaced(After(p, t, e), After(p, u, e))
  {
    if e.Act? { ReplacedActs(p, t, u, e); }
  }

  /** `q` is `r` with a restart at `at`, its clock started at `go`, slipped in between two ticks
      before event x. */
  ghost predicate RestartedAt(r: Run, q: Run, x: nat, at: int, go: int)
    requires |r.states| == |r.events| + 1 && |q.states| == |q.events| + 1
  {
    x <= |r.events| && q.events == r.events[..x] + [Restart(at), Start(go)] + r.events[x..]
    && q.states[0] == r.states[0] && r.states[x].phase.Idle? && r.states[x].started.Some?
  }

  ghost predicate StartedInPast(s: State) {
    s.started.Some? ==> s.started.value <= s.now
  }

  ghost predicate NoRequests(r: Run)
    requires |r.states| > 0
  {
    r.states[0].want == map[] && StartedInPast(r.states[0])
    && forall k :: 0 <= k < |r.events| ==> !r.events[k].Put?
  }

  lemma QuietStepKeeps(p: Plant, t: State, e: Event)
    requires Legal(p, t, e) && !e.Put? && t.want == map[] && StartedInPast(t)
    ensures After(p, t, e).want == map[] && StartedInPast(After(p, t, e))
  {
  }

  lemma {:induction false} SameBefore(p: Plant, r: Run, q: Run, x: nat, at: int, go: int, k: nat)
    requires IsRun(p, r) && IsRun(p, q) && RestartedAt(r, q, x, at, go) && NoRequests(r) && k <= x
    ensures q.states[k] == r.states[k] && r.states[k].want == map[] && StartedInPast(r.states[k])
  {
    if k > 0 {
      SameBefore(p, r, q, x, at, go, k - 1);
      assert StepAt(p, r, k - 1) && StepAt(p, q, k - 1);
      assert q.events[k - 1] == r.events[k - 1];
      QuietStepKeeps(p, r.states[k - 1], r.events[k - 1]);
    }
  }

  lemma ReplacedAtOnce(p: Plant, r: Run, q: Run, x: nat, at: int, go: int)
    requires IsRun(p, r) && IsRun(p, q) && RestartedAt(r, q, x, at, go) && NoRequests(r)
    ensures Replaced(r.states[x], q.states[x + 2])
  {
    SameBefore(p, r, q, x, at, go, x);
    assert q.events[x] == Restart(at) && q.events[x + 1] == Start(go);
    assert StepAt(p, q, x) && StepAt(p, q, x + 1);
  }

  lemma {:induction false} ReplacedAfter(p: Plant, r: Run, q: Run, x: nat, at: int, go: int, k: nat)
    requires IsRun(p, r) && IsRun(p, q) && RestartedAt(r, q, x, at, go) && NoRequests(r) && x <= k <= |r.events|
    ensures Replaced(r.states[k], q.states[k + 2])
  {
    if k == x {
      ReplacedAtOnce(p, r, q, x, at, go);
    } else {
      ReplacedAfter(p, r, q, x, at, go, k - 1);
      assert q.events[k + 1] == r.events[k - 1];
      assert StepAt(p, r, k - 1) && StepAt(p, q, k + 1);
      ReplacedStep(p, r.states[k - 1], q.states[k + 1], r.events[k - 1]);
    }
  }

  /** With no requests and the same outside readings and outcomes, a restart between any two
      ticks leaves every later signal and every other action unchanged; the power-on actions are
      the original ones minus those inside the new grace. */
  lemma RestartTransparency(p: Plant, r: Run, q: Run, x: nat, at: int, go: int, k: nat)
    requires IsRun(p, r) && IsRun(p, q) && RestartedAt(r, q, x, at, go) && NoRequests(r) && k <= |r.events|
    ensures k <= x ==> q.states[k] == r.states[k]
    ensures k >= x ==> q.states[k + 2].status == r.states[k].status
    ensures k >= x && ActsAt(r, k) ==>
              ActsAt(q, k + 2)
              && AppliedAt(p, q, k + 2)
                 == if Holding(p.grace, q.states[k + 2].started, r.events[k].first, r.events[k].check)
                    then WithoutPowerOn(AppliedAt(p, r, k)) else AppliedAt(p, r, k)
  {
    if k <= x { SameBefore(p, r, q, x, at, go, k); }
    if k >= x {
      ReplacedAfter(p, r, q, x, at, go, k);
      if ActsAt(r, k) {
        assert q.events[k + 2] == r.events[k];
        assert StepAt(p, r, k);
        ReplacedActs(p, r.states[k], q.states[k + 2], r.events[k]);
      }
    }
  }
}
