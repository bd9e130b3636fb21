/** What one Act of any run applies and what it leaves alone, kinds and readings written out. */
module TickLaws {
  import opened ClosedLoop
  import opened Common
  import opened Control
  import opened ControlLaws
  import opened SignalLaws

  // ---- the grace ----

  /** The reading the grace is counted from. */
  ghost function GraceFrom(r: Run, k: nat): int
    requires ActsAt(r, k) && k < |r.states|
  {
    if r.states[k].started.Some? then r.states[k].started.value else r.events[k].first
  }

  /** A tick applies everything it decided, except that it drops a wake or a chassis power-up
      exactly when the grace is on and fewer than that many nanoseconds lie between the start of the
      clock and the grace check. */
  lemma AppliedIffNotHeld(p: Plant, r: Run, k: nat, a: Action)
    requires IsRun(p, r) && ActsAt(r, k)
    ensures GraceFrom(r, k) == if r.states[k].started.Some? then r.states[k].started.value else r.events[k].first
    ensures a in AppliedAt(p, r, k)
            <==> a in Decisions(InputsAt(p, r, k))
                 && !((a.kind == WakeServer || a.kind == ChassisPowerUp)
                      && p.grace > 0 && r.events[k].check - GraceFrom(r, k) < p.grace)
  {
    assert StepAt(p, r, k);
    AppliedActions(p, r.states[k], r.events[k], a);
  }

  /** Sheds and releases always pass: grace or not, whatever is decided and is neither a wake nor a
      chassis power-up is applied. */
  lemma ShedsAlwaysPass(p: Plant, r: Run, k: nat, a: Action)
    requires IsRun(p, r) && ActsAt(r, k) && a in Decisions(InputsAt(p, r, k))
    requires a.kind == ChassisShutdown || a.kind == AssertServerShed || a.kind == ReleaseServerShed
    ensures a in AppliedAt(p, r, k)
  {
    AppliedIffNotHeld(p, r, k, a);
  }

  /** What a tick applies stands in the order it was decided in. */
  lemma AppliedInOrder(p: Plant, r: Run, k: nat, x: nat, y: nat) returns (i: nat, j: nat)
    requires IsRun(p, r) && ActsAt(r, k) && x < y < |AppliedAt(p, r, k)|
    ensures i < j < |Decisions(InputsAt(p, r, k))|
    ensures Decisions(InputsAt(p, r, k))[i] == AppliedAt(p, r, k)[x]
    ensures Decisions(InputsAt(p, r, k))[j] == AppliedAt(p, r, k)[y]
  {
    assert StepAt(p, r, k);
    if Holding(p.grace, r.states[k].started, r.events[k].first, r.events[k].check) {
      i, j := FilterKeepsOrder(Decisions(InputsAt(p, r, k)), x, y);
    } else {
      i, j := x, y;
    }
  }

  // ---- emergencies of a chassis ----

  /** A tick with a critical governing UPS orders a chassis that is up to shut down, whatever the
      requests, the TTL and the grace. */
  lemma ChassisEmergency(p: Plant, r: Run, k: nat, load: string)
    requires IsRun(p, r) && ActsAt(r, k) && load in p.loads && p.loads[load].loadType == Chassis
    requires CriticalAt(p, r, k, load) && Get(InputsAt(p, r, k).actual, load, ActualUnknown) == ActualUp
    ensures Action(ChassisShutdown, load) in AppliedAt(p, r, k)
  {
    var i := InputsAt(p, r, k);
    AlwaysCoherent(p, r, k);
    assert StepAt(p, r, k);
    Interlock(i, load);
    DecidedIffCalledFor(i, Action(ChassisShutdown, load));
    ShedsAlwaysPass(p, r, k, Action(ChassisShutdown, load));
  }

  // ---- failed readings ----

  /** The readings a tick acts on are those of its own Observe. */
  lemma TickReads(p: Plant, r: Run, k: nat)
    requires IsRun(p, r) && ActsAt(r, k + 2) && r.events[k].Observe? && r.events[k + 1].Snapshot?
    ensures var i := InputsAt(p, r, k + 2);
            i.tel == r.events[k].tel && i.actual == r.events[k].actual && i.loads == p.loads && i.upsCfgs == p.upsCfgs
  {
    assert StepAt(p, r, k + 2);
    var j := ActsOnLatestReadings(p, r, k + 2);
    assert j == k;
  }

  /** A governing UPS without an ok reading is unknown and not critical, and keeps the tick from
      powering its load on or releasing it. */
  lemma FailedReadingHolds(p: Plant, r: Run, k: nat, load: string, u: string)
    requires IsRun(p, r) && ActsAt(r, k) && load in p.loads && u in p.loads[load].governedBy
    requires u in InputsAt(p, r, k).tel ==> !InputsAt(p, r, k).tel[u].ok
    ensures SourceOf(InputsAt(p, r, k), u) == SourceUnknown && !CriticalUps(InputsAt(p, r, k), u)
    ensures forall a :: a in AppliedAt(p, r, k) && a.load == load ==>
              a.kind != WakeServer && a.kind != ChassisPowerUp && a.kind != ReleaseServerShed
  {
    var i := InputsAt(p, r, k);
    AlwaysCoherent(p, r, k);
    assert StepAt(p, r, k);
    UnreadIsUnknown(i, u);
    UpsMeaning(i, u);
    forall a | a in AppliedAt(p, r, k) && a.load == load
      ensures a.kind != WakeServer && a.kind != ChassisPowerUp && a.kind != ReleaseServerShed
    {
      AppliedIffNotHeld(p, r, k, a);
      InterlockOfActions(i, a);
    }
  }

  /** A load none of whose governing UPSes could be read is left alone, unless its caller asked
      for off. */
  lemma BlindLoadsHold(p: Plant, r: Run, k: nat, a: Action)
    requires IsRun(p, r) && ActsAt(r, k) && a in AppliedAt(p, r, k)
    requires a.load in p.loads && p.loads[a.load].governedBy != []
    requires forall u :: u in p.loads[a.load].governedBy && u in InputsAt(p, r, k).tel ==> !InputsAt(p, r, k).tel[u].ok
    ensures Get(InputsAt(p, r, k).ext, a.load, NoRequest) == RequestOff
    ensures a.kind == ChassisShutdown || a.kind == AssertServerShed
  {
    var i := InputsAt(p, r, k);
    AlwaysCoherent(p, r, k);
    assert StepAt(p, r, k);
    AppliedIffNotHeld(p, r, k, a);
    InterlockOfActions(i, a);
    var u := p.loads[a.load].governedBy[0];
    FailedReadingHolds(p, r, k, a.load, u);
    forall v | v in p.loads[a.load].governedBy ensures !CriticalUps(i, v) { FailedReadingHolds(p, r, k, a.load, v); }
  }
}
