/** Requests over whole runs: deletion on expiry against an append-only log, and the promise
    startup grace and restated requests make together. */
module RequestLaws {
  import opened ClosedLoop
  import opened Common
  import opened Control
  import opened ControlLaws
  import opened PowerApi

  // ---- delete-on-expiry against the log ----

  /** The last accepted put for a load before event k, counting from the last restart. */
  ghost function LastPut(r: Run, k: nat, load: string): Option<Entry>
    requires k < |r.states| && k <= |r.events|
  {
    if k == 0 then if load in r.states[0].want then Some(r.states[0].want[load]) else None
    else PutAfter(LastPut(r, k - 1, load), r.events[k - 1], load)
  }

  /** The table holds the last put, or has dropped it for good. */
  ghost predicate TableMatches(p: Plant, t: State, last: Option<Entry>, load: string) {
    (load in t.want ==> last == Some(t.want[load]))
    && (load !in t.want && last.Some? ==> p.ttl > 0 && t.now - last.value.at >= p.ttl)
  }

  /** The last put, one event later. */
  function PutAfter(last: Option<Entry>, e: Event, load: string): Option<Entry> {
    match e
    case Put(l, req, at) => if l == load then Some(Entry(req, at)) else last
    case Restart(_) => None
    case _ => last
  }

  lemma StepsKeepTheLog(p: Plant, t: State, e: Event, last: Option<Entry>, load: string)
    requires Legal(p, t, e) && TableMatches(p, t, last, load)
    ensures TableMatches(p, After(p, t, e), PutAfter(last, e, load), load)
  {
  }

  lemma {:induction false} TableRefinesLog(p: Plant, r: Run, k: nat, load: string)
    requires IsRun(p, r) && k <= |r.events|
    ensures TableMatches(p, r.states[k], LastPut(r, k, load), load)
  {
    if k > 0 {
      TableRefinesLog(p, r, k - 1, load);
      assert StepAt(p, r, k - 1);
      StepsKeepTheLog(p, r.states[k - 1], r.events[k - 1], LastPut(r, k - 1, load), load);
    }
  }

  ghost predicate Allowed(p: Plant, want: map<string, Entry>) {
    forall l :: l in want ==> l in p.allow && want[l].req != NoRequest
  }

  lemma StepsKeepAllowed(p: Plant, t: State, e: Event)
    requires Legal(p, t, e) && Allowed(p, t.want)
    ensures Allowed(p, After(p, t, e).want)
  {
  }

  lemma {:induction false} TableStaysAllowed(p: Plant, r: Run, k: nat)
    requires IsRun(p, r) && k <= |r.events| && Allowed(p, r.states[0].want)
    ensures Allowed(p, r.states[k].want)
  {
    if k > 0 {
      TableStaysAllowed(p, r, k - 1);
      assert StepAt(p, r, k - 1);
      StepsKeepAllowed(p, r.states[k - 1], r.events[k - 1]);
    }
  }

  /** A snapshot answers from the log alone: for each load exactly its last accepted put when
      that is younger than the TTL (or the TTL is off), at the reading its entry was examined
      at, and nothing otherwise; inside the allowlist, and never "none". */
  lemma SnapshotIsTheLog(p: Plant, r: Run, k: nat, load: string)
    requires IsRun(p, r) && k < |r.events| && r.events[k].Snapshot?
    ensures r.states[k + 1].phase.Ready?
    ensures var ext := r.states[k + 1].phase.i.ext;
            var last := LastPut(r, k, load);
            var reading := ReadAt(r.events[k].when, r.events[k].end, load);
            && (load in r.events[k].when ==> reading == r.events[k].when[load])
            && (load !in r.events[k].when ==> reading == r.events[k].end)
            && (load in ext <==> last.Some? && (p.ttl <= 0 || reading - last.value.at < p.ttl))
            && (load in ext ==> ext[load] == last.value.req)
    ensures Allowed(p, r.states[0].want) && load in r.states[k + 1].phase.i.ext ==>
              load in p.allow && r.states[k + 1].phase.i.ext[load] != NoRequest
  {
    assert StepAt(p, r, k);
    TableRefinesLog(p, r, k, load);
    if Allowed(p, r.states[0].want) { TableStaysAllowed(p, r, k); }
  }

  /** The requests a tick acts on are those of the latest snapshot. */
  lemma {:induction false} ActsOnLatestSnapshot(p: Plant, r: Run, k: nat) returns (j: nat)
    requires IsRun(p, r) && k <= |r.events| && r.states[k].phase.Ready?
    ensures j < k && r.events[j].Snapshot? && r.states[k].phase == r.states[j + 1].phase
    ensures forall m :: j < m < k ==> !r.events[m].Snapshot?
  {
    assert k > 0;
    assert StepAt(p, r, k - 1);
    if r.events[k - 1].Snapshot? {
      j := k - 1;
    } else {
      j := ActsOnLatestSnapshot(p, r, k - 1);
    }
  }

  // ---- grace and TTL together ----

  predicate Quiet(req: Request) {
    req == RequestOff || req == RequestHold
  }

  /** From event f to event n the caller only ever asks for off or hold, and nothing restarts. */
  ghost predicate StaysQuiet(r: Run, f: nat, n: nat, load: string) {
    f < n <= |r.events| && r.events[f].Put? && r.events[f].load == load
    && (forall m :: f <= m < n && r.events[m].Put? && r.events[m].load == load ==> Quiet(r.events[m].req))
    && (forall m :: f <= m < n ==> !r.events[m].Restart?)
  }

  lemma {:induction false} LastPutIsQuiet(r: Run, f: nat, n: nat, m: nat, load: string)
    requires |r.states| == |r.events| + 1 && StaysQuiet(r, f, n, load) && f < m <= n
    ensures LastPut(r, m, load).Some? && Quiet(LastPut(r, m, load).value.req)
  {
    if m > f + 1 { LastPutIsQuiet(r, f, n, m - 1, load); }
  }

  ghost predicate SnapshotAt(r: Run, j: nat) {
    j < |r.events| && r.events[j].Snapshot?
  }

  /** Every snapshot after the caller's first put, up to event n, sees its latest put younger than
      the TTL. */
  ghost predicate SeenFresh(p: Plant, r: Run, f: nat, n: nat, load: string)
    requires |r.states| == |r.events| + 1 && n <= |r.events|
  {
    forall m :: f < m < n && SnapshotAt(r, m) && LastPut(r, m, load).Some? ==>
      p.ttl <= 0 || ReadAt(r.events[m].when, r.events[m].end, load) - LastPut(r, m, load).value.at < p.ttl
  }

  ghost predicate GraceExpiredAt(p: Plant, r: Run, k: nat)
    requires |r.states| == |r.events| + 1
  {
    ActsAt(r, k) && !Holding(p.grace, r.states[k].started, r.events[k].first, r.events[k].check)
  }

  /** Of the ticks from event s to event n, the first whose grace check has expired (and so every
      later such one) takes its request snapshot after the put. */
  ghost predicate LandsInTime(p: Plant, r: Run, s: nat, f: nat, n: nat)
    requires |r.states| == |r.events| + 1
  {
    forall k :: s <= k < n && GraceExpiredAt(p, r, k) ==> exists j :: f < j < k && SnapshotAt(r, j)
  }

  /** From a process's start at event s on, a load its caller keeps off or on hold is never powered
      on: not before the first request lands, which the grace covers, and not after, which the
      requests cover. What the run was before s, restarts and all, does not matter. */
  lemma NeverWokenAgainstItsCaller(p: Plant, r: Run, s: nat, f: nat, n: nat, k: nat, load: string, a: Action)
    requires IsRun(p, r) && StaysQuiet(r, f, n, load) && SeenFresh(p, r, f, n, load) && LandsInTime(p, r, s, f, n)
    requires s <= k < n && ActsAt(r, k) && a in AppliedAt(p, r, k) && a.load == load
    ensures a.kind != WakeServer && a.kind != ChassisPowerUp
  {
    assert StepAt(p, r, k);
    var t, e := r.states[k], r.events[k];
    AppliedActions(p, t, e, a);
    if GraceExpiredAt(p, r, k) {
      var j := ActsOnLatestSnapshot(p, r, k);
      var early :| f < early < k && SnapshotAt(r, early);
      assert early <= j;
      assert SnapshotAt(r, j);
      LastPutIsQuiet(r, f, n, j, load);
      SnapshotIsTheLog(p, r, j, load);
      InterlockOfActions(t.phase.i, a);
    }
  }

  // ---- the state endpoint ----

  /** The latest probe result published for a load before event k. */
  ghost function LastSighting(r: Run, k: nat, load: string): Option<Sighting>
    requires k < |r.states| && k <= |r.events|
  {
    if k == 0 then if load in r.states[0].seen then Some(r.states[0].seen[load]) else None
    else match r.events[k - 1]
      case Observe(_, actual, _, at) =>
        if load in actual then Some(Sighting(actual[load], at)) else LastSighting(r, k - 1, load)
      case Restart(_) => None
      case _ => LastSighting(r, k - 1, load)
  }

  /** The state endpoint serves the latest probe, whatever requests and expiries went on. */
  lemma {:induction false} SeenIsTheLatestProbe(p: Plant, r: Run, k: nat, load: string)
    requires IsRun(p, r) && k <= |r.events| && p.api
    ensures match LastSighting(r, k, load)
            case None => load !in r.states[k].seen
            case Some(o) => load in r.states[k].seen && r.states[k].seen[load] == o
  {
    if k > 0 {
      SeenIsTheLatestProbe(p, r, k - 1, load);
      assert StepAt(p, r, k - 1);
    }
  }
}
