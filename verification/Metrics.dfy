/** The gauge store behind the Prometheus surface, as plain maps from label values to numbers. */
module Metrics {
  import opened Common
  import opened Control
  import opened Text

  /** One dedicated telemetry gauge and the NUT variables that may feed it, preferred first. */
  datatype Spec = Spec(varNames: seq<string>, metric: string, scale: real)

  const TELEMETRY_SPECS: seq<Spec> := [
    Spec(["battery.charge"], "nut_dog_ups_battery_charge_percent", 1.0),
    Spec(["battery.runtime"], "nut_dog_ups_battery_runtime_seconds", 1.0),
    Spec(["battery.voltage"], "nut_dog_ups_battery_voltage_volts", 1.0),
    Spec(["input.voltage"], "nut_dog_ups_input_voltage_volts", 1.0),
    Spec(["input.frequency"], "nut_dog_ups_input_frequency_hertz", 1.0),
    Spec(["input.current"], "nut_dog_ups_input_current_amperes", 1.0),
    Spec(["output.voltage"], "nut_dog_ups_output_voltage_volts", 1.0),
    Spec(["output.frequency"], "nut_dog_ups_output_frequency_hertz", 1.0),
    Spec(["output.current"], "nut_dog_ups_output_current_amperes", 1.0),
    Spec(["ups.power", "output.power"], "nut_dog_ups_output_power_voltamperes", 1.0),
    Spec(["ups.realpower"], "nut_dog_ups_output_realpower_watts", 1.0),
    Spec(["ups.load"], "nut_dog_ups_load_percent", 1.0),
    Spec(["ups.temperature"], "nut_dog_ups_temperature_celsius", 1.0)]

  const STATUS_FLAGS: seq<string> :=
    ["OL", "OB", "LB", "RB", "CHRG", "DISCHRG", "BYPASS", "CAL", "TEST", "OVER", "TRIM", "BOOST", "OFF", "ALARM"]

  const SOURCE_STATES: seq<string> := ["unknown", "shed", "hold", "healthy"]
  const DESIRED_STATES: seq<string> := ["hold", "off", "on"]
  const REQUEST_STATES: seq<string> := ["none", "hold", "off", "on"]
  const ACTUAL_STATES: seq<string> := ["unknown", "up", "down"]
  const SHED_STATES: seq<string> := ["unknown", "released", "asserted"]

  function SourceName(s: SourceState): string {
    match s
    case SourceShed => "shed"
    case SourceHold => "hold"
    case SourceHealthy => "healthy"
    case SourceUnknown => "unknown"
  }

  function DesiredName(d: Desired): string {
    match d case DesiredOff => "off" case DesiredOn => "on" case DesiredHold => "hold"
  }

  function RequestName(r: Request): string {
    match r case RequestHold => "hold" case RequestOff => "off" case RequestOn => "on" case NoRequest => "none"
  }

  function ActualName(a: ActualState): string {
    match a case ActualUp => "up" case ActualDown => "down" case ActualUnknown => "unknown"
  }

  function ShedName(s: ShedState): string {
    match s case ShedReleased => "released" case ShedAsserted => "asserted" case ShedUnknown => "unknown"
  }

  function KindName(k: ActionKind): string {
    match k
    case ChassisShutdown => "ChassisShutdown"
    case ChassisPowerUp => "ChassisPowerUp"
    case AssertServerShed => "AssertServerShed"
    case ReleaseServerShed => "ReleaseServerShed"
    case WakeServer => "WakeServer"
  }

  function B2F(b: bool): real {
    if b then 1.0 else 0.0
  }

  /** Gauges labelled by one pair, such as (metric, ups). */
  type Labelled = map<(string, string), real>

  /** A family of enum gauges: per id, one value per state label. */
  type EnumGauge = map<string, map<string, real>>

  // ---- one-hot groups ----

  /** One value per state, 1 at `active` and 0 elsewhere, and no other label. */
  ghost predicate HotAt(group: map<string, real>, states: seq<string>, active: string) {
    active in states
    && (forall s :: s in group <==> s in states)
    && (forall s :: s in group ==> group[s] == B2F(s == active))
  }

  /** Every id ever recorded has exactly one hot state. */
  ghost predicate AllOneHot(g: EnumGauge, states: seq<string>) {
    forall id :: OneHotAt(g, id, states)
  }

  ghost predicate OneHotAt(g: EnumGauge, id: string, states: seq<string>) {
    id in g ==> exists active :: HotAt(g[id], states, active)
  }

  function HotGroup(states: seq<string>, active: string): map<string, real> {
    map s | s in states :: B2F(s == active)
  }

  method SetOneHot(group: map<string, real>, states: seq<string>, active: string) returns (out: map<string, real>)
    requires forall s :: s in group ==> s in states
    ensures out == HotGroup(states, active)
    ensures forall s :: s in out <==> s in states
    ensures forall s :: s in out ==> out[s] == if s == active then 1.0 else 0.0
  {
    out := group;
    for k := 0 to |states|
      invariant forall s :: s in out ==> s in states
      invariant forall j :: 0 <= j < k ==> states[j] in out && out[states[j]] == B2F(states[j] == active)
    {
      out := out[states[k] := B2F(states[k] == active)];
    }
  }

  /** Recording one id leaves exactly one hot state there. */
  lemma OneHotIsKept(g: EnumGauge, id: string, states: seq<string>, active: string)
    requires active in states && AllOneHot(g, states)
    ensures HotAt(HotGroup(states, active), states, active)
    ensures AllOneHot(g[id := HotGroup(states, active)], states)
  {
    var out := g[id := HotGroup(states, active)];
    assert HotAt(out[id], states, active);
    forall other ensures OneHotAt(out, other, states) {
      if other != id { assert OneHotAt(g, other, states); }
    }
  }

  method RecordHot(g: EnumGauge, id: string, states: seq<string>, active: string) returns (out: EnumGauge)
    requires active in states && AllOneHot(g, states)
    ensures out == g[id := HotGroup(states, active)]
    ensures AllOneHot(out, states)
  {
    OneHotIsKept(g, id, states, active);
    assert OneHotAt(g, id, states);
    var group := if id in g then g[id] else map[];
    group := SetOneHot(group, states, active);
    out := g[id := group];
  }

  lemma NamesAreStates()
    ensures forall s :: SourceName(s) in SOURCE_STATES
    ensures forall d :: DesiredName(d) in DESIRED_STATES
    ensures forall r :: RequestName(r) in REQUEST_STATES
    ensures forall a :: ActualName(a) in ACTUAL_STATES
    ensures forall s :: ShedName(s) in SHED_STATES
  {
    assert SOURCE_STATES[0] == "unknown" && SOURCE_STATES[1] == "shed" && SOURCE_STATES[2] == "hold"
        && SOURCE_STATES[3] == "healthy";
    assert DESIRED_STATES[0] == "hold" && DESIRED_STATES[1] == "off" && DESIRED_STATES[2] == "on";
    assert REQUEST_STATES[0] == "none" && REQUEST_STATES[1] == "hold" && REQUEST_STATES[2] == "off"
        && REQUEST_STATES[3] == "on";
    assert ACTUAL_STATES[0] == "unknown" && ACTUAL_STATES[1] == "up" && ACTUAL_STATES[2] == "down";
    assert SHED_STATES[0] == "unknown" && SHED_STATES[1] == "released" && SHED_STATES[2] == "asserted";
  }

  /** A one-hot group names its state unambiguously. */
  lemma HotIsUnique(group: map<string, real>, states: seq<string>, a: string, b: string)
    requires HotAt(group, states, a) && HotAt(group, states, b)
    ensures a == b
  {
    assert group[a] == B2F(a == b);
  }

  lemma HotGroupIsHot(states: seq<string>, active: string)
    requires active in states
    ensures HotAt(HotGroup(states, active), states, active)
  {
  }

  lemma SourceNamesDiffer(a: SourceState, b: SourceState)
    requires SourceName(a) == SourceName(b)
    ensures a == b
  {
    assert SourceName(SourceHold)[1] == 'o' && SourceName(SourceHealthy)[1] == 'e';
    assert SourceName(SourceUnknown)[0] == 'u' && SourceName(SourceShed)[0] == 's' && SourceName(SourceHold)[0] == 'h';
  }

  lemma DesiredNamesDiffer(a: Desired, b: Desired)
    requires DesiredName(a) == DesiredName(b)
    ensures a == b
  {
    assert DesiredName(DesiredHold)[0] == 'h' && DesiredName(DesiredOff)[1] == 'f' && DesiredName(DesiredOn)[1] == 'n';
  }

  lemma RequestNamesDiffer(a: Request, b: Request)
    requires RequestName(a) == RequestName(b)
    ensures a == b
  {
    assert RequestName(NoRequest)[0] == 'n' && RequestName(RequestHold)[0] == 'h';
    assert RequestName(RequestOff)[1] == 'f' && RequestName(RequestOn)[1] == 'n' && RequestName(RequestOn)[0] == 'o';
  }

  lemma ActualNamesDiffer(a: ActualState, b: ActualState)
    requires ActualName(a) == ActualName(b)
    ensures a == b
  {
    assert ActualName(ActualUnknown)[1] == 'n' && ActualName(ActualUp)[1] == 'p' && ActualName(ActualDown)[0] == 'd';
  }

  lemma ShedNamesTell(a: ShedState, b: ShedState)
    requires ShedName(a) == ShedName(b)
    ensures a == b
  {
    assert ShedName(ShedUnknown)[0] == 'u' && ShedName(ShedReleased)[0] == 'r' && ShedName(ShedAsserted)[0] == 'a';
  }

  /** A group is hot at a label exactly when that is the label it was recorded with. */
  lemma HotExactlyAt(states: seq<string>, active: string, name: string)
    requires active in states
    ensures HotAt(HotGroup(states, active), states, name) <==> name == active
  {
    HotGroupIsHot(states, active);
    if HotAt(HotGroup(states, active), states, name) { HotIsUnique(HotGroup(states, active), states, active, name); }
  }

  // ---- telemetry as a function of the poll history ----

  /** One recorded poll; `stamp` is the wall clock then, in whole seconds. */
  datatype Poll = Poll(ups: string, ok: bool, vars: map<string, string>, stamp: int)

  type FloatParser = string -> Option<real>

  /** The first alias that is present and parses. */
  function FirstUsable(parse: FloatParser, vars: map<string, string>, names: seq<string>): Option<real> {
    if names == [] then None
    else if names[0] in vars && parse(TrimSpace(vars[names[0]])).Some? then parse(TrimSpace(vars[names[0]]))
    else FirstUsable(parse, vars, names[1..])
  }

  /** A UPS's last successful poll. */
  function LastGood(h: seq<Poll>, ups: string): Option<Poll> {
    if h == [] then None
    else
      var p := h[|h| - 1];
      if p.ups == ups && p.ok then Some(p) else LastGood(h[..|h| - 1], ups)
  }

  function FailedPolls(h: seq<Poll>, ups: string): nat {
    if h == [] then 0
    else FailedPolls(h[..|h| - 1], ups) + (if h[|h| - 1].ups == ups && !h[|h| - 1].ok then 1 else 0)
  }

  function LastOutcome(h: seq<Poll>, ups: string): Option<bool> {
    if h == [] then None
    else if h[|h| - 1].ups == ups then Some(h[|h| - 1].ok)
    else LastOutcome(h[..|h| - 1], ups)
  }

  /** The telemetry series a history of polls calls for: present exactly when the last
      successful poll had a usable alias. */
  function Series(parse: FloatParser, spec: Spec, ups: string, h: seq<Poll>): Option<real> {
    var good := LastGood(h, ups);
    if good.None? then None else Scaled(FirstUsable(parse, good.value.vars, spec.varNames), spec.scale)
  }

  /** One ups.status flag, as the last successful poll reported it. */
  function Flag(flag: string, ups: string, h: seq<Poll>): Option<real> {
    match LastGood(h, ups)
    case None => None
    case Some(p) => Some(B2F(flag in Fields(Get(p.vars, "ups.status", ""))))
  }

  /** When the last successful poll was recorded. */
  function LastSuccess(ups: string, h: seq<Poll>): Option<int> {
    var good := LastGood(h, ups);
    if good.None? then None else Some(good.value.stamp)
  }

  function Reachable(ups: string, h: seq<Poll>): Option<real> {
    match LastOutcome(h, ups)
    case None => None
    case Some(ok) => Some(B2F(ok))
  }

  function Converted(reading: real, scale: real): real {
    reading * scale
  }

  /** A failed poll, or a poll of another UPS, moves no series; a successful one decides its
      own UPS's series alone. */
  lemma OnePollsReach(parse: FloatParser, spec: Spec, ups: string, h: seq<Poll>, p: Poll)
    ensures p.ups != ups || !p.ok ==> Series(parse, spec, ups, h + [p]) == Series(parse, spec, ups, h)
    ensures p.ups == ups && p.ok ==> Series(parse, spec, ups, h + [p]) == Series(parse, spec, ups, [p])
    ensures FailedPolls(h + [p], ups) == FailedPolls(h, ups) + FailedPolls([p], ups)
  {
    assert (h + [p])[..|h|] == h;
  }

  /** Poll k of the history is a successful one of this UPS. */
  ghost predicate GoodAt(h: seq<Poll>, k: nat, ups: string) {
    k < |h| && h[k].ups == ups && h[k].ok
  }

  ghost predicate LatestGood(h: seq<Poll>, k: nat, ups: string) {
    GoodAt(h, k, ups) && forall j :: k < j < |h| ==> !GoodAt(h, j, ups)
  }

  /** LastGood finds the latest successful poll, if there was one at all. */
  lemma {:induction false} LastGoodMeans(h: seq<Poll>, ups: string)
    ensures LastGood(h, ups).None? <==> forall k: nat :: !GoodAt(h, k, ups)
    ensures LastGood(h, ups).Some? ==> exists k: nat :: LatestGood(h, k, ups) && h[k] == LastGood(h, ups).value
  {
    if h != [] {
      var n := |h| - 1;
      LastGoodMeans(h[..n], ups);
      if GoodAt(h, n, ups) {
        assert LatestGood(h, n, ups);
      } else {
        assert forall k: nat :: GoodAt(h, k, ups) <==> GoodAt(h[..n], k, ups);
        if LastGood(h, ups).Some? {
          var k: nat :| LatestGood(h[..n], k, ups) && h[..n][k] == LastGood(h[..n], ups).value;
          assert LatestGood(h, k, ups);
        }
      }
    }
  }

  function FailedSet(h: seq<Poll>, ups: string): set<nat> {
    set k: nat | k < |h| && h[k].ups == ups && !h[k].ok
  }

  /** The failure counter is the number of failed polls. */
  lemma {:induction false} FailedPollsMeans(h: seq<Poll>, ups: string)
    ensures FailedPolls(h, ups) == |FailedSet(h, ups)|
  {
    if h != [] {
      var n := |h| - 1;
      FailedPollsMeans(h[..n], ups);
      assert FailedSet(h, ups) == FailedSet(h[..n], ups) + if h[n].ups == ups && !h[n].ok then {n} else {};
    }
  }

  ghost predicate UsableAt(parse: FloatParser, vars: map<string, string>, names: seq<string>, k: nat) {
    k < |names| && names[k] in vars && parse(TrimSpace(vars[names[k]])).Some?
  }

  /** FirstUsable finds the first alias that is present and parses, past malformed ones. */
  lemma {:induction false} FirstUsableMeans(parse: FloatParser, vars: map<string, string>, names: seq<string>)
    ensures FirstUsable(parse, vars, names).None? <==> forall k: nat :: !UsableAt(parse, vars, names, k)
    ensures FirstUsable(parse, vars, names).Some? ==>
              exists k: nat :: UsableAt(parse, vars, names, k)
                  && (forall j: nat :: j < k ==> !UsableAt(parse, vars, names, j))
                && parse(TrimSpace(vars[names[k]])) == FirstUsable(parse, vars, names)
  {
    if names != [] {
      var rest := names[1..];
      if UsableAt(parse, vars, names, 0) {
      } else {
        FirstUsableMeans(parse, vars, rest);
        assert forall k: nat :: UsableAt(parse, vars, names, k) ==> k > 0 && UsableAt(parse, vars, rest, k - 1);
        if FirstUsable(parse, vars, rest).Some? {
          var k: nat :| UsableAt(parse, vars, rest, k) && (forall j: nat :: j < k ==> !UsableAt(parse, vars, rest, j))
            && parse(TrimSpace(vars[rest[k]])) == FirstUsable(parse, vars, rest);
          assert UsableAt(parse, vars, names, k + 1);
        } else {
          forall k: nat ensures !UsableAt(parse, vars, names, k) {
            if k > 0 { assert !UsableAt(parse, vars, rest, k - 1); }
          }
        }
      }
    }
  }

  function Scaled(v: Option<real>, scale: real): Option<real> {
    if v.None? then None else Some(Converted(v.value, scale))
  }

  /** Every scale of the table is one, so a series is the reading itself. */
  lemma SeriesIsReading(parse: FloatParser, k: nat, ups: string, h: seq<Poll>)
    requires k < |TELEMETRY_SPECS| && LastGood(h, ups).Some?
    ensures Series(parse, TELEMETRY_SPECS[k], ups, h)
            == FirstUsable(parse, LastGood(h, ups).value.vars, TELEMETRY_SPECS[k].varNames)
  {
    assert TELEMETRY_SPECS[k].scale == 1.0;
  }

  /** Apparent power is taken as measured where a UPS reports that, at nominal voltage otherwise. */
  lemma MeasuredPowerComesFirst(parse: FloatParser, ups: string, h: seq<Poll>, measured: real)
    requires LastGood(h, ups).Some? && "ups.power" in LastGood(h, ups).value.vars
    requires parse(TrimSpace(LastGood(h, ups).value.vars["ups.power"])) == Some(measured)
    ensures TELEMETRY_SPECS[9].metric == "nut_dog_ups_output_power_voltamperes"
    ensures Series(parse, TELEMETRY_SPECS[9], ups, h) == Some(measured)
  {
    SeriesIsReading(parse, 9, ups, h);
    assert TELEMETRY_SPECS[9].varNames[0] == "ups.power";
  }

  /** The series `k` exists exactly when a value is wanted, and then has that value. */
  predicate Shows<K, V(==)>(m: map<K, V>, k: K, wanted: Option<V>) {
    (k in m <==> wanted.Some?) && (k in m ==> m[k] == wanted.value)
  }

  function WithSeries<K>(m: map<K, real>, k: K, wanted: Option<real>): map<K, real> {
    if wanted.None? then m - {k} else m[k := wanted.value]
  }

  ghost predicate SameAt<K, V>(m: map<K, V>, n: map<K, V>, k: K) {
    (k in m <==> k in n) && (k in m ==> m[k] == n[k])
  }

  ghost predicate DistinctMetrics(specs: seq<Spec>) {
    forall i, j :: 0 <= i < j < |specs| ==> specs[i].metric != specs[j].metric
  }

  /** Go's zero-value counter read. */
  function Counter(m: map<(string, string), nat>, load: string, action: string): nat {
    Get(m, (load, action), 0)
  }

  ghost predicate TelemetryIs(parse: FloatParser, specs: seq<Spec>, telemetry: Labelled, h: seq<Poll>) {
    forall ups, k :: 0 <= k < |specs| ==> Shows(telemetry, (specs[k].metric, ups), Series(parse, specs[k], ups, h))
  }

  ghost predicate StatusIs(flags: seq<string>, status: Labelled, h: seq<Poll>) {
    forall ups, flag :: flag in flags ==> Shows(status, (ups, flag), Flag(flag, ups, h))
  }

  ghost predicate FailsAre(fails: map<string, nat>, h: seq<Poll>) {
    forall ups :: Get(fails, ups, 0) == FailedPolls(h, ups)
  }

  ghost predicate ReachableIs(reachable: map<string, real>, h: seq<Poll>) {
    forall ups :: Shows(reachable, ups, Reachable(ups, h))
  }

  ghost predicate LastSuccessIs(last: map<string, int>, h: seq<Poll>) {
    forall ups :: Shows(last, ups, LastSuccess(ups, h))
  }

  class Store {
    const parse: FloatParser
    const specs: seq<Spec>
    const flags: seq<string>

    var upsReachable: map<string, real>
    var upsPollFails: map<string, nat>
    var upsLastSuccess: map<string, int>
    var upsStatus: Labelled
    var telemetry: Labelled
    ghost var polls: seq<Poll>

    var upsSource: EnumGauge
    var loadDesired: EnumGauge
    var loadRequested: EnumGauge
    var loadActual: EnumGauge
    var loadShed: EnumGauge
    var graceActive: real

    var actions: map<(string, string), nat>
    var actionFails: map<(string, string), nat>

    ghost predicate TelemetryMatches(h: seq<Poll>)
      reads this`telemetry
    {
      TelemetryIs(parse, specs, telemetry, h)
    }

    ghost predicate StatusMatches(h: seq<Poll>)
      reads this`upsStatus
    {
      StatusIs(flags, upsStatus, h)
    }

    ghost predicate FreshnessMatches(h: seq<Poll>)
      reads this`upsPollFails, this`upsReachable, this`upsLastSuccess
    {
      FailsAre(upsPollFails, h) && ReachableIs(upsReachable, h) && LastSuccessIs(upsLastSuccess, h)
    }

    /** The store is the image of the poll history. */
    ghost predicate MatchesHistory()
      reads this`telemetry, this`upsStatus, this`upsPollFails, this`upsReachable, this`upsLastSuccess, this`polls
    {
      DistinctMetrics(specs) && TelemetryMatches(polls) && StatusMatches(polls) && FreshnessMatches(polls)
    }

    /** Every recorded enum group has exactly one hot state. */
    ghost predicate OneHotEverywhere()
      reads this`upsSource, this`loadDesired, this`loadRequested, this`loadActual, this`loadShed
    {
      AllOneHot(upsSource, SOURCE_STATES)
      && AllOneHot(loadDesired, DESIRED_STATES)
      && AllOneHot(loadRequested, REQUEST_STATES)
      && AllOneHot(loadActual, ACTUAL_STATES)
      && AllOneHot(loadShed, SHED_STATES)
    }

    /** The latest poll decides its UPS's reachability. */
    lemma LatestPollShows()
      requires MatchesHistory() && polls != []
      ensures var p := polls[|polls| - 1];
              p.ups in upsReachable && upsReachable[p.ups] == if p.ok then 1.0 else 0.0
    {
      var p := polls[|polls| - 1];
      assert Shows(upsReachable, p.ups, Reachable(p.ups, polls));
    }

    /** The last successful poll decides the rest, number by number; without one there is nothing to
        be seen. */
    lemma HistoryShows(ups: string)
      requires MatchesHistory() && specs == TELEMETRY_SPECS
      ensures Get(upsPollFails, ups, 0) == |FailedSet(polls, ups)|
      ensures LastGood(polls, ups).None? ==>
                ups !in upsLastSuccess && forall k :: 0 <= k < |specs| ==> (specs[k].metric, ups) !in telemetry
      ensures LastGood(polls, ups).Some? ==>
                ups in upsLastSuccess && upsLastSuccess[ups] == LastGood(polls, ups).value.stamp
      ensures LastGood(polls, ups).Some? ==> forall flag :: flag in flags ==>
                (ups, flag) in upsStatus
                && upsStatus[(ups, flag)]
                   == if flag in Fields(Get(LastGood(polls, ups).value.vars, "ups.status", "")) then 1.0 else 0.0
      ensures LastGood(polls, ups).Some? ==> forall k :: 0 <= k < |specs| ==>
                var reading := FirstUsable(parse, LastGood(polls, ups).value.vars, specs[k].varNames);
                ((specs[k].metric, ups) in telemetry <==> reading.Some?)
                && (reading.Some? ==> telemetry[(specs[k].metric, ups)] == reading.value)
    {
      FailedPollsMeans(polls, ups);
      assert Shows(upsLastSuccess, ups, LastSuccess(ups, polls));
      forall k | 0 <= k < |specs|
        ensures Shows(telemetry, (specs[k].metric, ups), Series(parse, specs[k], ups, polls))
        ensures LastGood(polls, ups).Some? ==>
                  Series(parse, specs[k], ups, polls)
                  == FirstUsable(parse, LastGood(polls, ups).value.vars, specs[k].varNames)
      {
        if LastGood(polls, ups).Some? { SeriesIsReading(parse, k, ups, polls); }
      }
      forall flag | LastGood(polls, ups).Some? && flag in flags
        ensures Shows(upsStatus, (ups, flag), Flag(flag, ups, polls))
      {
      }
    }

    twostate lemma HistoryStands()
      requires old(MatchesHistory())
      requires unchanged(`telemetry, `upsStatus, `upsPollFails, `upsReachable, `upsLastSuccess, `polls)
      ensures MatchesHistory()
    {
    }

    twostate lemma OneHotStands()
      requires old(OneHotEverywhere())
      requires unchanged(`upsSource, `loadDesired, `loadRequested, `loadActual, `loadShed)
      ensures OneHotEverywhere()
    {
    }

    constructor (parse: FloatParser)
      ensures specs == TELEMETRY_SPECS && flags == STATUS_FLAGS
      ensures MatchesHistory() && OneHotEverywhere() && polls == [] && this.parse == parse
      ensures actions == map[] && actionFails == map[]
    {
      this.parse, specs, flags := parse, TELEMETRY_SPECS, STATUS_FLAGS;
      upsReachable, upsPollFails, upsLastSuccess := map[], map[], map[];
      upsStatus, telemetry, polls := map[], map[], [];
      upsSource, loadDesired, loadRequested, loadActual, loadShed := map[], map[], map[], map[], map[];
      graceActive, actions, actionFails := 0.0, map[], map[];
      new;
      SpecMetricsAreDistinct();
    }

    method FirstFloat(vars: map<string, string>, names: seq<string>) returns (r: Option<real>)
      ensures r == FirstUsable(parse, vars, names)
    {
      for k := 0 to |names|
        invariant FirstUsable(parse, vars, names) == FirstUsable(parse, vars, names[k..])
      {
        var n := names[k];
        assert names[k..][1..] == names[k + 1..];
        if n !in vars { continue; }
        var v := parse(TrimSpace(vars[n]));
        if v.Some? { return v; }
      }
      r := None;
    }

    /** One poll: the store stays the image of the history, now one poll longer. */
    method RecordPoll(ups: string, ok: bool, vars: map<string, string>, now: int)
      requires MatchesHistory()
      modifies this`upsReachable, this`upsPollFails, this`upsLastSuccess, this`upsStatus, this`telemetry, this`polls
      ensures polls == old(polls) + [Poll(ups, ok, vars, now)]
      ensures MatchesHistory()
    {
      ghost var h := polls + [Poll(ups, ok, vars, now)];
      assert h[..|h| - 1] == polls;
      SetFreshness(ups, ok, vars, now);
      if ok {
        SetFlags(ups, vars, now);
        SetTelemetry(ups, vars, now);
      } else {
        assert forall u :: LastGood(h, u) == LastGood(polls, u);
        assert TelemetryMatches(h);
        assert StatusMatches(h);
      }
      polls := h;
    }

    method SetFreshness(ups: string, ok: bool, vars: map<string, string>, now: int)
      requires FreshnessMatches(polls)
      modifies this`upsReachable, this`upsPollFails, this`upsLastSuccess
      ensures FreshnessMatches(polls + [Poll(ups, ok, vars, now)])
    {
      ghost var h := polls + [Poll(ups, ok, vars, now)];
      assert h[..|h| - 1] == polls;
      upsReachable := upsReachable[ups := B2F(ok)];
      if !ok {
        upsPollFails := upsPollFails[ups := Get(upsPollFails, ups, 0) + 1];
      } else {
        upsLastSuccess := upsLastSuccess[ups := now];
      }
      forall u ensures Shows(upsReachable, u, Reachable(u, h)) {
        if u != ups { assert Shows(old(upsReachable), u, Reachable(u, polls)); }
      }
      forall u ensures Shows(upsLastSuccess, u, LastSuccess(u, h)) {
        if u != ups || !ok { assert Shows(old(upsLastSuccess), u, LastSuccess(u, polls)); }
      }
    }

    method SetFlags(ups: string, vars: map<string, string>, ghost now: int)
      requires StatusMatches(polls)
      modifies this`upsStatus
      ensures StatusMatches(polls + [Poll(ups, true, vars, now)])
    {
      ghost var h := polls + [Poll(ups, true, vars, now)];
      assert h[..|h| - 1] == polls;
      var present := TokenSet(Get(vars, "ups.status", ""));
      for k := 0 to |flags|
        invariant forall u, flag :: u != ups ==> SameAt(upsStatus, old(upsStatus), (u, flag))
        invariant forall flag :: flag in flags[..k] ==> Shows(upsStatus, (ups, flag), Some(B2F(flag in present)))
      {
        var flag := flags[k];
        assert flags[..k + 1] == flags[..k] + [flag];
        upsStatus := upsStatus[(ups, flag) := B2F(flag in present)];
      }
      assert flags[..|flags|] == flags;
    }

    method SetTelemetry(ups: string, vars: map<string, string>, ghost now: int)
      requires DistinctMetrics(specs) && TelemetryMatches(polls)
      modifies this`telemetry
      ensures TelemetryMatches(polls + [Poll(ups, true, vars, now)])
    {
      ghost var h := polls + [Poll(ups, true, vars, now)];
      assert h[..|h| - 1] == polls;
      assert LastGood(h, ups) == Some(Poll(ups, true, vars, now));
      for k := 0 to |specs|
        invariant forall u, m :: u != ups ==> SameAt(telemetry, old(telemetry), (m, u))
        invariant forall j :: 0 <= j < k ==>
                    Shows(telemetry, (specs[j].metric, ups), Wanted(specs[j], vars))
      {
        SetSeries(specs[k], ups, vars);
      }
      forall u, k | 0 <= k < |specs| ensures Shows(telemetry, (specs[k].metric, u), Series(parse, specs[k], u, h)) {
        if u != ups { assert Shows(old(telemetry), (specs[k].metric, u), Series(parse, specs[k], u, polls)); }
      }
    }

    ghost function Wanted(spec: Spec, vars: map<string, string>): Option<real> {
      Scaled(FirstUsable(parse, vars, spec.varNames), spec.scale)
    }

    method SetSeries(spec: Spec, ups: string, vars: map<string, string>)
      modifies this`telemetry
      ensures telemetry == WithSeries(old(telemetry), (spec.metric, ups), Wanted(spec, vars))
    {
      var v := FirstFloat(vars, spec.varNames);
      ghost var wanted := Scaled(v, spec.scale);
      if v.Some? {
        telemetry := telemetry[(spec.metric, ups) := Converted(v.value, spec.scale)];
      } else {
        telemetry := telemetry - {(spec.metric, ups)};
      }
      assert telemetry == WithSeries(old(telemetry), (spec.metric, ups), wanted);
    }

    method RecordSource(ups: string, s: SourceState)
      requires OneHotEverywhere()
      modifies this`upsSource
      ensures OneHotEverywhere()
      ensures upsSource == old(upsSource)[ups := HotGroup(SOURCE_STATES, SourceName(s))]
    {
      NamesAreStates();
      upsSource := RecordHot(upsSource, ups, SOURCE_STATES, SourceName(s));
    }

    method RecordLoad(load: string, d: Desired, requested: Request, a: ActualState, sh: ShedState, nutServer: bool)
      requires OneHotEverywhere()
      modifies this`loadDesired, this`loadRequested, this`loadActual, this`loadShed
      ensures OneHotEverywhere()
      ensures loadDesired == old(loadDesired)[load := HotGroup(DESIRED_STATES, DesiredName(d))]
      ensures loadRequested == old(loadRequested)[load := HotGroup(REQUEST_STATES, RequestName(requested))]
      ensures loadActual == old(loadActual)[load := HotGroup(ACTUAL_STATES, ActualName(a))]
      ensures loadShed == if nutServer then old(loadShed)[load := HotGroup(SHED_STATES, ShedName(sh))]
              else old(loadShed)
    {
      NamesAreStates();
      loadDesired := RecordHot(loadDesired, load, DESIRED_STATES, DesiredName(d));
      loadRequested := RecordHot(loadRequested, load, REQUEST_STATES, RequestName(requested));
      loadActual := RecordHot(loadActual, load, ACTUAL_STATES, ActualName(a));
      if nutServer {
        loadShed := RecordHot(loadShed, load, SHED_STATES, ShedName(sh));
      }
    }

    method RecordStartupGrace(active: bool)
      modifies this`graceActive
      ensures graceActive == B2F(active)
    {
      graceActive := 0.0;
      if active { graceActive := 1.0; }
    }

    method RecordAction(load: string, action: string, failed: bool)
      modifies this`actions, this`actionFails
      ensures actions == old(actions)[(load, action) := Counter(old(actions), load, action) + 1]
      ensures actionFails == if failed
                             then old(actionFails)[(load, action) := Counter(old(actionFails), load, action) + 1]
                             else old(actionFails)
    {
      actions := actions[(load, action) := Get(actions, (load, action), 0) + 1];
      if failed {
        actionFails := actionFails[(load, action) := Get(actionFails, (load, action), 0) + 1];
      }
    }
  }

  method TokenSet(status: string) returns (tokens: set<string>)
    ensures forall t :: t in tokens <==> t in Fields(status)
  {
    tokens := {};
    var fields := Fields(status);
    for k := 0 to |fields|
      invariant forall t :: t in tokens <==> t in fields[..k]
    {
      assert fields[..k + 1] == fields[..k] + [fields[k]];
      tokens := tokens + {fields[k]};
    }
    assert fields[..|fields|] == fields;
  }

  lemma SpecMetricsAreDistinct()
    ensures DistinctMetrics(TELEMETRY_SPECS)
  {
    var specs := TELEMETRY_SPECS;
    assert forall k :: 0 <= k < |specs| ==> |specs[k].metric| > 19;
    assert forall i, j :: 0 <= i < j < |specs| ==>
        |specs[i].metric| != |specs[j].metric| || specs[i].metric[19] != specs[j].metric[19];
  }
}
