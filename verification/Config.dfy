/** The configuration file's content, the check it must pass, and what the core derives from it. */
module Config {
  import opened Common
  import opened Control
  import opened PowerApi

  /** A local NUT driver; secretOptions name the environment variables of secret values. */
  datatype Driver = Driver(kind: string, port: string, options: map<string, string>, secretOptions: map<string, string>)

  /** One UPS; shedRuntime in nanoseconds. */
  datatype UPSSpec = UPSSpec(
    host: string, upsName: string, shedRuntime: int, shedChargePct: int, recoverChargePct: int, driver: Option<Driver>)

  datatype Wake = Wake(mac: string, broadcast: string)
  datatype Secondary = Secondary(user: string, passwordEnv: string)

  /** One load; cmcHost is for a chassis, the rest for a NUT server. */
  datatype LoadSpec = LoadSpec(
    kind: string, governedBy: seq<string>,
    cmcHost: Option<string>, wake: Option<Wake>, probeHost: Option<string>, secondary: Option<Secondary>)

  datatype PowerAPISpec = PowerAPISpec(listen: string, tokenEnv: string, loads: seq<string>, requestTTL: int)
  datatype LocalUpsd = LocalUpsd(listen: string, adminUser: string, adminPasswordEnv: string)

  datatype Configuration = Configuration(
    pollInterval: int, startupGrace: int, dryRun: bool,
    powerAPI: Option<PowerAPISpec>,
    localUpsd: LocalUpsd,
    upses: map<string, UPSSpec>,
    loads: map<string, LoadSpec>)

  const TYPE_CHASSIS: string := "chassis"
  const TYPE_NUT_SERVER: string := "nut-server"

  function ShedUpsName(load: string): string {
    "shed-" + load
  }

  // ---- what a valid configuration is ----

  predicate Filled(o: Option<string>) {
    o.Some? && o.value != ""
  }

  predicate ValidUps(u: UPSSpec) {
    u.host != "" && u.upsName != "" && u.shedRuntime > 0
    && (u.driver.Some? ==> u.driver.value.kind != "" && u.driver.value.port != "")
  }

  predicate ValidServer(l: LoadSpec) {
    l.wake.Some? && l.wake.value.mac != "" && l.wake.value.broadcast != ""
    && Filled(l.probeHost)
    && l.secondary.Some? && l.secondary.value.user != "" && l.secondary.value.passwordEnv != ""
  }

  predicate ValidLoad(c: Configuration, l: LoadSpec) {
    (l.kind == TYPE_CHASSIS || l.kind == TYPE_NUT_SERVER)
    && (l.kind == TYPE_CHASSIS ==> Filled(l.cmcHost))
    && (l.kind == TYPE_NUT_SERVER ==> ValidServer(l))
    && l.governedBy != [] && forall u :: u in l.governedBy ==> u in c.upses
  }

  predicate ValidApi(c: Configuration, a: PowerAPISpec) {
    a.listen != "" && a.tokenEnv != "" && a.requestTTL >= 0 && forall l :: l in a.loads ==> l in c.loads
  }

  predicate HasServer(c: Configuration) {
    exists l :: l in c.loads && c.loads[l].kind == TYPE_NUT_SERVER
  }

  predicate HasDriver(c: Configuration) {
    exists u :: u in c.upses && c.upses[u].driver.Some?
  }

  predicate Valid(c: Configuration) {
    c.pollInterval > 0 && c.upses != map[] && c.startupGrace >= 0
    && (c.powerAPI.Some? ==> ValidApi(c, c.powerAPI.value))
    && (forall u :: u in c.upses ==> ValidUps(c.upses[u]))
    && (forall l :: l in c.loads ==> ValidLoad(c, c.loads[l]))
    && (HasServer(c) || HasDriver(c) ==> c.localUpsd.listen != "")
    && (HasServer(c) ==> c.localUpsd.adminUser != "" && c.localUpsd.adminPasswordEnv != "")
  }

  // ---- the check ----

  datatype ConfigError =
    | BadPollInterval | NoUpses | NegativeGrace
    | ApiIncomplete | NegativeTTL | UnknownApiLoad(load: string)
    | UpsIncomplete(ups: string) | BadShedRuntime(ups: string) | DriverIncomplete(ups: string)
    | ChassisIncomplete(load: string) | ServerIncomplete(load: string) | UnknownType(load: string)
    | NotGoverned(load: string) | UnknownUps(load: string, ups: string)
    | NoListen | NoAdmin

  /** The fault an error names is there. */
  predicate Justified(c: Configuration, e: ConfigError) {
    match e
    case BadPollInterval => c.pollInterval <= 0
    case NoUpses => c.upses == map[]
    case NegativeGrace => c.startupGrace < 0
    case ApiIncomplete => c.powerAPI.Some? && (c.powerAPI.value.listen == "" || c.powerAPI.value.tokenEnv == "")
    case NegativeTTL => c.powerAPI.Some? && c.powerAPI.value.requestTTL < 0
    case UnknownApiLoad(l) => c.powerAPI.Some? && l in c.powerAPI.value.loads && l !in c.loads
    case UpsIncomplete(u) => u in c.upses && (c.upses[u].host == "" || c.upses[u].upsName == "")
    case BadShedRuntime(u) => u in c.upses && c.upses[u].shedRuntime <= 0
    case DriverIncomplete(u) =>
      u in c.upses && c.upses[u].driver.Some?
          && (c.upses[u].driver.value.kind == "" || c.upses[u].driver.value.port == "")
    case ChassisIncomplete(l) => l in c.loads && c.loads[l].kind == TYPE_CHASSIS && !Filled(c.loads[l].cmcHost)
    case ServerIncomplete(l) => l in c.loads && c.loads[l].kind == TYPE_NUT_SERVER && !ValidServer(c.loads[l])
    case UnknownType(l) => l in c.loads && c.loads[l].kind != TYPE_CHASSIS && c.loads[l].kind != TYPE_NUT_SERVER
    case NotGoverned(l) => l in c.loads && c.loads[l].governedBy == []
    case UnknownUps(l, u) => l in c.loads && u in c.loads[l].governedBy && u !in c.upses
    case NoListen => (HasServer(c) || HasDriver(c)) && c.localUpsd.listen == ""
    case NoAdmin => HasServer(c) && (c.localUpsd.adminUser == "" || c.localUpsd.adminPasswordEnv == "")
  }

  /** A configuration is valid exactly when none of the faults is there. */
  lemma ValidMeansFaultless(c: Configuration)
    ensures Valid(c) <==> forall e :: !Justified(c, e)
  {
    if Valid(c) {
      forall e ensures !Justified(c, e) { ValidHasNoFault(c, e); }
    } else {
      var e := SomeFault(c);
      assert Justified(c, e);
    }
  }

  lemma ValidHasNoFault(c: Configuration, e: ConfigError)
    requires Valid(c)
    ensures !Justified(c, e)
  {
    match e
    case UpsIncomplete(u) => assert u in c.upses ==> ValidUps(c.upses[u]);
    case BadShedRuntime(u) => assert u in c.upses ==> ValidUps(c.upses[u]);
    case DriverIncomplete(u) => assert u in c.upses ==> ValidUps(c.upses[u]);
    case ChassisIncomplete(l) => assert l in c.loads ==> ValidLoad(c, c.loads[l]);
    case ServerIncomplete(l) => assert l in c.loads ==> ValidLoad(c, c.loads[l]);
    case UnknownType(l) => assert l in c.loads ==> ValidLoad(c, c.loads[l]);
    case NotGoverned(l) => assert l in c.loads ==> ValidLoad(c, c.loads[l]);
    case UnknownUps(l, u) => assert l in c.loads ==> ValidLoad(c, c.loads[l]);
    case _ =>
  }

  lemma SomeFault(c: Configuration) returns (e: ConfigError)
    requires !Valid(c)
    ensures Justified(c, e)
  {
    if c.pollInterval <= 0 { return BadPollInterval; }
    if c.upses == map[] { return NoUpses; }
    if c.startupGrace < 0 { return NegativeGrace; }
    if c.powerAPI.Some? && !ValidApi(c, c.powerAPI.value) {
      var a := c.powerAPI.value;
      if a.listen == "" || a.tokenEnv == "" { return ApiIncomplete; }
      if a.requestTTL < 0 { return NegativeTTL; }
      var l :| l in a.loads && l !in c.loads;
      return UnknownApiLoad(l);
    }
    if u :| u in c.upses && !ValidUps(c.upses[u]) {
      return if c.upses[u].host == "" || c.upses[u].upsName == "" then UpsIncomplete(u)
        else if c.upses[u].shedRuntime <= 0 then BadShedRuntime(u) else DriverIncomplete(u);
    }
    if l :| l in c.loads && !ValidLoad(c, c.loads[l]) {
      e := LoadFault(c, l);
      return;
    }
    e := if c.localUpsd.listen == "" then NoListen else NoAdmin;
  }

  lemma LoadFault(c: Configuration, l: string) returns (e: ConfigError)
    requires l in c.loads && !ValidLoad(c, c.loads[l])
    ensures Justified(c, e)
  {
    var spec := c.loads[l];
    if spec.kind != TYPE_CHASSIS && spec.kind != TYPE_NUT_SERVER { return UnknownType(l); }
    if spec.kind == TYPE_CHASSIS && !Filled(spec.cmcHost) { return ChassisIncomplete(l); }
    if spec.kind == TYPE_NUT_SERVER && !ValidServer(spec) { return ServerIncomplete(l); }
    if spec.governedBy == [] { return NotGoverned(l); }
    var u :| u in spec.governedBy && u !in c.upses;
    e := UnknownUps(l, u);
  }

  method Validate(c: Configuration) returns (err: Option<ConfigError>)
    ensures err.None? <==> Valid(c)
    ensures err.Some? ==> Justified(c, err.value)
  {
    if c.pollInterval <= 0 { return Some(BadPollInterval); }
    if |c.upses| == 0 { return Some(NoUpses); }
    if c.startupGrace < 0 { return Some(NegativeGrace); }
    if c.powerAPI.Some? {
      err := ValidateApi(c, c.powerAPI.value);
      if err.Some? { return; }
    }
    err := ValidateUpses(c);
    if err.Some? { return; }
    var nutServers;
    err, nutServers := ValidateLoads(c);
    if err.Some? { return; }
    var hasDriver := HasLocalDriver(c);
    if (nutServers > 0 || hasDriver) && c.localUpsd.listen == "" { return Some(NoListen); }
    if nutServers > 0 && (c.localUpsd.adminUser == "" || c.localUpsd.adminPasswordEnv == "") { return Some(NoAdmin); }
    err := None;
  }

  method ValidateUpses(c: Configuration) returns (err: Option<ConfigError>)
    ensures err.None? <==> forall u :: u in c.upses ==> ValidUps(c.upses[u])
    ensures err.Some? ==> Justified(c, err.value)
  {
    var rest := c.upses.Keys;
    while rest != {}
      invariant rest <= c.upses.Keys
      invariant forall u :: u in c.upses.Keys - rest ==> ValidUps(c.upses[u])
      decreases rest
    {
      var name :| name in rest;
      err := ValidateUps(c, name, c.upses[name]);
      if err.Some? { return; }
      rest := rest - {name};
    }
    err := None;
  }

  /** Checks every load and counts the NUT servers. */
  method ValidateLoads(c: Configuration) returns (err: Option<ConfigError>, nutServers: nat)
    ensures err.None? <==> forall l :: l in c.loads ==> ValidLoad(c, c.loads[l])
    ensures err.None? ==> (nutServers > 0 <==> HasServer(c))
    ensures err.Some? ==> Justified(c, err.value)
  {
    nutServers := 0;
    var left := c.loads.Keys;
    while left != {}
      invariant left <= c.loads.Keys
      invariant forall l :: l in c.loads.Keys - left ==> ValidLoad(c, c.loads[l])
      invariant nutServers > 0 <==> exists l :: l in c.loads.Keys - left && c.loads[l].kind == TYPE_NUT_SERVER
      decreases left
    {
      var name :| name in left;
      err := ValidateLoad(c, name, c.loads[name]);
      if err.Some? { return; }
      if c.loads[name].kind == TYPE_NUT_SERVER { nutServers := nutServers + 1; }
      left := left - {name};
    }
    err := None;
  }

  method HasLocalDriver(c: Configuration) returns (found: bool)
    ensures found <==> HasDriver(c)
  {
    var rest := c.upses.Keys;
    while rest != {}
      invariant rest <= c.upses.Keys
      invariant forall u :: u in c.upses.Keys - rest ==> c.upses[u].driver.None?
      decreases rest
    {
      var name :| name in rest;
      if c.upses[name].driver.Some? { return true; }
      rest := rest - {name};
    }
    found := false;
  }

  method ValidateApi(c: Configuration, a: PowerAPISpec) returns (err: Option<ConfigError>)
    requires c.powerAPI == Some(a)
    ensures err.None? <==> ValidApi(c, a)
    ensures err.Some? ==> Justified(c, err.value)
  {
    if a.listen == "" || a.tokenEnv == "" { return Some(ApiIncomplete); }
    if a.requestTTL < 0 { return Some(NegativeTTL); }
    for k := 0 to |a.loads|
      invariant forall j :: 0 <= j < k ==> a.loads[j] in c.loads
    {
      if a.loads[k] !in c.loads { return Some(UnknownApiLoad(a.loads[k])); }
    }
    err := None;
  }

  method ValidateUps(c: Configuration, name: string, u: UPSSpec) returns (err: Option<ConfigError>)
    requires name in c.upses && c.upses[name] == u
    ensures err.None? <==> ValidUps(u)
    ensures err.Some? ==> Justified(c, err.value)
  {
    if u.host == "" || u.upsName == "" { return Some(UpsIncomplete(name)); }
    if u.shedRuntime <= 0 { return Some(BadShedRuntime(name)); }
    if u.driver.Some? && (u.driver.value.kind == "" || u.driver.value.port == "") {
      return Some(DriverIncomplete(name));
    }
    err := None;
  }

  method ValidateLoad(c: Configuration, name: string, l: LoadSpec) returns (err: Option<ConfigError>)
    requires name in c.loads && c.loads[name] == l
    ensures err.None? <==> ValidLoad(c, l)
    ensures err.Some? ==> Justified(c, err.value)
  {
    if l.kind == TYPE_CHASSIS {
      if !Filled(l.cmcHost) { return Some(ChassisIncomplete(name)); }
    } else if l.kind == TYPE_NUT_SERVER {
      if l.wake.None? || l.wake.value.mac == "" || l.wake.value.broadcast == "" { return Some(ServerIncomplete(name)); }
      if !Filled(l.probeHost) { return Some(ServerIncomplete(name)); }
      if l.secondary.None? || l.secondary.value.user == "" || l.secondary.value.passwordEnv == "" {
        return Some(ServerIncomplete(name));
      }
    } else {
      return Some(UnknownType(name));
    }
    if |l.governedBy| == 0 { return Some(NotGoverned(name)); }
    for k := 0 to |l.governedBy|
      invariant forall j :: 0 <= j < k ==> l.governedBy[j] in c.upses
    {
      if l.governedBy[k] !in c.upses { return Some(UnknownUps(name, l.governedBy[k])); }
    }
    err := None;
  }

  // ---- what the core sees ----

  function CoreUps(u: UPSSpec): UPSConfig {
    UPSConfig(WholeSeconds(u.shedRuntime), u.shedChargePct, u.recoverChargePct)
  }

  function CoreLoad(l: LoadSpec): LoadConfig {
    LoadConfig(if l.kind == TYPE_NUT_SERVER then NutServer else Chassis, l.governedBy)
  }

  function CoreUpses(c: Configuration): map<string, UPSConfig> {
    map u | u in c.upses :: CoreUps(c.upses[u])
  }

  function CoreLoads(c: Configuration): map<string, LoadConfig> {
    map l | l in c.loads :: CoreLoad(c.loads[l])
  }

  method ControlUPS(c: Configuration) returns (out: map<string, UPSConfig>)
    ensures out == CoreUpses(c)
    ensures out.Keys == c.upses.Keys
    ensures forall u :: u in out ==>
              out[u].shedRuntime == WholeSeconds(c.upses[u].shedRuntime)
              && out[u].shedCharge == c.upses[u].shedChargePct
              && out[u].recoverCharge == c.upses[u].recoverChargePct
  {
    out := map[];
    var rest := c.upses.Keys;
    while rest != {}
      invariant rest <= c.upses.Keys && out.Keys == c.upses.Keys - rest
      invariant forall u :: u in out ==> out[u] == CoreUps(c.upses[u])
      decreases rest
    {
      var name :| name in rest;
      var u := c.upses[name];
      out := out[name := UPSConfig(WholeSeconds(u.shedRuntime), u.shedChargePct, u.recoverChargePct)];
      rest := rest - {name};
    }
  }

  method ControlLoads(c: Configuration) returns (out: map<string, LoadConfig>)
    ensures out == CoreLoads(c)
    ensures out.Keys == c.loads.Keys
    ensures forall l :: l in out ==>
              out[l].governedBy == c.loads[l].governedBy
              && (out[l].loadType == NutServer <==> c.loads[l].kind == "nut-server")
  {
    out := map[];
    var rest := c.loads.Keys;
    while rest != {}
      invariant rest <= c.loads.Keys && out.Keys == c.loads.Keys - rest
      invariant forall l :: l in out ==> out[l] == CoreLoad(c.loads[l])
      decreases rest
    {
      var name :| name in rest;
      var lt := Chassis;
      if c.loads[name].kind == TYPE_NUT_SERVER { lt := NutServer; }
      out := out[name := LoadConfig(lt, c.loads[name].governedBy)];
      rest := rest - {name};
    }
  }
}
