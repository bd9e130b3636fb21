/** The NUT server's own configuration files, generated from the controller's configuration. */
module NutConf {
  import opened Common
  import opened Config
  import opened Ordering

  /** One line of a section: a setting, or a bare flag. */
  datatype Directive = Setting(key: string, value: string) | Flag(words: string)

  datatype Section = Section(name: string, directives: seq<Directive>)

  datatype RenderError =
    | EmptySecret(env: string)
    | NewlineInSecret(env: string)
    | BadListen(listen: string)

  datatype Result<+T> = Ok(value: T) | Err(error: RenderError)

  /** The environment, as some total function; an unset variable is empty. */
  type Getenv = string -> string

  // ---- the text of a list of sections ----

  function DirectiveLine(d: Directive): string {
    match d
    case Setting(key, value) => "    " + (key + (" = " + value))
    case Flag(words) => "    " + words
  }

  function DirectivesText(ds: seq<Directive>): string {
    if ds == [] then "" else DirectivesText(ds[..|ds| - 1]) + (DirectiveLine(ds[|ds| - 1]) + "\n")
  }

  function HeaderLine(name: string): string {
    "[" + name + "]"
  }

  function SectionText(s: Section): string {
    HeaderLine(s.name) + "\n" + (DirectivesText(s.directives) + "\n")
  }

  function SectionsText(ss: seq<Section>): string {
    if ss == [] then "" else SectionsText(ss[..|ss| - 1]) + SectionText(ss[|ss| - 1])
  }

  /** One line of a dummy-ups state file. */
  function DevLine(name: string, value: string): string {
    name + ":" + (" " + value) + "\n"
  }

  function DevText(lines: seq<(string, string)>): string {
    if lines == [] then "" else DevLine(lines[0].0, lines[0].1) + DevText(lines[1..])
  }

  const SHED_IDENTITY: seq<(string, string)> :=
    [("ups.mfr", "nut-dog"), ("ups.model", "shed-signal"), ("battery.charge", "100"), ("battery.runtime", "9999")]

  /** The healthy state a shed signal starts from. */
  const SHED_DEV: string := DevLine("ups.status", "OL") + DevText(SHED_IDENTITY)

  // ---- which sections a configuration calls for ----

  predicate Usable(secret: string) {
    secret != "" && '\r' !in secret && '\n' !in secret
  }

  predicate IsLocal(c: Configuration, u: string) {
    u in c.upses && c.upses[u].driver.Some?
  }

  predicate IsServer(c: Configuration, l: string) {
    l in c.loads && c.loads[l].kind == TYPE_NUT_SERVER
  }

  function LocalSet(c: Configuration): set<string> {
    set u | u in c.upses && IsLocal(c, u)
  }

  function ServerSet(c: Configuration): set<string> {
    set l | l in c.loads && IsServer(c, l)
  }

  ghost function LocalUpses(c: Configuration): seq<string> {
    SortedKeys(LocalSet(c))
  }

  ghost function NutServers(c: Configuration): seq<string> {
    SortedKeys(ServerSet(c))
  }

  /** The options of a driver, one setting a name. */
  function Options(options: map<string, string>, names: seq<string>): seq<Directive>
    requires forall k :: k in names ==> k in options
  {
    if names == [] then []
    else
      var k := names[|names| - 1];
      Options(options, names[..|names| - 1]) + [Setting(k, options[k])]
  }

  /** The values of secret options, fetched. */
  function Fetched(getenv: Getenv, secrets: map<string, string>): map<string, string> {
    map k | k in secrets :: getenv(secrets[k])
  }

  ghost function DriverSection(getenv: Getenv, upsName: string, d: Driver): Section {
    Section(upsName,
            [Setting("driver", d.kind), Setting("port", d.port)]
            + Options(d.options, SortedKeys(d.options.Keys))
            + Options(Fetched(getenv, d.secretOptions), SortedKeys(d.secretOptions.Keys)))
  }

  ghost function DriverSections(c: Configuration, getenv: Getenv, names: seq<string>): (r: seq<Section>)
    requires forall n :: n in names ==> IsLocal(c, n)
    ensures |r| == |names|
  {
    if names == [] then []
    else
      var n := names[|names| - 1];
      assert n in names && IsLocal(c, n);
      var u := c.upses[n];
      DriverSections(c, getenv, names[..|names| - 1]) + [DriverSection(getenv, u.upsName, u.driver.value)]
  }

  function DevFile(load: string): string {
    ShedUpsName(load) + ".dev"
  }

  function DummySection(load: string): Section {
    Section(ShedUpsName(load), [Setting("driver", "dummy-ups"), Setting("port", DevFile(load))])
  }

  function DummySections(servers: seq<string>): (r: seq<Section>)
    ensures |r| == |servers|
  {
    if servers == [] then []
    else DummySections(servers[..|servers| - 1]) + [DummySection(servers[|servers| - 1])]
  }

  /** ups.conf: every locally driven UPS, then every shed signal. */
  ghost function UpsSections(c: Configuration, getenv: Getenv): seq<Section> {
    DriverSections(c, getenv, LocalUpses(c)) + DummySections(NutServers(c))
  }

  function AdminSection(user: string, password: string): Section {
    Section(user, [Setting("password", password), Setting("actions", "SET"), Setting("instcmds", "all")])
  }

  function Login(user: string, password: string): Section {
    Section(user, [Setting("password", password), Flag("upsmon secondary")])
  }

  function LoginSection(s: Secondary, getenv: Getenv): Section {
    Login(s.user, getenv(s.passwordEnv))
  }

  /** Every NUT server has its login; a checked configuration does. */
  ghost predicate HaveLogins(c: Configuration) {
    forall l :: IsServer(c, l) ==> c.loads[l].secondary.Some?
  }

  function LoginsOf(c: Configuration, servers: seq<string>): seq<Secondary>
    requires forall l :: l in servers ==> l in c.loads && c.loads[l].secondary.Some?
  {
    seq(|servers|, i requires 0 <= i < |servers| => assert servers[i] in servers; c.loads[servers[i]].secondary.value)
  }

  function LoginSections(logins: seq<Secondary>, getenv: Getenv): (r: seq<Section>)
    ensures |r| == |logins|
  {
    if logins == [] then []
    else LoginSections(logins[..|logins| - 1], getenv) + [LoginSection(logins[|logins| - 1], getenv)]
  }

  ghost function AdminSections(u: LocalUpsd, getenv: Getenv): seq<Section> {
    if u.adminUser == "" then [] else [AdminSection(u.adminUser, getenv(u.adminPasswordEnv))]
  }

  /** upsd.users: the shed writer, then every server's login. */
  ghost function UserSections(c: Configuration, getenv: Getenv): seq<Section>
    requires HaveLogins(c)
  {
    AdminSections(c.localUpsd, getenv) + LoginSections(LoginsOf(c, NutServers(c)), getenv)
  }

  // ---- the sections, written out ----

  /** Lines, each with its end. */
  function Lines(ls: seq<string>): string {
    if ls == [] then "" else ls[0] + "\n" + Lines(ls[1..])
  }

  lemma LinesStep(first: string, rest: seq<string>)
    ensures Lines([first] + rest) == first + "\n" + Lines(rest)
  {
    assert ([first] + rest)[1..] == rest;
  }

  lemma TwoLines(a: string, b: string)
    ensures Lines([a, b]) == a + "\n" + (b + "\n")
  {
    assert [a, b] == [a] + [b] && [b] == [b] + [];
    LinesStep(a, [b]);
    LinesStep(b, []);
    assert b + "\n" + "" == b + "\n";
  }

  lemma FourLines(a: string, b: string, c: string, d: string)
    ensures Lines([a, b, c, d]) == a + "\n" + (b + "\n" + (c + "\n" + (d + "\n")))
  {
    assert [a, b, c, d] == [a] + [b, c, d] && [b, c, d] == [b] + [c, d];
    LinesStep(a, [b, c, d]);
    LinesStep(b, [c, d]);
    TwoLines(c, d);
  }

  lemma Regroup(a: string, b: string, c: string, d: string)
    ensures a + ((b + c) + d) == a + (b + (c + d))
  {
    assert (b + c) + d == b + (c + d);
  }

  lemma SettingText(key: string, value: string)
    ensures DirectiveLine(Setting(key, value)) == ("    " + key + " = ") + value
  {
    assert "    " + (key + (" = " + value)) == ("    " + key + " = ") + value;
  }

  lemma Keys()
    ensures "    " + "driver" + " = " == "    driver = " && "    " + "port" + " = " == "    port = "
    ensures "    " + "password" + " = " == "    password = "
  {
  }

  lemma DummyDriverLine()
    ensures DirectiveLine(Setting("driver", "dummy-ups")) == "    driver = dummy-ups"
  {
    SettingText("driver", "dummy-ups");
    Keys();
  }

  lemma ActionsLine()
    ensures DirectiveLine(Setting("actions", "SET")) == "    actions = SET"
  {
    SettingText("actions", "SET");
    assert "    " + "actions" + " = " == "    actions = ";
  }

  lemma InstcmdsLine()
    ensures DirectiveLine(Setting("instcmds", "all")) == "    instcmds = all"
  {
    SettingText("instcmds", "all");
    assert "    " + "instcmds" + " = " == "    instcmds = ";
  }

  /** A shed signal's section, line by line. */
  lemma DummyText(load: string)
    ensures SectionText(DummySection(load))
            == Lines(["[" + ("shed-" + load) + "]",
                      "    driver = dummy-ups",
                      "    port = " + ("shed-" + load + ".dev"),
                      ""])
  {
    Keys();
    DummyDriverLine();
    SettingText("port", DevFile(load));
    TwoDirectiveLines(ShedUpsName(load), Setting("driver", "dummy-ups"), Setting("port", DevFile(load)));
  }

  /** The state file, line by line. */
  lemma ShedDevText()
    ensures SHED_DEV
            == Lines(["ups.status" + ": " + "OL", "ups.mfr" + ": " + "nut-dog", "ups.model" + ": " + "shed-signal",
                      "battery.charge" + ": " + "100", "battery.runtime" + ": " + "9999"])
  {
    var lines := [("ups.status", "OL"), ("ups.mfr", "nut-dog"), ("ups.model", "shed-signal"),
                  ("battery.charge", "100"), ("battery.runtime", "9999")];
    assert lines[1..] == SHED_IDENTITY;
    DevTextLines(lines);
    assert seq(|lines|, i requires 0 <= i < |lines| => lines[i].0 + ": " + lines[i].1)
        == ["ups.status" + ": " + "OL", "ups.mfr" + ": " + "nut-dog", "ups.model" + ": " + "shed-signal",
            "battery.charge" + ": " + "100", "battery.runtime" + ": " + "9999"];
  }

  lemma {:induction false} DevTextLines(lines: seq<(string, string)>)
    ensures DevText(lines) == Lines(seq(|lines|, i requires 0 <= i < |lines| => lines[i].0 + ": " + lines[i].1))
  {
    if lines != [] {
      var name, value := lines[0].0, lines[0].1;
      var rest := seq(|lines| - 1, i requires 0 <= i < |lines| - 1 => lines[1..][i].0 + ": " + lines[1..][i].1);
      DevTextLines(lines[1..]);
      assert seq(|lines|, i requires 0 <= i < |lines| => lines[i].0 + ": " + lines[i].1)
          == [name + ": " + value] + rest;
      LinesStep(name + ": " + value, rest);
      assert name + ":" + (" " + value) == name + ": " + value;
    }
  }

  /** A server's login, line by line. */
  lemma LoginText(s: Secondary, getenv: Getenv)
    ensures SectionText(LoginSection(s, getenv))
            == Lines(["[" + s.user + "]", "    password = " + getenv(s.passwordEnv), "    upsmon secondary", ""])
  {
    Keys();
    assert "    " + "upsmon secondary" == "    upsmon secondary";
    SettingText("password", getenv(s.passwordEnv));
    TwoDirectiveLines(s.user, Setting("password", getenv(s.passwordEnv)), Flag("upsmon secondary"));
  }

  lemma TwoDirectiveLines(name: string, a: Directive, b: Directive)
    ensures SectionText(Section(name, [a, b])) == Lines(["[" + name + "]", DirectiveLine(a), DirectiveLine(b), ""])
  {
    TwoDirectives(a, b);
    FourLines("[" + name + "]", DirectiveLine(a), DirectiveLine(b), "");
    Regroup(HeaderLine(name) + "\n", DirectiveLine(a) + "\n", DirectiveLine(b) + "\n", "\n");
    assert "" + "\n" == "\n";
  }

  /** The admin's section, line by line. */
  lemma AdminText(user: string, pw: string)
    ensures SectionText(AdminSection(user, pw))
            == Lines(["[" + user + "]", "    password = " + pw, "    actions = SET", "    instcmds = all", ""])
  {
    Keys();
    ActionsLine();
    InstcmdsLine();
    SettingText("password", pw);
    ThreeDirectiveLines(user, Setting("password", pw), Setting("actions", "SET"), Setting("instcmds", "all"));
  }

  lemma ThreeDirectiveLines(name: string, a: Directive, b: Directive, c: Directive)
    ensures SectionText(Section(name, [a, b, c]))
            == Lines(["[" + name + "]", DirectiveLine(a), DirectiveLine(b), DirectiveLine(c), ""])
  {
    var la, lb, lc := DirectiveLine(a) + "\n", DirectiveLine(b) + "\n", DirectiveLine(c) + "\n";
    TwoDirectives(a, b);
    assert [a, b, c] == [a, b] + [c];
    DirectiveAppends([a, b], c);
    var ls := [DirectiveLine(a), DirectiveLine(b), DirectiveLine(c), ""];
    assert ["[" + name + "]", DirectiveLine(a), DirectiveLine(b), DirectiveLine(c), ""] == ["[" + name + "]"] + ls;
    LinesStep("[" + name + "]", ls);
    FourLines(DirectiveLine(a), DirectiveLine(b), DirectiveLine(c), "");
    assert "" + "\n" == "\n";
    Associates(la + lb, lc, "\n");
    Associates(la, lb, lc + "\n");
  }

  /** A driver's section opens with the name upsd serves it by, its driver and its port. */
  lemma DriverText(getenv: Getenv, upsName: string, d: Driver)
    ensures Lines(["[" + upsName + "]", "    driver = " + d.kind, "    port = " + d.port])
            <= SectionText(DriverSection(getenv, upsName, d))
  {
    var first, second := Setting("driver", d.kind), Setting("port", d.port);
    var rest := DriverSectionSplits(getenv, upsName, d);
    Keys();
    SettingText("driver", d.kind);
    SettingText("port", d.port);
    HeadLines(upsName, first, second);
    OpensWith(upsName, [first, second], rest);
  }

  lemma DriverSectionSplits(getenv: Getenv, upsName: string, d: Driver) returns (rest: seq<Directive>)
    ensures DriverSection(getenv, upsName, d)
            == Section(upsName, [Setting("driver", d.kind), Setting("port", d.port)] + rest)
  {
    var plain := Options(d.options, SortedKeys(d.options.Keys));
    var secret := Options(Fetched(getenv, d.secretOptions), SortedKeys(d.secretOptions.Keys));
    rest := plain + secret;
    Associates([Setting("driver", d.kind), Setting("port", d.port)], plain, secret);
  }

  lemma HeadLines(name: string, a: Directive, b: Directive)
    ensures Lines(["[" + name + "]", DirectiveLine(a), DirectiveLine(b)])
            == HeaderLine(name) + "\n" + DirectivesText([a, b])
  {
    var ls := [DirectiveLine(a), DirectiveLine(b)];
    assert ["[" + name + "]", DirectiveLine(a), DirectiveLine(b)] == ["[" + name + "]"] + ls;
    LinesStep("[" + name + "]", ls);
    TwoLines(DirectiveLine(a), DirectiveLine(b));
    TwoDirectives(a, b);
  }

  lemma OpensWith(name: string, front: seq<Directive>, back: seq<Directive>)
    ensures HeaderLine(name) + "\n" + DirectivesText(front) <= SectionText(Section(name, front + back))
  {
    DirectivesJoin(front, back);
    var head, text, more := HeaderLine(name) + "\n", DirectivesText(front), DirectivesText(back);
    Associates(text, more, "\n");
    Associates(head, text, more + "\n");
  }

  lemma {:induction false} DirectivesJoin(front: seq<Directive>, back: seq<Directive>)
    ensures DirectivesText(front + back) == DirectivesText(front) + DirectivesText(back)
  {
    if back == [] {
      assert front + back == front && DirectivesText(front) + "" == DirectivesText(front);
    } else {
      var init, d := back[..|back| - 1], back[|back| - 1];
      assert front + back == (front + init) + [d] && back == init + [d];
      DirectivesJoin(front, init);
      JoinFurther(front, init, d);
    }
  }

  lemma JoinFurther(front: seq<Directive>, init: seq<Directive>, d: Directive)
    requires DirectivesText(front + init) == DirectivesText(front) + DirectivesText(init)
    ensures DirectivesText((front + init) + [d]) == DirectivesText(front) + DirectivesText(init + [d])
  {
    DirectiveAppends(front + init, d);
    DirectiveAppends(init, d);
    Associates(DirectivesText(front), DirectivesText(init), DirectiveLine(d) + "\n");
  }

  lemma Associates<T>(a: seq<T>, b: seq<T>, c: seq<T>)
    ensures (a + b) + c == a + (b + c)
  {
  }

  // ---- when rendering succeeds ----

  ghost predicate DriverResolves(d: Driver, getenv: Getenv) {
    forall k :: k in d.secretOptions ==> Usable(getenv(d.secretOptions[k]))
  }

  ghost predicate DriversResolve(c: Configuration, getenv: Getenv) {
    forall u :: u in c.upses ==> UpsResolves(c.upses[u], getenv)
  }

  ghost predicate LoginsResolve(c: Configuration, getenv: Getenv)
    requires HaveLogins(c)
  {
    (c.localUpsd.adminUser != "" ==> Usable(getenv(c.localUpsd.adminPasswordEnv)))
    && forall l :: IsServer(c, l) ==>
         Usable(getenv(c.loads[l].secondary.value.passwordEnv))
  }

  // ---- rendering ----

  /** The error names an environment variable that is empty, or breaks a line, respectively. */
  predicate IsSecretFault(getenv: Getenv, e: RenderError) {
    match e
    case EmptySecret(env) => getenv(env) == ""
    case NewlineInSecret(env) => '\r' in getenv(env) || '\n' in getenv(env)
    case BadListen(_) => false
  }

  /** Some local driver's option is kept in this variable. */
  ghost predicate IsDriverSecret(c: Configuration, env: string) {
    exists u :: IsLocal(c, u) && env in c.upses[u].driver.value.secretOptions.Values
  }

  /** The password of the named admin, or of some server's login, is kept in this variable. */
  ghost predicate IsUserSecret(c: Configuration, env: string)
    requires HaveLogins(c)
  {
    (c.localUpsd.adminUser != "" && env == c.localUpsd.adminPasswordEnv)
    || exists l :: IsServer(c, l) && env == c.loads[l].secondary.value.passwordEnv
  }

  /** A secret that could corrupt the file is refused. */
  method ResolveSecret(getenv: Getenv, env: string) returns (r: Result<string>)
    ensures r.Ok? <==> Usable(getenv(env))
    ensures r.Ok? ==> r.value == getenv(env)
    ensures r.Err? ==> IsSecretFault(getenv, r.error) && r.error.env == env
    ensures r.Ok? <==> getenv(env) != "" && '\r' !in getenv(env) && '\n' !in getenv(env)
    ensures r.Err? ==> r.error == if getenv(env) == "" then EmptySecret(env) else NewlineInSecret(env)
  {
    var v := getenv(env);
    if v == "" { return Err(EmptySecret(env)); }
    if '\r' in v || '\n' in v { return Err(NewlineInSecret(env)); }
    r := Ok(v);
  }

  method ServerNames(c: Configuration) returns (names: seq<string>)
    ensures names == NutServers(c)
  {
    var servers := ServerSet(c);
    names := CollectSortedKeys(servers);
  }

  lemma OptionAppends(done: seq<Directive>, options: map<string, string>, names: seq<string>, i: nat)
    requires (forall k :: k in names ==> k in options) && i < |names|
    ensures names[i] in options
    ensures DirectivesText(done + Options(options, names[..i + 1]))
            == DirectivesText(done + Options(options, names[..i]))
               + (DirectiveLine(Setting(names[i], options[names[i]])) + "\n")
  {
    var d := Setting(names[i], options[names[i]]);
    assert names[..i + 1][..i] == names[..i];
    assert done + Options(options, names[..i + 1]) == (done + Options(options, names[..i])) + [d];
    DirectiveAppends(done + Options(options, names[..i]), d);
  }

  /** Writes settings in name order behind what is already there. */
  method WriteOptions(b: string, ghost done: seq<Directive>, options: map<string, string>) returns (out: string)
    requires b == DirectivesText(done)
    ensures out == DirectivesText(done + Options(options, SortedKeys(options.Keys)))
  {
    out := b;
    var names := CollectSortedKeys(options.Keys);
    assert done + [] == done;
    for i := 0 to |names|
      invariant out == DirectivesText(done + Options(options, names[..i]))
    {
      OptionAppends(done, options, names, i);
      out := out + (DirectiveLine(Setting(names[i], options[names[i]])) + "\n");
    }
    assert names[..|names|] == names;
  }

  /** The same for secret options; the first unusable secret stops the rendering. */
  method WriteSecrets(b: string, ghost done: seq<Directive>, getenv: Getenv, secrets: map<string, string>)
    returns (r: Result<string>)
    requires b == DirectivesText(done)
    ensures r.Ok? <==> forall k :: k in secrets ==> Usable(getenv(secrets[k]))
    ensures r.Err? ==> IsSecretFault(getenv, r.error) && r.error.env in secrets.Values
    ensures r.Ok? ==> r.value == DirectivesText(done + Options(Fetched(getenv, secrets), SortedKeys(secrets.Keys)))
  {
    var out := b;
    var names := CollectSortedKeys(secrets.Keys);
    ghost var fetched := Fetched(getenv, secrets);
    assert done + [] == done;
    for i := 0 to |names|
      invariant forall j :: 0 <= j < i ==> Usable(getenv(secrets[names[j]]))
      invariant out == DirectivesText(done + Options(fetched, names[..i]))
    {
      assert names[i] in names;
      var val := ResolveSecret(getenv, secrets[names[i]]);
      if val.Err? { return Err(val.error); }
      OptionAppends(done, fetched, names, i);
      out := out + (DirectiveLine(Setting(names[i], val.value)) + "\n");
    }
    assert names[..|names|] == names;
    r := Ok(out);
  }

  /** One locally driven UPS. */
  method WriteDriver(getenv: Getenv, upsName: string, d: Driver) returns (r: Result<string>)
    ensures r.Ok? <==> DriverResolves(d, getenv)
    ensures r.Err? ==> IsSecretFault(getenv, r.error) && r.error.env in d.secretOptions.Values
    ensures r.Ok? ==> r.value == SectionText(DriverSection(getenv, upsName, d))
  {
    ghost var first, second := Setting("driver", d.kind), Setting("port", d.port);
    var b := DirectiveLine(Setting("driver", d.kind)) + "\n" + (DirectiveLine(Setting("port", d.port)) + "\n");
    TwoDirectives(first, second);
    b := WriteOptions(b, [first, second], d.options);
    ghost var plain := [first, second] + Options(d.options, SortedKeys(d.options.Keys));
    r := WriteSecrets(b, plain, getenv, d.secretOptions);
    if r.Ok? {
      r := Ok(HeaderLine(upsName) + "\n" + (r.value + "\n"));
    }
  }

  lemma TwoDirectives(a: Directive, b: Directive)
    ensures DirectivesText([a, b]) == DirectiveLine(a) + "\n" + (DirectiveLine(b) + "\n")
  {
    assert [a, b] == [a] + [b] && [a] == [] + [a];
    DirectiveAppends([], a);
    DirectiveAppends([a], b);
  }

  /** The locally driven ones among these UPSes. */
  function Locals(c: Configuration, names: seq<string>): (r: seq<string>)
    requires forall n :: n in names ==> n in c.upses
    ensures forall n :: n in r ==> IsLocal(c, n)
  {
    if names == [] then []
    else
      var n := names[|names| - 1];
      Locals(c, names[..|names| - 1]) + (if c.upses[n].driver.Some? then [n] else [])
  }

  lemma SortedAppends(s: seq<string>, x: string)
    requires StrictlySorted(s) && forall y :: y in s ==> Less(y, x)
    ensures StrictlySorted(s + [x])
  {
  }

  lemma {:induction false} LocalsOf(c: Configuration, names: seq<string>)
    requires (forall n :: n in names ==> n in c.upses) && StrictlySorted(names)
    ensures StrictlySorted(Locals(c, names))
    ensures forall n :: n in Locals(c, names) <==> n in names && c.upses[n].driver.Some?
  {
    if names != [] {
      var front, n := names[..|names| - 1], names[|names| - 1];
      assert names == front + [n];
      LocalsOf(c, front);
      forall y | y in front ensures Less(y, n) {
        var j :| 0 <= j < |front| && front[j] == y;
        assert Less(names[j], names[|front|]);
      }
      SortedAppends(Locals(c, front), n);
    }
  }

  lemma LocalsAreLocalUpses(c: Configuration)
    ensures Locals(c, SortedKeys(c.upses.Keys)) == LocalUpses(c)
  {
    LocalsOf(c, SortedKeys(c.upses.Keys));
    SortedListIsUnique(Locals(c, SortedKeys(c.upses.Keys)), LocalUpses(c));
  }

  /** The locally driven UPSes, in name order; remote ones are skipped. */
  method WriteDrivers(c: Configuration, getenv: Getenv) returns (r: Result<string>)
    ensures r.Ok? <==> DriversResolve(c, getenv)
    ensures r.Err? ==> IsSecretFault(getenv, r.error) && IsDriverSecret(c, r.error.env)
    ensures r.Ok? ==> r.value == SectionsText(DriverSections(c, getenv, LocalUpses(c)))
  {
    var b := "";
    var names := CollectSortedKeys(c.upses.Keys);
    LocalsAreLocalUpses(c);
    AllResolveMeans(c, getenv, names);
    for i := 0 to |names|
      invariant AllResolve(c, getenv, names[..i])
      invariant b == DriversText(c, getenv, names[..i])
    {
      DriversStep(c, getenv, names, i);
      var u := c.upses[names[i]];
      if u.driver.None? { continue; }
      var section := WriteDriver(getenv, u.upsName, u.driver.value);
      if section.Err? {
        UnresolvedStays(c, getenv, names, i + 1);
        return Err(section.error);
      }
      b := b + section.value;
    }
    assert names[..|names|] == names;
    r := Ok(b);
  }

  /** No driver among these UPSes needs a secret that would be refused. */
  ghost predicate AllResolve(c: Configuration, getenv: Getenv, names: seq<string>)
    requires forall n :: n in names ==> n in c.upses
  {
    names == []
    || (AllResolve(c, getenv, names[..|names| - 1]) && UpsResolves(c.upses[names[|names| - 1]], getenv))
  }

  ghost predicate UpsResolves(u: UPSSpec, getenv: Getenv) {
    u.driver.Some? ==> DriverResolves(u.driver.value, getenv)
  }

  lemma {:induction false} AllResolveMeans(c: Configuration, getenv: Getenv, names: seq<string>)
    requires forall n :: n in names ==> n in c.upses
    ensures AllResolve(c, getenv, names) <==> forall n :: n in names ==> UpsResolves(c.upses[n], getenv)
  {
    if names != [] {
      var n := |names| - 1;
      AllResolveMeans(c, getenv, names[..n]);
      assert names == names[..n] + [names[n]];
    }
  }

  lemma {:induction false} UnresolvedStays(c: Configuration, getenv: Getenv, names: seq<string>, i: nat)
    requires (forall n :: n in names ==> n in c.upses) && i <= |names| && !AllResolve(c, getenv, names[..i])
    ensures !AllResolve(c, getenv, names)
  {
    if i == |names| {
      assert names[..i] == names;
    } else {
      var front := names[..|names| - 1];
      assert front[..i] == names[..i];
      UnresolvedStays(c, getenv, front, i);
    }
  }

  ghost function DriversText(c: Configuration, getenv: Getenv, names: seq<string>): string
    requires forall n :: n in names ==> n in c.upses
  {
    SectionsText(DriverSections(c, getenv, Locals(c, names)))
  }

  /** One more UPS: nothing when it is remote, its section when it is local. */
  lemma DriversStep(c: Configuration, getenv: Getenv, names: seq<string>, i: nat)
    requires (forall n :: n in names ==> n in c.upses) && i < |names|
    ensures names[i] in c.upses
    ensures AllResolve(c, getenv, names[..i + 1])
            <==> AllResolve(c, getenv, names[..i]) && UpsResolves(c.upses[names[i]], getenv)
    ensures var u := c.upses[names[i]];
            DriversText(c, getenv, names[..i + 1])
            == if u.driver.None? then DriversText(c, getenv, names[..i])
               else DriversText(c, getenv, names[..i]) + SectionText(DriverSection(getenv, u.upsName, u.driver.value))
  {
    assert names[i] in names;
    LocalsStep(c, getenv, names, i);
    if IsLocal(c, names[i]) { DriverAppends(c, getenv, Locals(c, names[..i]), names[i]); }
  }

  lemma LocalsStep(c: Configuration, getenv: Getenv, names: seq<string>, i: nat)
    requires (forall n :: n in names ==> n in c.upses) && i < |names|
    ensures names[..i + 1] == names[..i] + [names[i]]
    ensures names[i] in c.upses
    ensures Locals(c, names[..i + 1]) == if c.upses[names[i]].driver.Some? then Locals(c, names[..i]) + [names[i]]
                                         else Locals(c, names[..i])
    ensures AllResolve(c, getenv, names[..i + 1])
            <==> AllResolve(c, getenv, names[..i]) && UpsResolves(c.upses[names[i]], getenv)
  {
    assert names[..i + 1][..i] == names[..i];
  }

  /** ups.conf holds one section per locally driven UPS and one per shed signal, or some
      secret of a driver cannot be used. */
  method RenderUpsConf(c: Configuration, getenv: Getenv) returns (r: Result<string>)
    ensures r.Ok? <==> DriversResolve(c, getenv)
    ensures r.Err? ==> IsSecretFault(getenv, r.error) && IsDriverSecret(c, r.error.env)
    ensures r.Ok? ==> r.value == SectionsText(UpsSections(c, getenv))
  {
    r := WriteDrivers(c, getenv);
    if r.Ok? {
      var servers := ServerNames(c);
      var b := WriteDummies(r.value, DriverSections(c, getenv, LocalUpses(c)), servers);
      r := Ok(b);
    }
  }

  lemma DriverAppends(c: Configuration, getenv: Getenv, names: seq<string>, n: string)
    requires (forall m :: m in names ==> IsLocal(c, m)) && IsLocal(c, n)
    ensures SectionsText(DriverSections(c, getenv, names + [n]))
            == SectionsText(DriverSections(c, getenv, names))
               + SectionText(DriverSection(getenv, c.upses[n].upsName, c.upses[n].driver.value))
  {
    assert (names + [n])[..|names|] == names;
    SectionAppends(DriverSections(c, getenv, names),
                   DriverSection(getenv, c.upses[n].upsName, c.upses[n].driver.value));
  }

  /** One dummy-ups per server, behind what is already there. */
  method WriteDummies(b: string, ghost done: seq<Section>, servers: seq<string>) returns (out: string)
    requires b == SectionsText(done)
    ensures out == SectionsText(done + DummySections(servers))
  {
    out := b;
    assert done + [] == done;
    for i := 0 to |servers|
      invariant out == SectionsText(done + DummySections(servers[..i]))
    {
      DummyAppends(done, servers, i);
      out := out + SectionText(DummySection(servers[i]));
    }
    assert servers[..|servers|] == servers;
  }

  lemma DummyAppends(done: seq<Section>, servers: seq<string>, i: nat)
    requires i < |servers|
    ensures SectionsText(done + DummySections(servers[..i + 1]))
            == SectionsText(done + DummySections(servers[..i])) + SectionText(DummySection(servers[i]))
  {
    var before := done + DummySections(servers[..i]);
    assert servers[..i + 1][..i] == servers[..i];
    assert done + DummySections(servers[..i + 1]) == before + [DummySection(servers[i])];
    SectionAppends(before, DummySection(servers[i]));
  }

  /** upsd.users holds the admin, when one is named, and one login per server; or some password
      cannot be used. */
  method RenderUpsdUsers(c: Configuration, getenv: Getenv) returns (r: Result<string>)
    requires HaveLogins(c)
    ensures r.Ok? <==> LoginsResolve(c, getenv)
    ensures r.Err? ==> IsSecretFault(getenv, r.error) && IsUserSecret(c, r.error.env)
    ensures r.Ok? ==> r.value == SectionsText(UserSections(c, getenv))
  {
    var b := "";
    ghost var done := AdminSections(c.localUpsd, getenv);
    if c.localUpsd.adminUser != "" {
      var pw := ResolveSecret(getenv, c.localUpsd.adminPasswordEnv);
      if pw.Err? { return Err(pw.error); }
      b := SectionText(AdminSection(c.localUpsd.adminUser, pw.value));
      OneSection(AdminSection(c.localUpsd.adminUser, pw.value));
    }
    var servers := ServerNames(c);
    r := WriteLogins(b, done, c, getenv, servers);
    LoginsResolveMeans(c, getenv);
  }

  lemma LoginsResolveMeans(c: Configuration, getenv: Getenv)
    requires HaveLogins(c)
    ensures LoginsResolve(c, getenv)
            <==> (c.localUpsd.adminUser != "" ==> Usable(getenv(c.localUpsd.adminPasswordEnv)))
                 && AllUsable(getenv, LoginsOf(c, NutServers(c)))
  {
    var servers := NutServers(c);
    var logins := LoginsOf(c, servers);
    AllUsableMeans(getenv, logins);
    forall l | IsServer(c, l) ensures c.loads[l].secondary.value in logins {
      assert l in servers;
      var j :| 0 <= j < |servers| && servers[j] == l;
      assert logins[j] == c.loads[l].secondary.value;
    }
    forall s | s in logins ensures exists l :: IsServer(c, l) && c.loads[l].secondary.value == s {
      var j :| 0 <= j < |logins| && logins[j] == s;
      assert servers[j] in servers;
      assert IsServer(c, servers[j]);
    }
  }

  method WriteLogin(getenv: Getenv, s: Secondary) returns (r: Result<string>)
    ensures r.Ok? <==> Usable(getenv(s.passwordEnv))
    ensures r.Err? ==> IsSecretFault(getenv, r.error) && r.error.env == s.passwordEnv
    ensures r.Ok? ==> r.value == SectionText(LoginSection(s, getenv))
  {
    r := ResolveSecret(getenv, s.passwordEnv);
    if r.Ok? { r := Ok(SectionText(Login(s.user, r.value))); }
  }

  /** One login per server, behind what is already there. */
  method WriteLogins(b: string, ghost done: seq<Section>, c: Configuration, getenv: Getenv, servers: seq<string>)
    returns (r: Result<string>)
    requires b == SectionsText(done)
    requires forall l :: l in servers ==> l in c.loads && c.loads[l].secondary.Some?
    ensures r.Ok? <==> AllUsable(getenv, LoginsOf(c, servers))
    ensures r.Err? ==> IsSecretFault(getenv, r.error)
    ensures r.Err? ==> exists l :: l in servers && c.loads[l].secondary.value.passwordEnv == r.error.env
    ensures r.Ok? ==> r.value == SectionsText(done + LoginSections(LoginsOf(c, servers), getenv))
  {
    var out := b;
    ghost var logins := LoginsOf(c, servers);
    assert done + [] == done;
    for i := 0 to |servers|
      invariant AllUsable(getenv, logins[..i])
      invariant out == SectionsText(done + LoginSections(logins[..i], getenv))
    {
      assert servers[i] in servers;
      LoginAppends(logins, getenv, done, i);
      var section := WriteLogin(getenv, c.loads[servers[i]].secondary.value);
      if section.Err? {
        assert section.error.env == c.loads[servers[i]].secondary.value.passwordEnv;
        UnusableStays(getenv, logins, i + 1);
        return Err(section.error);
      }
      out := out + section.value;
    }
    assert logins[..|servers|] == logins;
    r := Ok(out);
  }

  /** No login's password would be refused. */
  predicate AllUsable(getenv: Getenv, logins: seq<Secondary>) {
    logins == []
    || (AllUsable(getenv, logins[..|logins| - 1]) && Usable(getenv(logins[|logins| - 1].passwordEnv)))
  }

  lemma {:induction false} UnusableStays(getenv: Getenv, logins: seq<Secondary>, i: nat)
    requires i <= |logins| && !AllUsable(getenv, logins[..i])
    ensures !AllUsable(getenv, logins)
  {
    if i == |logins| {
      assert logins[..i] == logins;
    } else {
      var front := logins[..|logins| - 1];
      assert front[..i] == logins[..i];
      UnusableStays(getenv, front, i);
    }
  }

  lemma {:induction false} AllUsableMeans(getenv: Getenv, logins: seq<Secondary>)
    ensures AllUsable(getenv, logins) <==> forall s :: s in logins ==> Usable(getenv(s.passwordEnv))
  {
    if logins != [] {
      var n := |logins| - 1;
      AllUsableMeans(getenv, logins[..n]);
      assert logins == logins[..n] + [logins[n]];
    }
  }

  lemma OneSection(s: Section)
    ensures SectionsText([s]) == SectionText(s)
  {
    assert [s] == [] + [s];
    SectionAppends([], s);
  }

  lemma LoginAppends(logins: seq<Secondary>, getenv: Getenv, done: seq<Section>, i: nat)
    requires i < |logins|
    ensures SectionsText(done + LoginSections(logins[..i + 1], getenv))
            == SectionsText(done + LoginSections(logins[..i], getenv)) + SectionText(LoginSection(logins[i], getenv))
    ensures AllUsable(getenv, logins[..i + 1])
            <==> AllUsable(getenv, logins[..i]) && Usable(getenv(logins[i].passwordEnv))
  {
    var before := done + LoginSections(logins[..i], getenv);
    var s := LoginSection(logins[i], getenv);
    assert logins[..i + 1][..i] == logins[..i];
    assert done + LoginSections(logins[..i + 1], getenv) == before + [s];
    SectionAppends(before, s);
  }

  /** net.SplitHostPort, as some partial function. */
  type Splitter = string -> Option<(string, string)>

  function ListenLine(address: (string, string)): string {
    "LISTEN " + address.0 + " " + address.1 + "\n"
  }

  method RenderUpsdConf(c: Configuration, split: Splitter) returns (r: Result<string>)
    ensures r.Ok? <==> split(c.localUpsd.listen).Some?
    ensures r.Err? ==> r.error == BadListen(c.localUpsd.listen)
    ensures r.Ok? ==> r.value == ListenLine(split(c.localUpsd.listen).value)
    ensures r.Ok? ==>
              r.value
              == "LISTEN " + split(c.localUpsd.listen).value.0 + " " + split(c.localUpsd.listen).value.1 + "\n"
  {
    var address := split(c.localUpsd.listen);
    r := if address.None? then Err(BadListen(c.localUpsd.listen)) else Ok(ListenLine(address.value));
  }

  const UPS_CONF: string := "ups.conf"
  const UPSD_CONF: string := "upsd.conf"
  const UPSD_USERS: string := "upsd.users"
  const NUT_CONF: string := "nut.conf"

  /** The files a configuration is rendered to: these and no others. */
  ghost predicate IsRendering(c: Configuration, getenv: Getenv, split: Splitter, files: map<string, string>) {
    HaveLogins(c) && split(c.localUpsd.listen).Some?
    && HoldsFiles(c, files, SectionsText(UpsSections(c, getenv)), ListenLine(split(c.localUpsd.listen).value),
               SectionsText(UserSections(c, getenv)))
  }

  ghost predicate HoldsFiles(c: Configuration, files: map<string, string>, upsConf: string, upsdConf: string,
                             users: string) {
    (forall f :: f in files <==> IsFixedFile(f) || IsDevFile(c, f))
    && files[UPS_CONF] == upsConf
    && files[UPSD_CONF] == upsdConf
    && files[UPSD_USERS] == users
    && files[NUT_CONF] == "MODE=netserver\n"
    && forall f :: IsDevFile(c, f) ==> files[f] == SHED_DEV
  }

  ghost predicate IsFixedFile(f: string) {
    f == UPS_CONF || f == UPSD_CONF || f == UPSD_USERS || f == NUT_CONF
  }

  ghost predicate IsDevFile(c: Configuration, f: string) {
    exists l :: IsServer(c, l) && f == DevFile(l)
  }

  lemma DevFilesStandApart(c: Configuration, f: string)
    requires IsDevFile(c, f)
    ensures !IsFixedFile(f)
  {
    assert f[0] == 's';
    assert UPS_CONF[0] == 'u' && UPSD_CONF[0] == 'u' && UPSD_USERS[0] == 'u' && NUT_CONF[0] == 'n';
  }

  /** Renders every file, or stops at the first secret or address that cannot be used. */
  method Render(c: Configuration, getenv: Getenv, split: Splitter) returns (r: Result<map<string, string>>)
    requires HaveLogins(c)
    ensures r.Ok? <==> DriversResolve(c, getenv) && split(c.localUpsd.listen).Some? && LoginsResolve(c, getenv)
    ensures r.Ok? ==> IsRendering(c, getenv, split, r.value)
    ensures r.Ok? ==>
              "ups.conf" in r.value && "upsd.conf" in r.value && "upsd.users" in r.value
              && "nut.conf" in r.value && r.value["nut.conf"] == "MODE=netserver\n"
    ensures r.Err? ==>
              r.error == BadListen(c.localUpsd.listen)
              || (IsSecretFault(getenv, r.error) && (IsDriverSecret(c, r.error.env) || IsUserSecret(c, r.error.env)))
  {
    var upsConf := RenderUpsConf(c, getenv);
    if upsConf.Err? { return Err(upsConf.error); }
    var upsdConf := RenderUpsdConf(c, split);
    if upsdConf.Err? { return Err(upsdConf.error); }
    var users := RenderUpsdUsers(c, getenv);
    if users.Err? { return Err(users.error); }
    var files := Assemble(c, upsConf.value, upsdConf.value, users.value);
    r := Ok(files);
  }

  /** A checked configuration has a login for every server, so it may be rendered. */
  lemma ValidHasLogins(c: Configuration)
    requires Valid(c)
    ensures HaveLogins(c)
  {
    forall l | IsServer(c, l) ensures c.loads[l].secondary.Some? { assert ValidLoad(c, c.loads[l]); }
  }

  datatype Outcome = Refused(error: ConfigError) | Rendered(result: Result<map<string, string>>)

  /** What main's render mode does: check the configuration, then render it. */
  method CheckAndRender(c: Configuration, getenv: Getenv, split: Splitter) returns (o: Outcome)
    ensures o.Refused? <==> !Valid(c)
    ensures o.Refused? ==> Justified(c, o.error)
    ensures Valid(c) ==>
              HaveLogins(c)
              && (o.result.Ok? <==>
                    DriversResolve(c, getenv) && split(c.localUpsd.listen).Some? && LoginsResolve(c, getenv))
              && (o.result.Ok? ==> IsRendering(c, getenv, split, o.result.value))
  {
    var err := Validate(c);
    if err.Some? { return Refused(err.value); }
    ValidHasLogins(c);
    var r := Render(c, getenv, split);
    o := Rendered(r);
  }

  method Assemble(c: Configuration, upsConf: string, upsdConf: string, users: string)
    returns (files: map<string, string>)
    ensures HoldsFiles(c, files, upsConf, upsdConf, users)
  {
    files := map[];
    files := files[UPS_CONF := upsConf];
    files := files[UPSD_CONF := upsdConf];
    files := files[UPSD_USERS := users];
    files := AddDevFiles(c, files);
    files := files[NUT_CONF := "MODE=netserver\n"];
    NamesDiffer();
    forall f | IsDevFile(c, f) ensures !IsFixedFile(f) { DevFilesStandApart(c, f); }
  }

  lemma NamesDiffer()
    ensures UPS_CONF != UPSD_CONF && UPS_CONF != UPSD_USERS && UPSD_CONF != UPSD_USERS
    ensures NUT_CONF != UPS_CONF && NUT_CONF != UPSD_CONF && NUT_CONF != UPSD_USERS
  {
    assert |UPS_CONF| == 8 && |UPSD_CONF| == 9 && |UPSD_USERS| == 10;
    assert NUT_CONF[0] == 'n' && UPS_CONF[0] == 'u' && UPSD_CONF[0] == 'u' && UPSD_USERS[0] == 'u';
  }

  /** One state file per server. */
  method AddDevFiles(c: Configuration, given: map<string, string>) returns (files: map<string, string>)
    ensures forall f :: f in files <==> f in given || IsDevFile(c, f)
    ensures forall f :: f in files ==> files[f] == if IsDevFile(c, f) then SHED_DEV else given[f]
  {
    files := given;
    var servers := ServerNames(c);
    for i := 0 to |servers|
      invariant forall f :: f in files <==> f in given || IsDevOf(servers[..i], f)
      invariant forall f :: f in files ==> files[f] == if IsDevOf(servers[..i], f) then SHED_DEV else given[f]
    {
      DevStep(servers, i);
      files := files[DevFile(servers[i]) := SHED_DEV];
    }
    assert servers[..|servers|] == servers;
    forall f ensures IsDevOf(servers, f) <==> IsDevFile(c, f) {
      if IsDevFile(c, f) {
        var l :| IsServer(c, l) && f == DevFile(l);
        assert l in servers;
      }
    }
  }

  ghost predicate IsDevOf(servers: seq<string>, f: string) {
    exists l :: l in servers && f == DevFile(l)
  }

  lemma DevStep(servers: seq<string>, i: nat)
    requires i < |servers|
    ensures forall f :: IsDevOf(servers[..i + 1], f) <==> IsDevOf(servers[..i], f) || f == DevFile(servers[i])
  {
    assert servers[..i + 1] == servers[..i] + [servers[i]];
    assert servers[i] in servers[..i + 1];
    forall f | IsDevOf(servers[..i], f) ensures IsDevOf(servers[..i + 1], f) {
      var l :| l in servers[..i] && f == DevFile(l);
      assert l in servers[..i + 1];
    }
  }

  lemma DirectiveAppends(ds: seq<Directive>, d: Directive)
    ensures DirectivesText(ds + [d]) == DirectivesText(ds) + (DirectiveLine(d) + "\n")
  {
    assert (ds + [d])[..|ds|] == ds;
  }

  lemma SectionAppends(ss: seq<Section>, s: Section)
    ensures SectionsText(ss + [s]) == SectionsText(ss) + SectionText(s)
  {
    assert (ss + [s])[..|ss|] == ss;
  }
}
