/** What a reader of the rendered files gets back: the sections the configuration calls for. */
module NutConfLaws {
  import opened Common
  import opened Config
  import opened Control
  import opened Effects
  import opened MainWiring
  import opened Nut
  import opened NutConf
  import opened NutLaws
  import opened Ordering
  import opened Text

  // ---- a section reader ----

  predicate IsHeader(line: string) {
    |line| >= 2 && line[0] == '[' && line[|line| - 1] == ']'
  }

  /** A setting is cut at its first equals sign, one blank on either side dropped. */
  function ReadDirective(line: string): Directive
    requires HasPrefix(line, "    ")
  {
    var body := line[4..];
    var c := IndexOf(body, '=');
    if c == |body| then Flag(body)
    else
      Setting(if c > 0 && body[c - 1] == ' ' then body[..c - 1] else body[..c],
              if c + 1 < |body| && body[c + 1] == ' ' then body[c + 2..] else body[c + 1..])
  }

  function WithDirective(ss: seq<Section>, d: Directive): seq<Section>
    requires ss != []
  {
    var n := |ss| - 1;
    ss[..n] + [Section(ss[n].name, ss[n].directives + [d])]
  }

  /** The sections of a file, in order; a line that is neither blank, nor a header, nor a
      directive inside a section, or that has no end, makes the file unreadable. */
  function ReadSections(s: string, ss: seq<Section>): Option<seq<Section>>
    decreases |s|
  {
    var n := IndexOf(s, '\n');
    if s == [] then Some(ss)
    else if n == |s| then None
    else if n == 0 then ReadSections(s[1..], ss)
    else if IsHeader(s[..n]) then ReadSections(s[n + 1..], ss + [Section(s[..n][1..n - 1], [])])
    else if HasPrefix(s[..n], "    ") && ss != []
        then ReadSections(s[n + 1..], WithDirective(ss, ReadDirective(s[..n])))
    else None
  }

  // ---- one directive ----

  /** The part of a directive a reader recognises its key by. */
  function KeyPart(d: Directive): string {
    match d case Setting(key, _) => key case Flag(words) => words
  }

  function AsRead(d: Directive): Directive {
    StartsIndented(d);
    ReadDirective(DirectiveLine(d))
  }

  lemma StartsIndented(d: Directive)
    ensures HasPrefix(DirectiveLine(d), "    ")
  {
  }

  lemma {:induction false} IndexIsEarlier(a: string, b: string, c: char)
    requires c in a
    ensures IndexOf(a + b, c) < |a|
  {
    assert (a + b)[0] == a[0];
    if a[0] != c {
      assert (a + b)[1..] == a[1..] + b;
      IndexIsEarlier(a[1..], b, c);
    }
  }

  /** What a directive line's text behind the indent is read as. */
  lemma ReadingBody(indent: string, body: string)
    requires |indent| == 4 && indent == "    "
    ensures HasPrefix(indent + body, "    ")
    ensures var c := IndexOf(body, '=');
            c == |body| ==> ReadDirective(indent + body) == Flag(body)
    ensures var c := IndexOf(body, '=');
            c < |body| ==> ReadDirective(indent + body).Setting? && |ReadDirective(indent + body).key| <= c
    ensures var c := IndexOf(body, '=');
            0 < c && c + 1 < |body| && body[c - 1] == body[c + 1] == ' ' ==>
              ReadDirective(indent + body) == Setting(body[..c - 1], body[c + 2..])
  {
    assert (indent + body)[4..] == body;
  }

  lemma SplittingSetting(key: string, value: string)
    requires '=' !in key
    ensures var body := key + (" = " + value);
            var c := IndexOf(body, '=');
            c == |key| + 1 && c + 1 < |body| && body[c - 1] == body[c + 1] == ' ' && body[..c - 1] == key
                && body[c + 2..] == value
  {
    var body := key + (" = " + value);
    assert body == (key + " ") + ['='] + (" " + value);
    CutAt(key + " ", '=', " " + value);
  }

  /** A directive survives printing and reading exactly when its key has no equals sign,
      whatever its value. */
  lemma DirectiveReadsBack(d: Directive)
    ensures AsRead(d) == d <==> '=' !in KeyPart(d)
  {
    match d
    case Setting(key, value) =>
      ReadingBody("    ", key + (" = " + value));
      if '=' in key {
        IndexIsEarlier(key, " = " + value, '=');
      } else {
        SplittingSetting(key, value);
      }
    case Flag(words) =>
      ReadingBody("    ", words);
  }

  // ---- whole files ----

  ghost predicate OneLine(s: string) {
    '\n' !in s
  }

  /** No field of the file contains a line break. */
  ghost predicate Lines(d: Directive) {
    match d case Setting(key, value) => OneLine(key) && OneLine(value) case Flag(words) => OneLine(words)
  }

  ghost predicate AllLines(ss: seq<Section>) {
    forall s :: s in ss ==> OneLine(s.name) && forall d :: d in s.directives ==> Lines(d)
  }

  function DirectivesAsRead(ds: seq<Directive>): (r: seq<Directive>)
    ensures |r| == |ds|
  {
    if ds == [] then [] else DirectivesAsRead(ds[..|ds| - 1]) + [AsRead(ds[|ds| - 1])]
  }

  function SectionsAsRead(ss: seq<Section>): (r: seq<Section>)
    ensures |r| == |ss|
  {
    if ss == [] then []
    else
      var s := ss[|ss| - 1];
      SectionsAsRead(ss[..|ss| - 1]) + [Section(s.name, DirectivesAsRead(s.directives))]
  }

  lemma ReadingOneLine(line: string, rest: string, ss: seq<Section>)
    requires OneLine(line)
    ensures line == [] ==> ReadSections(line + "\n" + rest, ss) == ReadSections(rest, ss)
    ensures IsHeader(line) ==>
              ReadSections(line + "\n" + rest, ss) == ReadSections(rest, ss + [Section(line[1..|line| - 1], [])])
    ensures !IsHeader(line) && HasPrefix(line, "    ") && ss != [] ==>
              ReadSections(line + "\n" + rest, ss) == ReadSections(rest, WithDirective(ss, ReadDirective(line)))
  {
    CutAt(line, '\n', rest);
  }

  lemma ReadingHeader(name: string, rest: string, ss: seq<Section>)
    requires OneLine(name)
    ensures ReadSections(HeaderLine(name) + "\n" + rest, ss) == ReadSections(rest, ss + [Section(name, [])])
  {
    var line := HeaderLine(name);
    assert line[1..|line| - 1] == name;
    ReadingOneLine(line, rest, ss);
  }

  lemma ReadingDirective(d: Directive, rest: string, ss: seq<Section>)
    requires Lines(d) && ss != []
    ensures ReadSections(DirectiveLine(d) + "\n" + rest, ss) == ReadSections(rest, WithDirective(ss, AsRead(d)))
  {
    var line := DirectiveLine(d);
    StartsIndented(d);
    assert line[0] == ' ';
    ReadingOneLine(line, rest, ss);
  }

  lemma {:induction false} ReadingDirectives(ds: seq<Directive>, rest: string, name: string, ss: seq<Section>)
    requires forall d :: d in ds ==> Lines(d)
    ensures ReadSections(DirectivesText(ds) + rest, ss + [Section(name, [])])
            == ReadSections(rest, ss + [Section(name, DirectivesAsRead(ds))])
    decreases |ds|
  {
    if ds == [] {
      assert DirectivesText(ds) + rest == rest;
    } else {
      var front, d := ds[..|ds| - 1], ds[|ds| - 1];
      var line := DirectiveLine(d);
      assert DirectivesText(ds) + rest == DirectivesText(front) + (line + "\n" + rest);
      ReadingDirectives(front, line + "\n" + rest, name, ss);
      var before := ss + [Section(name, DirectivesAsRead(front))];
      ReadingDirective(d, rest, before);
      assert WithDirective(before, AsRead(d)) == ss + [Section(name, DirectivesAsRead(ds))];
    }
  }

  lemma ReadingSection(s: Section, rest: string, ss: seq<Section>)
    requires OneLine(s.name) && forall d :: d in s.directives ==> Lines(d)
    ensures ReadSections(SectionText(s) + rest, ss)
            == ReadSections(rest, ss + [Section(s.name, DirectivesAsRead(s.directives))])
  {
    var body := DirectivesText(s.directives);
    assert SectionText(s) + rest == HeaderLine(s.name) + "\n" + (body + ("" + "\n" + rest));
    ReadingHeader(s.name, body + ("" + "\n" + rest), ss);
    ReadingDirectives(s.directives, "" + "\n" + rest, s.name, ss);
    ReadingOneLine("", rest, ss + [Section(s.name, DirectivesAsRead(s.directives))]);
  }

  lemma {:induction false} ReadingSections(ss: seq<Section>, rest: string)
    requires AllLines(ss)
    ensures ReadSections(SectionsText(ss) + rest, []) == ReadSections(rest, SectionsAsRead(ss))
    decreases |ss|
  {
    if ss == [] {
      assert SectionsText(ss) + rest == rest;
    } else {
      var front, s := ss[..|ss| - 1], ss[|ss| - 1];
      assert s in ss;
      assert SectionsText(ss) + rest == SectionsText(front) + (SectionText(s) + rest);
      ReadingSections(front, SectionText(s) + rest);
      ReadingSection(s, rest, SectionsAsRead(front));
    }
  }

  ghost predicate PlainKeys(ss: seq<Section>) {
    forall s, d :: s in ss && d in s.directives ==> '=' !in KeyPart(d)
  }

  lemma {:induction false} DirectivesReadBack(ds: seq<Directive>)
    ensures DirectivesAsRead(ds) == ds <==> forall d :: d in ds ==> '=' !in KeyPart(d)
  {
    if ds != [] {
      var front, d := ds[..|ds| - 1], ds[|ds| - 1];
      assert ds == front + [d];
      DirectivesReadBack(front);
      DirectiveReadsBack(d);
      assert DirectivesAsRead(ds)[|front|] == AsRead(d) && DirectivesAsRead(ds)[..|front|] == DirectivesAsRead(front);
    }
  }

  lemma {:induction false} SectionsReadBack(ss: seq<Section>)
    ensures SectionsAsRead(ss) == ss <==> PlainKeys(ss)
  {
    if ss != [] {
      var front, s := ss[..|ss| - 1], ss[|ss| - 1];
      assert ss == front + [s];
      SectionsReadBack(front);
      DirectivesReadBack(s.directives);
      var out := SectionsAsRead(ss);
      assert out[|front|] == Section(s.name, DirectivesAsRead(s.directives)) && out[..|front|] == SectionsAsRead(front);
    }
  }

  /** A file of single-line fields reads back as the sections it was printed from exactly when
      no key contains an equals sign. */
  lemma FileReadsBack(ss: seq<Section>)
    requires AllLines(ss)
    ensures ReadSections(SectionsText(ss), []) == Some(ss) <==> PlainKeys(ss)
  {
    ReadingSections(ss, []);
    assert SectionsText(ss) + [] == SectionsText(ss);
    SectionsReadBack(ss);
  }

  // ---- the rendered sections ----

  ghost function SectionOf(c: Configuration, getenv: Getenv, u: string): Section
    requires IsLocal(c, u)
  {
    DriverSection(getenv, c.upses[u].upsName, c.upses[u].driver.value)
  }

  lemma {:induction false} OptionsHold(options: map<string, string>, names: seq<string>, d: Directive)
    requires forall k :: k in names ==> k in options
    ensures d in Options(options, names) <==> d.Setting? && d.key in names && d.value == options[d.key]
  {
    if names != [] {
      var front, k := names[..|names| - 1], names[|names| - 1];
      assert names == front + [k];
      OptionsHold(options, front, d);
    }
  }

  /** A local driver's section says its type, its port, its options, and its resolved secrets,
      and nothing else. */
  lemma DriverSectionHolds(getenv: Getenv, upsName: string, dr: Driver, d: Directive)
    ensures d in DriverSection(getenv, upsName, dr).directives
            <==> d == Setting("driver", dr.kind) || d == Setting("port", dr.port)
                 || (d.Setting? && d.key in dr.options && d.value == dr.options[d.key])
                 || (d.Setting? && d.key in dr.secretOptions && d.value == getenv(dr.secretOptions[d.key]))
  {
    OptionsHold(dr.options, SortedKeys(dr.options.Keys), d);
    OptionsHold(Fetched(getenv, dr.secretOptions), SortedKeys(dr.secretOptions.Keys), d);
  }

  // ---- one setting each ----

  function KeysOf(ds: seq<Directive>): seq<string> {
    seq(|ds|, i requires 0 <= i < |ds| => KeyPart(ds[i]))
  }

  /** The settings of one driver do not clash: no option is also a secret one, and none is called
      like the type or the port. */
  ghost predicate KeysApart(d: Driver) {
    d.options.Keys !! d.secretOptions.Keys
    && forall k :: k in d.options || k in d.secretOptions ==> k != "driver" && k != "port"
  }

  lemma KeysOfConcat(a: seq<Directive>, b: seq<Directive>)
    ensures KeysOf(a + b) == KeysOf(a) + KeysOf(b)
  {
  }

  lemma {:induction false} KeysOfOptions(options: map<string, string>, names: seq<string>)
    requires forall k :: k in names ==> k in options
    ensures KeysOf(Options(options, names)) == names
  {
    if names != [] {
      var front, k := names[..|names| - 1], names[|names| - 1];
      assert names == front + [k];
      KeysOfOptions(options, front);
      KeysOfConcat(Options(options, front), [Setting(k, options[k])]);
      assert KeysOf([Setting(k, options[k])]) == [k];
    }
  }

  ghost predicate Disjoint(a: seq<string>, b: seq<string>) {
    forall x :: x in a ==> x !in b
  }

  lemma DistinctConcat(a: seq<string>, b: seq<string>)
    ensures Distinct(a + b) <==> Distinct(a) && Distinct(b) && Disjoint(a, b)
  {
    var c := a + b;
    if Distinct(c) {
      forall i, j | 0 <= i < j < |a| ensures a[i] != a[j] { assert c[i] != c[j]; }
      forall i, j | 0 <= i < j < |b| ensures b[i] != b[j] { assert c[|a| + i] != c[|a| + j]; }
      forall x | x in a ensures x !in b {
        var i :| 0 <= i < |a| && a[i] == x;
        forall j | 0 <= j < |b| ensures b[j] != x { assert c[i] != c[|a| + j]; }
      }
    }
    if Distinct(a) && Distinct(b) && Disjoint(a, b) {
      forall i, j | 0 <= i < j < |c| ensures c[i] != c[j] {
        if i < |a| <= j { assert a[i] in a && b[j - |a|] in b; }
      }
    }
  }

  lemma KeysOfDriver(getenv: Getenv, upsName: string, d: Driver)
    ensures KeysOf(DriverSection(getenv, upsName, d).directives)
            == ["driver", "port"] + SortedKeys(d.options.Keys) + SortedKeys(d.secretOptions.Keys)
  {
    var fixed := [Setting("driver", d.kind), Setting("port", d.port)];
    var plain := Options(d.options, SortedKeys(d.options.Keys));
    var secret := Options(Fetched(getenv, d.secretOptions), SortedKeys(d.secretOptions.Keys));
    KeysOfOptions(d.options, SortedKeys(d.options.Keys));
    KeysOfOptions(Fetched(getenv, d.secretOptions), SortedKeys(d.secretOptions.Keys));
    KeysOfConcat(fixed + plain, secret);
    KeysOfConcat(fixed, plain);
    KeysOfTwo("driver", d.kind, "port", d.port);
  }

  lemma KeysOfTwo(a: string, v: string, b: string, w: string)
    ensures KeysOf([Setting(a, v), Setting(b, w)]) == [a, b]
  {
  }

  lemma ApartByName(first: string, second: string, options: set<string>, secrets: set<string>)
    requires first != second
    ensures Distinct([first, second] + SortedKeys(options) + SortedKeys(secrets))
            <==> options !! secrets && forall k :: k in options || k in secrets ==> k != first && k != second
  {
    var fixed, plain, secret := [first, second], SortedKeys(options), SortedKeys(secrets);
    DistinctConcat(fixed, plain);
    DistinctConcat(fixed + plain, secret);
    SortedIsDistinct(plain);
    SortedIsDistinct(secret);
    assert forall x :: x in fixed <==> x == first || x == second;
    assert forall x :: x in fixed + plain <==> x in fixed || x in plain;
  }

  /** No two settings of a driver's section share a key exactly when its options stay clear of each
      other and of the type and the port. */
  lemma KeysApartMeans(getenv: Getenv, upsName: string, d: Driver)
    ensures Distinct(KeysOf(DriverSection(getenv, upsName, d).directives)) <==> KeysApart(d)
  {
    KeysOfDriver(getenv, upsName, d);
    assert |"driver"| != |"port"|;
    ApartByName("driver", "port", d.options.Keys, d.secretOptions.Keys);
  }

  lemma {:induction false} DriverSectionAt(c: Configuration, getenv: Getenv, names: seq<string>, i: nat)
    requires (forall n :: n in names ==> IsLocal(c, n)) && i < |names|
    ensures IsLocal(c, names[i])
    ensures DriverSections(c, getenv, names)[i] == SectionOf(c, getenv, names[i])
  {
    var front := names[..|names| - 1];
    assert names[i] in names;
    if i < |front| { DriverSectionAt(c, getenv, front, i); }
  }

  lemma {:induction false} DummySectionAt(servers: seq<string>, i: nat)
    requires i < |servers|
    ensures DummySections(servers)[i] == DummySection(servers[i])
  {
    var front := servers[..|servers| - 1];
    if i < |front| { DummySectionAt(front, i); }
  }

  /** The k-th section of ups.conf: first the locally driven UPSes in name order, then the
      shed signals in name order. */
  lemma SectionAt(c: Configuration, getenv: Getenv, k: nat)
    ensures |UpsSections(c, getenv)| == |LocalUpses(c)| + |NutServers(c)|
    ensures k < |LocalUpses(c)| ==>
              IsLocal(c, LocalUpses(c)[k]) && UpsSections(c, getenv)[k] == SectionOf(c, getenv, LocalUpses(c)[k])
    ensures |LocalUpses(c)| <= k < |LocalUpses(c)| + |NutServers(c)| ==>
              UpsSections(c, getenv)[k] == DummySection(NutServers(c)[k - |LocalUpses(c)|])
  {
    var locals, servers := LocalUpses(c), NutServers(c);
    assert forall n :: n in locals ==> IsLocal(c, n);
    if k < |locals| {
      DriverSectionAt(c, getenv, locals, k);
    } else if k < |locals| + |servers| {
      DummySectionAt(servers, k - |locals|);
    }
  }

  // ---- reading the rendered files ----

  ghost predicate DriverOnLines(u: UPSSpec)
    requires u.driver.Some?
  {
    var d := u.driver.value;
    OneLine(u.upsName) && OneLine(d.kind) && OneLine(d.port)
    && (forall k :: k in d.options ==> OneLine(k) && OneLine(d.options[k]))
    && forall k :: k in d.secretOptions ==> OneLine(k)
  }

  /** No field that ends up in a file contains a line break. */
  ghost predicate OnLines(c: Configuration) {
    (forall u :: IsLocal(c, u) ==> DriverOnLines(c.upses[u]))
    && (forall l :: IsServer(c, l) ==>
        OneLine(l) && (c.loads[l].secondary.Some? ==> OneLine(c.loads[l].secondary.value.user)))
    && OneLine(c.localUpsd.adminUser)
  }

  /** No driver option has an equals sign in its name. */
  ghost predicate PlainOptions(c: Configuration) {
    forall u :: IsLocal(c, u) ==> PlainDriver(c.upses[u].driver.value)
  }

  ghost predicate PlainDriver(d: Driver) {
    (forall k :: k in d.options ==> '=' !in k) && forall k :: k in d.secretOptions ==> '=' !in k
  }

  ghost predicate FitSection(s: Section) {
    OneLine(s.name) && forall d :: d in s.directives ==> Lines(d)
  }

  ghost predicate PlainSection(s: Section) {
    forall d :: d in s.directives ==> '=' !in KeyPart(d)
  }

  lemma DriverSectionIsFit(getenv: Getenv, u: UPSSpec)
    requires u.driver.Some? && DriverOnLines(u) && DriverResolves(u.driver.value, getenv)
    ensures FitSection(DriverSection(getenv, u.upsName, u.driver.value))
  {
    var dr := u.driver.value;
    var s := DriverSection(getenv, u.upsName, dr);
    forall d | d in s.directives ensures Lines(d) { DriverSectionHolds(getenv, u.upsName, dr, d); }
  }

  lemma DriverSectionIsPlain(getenv: Getenv, upsName: string, dr: Driver)
    ensures PlainSection(DriverSection(getenv, upsName, dr)) <==> PlainDriver(dr)
  {
    var s := DriverSection(getenv, upsName, dr);
    if PlainDriver(dr) {
      forall d | d in s.directives ensures '=' !in KeyPart(d) { DriverSectionHolds(getenv, upsName, dr, d); }
    }
    if PlainSection(s) {
      forall k | k in dr.options ensures '=' !in k {
        DriverSectionHolds(getenv, upsName, dr, Setting(k, dr.options[k]));
        assert '=' !in KeyPart(Setting(k, dr.options[k]));
      }
      forall k | k in dr.secretOptions ensures '=' !in k {
        DriverSectionHolds(getenv, upsName, dr, Setting(k, getenv(dr.secretOptions[k])));
        assert '=' !in KeyPart(Setting(k, getenv(dr.secretOptions[k])));
      }
    }
  }

  lemma DummySectionIsFit(load: string)
    requires OneLine(load)
    ensures FitSection(DummySection(load)) && PlainSection(DummySection(load))
  {
    assert OneLine(ShedUpsName(load)) && OneLine(DevFile(load));
  }

  lemma LocalSectionIsFit(c: Configuration, getenv: Getenv, u: string)
    requires OnLines(c) && DriversResolve(c, getenv) && IsLocal(c, u)
    ensures FitSection(SectionOf(c, getenv, u))
    ensures PlainSection(SectionOf(c, getenv, u)) <==> PlainDriver(c.upses[u].driver.value)
  {
    var spec := c.upses[u];
    assert UpsResolves(spec, getenv);
    DriverSectionIsFit(getenv, spec);
    DriverSectionIsPlain(getenv, spec.upsName, spec.driver.value);
  }

  lemma AnySectionIsFit(c: Configuration, getenv: Getenv, k: nat)
    requires OnLines(c) && DriversResolve(c, getenv) && k < |UpsSections(c, getenv)|
    ensures FitSection(UpsSections(c, getenv)[k])
    ensures PlainOptions(c) ==> PlainSection(UpsSections(c, getenv)[k])
  {
    var locals, servers := LocalUpses(c), NutServers(c);
    SectionAt(c, getenv, k);
    if k < |locals| {
      LocalSectionIsFit(c, getenv, locals[k]);
    } else {
      assert servers[k - |locals|] in servers;
      DummySectionIsFit(servers[k - |locals|]);
    }
  }

  lemma UpsSectionsAreFit(c: Configuration, getenv: Getenv)
    requires OnLines(c) && DriversResolve(c, getenv)
    ensures AllLines(UpsSections(c, getenv))
    ensures PlainKeys(UpsSections(c, getenv)) <==> PlainOptions(c)
  {
    var ss := UpsSections(c, getenv);
    forall k | 0 <= k < |ss| ensures FitSection(ss[k]) && (PlainOptions(c) ==> PlainSection(ss[k])) {
      AnySectionIsFit(c, getenv, k);
    }
    PlainByIndex(ss);
    if PlainKeys(ss) {
      forall u | IsLocal(c, u) ensures PlainDriver(c.upses[u].driver.value) {
        var k := LocalNameAt(c, getenv, u);
        LocalSectionIsFit(c, getenv, u);
      }
    }
  }

  lemma PlainByIndex(ss: seq<Section>)
    ensures PlainKeys(ss) <==> forall k :: 0 <= k < |ss| ==> PlainSection(ss[k])
  {
    if forall k :: 0 <= k < |ss| ==> PlainSection(ss[k]) {
      forall s, d | s in ss && d in s.directives ensures '=' !in KeyPart(d) { assert PlainSection(s); }
    }
  }

  lemma {:induction false} LoginSectionAt(logins: seq<Secondary>, getenv: Getenv, i: nat)
    requires i < |logins|
    ensures LoginSections(logins, getenv)[i] == LoginSection(logins[i], getenv)
  {
    var front := logins[..|logins| - 1];
    if i < |front| { LoginSectionAt(front, getenv, i); }
  }

  function Admins(c: Configuration): nat {
    if c.localUpsd.adminUser == "" then 0 else 1
  }

  /** The k-th section of upsd.users: the admin when one is named, then the logins. */
  lemma UserAt(c: Configuration, getenv: Getenv, k: nat)
    requires HaveLogins(c)
    ensures |UserSections(c, getenv)| == Admins(c) + |NutServers(c)|
    ensures k < Admins(c) ==>
              UserSections(c, getenv)[k] == AdminSection(c.localUpsd.adminUser, getenv(c.localUpsd.adminPasswordEnv))
    ensures Admins(c) <= k < Admins(c) + |NutServers(c)| ==>
              IsServer(c, NutServers(c)[k - Admins(c)])
              && UserSections(c, getenv)[k]
                  == LoginSection(c.loads[NutServers(c)[k - Admins(c)]].secondary.value, getenv)
  {
    var servers := NutServers(c);
    var logins := LoginsOf(c, servers);
    var admins := AdminSections(c.localUpsd, getenv);
    assert |admins| == Admins(c);
    var j := k - |admins|;
    if 0 <= j < |servers| {
      assert servers[j] in servers;
      LoginSectionAt(logins, getenv, j);
      assert UserSections(c, getenv)[k] == LoginSections(logins, getenv)[j];
    }
  }

  ghost predicate FitDirective(d: Directive) {
    Lines(d) && '=' !in KeyPart(d)
  }

  lemma FitByIndex(s: Section)
    requires OneLine(s.name) && forall i :: 0 <= i < |s.directives| ==> FitDirective(s.directives[i])
    ensures FitSection(s) && PlainSection(s)
  {
  }

  lemma ActionsAreFit()
    ensures FitDirective(Setting("actions", "SET"))
  {
  }

  lemma CommandsAreFit()
    ensures FitDirective(Setting("instcmds", "all"))
  {
  }

  lemma SecondaryIsFit()
    ensures FitDirective(Flag("upsmon secondary"))
  {
  }

  lemma PasswordIsFit(password: string)
    requires OneLine(password)
    ensures FitDirective(Setting("password", password))
  {
  }

  lemma LoginIsFit(s: Secondary, getenv: Getenv)
    requires OneLine(s.user) && Usable(getenv(s.passwordEnv))
    ensures FitSection(LoginSection(s, getenv)) && PlainSection(LoginSection(s, getenv))
  {
    PasswordIsFit(getenv(s.passwordEnv));
    SecondaryIsFit();
    FitByIndex(LoginSection(s, getenv));
  }

  lemma AdminIsFit(user: string, password: string)
    requires OneLine(user) && Usable(password)
    ensures FitSection(AdminSection(user, password)) && PlainSection(AdminSection(user, password))
  {
    PasswordIsFit(password);
    ActionsAreFit();
    CommandsAreFit();
    FitByIndex(AdminSection(user, password));
  }

  lemma UserSectionsAreFit(c: Configuration, getenv: Getenv)
    requires HaveLogins(c) && OnLines(c) && LoginsResolve(c, getenv)
    ensures AllLines(UserSections(c, getenv)) && PlainKeys(UserSections(c, getenv))
  {
    var ss, admins := UserSections(c, getenv), Admins(c);
    forall k | 0 <= k < |ss| ensures FitSection(ss[k]) && PlainSection(ss[k]) {
      UserAt(c, getenv, k);
      if k < admins {
        AdminIsFit(c.localUpsd.adminUser, getenv(c.localUpsd.adminPasswordEnv));
      } else {
        LoginIsFit(c.loads[NutServers(c)[k - admins]].secondary.value, getenv);
      }
    }
    PlainByIndex(ss);
  }

  /** Rendered from single-line fields, upsd.users reads back as the logins the configuration
      calls for, and ups.conf as its drivers and shed signals exactly when no driver option has
      an equals sign in its name. Secrets need no such assumption: the renderer refuses what
      would break a line. */
  lemma RenderedFilesReadBack(c: Configuration, getenv: Getenv, split: Splitter, files: map<string, string>)
    requires IsRendering(c, getenv, split, files)
    requires OnLines(c) && DriversResolve(c, getenv) && LoginsResolve(c, getenv)
    ensures ReadSections(files[UPSD_USERS], []) == Some(UserSections(c, getenv))
    ensures ReadSections(files[UPS_CONF], []) == Some(UpsSections(c, getenv)) <==> PlainOptions(c)
  {
    UpsSectionsAreFit(c, getenv);
    FileReadsBack(UpsSections(c, getenv));
    UserSectionsAreFit(c, getenv);
    FileReadsBack(UserSections(c, getenv));
  }

  // ---- one section each ----

  /** `s` is in the file, and nothing else goes by its name. */
  ghost predicate OnlySection(ss: seq<Section>, s: Section) {
    exists i :: 0 <= i < |ss| && ss[i] == s && forall j :: 0 <= j < |ss| && ss[j].name == s.name ==> j == i
  }

  /** The names the sections of ups.conf go by do not clash. */
  ghost predicate NamesApart(c: Configuration) {
    (forall u, v :: IsLocal(c, u) && IsLocal(c, v) && c.upses[u].upsName == c.upses[v].upsName ==> u == v)
    && forall u, l :: IsLocal(c, u) && IsServer(c, l) ==> c.upses[u].upsName != ShedUpsName(l)
  }

  lemma PlaceOf(names: seq<string>, n: string) returns (k: nat)
    requires n in names
    ensures k < |names| && names[k] == n
  {
    k :| 0 <= k < |names| && names[k] == n;
  }

  lemma NamesOfSections(c: Configuration, getenv: Getenv, i: nat, j: nat)
    requires NamesApart(c) && i < |UpsSections(c, getenv)| && j < |UpsSections(c, getenv)|
    requires UpsSections(c, getenv)[i].name == UpsSections(c, getenv)[j].name
    ensures i == j
  {
    var locals, servers := LocalUpses(c), NutServers(c);
    SectionAt(c, getenv, i);
    SectionAt(c, getenv, j);
    SortedIsDistinct(locals);
    SortedIsDistinct(servers);
    if i >= |locals| { assert servers[i - |locals|] in servers; }
    if j >= |locals| { assert servers[j - |locals|] in servers; }
    if i >= |locals| && j >= |locals| {
      ShedNamesDiffer(servers[i - |locals|], servers[j - |locals|]);
    }
  }

  function NamesOf(ss: seq<Section>): seq<string> {
    seq(|ss|, i requires 0 <= i < |ss| => ss[i].name)
  }

  lemma LocalNameAt(c: Configuration, getenv: Getenv, u: string) returns (k: nat)
    requires IsLocal(c, u)
    ensures k < |LocalUpses(c)| <= |UpsSections(c, getenv)| && LocalUpses(c)[k] == u
    ensures NamesOf(UpsSections(c, getenv))[k] == c.upses[u].upsName
    ensures UpsSections(c, getenv)[k] == SectionOf(c, getenv, u)
  {
    k := PlaceOf(LocalUpses(c), u);
    SectionAt(c, getenv, k);
  }

  lemma SignalNameAt(c: Configuration, getenv: Getenv, l: string) returns (k: nat)
    requires IsServer(c, l)
    ensures |LocalUpses(c)| <= k < |UpsSections(c, getenv)|
    ensures NamesOf(UpsSections(c, getenv))[k] == ShedUpsName(l)
    ensures UpsSections(c, getenv)[k] == DummySection(l)
  {
    var j := PlaceOf(NutServers(c), l);
    k := |LocalUpses(c)| + j;
    SectionAt(c, getenv, k);
  }

  lemma DistinctNamesStandApart(c: Configuration, getenv: Getenv)
    requires Distinct(NamesOf(UpsSections(c, getenv)))
    ensures NamesApart(c)
  {
    forall u, v | IsLocal(c, u) && IsLocal(c, v) && c.upses[u].upsName == c.upses[v].upsName ensures u == v {
      var i := LocalNameAt(c, getenv, u);
      var j := LocalNameAt(c, getenv, v);
    }
    forall u, l | IsLocal(c, u) && IsServer(c, l) ensures c.upses[u].upsName != ShedUpsName(l) {
      var i := LocalNameAt(c, getenv, u);
      var j := SignalNameAt(c, getenv, l);
    }
  }

  /** No two sections of ups.conf share a name exactly when the local UPSes have names of their
      own, none of them a shed signal's. */
  lemma NamesApartMeans(c: Configuration, getenv: Getenv)
    ensures Distinct(NamesOf(UpsSections(c, getenv))) <==> NamesApart(c)
  {
    var names := NamesOf(UpsSections(c, getenv));
    if NamesApart(c) {
      forall i, j | 0 <= i < j < |names| ensures names[i] != names[j] {
        if names[i] == names[j] { NamesOfSections(c, getenv, i, j); }
      }
    }
    if Distinct(names) { DistinctNamesStandApart(c, getenv); }
  }

  /** With names apart, every local driver has the one section of its name. */
  lemma OneDriverSectionEach(c: Configuration, getenv: Getenv, u: string)
    requires NamesApart(c) && IsLocal(c, u)
    ensures OnlySection(UpsSections(c, getenv), SectionOf(c, getenv, u))
  {
    var k := LocalNameAt(c, getenv, u);
    OnlyAt(c, getenv, k);
  }

  /** So has every shed signal. */
  lemma OneSignalSectionEach(c: Configuration, getenv: Getenv, l: string)
    requires NamesApart(c) && IsServer(c, l)
    ensures OnlySection(UpsSections(c, getenv), DummySection(l))
  {
    var k := SignalNameAt(c, getenv, l);
    OnlyAt(c, getenv, k);
  }

  /** And ups.conf has no sections but these; upsd.users none but the admin's and the logins'. */
  lemma NoOtherSections(c: Configuration, getenv: Getenv)
    requires HaveLogins(c)
    ensures |UpsSections(c, getenv)| == |LocalSet(c)| + |ServerSet(c)|
    ensures |UserSections(c, getenv)| == Admins(c) + |ServerSet(c)|
  {
    SortedKeysLength(LocalSet(c));
    SortedKeysLength(ServerSet(c));
    assert |LoginsOf(c, NutServers(c))| == |NutServers(c)|;
    assert |AdminSections(c.localUpsd, getenv)| == Admins(c);
  }

  // ---- one login each ----

  function UserOf(c: Configuration, l: string): string
    requires IsServer(c, l) && c.loads[l].secondary.Some?
  {
    c.loads[l].secondary.value.user
  }

  /** The users of upsd.users do not clash: servers have users of their own, none the admin's. */
  ghost predicate UsersApart(c: Configuration)
    requires HaveLogins(c)
  {
    (forall l, m :: IsServer(c, l) && IsServer(c, m) && UserOf(c, l) == UserOf(c, m) ==> l == m)
    && (c.localUpsd.adminUser != "" ==> forall l :: IsServer(c, l) ==> UserOf(c, l) != c.localUpsd.adminUser)
  }

  /** Every NUT server's login is listed. */
  lemma LoginAt(c: Configuration, getenv: Getenv, l: string) returns (k: nat)
    requires HaveLogins(c) && IsServer(c, l)
    ensures Admins(c) <= k < |UserSections(c, getenv)| && NutServers(c)[k - Admins(c)] == l
    ensures UserSections(c, getenv)[k] == LoginSection(c.loads[l].secondary.value, getenv)
    ensures NamesOf(UserSections(c, getenv))[k] == UserOf(c, l)
  {
    var j := PlaceOf(NutServers(c), l);
    k := Admins(c) + j;
    UserAt(c, getenv, k);
  }

  lemma NamesOfUsers(c: Configuration, getenv: Getenv, i: nat, j: nat)
    requires HaveLogins(c) && UsersApart(c) && i < j < |UserSections(c, getenv)|
    ensures UserSections(c, getenv)[i].name != UserSections(c, getenv)[j].name
  {
    var servers := NutServers(c);
    UserAt(c, getenv, i);
    UserAt(c, getenv, j);
    SortedIsDistinct(servers);
    if i >= Admins(c) { assert servers[i - Admins(c)] != servers[j - Admins(c)]; }
  }

  lemma DistinctUsersStandApart(c: Configuration, getenv: Getenv)
    requires HaveLogins(c) && Distinct(NamesOf(UserSections(c, getenv)))
    ensures UsersApart(c)
  {
    forall l, m | IsServer(c, l) && IsServer(c, m) && UserOf(c, l) == UserOf(c, m) ensures l == m {
      var i := LoginAt(c, getenv, l);
      var j := LoginAt(c, getenv, m);
    }
    if c.localUpsd.adminUser != "" {
      UserAt(c, getenv, 0);
      forall l | IsServer(c, l) ensures UserOf(c, l) != c.localUpsd.adminUser {
        var i := LoginAt(c, getenv, l);
        assert NamesOf(UserSections(c, getenv))[0] != NamesOf(UserSections(c, getenv))[i];
      }
    }
  }

  /** No two sections of upsd.users share a name exactly when servers have users of their own,
      none of them the named admin's. */
  lemma UsersApartMeans(c: Configuration, getenv: Getenv)
    requires HaveLogins(c)
    ensures Distinct(NamesOf(UserSections(c, getenv))) <==> UsersApart(c)
  {
    var names := NamesOf(UserSections(c, getenv));
    if UsersApart(c) {
      forall i, j | 0 <= i < j < |names| ensures names[i] != names[j] { NamesOfUsers(c, getenv, i, j); }
    }
    if Distinct(names) { DistinctUsersStandApart(c, getenv); }
  }

  lemma OnlyUserAt(c: Configuration, getenv: Getenv, k: nat)
    requires HaveLogins(c) && UsersApart(c) && k < |UserSections(c, getenv)|
    ensures OnlySection(UserSections(c, getenv), UserSections(c, getenv)[k])
  {
    var ss := UserSections(c, getenv);
    forall j | 0 <= j < |ss| && ss[j].name == ss[k].name ensures j == k {
      if j < k { NamesOfUsers(c, getenv, j, k); }
      if k < j { NamesOfUsers(c, getenv, k, j); }
    }
  }

  /** With users apart, every NUT server has the one login of its user. */
  lemma OneLoginEach(c: Configuration, getenv: Getenv, l: string)
    requires HaveLogins(c) && UsersApart(c) && IsServer(c, l)
    ensures OnlySection(UserSections(c, getenv), LoginSection(c.loads[l].secondary.value, getenv))
  {
    var k := LoginAt(c, getenv, l);
    OnlyUserAt(c, getenv, k);
  }

  /** So has a named admin. */
  lemma OneAdminSection(c: Configuration, getenv: Getenv)
    requires HaveLogins(c) && UsersApart(c) && c.localUpsd.adminUser != ""
    ensures OnlySection(UserSections(c, getenv),
                        AdminSection(c.localUpsd.adminUser, getenv(c.localUpsd.adminPasswordEnv)))
  {
    UserAt(c, getenv, 0);
    OnlyUserAt(c, getenv, 0);
  }

  lemma OnlyAt(c: Configuration, getenv: Getenv, k: nat)
    requires NamesApart(c) && k < |UpsSections(c, getenv)|
    ensures OnlySection(UpsSections(c, getenv), UpsSections(c, getenv)[k])
  {
    var ss := UpsSections(c, getenv);
    forall j | 0 <= j < |ss| && ss[j].name == ss[k].name ensures j == k { NamesOfSections(c, getenv, j, k); }
  }

  // ---- the shed signals ----

  lemma DevLineIsRead(name: string, value: string, more: string, vars: map<string, string>)
    requires OneLine(value) && ':' !in name && forall c :: c in name ==> !IsSpace(c)
    ensures UpscVars(DevLine(name, value) + more, vars) == UpscVars(more, vars[name := TrimSpace(value)])
  {
    assert DevLine(name, value) + more == name + ":" + (" " + value) + "\n" + more;
    UpscLineIsRead(name, value, more, vars);
  }

  ghost predicate ServesOk(vars: map<string, string>) {
    "ups.status" in vars && vars["ups.status"] == STATUS_OK
  }

  ghost predicate LeavesStatus(line: (string, string)) {
    OneLine(line.1) && ':' !in line.0 && (forall c :: c in line.0 ==> !IsSpace(c)) && line.0 != "ups.status"
  }

  lemma {:induction false} StatusStays(lines: seq<(string, string)>, vars: map<string, string>)
    requires ServesOk(vars) && forall k :: 0 <= k < |lines| ==> LeavesStatus(lines[k])
    ensures ServesOk(UpscVars(DevText(lines), vars))
    decreases |lines|
  {
    if lines != [] {
      var (name, value) := lines[0];
      assert LeavesStatus(lines[0]);
      DevLineIsRead(name, value, DevText(lines[1..]), vars);
      StatusStays(lines[1..], vars[name := TrimSpace(value)]);
    }
  }

  lemma IdentityLeavesStatus()
    ensures forall k :: 0 <= k < |SHED_IDENTITY| ==> LeavesStatus(SHED_IDENTITY[k])
  {
    assert "ups.mfr"[4] != "ups.status"[4] && "ups.model"[4] != "ups.status"[4];
    assert "battery.charge"[0] != "ups.status"[0] && "battery.runtime"[0] != "ups.status"[0];
    assert SHED_IDENTITY[0].0 == "ups.mfr" && SHED_IDENTITY[1].0 == "ups.model";
    assert SHED_IDENTITY[2].0 == "battery.charge" && SHED_IDENTITY[3].0 == "battery.runtime";
  }

  /** A shed signal's state file, read as `name: value` lines, serves the released position. */
  lemma ShedDevIsReleased()
    ensures ServesOk(UpscVars(SHED_DEV, map[]))
    ensures SignalPosition(UpscVars(SHED_DEV, map[])["ups.status"]) == ShedReleased
  {
    var name, value, lines := "ups.status", "OL", SHED_IDENTITY;
    IdentityLeavesStatus();
    TrimKeeps(value, IsSpace);
    DevLineIsRead(name, value, DevText(lines), map[]);
    StatusStays(lines, map[name := value]);
    WrittenSignalsReadBack();
  }

  /** The name the controller writes a server's signal to is that of a dummy-ups section, whose
      state file is rendered and starts released. */
  lemma SignalsAreServed(c: Configuration, chassisReady: bool, getenv: Getenv, split: Splitter,
                         files: map<string, string>, l: string)
    requires Valid(c) && IsRendering(c, getenv, split, files) && IsServer(c, l)
    ensures var shedUps := WiringOf(c, chassisReady).shedUps.value;
            l in shedUps && DummySection(l) in UpsSections(c, getenv) && DummySection(l).name == shedUps[l]
    ensures Setting("port", DevFile(l)) in DummySection(l).directives && DevFile(l) in files
    ensures var vars := UpscVars(files[DevFile(l)], map[]);
            ServesOk(vars) && SignalPosition(vars["ups.status"]) == ShedReleased
  {
    var k := SignalNameAt(c, getenv, l);
    assert UpsSections(c, getenv)[k] in UpsSections(c, getenv);
    assert DummySection(l).directives[1] == Setting("port", DevFile(l));
    assert IsDevFile(c, DevFile(l));
    ShedDevIsReleased();
  }

  // ---- what the check of a configuration leaves open ----

  function WithUpses(upses: map<string, UPSSpec>): Configuration {
    Configuration(1, 0, false, None, LocalUpsd("host:3493", "", ""), upses, map[])
  }

  function LocalUps(upsName: string, options: map<string, string>): UPSSpec {
    UPSSpec("host:3493", upsName, 1, 0, 0, Some(Driver("snmp-ups", "host", options, map[])))
  }

  /** The check does not keep names apart: two local UPSes may share one. */
  lemma NamesMayClash() returns (c: Configuration)
    ensures Valid(c) && !NamesApart(c)
  {
    c := WithUpses(map["a" := LocalUps("ups", map[]), "b" := LocalUps("ups", map[])]);
    assert IsLocal(c, "a") && IsLocal(c, "b") && "a" != "b";
  }

  function ServerFor(user: string, passwordEnv: string): LoadSpec {
    LoadSpec(TYPE_NUT_SERVER, ["a"], None, Some(Wake.Wake("mac", "host:9")), Some("host:22"),
             Some(Secondary(user, passwordEnv)))
  }

  /** Nor users: two servers may name one user with different passwords, all else being apart. */
  lemma UsersMayClash() returns (c: Configuration)
    ensures Valid(c) && HaveLogins(c) && NamesApart(c) && !UsersApart(c)
  {
    var upses := map["a" := LocalUps("ups", map[])];
    var loads := map["p" := ServerFor("user", "P"), "q" := ServerFor("user", "Q")];
    c := Configuration(1, 0, false, None, LocalUpsd("host:3493", "admin", "ADMIN"), upses, loads);
    ValidServerFor("user", "P");
    ValidServerFor("user", "Q");
    assert forall l :: l in c.loads ==> ValidLoad(c, c.loads[l]);
    assert "a" in c.upses && forall u :: u in c.upses ==> ValidUps(c.upses[u]);
    assert Valid(c);
    assert IsServer(c, "p") && IsServer(c, "q") && "p" != "q" && UserOf(c, "p") == UserOf(c, "q");
    assert HaveLogins(c);
    assert forall u :: IsLocal(c, u) ==> u == "a";
    forall l ensures ShedUpsName(l) != "ups" { assert ShedUpsName(l)[0] == 's'; }
  }

  lemma ValidServerFor(user: string, passwordEnv: string)
    requires user != "" && passwordEnv != ""
    ensures ValidServer(ServerFor(user, passwordEnv))
  {
  }

  /** Nor settings: an option may be called `port`, all else being in order. */
  lemma SettingsMayClash() returns (c: Configuration, d: Driver)
    ensures Valid(c) && OnLines(c) && PlainOptions(c) && NamesApart(c)
    ensures "a" in c.upses && c.upses["a"].driver == Some(d) && !KeysApart(d)
  {
    var options := map["port" := "other"];
    c := WithUpses(map["a" := LocalUps("ups", options)]);
    d := Driver("snmp-ups", "host", options, map[]);
    assert "port" in options && OneLine("port") && OneLine("other") && '=' !in "port";
    assert c.upses.Keys == {"a"};
    assert DriverOnLines(c.upses["a"]);
    assert PlainDriver(d);
    assert !KeysApart(d);
  }

  /** Nor does it look into option names. */
  lemma OptionsMayBePoor() returns (c: Configuration)
    ensures Valid(c) && OnLines(c) && !PlainOptions(c)
  {
    var options := map["=" := "v"];
    c := WithUpses(map["a" := LocalUps("ups", options)]);
    assert IsLocal(c, "a") && "=" in options && '=' in "=";
  }
}
