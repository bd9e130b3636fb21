/** What the two NUT readers make of what a NUT server prints. */
module NutLaws {
  import opened Common
  import opened Control
  import opened Effects
  import opened Nut
  import opened Ordering
  import opened Text

  // ---- the server's side of the protocol ----

  /** Quotes and backslashes travel with a backslash in front. */
  function Escaped(v: string): string {
    if v == [] then []
    else (if v[0] == '"' || v[0] == '\\' then ['\\', v[0]] else [v[0]]) + Escaped(v[1..])
  }

  function Quoted(v: string): string {
    "\"" + Escaped(v) + "\""
  }

  function VarLine(ups: string, name: string, value: string): string {
    "VAR" + " " + (ups + " " + (name + " " + Quoted(value)))
  }

  function VarLines(ups: string, names: seq<string>, m: map<string, string>): string
    requires forall n :: n in names ==> n in m
  {
    if names == [] then [] else VarLine(ups, names[0], m[names[0]]) + "\n" + VarLines(ups, names[1..], m)
  }

  function EndLine(ups: string): string {
    "END LIST VAR " + ups
  }

  /** The VAR lines and the closing line. */
  function BlockBody(ups: string, names: seq<string>, m: map<string, string>): string
    requires forall n :: n in names ==> n in m
  {
    VarLines(ups, names, m) + EndLine(ups) + "\n"
  }

  function ListVarBlock(ups: string, names: seq<string>, m: map<string, string>): string
    requires forall n :: n in names ==> n in m
  {
    ("BEGIN LIST VAR " + ups) + "\n" + BlockBody(ups, names, m)
  }

  function UpscText(names: seq<string>, m: map<string, string>): string
    requires forall n :: n in names ==> n in m
  {
    if names == [] then [] else names[0] + ":" + (" " + m[names[0]]) + "\n" + UpscText(names[1..], m)
  }

  /** A word the line protocol can carry unquoted. */
  predicate IsWord(s: string) {
    ' ' !in s && '\n' !in s
  }

  predicate IsPlain(v: string) {
    '"' !in v && '\\' !in v
  }

  ghost predicate Printable(ups: string, m: map<string, string>) {
    IsWord(ups) && forall n :: n in m ==> IsWord(n) && '\n' !in m[n]
  }

  // ---- one VAR line ----

  function Count(s: string, c: char): nat {
    if s == [] then 0 else (if s[0] == c then 1 else 0) + Count(s[1..], c)
  }

  lemma {:induction false} CountConcat(a: string, b: string, c: char)
    ensures Count(a + b, c) == Count(a, c) + Count(b, c)
  {
    if a == [] {
      assert a + b == b;
    } else {
      assert (a + b)[1..] == a[1..] + b;
      CountConcat(a[1..], b, c);
    }
  }

  lemma {:induction false} CountZero(s: string, c: char)
    ensures Count(s, c) == 0 <==> c !in s
  {
    if s != [] {
      CountZero(s[1..], c);
      assert s == [s[0]] + s[1..];
    }
  }

  lemma {:induction false} TrimmingQuotesLeft(s: string)
    ensures Count(TrimLeft(s, IsQuote), '\\') == Count(s, '\\')
  {
    if s != [] && IsQuote(s[0]) { TrimmingQuotesLeft(s[1..]); }
  }

  lemma {:induction false} TrimmingQuotesRight(s: string)
    ensures Count(TrimRight(s, IsQuote), '\\') == Count(s, '\\')
  {
    if s != [] && IsQuote(s[|s| - 1]) {
      var n := |s| - 1;
      TrimmingQuotesRight(s[..n]);
      CountConcat(s[..n], [s[n]], '\\');
      assert s == s[..n] + [s[n]];
    }
  }

  lemma {:induction false} EscapingDoubles(v: string)
    ensures Count(Escaped(v), '\\') == 2 * Count(v, '\\') + Count(v, '"')
    ensures IsPlain(v) ==> Escaped(v) == v
    ensures '\n' !in v ==> '\n' !in Escaped(v)
  {
    if v != [] {
      EscapingDoubles(v[1..]);
      assert v == [v[0]] + v[1..];
      var head := if v[0] == '"' || v[0] == '\\' then ['\\', v[0]] else [v[0]];
      CountConcat(head, Escaped(v[1..]), '\\');
      assert |head| == 2 ==> head[1..] == [v[0]];
    }
  }

  lemma PlainIsUnquoted(v: string)
    requires v != [] && v[0] != '"' && v[|v| - 1] != '"'
    ensures Trim("\"" + v + "\"", IsQuote) == v
  {
    var q, l := "\"" + v + "\"", v + "\"";
    assert q[1..] == l;
    assert TrimLeft(q, IsQuote) == TrimLeft(l, IsQuote) == l;
    assert l[..|l| - 1] == v;
    assert TrimRight(l, IsQuote) == TrimRight(v, IsQuote) == v;
  }

  lemma NothingIsUnquoted()
    ensures Trim("\"" + "" + "\"", IsQuote) == ""
  {
    var q := "\"" + "" + "\"";
    assert q[1..] == "\"" && q[1..][1..] == "";
    assert TrimLeft("\"", IsQuote) == TrimLeft("\""[1..], IsQuote) == "";
    assert TrimLeft(q, IsQuote) == TrimLeft(q[1..], IsQuote);
  }

  lemma TrimmingQuotes(s: string)
    ensures Count(Trim(s, IsQuote), '\\') == Count(s, '\\')
  {
    TrimmingQuotesLeft(s);
    TrimmingQuotesRight(TrimLeft(s, IsQuote));
  }

  lemma QuotedCount(v: string)
    ensures Count(Quoted(v), '\\') == 2 * Count(v, '\\') + Count(v, '"')
  {
    var e := Escaped(v);
    EscapingDoubles(v);
    CountConcat("\"" + e, "\"", '\\');
    CountConcat("\"", e, '\\');
    CountZero("\"", '\\');
  }

  /** The reader takes the quotes off but never undoes the escapes, so a value survives
      exactly when it has neither a quote nor a backslash. */
  lemma UnquotingIsExact(v: string)
    ensures Trim(Quoted(v), IsQuote) == v <==> IsPlain(v)
  {
    if IsPlain(v) {
      EscapingDoubles(v);
      if v == [] {
        NothingIsUnquoted();
      } else {
        assert v[0] in v && v[|v| - 1] in v;
        PlainIsUnquoted(v);
      }
    } else {
      TrimmingQuotes(Quoted(v));
      QuotedCount(v);
      CountZero(v, '\\');
      CountZero(v, '"');
    }
  }

  lemma VarLineSplits(ups: string, name: string, value: string)
    requires IsWord(ups) && IsWord(name)
    ensures SplitN(VarLine(ups, name, value), ' ', 4) == ["VAR", ups, name, Quoted(value)]
  {
    JoinedThree("VAR", ups, name, Quoted(value));
    SplitJoined(["VAR", ups, name], Quoted(value));
  }

  /** One variable survives its line exactly when its value needs no escape. */
  lemma VarLineReadsBack(ups: string, name: string, value: string)
    requires IsWord(ups) && IsWord(name)
    ensures ParseVarLine(VarLine(ups, name, value), ups) == Some((name, value)) <==> IsPlain(value)
    ensures forall other :: other != ups ==> ParseVarLine(VarLine(ups, name, value), other) == None
  {
    VarLineSplits(ups, name, value);
    UnquotingIsExact(value);
  }

  // ---- a whole block ----

  lemma NextLine(line: string, rest: string)
    requires '\n' !in line
    ensures '\n' in line + "\n" + rest
    ensures FirstLine(line + "\n" + rest) == TrimRight(line, IsLineEnd)
    ensures AfterLine(line + "\n" + rest) == rest
  {
    CutAt(line, '\n', rest);
    assert (line + "\n" + rest)[|line|] == '\n';
  }

  lemma {:induction false} TrimRightKeepsStart(p: string, s: string, drop: char -> bool)
    requires p != [] && !drop(p[|p| - 1])
    ensures HasPrefix(TrimRight(p + s, drop), p)
  {
    var t := p + s;
    if s == [] {
      assert t == p;
    } else if drop(t[|t| - 1]) {
      assert t[..|t| - 1] == p + s[..|s| - 1];
      TrimRightKeepsStart(p, s[..|s| - 1], drop);
    } else {
      assert t[..|p|] == p;
    }
  }

  /** What of a line tells the reader its kind. */
  lemma VarLineShape(ups: string, name: string, value: string)
    requires IsWord(ups) && IsWord(name) && '\n' !in value
    ensures var line := VarLine(ups, name, value);
            '\n' !in line && |line| > 4 && line[..4] == "VAR " && line[|line| - 1] == '"'
  {
    EscapingDoubles(value);
    var line := VarLine(ups, name, value);
    var q := Quoted(value);
    assert '\n' !in q;
    assert q[|q| - 1] == '"';
    assert line[|line| - 1] == q[|q| - 1];
  }

  lemma KindByStart(line: string)
    ensures HasPrefix(line, "VAR ") ==> KindOf(line) == VarEntry
    ensures HasPrefix(line, "BEGIN LIST VAR ") ==> KindOf(line) == BeginLine
    ensures HasPrefix(line, "END LIST VAR ") ==> KindOf(line) == EndOfList
  {
    if HasPrefix(line, "VAR ") {
      assert line[0] == line[..4][0] == 'V';
    } else if HasPrefix(line, "BEGIN LIST VAR ") {
      assert line[..14] == line[..15][..14] == "BEGIN LIST VAR";
      assert line[0] == line[..15][0] == 'B';
    } else if HasPrefix(line, "END LIST VAR ") {
      assert line[..12] == line[..13][..12] == "END LIST VAR";
      assert line[0] == line[..13][0] == 'E' && line[1] == line[..13][1] == 'N';
    }
  }

  /** One line is taken by its kind and the rest is read on. */
  lemma OneLineIsRead(line: string, ups: string, rest: string, vars: map<string, string>, seen: string)
    requires '\n' !in line && seen == TrimRight(line, IsLineEnd)
    ensures var res := Collected(line + "\n" + rest, ups, vars);
            match KindOf(seen)
            case EndOfList => res == Vars(vars)
            case VarEntry => res == Collected(rest, ups, WithVar(vars, ParseVarLine(seen, ups)))
            case BeginLine => res == Collected(rest, ups, vars)
            case _ => true
  {
    NextLine(line, rest);
  }

  lemma EndLineIsRead(ups: string, rest: string, vars: map<string, string>)
    requires IsWord(ups)
    ensures Collected(EndLine(ups) + "\n" + rest, ups, vars) == Vars(vars)
  {
    TrimRightKeepsStart("END LIST VAR ", ups, IsLineEnd);
    var seen := TrimRight(EndLine(ups), IsLineEnd);
    KindByStart(seen);
    OneLineIsRead(EndLine(ups), ups, rest, vars, seen);
  }

  lemma EntryIsRead(line: string, ups: string, name: string, value: string, rest: string, vars: map<string, string>)
    requires '\n' !in line && HasPrefix(line, "VAR ") && !IsLineEnd(line[|line| - 1])
    requires ParseVarLine(line, ups) == Some((name, value))
    ensures Collected(line + "\n" + rest, ups, vars) == Collected(rest, ups, vars[name := value])
  {
    assert TrimRight(line, IsLineEnd) == line;
    KindByStart(line);
    OneLineIsRead(line, ups, rest, vars, line);
  }

  /** What the reader makes of a value between its quotes. */
  function Unquoted(value: string): string {
    Trim(Quoted(value), IsQuote)
  }

  lemma VarLineIsRead(ups: string, name: string, value: string, rest: string, vars: map<string, string>)
    requires IsWord(ups) && IsWord(name) && '\n' !in value
    ensures Collected(VarLine(ups, name, value) + "\n" + rest, ups, vars)
            == Collected(rest, ups, vars[name := Unquoted(value)])
  {
    VarLineShape(ups, name, value);
    VarLineSplits(ups, name, value);
    EntryIsRead(VarLine(ups, name, value), ups, name, Unquoted(value), rest, vars);
  }

  /** The variables a list of VAR lines adds. */
  function Added(vars: map<string, string>, names: seq<string>, m: map<string, string>): map<string, string>
    requires forall n :: n in names ==> n in m
    decreases |names|
  {
    if names == [] then vars
    else Added(vars[names[0] := Unquoted(m[names[0]])], names[1..], m)
  }

  lemma {:induction false} AddedIs(vars: map<string, string>, names: seq<string>, m: map<string, string>)
    requires forall n :: n in names ==> n in m
    ensures forall n :: n in Added(vars, names, m) <==> n in vars || n in names
    ensures forall n :: n in Added(vars, names, m) ==>
              Added(vars, names, m)[n] == if n in names then Unquoted(m[n]) else vars[n]
    decreases |names|
  {
    if names != [] {
      assert names == [names[0]] + names[1..];
      AddedIs(vars[names[0] := Unquoted(m[names[0]])], names[1..], m);
    }
  }

  lemma {:induction false} LinesAreRead(ups: string, names: seq<string>, m: map<string, string>, rest: string,
                                        vars: map<string, string>)
    requires Printable(ups, m) && forall n :: n in names ==> n in m
    decreases |names|
    ensures Collected(VarLines(ups, names, m) + rest, ups, vars) == Collected(rest, ups, Added(vars, names, m))
  {
    if names == [] {
      assert VarLines(ups, names, m) + rest == rest;
    } else {
      var line, more := VarLine(ups, names[0], m[names[0]]), VarLines(ups, names[1..], m);
      VarLineIsRead(ups, names[0], m[names[0]], more + rest, vars);
      assert VarLines(ups, names, m) + rest == line + "\n" + (more + rest);
      LinesAreRead(ups, names[1..], m, rest, vars[names[0] := Unquoted(m[names[0]])]);
    }
  }

  lemma BeginLineIsRead(ups: string, rest: string, vars: map<string, string>)
    requires IsWord(ups)
    ensures Collected(("BEGIN LIST VAR " + ups) + "\n" + rest, ups, vars) == Collected(rest, ups, vars)
  {
    var begin := "BEGIN LIST VAR " + ups;
    TrimRightKeepsStart("BEGIN LIST VAR ", ups, IsLineEnd);
    var seen := TrimRight(begin, IsLineEnd);
    KindByStart(seen);
    OneLineIsRead(begin, ups, rest, vars, seen);
  }

  lemma BlockIsRead(ups: string, names: seq<string>, m: map<string, string>, rest: string)
    requires Printable(ups, m) && forall n :: n in names ==> n in m
    ensures Collected(ListVarBlock(ups, names, m) + rest, ups, map[]) == Vars(Added(map[], names, m))
  {
    var lines := VarLines(ups, names, m);
    var begin := "BEGIN LIST VAR " + ups;
    var tail := EndLine(ups) + "\n" + rest;
    assert ListVarBlock(ups, names, m) + rest == begin + "\n" + (lines + tail);
    BeginLineIsRead(ups, lines + tail, map[]);
    LinesAreRead(ups, names, m, tail, map[]);
    EndLineIsRead(ups, rest, Added(map[], names, m));
  }

  lemma AddedIsExact(names: seq<string>, m: map<string, string>)
    requires Enumerates(names, m.Keys)
    ensures Added(map[], names, m) == m <==> forall n :: n in m ==> IsPlain(m[n])
  {
    AddedIs(map[], names, m);
    var added := Added(map[], names, m);
    assert added.Keys == m.Keys;
    forall n | n in m ensures added[n] == m[n] <==> IsPlain(m[n]) { UnquotingIsExact(m[n]); }
    if forall n :: n in m ==> IsPlain(m[n]) {
      assert forall n :: n in m ==> added[n] == m[n];
    }
  }

  /** A complete block, printed in any order, reads back as the variable map it was printed from
      exactly when no value needs an escape; whatever follows it on the connection is ignored. */
  lemma ListVarRoundTrip(ups: string, names: seq<string>, m: map<string, string>, rest: string)
    requires Printable(ups, m) && Enumerates(names, m.Keys)
    ensures Collected(ListVarBlock(ups, names, m) + rest, ups, map[]) == Vars(m)
            <==> forall n :: n in m ==> IsPlain(m[n])
  {
    BlockIsRead(ups, names, m, rest);
    AddedIsExact(names, m);
  }

  // ---- the protocol, spelt out ----

  /** Both line ends of the wire are dropped, and nothing else. */
  lemma LineEndsAreDropped(line: string, rest: string)
    requires '\n' !in line && (line == [] || line[|line| - 1] != '\r')
    ensures FirstLine(line + "\n" + rest) == line && AfterLine(line + "\n" + rest) == rest
    ensures FirstLine(line + "\r" + "\n" + rest) == line && AfterLine(line + "\r" + "\n" + rest) == rest
  {
    assert line != [] ==> line[|line| - 1] in line;
    NextLine(line, rest);
    NextLine(line + "\r", rest);
    assert (line + "\r")[..|line|] == line;
    assert TrimRight(line + "\r", IsLineEnd) == TrimRight(line, IsLineEnd) == line;
  }

  /** An ERR line, first or later, makes the whole answer an error. */
  lemma ErrIsAnError(message: string, ups: string, rest: string, vars: map<string, string>)
    requires '\n' !in message
    ensures Collected("ERR " + message + "\n" + rest, ups, vars) == Error
  {
    var line := "ERR " + message;
    TrimRightKeepsStart("ERR ", message, IsLineEnd);
    NextLine(line, rest);
  }

  /** A line that begins like none of the protocol's is skipped. */
  lemma OtherLinesAreSkipped(line: string, ups: string, rest: string, vars: map<string, string>)
    requires '\n' !in line && (line == [] || line[|line| - 1] != '\r')
    requires !HasPrefix(line, "ERR ") && !HasPrefix(line, "BEGIN LIST VAR")
    requires !HasPrefix(line, "END LIST VAR") && !HasPrefix(line, "VAR ")
    ensures Collected(line + "\n" + rest, ups, vars) == Collected(rest, ups, vars)
  {
    LineEndsAreDropped(line, rest);
    NextLine(line, rest);
  }

  /** One variable's line, literally. */
  lemma VarLineText(ups: string, name: string, value: string)
    requires IsPlain(value)
    ensures VarLine(ups, name, value) == "VAR " + ups + " " + name + " \"" + value + "\""
  {
    EscapingDoubles(value);
    assert "VAR" + " " == "VAR ";
    assert " " + "\"" == " \"";
    assert name + " " + Quoted(value) == name + (" " + "\"") + value + "\"";
  }

  /** The answer about one variable, literally, and what is read of it. */
  lemma OneVarAnswer(ups: string, name: string, value: string)
    requires IsWord(ups) && IsWord(name) && IsPlain(value) && '\n' !in value
    ensures var answer := ("BEGIN LIST VAR " + ups) + "\n"
                          + (("VAR " + ups + " " + name + " \"" + value + "\"") + "\n"
                          + (("END LIST VAR " + ups) + "\n" + ""));
            Collected(answer, ups, map[]) == Vars(map[name := value])
  {
    VarLineText(ups, name, value);
    var end := ("END LIST VAR " + ups) + "\n" + "";
    BeginLineIsRead(ups, VarLine(ups, name, value) + "\n" + end, map[]);
    VarLineIsRead(ups, name, value, end, map[]);
    UnquotingIsExact(value);
    EndLineIsRead(ups, "", map[][name := value]);
  }

  /** What a listed block says of the battery and the status is what the telemetry says. */
  lemma ListedValuesAreRead(atoi: IntParser, ups: string, names: seq<string>, m: map<string, string>)
    requires Printable(ups, m) && Enumerates(names, m.Keys) && forall n :: n in m ==> IsPlain(m[n])
    ensures var res := Collected(ListVarBlock(ups, names, m), ups, map[]);
            res == Vars(m)
            && var t := TelemetryOf(atoi, res.vars);
               && (t.ok <==> "ups.status" in m)
               && ("ups.status" in m ==>
                     (t.status.onLine <==> HasField(m["ups.status"], "OL"))
                     && (t.status.onBattery <==> HasField(m["ups.status"], "OB"))
                     && (t.status.lowBattery <==> HasField(m["ups.status"], "LB")))
               && ("battery.runtime" in m && atoi(TrimSpace(m["battery.runtime"])).Some? ==>
                     t.runtime == atoi(TrimSpace(m["battery.runtime"])).value)
               && ("battery.runtime" !in m ==> t.runtime == -1)
               && ("battery.charge" in m && atoi(TrimSpace(m["battery.charge"])).Some? ==>
                     t.charge == atoi(TrimSpace(m["battery.charge"])).value)
               && ("battery.charge" !in m ==> t.charge == -1)
  {
    ListVarRoundTrip(ups, names, m, []);
    assert ListVarBlock(ups, names, m) + [] == ListVarBlock(ups, names, m);
  }

  lemma CutInsideOrBeyond(line: string, more: string, k: nat)
    requires '\n' !in line && k < |line + "\n" + more|
    ensures k <= |line| ==> '\n' !in (line + "\n" + more)[..k]
    ensures k > |line| ==> (line + "\n" + more)[..k] == line + "\n" + more[..k - |line| - 1]
  {
    if k <= |line| { assert (line + "\n" + more)[..k] == line[..k]; }
  }

  lemma CutEntry(ups: string, name: string, value: string, more: string, k: nat, vars: map<string, string>)
    requires IsWord(ups) && IsWord(name) && '\n' !in value
    requires k < |VarLine(ups, name, value) + "\n" + more|
    ensures var line := VarLine(ups, name, value);
            Collected((line + "\n" + more)[..k], ups, vars)
            == if k <= |line| then Error else Collected(more[..k - |line| - 1], ups, vars[name := Unquoted(value)])
  {
    var line := VarLine(ups, name, value);
    VarLineShape(ups, name, value);
    CutInsideOrBeyond(line, more, k);
    if k > |line| { VarLineIsRead(ups, name, value, more[..k - |line| - 1], vars); }
  }

  lemma {:induction false} TruncatedBody(ups: string, names: seq<string>, m: map<string, string>, k: nat,
                                         vars: map<string, string>)
    requires Printable(ups, m) && forall n :: n in names ==> n in m
    requires k < |BlockBody(ups, names, m)|
    ensures Collected(BlockBody(ups, names, m)[..k], ups, vars) == Error
    decreases |names|
  {
    if names == [] {
      assert BlockBody(ups, names, m) == EndLine(ups) + "\n" + "";
      CutInsideOrBeyond(EndLine(ups), "", k);
    } else {
      var n, more := names[0], BlockBody(ups, names[1..], m);
      var line := VarLine(ups, n, m[n]);
      assert BlockBody(ups, names, m) == line + "\n" + more;
      CutEntry(ups, n, m[n], more, k, vars);
      if k > |line| { TruncatedBody(ups, names[1..], m, k - |line| - 1, vars[n := Unquoted(m[n])]); }
    }
  }

  /** A connection that breaks off anywhere inside a block is an error, never a shorter map. */
  lemma TruncationIsAnError(ups: string, names: seq<string>, m: map<string, string>, k: nat)
    requires Printable(ups, m) && (forall n :: n in names ==> n in m) && k < |ListVarBlock(ups, names, m)|
    ensures Collected(ListVarBlock(ups, names, m)[..k], ups, map[]) == Error
  {
    var begin, body := "BEGIN LIST VAR " + ups, BlockBody(ups, names, m);
    CutInsideOrBeyond(begin, body, k);
    if k > |begin| {
      var j := k - |begin| - 1;
      BeginLineIsRead(ups, body[..j], map[]);
      TruncatedBody(ups, names, m, j, map[]);
    }
  }

  // ---- the two readers agree ----

  lemma UpscLineIsRead(n: string, v: string, more: string, vars: map<string, string>)
    requires '\n' !in v && ':' !in n && forall c :: c in n ==> !IsSpace(c)
    ensures UpscVars(n + ":" + (" " + v) + "\n" + more, vars) == UpscVars(more, vars[n := TrimSpace(v)])
  {
    var line := n + ":" + (" " + v);
    assert n != [] ==> n[0] in n && n[|n| - 1] in n;
    TrimKeeps(n, IsSpace);
    assert (" " + v)[1..] == v;
    assert TrimLeft(" " + v, IsSpace) == TrimLeft(v, IsSpace);
    CutAt(n, ':', " " + v);
    assert '\n' !in line;
    CutAt(line, '\n', more);
  }

  lemma {:induction false} UpscReads(names: seq<string>, m: map<string, string>, vars: map<string, string>)
    requires forall n :: n in names ==> n in m && '\n' !in m[n]
    requires forall n :: n in names ==> ':' !in n && forall c :: c in n ==> !IsSpace(c)
    ensures forall n :: n in UpscVars(UpscText(names, m), vars) <==> n in vars || n in names
    ensures forall n :: n in UpscVars(UpscText(names, m), vars) ==>
              UpscVars(UpscText(names, m), vars)[n] == if n in names then TrimSpace(m[n]) else vars[n]
  {
    if names != [] {
      var n := names[0];
      assert names == [n] + names[1..];
      UpscLineIsRead(n, m[n], UpscText(names[1..], m), vars);
      UpscReads(names[1..], m, vars[n := TrimSpace(m[n])]);
    }
  }

  lemma TrimmingKeepsStatus(v: string)
    ensures StatusOf(TrimSpace(v)) == StatusOf(v)
  {
    TrimKeepsFields(v);
    FieldsAreTheTokens(v, "OL");
    FieldsAreTheTokens(v, "OB");
    FieldsAreTheTokens(v, "LB");
    FieldsAreTheTokens(TrimSpace(v), "OL");
    FieldsAreTheTokens(TrimSpace(v), "OB");
    FieldsAreTheTokens(TrimSpace(v), "LB");
  }

  lemma TrimmedValuesTellTheSame(atoi: IntParser, u: map<string, string>, m: map<string, string>)
    requires u.Keys == m.Keys && forall n :: n in m ==> u[n] == TrimSpace(m[n])
    ensures TelemetryOf(atoi, u) == TelemetryOf(atoi, m)
  {
    forall n | n in m ensures TrimSpace(u[n]) == TrimSpace(m[n]) {
      TrimIsIdempotent(m[n], IsSpace);
    }
    if "ups.status" in m { TrimmingKeepsStatus(m["ups.status"]); }
  }

  /** The same variables, printed as `upsc` text and as a LIST VAR block in any two orders,
      give the same telemetry, although only one reader trims values. */
  lemma ReadersAgree(atoi: IntParser, ups: string, names: seq<string>, others: seq<string>, m: map<string, string>)
    requires Printable(ups, m) && Enumerates(names, m.Keys) && Enumerates(others, m.Keys)
    requires forall n :: n in m ==> IsPlain(m[n]) && ':' !in n && forall c :: c in n ==> !IsSpace(c)
    ensures var res := Collected(ListVarBlock(ups, names, m), ups, map[]);
            res.Vars? && TelemetryOf(atoi, UpscVars(UpscText(others, m), map[])) == TelemetryOf(atoi, res.vars)
  {
    ListVarRoundTrip(ups, names, m, []);
    assert ListVarBlock(ups, names, m) + [] == ListVarBlock(ups, names, m);
    UpscReads(others, m, map[]);
    TrimmedValuesTellTheSame(atoi, UpscVars(UpscText(others, m), map[]), m);
  }

  // ---- the shed signal over the wire ----

  const HEX_DIGITS: string := "0123456789abcdef"

  /** The lowest `width` hexadecimal digits of a number. */
  function Hex(n: nat, width: nat): string {
    if width == 0 then [] else Hex(n / 16, width - 1) + [HEX_DIGITS[n % 16]]
  }

  /** What Go takes for printable: of ASCII, everything from blank to tilde; beyond, as `beyond` says. */
  predicate Prints(beyond: char -> bool, c: char) {
    if c as int < 0x80 then 0x20 <= c as int < 0x7F else beyond(c)
  }

  /** The escape of a character that does not print, behind its backslash. */
  function EscapeOf(n: nat): string {
    match n
    case 7 => "a"
    case 8 => "b"
    case 9 => "t"
    case 10 => "n"
    case 11 => "v"
    case 12 => "f"
    case 13 => "r"
    case _ =>
      if n < 0x20 || n == 0x7F then "x" + Hex(n, 2)
      else if n < 0x10000 then "u" + Hex(n, 4)
      else "U" + Hex(n, 8)
  }

  /** How Go's quoting writes one character: a quote or backslash behind a backslash, a printable
      one as it is, any other by its escape. */
  function QuotedChar(beyond: char -> bool, c: char): string {
    if c == '"' || c == '\\' then ['\\', c]
    else if Prints(beyond, c) then [c]
    else ['\\'] + EscapeOf(c as int)
  }

  function QuotedChars(beyond: char -> bool, v: string): string {
    if v == [] then [] else QuotedChar(beyond, v[0]) + QuotedChars(beyond, v[1..])
  }

  /** strconv.Quote. */
  function GoQuoted(beyond: char -> bool, v: string): string {
    "\"" + QuotedChars(beyond, v) + "\""
  }

  ghost predicate AllPrint(beyond: char -> bool, v: string) {
    forall c :: c in v ==> Prints(beyond, c)
  }

  /** The command SetVar sends. */
  function SetVarCommand(beyond: char -> bool, ups: string, name: string, value: string): string {
    Joined(["SET", "VAR", ups, name], GoQuoted(beyond, value))
  }

  /** The escapes undone, as the server's parser does: a backslash makes the next character
      stand for itself. */
  function Unescaped(s: string): string {
    if s == [] then []
    else if s[0] == '\\' && |s| > 1 then [s[1]] + Unescaped(s[2..])
    else [s[0]] + Unescaped(s[1..])
  }

  /** What that makes of one quoted character. */
  function CharRead(beyond: char -> bool, c: char): string {
    var q := QuotedChar(beyond, c);
    if q[0] == '\\' then q[1..] else q
  }

  lemma {:induction false} HexPrints(beyond: char -> bool, n: nat, width: nat)
    ensures |Hex(n, width)| == width && AllPrint(beyond, Hex(n, width)) && '\\' !in Hex(n, width)
  {
    if width > 0 {
      HexPrints(beyond, n / 16, width - 1);
      assert forall k :: 0 <= k < |HEX_DIGITS| ==> 0x30 <= HEX_DIGITS[k] as int <= 0x66 && HEX_DIGITS[k] != '\\';
    }
  }

  /** An escape is a backslash and printable characters, the rest of which hold no backslash;
      what is read of it is printable, and is the character itself only if that is. */
  lemma OneCharRead(beyond: char -> bool, c: char)
    ensures var q := QuotedChar(beyond, c);
            if Prints(beyond, c) then q == (if c == '"' || c == '\\' then ['\\', c] else [c])
            else |q| >= 2 && q[0] == '\\' && '\\' !in q[1..] && AllPrint(beyond, q)
    ensures AllPrint(beyond, CharRead(beyond, c)) && (Prints(beyond, c) ==> CharRead(beyond, c) == [c])
  {
    HexPrints(beyond, c as int, 2);
    HexPrints(beyond, c as int, 4);
    HexPrints(beyond, c as int, 8);
  }

  lemma {:induction false} UnescapingPlain(s: string, rest: string)
    requires '\\' !in s
    ensures Unescaped(s + rest) == s + Unescaped(rest)
  {
    if s == [] {
      assert s + rest == rest;
    } else {
      assert (s + rest)[1..] == s[1..] + rest;
      UnescapingPlain(s[1..], rest);
    }
  }

  lemma UnescapingEscape(x: char, tail: string, rest: string)
    requires '\\' !in tail
    ensures Unescaped(['\\', x] + tail + rest) == [x] + tail + Unescaped(rest)
  {
    var s := ['\\', x] + tail + rest;
    assert s[2..] == tail + rest;
    UnescapingPlain(tail, rest);
  }

  lemma UnescapingOne(c: char, rest: string)
    requires c != '\\'
    ensures Unescaped([c] + rest) == [c] + Unescaped(rest)
  {
    assert ([c] + rest)[1..] == rest;
  }

  lemma UnescapingChar(beyond: char -> bool, c: char, rest: string)
    ensures Unescaped(QuotedChar(beyond, c) + rest) == CharRead(beyond, c) + Unescaped(rest)
  {
    OneCharRead(beyond, c);
    var q := QuotedChar(beyond, c);
    if q[0] == '\\' {
      assert q == ['\\', q[1]] + q[2..] && q[1..] == [q[1]] + q[2..];
      assert '\\' !in q[2..] by {
        if c == '"' || c == '\\' { assert q[2..] == []; } else { assert forall i :: 2 <= i < |q| ==> q[i] in q[1..]; }
      }
      UnescapingEscape(q[1], q[2..], rest);
    } else {
      UnescapingOne(c, rest);
    }
  }

  function CharsRead(beyond: char -> bool, v: string): string {
    if v == [] then [] else CharRead(beyond, v[0]) + CharsRead(beyond, v[1..])
  }

  lemma {:induction false} UnescapingQuoted(beyond: char -> bool, v: string)
    ensures Unescaped(QuotedChars(beyond, v)) == CharsRead(beyond, v)
    ensures AllPrint(beyond, CharsRead(beyond, v))
    ensures AllPrint(beyond, v) ==> CharsRead(beyond, v) == v
  {
    if v != [] {
      UnescapingChar(beyond, v[0], QuotedChars(beyond, v[1..]));
      UnescapingQuoted(beyond, v[1..]);
      OneCharRead(beyond, v[0]);
      assert v == [v[0]] + v[1..];
    }
  }

  /** What a server makes of a SET VAR line: the UPS, the variable and the unquoted value. */
  function ReadSetVar(cmd: string): Option<(string, string, string)> {
    var f := SplitN(cmd, ' ', 5);
    if |f| == 5 && f[0] == "SET" && f[1] == "VAR" && |f[4]| >= 2
    then Some((f[2], f[3], Unescaped(f[4][1..|f[4]| - 1])))
    else None
  }

  lemma SetVarIsRead(ups: string, name: string, inner: string)
    requires IsWord(ups) && IsWord(name)
    ensures ReadSetVar(Joined(["SET", "VAR", ups, name], "\"" + inner + "\"")) == Some((ups, name, Unescaped(inner)))
  {
    var q := "\"" + inner + "\"";
    SplitJoined(["SET", "VAR", ups, name], q);
    assert q[1..|q| - 1] == inner;
  }

  /** The command carries a value to the server unchanged exactly when all of it prints. */
  lemma SetVarIsUnderstood(beyond: char -> bool, ups: string, name: string, value: string)
    requires IsWord(ups) && IsWord(name)
    ensures ReadSetVar(SetVarCommand(beyond, ups, name, value)) == Some((ups, name, value)) <==> AllPrint(beyond, value)
  {
    SetVarIsRead(ups, name, QuotedChars(beyond, value));
    UnescapingQuoted(beyond, value);
  }

  lemma {:induction false} PrintingPlainIsItself(beyond: char -> bool, v: string)
    requires IsPlain(v) && AllPrint(beyond, v)
    ensures QuotedChars(beyond, v) == v
  {
    if v != [] {
      assert v[0] in v;
      PrintingPlainIsItself(beyond, v[1..]);
    }
  }

  /** The command for a plain value, literally. */
  lemma SetVarText(beyond: char -> bool, ups: string, name: string, value: string)
    requires IsPlain(value) && AllPrint(beyond, value)
    ensures SetVarCommand(beyond, ups, name, value) == "SET VAR " + ups + " " + name + " \"" + value + "\""
  {
    PrintingPlainIsItself(beyond, value);
    var q := "\"" + value + "\"";
    JoinedFour("SET", "VAR", ups, name, q);
    assert "SET" + " " + "VAR" + " " == "SET VAR ";
    assert " " + "\"" == " \"";
    assert "SET" + " " + ("VAR" + " " + (ups + " " + (name + " " + q)))
        == ("SET" + " " + "VAR" + " ") + ups + " " + name + (" " + "\"") + value + "\"";
  }

  lemma JoinedFour(a: string, b: string, c: string, d: string, last: string)
    ensures Joined([a, b, c, d], last) == a + " " + (b + " " + (c + " " + (d + " " + last)))
  {
    assert [a, b, c, d][1..] == [b, c, d];
    JoinedThree(b, c, d, last);
  }

  lemma {:induction false} QuotingBreaksNoLine(beyond: char -> bool, v: string)
    ensures '\n' !in QuotedChars(beyond, v)
  {
    if v != [] {
      OneCharRead(beyond, v[0]);
      QuotingBreaksNoLine(beyond, v[1..]);
      var q := QuotedChar(beyond, v[0]);
      assert '\n' !in q by {
        assert !Prints(beyond, '\n');
      }
    }
  }

  /** Whatever the value, the command is one line. */
  lemma SetVarIsOneLine(beyond: char -> bool, ups: string, name: string, value: string)
    requires IsWord(ups) && IsWord(name)
    ensures '\n' !in SetVarCommand(beyond, ups, name, value)
  {
    QuotingBreaksNoLine(beyond, value);
    JoinedBreaksNoLine(["SET", "VAR", ups, name], GoQuoted(beyond, value));
  }

  lemma {:induction false} JoinedBreaksNoLine(words: seq<string>, last: string)
    requires '\n' !in last && forall w :: w in words ==> '\n' !in w
    ensures '\n' !in Joined(words, last)
  {
    if words != [] {
      assert words[0] in words;
      JoinedBreaksNoLine(words[1..], last);
    }
  }

  /** A value that is written and then listed among the server's variables is read back. */
  lemma WriteIsServed(beyond: char -> bool, ups: string, names: seq<string>, m: map<string, string>, name: string,
                      value: string)
    requires Printable(ups, m) && forall n :: n in m ==> IsPlain(m[n])
    requires IsWord(name) && IsPlain(value) && AllPrint(beyond, value)
    requires Enumerates(names, m.Keys + {name})
    ensures ReadSetVar(SetVarCommand(beyond, ups, name, value)) == Some((ups, name, value))
    ensures Collected(ListVarBlock(ups, names, m[name := value]), ups, map[]) == Vars(m[name := value])
  {
    SetVarIsUnderstood(beyond, ups, name, value);
    assert '\n' !in value by { assert !Prints(beyond, '\n'); }
    var served := m[name := value];
    ListVarRoundTrip(ups, names, served, []);
    assert ListVarBlock(ups, names, served) + [] == ListVarBlock(ups, names, served);
  }

  /** The whole loop of the shed signal: what Assert or Release sends is what the server stores,
      what it then lists is read back in full, and it parses as asserted or released. */
  lemma SignalSurvivesTheWire(beyond: char -> bool, ups: string, names: seq<string>, m: map<string, string>,
                              asserted: bool)
    requires Printable(ups, m) && forall n :: n in m ==> IsPlain(m[n])
    requires Enumerates(names, m.Keys + {"ups.status"})
    ensures var text := if asserted then STATUS_SHED else STATUS_OK;
            ReadSetVar(SetVarCommand(beyond, ups, "ups.status", text)) == Some((ups, "ups.status", text))
            && var res := Collected(ListVarBlock(ups, names, m["ups.status" := text]), ups, map[]);
               res == Vars(m["ups.status" := text])
               && SignalPosition(Get(res.vars, "ups.status", "")) == if asserted then ShedAsserted else ShedReleased
  {
    WriteIsServed(beyond, ups, names, m, "ups.status", if asserted then STATUS_SHED else STATUS_OK);
    WrittenSignalsReadBack();
  }
}
