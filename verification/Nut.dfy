/** Reading a NUT server: the LIST VAR line protocol (section 4.2 of RFC 9271) and the `upsc`
    text form, both ending in the telemetry the decision core consumes. */
module Nut {
  import opened Common
  import opened Control
  import opened Text

  /** strconv.Atoi, as some partial function. */
  type IntParser = string -> Option<int>

  // ---- telemetry from variables ----

  ghost function StatusOf(text: string): Status {
    Status(HasField(text, "OL"), HasField(text, "OB"), HasField(text, "LB"))
  }

  method ParseStatus(text: string) returns (s: Status)
    ensures s == StatusOf(text)
    ensures s.onLine <==> HasField(text, "OL")
    ensures s.onBattery <==> HasField(text, "OB")
    ensures s.lowBattery <==> HasField(text, "LB")
  {
    s := Status(false, false, false);
    var fields := Fields(text);
    FieldsAreTheTokens(text, "OL");
    FieldsAreTheTokens(text, "OB");
    FieldsAreTheTokens(text, "LB");
    for k := 0 to |fields|
      invariant s.onLine <==> "OL" in fields[..k]
      invariant s.onBattery <==> "OB" in fields[..k]
      invariant s.lowBattery <==> "LB" in fields[..k]
    {
      assert fields[..k + 1] == fields[..k] + [fields[k]];
      if fields[k] == "OL" {
        s := s.(onLine := true);
      } else if fields[k] == "OB" {
        s := s.(onBattery := true);
      } else if fields[k] == "LB" {
        s := s.(lowBattery := true);
      }
    }
    assert fields[..|fields|] == fields;
  }

  /** A number where one can be read, -1 otherwise. */
  function NumberOf(atoi: IntParser, vars: map<string, string>, name: string): int {
    if name in vars && atoi(TrimSpace(vars[name])).Some? then atoi(TrimSpace(vars[name])).value else -1
  }

  ghost function TelemetryOf(atoi: IntParser, vars: map<string, string>): Telemetry {
    Telemetry("ups.status" in vars,
              if "ups.status" in vars then StatusOf(vars["ups.status"]) else Status(false, false, false),
              NumberOf(atoi, vars, "battery.runtime"),
              NumberOf(atoi, vars, "battery.charge"))
  }

  method TelemetryFromVars(atoi: IntParser, vars: map<string, string>) returns (t: Telemetry)
    ensures t == TelemetryOf(atoi, vars)
    ensures t.ok <==> "ups.status" in vars
    ensures "ups.status" in vars ==>
              && (t.status.onLine <==> HasField(vars["ups.status"], "OL"))
              && (t.status.onBattery <==> HasField(vars["ups.status"], "OB"))
              && (t.status.lowBattery <==> HasField(vars["ups.status"], "LB"))
    ensures "ups.status" !in vars ==> !t.status.onLine && !t.status.onBattery && !t.status.lowBattery
    ensures "battery.runtime" in vars && atoi(TrimSpace(vars["battery.runtime"])).Some? ==>
              t.runtime == atoi(TrimSpace(vars["battery.runtime"])).value
    ensures "battery.runtime" !in vars || atoi(TrimSpace(vars["battery.runtime"])).None? ==> t.runtime == -1
    ensures "battery.charge" in vars && atoi(TrimSpace(vars["battery.charge"])).Some? ==>
              t.charge == atoi(TrimSpace(vars["battery.charge"])).value
    ensures "battery.charge" !in vars || atoi(TrimSpace(vars["battery.charge"])).None? ==> t.charge == -1
  {
    t := Telemetry(false, Status(false, false, false), -1, -1);
    if "ups.status" in vars {
      var st := ParseStatus(vars["ups.status"]);
      t := t.(status := st, ok := true);
    }
    if "battery.runtime" in vars {
      var n := atoi(TrimSpace(vars["battery.runtime"]));
      if n.Some? { t := t.(runtime := n.value); }
    }
    if "battery.charge" in vars {
      var n := atoi(TrimSpace(vars["battery.charge"]));
      if n.Some? { t := t.(charge := n.value); }
    }
  }

  // ---- lines ----

  predicate IsLineEnd(c: char) {
    c == '\r' || c == '\n'
  }

  predicate IsQuote(c: char) {
    c == '"'
  }

  /** The text still to come on a connection. */
  class LineReader {
    var rest: string

    constructor (text: string)
      ensures rest == text
    {
      rest := text;
    }

    /** A line without its end, and whether it was complete; an incomplete one is an error. */
    method ReadLine() returns (line: string, complete: bool)
      modifies this
      ensures complete <==> '\n' in old(rest)
      ensures complete ==> line == FirstLine(old(rest)) && rest == AfterLine(old(rest))
    {
      var i := IndexOf(rest, '\n');
      complete := i < |rest|;
      line := TrimRight(rest[..i], IsLineEnd);
      rest := if complete then rest[i + 1..] else [];
    }
  }

  function FirstLine(s: string): string {
    TrimRight(s[..IndexOf(s, '\n')], IsLineEnd)
  }

  function AfterLine(s: string): (r: string)
    requires '\n' in s
    ensures |r| < |s|
  {
    s[IndexOf(s, '\n') + 1..]
  }

  // ---- LIST VAR ----

  /** One `VAR <ups> <name> "<value>"` line. */
  function ParseVarLine(line: string, ups: string): Option<(string, string)> {
    var fields := SplitN(line, ' ', 4);
    if |fields| != 4 || fields[0] != "VAR" || fields[1] != ups then None
    else Some((fields[2], Trim(fields[3], IsQuote)))
  }

  datatype VarsResult = Vars(vars: map<string, string>) | Error

  datatype LineKind = ErrLine | BeginLine | EndOfList | VarEntry | OtherLine

  function KindOf(line: string): LineKind {
    if HasPrefix(line, "ERR ") then ErrLine
    else if HasPrefix(line, "BEGIN LIST VAR") then BeginLine
    else if HasPrefix(line, "END LIST VAR") then EndOfList
    else if HasPrefix(line, "VAR ") then VarEntry
    else OtherLine
  }

  function WithVar(vars: map<string, string>, v: Option<(string, string)>): map<string, string> {
    if v.Some? then vars[v.value.0 := v.value.1] else vars
  }

  /** What reading a LIST VAR answer comes to, line by line. */
  function Collected(s: string, ups: string, vars: map<string, string>): VarsResult
    decreases |s|
  {
    if '\n' !in s then Error
    else
      match KindOf(FirstLine(s))
      case ErrLine => Error
      case EndOfList => Vars(vars)
      case VarEntry => Collected(AfterLine(s), ups, WithVar(vars, ParseVarLine(FirstLine(s), ups)))
      case BeginLine => Collected(AfterLine(s), ups, vars)
      case OtherLine => Collected(AfterLine(s), ups, vars)
  }

  method CollectVars(r: LineReader, ups: string) returns (res: VarsResult)
    modifies r
    ensures res == Collected(old(r.rest), ups, map[])
  {
    var vars: map<string, string> := map[];
    while true
      invariant Collected(old(r.rest), ups, map[]) == Collected(r.rest, ups, vars)
      decreases |r.rest|
    {
      var line, complete := r.ReadLine();
      if !complete { return Error; }
      if HasPrefix(line, "ERR ") { return Error; }
      if HasPrefix(line, "BEGIN LIST VAR") { continue; }
      if HasPrefix(line, "END LIST VAR") { return Vars(vars); }
      if HasPrefix(line, "VAR ") {
        var v := ParseVarLine(line, ups);
        if v.Some? { vars := vars[v.value.0 := v.value.1]; }
      }
    }
  }

  // ---- upsc text ----

  /** The variables of an `upsc` listing, from line to line. */
  function UpscVars(raw: string, vars: map<string, string>): map<string, string>
    decreases |raw|
  {
    var n := IndexOf(raw, '\n');
    var line := raw[..n];
    var c := IndexOf(line, ':');
    var vars' := if c == |line| then vars else vars[TrimSpace(line[..c]) := TrimSpace(line[c + 1..])];
    if n == |raw| then vars' else UpscVars(raw[n + 1..], vars')
  }

  method ParseUPSC(atoi: IntParser, raw: string) returns (t: Telemetry)
    ensures t == TelemetryOf(atoi, UpscVars(raw, map[]))
  {
    var vars: map<string, string> := map[];
    var rest := raw;
    var more := true;
    while more
      invariant more ==> UpscVars(raw, map[]) == UpscVars(rest, vars)
      invariant !more ==> UpscVars(raw, map[]) == vars
      decreases more, |rest|
    {
      var n := IndexOf(rest, '\n');
      var line := rest[..n];
      var c := IndexOf(line, ':');
      if c < |line| {
        vars := vars[TrimSpace(line[..c]) := TrimSpace(line[c + 1..])];
      }
      if n == |rest| { more := false; } else { rest := rest[n + 1..]; }
    }
    t := TelemetryFromVars(atoi, vars);
  }
}
