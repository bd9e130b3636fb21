/** A nondecreasing source of time stamps, in nanoseconds. `reading` is the whole future of
    the clock; every run of the program sees some such function. */
module Clocks {
  class Clock {
    const reading: nat -> int
    var taken: nat

    ghost predicate Valid() {
      forall i: nat, j: nat :: i <= j ==> reading(i) <= reading(j)
    }

    /** No earlier reading is above it and no later one below it. */
    function Time(): int
      reads this
    {
      reading(taken)
    }

    constructor (reading: nat -> int)
      requires forall i: nat, j: nat :: i <= j ==> reading(i) <= reading(j)
      ensures Valid() && this.reading == reading && taken == 0
    {
      this.reading := reading;
      taken := 0;
    }

    method Now() returns (t: int)
      requires Valid()
      modifies this
      ensures t == old(Time()) && t <= Time() && taken == old(taken) + 1
    {
      t := reading(taken);
      taken := taken + 1;
    }
  }
}

/** The endpoint another controller uses to ask for a load's power state. */
module PowerApi {
  import opened Common
  import opened Clocks
  import opened Control

  datatype Entry = Entry(req: Request, at: int)
  datatype Sighting = Sighting(state: ActualState, at: int)
  datatype PowerReply = NoContent | UnknownLoad | BadRequest
  datatype StateReply = NoSuchLoad | Power(actual: ActualState, ageSeconds: int)

  const NANOSECONDS: int := 1_000_000_000

  const REQUEST_BY_NAME: map<string, Request> := map["on" := RequestOn, "off" := RequestOff, "hold" := RequestHold]

  /** A request still counts: younger than the TTL, or the TTL is off. */
  predicate Standing(ttl: int, e: Entry, now: int) {
    ttl <= 0 || now - e.at < ttl
  }

  /** The clock reading one entry was examined at; a load without a reading of its own is
      as good as examined at the end. */
  function ReadAt(when: map<string, int>, end: int, load: string): int {
    Get(when, load, end)
  }

  /** The table once expired entries are dropped. */
  function Surviving(want: map<string, Entry>, ttl: int, when: map<string, int>, end: int): map<string, Entry> {
    map l | l in want && Standing(ttl, want[l], ReadAt(when, end, l)) :: want[l]
  }

  function RequestsOf(want: map<string, Entry>): map<string, Request> {
    map l | l in want :: want[l].req
  }

  function Published(actual: map<string, ActualState>, at: int): map<string, Sighting> {
    map l | l in actual :: Sighting(actual[l], at)
  }

  class Server {
    const loads: set<string>
    const ttl: int
    const clock: Clock
    var want: map<string, Entry>
    var seen: map<string, Sighting>

    constructor (loads: seq<string>, ttl: int, clock: Clock)
      ensures this.loads == Elements(loads) && this.ttl == ttl && this.clock == clock
      ensures want == map[] && seen == map[]
    {
      var known: set<string> := {};
      for k := 0 to |loads|
        invariant known == Elements(loads[..k])
      {
        assert loads[..k + 1] == loads[..k] + [loads[k]];
        known := known + {loads[k]};
      }
      assert loads[..|loads|] == loads;
      this.loads, this.ttl, this.clock := known, ttl, clock;
      want, seen := map[], map[];
    }

    method HandlePower(load: string, desired: string) returns (reply: PowerReply)
      requires clock.Valid()
      modifies this`want, clock
      ensures reply == NoContent <==> load in loads && desired in REQUEST_BY_NAME
      ensures reply == UnknownLoad <==> load !in loads
      ensures reply == NoContent ==> desired == "on" || desired == "off" || desired == "hold"
      ensures load in loads && desired == "on" ==> want == old(want)[load := Entry(RequestOn, old(clock.Time()))]
      ensures load in loads && desired == "off" ==> want == old(want)[load := Entry(RequestOff, old(clock.Time()))]
      ensures load in loads && desired == "hold" ==> want == old(want)[load := Entry(RequestHold, old(clock.Time()))]
      ensures reply == NoContent ==> want == old(want)[load := Entry(REQUEST_BY_NAME[desired], old(clock.Time()))]
      ensures reply != NoContent ==> want == old(want)
      ensures old(clock.Time()) <= clock.Time()
    {
      if load !in loads { return UnknownLoad; }
      if desired !in REQUEST_BY_NAME { return BadRequest; }
      var at := clock.Now();
      want := want[load := Entry(REQUEST_BY_NAME[desired], at)];
      reply := NoContent;
    }

    /** Visits the entries in whatever order the map yields them, reading the clock once for
        each when the TTL is on, and deletes the expired ones on the way. */
    method Desired() returns (out: map<string, Request>, ghost when: map<string, int>, ghost end: int)
      requires clock.Valid()
      modifies this`want, clock
      ensures when.Keys == if ttl > 0 then old(want).Keys else {}
      ensures forall l :: l in when ==> old(clock.Time()) <= when[l] <= end
      ensures old(clock.Time()) <= end <= clock.Time()
      ensures want == Surviving(old(want), ttl, when, end)
      ensures out == RequestsOf(want)
      ensures want.Keys == out.Keys <= old(want).Keys
      ensures forall l :: l in out ==> out[l] == old(want)[l].req && want[l] == old(want)[l]
      ensures ttl <= 0 ==> out.Keys == old(want).Keys
      ensures ttl > 0 ==>
                forall l :: l in old(want) ==> l in when && (l in out <==> when[l] - old(want)[l].at < ttl)
    {
      out, when, end := map[], map[], clock.Time();
      ghost var before := want;
      var rest := want.Keys;
      while rest != {}
        invariant rest <= want.Keys <= before.Keys
        invariant forall l :: l in want ==> want[l] == before[l]
        invariant forall l :: l in before.Keys - rest ==>
                    (l in want <==> ttl <= 0 || (l in when && when[l] - before[l].at < ttl))
        invariant out.Keys == want.Keys - rest
        invariant forall l :: l in out ==> out[l] == before[l].req
        invariant when.Keys == if ttl > 0 then before.Keys - rest else {}
        invariant forall l :: l in when ==> old(clock.Time()) <= when[l] <= end
        invariant old(clock.Time()) <= end <= clock.Time()
        decreases rest
      {
        var load :| load in rest;
        rest := rest - {load};
        var e := want[load];
        if ttl > 0 {
          var now := clock.Now();
          when, end := when[load := now], now;
          if now - e.at >= ttl {
            want := want - {load};
            continue;
          }
        }
        out := out[load := e.req];
      }
    }

    method PublishActual(actual: map<string, ActualState>, at: int)
      modifies this`seen
      ensures seen == old(seen) + Published(actual, at)
      ensures forall l :: l in actual ==> l in seen && seen[l] == Sighting(actual[l], at)
      ensures forall l :: l !in actual ==> (l in seen <==> l in old(seen)) && (l in seen ==> seen[l] == old(seen)[l])
    {
      var rest := actual.Keys;
      while rest != {}
        invariant rest <= actual.Keys
        invariant forall l :: l in seen <==> l in old(seen) || l in actual.Keys - rest
        invariant forall l :: l in seen ==>
                    seen[l] == if l in actual.Keys - rest then Sighting(actual[l], at) else old(seen)[l]
        decreases rest
      {
        var load :| load in rest;
        seen := seen[load := Sighting(actual[load], at)];
        rest := rest - {load};
      }
      assert actual.Keys - rest == actual.Keys;
    }

    method HandleState(load: string) returns (reply: StateReply)
      requires clock.Valid()
      modifies clock
      ensures reply == NoSuchLoad <==> load !in loads
      ensures load in loads && load !in seen ==> reply == Power(ActualUnknown, 0)
      ensures load in loads && load in seen ==>
                reply == Power(seen[load].state, WholeSeconds(old(clock.Time()) - seen[load].at))
      ensures old(clock.Time()) <= clock.Time()
    {
      if load !in loads { return NoSuchLoad; }
      if load !in seen { return Power(ActualUnknown, 0); }
      var now := clock.Now();
      reply := Power(seen[load].state, WholeSeconds(now - seen[load].at));
    }
  }

  /** Go's integer conversion truncates toward zero. */
  function WholeSeconds(nanos: int): (s: int)
    ensures nanos >= 0 ==> s * 1_000_000_000 <= nanos < (s + 1) * 1_000_000_000
    ensures nanos <= 0 ==> (s - 1) * 1_000_000_000 < nanos <= s * 1_000_000_000
  {
    if nanos >= 0 then nanos / NANOSECONDS else -((-nanos) / NANOSECONDS)
  }
}
