/** Go's byte-wise string order, and the one sorted list a set of names has.
    Every `for k := range m { names = append(names, k) }; sort.Strings(names)` of the
    program yields `SortedKeys(m.Keys)`, whatever order the map is visited in. */
module Ordering {

  predicate Less(a: string, b: string) {
    if b == [] then false
    else if a == [] then true
    else a[0] < b[0] || (a[0] == b[0] && Less(a[1..], b[1..]))
  }

  /** The names agree up to place n, where the first ends before the second or has the smaller
      character. */
  ghost predicate FirstDifference(a: string, b: string, n: nat) {
    n <= |a| && n < |b| && (forall k :: 0 <= k < n ==> a[k] == b[k]) && (n == |a| || a[n] < b[n])
  }

  /** The order: a proper prefix comes first, otherwise the first difference decides. */
  lemma LessMeans(a: string, b: string)
    ensures Less(a, b) <==> exists n: nat :: FirstDifference(a, b, n)
  {
    if Less(a, b) {
      var n := DifferenceAt(a, b);
      assert FirstDifference(a, b, n);
    }
    if n: nat :| FirstDifference(a, b, n) { DifferenceDecides(a, b, n); }
  }

  lemma {:induction false} DifferenceAt(a: string, b: string) returns (n: nat)
    requires Less(a, b)
    ensures FirstDifference(a, b, n)
  {
    if a != [] && a[0] == b[0] {
      var m := DifferenceAt(a[1..], b[1..]);
      n := m + 1;
      forall k | 0 <= k < n ensures a[k] == b[k] { if k > 0 { assert a[k] == a[1..][k - 1] == b[1..][k - 1]; } }
    } else {
      n := 0;
    }
  }

  lemma {:induction false} DifferenceDecides(a: string, b: string, n: nat)
    requires FirstDifference(a, b, n)
    ensures Less(a, b)
  {
    if n > 0 {
      assert a[0] == b[0];
      DifferenceDecides(a[1..], b[1..], n - 1);
    }
  }

  lemma {:induction false} LessTotal(a: string, b: string)
    ensures Less(a, b) || a == b || Less(b, a)
  {
    if a != [] && b != [] && a[0] == b[0] {
      LessTotal(a[1..], b[1..]);
      assert a == [a[0]] + a[1..] && b == [b[0]] + b[1..];
    }
  }

  lemma {:induction false} LessAsymmetric(a: string, b: string)
    requires Less(a, b)
    ensures !Less(b, a) && a != b
  {
    if a != [] && a[0] == b[0] {
      LessAsymmetric(a[1..], b[1..]);
    }
  }

  lemma {:induction false} LessTransitive(a: string, b: string, c: string)
    requires Less(a, b) && Less(b, c)
    ensures Less(a, c)
  {
    if a != [] && a[0] == b[0] && b[0] == c[0] {
      LessTransitive(a[1..], b[1..], c[1..]);
    }
  }

  ghost predicate StrictlySorted(s: seq<string>) {
    forall i, j :: 0 <= i < j < |s| ==> Less(s[i], s[j])
  }

  ghost predicate Distinct<T>(s: seq<T>) {
    forall i, j :: 0 <= i < j < |s| ==> s[i] != s[j]
  }

  /** `s` visits every key exactly once, in any order. */
  ghost predicate Enumerates<T(!new)>(s: seq<T>, keys: set<T>) {
    Distinct(s) && forall x :: x in s <==> x in keys
  }

  /** sort.Strings, as an insertion sort. */
  function Sort(s: seq<string>): (r: seq<string>) {
    if s == [] then [] else Insert(s[0], Sort(s[1..]))
  }

  function Insert(x: string, s: seq<string>): (r: seq<string>)
    ensures forall y :: y in r <==> y == x || y in s
  {
    if s == [] || Less(x, s[0]) then [x] + s else [s[0]] + Insert(x, s[1..])
  }

  lemma {:induction false} InsertKeepsOrder(x: string, s: seq<string>)
    requires StrictlySorted(s) && x !in s
    ensures StrictlySorted(Insert(x, s))
  {
    if s == [] {
    } else if Less(x, s[0]) {
      forall j | 0 <= j < |s| ensures Less(x, s[j]) {
        if j > 0 { LessTransitive(x, s[0], s[j]); }
      }
    } else {
      LessTotal(x, s[0]);
      InsertKeepsOrder(x, s[1..]);
      var r := Insert(x, s[1..]);
      forall j | 0 <= j < |r| ensures Less(s[0], r[j]) {
        assert r[j] in r;
        if r[j] != x {
          assert r[j] in s[1..];
          var k :| 0 <= k < |s[1..]| && s[1..][k] == r[j];
          assert s[k + 1] == r[j];
        }
      }
    }
  }

  lemma {:induction false} SortOrders(s: seq<string>)
    requires Distinct(s)
    ensures StrictlySorted(Sort(s)) && forall y :: y in Sort(s) <==> y in s
  {
    if s != [] {
      SortOrders(s[1..]);
      assert s == [s[0]] + s[1..];
      assert s[0] !in s[1..];
      InsertKeepsOrder(s[0], Sort(s[1..]));
    }
  }

  /** The keys in name order. */
  ghost function SortedKeys(keys: set<string>): (r: seq<string>)
    ensures StrictlySorted(r)
    ensures forall x :: x in r <==> x in keys
  {
    if keys == {} then [] else
      var x :| x in keys;
      InsertKeepsOrder(x, SortedKeys(keys - {x}));
      Insert(x, SortedKeys(keys - {x}))
  }

  /** A strictly sorted list is determined by its elements. */
  lemma {:induction false} SortedListIsUnique(s: seq<string>, t: seq<string>)
    requires StrictlySorted(s) && StrictlySorted(t)
    requires forall x :: x in s <==> x in t
    ensures s == t
  {
    assert |s| > 0 ==> s[0] in t;
    assert |t| > 0 ==> t[0] in s;
    if s != [] {
      if s[0] != t[0] {
        assert Less(t[0], s[0]);
        assert Less(s[0], t[0]);
        LessAsymmetric(s[0], t[0]);
      }
      forall x ensures x in s[1..] <==> x in t[1..] {
        if x in s[1..] { TailLacksHead(s, x); assert x in s; }
        if x in t[1..] { TailLacksHead(t, x); assert x in t; }
      }
      SortedListIsUnique(s[1..], t[1..]);
    }
  }

  lemma TailLacksHead(s: seq<string>, x: string)
    requires StrictlySorted(s) && s != [] && x in s[1..]
    ensures x != s[0]
  {
    var k :| 0 <= k < |s[1..]| && s[1..][k] == x;
    LessAsymmetric(s[0], s[k + 1]);
  }

  /** A list without repetitions is as long as the set of its elements. */
  lemma {:induction false} DistinctLength<T>(s: seq<T>)
    requires Distinct(s)
    ensures |s| == |set x | x in s|
  {
    if s == [] {
      assert (set x | x in s) == {};
    } else {
      var front, last := s[..|s| - 1], s[|s| - 1];
      assert s == front + [last];
      DistinctLength(front);
      assert last !in front;
      assert (set x | x in s) == (set x | x in front) + {last};
    }
  }

  lemma SortedKeysLength(keys: set<string>)
    ensures |SortedKeys(keys)| == |keys|
  {
    var s := SortedKeys(keys);
    SortedIsDistinct(s);
    DistinctLength(s);
    assert (set x | x in s) == keys;
  }

  /** Sorting any enumeration of a key set gives the one sorted key list. */
  lemma SortedEnumeration(names: seq<string>, keys: set<string>)
    requires Enumerates(names, keys)
    ensures Sort(names) == SortedKeys(keys)
  {
    SortOrders(names);
    SortedListIsUnique(Sort(names), SortedKeys(keys));
  }

  lemma SortedIsDistinct(s: seq<string>)
    requires StrictlySorted(s)
    ensures Distinct(s)
  {
    forall i, j | 0 <= i < j < |s| ensures s[i] != s[j] {
      LessAsymmetric(s[i], s[j]);
    }
  }

  /** Collects a map's keys in an arbitrary order and sorts them. */
  method CollectSortedKeys(keys: set<string>) returns (names: seq<string>)
    ensures names == SortedKeys(keys)
  {
    names := [];
    var rest := keys;
    while rest != {}
      invariant rest <= keys
      invariant Enumerates(names, keys - rest)
      decreases rest
    {
      var k :| k in rest;
      names := names + [k];
      rest := rest - {k};
    }
    assert keys - rest == keys;
    SortedEnumeration(names, keys);
    names := Sort(names);
  }
}
