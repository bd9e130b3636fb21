/** The parts of Go's `strings` package the program's parsers rely on, over ASCII white space. */
module Text {

  predicate IsSpace(c: char) {
    c == ' ' || c == '\t' || c == '\n' || c == '\r' || c == '\U{000B}' || c == '\U{000C}'
  }

  /** Index of the first `c`, or the length when there is none. */
  function IndexOf(s: string, c: char): (i: nat)
    ensures i <= |s|
    ensures c !in s[..i]
    ensures if i < |s| then s[i] == c else c !in s
  {
    if s == [] || s[0] == c then 0 else
      var i := IndexOf(s[1..], c) + 1;
      assert s[..i] == [s[0]] + s[1..][..i - 1];
      i
  }

  lemma IndexOfIsUnique(s: string, c: char, i: nat)
    requires i <= |s| && c !in s[..i] && (i < |s| ==> s[i] == c)
    ensures IndexOf(s, c) == i
  {
  }

  /** Everything in front of the first `c` of `head + [c] + tail` is `head`. */
  lemma CutAt(head: string, c: char, tail: string)
    requires c !in head
    ensures IndexOf(head + [c] + tail, c) == |head|
    ensures (head + [c] + tail)[..|head|] == head
    ensures (head + [c] + tail)[|head| + 1..] == tail
  {
    var s := head + [c] + tail;
    assert s[..|head|] == head;
    IndexOfIsUnique(s, c, |head|);
  }

  predicate HasPrefix(s: string, p: string) {
    |p| <= |s| && s[..|p|] == p
  }

  // ---- strings.TrimSpace, strings.Trim and strings.TrimRight ----

  function TrimLeft(s: string, drop: char -> bool): (r: string)
    ensures r == [] || !drop(r[0])
  {
    if s == [] || !drop(s[0]) then s else TrimLeft(s[1..], drop)
  }

  function TrimRight(s: string, drop: char -> bool): (r: string)
    ensures r <= s
    ensures r == [] || !drop(r[|r| - 1])
  {
    if s == [] || !drop(s[|s| - 1]) then s else TrimRight(s[..|s| - 1], drop)
  }

  function Trim(s: string, drop: char -> bool): string {
    TrimRight(TrimLeft(s, drop), drop)
  }

  function TrimSpace(s: string): string {
    Trim(s, IsSpace)
  }

  lemma {:induction false} TrimLeftDrops(s: string, drop: char -> bool) returns (k: nat)
    ensures k <= |s| && TrimLeft(s, drop) == s[k..]
    ensures forall i :: 0 <= i < k ==> drop(s[i])
  {
    if s == [] || !drop(s[0]) {
      k := 0;
    } else {
      k := TrimLeftDrops(s[1..], drop);
      assert s[1..][k..] == s[k + 1..];
      assert forall i :: 0 < i < k + 1 ==> s[i] == s[1..][i - 1];
      k := k + 1;
    }
  }

  lemma {:induction false} TrimRightDrops(s: string, drop: char -> bool)
    ensures forall i :: |TrimRight(s, drop)| <= i < |s| ==> drop(s[i])
  {
    if s != [] && drop(s[|s| - 1]) {
      TrimRightDrops(s[..|s| - 1], drop);
    }
  }

  /** Trimming leaves a text alone exactly when neither end may be dropped. */
  lemma TrimKeeps(s: string, drop: char -> bool)
    requires s == [] || (!drop(s[0]) && !drop(s[|s| - 1]))
    ensures Trim(s, drop) == s
  {
  }

  lemma TrimIsIdempotent(s: string, drop: char -> bool)
    ensures Trim(Trim(s, drop), drop) == Trim(s, drop)
  {
    var l := TrimLeft(s, drop);
    var t := TrimRight(l, drop);
    if t != [] { assert t[0] == l[0]; }
    TrimKeeps(t, drop);
  }

  /** What trimming leaves is the text between its outer white space. */
  lemma TrimSpaceMeans(s: string) returns (i: nat, j: nat)
    ensures i <= j <= |s| && TrimSpace(s) == s[i..j]
    ensures forall k :: 0 <= k < i || j <= k < |s| ==> IsSpace(s[k])
    ensures i < j ==> !IsSpace(s[i]) && !IsSpace(s[j - 1])
  {
    i := TrimLeftDrops(s, IsSpace);
    var l, t := TrimLeft(s, IsSpace), TrimSpace(s);
    TrimRightDrops(l, IsSpace);
    j := i + |t|;
    assert t == l[..|t|] == s[i..j];
    forall k | j <= k < |s| ensures IsSpace(s[k]) { assert s[k] == l[k - i]; }
  }

  // ---- strings.Fields ----

  function TokenLength(s: string): (n: nat)
    ensures n <= |s|
    ensures forall i :: 0 <= i < n ==> !IsSpace(s[i])
    ensures n < |s| ==> IsSpace(s[n])
  {
    if s == [] || IsSpace(s[0]) then 0 else 1 + TokenLength(s[1..])
  }

  function Fields(s: string): (r: seq<string>) {
    if s == [] then []
    else if IsSpace(s[0]) then Fields(s[1..])
    else
      var n := TokenLength(s);
      [s[..n]] + Fields(s[n..])
  }

  lemma {:induction false} LeadingSpaceAddsNoField(gone: string, s: string)
    requires forall c :: c in gone ==> IsSpace(c)
    ensures Fields(gone + s) == Fields(s)
  {
    if gone == [] {
      assert gone + s == s;
    } else {
      assert gone[0] in gone;
      assert (gone + s)[1..] == gone[1..] + s;
      LeadingSpaceAddsNoField(gone[1..], s);
    }
  }

  lemma TokenLengthIs(s: string, n: nat)
    requires n <= |s| && (forall i :: 0 <= i < n ==> !IsSpace(s[i])) && (n < |s| ==> IsSpace(s[n]))
    ensures TokenLength(s) == n
  {
  }

  lemma FirstRunStays(s: string, gone: string)
    requires s != [] && forall c :: c in gone ==> IsSpace(c)
    ensures TokenLength(s + gone) == TokenLength(s)
  {
    var n := TokenLength(s);
    if n == |s| && gone != [] { assert (s + gone)[n] == gone[0] && gone[0] in gone; }
    TokenLengthIs(s + gone, n);
  }

  lemma {:induction false} TrailingSpaceAddsNoField(s: string, gone: string)
    requires forall c :: c in gone ==> IsSpace(c)
    ensures Fields(s + gone) == Fields(s)
    decreases |s|
  {
    if s == [] {
      assert s + gone == gone + s;
      LeadingSpaceAddsNoField(gone, s);
    } else if IsSpace(s[0]) {
      assert (s + gone)[1..] == s[1..] + gone;
      TrailingSpaceAddsNoField(s[1..], gone);
    } else {
      var n := TokenLength(s);
      FirstRunStays(s, gone);
      assert (s + gone)[..n] == s[..n];
      assert (s + gone)[n..] == s[n..] + gone;
      TrailingSpaceAddsNoField(s[n..], gone);
    }
  }

  predicate IsToken(s: string) {
    s != [] && forall i :: 0 <= i < |s| ==> !IsSpace(s[i])
  }

  /** What parts two words: a blank, a tab, a line feed, a carriage return, a vertical tab or a form
      feed, and no other character. */
  lemma WhatPartsWords(head: string, c: char, tail: string)
    requires IsToken(head) && IsToken(tail)
    ensures Fields(head + [c] + tail)
            == if c == ' ' || c == '\t' || c == '\n' || c == '\r' || c == '\U{000B}' || c == '\U{000C}'
               then [head, tail] else [head + [c] + tail]
  {
    if IsSpace(c) { SpaceParts(head, c, tail); } else { WordIsOneField(head + [c] + tail); }
  }

  lemma SpaceParts(head: string, c: char, tail: string)
    requires IsToken(head) && IsSpace(c) && IsToken(tail)
    ensures Fields(head + [c] + tail) == [head, tail]
  {
    var s := head + [c] + tail;
    TokenLengthIs(s, |head|);
    assert s[0] == head[0];
    assert s[..|head|] == head && s[|head|..] == [c] + tail;
    LeadingSpaceAddsNoField([c], tail);
    WordIsOneField(tail);
    assert [head] + [tail] == [head, tail];
  }

  lemma WordIsOneField(word: string)
    requires IsToken(word)
    ensures Fields(word) == [word]
  {
    TokenLengthIs(word, |word|);
    assert word[..|word|] == word && word[|word|..] == [];
  }

  /** `token` stands at s[i..j], white space or the end of the text on either side. */
  ghost predicate TokenAt(s: string, token: string, i: nat, j: nat) {
    i <= j <= |s| && s[i..j] == token && IsToken(token)
    && (i == 0 || IsSpace(s[i - 1])) && (j == |s| || IsSpace(s[j]))
  }

  ghost predicate HasField(s: string, token: string) {
    exists i: nat, j: nat :: TokenAt(s, token, i, j)
  }

  lemma TokenInTail(s: string, token: string, i: nat, j: nat, n: nat)
    requires n <= |s| && (n == 0 || n == |s| || IsSpace(s[n]) || IsSpace(s[n - 1]))
    ensures TokenAt(s, token, i + n, j + n) ==> TokenAt(s[n..], token, i, j)
    ensures TokenAt(s[n..], token, i, j) && (i > 0 || n == 0 || IsSpace(s[n - 1])) ==> TokenAt(s, token, i + n, j + n)
  {
    if i <= j && j + n <= |s| { assert s[i + n..j + n] == s[n..][i..j]; }
  }

  lemma TokenStarts(s: string, token: string, i: nat, j: nat)
    requires TokenAt(s, token, i, j)
    ensures i < j && !IsSpace(s[i])
  {
    assert s[i] == token[0];
  }

  lemma SpaceHidesNoField(s: string, token: string)
    requires s != [] && IsSpace(s[0])
    ensures HasField(s, token) <==> HasField(s[1..], token)
  {
    if HasField(s, token) {
      var i: nat, j: nat :| TokenAt(s, token, i, j);
      TokenStarts(s, token, i, j);
      TokenInTail(s, token, i - 1, j - 1, 1);
    }
    if HasField(s[1..], token) {
      var i: nat, j: nat :| TokenAt(s[1..], token, i, j);
      TokenInTail(s, token, i, j, 1);
    }
  }

  /** A token that starts inside the first run of a text is that run. */
  lemma FirstToken(s: string, token: string, i: nat, j: nat, n: nat)
    requires TokenAt(s, token, i, j) && n == TokenLength(s) && i < n
    ensures token == s[..n]
  {
    assert i == 0;
    assert forall k :: i <= k < j ==> s[k] == token[k];
    assert j == n;
  }

  lemma LaterFields(s: string, token: string, n: nat)
    requires n == TokenLength(s) && HasField(s[n..], token)
    ensures HasField(s, token)
  {
    var i: nat, j: nat :| TokenAt(s[n..], token, i, j);
    TokenStarts(s[n..], token, i, j);
    TokenInTail(s, token, i, j, n);
  }

  lemma FirstOrLater(s: string, token: string, n: nat)
    requires s != [] && !IsSpace(s[0]) && n == TokenLength(s) && HasField(s, token)
    ensures token == s[..n] || HasField(s[n..], token)
  {
    var i: nat, j: nat :| TokenAt(s, token, i, j);
    if i < n {
      FirstToken(s, token, i, j, n);
    } else {
      TokenInTail(s, token, i - n, j - n, n);
    }
  }

  lemma FirstFieldOrLater(s: string, token: string, n: nat)
    requires s != [] && !IsSpace(s[0]) && n == TokenLength(s)
    ensures HasField(s, token) <==> token == s[..n] || HasField(s[n..], token)
  {
    if HasField(s, token) { FirstOrLater(s, token, n); }
    if HasField(s[n..], token) { LaterFields(s, token, n); }
    assert TokenAt(s, s[..n], 0, n);
  }

  /** Splitting a text finds exactly its tokens. */
  lemma {:induction false} FieldsAreTheTokens(s: string, token: string)
    ensures token in Fields(s) <==> HasField(s, token)
    decreases |s|
  {
    if s == [] {
    } else if IsSpace(s[0]) {
      FieldsAreTheTokens(s[1..], token);
      SpaceHidesNoField(s, token);
    } else {
      var n := TokenLength(s);
      FieldsAreTheTokens(s[n..], token);
      FirstFieldOrLater(s, token, n);
    }
  }

  lemma TrimLeftKeepsFields(s: string)
    ensures Fields(TrimLeft(s, IsSpace)) == Fields(s)
  {
    var k := TrimLeftDrops(s, IsSpace);
    assert s == s[..k] + s[k..];
    LeadingSpaceAddsNoField(s[..k], s[k..]);
  }

  lemma TrimRightKeepsFields(s: string)
    ensures Fields(TrimRight(s, IsSpace)) == Fields(s)
  {
    var t := TrimRight(s, IsSpace);
    TrimRightDrops(s, IsSpace);
    var gone := s[|t|..];
    assert s == t + gone;
    assert forall c :: c in gone ==> IsSpace(c);
    TrailingSpaceAddsNoField(t, gone);
  }

  /** A reader that trims and one that does not see the same tokens. */
  lemma TrimKeepsFields(s: string)
    ensures Fields(TrimSpace(s)) == Fields(s)
  {
    TrimLeftKeepsFields(s);
    TrimRightKeepsFields(TrimLeft(s, IsSpace));
  }

  // ---- strings.SplitN ----

  function SplitN(s: string, sep: char, n: nat): (r: seq<string>)
    decreases |s|
  {
    var i := IndexOf(s, sep);
    if n <= 1 || i == |s| then [s] else [s[..i]] + SplitN(s[i + 1..], sep, n - 1)
  }

  lemma SplitNStep(head: string, sep: char, tail: string, n: nat)
    requires sep !in head && n > 1
    ensures SplitN(head + [sep] + tail, sep, n) == [head] + SplitN(tail, sep, n - 1)
  {
    CutAt(head, sep, tail);
  }

  /** Words joined by single blanks, the last of which may itself hold blanks. */
  function Joined(words: seq<string>, last: string): string {
    if words == [] then last else words[0] + [' '] + Joined(words[1..], last)
  }

  lemma {:induction false} SplitJoined(words: seq<string>, last: string)
    requires forall w :: w in words ==> ' ' !in w
    ensures SplitN(Joined(words, last), ' ', |words| + 1) == words + [last]
  {
    if words != [] {
      assert words[0] in words;
      SplitJoined(words[1..], last);
      SplitNStep(words[0], ' ', Joined(words[1..], last), |words| + 1);
    }
  }

  lemma JoinedThree(a: string, b: string, c: string, last: string)
    ensures Joined([a, b, c], last) == a + " " + (b + " " + (c + " " + last))
  {
    assert [a, b, c][1..] == [b, c] && [b, c][1..] == [c] && [c][1..] == [];
    assert Joined([], last) == last;
    assert Joined([c], last) == c + [' '] + Joined([], last);
    assert Joined([b, c], last) == b + [' '] + Joined([c], last);
    assert Joined([a, b, c], last) == a + [' '] + Joined([b, c], last);
  }
}
