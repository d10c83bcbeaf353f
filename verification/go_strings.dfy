/** The few functions of Go's `strings` package the core relies on, over
    strings seen as sequences of runes. */
module GoStrings {

  /** `unicode.IsSpace`: the runes `strings.TrimSpace` removes. */
  predicate IsSpace(c: char) {
    || c == '\t' || c == '\n' || c == '\U{000B}' || c == '\U{000C}' || c == '\r' || c == ' '
    || c == '\U{0085}' || c == '\U{00A0}' || c == '\U{1680}'
    || ('\U{2000}' <= c <= '\U{200A}')
    || c == '\U{2028}' || c == '\U{2029}' || c == '\U{202F}' || c == '\U{205F}' || c == '\U{3000}'
  }

  predicate AllSpace(s: string) {
    forall i :: 0 <= i < |s| ==> IsSpace(s[i])
  }

  /** A string `strings.TrimSpace` leaves alone: empty, or no white space at either end. */
  predicate Trimmed(s: string) {
    s == [] || (!IsSpace(s[0]) && !IsSpace(s[|s| - 1]))
  }

  predicate HasPrefix(s: string, prefix: string) {
    |prefix| <= |s| && s[..|prefix|] == prefix
  }

  predicate HasSuffix(s: string, suffix: string) {
    |suffix| <= |s| && s[|s| - |suffix|..] == suffix
  }

  /** `sub` occurs in `s` starting at index `i`. */
  predicate OccursAt(s: string, sub: string, i: int) {
    0 <= i && i + |sub| <= |s| && s[i..i + |sub|] == sub
  }

  predicate Contains(s: string, sub: string) {
    exists i :: 0 <= i <= |s| && OccursAt(s, sub, i)
  }

  /** Keep `a` unless it is empty: how every merge of option records treats
      a string field. */
  function PreferText(a: string, b: string): string {
    if |a| > 0 then a else b
  }

  function TrimPrefix(s: string, prefix: string): (r: string)
    ensures HasPrefix(s, prefix) ==> s == prefix + r
    ensures !HasPrefix(s, prefix) ==> r == s
  {
    if HasPrefix(s, prefix) then s[|prefix|..] else s
  }

  function TrimLeft(s: string): string {
    if |s| > 0 && IsSpace(s[0]) then TrimLeft(s[1..]) else s
  }

  function TrimRight(s: string): string {
    if |s| > 0 && IsSpace(s[|s| - 1]) then TrimRight(s[..|s| - 1]) else s
  }

  /** `strings.TrimSpace`. */
  function TrimSpace(s: string): string {
    TrimRight(TrimLeft(s))
  }

  // ---------------------------------------------------------------- len

  /** The number of bytes UTF-8 takes for one rune. */
  function Utf8Width(c: char): (w: nat)
    ensures 1 <= w <= 4
    ensures w == 1 <==> c as int < 0x80
  {
    if c as int < 0x80 then 1
    else if c as int < 0x800 then 2
    else if c as int < 0x10000 then 3
    else 4
  }

  /** Go's `len` of a string: its length in UTF-8 bytes, not in runes. */
  function Utf8Length(s: string): (n: nat)
    ensures |s| <= n <= 4 * |s|
  {
    if s == [] then 0 else Utf8Width(s[0]) + Utf8Length(s[1..])
  }

  /** Byte length adds up over concatenation. */
  lemma {:induction false} Utf8LengthAppend(a: string, b: string)
    ensures Utf8Length(a + b) == Utf8Length(a) + Utf8Length(b)
  {
    if a != [] {
      assert (a + b)[1..] == a[1..] + b;
      Utf8LengthAppend(a[1..], b);
    } else {
      assert a + b == b;
    }
  }

  /** A string is as long in bytes as in runes exactly when it is ASCII. */
  lemma {:induction false} Utf8LengthAscii(s: string)
    ensures Utf8Length(s) == |s| <==> forall i :: 0 <= i < |s| ==> s[i] as int < 0x80
  {
    if s != [] {
      Utf8LengthAscii(s[1..]);
      if Utf8Length(s) == |s| {
        forall i | 0 <= i < |s| ensures s[i] as int < 0x80 {
          if i > 0 { assert s[i] == s[1..][i - 1]; }
        }
      }
      if forall i :: 0 <= i < |s| ==> s[i] as int < 0x80 {
        assert forall i :: 0 <= i < |s| - 1 ==> s[1..][i] as int < 0x80 by {
          forall i | 0 <= i < |s| - 1 ensures s[1..][i] as int < 0x80 { assert s[1..][i] == s[i + 1]; }
        }
      }
    }
  }

  // ---------------------------------------------------------------- Contains

  /** A string contains every substring of each of its prefixes. */
  lemma ContainsViaPrefix(s: string, prefix: string, sub: string)
    requires HasPrefix(s, prefix) && Contains(prefix, sub)
    ensures Contains(s, sub)
  {
    var i :| 0 <= i <= |prefix| && OccursAt(prefix, sub, i);
    assert s[i..i + |sub|] == prefix[i..i + |sub|];
    assert OccursAt(s, sub, i);
  }

  /** Appending "://" to a string guarantees that it contains "://". */
  lemma ContainsAppended(s: string, sub: string)
    ensures Contains(s + sub, sub)
  {
    assert (s + sub)[|s|..|s| + |sub|] == sub;
    assert OccursAt(s + sub, sub, |s|);
  }

  // ---------------------------------------------------------------- TrimSpace

  lemma {:induction false} TrimLeftOfSpace(lead: string, s: string)
    requires AllSpace(lead)
    ensures TrimLeft(lead + s) == TrimLeft(s)
  {
    if lead != [] {
      assert (lead + s)[1..] == lead[1..] + s;
      TrimLeftOfSpace(lead[1..], s);
    } else {
      assert lead + s == s;
    }
  }

  lemma {:induction false} TrimRightOfSpace(s: string, trail: string)
    requires AllSpace(trail)
    ensures TrimRight(s + trail) == TrimRight(s)
  {
    if trail != [] {
      var t := trail[..|trail| - 1];
      assert (s + trail)[..|s + trail| - 1] == s + t;
      TrimRightOfSpace(s, t);
    } else {
      assert s + trail == s;
    }
  }

  lemma {:induction false} TrimLeftEmptyIsSpace(s: string)
    requires TrimLeft(s) == []
    ensures AllSpace(s)
  {
    if s != [] {
      TrimLeftEmptyIsSpace(s[1..]);
    }
  }

  lemma {:induction false} TrimLeftAppend(s: string, w: string)
    requires TrimLeft(s) != []
    ensures TrimLeft(s + w) == TrimLeft(s) + w
  {
    assert s != [];
    if IsSpace(s[0]) {
      assert (s + w)[1..] == s[1..] + w;
      TrimLeftAppend(s[1..], w);
    }
  }

  /** White space added before or after a string does not change what
      `strings.TrimSpace` makes of it. */
  lemma TrimSpaceOfPadding(lead: string, s: string, trail: string)
    requires AllSpace(lead) && AllSpace(trail)
    ensures TrimSpace(lead + s + trail) == TrimSpace(s)
  {
    assert lead + s + trail == lead + (s + trail);
    TrimLeftOfSpace(lead, s + trail);
    if TrimLeft(s) != [] {
      TrimLeftAppend(s, trail);
      TrimRightOfSpace(TrimLeft(s), trail);
    } else {
      TrimLeftEmptyIsSpace(s);
      assert AllSpace(s + trail);
      TrimLeftOfSpace(s + trail, []);
      assert s + trail + [] == s + trail;
    }
  }

  lemma {:induction false} TrimLeftShape(s: string)
    ensures TrimLeft(s) == [] || !IsSpace(TrimLeft(s)[0])
    ensures |TrimLeft(s)| <= |s| && TrimLeft(s) == s[|s| - |TrimLeft(s)|..]
  {
    if |s| > 0 && IsSpace(s[0]) {
      TrimLeftShape(s[1..]);
    }
  }

  lemma {:induction false} TrimRightShape(s: string)
    ensures TrimRight(s) == [] || !IsSpace(TrimRight(s)[|TrimRight(s)| - 1])
    ensures |TrimRight(s)| <= |s| && TrimRight(s) == s[..|TrimRight(s)|]
  {
    if |s| > 0 && IsSpace(s[|s| - 1]) {
      TrimRightShape(s[..|s| - 1]);
    }
  }

  /** `strings.TrimSpace` leaves no white space at either end, and what it
      returns is a piece of its input. */
  lemma TrimSpaceShape(s: string)
    ensures Trimmed(TrimSpace(s))
    ensures |TrimSpace(s)| <= |s|
  {
    TrimLeftShape(s);
    TrimRightShape(TrimLeft(s));
  }

  /** A string without white space at its ends is its own `strings.TrimSpace`. */
  lemma TrimSpaceOfTrimmed(s: string)
    requires Trimmed(s)
    ensures TrimSpace(s) == s
  {
  }
}
