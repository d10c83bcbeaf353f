/** form/encode.go: a map of strings serialised as an
    application/x-www-form-urlencoded body (section 5.2 of the WHATWG URL
    Standard). Keys and values are escaped as Go's `url.QueryEscape` does:
    the unreserved characters of section 2.3 of RFC 3986 pass through, a
    space becomes `+`, and every other byte is percent-encoded (section 2.1
    of RFC 3986) with upper-case hexadecimal digits. Strings are the byte
    sequences Go stores them as. */
module Form {
  import opened Wrappers
  import opened Streams

  type Text = seq<byte>
  type Values = map<Text, Text>

  const Space: byte := 32
  const Percent: byte := 37
  const Amp: byte := 38
  const Plus: byte := 43
  const Equals: byte := 61

  /** The bytes `QueryEscape` leaves alone: letters, digits and `-._~`. */
  predicate Unreserved(b: byte) {
    || 48 <= b <= 57 || 65 <= b <= 90 || 97 <= b <= 122
    || b == 45 || b == 46 || b == 95 || b == 126
  }

  /** The bytes an escaped string is made of. */
  predicate Escaped(b: byte) {
    Unreserved(b) || b == Plus || b == Percent
  }

  /** The upper-case hexadecimal digit for `n`. */
  function HexDigit(n: byte): (d: byte)
    requires n < 16
    ensures Unreserved(d)
  {
    if n < 10 then 48 + n else 55 + n
  }

  /** The value of a hexadecimal digit of either case. */
  function HexValue(d: byte): (r: Maybe<int>)
    ensures r.Just? ==> 0 <= r.value < 16
  {
    if 48 <= d <= 57 then Just(d as int - 48)
    else if 65 <= d <= 70 then Just(d as int - 55)
    else if 97 <= d <= 102 then Just(d as int - 87)
    else Nothing
  }

  lemma HexValueOfDigit(n: byte)
    requires n < 16
    ensures HexValue(HexDigit(n)) == Just(n as int)
  {
  }

  function EscapeByte(b: byte): (e: Text)
    ensures forall c :: c in e ==> Escaped(c)
  {
    if Unreserved(b) then [b]
    else if b == Space then [Plus]
    else [Percent, HexDigit(b / 16), HexDigit(b % 16)]
  }

  /** `url.QueryEscape`: every byte of the result is unreserved, `+` or `%`,
      so no `&`, `=` or space survives. */
  function Escape(s: Text): (r: Text)
    ensures forall c :: c in r ==> Escaped(c)
  {
    if s == [] then [] else EscapeByte(s[0]) + Escape(s[1..])
  }

  function Prepend(b: byte, rest: Maybe<Text>): Maybe<Text> {
    if rest.Just? then Just([b] + rest.value) else Nothing
  }

  /** Query unescaping, the reference decoder: `+` is a space and `%XX` is the
      byte with hexadecimal value `XX`; a `%` not followed by two digits is an
      error. */
  function Unescape(s: Text): Maybe<Text>
    decreases |s|
  {
    if s == [] then Just([])
    else if s[0] == Percent then
      if |s| < 3 then Nothing
      else
        var hi, lo := HexValue(s[1]), HexValue(s[2]);
        if hi.Just? && lo.Just? then Prepend((hi.value * 16 + lo.value) as byte, Unescape(s[3..]))
        else Nothing
    else if s[0] == Plus then Prepend(Space, Unescape(s[1..]))
    else Prepend(s[0], Unescape(s[1..]))
  }

  lemma UnescapeAfter(e: Text, rest: Text, b: byte)
    requires e == EscapeByte(b)
    ensures Unescape(e + rest) == Prepend(b, Unescape(rest))
  {
    if Unreserved(b) {
      assert (e + rest)[1..] == rest;
    } else if b == Space {
      assert (e + rest)[1..] == rest;
    } else {
      assert (e + rest)[3..] == rest;
      HexValueOfDigit(b / 16);
      HexValueOfDigit(b % 16);
    }
  }

  /** Unescaping undoes escaping, for every byte string. */
  lemma {:induction false} UnescapeEscape(s: Text)
    ensures Unescape(Escape(s)) == Just(s)
  {
    if s != [] {
      UnescapeEscape(s[1..]);
      UnescapeAfter(EscapeByte(s[0]), Escape(s[1..]), s[0]);
      assert [s[0]] + s[1..] == s;
    }
  }

  /** `strings.Join`. */
  function Join(ps: seq<Text>, sep: byte): Text {
    if ps == [] then []
    else if |ps| == 1 then ps[0]
    else ps[0] + [sep] + Join(ps[1..], sep)
  }

  /** `strings.Split` with a one-byte separator: there is always at least
      one piece, and an empty string gives one empty piece. */
  function Split(s: Text, sep: byte): (r: seq<Text>)
    ensures |r| >= 1
  {
    if s == [] then [[]]
    else
      var rest := Split(s[1..], sep);
      if s[0] == sep then [[]] + rest else [[s[0]] + rest[0]] + rest[1..]
  }

  lemma {:induction false} SplitFreePrefix(p: Text, tail: Text, sep: byte)
    requires sep !in p
    ensures Split(p + tail, sep) == [p + Split(tail, sep)[0]] + Split(tail, sep)[1..]
  {
    var t := Split(tail, sep);
    if p == [] {
      assert p + tail == tail && p + t[0] == t[0];
      assert [t[0]] + t[1..] == t;
    } else {
      SplitFreePrefix(p[1..], tail, sep);
      var s := p + tail;
      assert s[0] == p[0] && s[0] != sep;
      assert s[1..] == p[1..] + tail;
      var rest := Split(s[1..], sep);
      assert rest == [p[1..] + t[0]] + t[1..];
      assert Split(s, sep) == [[s[0]] + rest[0]] + rest[1..];
      assert [p[0]] + (p[1..] + t[0]) == p + t[0];
    }
  }

  /** Splitting a join gives the pieces back when no piece holds the
      separator. */
  lemma {:induction false} SplitJoin(ps: seq<Text>, sep: byte)
    requires ps != []
    requires forall i :: 0 <= i < |ps| ==> sep !in ps[i]
    ensures Split(Join(ps, sep), sep) == ps
  {
    if |ps| == 1 {
      SplitFreePrefix(ps[0], [], sep);
      assert ps[0] + [] == ps[0];
    } else {
      var rest := Join(ps[1..], sep);
      SplitJoin(ps[1..], sep);
      SplitAtSeparator(rest, sep);
      SplitFreePrefix(ps[0], [sep] + rest, sep);
      assert ps[0] + [] == ps[0];
      assert ps[0] + [sep] + rest == ps[0] + ([sep] + rest);
      assert [ps[0]] + ps[1..] == ps;
    }
  }

  /** A leading separator ends an empty first piece. */
  lemma SplitAtSeparator(rest: Text, sep: byte)
    ensures Split([sep] + rest, sep) == [[]] + Split(rest, sep)
  {
    assert ([sep] + rest)[0] == sep && ([sep] + rest)[1..] == rest;
  }

  /** The `key=value` piece for one entry. */
  function Pair(k: Text, v: Text): Text {
    Escape(k) + [Equals] + Escape(v)
  }

  /** A piece holds no `&` and splits on `=` into the two escaped halves. */
  lemma PairShape(k: Text, v: Text)
    ensures Amp !in Pair(k, v) && Space !in Pair(k, v)
    ensures Split(Pair(k, v), Equals) == [Escape(k), Escape(v)]
  {
    var ek, ev := Escape(k), Escape(v);
    assert !Escaped(Amp) && !Escaped(Space) && !Escaped(Equals);
    assert Equals !in ek && Equals !in ev;
    SplitJoin([ek, ev], Equals);
    assert Join([ek, ev], Equals) == Pair(k, v) by {
      assert [ek, ev][1..] == [ev];
    }
  }

  /** The order Go's map iteration happened to visit the keys in: every key
      exactly once. */
  ghost predicate Ordering(m: Values, order: seq<Text>) {
    && |order| == |m|
    && (forall k :: k in m <==> k in order)
    && (forall i, j :: 0 <= i < j < |order| ==> order[i] != order[j])
  }

  /** The pieces `Encode` collects when it visits the keys in `order`. */
  function Pieces(m: Values, order: seq<Text>): (r: seq<Text>)
    requires forall k :: k in order ==> k in m
    ensures |r| == |order|
    ensures forall i :: 0 <= i < |order| ==> r[i] == Pair(order[i], m[order[i]])
  {
    if order == [] then []
    else Pieces(m, order[..|order| - 1]) + [Pair(order[|order| - 1], m[order[|order| - 1]])]
  }

  /** `Encode(m)`: the pieces of the entries, joined by `&`, in whichever
      order the map is visited. */
  method Encode(m: Values) returns (body: Text, ghost order: seq<Text>)
    ensures Ordering(m, order)
    ensures body == Join(Pieces(m, order), Amp)
  {
    var encoded: seq<Text> := [];
    var remaining := m.Keys;
    order := [];
    while remaining != {}
      invariant remaining <= m.Keys
      invariant forall k :: k in m ==> (k in remaining <==> k !in order)
      invariant forall k :: k in order ==> k in m
      invariant forall i, j :: 0 <= i < j < |order| ==> order[i] != order[j]
      invariant |order| + |remaining| == |m|
      invariant encoded == Pieces(m, order)
      decreases |remaining|
    {
      var k :| k in remaining;
      encoded := encoded + [Escape(k) + [Equals] + Escape(m[k])];
      order := order + [k];
      remaining := remaining - {k};
    }
    body := Join(encoded, Amp);
  }

  /** An empty map gives an empty body. */
  lemma EncodeEmpty(m: Values, order: seq<Text>)
    requires Ordering(m, order) && |m| == 0
    ensures Join(Pieces(m, order), Amp) == []
  {
  }

  /** A non-empty map gives exactly one `&`-separated piece per entry. */
  lemma EncodeSplits(m: Values, order: seq<Text>)
    requires Ordering(m, order) && |m| > 0
    ensures Split(Join(Pieces(m, order), Amp), Amp) == Pieces(m, order)
    ensures |Split(Join(Pieces(m, order), Amp), Amp)| == |m|
  {
    var ps := Pieces(m, order);
    forall i | 0 <= i < |ps|
      ensures Amp !in ps[i]
    {
      PairShape(order[i], m[order[i]]);
    }
    SplitJoin(ps, Amp);
  }

  /** The reference decoder for one piece: split on `=` into exactly two
      halves and unescape each. */
  function DecodePiece(p: Text): Maybe<(Text, Text)> {
    var halves := Split(p, Equals);
    if |halves| != 2 then Nothing
    else
      var k, v := Unescape(halves[0]), Unescape(halves[1]);
      if k.Just? && v.Just? then Just((k.value, v.value)) else Nothing
  }

  function DecodePieces(ps: seq<Text>): Maybe<Values> {
    if ps == [] then Just(map[])
    else
      var init, last := DecodePieces(ps[..|ps| - 1]), DecodePiece(ps[|ps| - 1]);
      if init.Just? && last.Just? then Just(init.value[last.value.0 := last.value.1]) else Nothing
  }

  /** The reference decoder for a body: empty is the empty map, anything
      else is split on `&`. */
  function Decode(body: Text): Maybe<Values> {
    if body == [] then Just(map[]) else DecodePieces(Split(body, Amp))
  }

  /** A piece decodes to the entry it was made from. */
  lemma DecodePair(k: Text, v: Text)
    ensures DecodePiece(Pair(k, v)) == Just((k, v))
  {
    PairShape(k, v);
    UnescapeEscape(k);
    UnescapeEscape(v);
  }

  /** The entries of `m` whose keys occur in `order`. */
  ghost function Restrict(m: Values, order: seq<Text>): Values
    requires forall k :: k in order ==> k in m
  {
    map k | k in order :: m[k]
  }

  lemma RestrictSnoc(m: Values, order: seq<Text>, k: Text)
    requires forall j :: j in order ==> j in m
    requires k in m
    ensures Restrict(m, order + [k]) == Restrict(m, order)[k := m[k]]
  {
    assert forall j :: j in order + [k] <==> j in order || j == k;
  }

  lemma {:induction false} DecodePiecesOf(m: Values, order: seq<Text>)
    requires forall k :: k in order ==> k in m
    ensures DecodePieces(Pieces(m, order)) == Just(Restrict(m, order))
  {
    if order != [] {
      var n := |order| - 1;
      var ps, prev := Pieces(m, order), Pieces(m, order[..n]);
      assert ps[..n] == prev && ps[n] == Pair(order[n], m[order[n]]);
      DecodePiecesOf(m, order[..n]);
      DecodePair(order[n], m[order[n]]);
      assert DecodePieces(ps) == Just(Restrict(m, order[..n])[order[n] := m[order[n]]]);
      RestrictSnoc(m, order[..n], order[n]);
      assert order[..n] + [order[n]] == order;
    }
  }

  lemma JoinKeepsFirst(ps: seq<Text>, sep: byte)
    requires ps != []
    ensures |Join(ps, sep)| >= |ps[0]|
  {
  }

  lemma RestrictAll(m: Values, order: seq<Text>)
    requires Ordering(m, order)
    ensures Restrict(m, order) == m
  {
  }

  /** Decoding the body gives the map back, whichever order the keys were
      visited in. */
  lemma DecodeEncode(m: Values, order: seq<Text>)
    requires Ordering(m, order)
    ensures Decode(Join(Pieces(m, order), Amp)) == Just(m)
  {
    var ps := Pieces(m, order);
    if |m| == 0 {
      assert m == map[] && ps == [];
    } else {
      EncodeSplits(m, order);
      assert |ps[0]| > 0 by {
        assert ps[0] == Pair(order[0], m[order[0]]);
      }
      JoinKeepsFirst(ps, Amp);
      DecodePiecesOf(m, order);
      RestrictAll(m, order);
    }
  }
}
