/** The `net/http` values the option records carry: a header map (keys taken
    as already canonical), cookies as values, the key/value header pair of the
    list-based records, and the replace-first-match-or-append merge that every
    list-based merge in the client performs. */
module Http {

  /** `http.Header`. */
  type Header = map<string, seq<string>>

  /** `http.Cookie`, field by field (`Expires` as a Unix time, `SameSite` as
      the enum's integer). */
  datatype Cookie = Cookie(
    Name: string,
    Value: string,
    Path: string,
    Domain: string,
    Expires: int,
    RawExpires: string,
    MaxAge: int,
    Secure: bool,
    HttpOnly: bool,
    SameSite: int,
    Raw: string,
    Unparsed: seq<string>)

  /** `kv.Header` / the root package's `Header`: one key/value pair. */
  datatype KV = KV(Key: string, Value: string)

  function CookieName(c: Cookie): string { c.Name }

  function HeaderKey(h: KV): string { h.Key }

  // ---------------------------------------------------- replace or append

  /** The index of the first entry whose key is `k`, or `|xs|` if none. */
  function FindFirst<T, K(==)>(xs: seq<T>, k: K, key: T -> K): (i: nat)
    ensures i <= |xs|
    ensures forall j :: 0 <= j < i ==> key(xs[j]) != k
    ensures i < |xs| ==> key(xs[i]) == k
  {
    if xs == [] then 0
    else if key(xs[0]) == k then 0
    else 1 + FindFirst(xs[1..], k, key)
  }

  /** A position that satisfies the two conditions of the first match is
      the one `FindFirst` returns. */
  lemma FindFirstIs<T, K>(xs: seq<T>, k: K, key: T -> K, i: nat)
    requires i <= |xs|
    requires forall j :: 0 <= j < i ==> key(xs[j]) != k
    requires i < |xs| ==> key(xs[i]) == k
    ensures FindFirst(xs, k, key) == i
  {
  }

  /** One step of the merge loop: the first entry with `x`'s key is
      replaced by `x`, or `x` is appended when there is none. */
  function Upsert<T, K(==)>(xs: seq<T>, x: T, key: T -> K): (r: seq<T>)
    ensures |xs| <= |r| <= |xs| + 1
  {
    var i := FindFirst(xs, key(x), key);
    if i < |xs| then xs[i := x] else xs + [x]
  }

  /** The whole merge: every source entry upserted in source order. */
  function MergeAll<T, K(==)>(xs: seq<T>, src: seq<T>, key: T -> K): (r: seq<T>)
    ensures |xs| <= |r| <= |xs| + |src|
    decreases |src|
  {
    if src == [] then xs
    else MergeAll(Upsert(xs, src[0], key), src[1..], key)
  }

  function Keys<T, K>(xs: seq<T>, key: T -> K): set<K> {
    set i | 0 <= i < |xs| :: key(xs[i])
  }

  /** The last entry of `src` whose key is `k`; `src` must have one. */
  function LastWith<T, K(==)>(src: seq<T>, k: K, key: T -> K): (x: T)
    requires k in Keys(src, key)
    ensures key(x) == k
    ensures exists i :: 0 <= i < |src| && src[i] == x
  {
    var n := |src| - 1;
    if key(src[n]) == k then src[n]
    else
      assert k in Keys(src[..n], key) by {
        var i :| 0 <= i < |src| && key(src[i]) == k;
        assert src[..n][i] == src[i];
      }
      var x := LastWith(src[..n], k, key);
      ghost var i :| 0 <= i < n && src[..n][i] == x;
      assert src[i] == x;
      x
  }

  // ---------------------------------------------------- properties of Upsert

  /** An upsert keeps the length when the key is present and grows it by one
      when it is not; the entry for the key is `x`, and every entry with
      another key keeps its place. */
  lemma UpsertShape<T, K>(xs: seq<T>, x: T, key: T -> K)
    ensures var r := Upsert(xs, x, key);
            && (key(x) in Keys(xs, key) ==> |r| == |xs|)
            && (key(x) !in Keys(xs, key) ==> r == xs + [x])
            && FindFirst(r, key(x), key) < |r| && r[FindFirst(r, key(x), key)] == x
            && (forall j :: 0 <= j < |xs| && key(xs[j]) != key(x) ==> r[j] == xs[j])
            && Keys(r, key) == Keys(xs, key) + {key(x)}
  {
    var r := Upsert(xs, x, key);
    var i := FindFirst(xs, key(x), key);
    if i < |xs| {
      FindFirstIs(r, key(x), key, i);
      forall k | k in Keys(r, key) ensures k in Keys(xs, key) + {key(x)} {
        var j :| 0 <= j < |r| && key(r[j]) == k;
        if j != i { assert key(xs[j]) == k; }
      }
      forall k | k in Keys(xs, key) + {key(x)} ensures k in Keys(r, key) {
        if k == key(x) {
          assert key(r[i]) == k;
        } else {
          var j :| 0 <= j < |xs| && key(xs[j]) == k;
          assert key(r[j]) == k;
        }
      }
    } else {
      assert key(x) !in Keys(xs, key);
      FindFirstIs(r, key(x), key, |xs|);
      forall k | k in Keys(r, key) ensures k in Keys(xs, key) + {key(x)} {
        var j :| 0 <= j < |r| && key(r[j]) == k;
        if j < |xs| { assert key(xs[j]) == k; }
      }
      forall k | k in Keys(xs, key) ensures k in Keys(r, key) {
        var j :| 0 <= j < |xs| && key(xs[j]) == k;
        assert key(r[j]) == k;
      }
      assert key(r[|xs|]) == key(x);
    }
  }

  /** An upsert leaves the first entry of every other key where it was, and
      adds no entry for it. */
  lemma UpsertKeepsOtherFirsts<T, K>(xs: seq<T>, x: T, key: T -> K, k: K)
    requires k != key(x)
    ensures var r := Upsert(xs, x, key);
            && (FindFirst(xs, k, key) < |xs| ==> FindFirst(r, k, key) == FindFirst(xs, k, key))
            && (FindFirst(xs, k, key) == |xs| ==> FindFirst(r, k, key) == |r|)
            && (forall j :: 0 <= j < |xs| && key(xs[j]) == k ==> r[j] == xs[j])
  {
    var r := Upsert(xs, x, key);
    var f := FindFirst(xs, k, key);
    var i := FindFirst(xs, key(x), key);
    assert |xs| <= |r|;
    forall j | 0 <= j < |r| && key(r[j]) == k
      ensures j < |xs| && r[j] == xs[j]
    {
      if i < |xs| {
        assert r == xs[i := x];
      } else {
        assert r == xs + [x];
      }
    }
    forall j | 0 <= j < |xs| && key(xs[j]) == k
      ensures r[j] == xs[j]
    {
      if i < |xs| {
        assert r == xs[i := x];
      } else {
        assert r == xs + [x];
      }
    }
    if f < |xs| {
      FindFirstIs(r, k, key, f);
    } else {
      FindFirstIs(r, k, key, |r|);
    }
  }

  // ---------------------------------------------------- properties of MergeAll

  lemma {:induction false} MergeAllSnoc<T, K>(xs: seq<T>, src: seq<T>, x: T, key: T -> K)
    ensures MergeAll(xs, src + [x], key) == Upsert(MergeAll(xs, src, key), x, key)
    decreases |src|
  {
    if src == [] {
      assert src + [x] == [x];
      assert [x][1..] == [];
    } else {
      assert (src + [x])[1..] == src[1..] + [x];
      MergeAllSnoc(Upsert(xs, src[0], key), src[1..], x, key);
    }
  }

  /** The inner search of the merge loops: the index of the first header
      with the key, or the length when there is none. */
  method FirstWithKey(hs: seq<KV>, key: string) returns (j: nat)
    ensures j == FindFirst(hs, key, HeaderKey)
  {
    j := 0;
    while j < |hs|
      invariant j <= |hs|
      invariant forall t :: 0 <= t < j ==> hs[t].Key != key
    {
      if hs[j].Key == key {
        break;
      }
      j := j + 1;
    }
    FindFirstIs(hs, key, HeaderKey, j);
  }

  /** The same search over cookies, by name. */
  method FirstWithName(cs: seq<Cookie>, name: string) returns (j: nat)
    ensures j == FindFirst(cs, name, CookieName)
  {
    j := 0;
    while j < |cs|
      invariant j <= |cs|
      invariant forall t :: 0 <= t < j ==> cs[t].Name != name
    {
      if cs[j].Name == name {
        break;
      }
      j := j + 1;
    }
    FindFirstIs(cs, name, CookieName, j);
  }

  /** One turn of a merge loop: upserting the next source entry extends the
      merge by that entry. */
  lemma MergeAllStep<T, K>(xs: seq<T>, src: seq<T>, i: nat, key: T -> K)
    requires i < |src|
    ensures Upsert(MergeAll(xs, src[..i], key), src[i], key) == MergeAll(xs, src[..i + 1], key)
  {
    assert src[..i + 1] == src[..i] + [src[i]];
    MergeAllSnoc(xs, src[..i], src[i], key);
  }

  /** The merged list holds the target's keys and the source's, no others. */
  lemma {:induction false} MergeAllKeys<T, K>(xs: seq<T>, src: seq<T>, key: T -> K)
    ensures var r := MergeAll(xs, src, key);
            Keys(r, key) == Keys(xs, key) + Keys(src, key)
    decreases |src|
  {
    if src != [] {
      UpsertShape(xs, src[0], key);
      MergeAllKeys(Upsert(xs, src[0], key), src[1..], key);
      assert Keys(src, key) == {key(src[0])} + Keys(src[1..], key) by {
        forall k | k in Keys(src, key) ensures k in {key(src[0])} + Keys(src[1..], key) {
          var j :| 0 <= j < |src| && key(src[j]) == k;
          if j > 0 { assert key(src[1..][j - 1]) == k; }
        }
      }
    }
  }

  /** Source wins: for every key the source carries, the first entry of the
      merged list with that key is the last source entry with it. */
  lemma {:induction false} MergeAllSourceWins<T, K>(xs: seq<T>, src: seq<T>, key: T -> K, k: K)
    requires k in Keys(src, key)
    ensures var r := MergeAll(xs, src, key);
            FindFirst(r, k, key) < |r| && r[FindFirst(r, k, key)] == LastWith(src, k, key)
    decreases |src|
  {
    var n := |src| - 1;
    var front := src[..n];
    assert src == front + [src[n]];
    MergeAllSnoc(xs, front, src[n], key);
    var m := MergeAll(xs, front, key);
    UpsertShape(m, src[n], key);
    if key(src[n]) != k {
      assert k in Keys(front, key) by {
        var i :| 0 <= i < |src| && key(src[i]) == k;
        assert front[i] == src[i];
      }
      MergeAllSourceWins(xs, front, key, k);
      UpsertKeepsOtherFirsts(m, src[n], key, k);
    }
  }

  /** Target entries whose key the source does not carry survive in place,
      and the first entry of each such key is unchanged. */
  lemma {:induction false} MergeAllKeepsOthers<T, K>(xs: seq<T>, src: seq<T>, key: T -> K, k: K)
    requires k !in Keys(src, key)
    ensures var r := MergeAll(xs, src, key);
            && (FindFirst(xs, k, key) < |xs| ==> FindFirst(r, k, key) == FindFirst(xs, k, key))
            && (forall j :: 0 <= j < |xs| && key(xs[j]) == k ==> r[j] == xs[j])
    decreases |src|
  {
    if src != [] {
      var u := Upsert(xs, src[0], key);
      assert key(src[0]) in Keys(src, key);
      UpsertShape(xs, src[0], key);
      UpsertKeepsOtherFirsts(xs, src[0], key, k);
      forall j | 0 <= j < |src[1..]| ensures key(src[1..][j]) != k {
        assert src[1..][j] == src[j + 1];
      }
      MergeAllKeepsOthers(u, src[1..], key, k);
    }
  }
}
