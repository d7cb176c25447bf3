/**
 * PHP arrays with string keys, as the client uses them for query parameters, body
 * parameters and headers: an ordered map where each key occurs once, insertion
 * order is kept, and assigning an existing key overwrites its value in place.
 */
module OrderedMaps {
  import opened Wrappers

  /** `keys` is the iteration order, `values` the key/value association. */
  datatype OrderedMap = OrderedMap(keys: seq<string>, values: map<string, string>)

  ghost predicate Distinct(s: seq<string>) {
    forall i, j | 0 <= i < j < |s| :: s[i] != s[j]
  }

  ghost predicate WellFormed(m: OrderedMap) {
    Distinct(m.keys) && m.values.Keys == set k | k in m.keys
  }

  /** A PHP string-keyed array. */
  type Dict = m: OrderedMap | WellFormed(m) witness OrderedMap([], map[])

  /** `[]` */
  const Empty: Dict := OrderedMap([], map[])

  /** `$m[$k] ?? null` */
  function Get(m: Dict, k: string): (r: Option<string>)
    ensures r.Some? <==> k in m.keys
  {
    if k in m.values then Some(m.values[k]) else None
  }

  /** The key/value pairs in iteration order (what `foreach` visits). */
  function Entries(m: Dict): (es: seq<(string, string)>)
    ensures |es| == |m.keys|
    ensures forall i | 0 <= i < |es| :: es[i].0 == m.keys[i] && Get(m, es[i].0) == Some(es[i].1)
  {
    seq(|m.keys|, i requires 0 <= i < |m.keys| => (m.keys[i], m.values[m.keys[i]]))
  }

  /** `$m[$k] = $v`: a new key is appended, an existing key keeps its position. */
  function Put(m: Dict, k: string, v: string): (r: Dict)
    ensures Get(r, k) == Some(v)
    ensures forall k' | k' != k :: Get(r, k') == Get(m, k')
    ensures r.keys == if k in m.keys then m.keys else m.keys + [k]
  {
    OrderedMap(if k in m.values then m.keys else m.keys + [k], m.values[k := v])
  }

  /** `s` with every occurrence of `x` taken out, the rest in order. */
  function Without(s: seq<string>, x: string): (r: seq<string>)
    ensures forall y :: y in r <==> y in s && y != x
    ensures Distinct(s) ==> Distinct(r)
    ensures x !in s ==> r == s
  {
    if s == [] then []
    else if s[0] == x then Without(s[1..], x)
    else
      var rest := Without(s[1..], x);
      assert s == [s[0]] + s[1..];
      DistinctCons(s[0], s[1..], rest);
      [s[0]] + rest
  }

  lemma DistinctCons(a: string, tail: seq<string>, r: seq<string>)
    requires Distinct(tail) ==> Distinct(r)
    requires forall y | y in r :: y in tail
    ensures Distinct([a] + tail) ==> Distinct([a] + r)
  {
    var t := [a] + tail;
    if !Distinct(t) {
      return;
    }
    assert tail == t[1..];
    forall j | 0 <= j < |tail| ensures tail[j] != a {
      assert t[0] == a && t[j + 1] == tail[j];
    }
    var ar := [a] + r;
    forall i, j | 0 <= i < j < |ar| ensures ar[i] != ar[j] {
      assert ar[j] == r[j - 1] && r[j - 1] in r;
      if i > 0 {
        assert ar[i] == r[i - 1];
      }
    }
  }

  /** In a list without repeats, taking out `s[i]` removes exactly position `i`. */
  lemma {:induction false} WithoutAt(s: seq<string>, i: nat)
    requires Distinct(s) && i < |s|
    ensures Without(s, s[i]) == s[..i] + s[i + 1..]
  {
    if i > 0 {
      assert s[1..][i - 1] == s[i];
      WithoutAt(s[1..], i - 1);
      assert s[1..][..i - 1] + s[1..][i..] == s[1..i] + s[i + 1..];
      assert s[..i] == [s[0]] + s[1..i];
    } else {
      assert s[0] !in s[1..];
    }
  }

  /** `unset($m[$k])`: only `k` goes; every other entry and the order of the rest stay. */
  function Remove(m: Dict, k: string): (r: Dict)
    ensures Get(r, k) == None
    ensures forall k' | k' != k :: Get(r, k') == Get(m, k')
    ensures r.keys == Without(m.keys, k)
    ensures k !in m.keys ==> r == m
  {
    OrderedMap(Without(m.keys, k), m.values - {k})
  }

  /** Removing a key that was just added to an array without it gives the array back. */
  lemma RemoveUndoesPut(m: Dict, k: string, v: string)
    requires k !in m.keys
    ensures Remove(Put(m, k, v), k) == m
  {
    var p := Put(m, k, v);
    var r := Remove(p, k);
    WithoutAt(p.keys, |m.keys|);
    assert p.keys[..|m.keys|] == m.keys && p.keys[|m.keys| + 1..] == [];
    assert r.keys == m.keys;
    Extensionality(r, m);
  }

  /** Assigning a key twice keeps only the last value, at the first position. */
  lemma PutPut(m: Dict, k: string, v1: string, v2: string)
    ensures Put(Put(m, k, v1), k, v2) == Put(m, k, v2)
  {
  }

  /** The keys of `ks`, in order, that are not among `existing`. */
  function NewKeys(ks: seq<string>, existing: seq<string>): (r: seq<string>)
    ensures forall y :: y in r <==> y in ks && y !in existing
  {
    if ks == [] then []
    else if ks[0] in existing then NewKeys(ks[1..], existing)
    else [ks[0]] + NewKeys(ks[1..], existing)
  }

  /** Assigns `b[k]` for every `k` of `ks`, in order. */
  function PutAll(a: Dict, b: Dict, ks: seq<string>): Dict
    requires forall k | k in ks :: k in b.keys
  {
    if ks == [] then a
    else
      var last := ks[|ks| - 1];
      Put(PutAll(a, b, ks[..|ks| - 1]), last, b.values[last])
  }

  /** `array_merge($a, $b)` for string keys: assigns every entry of `b`, in `b`'s order, onto `a`. */
  function Merge(a: Dict, b: Dict): Dict {
    PutAll(a, b, b.keys)
  }

  lemma {:induction false} PutAllGet(a: Dict, b: Dict, ks: seq<string>, k: string)
    requires forall k | k in ks :: k in b.keys
    ensures Get(PutAll(a, b, ks), k) == if k in ks then Get(b, k) else Get(a, k)
  {
    if ks != [] {
      var init := ks[..|ks| - 1];
      assert ks == init + [ks[|ks| - 1]];
      PutAllGet(a, b, init, k);
    }
  }

  lemma {:induction false} NewKeysSnoc(ks: seq<string>, x: string, existing: seq<string>)
    ensures NewKeys(ks + [x], existing) == NewKeys(ks, existing) + (if x in existing then [] else [x])
  {
    if ks == [] {
      assert [x][1..] == [];
    } else {
      assert (ks + [x])[1..] == ks[1..] + [x];
      NewKeysSnoc(ks[1..], x, existing);
    }
  }

  /** The last assignment of `PutAll` appends its key only when that key is new. */
  lemma PutAllLastKeys(a: Dict, b: Dict, ks: seq<string>)
    requires forall k | k in ks :: k in b.keys
    requires ks != []
    ensures var p, last := PutAll(a, b, ks[..|ks| - 1]), ks[|ks| - 1];
            PutAll(a, b, ks).keys == p.keys + (if last in p.keys then [] else [last])
  {
  }

  lemma {:induction false} PutAllKeys(a: Dict, b: Dict, ks: seq<string>)
    requires forall k | k in ks :: k in b.keys
    requires Distinct(ks)
    ensures PutAll(a, b, ks).keys == a.keys + NewKeys(ks, a.keys)
  {
    if ks != [] {
      var init, last := ks[..|ks| - 1], ks[|ks| - 1];
      assert ks == init + [last];
      assert Distinct(init) && last !in init by {
        DistinctInit(ks);
      }
      PutAllKeys(a, b, init);
      NewKeysSnoc(init, last, a.keys);
      PutAllLastKeys(a, b, ks);
      var p, added := PutAll(a, b, init), NewKeys(init, a.keys);
      var tail := if last in a.keys then [] else [last];
      assert last in p.keys <==> last in a.keys;
      calc {
        PutAll(a, b, ks).keys;
        p.keys + tail;
        (a.keys + added) + tail;
        { AppendAssociative(a.keys, added, tail); }
        a.keys + (added + tail);
        a.keys + NewKeys(ks, a.keys);
      }
    }
  }

  lemma AppendAssociative(x: seq<string>, y: seq<string>, z: seq<string>)
    ensures (x + y) + z == x + (y + z)
  {
  }

  lemma DistinctInit(s: seq<string>)
    requires Distinct(s) && s != []
    ensures Distinct(s[..|s| - 1]) && s[|s| - 1] !in s[..|s| - 1]
  {
    var init := s[..|s| - 1];
    forall j | 0 <= j < |init| ensures init[j] != s[|s| - 1] {
      assert init[j] == s[j];
    }
  }

  /** Merging: every key of `b` carries `b`'s value; every other key of `a` keeps `a`'s value. */
  lemma MergeGet(a: Dict, b: Dict, k: string)
    ensures Get(Merge(a, b), k) == if k in b.keys then Get(b, k) else Get(a, k)
  {
    PutAllGet(a, b, b.keys, k);
  }

  /** Merging orders the keys as `a`'s keys followed by `b`'s new keys, in `b`'s order. */
  lemma MergeKeys(a: Dict, b: Dict)
    ensures Merge(a, b).keys == a.keys + NewKeys(b.keys, a.keys)
  {
    PutAllKeys(a, b, b.keys);
  }

  /** Two arrays with the same keys in the same order and the same values are the same array. */
  lemma Extensionality(m1: Dict, m2: Dict)
    requires m1.keys == m2.keys
    requires forall k | k in m1.keys :: Get(m1, k) == Get(m2, k)
    ensures m1 == m2
  {
    forall k | k in m1.values ensures k in m2.values && m1.values[k] == m2.values[k] {
      assert Get(m1, k) == Get(m2, k);
    }
  }

  /** Merging with nothing changes nothing, in either position. */
  lemma MergeEmpty(a: Dict)
    ensures Merge(a, Empty) == a
    ensures Merge(Empty, a) == a
  {
    var m := Merge(Empty, a);
    MergeKeys(Empty, a);
    NewKeysNone(a.keys);
    forall k | k in m.keys ensures Get(m, k) == Get(a, k) {
      MergeGet(Empty, a, k);
    }
    Extensionality(m, a);
  }

  lemma {:induction false} NewKeysNone(ks: seq<string>)
    ensures NewKeys(ks, []) == ks
  {
    if ks != [] {
      NewKeysNone(ks[1..]);
      assert ks == [ks[0]] + ks[1..];
    }
  }
}
