/**
 * `http_build_query` on a flat string-keyed array: each entry becomes `key=value`
 * and the entries are joined with `&`, in the array's order. Percent-encoding of
 * keys and values is not modelled: they are written as they are.
 */
module QueryStrings {
  import opened Wrappers
  import opened OrderedMaps

  /** `parts` joined with `sep` between neighbours. */
  function Join(parts: seq<string>, sep: char): string {
    if parts == [] then []
    else if |parts| == 1 then parts[0]
    else parts[0] + [sep] + Join(parts[1..], sep)
  }

  /** `s` cut at every `sep`; the inverse of Join. */
  function Split(s: string, sep: char): (parts: seq<string>)
    ensures |parts| > 0
  {
    if s == [] then [[]]
    else
      var rest := Split(s[1..], sep);
      if s[0] == sep then [[]] + rest else [[s[0]] + rest[0]] + rest[1..]
  }

  lemma {:induction false} SplitWithout(p: string, sep: char)
    requires sep !in p
    ensures Split(p, sep) == [p]
  {
    if p != [] {
      SplitWithout(p[1..], sep);
      assert [p[0]] + p[1..] == p;
    }
  }

  lemma {:induction false} SplitAfter(p: string, sep: char, q: string)
    requires sep !in p
    ensures Split(p + [sep] + q, sep) == [p] + Split(q, sep)
  {
    var s := p + [sep] + q;
    if p == [] {
      assert s[1..] == q;
    } else {
      assert s[1..] == p[1..] + [sep] + q;
      SplitAfter(p[1..], sep, q);
      assert [p[0]] + p[1..] == p;
    }
  }

  /** Splitting a join of pieces that do not contain the separator gives the pieces back. */
  lemma {:induction false} SplitJoin(parts: seq<string>, sep: char)
    requires |parts| > 0
    requires forall i | 0 <= i < |parts| :: sep !in parts[i]
    ensures Split(Join(parts, sep), sep) == parts
  {
    if |parts| == 1 {
      SplitWithout(parts[0], sep);
    } else {
      SplitAfter(parts[0], sep, Join(parts[1..], sep));
      SplitJoin(parts[1..], sep);
    }
  }

  /** `key=value` */
  function EncodePair(e: (string, string)): string {
    e.0 + "=" + e.1
  }

  /** Reads `key=value` back: the key ends at the first `=`. */
  function DecodePair(s: string): (string, string) {
    if s == [] then ([], [])
    else if s[0] == '=' then ([], s[1..])
    else
      var (k, v) := DecodePair(s[1..]);
      ([s[0]] + k, v)
  }

  lemma {:induction false} DecodeEncodePair(k: string, v: string)
    requires '=' !in k
    ensures DecodePair(EncodePair((k, v))) == (k, v)
  {
    var s := EncodePair((k, v));
    if k == [] {
      assert s == "=" + v;
    } else {
      assert s[1..] == EncodePair((k[1..], v));
      DecodeEncodePair(k[1..], v);
      assert [k[0]] + k[1..] == k;
    }
  }

  /** `http_build_query($m)`: `k1=v1&k2=v2&...` in the array's order; `""` for an empty array. */
  function BuildQuery(m: Dict): (q: string)
    ensures m.keys == [] <==> q == []
  {
    var es := Entries(m);
    var q := Join(seq(|es|, i requires 0 <= i < |es| => EncodePair(es[i])), '&');
    assert es != [] ==> |EncodePair(es[0])| > 0 && q[..|EncodePair(es[0])|] == EncodePair(es[0]);
    q
  }

  /** Reads a query string back into its entries, in order; the inverse of BuildQuery. */
  function ParseQuery(q: string): seq<(string, string)> {
    if q == [] then []
    else
      var parts := Split(q, '&');
      seq(|parts|, i requires 0 <= i < |parts| => DecodePair(parts[i]))
  }

  /** No key holds `&` or `=` and no value holds `&` (what percent-encoding guarantees). */
  predicate Plain(m: Dict) {
    forall k | k in m.values :: '&' !in k && '=' !in k && '&' !in m.values[k]
  }

  /** Assigning a plain key and value keeps an array plain. */
  lemma PlainPut(m: Dict, k: string, v: string)
    requires Plain(m) && '&' !in k && '=' !in k && '&' !in v
    ensures Plain(Put(m, k, v))
  {
    var p := Put(m, k, v);
    forall x | x in p.values ensures '&' !in x && '=' !in x && '&' !in p.values[x] {
      if x != k {
        assert Get(p, x) == Get(m, x);
      }
    }
  }

  /** Merging plain arrays gives a plain array. */
  lemma PlainMerge(a: Dict, b: Dict)
    requires Plain(a) && Plain(b)
    ensures Plain(Merge(a, b))
  {
    var m := Merge(a, b);
    forall k | k in m.values ensures '&' !in k && '=' !in k && '&' !in m.values[k] {
      MergeGet(a, b, k);
      assert Get(m, k) == Some(m.values[k]);
    }
  }

  /** Parsing a built query string gives back the array's entries, in order. */
  lemma ParseBuildQuery(m: Dict)
    requires Plain(m)
    ensures ParseQuery(BuildQuery(m)) == Entries(m)
  {
    var es := Entries(m);
    var parts := seq(|es|, i requires 0 <= i < |es| => EncodePair(es[i]));
    if es != [] {
      forall i | 0 <= i < |parts| ensures '&' !in parts[i] {
        assert es[i].0 in m.values;
      }
      SplitJoin(parts, '&');
      forall i | 0 <= i < |es| ensures DecodePair(parts[i]) == es[i] {
        assert es[i].0 in m.values;
        DecodeEncodePair(es[i].0, es[i].1);
      }
    }
  }

  /** Plain arrays with the same query string are the same array. */
  lemma BuildQueryInjective(m1: Dict, m2: Dict)
    requires Plain(m1) && Plain(m2)
    requires BuildQuery(m1) == BuildQuery(m2)
    ensures m1 == m2
  {
    ParseBuildQuery(m1);
    ParseBuildQuery(m2);
    var e1, e2 := Entries(m1), Entries(m2);
    assert e1 == e2;
    assert m1.keys == m2.keys by {
      assert |m1.keys| == |m2.keys|;
      forall i | 0 <= i < |m1.keys| ensures m1.keys[i] == m2.keys[i] {
        assert e1[i].0 == m1.keys[i] && e2[i].0 == m2.keys[i];
      }
    }
    forall k | k in m1.keys ensures Get(m1, k) == Get(m2, k) {
      var i :| 0 <= i < |m1.keys| && m1.keys[i] == k;
      assert Get(m1, k) == Some(e1[i].1) == Get(m2, k);
    }
    Extensionality(m1, m2);
  }
}
