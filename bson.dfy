/**
 * BSON documents, abstractly: an ordered sequence of (key, value) entries.
 * Keys may repeat, as they may in a BSON byte string; lookups find the first.
 */
module Bson {
  import opened Wrappers

  datatype Value =
    | Document(fields: seq<(string, Value)>)
    | Array(elements: seq<(string, Value)>)
    | Utf8(s: string)
    | Int64(n: int)
    | Boolean(b: bool)
    | Other(tag: nat)

  type Doc = seq<(string, Value)>

  predicate HasKey(d: Doc, k: string)
  {
    exists i :: 0 <= i < |d| && d[i].0 == k
  }

  /** `bson_iter_init_find`: the value of the first entry whose key is `k`. */
  function Find(d: Doc, k: string): (r: Option<Value>)
    ensures r.None? <==> !HasKey(d, k)
    ensures r.Some? ==> exists i :: 0 <= i < |d| && d[i] == (k, r.value) &&
                                    forall j :: 0 <= j < i ==> d[j].0 != k
  {
    if d == [] then None
    else if d[0].0 == k then
      assert d[0] == (k, d[0].1);
      Some(d[0].1)
    else
      var r := Find(d[1..], k);
      assert HasKey(d, k) <==> HasKey(d[1..], k) by {
        if HasKey(d, k) {
          var i :| 0 <= i < |d| && d[i].0 == k;
          assert d[1..][i - 1].0 == k;
        }
        if HasKey(d[1..], k) {
          var i :| 0 <= i < |d[1..]| && d[1..][i].0 == k;
          assert d[i + 1].0 == k;
        }
      }
      if r.Some? then
        var i :| 0 <= i < |d[1..]| && d[1..][i] == (k, r.value) &&
                 forall j :: 0 <= j < i ==> d[1..][j].0 != k;
        assert d[i + 1] == (k, r.value);
        assert forall j :: 0 <= j < i + 1 ==> d[j].0 != k by {
          forall j | 0 <= j < i + 1 ensures d[j].0 != k {
            if j > 0 { assert d[j] == d[1..][j - 1]; }
          }
        }
        r
      else r
  }

  /** `bson_copy_to_excluding_noinit(d, ..., k, NULL)`: every entry whose key is not `k`, in order. */
  function Excluding(d: Doc, k: string): (r: Doc)
    ensures !HasKey(r, k)
    ensures forall e :: e in r <==> e in d && e.0 != k
    ensures |r| <= |d|
    ensures !HasKey(d, k) ==> r == d
  {
    if d == [] then []
    else if d[0].0 == k then Excluding(d[1..], k)
    else [d[0]] + Excluding(d[1..], k)
  }

  /** Excluding works entry by entry, so it keeps the order of the entries it keeps. */
  lemma {:induction false} ExcludingConcat(a: Doc, b: Doc, k: string)
    ensures Excluding(a + b, k) == Excluding(a, k) + Excluding(b, k)
  {
    if a == [] {
      assert a + b == b;
    } else {
      assert (a + b)[0] == a[0];
      assert (a + b)[1..] == a[1..] + b;
      ExcludingConcat(a[1..], b, k);
    }
  }

  lemma HasKeyConcat(a: Doc, b: Doc, k: string)
    ensures HasKey(a + b, k) <==> HasKey(a, k) || HasKey(b, k)
  {
    if HasKey(a + b, k) {
      var i :| 0 <= i < |a + b| && (a + b)[i].0 == k;
      if i >= |a| { assert b[i - |a|].0 == k; }
    }
    if HasKey(a, k) {
      var i :| 0 <= i < |a| && a[i].0 == k;
      assert (a + b)[i].0 == k;
    }
    if HasKey(b, k) {
      var i :| 0 <= i < |b| && b[i].0 == k;
      assert (a + b)[i + |a|].0 == k;
    }
  }
}
