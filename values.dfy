/** Values that flow through the converter, and Python's insertion-ordered dict. */
module Values {

  newtype byte = x: int | 0 <= x < 256

  /** A field value as the dataset library returns it or as the converter builds it.
      Numbers, floats, booleans and None are opaque scalars that are only ever compared. */
  datatype Value =
    | Scalar(code: int)
    | Str(s: string)
    | Bytes(data: seq<byte>)
    | List(items: seq<Value>)
    | Obj(fields: seq<(string, Value)>)

  /** A Python dict: its (key, value) pairs in insertion order. */
  type Dict = seq<(string, Value)>

  /** The keys of a dict. */
  function Keys(d: Dict): set<string>
  {
    if d == [] then {} else Keys(d[..|d| - 1]) + {d[|d| - 1].0}
  }

  /** Dict keys are unique, as in every Python dict. */
  ghost predicate Distinct(d: Dict)
  {
    forall i, j :: 0 <= i < j < |d| ==> d[i].0 != d[j].0
  }

  /** `d[k]`: the value stored under `k`. */
  function Get(d: Dict, k: string): Value
    requires k in Keys(d)
  {
    var n := |d| - 1;
    if k in Keys(d[..n]) then Get(d[..n], k) else d[n].1
  }

  /** `d[k] = v`: an existing key keeps its position and takes the new value,
      a new key is appended at the end. */
  function Put(d: Dict, k: string, v: Value): (r: Dict)
    ensures Keys(r) == Keys(d) + {k}
    ensures k !in Keys(d) ==> r == d + [(k, v)]
    ensures k in Keys(d) ==> |r| == |d|
  {
    if d == [] then [(k, v)]
    else
      var n := |d| - 1;
      if k in Keys(d[..n]) then
        var r := Put(d[..n], k, v) + [d[n]];
        assert r[..n] == Put(d[..n], k, v);
        r
      else if d[n].0 == k then
        var r := d[..n] + [(k, v)];
        assert r[..n] == d[..n];
        r
      else
        var r := d + [(k, v)];
        assert r[..|d|] == d;
        r
  }

  /** After `d[k] = v`, `d[k]` is `v` and every other key keeps its value. */
  lemma {:induction false} PutGet(d: Dict, k: string, v: Value)
    ensures Get(Put(d, k, v), k) == v
    ensures forall k' :: k' in Keys(d) && k' != k ==> Get(Put(d, k, v), k') == Get(d, k')
  {
    if d != [] {
      var n := |d| - 1;
      var r := Put(d, k, v);
      if k in Keys(d[..n]) {
        PutGet(d[..n], k, v);
        assert r[..n] == Put(d[..n], k, v);
      } else if d[n].0 == k {
        assert r[..n] == d[..n];
      } else {
        assert r[..|d|] == d;
      }
    }
  }

  /** Assignment keeps the keys of a dict unique. */
  lemma {:induction false} PutDistinct(d: Dict, k: string, v: Value)
    requires Distinct(d)
    ensures Distinct(Put(d, k, v))
  {
    if d != [] {
      var n := |d| - 1;
      var r := Put(d, k, v);
      if k in Keys(d[..n]) {
        PutDistinct(d[..n], k, v);
        assert r[..n] == Put(d[..n], k, v);
        PutKeepsOrder(d[..n], k, v);
        KeysAt(d[..n], d[n].0);
      } else {
        KeysAt(d, k);
      }
    }
  }

  /** Assignment never moves a key: position i holds the same key before and after. */
  lemma {:induction false} PutKeepsOrder(d: Dict, k: string, v: Value)
    ensures forall i :: 0 <= i < |d| ==> Put(d, k, v)[i].0 == d[i].0
  {
    if d != [] {
      var n := |d| - 1;
      var r := Put(d, k, v);
      if k in Keys(d[..n]) {
        var p := Put(d[..n], k, v);
        PutKeepsOrder(d[..n], k, v);
        assert r == p + [d[n]];
        forall i | 0 <= i < |d| ensures r[i].0 == d[i].0 {
          if i < n {
            assert r[i] == p[i] && d[..n][i] == d[i];
          }
        }
      } else if d[n].0 == k {
        assert r == d[..n] + [(k, v)];
        forall i | 0 <= i < |d| ensures r[i].0 == d[i].0 {
          if i < n {
            assert d[..n][i] == d[i];
          }
        }
      } else {
        assert r == d + [(k, v)];
      }
    }
  }

  /** A key is in the dict exactly when some pair carries it. */
  lemma {:induction false} KeysAt(d: Dict, k: string)
    ensures k in Keys(d) <==> exists i :: 0 <= i < |d| && d[i].0 == k
  {
    if d != [] {
      var n := |d| - 1;
      KeysAt(d[..n], k);
      if k in Keys(d[..n]) {
        var i :| 0 <= i < n && d[..n][i].0 == k;
        assert d[i].0 == k;
      }
      if exists i :: 0 <= i < |d| && d[i].0 == k {
        var i :| 0 <= i < |d| && d[i].0 == k;
        if i < n { assert d[..n][i].0 == k; }
      }
    }
  }

  /** Python's `t in s` for strings: `t` occurs in `s` at position i. */
  ghost predicate OccursAt(s: string, t: string, i: int)
  {
    0 <= i && i + |t| <= |s| && s[i..i + |t|] == t
  }

  /** Python's substring test `t in s`. */
  function ContainsSub(s: string, t: string): bool
    decreases |s|
  {
    if |s| < |t| then false else s[..|t|] == t || ContainsSub(s[1..], t)
  }

  /** The substring test answers true exactly when `t` occurs somewhere in `s`. */
  lemma {:induction false} ContainsSubIff(s: string, t: string)
    ensures ContainsSub(s, t) <==> exists i :: OccursAt(s, t, i)
    decreases |s|
  {
    if |s| >= |t| && s[..|t|] == t {
      assert OccursAt(s, t, 0);
    } else if |s| >= |t| {
      ContainsSubIff(s[1..], t);
      if ContainsSub(s[1..], t) {
        var i :| OccursAt(s[1..], t, i);
        assert s[1..][i..i + |t|] == s[i + 1..i + 1 + |t|];
        assert OccursAt(s, t, i + 1);
      }
      if exists i :: OccursAt(s, t, i) {
        var i :| OccursAt(s, t, i);
        if i > 0 {
          assert s[1..][i - 1..i - 1 + |t|] == s[i..i + |t|];
          assert OccursAt(s[1..], t, i - 1);
        }
      }
    }
  }

  /** Python's `s.endswith(suffix)`. */
  function EndsWith(s: string, suffix: string): bool
  {
    |suffix| <= |s| && s[|s| - |suffix|..] == suffix
  }
}
