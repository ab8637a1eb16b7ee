/**
  Insertion-ordered dictionaries. The engine iterates over its position dictionary while it decides
  which positions to close, so the order of the keys is part of the behaviour: a new key goes to the
  end, an assignment to a present key keeps its place, and a deleted key that comes back goes to the
  end again.
*/
module Dicts {
  datatype RawDict<K(==), V> = Dict(keys: seq<K>, vals: map<K, V>)

  ghost predicate Distinct<K>(s: seq<K>) {
    forall i, j :: 0 <= i < j < |s| ==> s[i] != s[j]
  }

  ghost predicate IsDict<K, V>(d: RawDict<K, V>) {
    && Distinct(d.keys)
    && (forall k :: k in d.keys ==> k in d.vals)
    && (forall k :: k in d.vals ==> k in d.keys)
  }

  type Dict<K(==), V> = d: RawDict<K, V> | IsDict(d) witness Dict([], map[])

  function Empty<K(==), V>(): Dict<K, V> { Dict([], map[]) }

  /** `d[k] = v` */
  function Put<K(==), V>(d: Dict<K, V>, k: K, v: V): (r: Dict<K, V>)
    ensures r.vals == d.vals[k := v]
    ensures r.keys == if k in d.vals then d.keys else d.keys + [k]
  {
    if k in d.vals then Dict(d.keys, d.vals[k := v]) else Dict(d.keys + [k], d.vals[k := v])
  }

  function Without<K(==)>(keys: seq<K>, k: K): (r: seq<K>)
    ensures k !in r
    ensures forall x :: x in r ==> x in keys
    ensures forall x :: x in keys && x != k ==> x in r
    ensures k !in keys ==> r == keys
    ensures |r| <= |keys|
  {
    if keys == [] then []
    else if keys[0] == k then Without(keys[1..], k)
    else [keys[0]] + Without(keys[1..], k)
  }

  /** `del d[k]` */
  function Remove<K(==), V>(d: Dict<K, V>, k: K): (r: Dict<K, V>)
    ensures r.vals == d.vals - {k}
    ensures k in d.vals ==> |r.keys| == |d.keys| - 1
  {
    WithoutDistinct(d.keys, k);
    Dict(Without(d.keys, k), d.vals - {k})
  }

  lemma {:induction false} WithoutDistinct<K>(keys: seq<K>, k: K)
    requires Distinct(keys)
    ensures Distinct(Without(keys, k))
    ensures |Without(keys, k)| == |keys| - if k in keys then 1 else 0
  {
    if keys != [] {
      var rest := Without(keys[1..], k);
      WithoutDistinct(keys[1..], k);
      forall x | x in rest ensures x != keys[0] {
        assert x in keys[1..];
      }
      if keys[0] == k {
        assert k !in keys[1..];
      } else {
        PrependDistinct(keys[0], rest);
      }
    }
  }

  lemma PrependDistinct<K>(x: K, s: seq<K>)
    requires Distinct(s) && x !in s
    ensures Distinct([x] + s)
  {
    var r := [x] + s;
    forall i, j | 0 <= i < j < |r| ensures r[i] != r[j] {
      assert r[j] == s[j - 1];
      if i > 0 { assert r[i] == s[i - 1]; }
    }
  }

  /** The sum of f over the values, in key order. */
  function SumOver<K(==), V>(keys: seq<K>, vals: map<K, V>, f: V -> real): real
    requires forall k :: k in keys ==> k in vals
  {
    if keys == [] then 0.0 else f(vals[keys[0]]) + SumOver(keys[1..], vals, f)
  }

  function Sum<K(==), V>(d: Dict<K, V>, f: V -> real): real {
    SumOver(d.keys, d.vals, f)
  }

  lemma {:induction false} SumOverFrame<K, V>(keys: seq<K>, vals: map<K, V>, other: map<K, V>, f: V -> real)
    requires forall k :: k in keys ==> k in vals && k in other && f(vals[k]) == f(other[k])
    ensures SumOver(keys, vals, f) == SumOver(keys, other, f)
  {
    if keys != [] {
      SumOverFrame(keys[1..], vals, other, f);
    }
  }

  lemma {:induction false} SumOverUpdate<K, V>(keys: seq<K>, vals: map<K, V>, k: K, v: V, f: V -> real)
    requires Distinct(keys) && k in keys
    requires forall x :: x in keys ==> x in vals
    ensures SumOver(keys, vals[k := v], f) == SumOver(keys, vals, f) - f(vals[k]) + f(v)
  {
    if keys[0] == k {
      SumOverFrame(keys[1..], vals, vals[k := v], f);
    } else {
      SumOverUpdate(keys[1..], vals, k, v, f);
    }
  }

  lemma {:induction false} SumOverAppend<K, V>(keys: seq<K>, vals: map<K, V>, k: K, f: V -> real)
    requires k in vals
    requires forall x :: x in keys ==> x in vals
    ensures SumOver(keys + [k], vals, f) == SumOver(keys, vals, f) + f(vals[k])
  {
    if keys == [] {
      assert SumOver([k], vals, f) == f(vals[k]) + SumOver([k][1..], vals, f);
    } else {
      assert (keys + [k])[1..] == keys[1..] + [k];
      SumOverAppend(keys[1..], vals, k, f);
    }
  }

  /** Assigning to one key moves the sum by the difference of that one summand. */
  lemma SumPut<K, V>(d: Dict<K, V>, k: K, v: V, f: V -> real)
    ensures Sum(Put(d, k, v), f) == Sum(d, f) + f(v) - if k in d.vals then f(d.vals[k]) else 0.0
  {
    if k in d.vals {
      SumOverUpdate(d.keys, d.vals, k, v, f);
    } else {
      SumOverFrame(d.keys, d.vals, d.vals[k := v], f);
      SumOverAppend(d.keys, d.vals[k := v], k, f);
    }
  }

  lemma {:induction false} SumOverLinear<K, V>(keys: seq<K>, vals: map<K, V>, f: V -> real, g: V -> real, h: V -> real)
    requires forall k :: k in keys ==> k in vals && f(vals[k]) == g(vals[k]) + h(vals[k])
    ensures SumOver(keys, vals, f) == SumOver(keys, vals, g) + SumOver(keys, vals, h)
  {
    if keys != [] {
      SumOverLinear(keys[1..], vals, f, g, h);
    }
  }

  lemma {:induction false} SumOverZero<K, V>(keys: seq<K>, vals: map<K, V>, f: V -> real)
    requires forall k :: k in keys ==> k in vals && f(vals[k]) == 0.0
    ensures SumOver(keys, vals, f) == 0.0
  {
    if keys != [] {
      SumOverZero(keys[1..], vals, f);
    }
  }

  lemma {:induction false} SumOverNonNegative<K, V>(keys: seq<K>, vals: map<K, V>, f: V -> real)
    requires forall k :: k in keys ==> k in vals && f(vals[k]) >= 0.0
    ensures SumOver(keys, vals, f) >= 0.0
  {
    if keys != [] {
      SumOverNonNegative(keys[1..], vals, f);
    }
  }

  lemma {:induction false} SumOverMonotone<K, V>(keys: seq<K>, vals: map<K, V>, other: map<K, V>, f: V -> real)
    requires forall k :: k in keys ==> k in vals && k in other && f(vals[k]) <= f(other[k])
    ensures SumOver(keys, vals, f) <= SumOver(keys, other, f)
  {
    if keys != [] {
      SumOverMonotone(keys[1..], vals, other, f);
    }
  }
}
