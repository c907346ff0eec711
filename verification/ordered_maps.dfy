/** Insertion-ordered maps, as a sequence of (key, value) entries.

    This is the shape shared by an ECMAScript `Map` (the health check's
    probes) and by a plain object's own string keys (an error payload, a
    header record): lookup finds the entry with the key, setting an existing
    key replaces its value in place, and setting a new key appends it
    (section 24.1.3.9 of ECMA-262, `Map.prototype.set`; object spread
    `{...o, k: v}` behaves the same for non-index keys). */
module OrderedMaps {
  import opened Wrappers

  type OrderedMap<K, V> = seq<(K, V)>

  /** The keys in iteration order. */
  function Keys<K, V>(m: OrderedMap<K, V>): (ks: seq<K>)
    ensures |ks| == |m|
    ensures forall i :: 0 <= i < |m| ==> ks[i] == m[i].0
  {
    seq(|m|, i requires 0 <= i < |m| => m[i].0)
  }

  /** No key occurs twice: the invariant every map and object keeps. */
  predicate Keyed<K(==), V>(m: OrderedMap<K, V>)
  {
    forall i, j :: 0 <= i < j < |m| ==> m[i].0 != m[j].0
  }

  /** The position of the first entry at or after `from` whose key is `k`. */
  function IndexFrom<K(==), V>(m: OrderedMap<K, V>, k: K, from: nat): (r: Option<nat>)
    requires from <= |m|
    ensures r.Some? ==> from <= r.value < |m| && m[r.value].0 == k
    ensures r.Some? ==> forall j :: from <= j < r.value ==> m[j].0 != k
    ensures r.None? <==> forall j :: from <= j < |m| ==> m[j].0 != k
    decreases |m| - from
  {
    if from == |m| then None
    else if m[from].0 == k then Some(from)
    else IndexFrom(m, k, from + 1)
  }

  function IndexOf<K(==), V>(m: OrderedMap<K, V>, k: K): (r: Option<nat>)
    ensures r.Some? ==> r.value < |m| && m[r.value].0 == k
    ensures r.None? <==> k !in Keys(m)
  {
    IndexFrom(m, k, 0)
  }

  /** The value stored under `k`, or None when `k` is not a key. */
  function Get<K(==), V>(m: OrderedMap<K, V>, k: K): (r: Option<V>)
    ensures r.None? <==> k !in Keys(m)
    ensures Keyed(m) ==> forall i :: 0 <= i < |m| && m[i].0 == k ==> r == Some(m[i].1)
  {
    match IndexOf(m, k)
    case Some(i) => Some(m[i].1)
    case None => None
  }

  /** `m.set(k, v)`: replace the value of an existing key where it stands,
      or append a new entry at the end. */
  function Set<K(==,!new), V>(m: OrderedMap<K, V>, k: K, v: V): (r: OrderedMap<K, V>)
    ensures Get(r, k) == Some(v)
    ensures Keyed(m) ==> Keyed(r)
    ensures Keyed(m) ==> forall k' :: k' != k ==> Get(r, k') == Get(m, k')
    ensures k in Keys(m) ==> Keys(r) == Keys(m)
    ensures k !in Keys(m) ==> Keys(r) == Keys(m) + [k] && r == m + [(k, v)]
    ensures |r| <= |m| + 1
  {
    match IndexOf(m, k)
    case Some(i) =>
      var r := m[i := (k, v)];
      assert Keys(r) == Keys(m);
      r
    case None =>
      var r := m + [(k, v)];
      assert Keys(r) == Keys(m) + [k];
      r
  }

  /** The entries whose key is not `k`, in their original order (the rest
      object of a destructuring that names `k`). */
  function Remove<K(==,!new), V>(m: OrderedMap<K, V>, k: K): (r: OrderedMap<K, V>)
    ensures k !in Keys(r)
    ensures forall k' :: k' in Keys(r) <==> k' in Keys(m) && k' != k
    ensures Keyed(m) ==> Keyed(r)
    ensures forall k' :: k' != k ==> Get(r, k') == Get(m, k')
    ensures k !in Keys(m) ==> r == m
    ensures Keys(r) == Filter(Keys(m), k)
  {
    if |m| == 0 then []
    else
      var rest := Remove(m[1..], k);
      RemoveStep(m, k, rest);
      if m[0].0 == k then rest else [m[0]] + rest
  }

  /** One step of `Remove`: the contract for the tail carries over to the
      whole map, whether the head entry is dropped or kept. */
  lemma RemoveStep<K(!new), V>(m: OrderedMap<K, V>, k: K, rest: OrderedMap<K, V>)
    requires |m| > 0
    requires k !in Keys(rest)
    requires forall k' :: k' in Keys(rest) <==> k' in Keys(m[1..]) && k' != k
    requires Keyed(m[1..]) ==> Keyed(rest)
    requires forall k' :: k' != k ==> Get(rest, k') == Get(m[1..], k')
    requires k !in Keys(m[1..]) ==> rest == m[1..]
    requires Keys(rest) == Filter(Keys(m[1..]), k)
    ensures var r := if m[0].0 == k then rest else [m[0]] + rest;
      && k !in Keys(r)
      && (forall k' :: k' in Keys(r) <==> k' in Keys(m) && k' != k)
      && (Keyed(m) ==> Keyed(r))
      && (forall k' :: k' != k ==> Get(r, k') == Get(m, k'))
      && (k !in Keys(m) ==> r == m)
      && Keys(r) == Filter(Keys(m), k)
  {
    var t := m[1..];
    assert m == [m[0]] + t;
    KeysCons(m[0], t);
    assert Keys(m)[1..] == Keys(t);
    KeyedCons(m[0], t);
    GetConsAll(m[0], t);
    if m[0].0 != k {
      var r := [m[0]] + rest;
      KeysCons(m[0], rest);
      KeyedCons(m[0], rest);
      GetConsAll(m[0], rest);
      forall k' ensures k' in Keys(r) <==> k' in Keys(m) && k' != k {
        assert k' in Keys(r) <==> k' == m[0].0 || k' in Keys(rest);
        assert k' in Keys(m) <==> k' == m[0].0 || k' in Keys(t);
      }
      forall k' | k' != k ensures Get(r, k') == Get(m, k') {
        if k' != m[0].0 {
          assert Get(r, k') == Get(rest, k');
        }
      }
    } else {
      forall k' ensures k' in Keys(rest) <==> k' in Keys(m) && k' != k {
        assert k' in Keys(m) <==> k' == m[0].0 || k' in Keys(t);
      }
    }
  }

  /** The keys `ks` without `k`, in their order. */
  function Filter<K(==)>(ks: seq<K>, k: K): seq<K>
  {
    if |ks| == 0 then []
    else (if ks[0] == k then [] else [ks[0]]) + Filter(ks[1..], k)
  }

  lemma KeysCons<K, V>(e: (K, V), t: OrderedMap<K, V>)
    ensures Keys([e] + t) == [e.0] + Keys(t)
  {
  }

  lemma KeyedCons<K, V>(e: (K, V), t: OrderedMap<K, V>)
    ensures Keyed([e] + t) <==> e.0 !in Keys(t) && Keyed(t)
  {
    var m := [e] + t;
    KeysCons(e, t);
    if e.0 !in Keys(t) && Keyed(t) {
      forall i, j | 0 <= i < j < |m| ensures m[i].0 != m[j].0 {
        if i > 0 {
          assert m[i] == t[i - 1] && m[j] == t[j - 1];
        } else {
          assert m[j].0 == Keys(t)[j - 1];
        }
      }
    }
    if Keyed(m) {
      forall j | 0 <= j < |t| ensures Keys(t)[j] != e.0 {
        assert m[0] == e && m[j + 1] == t[j];
      }
      forall i, j | 0 <= i < j < |t| ensures t[i].0 != t[j].0 {
        assert m[i + 1] == t[i] && m[j + 1] == t[j];
      }
    }
  }

  lemma {:induction false} GetCons<K, V>(e: (K, V), t: OrderedMap<K, V>, k: K)
    ensures Get([e] + t, k) == if e.0 == k then Some(e.1) else Get(t, k)
  {
    var m := [e] + t;
    if e.0 != k {
      IndexFromShift(e, t, k, 0);
    }
  }

  /** In `[e] + t`, key `e.0` finds `e`, and every other key is looked up as in `t`. */
  lemma GetConsAll<K(!new), V>(e: (K, V), t: OrderedMap<K, V>)
    ensures forall k' :: k' != e.0 ==> Get([e] + t, k') == Get(t, k')
    ensures Get([e] + t, e.0) == Some(e.1)
  {
    forall k' | k' != e.0
      ensures Get([e] + t, k') == Get(t, k')
    {
      GetCons(e, t, k');
    }
    GetCons(e, t, e.0);
  }

  lemma {:induction false} IndexFromShift<K, V>(e: (K, V), t: OrderedMap<K, V>, k: K, from: nat)
    requires from <= |t|
    ensures IndexFrom([e] + t, k, from + 1) == match IndexFrom(t, k, from)
      case Some(i) => Some(i + 1)
      case None => None
    decreases |t| - from
  {
    var m := [e] + t;
    if from < |t| {
      assert m[from + 1] == t[from];
      if t[from].0 != k {
        IndexFromShift(e, t, k, from + 1);
      }
    }
  }
}
