/**
 * Plain JavaScript objects (`Record<string, V>`) as association lists.
 *
 * A JavaScript object keeps one value per key and remembers the order in which
 * keys were first added. Setting an existing key replaces its value in place;
 * setting a new key appends it; `delete` removes it. `Put`, `Delete` and
 * `Assign` below do exactly that, so both `JSON.parse` (a later duplicate key
 * wins, at the position of the first) and object spread `{ ...a, ...b }` are
 * `Assign` over the properties in order.
 */
module Objects {
  import opened Wrappers

  /** One own property of an object. */
  datatype Prop<V> = Prop(key: string, value: V)

  function KeySet<V>(o: seq<Prop<V>>): set<string> {
    if o == [] then {} else {o[0].key} + KeySet(o[1..])
  }

  predicate UniqueKeys<V>(o: seq<Prop<V>>) {
    o == [] || (o[0].key !in KeySet(o[1..]) && UniqueKeys(o[1..]))
  }

  /** Reading `o[k]`: the value of the first property named `k`. */
  function Get<V>(o: seq<Prop<V>>, k: string): (r: Option<V>)
    ensures r.Some? <==> k in KeySet(o)
  {
    if o == [] then None
    else if o[0].key == k then Some(o[0].value)
    else Get(o[1..], k)
  }

  /** The value of the LAST property named `k` in a raw list of properties. */
  function GetLast<V>(ps: seq<Prop<V>>, k: string): (r: Option<V>)
    ensures r.Some? <==> k in KeySet(ps)
  {
    if ps == [] then None
    else if k in KeySet(ps[1..]) then GetLast(ps[1..], k)
    else if ps[0].key == k then Some(ps[0].value)
    else None
  }

  /** Two objects that answer every read alike (they may list keys in another order). */
  ghost predicate SameProps<V>(a: seq<Prop<V>>, b: seq<Prop<V>>) {
    forall k :: Get(a, k) == Get(b, k)
  }

  /** `o[k] = v`: replace the value in place when `k` is present, append otherwise. */
  function Put<V>(o: seq<Prop<V>>, k: string, v: V): (r: seq<Prop<V>>)
    ensures Get(r, k) == Some(v)
    ensures forall k' :: k' != k ==> Get(r, k') == Get(o, k')
    ensures KeySet(r) == KeySet(o) + {k}
    ensures k !in KeySet(o) ==> r == o + [Prop(k, v)]
    ensures UniqueKeys(o) ==> UniqueKeys(r)
  {
    if o == [] then [Prop(k, v)]
    else if o[0].key == k then [Prop(k, v)] + o[1..]
    else
      var r := [o[0]] + Put(o[1..], k, v);
      assert r[1..] == Put(o[1..], k, v);
      r
  }

  /** `delete o[k]`. */
  function Delete<V>(o: seq<Prop<V>>, k: string): (r: seq<Prop<V>>)
    ensures Get(r, k) == None
    ensures forall k' :: k' != k ==> Get(r, k') == Get(o, k')
    ensures KeySet(r) == KeySet(o) - {k}
    ensures UniqueKeys(o) ==> UniqueKeys(r)
  {
    if o == [] then []
    else if o[0].key == k then Delete(o[1..], k)
    else
      var r := [o[0]] + Delete(o[1..], k);
      assert r[1..] == Delete(o[1..], k);
      r
  }

  /** Setting every property of `ps`, in order, on `o` (object spread, or building a parsed object). */
  function Assign<V>(o: seq<Prop<V>>, ps: seq<Prop<V>>): (r: seq<Prop<V>>)
    ensures forall k :: Get(r, k) == if k in KeySet(ps) then GetLast(ps, k) else Get(o, k)
    ensures KeySet(r) == KeySet(o) + KeySet(ps)
    ensures UniqueKeys(o) ==> UniqueKeys(r)
    decreases ps
  {
    if ps == [] then o
    else Assign(Put(o, ps[0].key, ps[0].value), ps[1..])
  }

  lemma {:induction false} KeySetAppend<V>(a: seq<Prop<V>>, b: seq<Prop<V>>)
    ensures KeySet(a + b) == KeySet(a) + KeySet(b)
  {
    if a != [] {
      assert (a + b)[1..] == a[1..] + b;
      KeySetAppend(a[1..], b);
    } else {
      assert a + b == b;
    }
  }

  lemma {:induction false} UniqueAppend<V>(a: seq<Prop<V>>, p: Prop<V>)
    requires UniqueKeys(a) && p.key !in KeySet(a)
    ensures UniqueKeys(a + [p])
  {
    if a != [] {
      assert (a + [p])[1..] == a[1..] + [p];
      UniqueAppend(a[1..], p);
      KeySetAppend(a[1..], [p]);
    }
  }

  /** With distinct keys, building an object from its own property list gives that list back. */
  lemma {:induction false} AssignUnique<V>(o: seq<Prop<V>>, ps: seq<Prop<V>>)
    requires UniqueKeys(o + ps) 
    ensures Assign(o, ps) == o + ps
    decreases ps
  {
    if ps != [] {
      KeySetAppend(o, ps);
      UniqueSplit(o, ps);
      assert ps[0].key !in KeySet(o) by { UniqueNotIn(o, ps); }
      assert o + ps == (o + [ps[0]]) + ps[1..];
      AssignUnique(o + [ps[0]], ps[1..]);
    }
  }

  lemma {:induction false} UniqueSplit<V>(a: seq<Prop<V>>, b: seq<Prop<V>>)
    requires UniqueKeys(a + b)
    ensures UniqueKeys(a) && UniqueKeys(b)
  {
    if a != [] {
      assert (a + b)[1..] == a[1..] + b;
      UniqueSplit(a[1..], b);
      KeySetAppend(a[1..], b);
    } else {
      assert a + b == b;
    }
  }

  lemma {:induction false} UniqueNotIn<V>(a: seq<Prop<V>>, b: seq<Prop<V>>)
    requires UniqueKeys(a + b) && b != []
    ensures b[0].key !in KeySet(a)
  {
    if a != [] {
      assert (a + b)[1..] == a[1..] + b;
      KeySetAppend(a[1..], b);
      UniqueNotIn(a[1..], b);
    }
  }

  /** In an object with distinct keys, the first property named `k` is also the last one. */
  lemma {:induction false} GetLastUnique<V>(ps: seq<Prop<V>>, k: string)
    requires UniqueKeys(ps)
    ensures GetLast(ps, k) == Get(ps, k)
  {
    if ps != [] {
      GetLastUnique(ps[1..], k);
    }
  }

  lemma {:induction false} GetLastSnoc<V>(ps: seq<Prop<V>>, p: Prop<V>, k: string)
    ensures GetLast(ps + [p], k) == if p.key == k then Some(p.value) else GetLast(ps, k)
  {
    if ps == [] {
      assert ps + [p] == [p];
    } else {
      assert (ps + [p])[1..] == ps[1..] + [p];
      KeySetAppend(ps[1..], [p]);
      GetLastSnoc(ps[1..], p, k);
    }
  }

  /**
   * The object `JSON.parse` builds from the members it reads, as a map: each key
   * gets the value of its last occurrence (ToMapIsGetLast).
   */
  function ToMap<V>(ps: seq<Prop<V>>): map<string, V> {
    if ps == [] then map[]
    else ToMap(ps[..|ps| - 1])[ps[|ps| - 1].key := ps[|ps| - 1].value]
  }

  /** Reading `k` from a parsed object. */
  function Lookup<V>(ps: seq<Prop<V>>, k: string): Option<V> {
    var m := ToMap(ps);
    if k in m then Some(m[k]) else None
  }

  lemma {:induction false} ToMapIsGetLast<V>(ps: seq<Prop<V>>, k: string)
    ensures Lookup(ps, k) == GetLast(ps, k)
  {
    if ps != [] {
      var init := ps[..|ps| - 1];
      var p := ps[|ps| - 1];
      assert ps == init + [p];
      ToMapIsGetLast(init, k);
      GetLastSnoc(init, p, k);
    }
  }

  /** A record field written after the others: reading it back gives `v`, reading anything else is unchanged. */
  function With<V>(ps: seq<Prop<V>>, k: string, v: V): (r: seq<Prop<V>>)
    ensures ToMap(r) == ToMap(ps)[k := v]
  {
    var r := ps + [Prop(k, v)];
    assert r[..|r| - 1] == ps;
    r
  }

  /** Every value passed through `f`, keys and their order kept. */
  function MapValues<V, W>(o: seq<Prop<V>>, f: V -> W): (r: seq<Prop<W>>)
    ensures |r| == |o|
    ensures KeySet(r) == KeySet(o)
    ensures UniqueKeys(o) ==> UniqueKeys(r)
  {
    if o == [] then []
    else
      var r := [Prop(o[0].key, f(o[0].value))] + MapValues(o[1..], f);
      assert r[1..] == MapValues(o[1..], f);
      r
  }

  /** Mapping the values one way and back again gives the object back. */
  lemma {:induction false} MapValuesInverse<V, W>(o: seq<Prop<V>>, f: V -> W, g: W -> V)
    requires forall v :: g(f(v)) == v
    ensures MapValues(MapValues(o, f), g) == o
  {
    if o != [] {
      var once := MapValues(o, f);
      assert once[1..] == MapValues(o[1..], f);
      MapValuesInverse(o[1..], f, g);
    }
  }
}
