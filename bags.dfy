/** Ordered string-keyed records: the model of a JavaScript object's own
    enumerable properties, in the order `Object.entries` reports them.
    Property assignment keeps an existing key where it is and appends a new
    one; object spread `{...b, ...es}` assigns the entries of `es` into a
    copy of `b`, one after another. */
module Bags {

  datatype Option<+T> = None | Some(value: T)

  type Bag<V> = seq<(string, V)>

  /** The keys of a record, in order. */
  function Keys<V>(b: Bag<V>): (ks: seq<string>)
    ensures |ks| == |b|
    ensures forall i :: 0 <= i < |b| ==> ks[i] == b[i].0
  {
    seq(|b|, i requires 0 <= i < |b| => b[i].0)
  }

  /** What a JavaScript object always satisfies: no key occurs twice. */
  ghost predicate UniqueKeys<V>(b: Bag<V>) {
    forall i, j :: 0 <= i < j < |b| ==> b[i].0 != b[j].0
  }

  lemma KeysCons<V>(b: Bag<V>)
    requires b != []
    ensures Keys(b) == [b[0].0] + Keys(b[1..])
  {
  }

  /** Property read: the value stored under `k`, if the record has that key. */
  function Lookup<V>(b: Bag<V>, k: string): (r: Option<V>)
    ensures r.None? <==> k !in Keys(b)
    ensures r.Some? ==> (k, r.value) in b
  {
    if b == [] then None
    else
      KeysCons(b);
      if b[0].0 == k then Some(b[0].1) else Lookup(b[1..], k)
  }

  /** `a` if it holds a value, otherwise `b`: the right-biased choice of a merge. */
  function Override<V>(a: Option<V>, b: Option<V>): Option<V> {
    if a.Some? then a else b
  }

  /** Property assignment `b[k] = v`. */
  function Put<V>(b: Bag<V>, k: string, v: V): (r: Bag<V>)
    ensures |r| == if k in Keys(b) then |b| else |b| + 1
  {
    if b == [] then [(k, v)]
    else if b[0].0 == k then [(k, v)] + b[1..]
    else [b[0]] + Put(b[1..], k, v)
  }

  /** An assigned key keeps its place; a new one goes to the end. */
  lemma {:induction false} PutKeys<V>(b: Bag<V>, k: string, v: V)
    ensures Keys(Put(b, k, v)) == if k in Keys(b) then Keys(b) else Keys(b) + [k]
  {
    if b != [] {
      KeysCons(b);
      if b[0].0 != k {
        PutKeys(b[1..], k, v);
        var rest := Put(b[1..], k, v);
        KeysCons([b[0]] + rest);
        assert ([b[0]] + rest)[1..] == rest;
      }
    }
  }

  /** After `b[k] = v`, reading `k` gives `v` and every other key reads as before. */
  lemma {:induction false} PutLookup<V>(b: Bag<V>, k: string, v: V, k': string)
    ensures Lookup(Put(b, k, v), k') == if k' == k then Some(v) else Lookup(b, k')
  {
    if b != [] && b[0].0 != k {
      PutLookup(b[1..], k, v, k');
      var rest := Put(b[1..], k, v);
      assert ([b[0]] + rest)[1..] == rest;
    }
  }

  lemma {:induction false} PutUnique<V>(b: Bag<V>, k: string, v: V)
    requires UniqueKeys(b)
    ensures UniqueKeys(Put(b, k, v))
  {
    PutKeys(b, k, v);
    var r := Put(b, k, v);
    forall i, j | 0 <= i < j < |r| ensures r[i].0 != r[j].0 {
      assert Keys(r)[i] == r[i].0 && Keys(r)[j] == r[j].0;
      if j < |b| {
        assert Keys(b)[i] == b[i].0 && Keys(b)[j] == b[j].0;
      }
    }
  }

  /** Object spread `{...b, ...es}`: the keys of `b` stay first, in their order. */
  function Spread<V>(b: Bag<V>, es: Bag<V>): (r: Bag<V>)
    ensures |r| >= |b| && Keys(r)[..|b|] == Keys(b)
    decreases |es|
  {
    if es == [] then b
    else
      var b' := Put(b, es[0].0, es[0].1);
      PutKeys(b, es[0].0, es[0].1);
      var r := Spread(b', es[1..]);
      assert Keys(r)[..|b|] == Keys(r)[..|b'|][..|b|];
      r
  }

  /** The value given to `k` by the LAST entry of `es` that has key `k`. */
  function LastLookup<V>(es: Bag<V>, k: string): Option<V> {
    if es == [] then None
    else Override(LastLookup(es[1..], k), if es[0].0 == k then Some(es[0].1) else None)
  }

  /** The keys of `ks` that are not in `seen`, each once, in order of first appearance. */
  function Fresh(seen: seq<string>, ks: seq<string>): seq<string>
    decreases |ks|
  {
    if ks == [] then []
    else if ks[0] in seen then Fresh(seen, ks[1..])
    else [ks[0]] + Fresh(seen + [ks[0]], ks[1..])
  }

  /** Spread is right-biased: a key takes the last value `es` gives it, and
      keeps its value in `b` when `es` does not mention it. */
  lemma {:induction false} SpreadLookup<V>(b: Bag<V>, es: Bag<V>, k: string)
    ensures Lookup(Spread(b, es), k) == Override(LastLookup(es, k), Lookup(b, k))
    decreases |es|
  {
    if es != [] {
      SpreadLookup(Put(b, es[0].0, es[0].1), es[1..], k);
      PutLookup(b, es[0].0, es[0].1, k);
    }
  }

  /** Spread keeps every key of `b` in its place and appends the keys that
      only `es` has, in the order in which `es` first gives them. */
  lemma {:induction false} SpreadKeys<V>(b: Bag<V>, es: Bag<V>)
    ensures Keys(Spread(b, es)) == Keys(b) + Fresh(Keys(b), Keys(es))
    decreases |es|
  {
    if es != [] {
      var b' := Put(b, es[0].0, es[0].1);
      SpreadKeys(b', es[1..]);
      PutKeys(b, es[0].0, es[0].1);
      KeysCons(es);
      if es[0].0 !in Keys(b) {
        assert Keys(b') + Fresh(Keys(b'), Keys(es[1..]))
            == Keys(b) + ([es[0].0] + Fresh(Keys(b) + [es[0].0], Keys(es[1..])));
      }
    }
  }

  /** Spreading into a JavaScript object yields a JavaScript object. */
  lemma {:induction false} SpreadUnique<V>(b: Bag<V>, es: Bag<V>)
    requires UniqueKeys(b)
    ensures UniqueKeys(Spread(b, es))
    decreases |es|
  {
    if es != [] {
      PutUnique(b, es[0].0, es[0].1);
      SpreadUnique(Put(b, es[0].0, es[0].1), es[1..]);
    }
  }

  /** In a record without repeated keys the last entry for a key is its only one. */
  lemma {:induction false} UniqueLastLookup<V>(b: Bag<V>, k: string)
    requires UniqueKeys(b)
    ensures LastLookup(b, k) == Lookup(b, k)
  {
    if b != [] {
      assert UniqueKeys(b[1..]) by {
        forall i, j | 0 <= i < j < |b[1..]| ensures b[1..][i].0 != b[1..][j].0 {
          assert b[1..][i] == b[i + 1] && b[1..][j] == b[j + 1];
        }
      }
      UniqueLastLookup(b[1..], k);
      if b[0].0 == k {
        assert k !in Keys(b[1..]) by {
          forall i | 0 <= i < |b[1..]| ensures Keys(b[1..])[i] != k {
            assert b[1..][i] == b[i + 1];
          }
        }
      }
    }
  }
}
