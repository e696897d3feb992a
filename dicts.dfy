/**
 * Python dictionaries with string keys, as the configurator builds them: the entries in
 * insertion order, each key once. Assigning to a present key keeps its place; a new key goes
 * last; `update` and `{**a, **b}` assign the other dictionary's entries in its order.
 */
module Dicts {
  import opened Wrappers
  import opened Writes

  type Dict<V> = seq<(string, V)>

  /** The keys, in iteration order. */
  function Keys<V>(d: Dict<V>): (ks: seq<string>)
    ensures |ks| == |d| && forall i :: 0 <= i < |d| ==> ks[i] == d[i].0
  {
    if d == [] then [] else [d[0].0] + Keys(d[1..])
  }

  predicate Distinct(s: seq<string>) {
    forall i, j :: 0 <= i < j < |s| ==> s[i] != s[j]
  }

  /** `d.get(k)`: the value stored under `k`, or nothing. */
  function Lookup<V>(d: Dict<V>, k: string): (r: Option<V>)
    ensures r.None? <==> k !in Keys(d)
    ensures r.Some? ==> (k, r.value) in d
  {
    if d == [] then None else if d[0].0 == k then Some(d[0].1) else Lookup(d[1..], k)
  }

  /** `d[k] = v` */
  function Put<V>(d: Dict<V>, k: string, v: V): Dict<V> {
    if d == [] then [(k, v)]
    else if d[0].0 == k then [(k, v)] + d[1..]
    else [d[0]] + Put(d[1..], k, v)
  }

  /** `d.update(e)` for a list of pairs `e`, assigned first to last. */
  function Update<V>(d: Dict<V>, e: seq<(string, V)>): Dict<V> {
    if e == [] then d else Put(Update(d, e[..|e| - 1]), e[|e| - 1].0, e[|e| - 1].1)
  }

  /** After `d[k] = v`, `k` holds `v` and every other key what it held. */
  lemma {:induction false} PutLookup<V>(d: Dict<V>, k: string, v: V, k2: string)
    ensures Lookup(Put(d, k, v), k2) == if k2 == k then Some(v) else Lookup(d, k2)
  {
    if d != [] && d[0].0 != k {
      PutLookup(d[1..], k, v, k2);
    }
  }

  /** A present key keeps its place; a new one is appended. */
  lemma {:induction false} PutKeys<V>(d: Dict<V>, k: string, v: V)
    ensures Keys(Put(d, k, v)) == if k in Keys(d) then Keys(d) else Keys(d) + [k]
  {
    if d == [] {
    } else if d[0].0 == k {
      assert ([(k, v)] + d[1..])[1..] == d[1..];
    } else {
      PutKeys(d[1..], k, v);
      assert ([d[0]] + Put(d[1..], k, v))[1..] == Put(d[1..], k, v);
    }
  }

  /** Assignment keeps the keys distinct. */
  lemma PutDistinct<V>(d: Dict<V>, k: string, v: V)
    requires Distinct(Keys(d))
    ensures Distinct(Keys(Put(d, k, v)))
  {
    PutKeys(d, k, v);
  }

  /**
   * After `d.update(e)`, a key holds the last value `e` gives it, or what it held in `d` when
   * `e` does not mention it.
   */
  lemma {:induction false} UpdateLookup<V>(d: Dict<V>, e: seq<(string, V)>, k: string)
    ensures Lookup(Update(d, e), k) == if LastWrite(e, k).Some? then LastWrite(e, k) else Lookup(d, k)
  {
    if e != [] {
      var init := e[..|e| - 1];
      UpdateLookup(d, init, k);
      PutLookup(Update(d, init), e[|e| - 1].0, e[|e| - 1].1, k);
    }
  }

  /** The keys of `d` stay first and in order; the keys of `d.update(e)` are those of `d` and `e`. */
  lemma {:induction false} UpdateKeys<V>(d: Dict<V>, e: seq<(string, V)>)
    ensures |Keys(d)| <= |Keys(Update(d, e))| && Keys(Update(d, e))[..|Keys(d)|] == Keys(d)
    ensures forall k :: k in Keys(Update(d, e)) <==> k in Keys(d) || k in KeysOf(e)
  {
    if e == [] {
      assert KeysOf(e) == {};
    } else {
      var init := e[..|e| - 1];
      UpdateKeys(d, init);
      PutKeys(Update(d, init), e[|e| - 1].0, e[|e| - 1].1);
      KeysOfSnoc(e);
    }
  }

  lemma {:induction false} UpdateDistinct<V>(d: Dict<V>, e: seq<(string, V)>)
    requires Distinct(Keys(d))
    ensures Distinct(Keys(Update(d, e)))
  {
    if e != [] {
      UpdateDistinct(d, e[..|e| - 1]);
      PutDistinct(Update(d, e[..|e| - 1]), e[|e| - 1].0, e[|e| - 1].1);
    }
  }
}
