/**
 * A sequence of assignments `m[k] := v` issued one after another, as the actions issue their
 * per-lane and per-traffic-light calls to the simulation: later writes to a key win. Keys are the
 * simulation's string identifiers of lanes, edges and traffic lights.
 */
module Writes {
  import opened Wrappers

  /** The map after the writes `w[0]`, ..., `w[|w|-1]`, in that order. */
  function Apply<V>(m: map<string, V>, w: seq<(string, V)>): map<string, V> {
    if w == [] then m else Apply(m, w[..|w| - 1])[w[|w| - 1].0 := w[|w| - 1].1]
  }

  /** The keys the writes touch. */
  function KeysOf<V>(w: seq<(string, V)>): set<string> {
    set i | 0 <= i < |w| :: w[i].0
  }

  /** The last value written to `k`, if any. */
  function LastWrite<V>(w: seq<(string, V)>, k: string): (r: Option<V>)
    ensures r.Some? ==> exists i :: 0 <= i < |w| && w[i] == (k, r.value)
  {
    if w == [] then None
    else if w[|w| - 1].0 == k then Some(w[|w| - 1].1)
    else LastWrite(w[..|w| - 1], k)
  }

  lemma KeysOfSnoc<V>(w: seq<(string, V)>)
    requires w != []
    ensures KeysOf(w) == KeysOf(w[..|w| - 1]) + {w[|w| - 1].0}
  {
    var init := w[..|w| - 1];
    forall k | k in KeysOf(w) ensures k in KeysOf(init) + {w[|w| - 1].0} {
      var i :| 0 <= i < |w| && w[i].0 == k;
      if i < |w| - 1 {
        assert init[i].0 == k;
      }
    }
  }

  /** One more write at the end: the map of the prefix, updated once. */
  lemma ApplySnoc<V>(m: map<string, V>, w: seq<(string, V)>, i: nat)
    requires i < |w|
    ensures Apply(m, w[..i + 1]) == Apply(m, w[..i])[w[i].0 := w[i].1]
  {
    assert w[..i + 1][..i] == w[..i];
  }

  /**
   * A key is in the result exactly when it was in the map or was written; its value is the last
   * value written to it, or the old one when nothing was written to it.
   */
  lemma {:induction false} ApplyLookup<V>(m: map<string, V>, w: seq<(string, V)>, k: string)
    ensures LastWrite(w, k).None? <==> k !in KeysOf(w)
    ensures k in Apply(m, w) <==> k in m || k in KeysOf(w)
    ensures LastWrite(w, k).Some? ==> Apply(m, w)[k] == LastWrite(w, k).value
    ensures LastWrite(w, k).None? && k in m ==> Apply(m, w)[k] == m[k]
  {
    if w != [] {
      ApplyLookup(m, w[..|w| - 1], k);
      KeysOfSnoc(w);
    }
  }

  /** Writing `a` and then `b` is writing `a + b`. */
  lemma {:induction false} ApplyConcat<V>(m: map<string, V>, a: seq<(string, V)>, b: seq<(string, V)>)
    ensures Apply(m, a + b) == Apply(Apply(m, a), b)
  {
    if b == [] {
      assert a + b == a;
    } else {
      var init := b[..|b| - 1];
      assert (a + b)[..|a + b| - 1] == a + init;
      ApplyConcat(m, a, init);
    }
  }

  lemma OverwriteAt<V>(m: map<string, V>, w1: seq<(string, V)>, w2: seq<(string, V)>, k: string)
    requires KeysOf(w1) <= KeysOf(w2)
    ensures k in Apply(Apply(m, w1), w2) <==> k in Apply(m, w2)
    ensures k in Apply(m, w2) ==> Apply(Apply(m, w1), w2)[k] == Apply(m, w2)[k]
  {
    ApplyLookup(Apply(m, w1), w2, k);
    ApplyLookup(m, w2, k);
    ApplyLookup(m, w1, k);
  }

  /** Writes that cover every key of earlier writes erase every trace of them. */
  lemma ApplyOverwrite<V>(m: map<string, V>, w1: seq<(string, V)>, w2: seq<(string, V)>)
    requires KeysOf(w1) <= KeysOf(w2)
    ensures Apply(Apply(m, w1), w2) == Apply(m, w2)
  {
    var left, right := Apply(Apply(m, w1), w2), Apply(m, w2);
    forall k: string ensures k in left <==> k in right {
      OverwriteAt(m, w1, w2, k);
    }
    forall k: string | k in right ensures left[k] == right[k] {
      OverwriteAt(m, w1, w2, k);
    }
    assert left.Keys == right.Keys;
  }

  /** Issuing the same writes twice gives what issuing them once gives. */
  lemma ApplyIdempotent<V>(m: map<string, V>, w: seq<(string, V)>)
    ensures Apply(Apply(m, w), w) == Apply(m, w)
  {
    ApplyOverwrite(m, w, w);
  }

  lemma KeysOfConcat<V>(a: seq<(string, V)>, b: seq<(string, V)>)
    ensures KeysOf(a + b) == KeysOf(a) + KeysOf(b)
  {
    var c := a + b;
    forall k | k in KeysOf(c) ensures k in KeysOf(a) + KeysOf(b) {
      var i :| 0 <= i < |c| && c[i].0 == k;
      if i < |a| { assert a[i].0 == k; } else { assert b[i - |a|].0 == k; }
    }
    forall k | k in KeysOf(a) + KeysOf(b) ensures k in KeysOf(c) {
      if k in KeysOf(a) {
        var i :| 0 <= i < |a| && a[i].0 == k;
        assert c[i].0 == k;
      } else {
        var i :| 0 <= i < |b| && b[i].0 == k;
        assert c[|a| + i].0 == k;
      }
    }
  }

  /** The keys are pairwise distinct. */
  predicate DistinctKeys<V>(w: seq<(string, V)>) {
    forall a, b :: 0 <= a < b < |w| ==> w[a].0 != w[b].0
  }

  /** With distinct keys, the last write to a key is its only write. */
  lemma {:induction false} LastWriteOfDistinct<V>(w: seq<(string, V)>, i: nat)
    requires i < |w| && DistinctKeys(w)
    ensures LastWrite(w, w[i].0) == Some(w[i].1)
  {
    if i < |w| - 1 {
      var init := w[..|w| - 1];
      assert init[i] == w[i];
      LastWriteOfDistinct(init, i);
    }
  }

  /** When every write to `k` writes `v`, the last one does too. */
  lemma LastWriteConstant<V>(w: seq<(string, V)>, k: string, v: V)
    requires k in KeysOf(w)
    requires forall i :: 0 <= i < |w| && w[i].0 == k ==> w[i].1 == v
    ensures LastWrite(w, k) == Some(v)
  {
    ApplyLookup(map[], w, k);
  }
}
