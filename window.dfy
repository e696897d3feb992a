/**
 * The acquisition window of an area: a `collections.deque(maxlen=k)` that receives each step's
 * total with `appendleft`, so the newest value is at the front and, once the deque is full,
 * the oldest one falls off the back.
 */
module Window {

  function MinNat(a: nat, b: nat): nat { if a <= b then a else b }

  /** Left-to-right sum, as the `for i in range(len(window))` loop accumulates it. */
  function Sum(s: seq<real>): real {
    if s == [] then 0.0 else Sum(s[..|s| - 1]) + s[|s| - 1]
  }

  /** `deque.appendleft(x)` on a deque of capacity `cap`. */
  function PushFront(w: seq<real>, x: real, cap: nat): (r: seq<real>)
    ensures |r| == MinNat(cap, |w| + 1) && |r| <= cap
    ensures cap > 0 ==> r[0] == x
    ensures forall i :: 1 <= i < |r| ==> r[i] == w[i - 1]
  {
    if cap == 0 then [] else ([x] + w)[..MinNat(cap, |w| + 1)]
  }

  /** The window after pushing `vals[0]`, ..., `vals[|vals|-1]` one after another into an empty deque. */
  function WindowAfter(vals: seq<real>, cap: nat): (w: seq<real>)
    ensures |w| <= cap
  {
    if vals == [] then [] else PushFront(WindowAfter(vals[..|vals| - 1], cap), vals[|vals| - 1], cap)
  }

  /**
   * After n pushes the window holds min(k, n) values: the most recent ones, newest first,
   * that is, entry i is the value pushed i steps ago.
   */
  lemma {:induction false} WindowAfterAt(vals: seq<real>, cap: nat)
    ensures |WindowAfter(vals, cap)| == MinNat(cap, |vals|)
    ensures forall i :: 0 <= i < |WindowAfter(vals, cap)| ==> WindowAfter(vals, cap)[i] == vals[|vals| - 1 - i]
  {
    if vals != [] {
      var init := vals[..|vals| - 1];
      WindowAfterAt(init, cap);
      var w := WindowAfter(vals, cap);
      forall i | 0 <= i < |w| ensures w[i] == vals[|vals| - 1 - i] {
        if i > 0 {
          assert w[i] == WindowAfter(init, cap)[i - 1];
          assert init[|init| - 1 - (i - 1)] == vals[|vals| - 1 - i];
        }
      }
    }
  }

  lemma {:induction false} SumFront(s: seq<real>)
    requires s != []
    ensures Sum(s) == s[0] + Sum(s[1..])
    decreases |s|
  {
    if |s| > 1 {
      SumFront(s[..|s| - 1]);
      assert s[..|s| - 1][1..] == s[1..][..|s[1..]| - 1];
    } else {
      assert s[..|s| - 1] == [];
      assert s[1..] == [];
    }
  }

  /** Summing a sequence in reverse order gives the same total. */
  lemma {:induction false} SumReversed(s: seq<real>, t: seq<real>)
    requires |s| == |t|
    requires forall i :: 0 <= i < |s| ==> s[i] == t[|t| - 1 - i]
    ensures Sum(s) == Sum(t)
    decreases |s|
  {
    if s != [] {
      SumReversed(s[..|s| - 1], t[1..]);
      SumFront(t);
    }
  }

  /**
   * The moving sum: after n pushes the window sums exactly the last min(k, n) pushed values,
   * a trailing window and never a centred or forward-looking one.
   */
  lemma {:induction false} WindowSumIsTrailing(vals: seq<real>, cap: nat)
    ensures Sum(WindowAfter(vals, cap)) == Sum(vals[|vals| - MinNat(cap, |vals|)..])
  {
    WindowAfterAt(vals, cap);
    var w := WindowAfter(vals, cap);
    var t := vals[|vals| - MinNat(cap, |vals|)..];
    forall i | 0 <= i < |w| ensures w[i] == t[|t| - 1 - i] {
      assert t[|t| - 1 - i] == vals[|vals| - 1 - i];
    }
    SumReversed(w, t);
  }

  /** The step totals 10, 20, 30, 40, 50 with a window of 3 give the sums 10, 30, 60, 90, 120. */
  lemma WindowExample()
    ensures Sum(WindowAfter([10.0], 3)) == 10.0
    ensures Sum(WindowAfter([10.0, 20.0], 3)) == 30.0
    ensures Sum(WindowAfter([10.0, 20.0, 30.0], 3)) == 60.0
    ensures Sum(WindowAfter([10.0, 20.0, 30.0, 40.0], 3)) == 90.0
    ensures Sum(WindowAfter([10.0, 20.0, 30.0, 40.0, 50.0], 3)) == 120.0
  {
    var v := [10.0, 20.0, 30.0, 40.0, 50.0];
    WindowSumIsTrailing(v[..1], 3);
    WindowSumIsTrailing(v[..2], 3);
    WindowSumIsTrailing(v[..3], 3);
    WindowSumIsTrailing(v[..4], 3);
    WindowSumIsTrailing(v, 3);
    assert v[..1][0..] == [10.0];
    assert v[..2][0..] == [10.0, 20.0];
    assert v[..3][0..] == [10.0, 20.0, 30.0];
    assert v[..4][1..] == [20.0, 30.0, 40.0];
    assert v[2..] == [30.0, 40.0, 50.0];
  }
}
