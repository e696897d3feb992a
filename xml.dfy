/**
 * The part of `xml.etree.ElementTree` the configurator uses on a parsed template: elements
 * found by their path from the root (`root.find('input/net-file')`), the `value` attribute
 * of each (`set('value', ...)`, `get('value')`), and removing an element with everything
 * beneath it.
 */
module Xml {
  import opened Wrappers
  import opened Texts
  import opened Writes

  /** `p` is `path` or lies beneath it. */
  predicate Under(p: string, path: string) {
    p == path || StartsWith(p, path + "/")
  }

  /** The attribute values outside the subtree at `path`. */
  function Without(values: map<string, string>, path: string): (r: map<string, string>)
    ensures forall p :: p in r <==> p in values && !Under(p, path)
  {
    map p | p in values && !Under(p, path) :: values[p]
  }

  /** Writes to paths outside a subtree commute with removing that subtree. */
  lemma WithoutApply(values: map<string, string>, w: seq<(string, string)>, path: string)
    requires forall i :: 0 <= i < |w| ==> !Under(w[i].0, path)
    ensures Without(Apply(values, w), path) == Apply(Without(values, path), w)
    decreases |w|
  {
    if w != [] {
      WithoutApply(values, w[..|w| - 1], path);
    }
  }

  /** A parsed configuration template. */
  class Tree {
    /** The paths of the elements `find` reaches. */
    var elements: set<string>
    /** The `value` attribute of the elements that carry one. */
    var values: map<string, string>

    constructor (elements: set<string>, values: map<string, string>)
      ensures this.elements == elements && this.values == values
    {
      this.elements := elements;
      this.values := values;
    }

    /** `root.find(path).get('value')`, for a present element. */
    function Get(path: string): (r: Option<string>)
      reads this
      ensures r.Some? <==> path in values
    {
      if path in values then Some(values[path]) else None
    }

    /**
     * `root.find(path).set('value', v)`. When no element has that path, `find` gives `None`
     * and the call fails (an `AttributeError`), changing nothing.
     */
    method Set(path: string, v: string) returns (ok: bool)
      modifies this`values
      ensures ok <==> path in elements
      ensures values == if ok then old(values)[path := v] else old(values)
    {
      ok := path in elements;
      if ok {
        values := values[path := v];
      }
    }

    /**
     * `root.find(parent).remove(root.find(path))`: the element and its subtree leave the tree.
     * A missing element makes the call fail, changing nothing.
     */
    method Remove(path: string) returns (ok: bool)
      modifies this
      ensures ok <==> path in old(elements)
      ensures ok ==> elements == set p | p in old(elements) && !Under(p, path)
      ensures ok ==> values == Without(old(values), path)
      ensures !ok ==> elements == old(elements) && values == old(values)
    {
      ok := path in elements;
      if ok {
        elements := set p | p in elements && !Under(p, path);
        values := Without(values, path);
      }
    }

    /**
     * The writes `w`, one `find(...).set('value', ...)` after another. The sequence stops at
     * the first missing element, so success means every path was present.
     */
    method SetAll(w: seq<(string, string)>) returns (ok: bool)
      modifies this`values
      ensures ok <==> KeysOf(w) <= elements
      ensures ok ==> values == Apply(old(values), w)
    {
      var i := 0;
      while i < |w|
        invariant 0 <= i <= |w|
        invariant KeysOf(w[..i]) <= elements
        invariant values == Apply(old(values), w[..i])
      {
        KeysOfSnoc(w[..i + 1]);
        assert w[..i + 1][..i] == w[..i];
        ok := Set(w[i].0, w[i].1);
        if !ok {
          assert w[i].0 in KeysOf(w);
          return;
        }
        i := i + 1;
      }
      assert w[..i] == w;
      ok := true;
    }
  }
}
