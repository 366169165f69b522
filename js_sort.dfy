/** `Array.prototype.sort()` without a comparison function, applied to a list
    of distinct strings: the strings in ascending order of their characters,
    compared one by one, a proper prefix first. */
module JsSort {

  /** `a` sorts before `b`. */
  predicate Below(a: string, b: string)
    decreases |a|
  {
    && b != []
    && (|| a == []
        || a[0] < b[0]
        || (a[0] == b[0] && Below(a[1..], b[1..])))
  }

  lemma {:induction false} BelowIrreflexive(a: string)
    ensures !Below(a, a)
    decreases |a|
  {
    if a != [] {
      BelowIrreflexive(a[1..]);
    }
  }

  lemma {:induction false} BelowTransitive(a: string, b: string, c: string)
    requires Below(a, b) && Below(b, c)
    ensures Below(a, c)
    decreases |a|
  {
    if a != [] && a[0] == b[0] && b[0] == c[0] {
      BelowTransitive(a[1..], b[1..], c[1..]);
    }
  }

  lemma {:induction false} BelowTotal(a: string, b: string)
    requires a != b
    ensures Below(a, b) || Below(b, a)
    decreases |a|
  {
    if a != [] && b != [] && a[0] == b[0] {
      assert a == [a[0]] + a[1..] && b == [b[0]] + b[1..];
      BelowTotal(a[1..], b[1..]);
    }
  }

  lemma BelowAsymmetric(a: string, b: string)
    requires Below(a, b)
    ensures !Below(b, a)
  {
    if Below(b, a) {
      BelowTransitive(a, b, a);
      BelowIrreflexive(a);
    }
  }

  predicate StrictlySorted(s: seq<string>) {
    forall i, j :: 0 <= i < j < |s| ==> Below(s[i], s[j])
  }

  /** Inserts `x` at its place in `sorted`. */
  method Insert(sorted: seq<string>, x: string) returns (r: seq<string>)
    requires StrictlySorted(sorted) && x !in sorted
    ensures StrictlySorted(r)
    ensures |r| == |sorted| + 1
    ensures forall k :: k in r <==> k in sorted || k == x
  {
    var i := 0;
    while i < |sorted| && Below(sorted[i], x)
      invariant 0 <= i <= |sorted|
      invariant forall j :: 0 <= j < i ==> Below(sorted[j], x)
    {
      i := i + 1;
    }
    forall j | i <= j < |sorted|
      ensures Below(x, sorted[j])
    {
      assert sorted[i] != x;
      BelowTotal(sorted[i], x);
      if j > i {
        BelowTransitive(x, sorted[i], sorted[j]);
      }
    }
    r := sorted[..i] + [x] + sorted[i..];
    forall p, q | 0 <= p < q < |r|
      ensures Below(r[p], r[q])
    {
      if p < i && i < q {
        BelowTransitive(r[p], x, r[q]);
      }
    }
    assert forall k :: k in r <==> k in sorted[..i] || k == x || k in sorted[i..];
    assert sorted == sorted[..i] + sorted[i..];
  }

  /** `Object.keys(...).sort()` for the key set `keys`. */
  method SortKeys(keys: set<string>) returns (sorted: seq<string>)
    ensures StrictlySorted(sorted)
    ensures |sorted| == |keys|
    ensures forall k :: k in sorted <==> k in keys
  {
    sorted := [];
    var rest := keys;
    while rest != {}
      invariant rest <= keys
      invariant StrictlySorted(sorted)
      invariant |sorted| + |rest| == |keys|
      invariant forall k :: k in sorted <==> k in keys && k !in rest
      decreases |rest|
    {
      var x :| x in rest;
      sorted := Insert(sorted, x);
      rest := rest - {x};
    }
  }

  lemma SameElementsBothEmpty(xs: seq<string>, ys: seq<string>)
    requires forall k :: k in xs <==> k in ys
    ensures xs == [] <==> ys == []
  {
    if xs != [] {
      assert xs[0] in ys;
    }
    if ys != [] {
      assert ys[0] in xs;
    }
  }

  /** A set of strings has exactly one strictly ascending listing, so the
      order in which the keys are handed to the sort does not matter. */
  lemma {:induction false} SortedIsUnique(xs: seq<string>, ys: seq<string>)
    requires StrictlySorted(xs) && StrictlySorted(ys)
    requires forall k :: k in xs <==> k in ys
    ensures xs == ys
    decreases |xs|
  {
    SameElementsBothEmpty(xs, ys);
    if xs != [] {
      assert xs == [xs[0]] + xs[1..] && ys == [ys[0]] + ys[1..];
      if xs[0] != ys[0] {
        assert ys[0] in xs && xs[0] in ys;
        var i :| 0 <= i < |xs| && xs[i] == ys[0];
        var j :| 0 <= j < |ys| && ys[j] == xs[0];
        BelowAsymmetric(xs[0], ys[0]);
        assert false;
      }
      forall k
        ensures k in xs[1..] <==> k in ys[1..]
      {
        if k in xs[1..] {
          var i :| 1 <= i < |xs| && xs[i] == k;
          BelowIrreflexive(k);
          assert k != ys[0] && k in ys;
          assert k in ys[1..];
        }
        if k in ys[1..] {
          var j :| 1 <= j < |ys| && ys[j] == k;
          BelowIrreflexive(k);
          assert k != xs[0] && k in xs;
          assert k in xs[1..];
        }
      }
      SortedIsUnique(xs[1..], ys[1..]);
    }
  }
}
