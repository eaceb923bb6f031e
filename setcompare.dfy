/** The comparison the tests use to decide whether two predicate trees are
    the same up to the order in which Go visited the maps. */
module SetCompare {
  import opened Types

  function PredSize(p: Pred): (n: nat)
    ensures n >= 1
  {
    match p
    case Leaf(_, _, _) => 1
    case And(cs) => 1 + ListSize(cs)
    case Or(cs) => 1 + ListSize(cs)
  }

  function ListSize(cs: seq<Pred>): (n: nat)
    ensures forall i :: 0 <= i < |cs| ==> PredSize(cs[i]) <= n
  {
    if cs == [] then 0
    else
      var n := PredSize(cs[0]) + ListSize(cs[1..]);
      assert forall i :: 1 <= i < |cs| ==> cs[i] == cs[1..][i - 1];
      n
  }

  /** `sqCompare`: an `And` only matches an `And`, an `Or` only an `Or`, and
      a comparison matches an equal comparison. */
  function SqCompare(a: Pred, b: Pred): (r: bool)
    ensures r ==> (a.And? <==> b.And?) && (a.Or? <==> b.Or?)
    ensures a.Leaf? || b.Leaf? ==> (r <==> a == b)
    decreases PredSize(a) + PredSize(b), 1
  {
    match a
    case And(ta) => SqCompareAnd2Other(ta, b)
    case Or(ta) => SqCompareOr2Other(ta, b)
    case Leaf(_, _, _) => a == b
  }

  function SqCompareAnd2Other(ta: seq<Pred>, b: Pred): (r: bool)
    ensures r ==> b.And? && |b.children| == |ta|
    decreases 1 + ListSize(ta) + PredSize(b), 0
  {
    match b
    case And(tb) => AndCompare(ta, tb)
    case _ => false
  }

  function SqCompareOr2Other(ta: seq<Pred>, b: Pred): (r: bool)
    ensures r ==> b.Or? && |b.children| == |ta|
    decreases 1 + ListSize(ta) + PredSize(b), 0
  {
    match b
    case Or(tb) => OrCompare(ta, tb)
    case _ => false
  }

  function AndCompare(a: seq<Pred>, b: seq<Pred>): (r: bool)
    ensures r ==> |a| == |b|
    decreases ListSize(a) + ListSize(b), 4
  {
    SetCompare(a, b)
  }

  function OrCompare(a: seq<Pred>, b: seq<Pred>): (r: bool)
    ensures r ==> |a| == |b|
    decreases ListSize(a) + ListSize(b), 4
  {
    SetCompare(a, b)
  }

  /** `contains`: some item of the list matches `v` (the item on the left). */
  function Contains(lst: seq<Pred>, v: Pred): (r: bool)
    ensures r ==> lst != []
    ensures v.Leaf? ==> (r <==> v in lst)
    decreases ListSize(lst) + PredSize(v), 2
  {
    exists k :: 0 <= k < |lst| && SqCompare(lst[k], v)
  }

  /** `setCompare`: equal lengths, and each side's every element is matched
      somewhere on the other side. */
  function SetCompare(a: seq<Pred>, b: seq<Pred>): (r: bool)
    ensures r ==> |a| == |b|
    ensures r ==> forall i :: 0 <= i < |a| && a[i].Leaf? ==> a[i] in b
    ensures r ==> forall j :: 0 <= j < |b| && b[j].Leaf? ==> b[j] in a
    decreases ListSize(a) + ListSize(b), 3
  {
    && |a| == |b|
    && (forall i :: 0 <= i < |a| ==> Contains(b, a[i]))
    && (forall j :: 0 <= j < |b| ==> Contains(a, b[j]))
  }

  /** The loop of `contains`: stops at the first item that matches. */
  method ScanContains(lst: seq<Pred>, v: Pred) returns (r: bool)
    ensures r == Contains(lst, v)
  {
    for k := 0 to |lst|
      invariant forall m :: 0 <= m < k ==> !SqCompare(lst[m], v)
    {
      if SqCompare(lst[k], v) {
        return true;
      }
    }
    return false;
  }

  /** One loop of `setCompare`: every element of `xs` looked up in `ys`. */
  method ScanAll(xs: seq<Pred>, ys: seq<Pred>) returns (r: bool)
    ensures r <==> forall i :: 0 <= i < |xs| ==> Contains(ys, xs[i])
  {
    for i := 0 to |xs|
      invariant forall m :: 0 <= m < i ==> Contains(ys, xs[m])
    {
      var found := ScanContains(ys, xs[i]);
      if !found {
        return false;
      }
    }
    return true;
  }

  /** `setCompare`: the length check, then `a` looked up in `b`, then `b`
      in `a`. */
  method ScanSetCompare(a: seq<Pred>, b: seq<Pred>) returns (r: bool)
    ensures r == SetCompare(a, b)
  {
    if |a| != |b| {
      return false;
    }
    var ab := ScanAll(a, b);
    if !ab {
      return false;
    }
    r := ScanAll(b, a);
  }

  /** The lengths must agree. */
  lemma LengthsDiffer(a: seq<Pred>, b: seq<Pred>)
    requires |a| != |b|
    ensures !SetCompare(a, b)
  {
  }

  /** The two sides play the same role. */
  lemma SetCompareSymmetric(a: seq<Pred>, b: seq<Pred>)
    ensures SetCompare(a, b) == SetCompare(b, a)
  {
  }

  lemma SqCompareSymmetric(a: Pred, b: Pred)
    ensures SqCompare(a, b) == SqCompare(b, a)
  {
    match a {
      case And(ta) =>
        if b.And? {
          assert SqCompare(a, b) == AndCompare(ta, b.children);
          assert SqCompare(b, a) == AndCompare(b.children, ta);
          SetCompareSymmetric(ta, b.children);
        }
      case Or(ta) =>
        if b.Or? {
          assert SqCompare(a, b) == OrCompare(ta, b.children);
          assert SqCompare(b, a) == OrCompare(b.children, ta);
          SetCompareSymmetric(ta, b.children);
        }
      case Leaf(_, _, _) =>
    }
  }

  /** A conjunction never matches anything but a conjunction, nor a
      disjunction anything but a disjunction. */
  lemma NodeKindsMatch(a: Pred, b: Pred)
    requires SqCompare(a, b)
    ensures a.And? <==> b.And?
    ensures a.Or? <==> b.Or?
    ensures a.Leaf? ==> a == b
  {
  }

  /** Every tree matches itself, at every depth. */
  lemma {:induction false} SqCompareRefl(p: Pred)
    ensures SqCompare(p, p)
    decreases PredSize(p), 1
  {
    match p {
      case Leaf(_, _, _) =>
      case And(cs) =>
        SetCompareRefl(cs);
      case Or(cs) =>
        SetCompareRefl(cs);
    }
  }

  lemma {:induction false} SetCompareRefl(cs: seq<Pred>)
    ensures SetCompare(cs, cs)
    decreases ListSize(cs) + 1, 0
  {
    forall i | 0 <= i < |cs|
      ensures Contains(cs, cs[i])
    {
      SqCompareRefl(cs[i]);
    }
  }

  /** Whether a list contains a match depends only on which elements it has. */
  lemma ContainsSameElements(a: seq<Pred>, b: seq<Pred>, v: Pred)
    requires forall x :: x in a <==> x in b
    ensures Contains(a, v) == Contains(b, v)
  {
    if Contains(a, v) {
      var k :| 0 <= k < |a| && SqCompare(a[k], v);
      assert a[k] in b;
      var m :| 0 <= m < |b| && b[m] == a[k];
    }
    if Contains(b, v) {
      var k :| 0 <= k < |b| && SqCompare(b[k], v);
      assert b[k] in a;
      var m :| 0 <= m < |a| && a[m] == b[k];
    }
  }

  /** Two reorderings of one list have the same length and the same elements. */
  lemma SameElements(a: seq<Pred>, a2: seq<Pred>)
    requires multiset(a) == multiset(a2)
    ensures |a| == |a2|
    ensures forall x :: x in a <==> x in a2
  {
    assert |a| == |multiset(a)| == |multiset(a2)| == |a2|;
    forall x
      ensures x in a <==> x in a2
    {
      assert x in a <==> x in multiset(a);
      assert x in a2 <==> x in multiset(a2);
    }
  }

  lemma AllContained(a: seq<Pred>, a2: seq<Pred>, b: seq<Pred>)
    requires forall x :: x in a <==> x in a2
    requires forall i :: 0 <= i < |a| ==> Contains(b, a[i])
    ensures forall i :: 0 <= i < |a2| ==> Contains(b, a2[i])
  {
    forall i | 0 <= i < |a2|
      ensures Contains(b, a2[i])
    {
      assert a2[i] in a;
      var k :| 0 <= k < |a| && a[k] == a2[i];
    }
  }

  /** Reordering either list never changes the verdict. */
  lemma PermutationInvariant(a: seq<Pred>, a2: seq<Pred>, b: seq<Pred>)
    requires multiset(a) == multiset(a2)
    ensures SetCompare(a, b) == SetCompare(a2, b)
  {
    SameElements(a, a2);
    forall j | 0 <= j < |b|
      ensures Contains(a, b[j]) == Contains(a2, b[j])
    {
      ContainsSameElements(a, a2, b[j]);
    }
    if SetCompare(a, b) {
      AllContained(a, a2, b);
    }
    if SetCompare(a2, b) {
      AllContained(a2, a, b);
    }
  }

  /** So a list matches any reordering of itself. */
  lemma PermutationMatches(a: seq<Pred>, b: seq<Pred>)
    requires multiset(a) == multiset(b)
    ensures SetCompare(a, b)
  {
    SetCompareRefl(b);
    PermutationInvariant(a, b, b);
  }

  /** It is not multiset equality: repetitions are not counted. */
  lemma DuplicatesNotCounted(x: Pred, y: Pred)
    requires x.Leaf? && y.Leaf? && x != y
    ensures SetCompare([x, x, y], [x, y, y])
    ensures multiset([x, x, y]) != multiset([x, y, y])
  {
    var a := [x, x, y];
    var b := [x, y, y];
    assert Contains(b, x) by { assert SqCompare(b[0], x); }
    assert Contains(b, y) by { assert SqCompare(b[1], y); }
    assert Contains(a, x) by { assert SqCompare(a[0], x); }
    assert Contains(a, y) by { assert SqCompare(a[2], y); }
    assert multiset(a)[x] == 2;
    assert multiset(b)[x] == 1;
  }
}
