/** Sizzle's `:nth-child` family (filter.CHILD of debian/jquery-1.9.1.js): the seek that starts from a
    cached sibling, its uncached forms, and the arithmetic test. */
module NthChild {
  import opened Common
  import opened Dom

  // ----- Positions -----

  /** How many of the first `k` siblings count. */
  ghost function Count(marks: seq<bool>, k: nat): nat
    requires k <= |marks|
  {
    if k == 0 then 0 else Count(marks, k - 1) + if marks[k - 1] then 1 else 0
  }

  /** How many of the siblings from `k` on count. */
  ghost function CountFrom(marks: seq<bool>, k: nat): nat
    requires k <= |marks|
    decreases |marks| - k
  {
    if k == |marks| then 0 else (if marks[k] then 1 else 0) + CountFrom(marks, k + 1)
  }

  /** The 1-based position of sibling `k` among those that count, from either end. */
  ghost function Position(marks: seq<bool>, k: nat, forward: bool): nat
    requires k < |marks|
  {
    if forward then Count(marks, k + 1) else CountFrom(marks, k)
  }

  /** Which children of `p` are elements. */
  function ElementMarks(t: Tree, p: Node): (marks: seq<bool>)
    ensures |marks| == ChildCount(t, p)
  {
    seq(ChildCount(t, p), k requires 0 <= k < ChildCount(t, p) => IsElement(t, p + [k]))
  }

  /** Which children of `p` have the given name. */
  function NameMarks(t: Tree, p: Node, names: Node -> string, name: string): (marks: seq<bool>)
    ensures |marks| == ChildCount(t, p)
  {
    seq(ChildCount(t, p), k requires 0 <= k < ChildCount(t, p) => names(p + [k]) == name)
  }

  // ----- The test on the position -----

  /** The remainder of JavaScript, which has the sign of the dividend. */
  function JsRemainder(d: int, a: int): int
    requires a != 0
  {
    var m := if a < 0 then -a else a;
    if d >= 0 then d % m else -((-d) % m)
  }

  /** `diff === first || ( diff % first === 0 && diff / first >= 0 )`; a zero divisor gives NaN. */
  predicate CycleTest(diff: int, first: int) {
    diff == first ||
    (first != 0 && JsRemainder(diff, first) == 0 && (diff == 0 || (diff > 0) == (first > 0)))
  }

  lemma {:induction false} RemainderStep(d: nat, m: nat)
    requires 0 < m <= d
    ensures d % m == (d - m) % m
  {
    var q := (d - m) / m;
    assert d - m == m * q + (d - m) % m;
    assert m * (q + 1) == m * q + m;
    DivisionUnique(m, q + 1, (d - m) % m, d / m, d % m);
  }

  lemma {:induction false} DivisionUnique(m: nat, q: nat, r: nat, q': nat, r': nat)
    requires r < m && r' < m && m * q + r == m * q' + r'
    ensures r == r'
  {
    if q < q' {
      NextMultiple(m, q, q');
    } else if q' < q {
      NextMultiple(m, q', q);
    }
  }

  lemma {:induction false} NextMultiple(m: nat, q: nat, q': nat)
    requires q < q'
    ensures m * q + m <= m * q'
    decreases q'
  {
    assert m * q' == m * (q' - 1) + m;
    if q < q' - 1 {
      NextMultiple(m, q, q' - 1);
    }
  }

  ghost function Times(a: int, n: nat): int {
    if n == 0 then 0 else Times(a, n - 1) + a
  }

  lemma {:induction false} TimesIsProduct(a: int, n: nat)
    ensures Times(a, n) == a * n
  {
    if n > 0 {
      TimesIsProduct(a, n - 1);
      assert a * n == a * (n - 1) + a;
    }
  }

  lemma {:induction false} TimesGrows(m: nat, n: nat)
    ensures Times(m, n) >= 0 && (n > 0 ==> Times(m, n) >= m)
    ensures Times(-(m as int), n) == -Times(m, n)
  {
    if n > 0 {
      TimesGrows(m, n - 1);
    }
  }

  lemma {:induction false} Quotient(d: nat, m: nat) returns (n: nat)
    requires m > 0 && d % m == 0
    ensures Times(m, n) == d
    decreases d
  {
    if d < m {
      assert d % m == d;
      n := 0;
    } else {
      RemainderStep(d, m);
      var k := Quotient(d - m, m);
      n := k + 1;
    }
  }

  lemma {:induction false} MultipleRemainder(m: nat, n: nat)
    requires m > 0
    ensures Times(m, n) >= 0 && Times(m, n) % m == 0
  {
    TimesGrows(m, n);
    if n > 0 {
      MultipleRemainder(m, n - 1);
      RemainderStep(Times(m, n), m);
    }
  }

  ghost function CycleTerm(a: int, b: int, n: nat): int {
    a * n + b
  }

  ghost predicate OnCycle(position: int, a: int, b: int) {
    exists n: nat :: CycleTerm(a, b, n) == position
  }

  lemma {:induction false} CycleByTimes(position: int, a: int, b: int)
    ensures OnCycle(position, a, b) <==> exists n: nat :: Times(a, n) == position - b
  {
    hide Times;
    if n: nat :| CycleTerm(a, b, n) == position {
      TimesIsProduct(a, n);
    }
    if n: nat :| Times(a, n) == position - b {
      TimesIsProduct(a, n);
      assert CycleTerm(a, b, n) == position;
    }
  }

  /** The test holds exactly for the positions a*n + b with n >= 0. */
  lemma {:induction false} CycleTestMeans(position: int, a: int, b: int)
    ensures CycleTest(position - b, a) <==> OnCycle(position, a, b)
  {
    CycleByTimes(position, a, b);
    hide OnCycle;
    var d, m := position - b, if a < 0 then -a else a;
    if CycleTest(d, a) {
      var size := if d < 0 then -d else d;
      var n: nat := 1;
      if a == 0 || d == 0 {
        n := 0;
      } else if d != a {
        n := Quotient(size, m);
        TimesGrows(m, n);
      } else {
        assert Times(a, 1) == Times(a, 0) + a;
      }
      assert Times(a, n) == d;
    }
    if n: nat :| Times(a, n) == d {
      if a == 0 {
        TimesIsProduct(0, n);
      } else {
        MultipleRemainder(m, n);
        TimesGrows(m, n);
      }
    }
  }

  // ----- The seeks -----

  /** What `:nth-child` stores on a parent. */
  datatype ParentCache = ParentCache(dirruns: nat, nodeIndex: nat, diff: nat)

  /** What `:nth-last-child` stores on an element. */
  datatype ElementCache = ElementCache(dirruns: nat, diff: nat)

  /** The cached child exists and `diff` elements stand up to it. */
  ghost predicate ParentCacheOk(t: Tree, p: Node, c: ParentCache) {
    c.nodeIndex < ChildCount(t, p) && c.diff == Count(ElementMarks(t, p), c.nodeIndex + 1)
  }

  /** `diff` elements stand from the element on. */
  ghost predicate ElementCacheOk(t: Tree, e: Node, c: ElementCache) {
    && e != [] && e[|e| - 1] < ChildCount(t, e[..|e| - 1])
    && c.diff == CountFrom(ElementMarks(t, e[..|e| - 1]), e[|e| - 1])
  }

  class ChildFilter {
    var dirruns: nat
    var nth: map<Node, ParentCache>
    var nthLast: map<Node, ElementCache>

    /** No entry is from a later run. */
    ghost predicate Stamped()
      reads this
    {
      && (forall p :: p in nth ==> nth[p].dirruns <= dirruns)
      && (forall e :: e in nthLast ==> nthLast[e].dirruns <= dirruns)
    }

    /** Every entry of the current run tells the truth about the tree. */
    ghost predicate Valid(t: Tree)
      reads this
    {
      && Stamped()
      && (forall p :: p in nth && nth[p].dirruns == dirruns ==> ParentCacheOk(t, p, nth[p]))
      && (forall e :: e in nthLast && nthLast[e].dirruns == dirruns ==> ElementCacheOk(t, e, nthLast[e]))
    }

    constructor ()
      ensures forall t :: Valid(t)
    {
      dirruns, nth, nthLast := 0, map[], map[];
    }

    /** `dirruns += 1` at the start of an outermost match: whatever was cached, and on whatever tree, is harmless. */
    method NextRun()
      requires Stamped()
      modifies this`dirruns
      ensures dirruns == old(dirruns) + 1 && forall t :: Valid(t)
    {
      dirruns := dirruns + 1;
    }

    /** `:nth-child`: seeks from the index cached on the parent and caches the index found. */
    method SeekCached(t: Tree, p: Node, k: nat) returns (diff: nat)
      requires Valid(t)
      requires k < ChildCount(t, p) && ElementMarks(t, p)[k]
      modifies this`nth
      ensures Valid(t)
      ensures diff == Position(ElementMarks(t, p), k, true)
    {
      hide Count, CountFrom, ElementMarks, ChildCount, ElementCacheOk;
      if p in nth && nth[p].dirruns == dirruns {
        diff := SeekForward(ElementMarks(t, p), k, nth[p].nodeIndex, nth[p].diff);
      } else {
        diff := SeekForward(ElementMarks(t, p), k, 0, 0);
      }
      nth := nth[p := ParentCache(dirruns, k, diff)];
    }

    /** `:nth-last-child`: uses the index cached on the element, or seeks from the last child and caches
        the index of every element on the way. */
    method SeekLastCached(t: Tree, p: Node, k: nat) returns (diff: nat)
      requires Valid(t)
      requires k < ChildCount(t, p) && ElementMarks(t, p)[k]
      modifies this`nthLast
      ensures Valid(t)
      ensures diff == Position(ElementMarks(t, p), k, false)
    {
      hide ElementMarks, ChildCount, ElementCacheOk, ParentCacheOk;
      var elem := p + [k];
      ElementCacheMeans(t, p, k);
      if elem in nthLast && nthLast[elem].dirruns == dirruns {
        return nthLast[elem].diff;
      }
      var marks := ElementMarks(t, p);
      var node := |marks| - 1;
      diff := 0;
      while true
        invariant k <= node < |marks| && diff == CountFrom(marks, node + 1)
        invariant Valid(t)
        decreases node
      {
        if marks[node] {
          diff := diff + 1;
          ElementCacheMeans(t, p, node);
          nthLast := nthLast[p + [node] := ElementCache(dirruns, diff)];
          if node == k {
            return;
          }
        }
        node := node - 1;
      }
    }

    /** The filter itself: `:nth-child(an+b)` and its variants, on any element and after any earlier tests. */
    method Test(t: Tree, elem: Node, a: int, b: int, forward: bool, ofType: bool, xml: bool, names: Node -> string)
      returns (r: bool)
      requires Valid(t) && IsNode(t, elem) && IsElement(t, elem)
      modifies this`nth, this`nthLast
      ensures Valid(t)
      ensures r <==> elem != [] && OnCycle(SiblingPosition(t, elem, forward, ofType, names), a, b)
    {
      hide ElementMarks, NameMarks, OnCycle, CycleTest, ParentCacheOk, ElementCacheOk, IsElement;
      if elem == [] {
        return false;
      }
      if a == 1 && b == 0 {
        EveryPosition(SiblingPosition(t, elem, forward, ofType, names));
        return true;
      }
      var p, k := elem[..|elem| - 1], elem[|elem| - 1];
      MarkedSelf(t, elem, names);
      var diff: nat;
      if !xml && !ofType && forward {
        diff := SeekCached(t, p, k);
      } else if !xml && !ofType {
        diff := SeekLastCached(t, p, k);
      } else {
        diff := SeekPlain(if ofType then NameMarks(t, p, names, names(elem)) else ElementMarks(t, p), k, forward);
      }
      CycleTestMeans(diff, a, b);
      return CycleTest(diff - b, a);
    }
  }

  /** The position of a node among the siblings that count. */
  ghost function SiblingPosition(t: Tree, elem: Node, forward: bool, ofType: bool, names: Node -> string): nat
    requires elem != [] && IsNode(t, elem)
  {
    var p, k := elem[..|elem| - 1], elem[|elem| - 1];
    assert elem == p + [k];
    ChildIndex(t, p, k);
    Position(if ofType then NameMarks(t, p, names, names(elem)) else ElementMarks(t, p), k, forward)
  }

  /** The siblings of `elem` up to it, or from it on, that are elements, or that have its name. */
  ghost function Fellows(t: Tree, elem: Node, forward: bool, ofType: bool, names: Node -> string): set<nat>
    requires elem != []
  {
    var last := elem[|elem| - 1];
    set k | 0 <= k < ChildCount(t, elem[..|elem| - 1]) && (if forward then k <= last else last <= k)
            && if ofType then names(Sibling(elem, k)) == names(elem) else IsElement(t, Sibling(elem, k))
  }

  ghost function Marked(marks: seq<bool>, lo: nat, hi: nat): set<nat>
    requires hi <= |marks|
  {
    set k | lo <= k < hi && marks[k]
  }

  lemma {:induction false} CountMarked(marks: seq<bool>, k: nat)
    requires k <= |marks|
    ensures Count(marks, k) == |Marked(marks, 0, k)|
  {
    if k > 0 {
      CountMarked(marks, k - 1);
      assert Marked(marks, 0, k) == Marked(marks, 0, k - 1) + if marks[k - 1] then {k - 1} else {};
    } else {
      assert Marked(marks, 0, 0) == {};
    }
  }

  lemma {:induction false} CountFromMarked(marks: seq<bool>, k: nat)
    requires k <= |marks|
    ensures CountFrom(marks, k) == |Marked(marks, k, |marks|)|
    decreases |marks| - k
  {
    if k < |marks| {
      CountFromMarked(marks, k + 1);
      assert Marked(marks, k, |marks|) == Marked(marks, k + 1, |marks|) + if marks[k] then {k} else {};
    } else {
      assert Marked(marks, k, |marks|) == {};
    }
  }

  /** A position is the number of siblings that count up to the node, from either end. */
  lemma {:induction false} PositionCounts(t: Tree, elem: Node, forward: bool, ofType: bool, names: Node -> string)
    requires elem != [] && IsNode(t, elem)
    ensures SiblingPosition(t, elem, forward, ofType, names) == |Fellows(t, elem, forward, ofType, names)|
  {
    hide IsElement, ChildCount, NameMarks, ElementMarks, Fellows, Marked, Count, CountFrom;
    var p, k := elem[..|elem| - 1], elem[|elem| - 1];
    assert elem == p + [k];
    ChildIndex(t, p, k);
    var marks := if ofType then NameMarks(t, p, names, names(elem)) else ElementMarks(t, p);
    CountMarked(marks, k + 1);
    CountFromMarked(marks, k);
    FellowsMarked(t, elem, forward, ofType, names, marks);
  }

  lemma {:induction false} FellowsMarked(t: Tree, elem: Node, forward: bool, ofType: bool, names: Node -> string,
                                         marks: seq<bool>)
    requires elem != [] && elem[|elem| - 1] < |marks|
    requires marks == if ofType then NameMarks(t, elem[..|elem| - 1], names, names(elem))
                      else ElementMarks(t, elem[..|elem| - 1])
    ensures var k := elem[|elem| - 1];
            Fellows(t, elem, forward, ofType, names) ==
            if forward then Marked(marks, 0, k + 1) else Marked(marks, k, |marks|)
  {
    hide IsElement, ChildCount;
    var p, last := elem[..|elem| - 1], elem[|elem| - 1];
    forall k | 0 <= k < |marks|
      ensures marks[k] == if ofType then names(Sibling(elem, k)) == names(elem) else IsElement(t, Sibling(elem, k))
    {
      assert Sibling(elem, k) == p + [k];
    }
  }

  lemma {:induction false} MarkedSelf(t: Tree, elem: Node, names: Node -> string)
    requires elem != [] && IsNode(t, elem) && IsElement(t, elem)
    ensures var p, k := elem[..|elem| - 1], elem[|elem| - 1];
            k < ChildCount(t, p) && ElementMarks(t, p)[k] && NameMarks(t, p, names, names(elem))[k]
  {
    var p, k := elem[..|elem| - 1], elem[|elem| - 1];
    assert elem == p + [k];
    ChildIndex(t, p, k);
  }

  lemma {:induction false} EveryPosition(position: nat)
    ensures OnCycle(position, 1, 0)
  {
    assert CycleTerm(1, 0, position) == position;
  }

  lemma {:induction false} ElementCacheMeans(t: Tree, p: Node, k: nat)
    requires k < ChildCount(t, p)
    ensures forall c :: ElementCacheOk(t, p + [k], c) <==> c.diff == CountFrom(ElementMarks(t, p), k)
  {
    assert (p + [k])[..|p|] == p;
  }

  /** The loop of `:nth-child`: from a cached sibling on, and once more from the first child. */
  method SeekForward(marks: seq<bool>, k: nat, cachedIndex: nat, cachedDiff: nat) returns (diff: nat)
    requires k < |marks| && marks[k]
    requires cachedIndex != 0 ==> cachedIndex < |marks| && cachedDiff == Count(marks, cachedIndex + 1)
    ensures diff == Count(marks, k + 1)
  {
    var nodeIndex: nat := cachedIndex;
    diff := cachedDiff;
    var node: Option<nat> := if nodeIndex != 0 then Some(nodeIndex) else None;
    var start := true;
    while true
      invariant node.Some? ==> node.value == nodeIndex < |marks| && diff == Count(marks, nodeIndex + 1)
      invariant !start ==> node.Some? && node.value < k
      decreases start, |marks| - nodeIndex
    {
      nodeIndex := nodeIndex + 1;
      node := if node.Some? && nodeIndex < |marks| then Some(nodeIndex) else None;
      if node.None? {
        assert start;
        nodeIndex, diff, node, start := 0, 0, Some(0), false;
      }
      if marks[nodeIndex] {
        diff := diff + 1;
        if nodeIndex == k {
          return;
        }
      }
    }
  }

  /** The same loop without a cache, in either direction. */
  method SeekPlain(marks: seq<bool>, k: nat, forward: bool) returns (diff: nat)
    requires k < |marks| && marks[k]
    ensures diff == Position(marks, k, forward)
  {
    var node := if forward then 0 else |marks| - 1;
    diff := 0;
    while true
      invariant 0 <= node < |marks| && (forward ==> node <= k) && (!forward ==> k <= node)
      invariant diff == if forward then Count(marks, node) else CountFrom(marks, node + 1)
      decreases if forward then |marks| - node else node
    {
      if marks[node] {
        diff := diff + 1;
        if node == k {
          return;
        }
      }
      node := if forward then node + 1 else node - 1;
    }
  }
}
