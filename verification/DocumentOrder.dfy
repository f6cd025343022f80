/** Sizzle's document order (debian/jquery-1.9.1.js): the comparator used where the browser has none,
    and the removal of duplicates from a sorted result. */
module DocumentOrder {
  import opened Common
  import opened Dom

  // ----- Preorder -----

  /** The nodes as a depth-first traversal from the root meets them. */
  ghost function Preorder(t: Tree): seq<Node> {
    [[]] + PreorderFrom(t.childNodes, 0)
  }

  ghost function PreorderFrom(children: seq<Tree>, i: nat): seq<Node>
    requires i <= |children|
    decreases children, |children| - i
  {
    if i == |children| then [] else Under(i, Preorder(children[i])) + PreorderFrom(children, i + 1)
  }

  ghost function Under(i: nat, nodes: seq<Node>): (r: seq<Node>)
    ensures |r| == |nodes| && forall k :: 0 <= k < |nodes| ==> r[k] == [i] + nodes[k]
  {
    seq(|nodes|, k requires 0 <= k < |nodes| => [i] + nodes[k])
  }

  /** An ancestor precedes its descendants; otherwise the first differing child index decides. */
  ghost predicate Precedes(a: Node, b: Node) {
    b != [] && (a == [] || a[0] < b[0] || (a[0] == b[0] && Precedes(a[1..], b[1..])))
  }

  lemma {:induction false} PrecedesTotal(a: Node, b: Node)
    ensures !(Precedes(a, b) && Precedes(b, a))
    ensures a == b || Precedes(a, b) || Precedes(b, a)
    ensures !Precedes(a, a)
    decreases |a|
  {
    if a != [] && b != [] && a[0] == b[0] {
      PrecedesTotal(a[1..], b[1..]);
      assert a == [a[0]] + a[1..] && b == [b[0]] + b[1..];
    }
    if a != [] {
      PrecedesTotal(a[1..], a[1..]);
    }
  }

  lemma {:induction false} PrecedesTransitive(a: Node, b: Node, c: Node)
    requires Precedes(a, b) && Precedes(b, c)
    ensures Precedes(a, c)
    decreases |a|
  {
    if a != [] && a[0] == b[0] == c[0] {
      PrecedesTransitive(a[1..], b[1..], c[1..]);
    }
  }

  ghost predicate Ascending(nodes: seq<Node>) {
    forall i, j :: 0 <= i < j < |nodes| ==> Precedes(nodes[i], nodes[j])
  }

  lemma {:induction false} PreorderAscends(t: Tree)
    ensures Ascending(Preorder(t))
    decreases t, 1
  {
    PreorderFromAscends(t.childNodes, 0);
    var rest := PreorderFrom(t.childNodes, 0);
    forall i, j | 0 <= i < j < |Preorder(t)| ensures Precedes(Preorder(t)[i], Preorder(t)[j]) {
      assert Preorder(t)[j] == rest[j - 1] && (i > 0 ==> Preorder(t)[i] == rest[i - 1]);
      PreorderFromHeads(t.childNodes, 0, rest[j - 1]);
    }
  }

  lemma {:induction false} PreorderFromHeads(children: seq<Tree>, i: nat, n: Node)
    requires i <= |children| && n in PreorderFrom(children, i)
    ensures n != [] && n[0] >= i
    decreases |children| - i
  {
    if n !in Under(i, Preorder(children[i])) {
      PreorderFromHeads(children, i + 1, n);
    }
  }

  lemma {:induction false} PreorderFromAscends(children: seq<Tree>, i: nat)
    requires i <= |children|
    ensures Ascending(PreorderFrom(children, i))
    decreases children, |children| - i
  {
    if i < |children| {
      PreorderAscends(children[i]);
      PreorderFromAscends(children, i + 1);
      var first, rest := Under(i, Preorder(children[i])), PreorderFrom(children, i + 1);
      forall j, k | 0 <= j < k < |first| ensures Precedes(first[j], first[k]) {
        assert first[j][1..] == Preorder(children[i])[j] && first[k][1..] == Preorder(children[i])[k];
      }
      forall j, k | 0 <= j < |first| && 0 <= k < |rest| ensures Precedes(first[j], rest[k]) {
        PreorderFromHeads(children, i + 1, rest[k]);
      }
    }
  }

  /** The traversal meets exactly the nodes of the tree. */
  lemma {:induction false} PreorderComplete(t: Tree, n: Node)
    ensures n in Preorder(t) <==> IsNode(t, n)
    decreases t, 1
  {
    if n == [] {
      assert Preorder(t)[0] == n;
    } else {
      PreorderFromComplete(t.childNodes, 0, n);
      assert n in Preorder(t) <==> n in PreorderFrom(t.childNodes, 0);
    }
  }

  lemma {:induction false} UnderMember(i: nat, inner: seq<Node>, n: Node)
    requires n != []
    ensures n in Under(i, inner) <==> n[0] == i && n[1..] in inner
  {
    if n[0] == i && n[1..] in inner {
      var k :| 0 <= k < |inner| && inner[k] == n[1..];
      assert Under(i, inner)[k] == [n[0]] + n[1..] == n;
    }
    if n in Under(i, inner) {
      var k :| 0 <= k < |inner| && Under(i, inner)[k] == n;
      assert n[1..] == inner[k];
    }
  }

  lemma {:induction false} PreorderFromComplete(children: seq<Tree>, i: nat, n: Node)
    requires i <= |children| && n != []
    ensures n in PreorderFrom(children, i) <==> i <= n[0] < |children| && IsNode(children[n[0]], n[1..])
    decreases children, |children| - i
  {
    hide Under, IsNode, Preorder;
    if i < |children| {
      PreorderFromComplete(children, i + 1, n);
      PreorderComplete(children[i], n[1..]);
      UnderMember(i, Preorder(children[i]), n);
      assert PreorderFrom(children, i) == Under(i, Preorder(children[i])) + PreorderFrom(children, i + 1);
    }
  }

  /** Precedence is preorder position. */
  lemma {:induction false} PrecedesIsPreorder(t: Tree, i: nat, j: nat)
    requires i < |Preorder(t)| && j < |Preorder(t)|
    ensures Precedes(Preorder(t)[i], Preorder(t)[j]) <==> i < j
  {
    PreorderAscends(t);
    PrecedesTotal(Preorder(t)[i], Preorder(t)[j]);
  }

  // ----- The comparator -----

  /** Two paths that agree up to `i` are ordered by what comes next. */
  lemma {:induction false} PrecedesAtFork(a: Node, b: Node, i: nat)
    requires i <= |a| && i <= |b| && a[..i] == b[..i]
    requires i < |a| && i < |b| ==> a[i] != b[i]
    ensures Precedes(a, b) <==> i < |b| && (i == |a| || a[i] < b[i])
    decreases i
  {
    if i > 0 {
      assert a[0] == a[..i][0] == b[..i][0] == b[0];
      assert a[1..][..i - 1] == a[..i][1..] == b[..i][1..] == b[1..][..i - 1];
      PrecedesAtFork(a[1..], b[1..], i - 1);
    }
  }

  lemma {:induction false} NodePrefix(t: Tree, n: Node, k: nat)
    requires IsNode(t, n) && k <= |n|
    ensures IsNode(t, n[..k])
    decreases k
  {
    if k > 0 {
      NodePrefix(t.childNodes[n[0]], n[1..], k - 1);
      assert n[..k][1..] == n[1..][..k - 1];
    }
  }

  /** Children are numbered without gaps. */
  lemma {:induction false} EarlierSibling(t: Tree, p: Node, j: nat, k: nat)
    requires j <= k && IsNode(t, p + [k])
    ensures IsNode(t, p + [j])
    decreases |p|
  {
    if p != [] {
      assert (p + [k])[1..] == p[1..] + [k] && (p + [j])[1..] == p[1..] + [j];
      EarlierSibling(t.childNodes[p[0]], p[1..], j, k);
    } else {
      assert (p + [k])[1..] == [] && (p + [j])[1..] == [];
    }
  }

  /** siblingCheck, with either argument possibly undefined and no sourceIndex. */
  method SiblingCheck(t: Tree, a: Option<Node>, b: Option<Node>) returns (r: int)
    requires a.Some? || b.Some?
    requires a.Some? && b.Some? ==>
               && a.value != [] && b.value != [] && a.value != b.value
               && a.value[..|a.value| - 1] == b.value[..|b.value| - 1]
               && IsNode(t, a.value) && IsNode(t, b.value)
    ensures r == -1 || r == 1
    ensures r == -1 <==> a.None? || (b.Some? && a.value[|a.value| - 1] < b.value[|b.value| - 1])
  {
    var cur := if b.None? then None else a;
    if cur.Some? {
      ghost var p, last := a.value[..|a.value| - 1], b.value[|b.value| - 1];
      assert a.value == p + [a.value[|a.value| - 1]] && b.value == p + [last];
      ghost var k := a.value[|a.value| - 1];
      while NextSibling(t, cur.value).Some?
        invariant cur.Some? && cur.value == p + [k] && IsNode(t, cur.value)
        invariant a.value[|a.value| - 1] <= k
        invariant a.value[|a.value| - 1] < last ==> k < last
        decreases ChildCount(t, p) - k
      {
        cur := NextSibling(t, cur.value);
        k := k + 1;
        ChildIndex(t, p, k);
        if cur == b {
          return -1;
        }
      }
      if k < last {
        EarlierSibling(t, p, k + 1, last);
      }
    }
    return if a.Some? then 1 else -1;
  }

  /** The ancestors of a node from the document down to the node itself. */
  method Ancestors(n: Node) returns (path: seq<Node>)
    ensures |path| == |n| + 1 && forall k :: 0 <= k <= |n| ==> path[k] == n[..k]
  {
    path := [n];
    var cur := n;
    assert n[..|n|] == n;
    while ParentNode(cur).Some?
      invariant |cur| <= |n| && cur == n[..|cur|]
      invariant |path| == |n| - |cur| + 1
      invariant forall k :: |cur| <= k <= |n| ==> path[k - |cur|] == n[..k]
      decreases |cur|
    {
      assert n[..|cur|][..|cur| - 1] == n[..|cur| - 1];
      cur := ParentNode(cur).value;
      path := [cur] + path;
    }
  }

  /** sortOrder on the nodes of one document: negative exactly when `a` comes first. */
  method SortOrder(t: Tree, a: Node, b: Node) returns (r: int)
    requires IsNode(t, a) && IsNode(t, b)
    ensures r == 0 <==> a == b
    ensures r < 0 <==> Precedes(a, b)
    ensures r > 0 <==> Precedes(b, a)
  {
    PrecedesTotal(a, b);
    if a == b {
      return 0;
    } else if ParentNode(a).None? || ParentNode(b).None? {
      return if a == DOCUMENT then -1 else if b == DOCUMENT then 1
             else if ParentNode(a).Some? then -1 else if ParentNode(b).Some? then 1 else 0;
    } else if ParentNode(a) == ParentNode(b) {
      var n := |a| - 1;
      assert a == a[..n] + [a[n]] && b == b[..n] + [b[n]];
      PrecedesAtFork(a, b, n);
      r := SiblingCheck(t, Some(a), Some(b));
      return;
    }
    var ap := Ancestors(a);
    var bp := Ancestors(b);
    var i := 0;
    assert a[..0] == b[..0];
    assert a[..|a|] == a && b[..|b|] == b;
    while At(ap, i) == At(bp, i)
      invariant 0 <= i <= |ap| && i <= |bp|
      invariant i > 0 ==> a[..i - 1] == b[..i - 1]
      invariant i == 0 ==> ap[0] == bp[0]
      decreases |ap| - i
    {
      i := i + 1;
    }
    ForkAt(t, a, b, i);
    r := SiblingCheck(t, At(ap, i), At(bp, i));
  }

  /** An array element, or undefined past the end. */
  function At(path: seq<Node>, i: nat): Option<Node> {
    if i < |path| then Some(path[i]) else None
  }

  /** The walk down stops below the last common ancestor, with two siblings or past the end of one path. */
  lemma {:induction false} ForkAt(t: Tree, a: Node, b: Node, i: nat)
    requires IsNode(t, a) && IsNode(t, b) && a != b
    requires 0 < i && i - 1 <= |a| && i - 1 <= |b| && a[..i - 1] == b[..i - 1]
    requires i <= |a| && i <= |b| ==> a[..i] != b[..i]
    ensures i <= |a| || i <= |b|
    ensures i <= |a| ==> IsNode(t, a[..i])
    ensures i <= |b| ==> IsNode(t, b[..i])
    ensures i <= |a| && i <= |b| ==> a[..i][..i - 1] == b[..i][..i - 1] && a[i - 1] != b[i - 1]
    ensures Precedes(a, b) <==> i <= |b| && (i > |a| || a[i - 1] < b[i - 1])
  {
    if i <= |a| {
      NodePrefix(t, a, i);
      assert a[..i] == a[..i - 1] + [a[i - 1]];
    } else {
      assert a[..i - 1] == a;
    }
    if i <= |b| {
      NodePrefix(t, b, i);
      assert b[..i] == b[..i - 1] + [b[i - 1]];
    } else {
      assert b[..i - 1] == b;
    }
    PrecedesAtFork(a, b, i - 1);
  }

  // ----- Duplicate removal -----

  ghost predicate NeverDescends(nodes: seq<Node>) {
    forall i, j :: 0 <= i < j < |nodes| ==> nodes[i] == nodes[j] || Precedes(nodes[i], nodes[j])
  }

  /** The elements from position `i` on that differ from their predecessor. */
  ghost function KeepFrom(s: seq<Node>, i: nat): seq<Node>
    requires i <= |s|
    decreases |s| - i
  {
    if i == |s| then []
    else (if i > 0 && s[i] == s[i - 1] then [] else [s[i]]) + KeepFrom(s, i + 1)
  }

  ghost predicate IsDuplicate(s: seq<Node>, i: nat) {
    0 < i < |s| && s[i] == s[i - 1]
  }

  lemma {:induction false} KeepFirst(s: seq<Node>, i: nat)
    requires i < |s|
    ensures KeepFrom(s, i) == if IsDuplicate(s, i) then KeepFrom(s, i + 1) else [s[i]] + KeepFrom(s, i + 1)
  {
  }

  lemma {:induction false} KeepNone(s: seq<Node>)
    ensures KeepFrom(s, |s|) == []
  {
  }

  lemma {:induction false} KeepBlock(s: seq<Node>, i: nat, q: nat)
    requires i <= q <= |s| && forall k :: i <= k < q ==> !IsDuplicate(s, k)
    ensures KeepFrom(s, i) == s[i..q] + KeepFrom(s, q)
    decreases q - i
  {
    hide KeepFrom;
    if i < q {
      KeepFirst(s, i);
      KeepBlock(s, i + 1, q);
      assert [s[i]] + (s[i + 1..q] + KeepFrom(s, q)) == s[i..q] + KeepFrom(s, q);
    }
  }

  lemma {:induction false} CutOne<T>(s: seq<T>, d: nat, q: nat, tail: seq<T>)
    requires d < q <= |s|
    ensures (s[..q] + tail)[..d] + (s[..q] + tail)[d + 1..] == s[..d] + (s[d + 1..q] + tail)
  {
  }

  method CollectDuplicates(results: seq<Node>) returns (duplicates: seq<nat>)
    ensures AllDuplicates(results, duplicates)
  {
    duplicates := [];
    var i := 1;
    while i < |results|
      invariant 1 <= i
      invariant forall k :: 0 <= k < |duplicates| ==> 0 < duplicates[k] < i && duplicates[k] < |results|
      invariant forall k, l :: 0 <= k < l < |duplicates| ==> duplicates[k] < duplicates[l]
      invariant forall k :: 0 <= k < i && k < |results| ==> (k in duplicates <==> IsDuplicate(results, k))
    {
      if results[i] == results[i - 1] {
        duplicates := duplicates + [i];
      }
      i := i + 1;
    }
  }

  method SpliceOut(sorted: seq<Node>, duplicates: seq<nat>) returns (results: seq<Node>)
    requires AllDuplicates(sorted, duplicates)
    ensures results == KeepFrom(sorted, 0)
  {
    hide AllDuplicates, KeepFrom;
    results := sorted;
    var j := |duplicates|;
    KeepNone(sorted);
    while j > 0
      invariant 0 <= j <= |duplicates|
      invariant results == sorted[..Position(sorted, duplicates, j)] + KeepFrom(sorted, Position(sorted, duplicates, j))
    {
      SpliceStep(sorted, duplicates, j - 1);
      j := j - 1;
      results := results[..duplicates[j]] + results[duplicates[j] + 1..];
    }
    NoDuplicateBefore(sorted, duplicates);
    KeepBlock(sorted, 0, Position(sorted, duplicates, 0));
  }

  lemma {:induction false} SpliceStep(s: seq<Node>, duplicates: seq<nat>, j: nat)
    requires AllDuplicates(s, duplicates) && j < |duplicates|
    ensures var d, q := duplicates[j], Position(s, duplicates, j + 1);
            var was := s[..q] + KeepFrom(s, q);
            d < q && was[..d] + was[d + 1..] == s[..d] + KeepFrom(s, d) && Position(s, duplicates, j) == d
  {
    hide KeepFrom;
    var d, q := duplicates[j], Position(s, duplicates, j + 1);
    NoDuplicateBetween(s, duplicates, j);
    KeepBlock(s, d + 1, q);
    KeepFirst(s, d);
    CutOne(s, d, q, KeepFrom(s, q));
  }

  /** uniqueSort after its sort: a list that never descends loses its repeated nodes and nothing else. */
  method RemoveDuplicates(sorted: seq<Node>) returns (results: seq<Node>)
    requires NeverDescends(sorted)
    ensures Ascending(results)
    ensures forall n :: n in results <==> n in sorted
  {
    var duplicates := CollectDuplicates(sorted);
    results := SpliceOut(sorted, duplicates);
    KeptAscends(sorted, 0);
  }

  /** The first position whose fate is decided when `j` duplicates are left. */
  ghost function Position(s: seq<Node>, duplicates: seq<nat>, j: nat): nat {
    if j < |duplicates| && duplicates[j] <= |s| then duplicates[j] else |s|
  }

  ghost predicate AllDuplicates(s: seq<Node>, duplicates: seq<nat>) {
    && (forall k :: 0 <= k < |duplicates| ==> 0 < duplicates[k] < |s|)
    && (forall k, l :: 0 <= k < l < |duplicates| ==> duplicates[k] < duplicates[l])
    && (forall k :: 0 <= k < |s| ==> (k in duplicates <==> IsDuplicate(s, k)))
  }

  lemma {:induction false} NoDuplicateBetween(s: seq<Node>, duplicates: seq<nat>, j: nat)
    requires AllDuplicates(s, duplicates) && j < |duplicates|
    ensures forall k :: duplicates[j] < k < Position(s, duplicates, j + 1) ==> !IsDuplicate(s, k)
  {
    forall l | 0 <= l < |duplicates|
      ensures !(duplicates[j] < duplicates[l] < Position(s, duplicates, j + 1))
    {
      assert l <= j || l == j + 1 || j + 1 < l;
    }
  }

  lemma {:induction false} NoDuplicateBefore(s: seq<Node>, duplicates: seq<nat>)
    requires AllDuplicates(s, duplicates)
    ensures forall k :: 0 <= k < Position(s, duplicates, 0) ==> !IsDuplicate(s, k)
  {
    forall k: nat | 0 <= k < Position(s, duplicates, 0) ensures k !in duplicates {
    }
  }

  lemma {:induction false} KeptAscends(s: seq<Node>, i: nat)
    requires NeverDescends(s) && i <= |s|
    ensures Ascending(KeepFrom(s, i))
    ensures forall n :: n in KeepFrom(s, i) ==> n in s[i..] && (i > 0 ==> Precedes(s[i - 1], n))
    ensures forall n :: n in s[i..] ==> n in KeepFrom(s, i) || (i > 0 && n == s[i - 1])
    decreases |s| - i
  {
    if i < |s| {
      KeptAscends(s, i + 1);
      assert s[i..] == [s[i]] + s[i + 1..];
      if i > 0 && s[i] != s[i - 1] {
        var prev, kept := s[i - 1], KeepFrom(s, i + 1);
        forall n | n in kept ensures Precedes(prev, n) {
          PrecedesTransitive(prev, s[i], n);
        }
      }
      KeepStep(s, i);
    }
  }

  lemma {:induction false} KeepStep(s: seq<Node>, i: nat)
    requires i < |s| && Ascending(KeepFrom(s, i + 1))
    requires forall n :: n in KeepFrom(s, i + 1) ==> Precedes(s[i], n)
    ensures Ascending(KeepFrom(s, i))
  {
    var rest := KeepFrom(s, i + 1);
    var all := [s[i]] + rest;
    forall j, k | 0 <= j < k < |all| ensures Precedes(all[j], all[k]) {
      assert rest[k - 1] in rest;
    }
  }
}
