/** A finite ordered document tree, and its nodes seen as paths.
    A node is the sequence of child indices that leads to it from the document node `[]`,
    so two nodes are the same object exactly when their paths are equal. */
module Dom {
  import opened Common

  datatype Tree = Tree(isElement: bool, childNodes: seq<Tree>)

  type Node = seq<nat>

  datatype Direction = ParentDir | PreviousDir

  const DOCUMENT: Node := []

  /** The path leads to a node of the tree. */
  predicate IsNode(t: Tree, n: Node) {
    n == [] || (n[0] < |t.childNodes| && IsNode(t.childNodes[n[0]], n[1..]))
  }

  /** `nodeType === 1` */
  predicate IsElement(t: Tree, n: Node) {
    if n == [] then t.isElement
    else n[0] < |t.childNodes| && IsElement(t.childNodes[n[0]], n[1..])
  }

  function ParentNode(n: Node): Option<Node> {
    if n == [] then None else Some(n[..|n| - 1])
  }

  function PreviousSibling(n: Node): Option<Node> {
    if n == [] || n[|n| - 1] == 0 then None else Some(n[..|n| - 1] + [n[|n| - 1] - 1])
  }

  /** `elem[ dir ]` */
  function Next(dir: Direction, n: Node): Option<Node> {
    match dir
    case ParentDir => ParentNode(n)
    case PreviousDir => PreviousSibling(n)
  }

  /** A rank that falls along both directions. */
  ghost function Weight(n: Node): nat {
    if n == [] then 0 else Weight(n[..|n| - 1]) + n[|n| - 1] + 1
  }

  lemma NextDescends(dir: Direction, n: Node)
    ensures Next(dir, n).Some? ==> Weight(Next(dir, n).value) < Weight(n)
  {
    if dir == PreviousDir && Next(dir, n).Some? {
      var p := Next(dir, n).value;
      assert p[..|p| - 1] == n[..|n| - 1];
    }
  }

  /** `p` is met when walking from `e` in direction `dir`: a proper ancestor, or an earlier sibling. */
  ghost predicate Beyond(dir: Direction, e: Node, p: Node) {
    match dir
    case ParentDir => p < e
    case PreviousDir => |p| == |e| > 0 && p[..|p| - 1] == e[..|e| - 1] && p[|p| - 1] < e[|e| - 1]
  }

  /** Walking one step at a time meets exactly the nodes that lie beyond. */
  lemma BeyondUnfolds(dir: Direction, e: Node, p: Node)
    ensures Beyond(dir, e, p) <==>
            Next(dir, e).Some? && (p == Next(dir, e).value || Beyond(dir, Next(dir, e).value, p))
  {
    match dir
    case ParentDir =>
      if e != [] {
        var q := e[..|e| - 1];
        assert e == q + [e[|e| - 1]];
        if p < e {
          if |p| == |q| {
            assert p == q;
          } else {
            assert p < q;
          }
        }
      }
    case PreviousDir =>
      if Next(dir, e).Some? {
        var q := Next(dir, e).value;
        assert q[..|q| - 1] == e[..|e| - 1];
        if Beyond(dir, e, p) && p[|p| - 1] == q[|q| - 1] {
          assert p == p[..|p| - 1] + [p[|p| - 1]];
          assert q == q[..|q| - 1] + [q[|q| - 1]];
        }
      }
  }

  function NextSibling(t: Tree, n: Node): Option<Node> {
    if n != [] && IsNode(t, Sibling(n, n[|n| - 1] + 1)) then Some(Sibling(n, n[|n| - 1] + 1)) else None
  }

  function Sibling(n: Node, k: nat): Node
    requires n != []
  {
    n[..|n| - 1] + [k]
  }

  /** `childNodes.length` */
  function ChildCount(t: Tree, p: Node): nat {
    if p == [] then |t.childNodes|
    else if p[0] < |t.childNodes| then ChildCount(t.childNodes[p[0]], p[1..])
    else 0
  }

  lemma {:induction false} ChildIndex(t: Tree, p: Node, k: nat)
    requires IsNode(t, p + [k])
    ensures k < ChildCount(t, p)
    decreases |p|
  {
    if p != [] {
      assert (p + [k])[1..] == p[1..] + [k];
      ChildIndex(t.childNodes[p[0]], p[1..], k);
    }
  }
}
