/** The handler list of one element and one event type in debian/jquery-1.9.1.js: binding and unbinding splice
    one array in place, and dispatch reads off it which handlers run, and in which order. */
module EventHandlers {
  import opened Common
  import opened Dom

  /** A bound handler; a direct one has the selector "". */
  datatype HandleObj = HandleObj(guid: nat, origType: string, namespace: string, selector: string)

  /** What a handler must meet to be unbound; `namespace` is the test made of the given namespaces. */
  datatype Criteria = Criteria(
    mappedTypes: bool, origType: string, guid: Option<nat>, namespace: Option<string -> bool>, selector: string)

  predicate Matches(c: Criteria, h: HandleObj) {
    && (c.mappedTypes || c.origType == h.origType)
    && (c.guid.None? || c.guid.value == h.guid)
    && (c.namespace.None? || c.namespace.value(h.namespace))
    && (c.selector == "" || c.selector == h.selector || (c.selector == "**" && h.selector != ""))
  }

  function Filter(s: seq<HandleObj>, p: HandleObj -> bool): seq<HandleObj> {
    if s == [] then []
    else if p(s[|s| - 1]) then Filter(s[..|s| - 1], p) + [s[|s| - 1]]
    else Filter(s[..|s| - 1], p)
  }

  predicate Delegated(h: HandleObj) {
    h.selector != ""
  }

  predicate Direct(h: HandleObj) {
    h.selector == ""
  }

  function Survives(c: Criteria): HandleObj -> bool {
    h => !Matches(c, h)
  }

  // ----- What is bound after a history of binds and unbinds -----

  datatype Op = Bind(h: HandleObj) | Unbind(c: Criteria)

  ghost function Bound(history: seq<Op>): seq<HandleObj> {
    if history == [] then []
    else
      var before := Bound(history[..|history| - 1]);
      match history[|history| - 1]
      case Bind(h) => before + [h]
      case Unbind(c) => Filter(before, Survives(c))
  }

  /** The i-th operation bound a handler that no later operation unbound. */
  ghost predicate LiveAt(history: seq<Op>, i: nat) {
    && i < |history| && history[i].Bind?
    && forall j :: i < j < |history| && history[j].Unbind? ==> !Matches(history[j].c, history[i].h)
  }

  /** The live handlers among the first n operations, in the order they were bound. */
  ghost function Live(history: seq<Op>, n: nat): seq<HandleObj>
    requires n <= |history|
  {
    if n == 0 then []
    else if LiveAt(history, n - 1) then Live(history, n - 1) + [history[n - 1].h]
    else Live(history, n - 1)
  }

  lemma {:induction false} LiveAfterBind(history: seq<Op>, h: HandleObj, n: nat)
    requires n <= |history|
    ensures Live(history + [Bind(h)], n) == Live(history, n)
  {
    if n > 0 {
      LiveAfterBind(history, h, n - 1);
      var longer := history + [Bind(h)];
      assert longer[n - 1] == history[n - 1];
      assert forall j :: 0 <= j < |history| ==> longer[j] == history[j];
      assert LiveAt(longer, n - 1) == LiveAt(history, n - 1);
    }
  }

  lemma {:induction false} LiveAfterUnbind(history: seq<Op>, c: Criteria, n: nat)
    requires n <= |history|
    ensures Live(history + [Unbind(c)], n) == Filter(Live(history, n), Survives(c))
  {
    if n > 0 {
      LiveAfterUnbind(history, c, n - 1);
      var longer := history + [Unbind(c)];
      assert longer[n - 1] == history[n - 1];
      assert forall j :: 0 <= j < |history| ==> longer[j] == history[j];
      assert longer[|history|] == Unbind(c);
      if LiveAt(history, n - 1) {
        FilterSnoc(Live(history, n - 1), history[n - 1].h, Survives(c));
        assert LiveAt(longer, n - 1) <==> !Matches(c, history[n - 1].h);
      } else {
        assert !LiveAt(longer, n - 1);
      }
    }
  }

  /** What is bound is exactly what was bound and not unbound since, in bind order. */
  lemma {:induction false} BoundIsLive(history: seq<Op>)
    ensures Bound(history) == Live(history, |history|)
  {
    if history != [] {
      var n := |history| - 1;
      var before := history[..n];
      BoundIsLive(before);
      assert history == before + [history[n]];
      match history[n]
      case Bind(h) => LiveAfterBind(before, h, n);
      case Unbind(c) => LiveAfterUnbind(before, c, n);
    }
  }

  // ----- Filters -----

  lemma {:induction false} FilterSnoc(s: seq<HandleObj>, h: HandleObj, p: HandleObj -> bool)
    ensures Filter(s + [h], p) == if p(h) then Filter(s, p) + [h] else Filter(s, p)
  {
    assert (s + [h])[..|s|] == s;
  }

  lemma {:induction false} FilterConcat(s: seq<HandleObj>, t: seq<HandleObj>, p: HandleObj -> bool)
    ensures Filter(s + t, p) == Filter(s, p) + Filter(t, p)
  {
    if t == [] {
      assert s + t == s;
    } else {
      var n := |t| - 1;
      FilterConcat(s, t[..n], p);
      assert s + t == (s + t[..n]) + [t[n]];
      FilterSnoc(s + t[..n], t[n], p);
    }
  }

  lemma {:induction false} FiltersCommute(s: seq<HandleObj>, p: HandleObj -> bool, q: HandleObj -> bool)
    ensures Filter(Filter(s, p), q) == Filter(Filter(s, q), p)
  {
    if s != [] {
      var n := |s| - 1;
      FiltersCommute(s[..n], p, q);
      FilterSnoc(Filter(s[..n], p), s[n], q);
      FilterSnoc(Filter(s[..n], q), s[n], p);
    }
  }

  /** Filtering a filtered list again keeps all of it, or nothing when the tests exclude each other. */
  lemma {:induction false} FilterAgain(s: seq<HandleObj>)
    ensures Filter(Filter(s, Delegated), Delegated) == Filter(s, Delegated)
    ensures Filter(Filter(s, Direct), Delegated) == []
  {
    if s != [] {
      var n := |s| - 1;
      FilterAgain(s[..n]);
      FilterSnoc(Filter(s[..n], Delegated), s[n], Delegated);
      FilterSnoc(Filter(s[..n], Direct), s[n], Delegated);
    }
  }

  lemma {:induction false} FilterWithout(s: seq<HandleObj>, j: nat, p: HandleObj -> bool)
    requires j < |s|
    ensures |Filter(s[..j] + s[j + 1..], p)| == |Filter(s, p)| - if p(s[j]) then 1 else 0
  {
    FilterConcat(s[..j], s[j + 1..], p);
    FilterSnoc(s[..j], s[j], p);
    FilterConcat(s[..j] + [s[j]], s[j + 1..], p);
    assert s == s[..j] + [s[j]] + s[j + 1..];
  }

  lemma {:induction false} FilterNone(p: HandleObj -> bool)
    ensures Filter([], p) == []
  {
  }

  lemma {:induction false} BoundSnoc(history: seq<Op>, op: Op)
    ensures Bound(history + [op]) ==
            if op.Bind? then Bound(history) + [op.h] else Filter(Bound(history), Survives(op.c))
  {
    assert (history + [op])[..|history|] == history;
  }

  /** The list a history leaves: delegated handlers in front. */
  ghost function Arranged(bound: seq<HandleObj>): seq<HandleObj> {
    Filter(bound, Delegated) + Filter(bound, Direct)
  }

  lemma {:induction false} ArrangedSurvivors(bound: seq<HandleObj>, c: Criteria)
    ensures Filter(Arranged(bound), Survives(c)) == Arranged(Filter(bound, Survives(c)))
  {
    FilterConcat(Filter(bound, Delegated), Filter(bound, Direct), Survives(c));
    FiltersCommute(bound, Delegated, Survives(c));
    FiltersCommute(bound, Direct, Survives(c));
  }

  /** What is left of an arranged list is the arrangement of what is left. */
  lemma {:induction false} Unbound(history: seq<Op>, c: Criteria)
    ensures Filter(Arranged(Bound(history)), Survives(c)) == Arranged(Bound(history + [Unbind(c)]))
  {
    hide Arranged, Filter, Bound;
    ArrangedSurvivors(Bound(history), c);
    BoundSnoc(history, Unbind(c));
  }

  lemma {:induction false} ArrangedDelegated(bound: seq<HandleObj>)
    ensures Filter(Arranged(bound), Delegated) == Filter(bound, Delegated)
  {
    FilterAgain(bound);
    FilterConcat(Filter(bound, Delegated), Filter(bound, Direct), Delegated);
  }

  lemma {:induction false} FilterMembers(s: seq<HandleObj>, p: HandleObj -> bool)
    ensures forall h :: h in Filter(s, p) <==> h in s && p(h)
  {
    if s != [] {
      var n := |s| - 1;
      FilterMembers(s[..n], p);
      assert s == s[..n] + [s[n]];
    }
  }

  lemma {:induction false} FilterSame(s: seq<HandleObj>, p: HandleObj -> bool, q: HandleObj -> bool)
    requires forall h :: p(h) == q(h)
    ensures Filter(s, p) == Filter(s, q)
  {
    if s != [] {
      FilterSame(s[..|s| - 1], p, q);
    }
  }

  lemma {:induction false} FilterNothing(s: seq<HandleObj>, p: HandleObj -> bool)
    requires forall h :: !p(h)
    ensures Filter(s, p) == []
  {
    if s != [] {
      FilterNothing(s[..|s| - 1], p);
    }
  }

  // ----- What an unbinding takes away -----

  /** Every handler of the type. */
  const ANY := Criteria(true, "", None, None, "")

  /** An unbinding without restrictions leaves nothing, and one for the selector "**" exactly the direct handlers. */
  lemma {:induction false} UnbindAll(history: seq<Op>)
    ensures Bound(history + [Unbind(ANY)]) == []
    ensures Bound(history + [Unbind(ANY.(selector := "**"))]) == Filter(Bound(history), Direct)
  {
    BoundSnoc(history, Unbind(ANY));
    BoundSnoc(history, Unbind(ANY.(selector := "**")));
    FilterSame(Bound(history), Survives(ANY.(selector := "**")), Direct);
    FilterNothing(Bound(history), Survives(ANY));
  }

  /** A handler goes exactly when each restriction on its own would take it. */
  lemma {:induction false} UnbindEach(history: seq<Op>, c: Criteria, h: HandleObj)
    requires h in Bound(history)
    ensures h !in Bound(history + [Unbind(c)]) <==>
            && h !in Bound(history + [Unbind(ANY.(mappedTypes := c.mappedTypes, origType := c.origType))])
            && h !in Bound(history + [Unbind(ANY.(guid := c.guid))])
            && h !in Bound(history + [Unbind(ANY.(namespace := c.namespace))])
            && h !in Bound(history + [Unbind(ANY.(selector := c.selector))])
  {
    hide Bound;
    Unbinding(history, c, h);
    Unbinding(history, ANY.(mappedTypes := c.mappedTypes, origType := c.origType), h);
    Unbinding(history, ANY.(guid := c.guid), h);
    Unbinding(history, ANY.(namespace := c.namespace), h);
    Unbinding(history, ANY.(selector := c.selector), h);
  }

  /** One restriction takes the handlers that have what it names: the type, the function, a namespace that passes, or
      the selector. */
  lemma {:induction false} UnbindOne(history: seq<Op>, h: HandleObj, t: string, guid: nat, test: string -> bool,
                                     selector: string)
    requires h in Bound(history)
    ensures h in Bound(history + [Unbind(ANY.(mappedTypes := false, origType := t))]) <==> h.origType != t
    ensures h in Bound(history + [Unbind(ANY.(guid := Some(guid)))]) <==> h.guid != guid
    ensures h in Bound(history + [Unbind(ANY.(namespace := Some(test)))]) <==> !test(h.namespace)
    ensures selector != "" && selector != "**" ==>
              (h in Bound(history + [Unbind(ANY.(selector := selector))]) <==> h.selector != selector)
  {
    hide Bound;
    Unbinding(history, ANY.(mappedTypes := false, origType := t), h);
    Unbinding(history, ANY.(guid := Some(guid)), h);
    Unbinding(history, ANY.(namespace := Some(test)), h);
    Unbinding(history, ANY.(selector := selector), h);
  }

  lemma {:induction false} Unbinding(history: seq<Op>, c: Criteria, h: HandleObj)
    ensures h in Bound(history + [Unbind(c)]) <==> h in Bound(history) && !Matches(c, h)
  {
    BoundSnoc(history, Unbind(c));
    FilterMembers(Bound(history), Survives(c));
  }

  // ----- Which handlers an event reaches -----

  datatype Event = Event(target: Option<Node>, isClick: bool, button: nat)

  /** The document, the elements that are disabled, and what the selector engine answers for one element
      when searching under the element the handlers are bound on. */
  datatype Page = Page(tree: Tree, disabled: Node -> bool, find: (string, Node) -> bool)

  datatype Matched = Matched(elem: Node, handlers: seq<HandleObj>)

  /** The nodes passed on the way up from `cur` to `self`, both ends as the walk sees them. */
  function Bubble(cur: Node, self: Node): seq<Node>
    decreases |cur|
  {
    if cur == self then []
    else if cur == [] then [cur]
    else [cur] + Bubble(cur[..|cur| - 1], self)
  }

  /** The walk visits the target, its parent and so on: every node strictly below `self`, or every node up to the
      document when the target is not inside `self`. */
  lemma {:induction false} BubbleVisits(target: Node, self: Node)
    ensures |Bubble(target, self)| == if self <= target then |target| - |self| else |target| + 1
    ensures forall i :: 0 <= i < |Bubble(target, self)| ==> Bubble(target, self)[i] == target[..|target| - i]
    decreases |target|
  {
    if target == self {
    } else if target == [] {
      assert Bubble(target, self) == [target];
    } else {
      var parent := target[..|target| - 1];
      BubbleVisits(parent, self);
      assert self <= target <==> self <= parent by {
        if self <= target {
          assert |self| < |target|;
          assert self == target[..|self|] == parent[..|self|];
        }
      }
      forall i | 0 <= i < |Bubble(target, self)| ensures Bubble(target, self)[i] == target[..|target| - i] {
        if i > 0 {
          assert Bubble(target, self)[i] == Bubble(parent, self)[i - 1];
        }
      }
    }
  }

  function Selects(page: Page, cur: Node): HandleObj -> bool {
    (h: HandleObj) => page.find(h.selector + " ", cur)
  }

  function MatchesAt(page: Page, delegates: seq<HandleObj>, isClick: bool, cur: Node): seq<Matched> {
    if IsElement(page.tree, cur) && !(page.disabled(cur) && isClick) && Filter(delegates, Selects(page, cur)) != []
    then [Matched(cur, Filter(delegates, Selects(page, cur)))] else []
  }

  function MatchesAlong(page: Page, delegates: seq<HandleObj>, isClick: bool, nodes: seq<Node>): seq<Matched> {
    if nodes == [] then []
    else MatchesAt(page, delegates, isClick, nodes[0]) + MatchesAlong(page, delegates, isClick, nodes[1..])
  }

  /** One step of the walk. */
  lemma {:induction false} MatchesStep(page: Page, delegates: seq<HandleObj>, isClick: bool, cur: Node, self: Node)
    requires cur != self
    ensures MatchesAlong(page, delegates, isClick, Bubble(cur, self))
         == MatchesAt(page, delegates, isClick, cur)
            + MatchesAlong(page, delegates, isClick, Bubble(if cur == [] then self else cur[..|cur| - 1], self))
  {
    hide MatchesAt;
  }

  lemma {:induction false} NoMatches(page: Page, delegates: seq<HandleObj>, isClick: bool, self: Node)
    ensures MatchesAlong(page, delegates, isClick, Bubble(self, self)) == []
  {
  }

  /** What should run: at each node on the way up the delegated handlers selecting it in bind order, and last the
      direct handlers in bind order. */
  ghost function Queue(page: Page, bound: seq<HandleObj>, self: Node, event: Event): seq<Matched> {
    var delegates := Filter(bound, Delegated);
    var direct := Filter(bound, Direct);
    (if delegates != [] && event.target.Some? && (event.button == 0 || !event.isClick)
     then MatchesAlong(page, delegates, event.isClick, Bubble(event.target.value, self)) else [])
    + if direct != [] then [Matched(self, direct)] else []
  }

  /** The node is passed on the way up from the target: it is the target or above it, and below `self` when the
      target is. */
  ghost predicate Passed(target: Node, self: Node, n: Node) {
    n <= target && (self <= target ==> |self| < |n|)
  }

  lemma {:induction false} BubblePasses(target: Node, self: Node, n: Node)
    ensures n in Bubble(target, self) <==> Passed(target, self, n)
  {
    hide Bubble;
    BubbleVisits(target, self);
    var path := Bubble(target, self);
    if Passed(target, self, n) {
      assert n == target[..|n|] == path[|target| - |n|];
    }
  }

  ghost predicate Runs(queue: seq<Matched>, n: Node, h: HandleObj) {
    exists i :: 0 <= i < |queue| && queue[i].elem == n && h in queue[i].handlers
  }

  lemma {:induction false} RunsConcat(a: seq<Matched>, b: seq<Matched>, n: Node, h: HandleObj)
    ensures Runs(a + b, n, h) <==> Runs(a, n, h) || Runs(b, n, h)
  {
    if i :| 0 <= i < |a| && a[i].elem == n && h in a[i].handlers {
      assert (a + b)[i] == a[i];
    }
    if i :| 0 <= i < |b| && b[i].elem == n && h in b[i].handlers {
      assert (a + b)[|a| + i] == b[i];
    }
  }

  /** A delegated handler applies at a node: an element that is not a disabled one being clicked, and selected. */
  ghost predicate Applies(page: Page, isClick: bool, n: Node, h: HandleObj) {
    IsElement(page.tree, n) && (isClick ==> !page.disabled(n)) && page.find(h.selector + " ", n)
  }

  lemma {:induction false} RunsAlong(page: Page, delegates: seq<HandleObj>, isClick: bool, nodes: seq<Node>, n: Node,
                                     h: HandleObj)
    ensures Runs(MatchesAlong(page, delegates, isClick, nodes), n, h) <==>
            n in nodes && h in delegates && Applies(page, isClick, n, h)
    decreases |nodes|
  {
    if nodes != [] {
      hide Runs;
      RunsAlong(page, delegates, isClick, nodes[1..], n, h);
      RunsAt(page, delegates, isClick, nodes[0], n, h);
      RunsConcat(MatchesAt(page, delegates, isClick, nodes[0]),
                 MatchesAlong(page, delegates, isClick, nodes[1..]), n, h);
      assert n in nodes <==> n == nodes[0] || n in nodes[1..];
    }
  }

  lemma {:induction false} RunsAt(page: Page, delegates: seq<HandleObj>, isClick: bool, cur: Node, n: Node,
                                  h: HandleObj)
    ensures Runs(MatchesAt(page, delegates, isClick, cur), n, h) <==>
            n == cur && h in delegates && Applies(page, isClick, n, h)
  {
    FilterMembers(delegates, Selects(page, cur));
    var at := MatchesAt(page, delegates, isClick, cur);
    if n == cur && h in delegates && Applies(page, isClick, n, h) {
      assert h in Filter(delegates, Selects(page, cur));
      assert at[0].elem == n && h in at[0].handlers;
    }
  }

  /** Which handlers run for an event, and for which node: the direct ones for the element itself, and a delegated one
      for each node on the way up at which it applies, unless the event is a click with another button. */
  lemma {:induction false} QueueMeans(page: Page, bound: seq<HandleObj>, self: Node, event: Event, n: Node,
                                      h: HandleObj)
    ensures Runs(Queue(page, bound, self, event), n, h) <==>
            && h in bound
            && if h.selector == "" then n == self
               else
                 && event.target.Some? && Passed(event.target.value, self, n)
                 && (event.isClick ==> event.button == 0) && Applies(page, event.isClick, n, h)
  {
    hide Runs, Applies, Passed, MatchesAlong, Bubble;
    FilterMembers(bound, Delegated);
    FilterMembers(bound, Direct);
    var delegates, direct := Filter(bound, Delegated), Filter(bound, Direct);
    var last := if direct != [] then [Matched(self, direct)] else [];
    RunsLast(self, direct, n, h);
    RunsNothing(n, h);
    if event.target.Some? {
      var nodes := Bubble(event.target.value, self);
      BubblePasses(event.target.value, self, n);
      RunsAlong(page, delegates, event.isClick, nodes, n, h);
      RunsConcat(MatchesAlong(page, delegates, event.isClick, nodes), last, n, h);
    }
    RunsConcat([], last, n, h);
  }

  lemma {:induction false} RunsNothing(n: Node, h: HandleObj)
    ensures !Runs([], n, h)
  {
  }

  lemma {:induction false} RunsLast(self: Node, direct: seq<HandleObj>, n: Node, h: HandleObj)
    ensures Runs(if direct != [] then [Matched(self, direct)] else [], n, h) <==> n == self && h in direct
  {
    if n == self && h in direct {
      assert [Matched(self, direct)][0].elem == n;
    }
  }

  /** From the inside out. */
  ghost predicate Outwards(nodes: seq<Node>) {
    forall i, j :: 0 <= i < j < |nodes| ==> nodes[j] < nodes[i]
  }

  /** The entries of a queue are for nodes of the path, from the inside out, each with its handlers in bind order. */
  ghost predicate AlongPath(page: Page, delegates: seq<HandleObj>, queue: seq<Matched>, nodes: seq<Node>) {
    && (forall i, j :: 0 <= i < j < |queue| ==> queue[j].elem < queue[i].elem)
    && (forall i :: 0 <= i < |queue| ==>
          queue[i].elem in nodes && queue[i].handlers == Filter(delegates, Selects(page, queue[i].elem)))
  }

  lemma {:induction false} AlongInOrder(page: Page, delegates: seq<HandleObj>, isClick: bool, nodes: seq<Node>)
    requires Outwards(nodes)
    ensures AlongPath(page, delegates, MatchesAlong(page, delegates, isClick, nodes), nodes)
    decreases |nodes|
  {
    hide IsElement, Filter;
    if nodes != [] {
      AlongInOrder(page, delegates, isClick, nodes[1..]);
      var rest := MatchesAlong(page, delegates, isClick, nodes[1..]);
      forall j | 0 <= j < |rest| ensures rest[j].elem < nodes[0] {
        var k :| 0 <= k < |nodes| - 1 && nodes[1..][k] == rest[j].elem;
        assert nodes[k + 1] < nodes[0];
      }
    }
  }

  lemma {:induction false} BubbleOutwards(target: Node, self: Node)
    ensures Outwards(Bubble(target, self))
  {
    hide Bubble;
    BubbleVisits(target, self);
  }

  /** What runs when: the delegated handlers from the innermost node outwards, those of one node in bind order, and the
      direct handlers in bind order at the end. */
  lemma {:induction false} QueueInOrder(page: Page, bound: seq<HandleObj>, self: Node, event: Event)
    ensures var queue, direct := Queue(page, bound, self, event), Filter(bound, Direct);
            exists along, nodes ::
              && AlongPath(page, Filter(bound, Delegated), along, nodes)
              && queue == along + if direct != [] then [Matched(self, direct)] else []
  {
    hide Filter, MatchesAlong, Bubble;
    var delegates := Filter(bound, Delegated);
    if delegates != [] && event.target.Some? && (event.button == 0 || !event.isClick) {
      var nodes := Bubble(event.target.value, self);
      BubbleOutwards(event.target.value, self);
      AlongInOrder(page, delegates, event.isClick, nodes);
    } else {
      assert AlongPath(page, delegates, [], []);
    }
  }

  class HandlerList {
    var handlers: seq<HandleObj>
    var delegateCount: nat
    ghost var history: seq<Op>

    ghost predicate Valid()
      reads this
    {
      handlers == Arranged(Bound(history)) && delegateCount == |Filter(Bound(history), Delegated)|
    }

    constructor ()
      ensures Valid() && history == []
    {
      handlers, delegateCount, history := [], 0, [];
    }

    /** The end of jQuery.event.add */
    method Add(h: HandleObj)
      requires Valid()
      modifies this
      ensures Valid() && history == old(history) + [Bind(h)]
    {
      hide Bound, Filter;
      ghost var bound := Bound(history);
      FilterSnoc(bound, h, Delegated);
      FilterSnoc(bound, h, Direct);
      if h.selector != "" {
        handlers := handlers[..delegateCount] + [h] + handlers[delegateCount..];
        delegateCount := delegateCount + 1;
      } else {
        handlers := handlers + [h];
      }
      BoundSnoc(history, Bind(h));
      history := history + [Bind(h)];
    }

    /** jQuery.event.remove for the handlers of one type */
    method Remove(c: Criteria)
      requires Valid()
      modifies this
      ensures Valid() && history == old(history) + [Unbind(c)]
    {
      hide Bound, Arranged, Filter;
      ArrangedDelegated(Bound(history));
      Unbound(history, c);
      ArrangedDelegated(Bound(history + [Unbind(c)]));
      RemoveMatching(c);
      history := history + [Unbind(c)];
    }

    /** Its loop, last first */
    method RemoveMatching(c: Criteria)
      requires delegateCount == |Filter(handlers, Delegated)|
      modifies this`handlers, this`delegateCount
      ensures handlers == Filter(old(handlers), Survives(c)) && delegateCount == |Filter(handlers, Delegated)|
    {
      hide Filter;
      ghost var before := handlers;
      var j := |handlers|;
      assert before[..j] == before;
      while j > 0
        invariant 0 <= j <= |before| && j <= |handlers| && handlers[..j] == before[..j]
        invariant Filter(before, Survives(c)) == Filter(before[..j], Survives(c)) + handlers[j..]
        invariant delegateCount == |Filter(handlers, Delegated)|
      {
        j := j - 1;
        assert before[..j + 1] == before[..j] + [before[j]];
        FilterSnoc(before[..j], before[j], Survives(c));
        assert handlers[j] == handlers[..j + 1][j] == before[j];
        if Matches(c, handlers[j]) {
          SpliceOut(j);
        }
      }
      FilterNone(Survives(c));
      assert before[..0] == [] && handlers[0..] == handlers;
    }

    method SpliceOut(j: nat)
      requires j < |handlers| && delegateCount == |Filter(handlers, Delegated)|
      modifies this`handlers, this`delegateCount
      ensures handlers == old(handlers[..j] + handlers[j + 1..]) && delegateCount == |Filter(handlers, Delegated)|
    {
      hide Filter;
      FilterWithout(handlers, j, Delegated);
      var h := handlers[j];
      handlers := handlers[..j] + handlers[j + 1..];
      if h.selector != "" {
        delegateCount := delegateCount - 1;
      }
    }

    /** The delegated handlers that select `cur`, each selector asked once */
    method MatchesOf(page: Page, cur: Node) returns (matches: seq<HandleObj>)
      requires Valid()
      ensures matches == Filter(Filter(Bound(history), Delegated), Selects(page, cur))
    {
      ghost var delegates := Filter(Bound(history), Delegated);
      var answers: map<string, bool> := map[];
      matches := [];
      for i := 0 to delegateCount
        invariant forall sel :: sel in answers ==> answers[sel] == page.find(sel, cur)
        invariant matches == Filter(delegates[..i], Selects(page, cur))
      {
        var h := handlers[i];
        assert h == delegates[i];
        var sel := h.selector + " ";
        if sel !in answers {
          answers := answers[sel := page.find(sel, cur)];
        }
        assert delegates[..i + 1] == delegates[..i] + [h];
        FilterSnoc(delegates[..i], h, Selects(page, cur));
        if answers[sel] {
          matches := matches + [h];
        }
      }
      assert delegates[..delegateCount] == delegates;
    }

    /** The walk up from the target */
    method DelegateMatches(page: Page, self: Node, isClick: bool, target: Node) returns (queue: seq<Matched>)
      requires Valid()
      ensures queue == MatchesAlong(page, Filter(Bound(history), Delegated), isClick, Bubble(target, self))
    {
      hide Valid, Filter, Bound, IsElement, MatchesAlong, Bubble;
      ghost var delegates := Filter(Bound(history), Delegated);
      ghost var all := MatchesAlong(page, delegates, isClick, Bubble(target, self));
      queue := [];
      var cur := target;
      while cur != self
        invariant all == queue + MatchesAlong(page, delegates, isClick, Bubble(cur, self))
        decreases if cur == self then 0 else |cur| + 1
      {
        MatchesStep(page, delegates, isClick, cur, self);
        ghost var before := queue;
        if IsElement(page.tree, cur) && (!page.disabled(cur) || !isClick) {
          var matches := MatchesOf(page, cur);
          if matches != [] {
            queue := queue + [Matched(cur, matches)];
          }
        }
        assert queue == before + MatchesAt(page, delegates, isClick, cur);
        var parent := ParentNode(cur);
        cur := if parent.Some? then parent.value else self;
      }
      NoMatches(page, delegates, isClick, self);
    }

    /** jQuery.event.handlers */
    method Handlers(page: Page, self: Node, event: Event) returns (queue: seq<Matched>)
      requires Valid()
      ensures queue == Queue(page, Bound(history), self, event)
    {
      hide Filter, Bound, MatchesAlong, Bubble;
      queue := [];
      if delegateCount > 0 && event.target.Some? && (event.button == 0 || !event.isClick) {
        queue := DelegateMatches(page, self, event.isClick, event.target.value);
      }
      if delegateCount < |handlers| {
        queue := queue + [Matched(self, handlers[delegateCount..])];
      }
    }
  }
}
