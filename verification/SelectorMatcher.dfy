/** Sizzle's compiled selector matchers (debian/jquery-1.9.1.js): the memoised combinator
    search, its uncached form, and the selector meaning both compute. */
module SelectorMatcher {
  import opened Common
  import opened Dom

  datatype Combinator = Combinator(dir: Direction, first: bool)

  /** A parsed selector is a list of combinators and simple filters, left to right. */
  datatype Token = Relative(comb: Combinator) | Filter(test: Node -> bool)

  /** What the outermost search was asked to search in. */
  datatype Scope = WholeDocument | Single(node: Node) | Several(nodes: set<Node>)

  /** A compiled compound: simple filters, and the combinator that is always tried last. */
  datatype Matcher = Matcher(link: Link, filters: seq<Node -> bool>)
  datatype Link = Anywhere | Combined(comb: Combinator, doneName: nat, target: Target)
  datatype Target = Context(contexts: set<Node>) | Compound(inner: Matcher)

  /** The combinator `" "`, used when a selector does not start with one. */
  const DESCENDANT := Combinator(ParentDir, false)

  function ContextsOf(scope: Scope): set<Node> {
    match scope
    case WholeDocument => {DOCUMENT}
    case Single(n) => {n}
    case Several(ns) => ns
  }

  // ----- Meaning of a selector -----

  /** Only elements count, except that a context may be any ancestor node. */
  predicate Counts(t: Tree, comb: Combinator, base: bool, n: Node) {
    IsElement(t, n) || (base && comb.dir == ParentDir)
  }

  /** `p` stands in the combinator's relation to `e`. */
  ghost predicate Related(t: Tree, comb: Combinator, base: bool, e: Node, p: Node) {
    && Beyond(comb.dir, e, p)
    && Counts(t, comb, base, p)
    && (comb.first ==>
          forall q :: Beyond(comb.dir, e, q) && Beyond(comb.dir, q, p) ==> !Counts(t, comb, base, q))
  }

  /** The four combinators between two compounds: the parent element, any ancestor element, the element just before
      and any earlier sibling element. Against the context, the parent may be any node. */
  lemma {:induction false} CombinatorMeaning(t: Tree, e: Node, p: Node)
    ensures Related(t, Combinator(ParentDir, true), false, e, p) <==>
            p < e && IsElement(t, p) && NoElementBetween(t, p, e)
    ensures Related(t, Combinator(ParentDir, false), false, e, p) <==> p < e && IsElement(t, p)
    ensures Related(t, Combinator(PreviousDir, true), false, e, p) <==>
            && Beyond(PreviousDir, e, p) && IsElement(t, p)
            && forall k :: p[|p| - 1] < k < e[|e| - 1] ==> !IsElement(t, Sibling(e, k))
    ensures Related(t, Combinator(PreviousDir, false), false, e, p) <==> Beyond(PreviousDir, e, p) && IsElement(t, p)
    ensures Related(t, Combinator(ParentDir, true), true, e, p) <==> e != [] && p == e[..|e| - 1]
    ensures Related(t, DESCENDANT, true, e, p) <==> p < e
  {
    NearestSibling(t, e, p);
    NearestParent(t, e, p);
    NearestElement(t, e, p);
  }

  ghost predicate NoElementBetween(t: Tree, p: Node, e: Node) {
    forall q :: p < q < e ==> !IsElement(t, q)
  }

  lemma {:induction false} NearestElement(t: Tree, e: Node, p: Node)
    ensures Related(t, Combinator(ParentDir, true), false, e, p) <==>
            p < e && IsElement(t, p) && NoElementBetween(t, p, e)
  {
    var comb := Combinator(ParentDir, true);
    if Related(t, comb, false, e, p) {
      forall q | p < q < e ensures !IsElement(t, q) {
        assert Beyond(ParentDir, e, q) && Beyond(ParentDir, q, p);
      }
    }
    if p < e && IsElement(t, p) && NoElementBetween(t, p, e) {
      forall q | Beyond(ParentDir, e, q) && Beyond(ParentDir, q, p) ensures !Counts(t, comb, false, q) {
        assert p < q < e;
      }
    }
  }

  lemma {:induction false} NearestParent(t: Tree, e: Node, p: Node)
    ensures Related(t, Combinator(ParentDir, true), true, e, p) <==> e != [] && p == e[..|e| - 1]
  {
    hide IsElement;
    if e != [] {
      var q := e[..|e| - 1];
      if p < e && p != q {
        assert Beyond(ParentDir, e, q) && Beyond(ParentDir, q, p);
      }
    }
  }

  lemma {:induction false} NearestSibling(t: Tree, e: Node, p: Node)
    ensures Related(t, Combinator(PreviousDir, true), false, e, p) <==>
            && Beyond(PreviousDir, e, p) && IsElement(t, p)
            && forall k :: p[|p| - 1] < k < e[|e| - 1] ==> !IsElement(t, Sibling(e, k))
  {
    hide IsElement;
    var comb := Combinator(PreviousDir, true);
    if Beyond(PreviousDir, e, p) {
      if Related(t, comb, false, e, p) {
        forall k | p[|p| - 1] < k < e[|e| - 1] ensures !IsElement(t, Sibling(e, k)) {
          var q := Sibling(e, k);
          assert Beyond(PreviousDir, e, q) && Beyond(PreviousDir, q, p);
        }
      }
      forall q | Beyond(PreviousDir, e, q) && Beyond(PreviousDir, q, p) ensures q == Sibling(e, q[|q| - 1]) {
        assert q == q[..|q| - 1] + [q[|q| - 1]];
      }
    }
  }

  ghost predicate InScope(t: Tree, comb: Combinator, scope: Scope, e: Node) {
    exists p :: Related(t, comb, true, e, p) && p in ContextsOf(scope)
  }

  /** A search in several nodes is a search in any of them, one in a single node asks for it, and one in the whole
      document for anything below the document node. */
  lemma {:induction false} ScopeMeaning(t: Tree, comb: Combinator, n: Node, ns: set<Node>, e: Node)
    ensures InScope(t, comb, Single(n), e) <==> Related(t, comb, true, e, n)
    ensures InScope(t, comb, Several(ns), e) <==> exists m :: m in ns && InScope(t, comb, Single(m), e)
    ensures InScope(t, DESCENDANT, WholeDocument, e) <==> e != []
  {
    hide IsElement;
    if InScope(t, comb, Several(ns), e) {
      var p :| Related(t, comb, true, e, p) && p in ns;
      assert p in ContextsOf(Single(p)) && InScope(t, comb, Single(p), e);
    }
    if m :| m in ns && InScope(t, comb, Single(m), e) {
      assert Related(t, comb, true, e, m) && m in ContextsOf(Several(ns));
    }
    if e != [] {
      assert Related(t, DESCENDANT, true, e, DOCUMENT);
    }
  }

  /** The selector read right to left, as Selectors Level 3 defines combinators. */
  ghost predicate Selects(t: Tree, tokens: seq<Token>, scope: Scope, e: Node)
    decreases |tokens|
  {
    if tokens == [] then
      scope == WholeDocument || InScope(t, DESCENDANT, scope, e)
    else
      var rest := tokens[..|tokens| - 1];
      match tokens[|tokens| - 1]
      case Filter(test) => test(e) && Selects(t, rest, scope, e)
      case Relative(comb) =>
        if rest == [] then InScope(t, comb, scope, e)
        else exists p :: Related(t, comb, false, e, p) && Selects(t, rest, scope, p)
  }

  // ----- The uncached search -----

  ghost predicate Passes(filters: seq<Node -> bool>, n: Node) {
    forall i :: 0 <= i < |filters| ==> filters[i](n)
  }

  /** An uncached compound test: every filter, then the combinator. */
  ghost predicate Matches(t: Tree, m: Matcher, n: Node)
    decreases m
  {
    Passes(m.filters, n) && LinkMatches(t, m.link, n)
  }

  ghost predicate Hit(t: Tree, target: Target, n: Node)
    decreases target
  {
    match target
    case Context(contexts) => n in contexts
    case Compound(inner) => Matches(t, inner, n)
  }

  /** The search of the `xml` branch: walk in one direction and try every node that counts. */
  ghost predicate LinkMatches(t: Tree, link: Link, n: Node)
    decreases link, Weight(n)
  {
    match link
    case Anywhere => true
    case Combined(comb, _, target) =>
      NextDescends(comb.dir, n);
      match Next(comb.dir, n)
      case None => false
      case Some(p) =>
        if !Counts(t, comb, target.Context?, p) then LinkMatches(t, link, p)
        else if comb.first then Hit(t, target, p)
        else Hit(t, target, p) || LinkMatches(t, link, p)
  }

  /** The walk finds a match exactly when some node stands in the combinator's relation and matches. */
  lemma {:induction false} SearchMeansRelated(t: Tree, link: Link, e: Node)
    requires link.Combined?
    ensures LinkMatches(t, link, e) <==>
            exists p :: Related(t, link.comb, link.target.Context?, e, p) && Hit(t, link.target, p)
    decreases Weight(e)
  {
    var comb, base := link.comb, link.target.Context?;
    forall p ensures Beyond(comb.dir, e, p) <==>
                     Next(comb.dir, e).Some? &&
                     (p == Next(comb.dir, e).value || Beyond(comb.dir, Next(comb.dir, e).value, p))
    {
      BeyondUnfolds(comb.dir, e, p);
    }
    if Next(comb.dir, e).Some? {
      var q := Next(comb.dir, e).value;
      NextDescends(comb.dir, e);
      SearchMeansRelated(t, link, q);
      RelatedUnfolds(t, comb, base, e, q);
    }
  }

  lemma RelatedUnfolds(t: Tree, comb: Combinator, base: bool, e: Node, q: Node)
    requires Next(comb.dir, e) == Some(q)
    ensures Counts(t, comb, base, q) ==> Related(t, comb, base, e, q)
    ensures forall p :: p != q ==>
              (Related(t, comb, base, e, p) <==>
               Related(t, comb, base, q, p) && (comb.first ==> !Counts(t, comb, base, q)))
  {
    forall p ensures Beyond(comb.dir, e, p) <==> p == q || Beyond(comb.dir, q, p) {
      BeyondUnfolds(comb.dir, e, p);
    }
    assert forall p :: !(Beyond(comb.dir, q, p) && Beyond(comb.dir, p, q));
    assert !Beyond(comb.dir, q, q);
  }

  // ----- The per-node cache -----

  /** `cache[1]`: unset while the inner matcher runs, `true`, or the run in which the node failed. */
  datatype Data = Pending | Matched | Failed(run: nat)

  /** The array stored at `elem[expando][dir]`; its key is the pair (dirruns, doneName). */
  datatype Slot = Slot(dirruns: nat, doneName: nat, data: Data)

  type Cache = map<(Node, Direction), Slot>

  ghost function LinkNames(link: Link): set<nat> {
    match link
    case Anywhere => {}
    case Combined(_, name, Context(_)) => {name}
    case Combined(_, name, Compound(inner)) => {name} + LinkNames(inner.link)
  }

  /** No combinator shares its name with one nested inside it. */
  ghost predicate WellNamed(link: Link) {
    link.Combined? && link.target.Compound? ==>
      link.doneName !in LinkNames(link.target.inner.link) && WellNamed(link.target.inner.link)
  }

  predicate Keyed(cache: Cache, dirruns: nat, link: Link, n: Node)
    requires link.Combined?
  {
    && (n, link.comb.dir) in cache
    && cache[(n, link.comb.dir)].dirruns == dirruns
    && cache[(n, link.comb.dir)].doneName == link.doneName
  }

  /** What a finished slot says about its own node. */
  ghost predicate SlotSound(t: Tree, link: Link, n: Node, data: Data, run: nat)
    requires link.Combined?
  {
    match data
    case Pending => false
    case Matched => Hit(t, link.target, n)
    case Failed(k) => k <= run && !Hit(t, link.target, n)
  }

  ghost predicate Sound(t: Tree, link: Link, cache: Cache, dirruns: nat, run: nat)
    requires link.Combined?
  {
    forall n :: Keyed(cache, dirruns, link, n) ==>
      SlotSound(t, link, n, cache[(n, link.comb.dir)].data, run)
  }

  /** A node that failed in this very run has nothing matching beyond it either. */
  ghost predicate Exhausted(t: Tree, link: Link, cache: Cache, dirruns: nat, run: nat)
    requires link.Combined?
  {
    forall n :: Keyed(cache, dirruns, link, n) && cache[(n, link.comb.dir)].data == Failed(run) ==>
      !LinkMatches(t, link, n)
  }

  /** Every slot of the combinator and of those nested in it is sound and, if `idle`,
      its early exit is justified as well. */
  ghost predicate CacheOk(t: Tree, link: Link, cache: Cache, dirruns: nat, run: nat, idle: bool)
    decreases link
  {
    link.Combined? ==>
      && Sound(t, link, cache, dirruns, run)
      && (idle ==> Exhausted(t, link, cache, dirruns, run))
      && (link.target.Compound? ==> CacheOk(t, link.target.inner.link, cache, dirruns, run, idle))
  }

  /** Only slots of the given names were written, and only at nodes that rank below `bound`. */
  ghost predicate OnlyTouched(before: Cache, after: Cache, dirruns: nat, names: set<nat>, bound: nat) {
    && (forall k :: k in before ==> k in after)
    && (forall k :: k in after ==>
          || (k in before && after[k] == before[k])
          || (after[k].dirruns == dirruns && after[k].doneName in names && Weight(k.0) < bound))
  }

  lemma OwnSlotsKept(link: Link, before: Cache, after: Cache, dirruns: nat, names: set<nat>, bound: nat)
    requires link.Combined? && link.doneName !in names
    requires OnlyTouched(before, after, dirruns, names, bound)
    ensures forall n :: Keyed(after, dirruns, link, n) ==>
              Keyed(before, dirruns, link, n) && before[(n, link.comb.dir)] == after[(n, link.comb.dir)]
  {
    forall n | Keyed(after, dirruns, link, n)
      ensures Keyed(before, dirruns, link, n) && before[(n, link.comb.dir)] == after[(n, link.comb.dir)]
    {
      assert (n, link.comb.dir) in after;
    }
  }

  lemma {:induction false} OneSlotTouched(cache: Cache, key: (Node, Direction), slot: Slot, bound: nat)
    requires Weight(key.0) < bound
    ensures OnlyTouched(cache, cache[key := slot], slot.dirruns, {slot.doneName}, bound)
  {
  }

  lemma {:induction false} OwnNameApart(link: Link)
    requires WellNamed(link) && link.Combined? && link.target.Compound?
    ensures WellNamed(link.target.inner.link) && {link.doneName} !! LinkNames(link.target.inner.link)
  {
  }

  ghost function InnerNames(link: Link): set<nat>
    requires link.Combined?
  {
    if link.target.Compound? then LinkNames(link.target.inner.link) else {}
  }

  /** The two writes around the inner run leave the slot of `p` sound and every other slot of the link as it was. */
  lemma {:induction false} SlotWritten(t: Tree, link: Link, p: Node, hit: bool, c0: Cache, c2: Cache,
                                       dirruns: nat, run: nat)
    requires link.Combined? && WellNamed(link) && hit == Hit(t, link.target, p) && Sound(t, link, c0, dirruns, run)
    requires OnlyTouched(c0[(p, link.comb.dir) := Slot(dirruns, link.doneName, Pending)], c2, dirruns,
                         InnerNames(link), Weight(p))
    ensures var after := c2[(p, link.comb.dir) := Slot(dirruns, link.doneName, if hit then Matched else Failed(run))];
            && OnlyTouched(c0, after, dirruns, LinkNames(link), Weight(p) + 1)
            && Sound(t, link, after, dirruns, run) && Keyed(after, dirruns, link, p)
            && forall n :: n != p && Keyed(after, dirruns, link, n) ==>
                 Keyed(c0, dirruns, link, n) && c0[(n, link.comb.dir)] == after[(n, link.comb.dir)]
  {
    hide Hit, Weight;
    var c1 := c0[(p, link.comb.dir) := Slot(dirruns, link.doneName, Pending)];
    OwnSlotsKept(link, c1, c2, dirruns, InnerNames(link), Weight(p));
  }

  lemma {:induction false} CacheOkKept(t: Tree, link: Link, before: Cache, after: Cache, dirruns: nat,
                                       names: set<nat>, bound: nat, run: nat, idle: bool)
    requires OnlyTouched(before, after, dirruns, names, bound)
    requires names !! LinkNames(link)
    requires CacheOk(t, link, before, dirruns, run, idle)
    ensures CacheOk(t, link, after, dirruns, run, idle)
    decreases link
  {
    if link.Combined? {
      OwnSlotsKept(link, before, after, dirruns, names, bound);
      if link.target.Compound? {
        CacheOkKept(t, link.target.inner.link, before, after, dirruns, names, bound, run, idle);
      }
    }
  }

  lemma {:induction false} CacheOkWeakens(t: Tree, link: Link, cache: Cache, dirruns: nat, run: nat)
    requires CacheOk(t, link, cache, dirruns, run, true)
    ensures CacheOk(t, link, cache, dirruns, run, false)
    decreases link
  {
    if link.Combined? && link.target.Compound? {
      CacheOkWeakens(t, link.target.inner.link, cache, dirruns, run);
    }
  }

  /** A new run makes every failure an old one, so no early exit is left to justify. */
  lemma {:induction false} CacheOkNextRun(t: Tree, link: Link, cache: Cache, dirruns: nat, run: nat, idle: bool)
    requires CacheOk(t, link, cache, dirruns, run, idle)
    ensures CacheOk(t, link, cache, dirruns, run + 1, true)
    decreases link
  {
    if link.Combined? && link.target.Compound? {
      CacheOkNextRun(t, link.target.inner.link, cache, dirruns, run, idle);
    }
  }

  lemma {:induction false} CacheOkFresh(t: Tree, link: Link, cache: Cache, dirruns: nat, run: nat)
    requires forall k :: k in cache ==> cache[k].dirruns < dirruns
    ensures CacheOk(t, link, cache, dirruns, run, true)
    decreases link
  {
    if link.Combined? && link.target.Compound? {
      CacheOkFresh(t, link.target.inner.link, cache, dirruns, run);
    }
  }

  class Sizzle {
    var cache: Cache
    var dirruns: nat
    var cachedruns: nat
    var done: nat

    ghost predicate Valid()
      reads this
    {
      forall k :: k in cache ==> cache[k].dirruns <= dirruns
    }

    constructor ()
      ensures Valid() && cache == map[] && dirruns == done == 0
    {
      cache, dirruns, cachedruns, done := map[], 0, 0, 0;
    }

    /** An element test of a compiled compound (elementMatcher): filters from the last, combinator last. */
    method MatchElement(t: Tree, m: Matcher, elem: Node) returns (r: bool)
      requires WellNamed(m.link)
      requires CacheOk(t, m.link, cache, dirruns, cachedruns, true)
      modifies this`cache
      ensures r == Matches(t, m, elem)
      ensures OnlyTouched(old(cache), cache, dirruns, LinkNames(m.link), Weight(elem))
      ensures CacheOk(t, m.link, cache, dirruns, cachedruns, !r)
      decreases m, 0
    {
      var i := |m.filters|;
      while i > 0
        invariant 0 <= i <= |m.filters|
        invariant forall j :: i <= j < |m.filters| ==> m.filters[j](elem)
        invariant cache == old(cache)
      {
        i := i - 1;
        if !m.filters[i](elem) {
          return false;
        }
      }
      if m.link.Anywhere? {
        return true;
      } else if m.link.comb.first {
        r := MatchFirst(t, m.link, elem);
      } else {
        r := MatchAny(t, m.link, elem);
      }
    }

    method MatchTarget(t: Tree, target: Target, elem: Node) returns (r: bool)
      requires target.Compound? ==> WellNamed(target.inner.link)
      requires target.Compound? ==> CacheOk(t, target.inner.link, cache, dirruns, cachedruns, true)
      modifies this`cache
      ensures r == Hit(t, target, elem)
      ensures OnlyTouched(old(cache), cache, dirruns,
                          if target.Compound? then LinkNames(target.inner.link) else {}, Weight(elem))
      ensures target.Compound? ==> CacheOk(t, target.inner.link, cache, dirruns, cachedruns, !r)
      decreases target
    {
      match target
      case Context(contexts) => r := elem in contexts;
      case Compound(inner) => r := MatchElement(t, inner, elem);
    }

    /** The combinators `>` and `+`: only the closest node that counts is tried. */
    method MatchFirst(t: Tree, link: Link, elem: Node) returns (r: bool)
      requires link.Combined? && link.comb.first
      requires WellNamed(link)
      requires CacheOk(t, link, cache, dirruns, cachedruns, true)
      modifies this`cache
      ensures r == LinkMatches(t, link, elem)
      ensures OnlyTouched(old(cache), cache, dirruns, LinkNames(link), Weight(elem))
      ensures CacheOk(t, link, cache, dirruns, cachedruns, !r)
      decreases link
    {
      var cur := elem;
      while Next(link.comb.dir, cur).Some?
        invariant cache == old(cache)
        invariant Weight(cur) <= Weight(elem)
        invariant LinkMatches(t, link, cur) == LinkMatches(t, link, elem)
        decreases Weight(cur)
      {
        NextDescends(link.comb.dir, cur);
        cur := Next(link.comb.dir, cur).value;
        if Counts(t, link.comb, link.target.Context?, cur) {
          r := MatchTarget(t, link.target, cur);
          OwnSlotsKept(link, old(cache), cache, dirruns, LinkNames(link) - {link.doneName}, Weight(cur));
          return;
        }
      }
      return false;
    }

    /** The combinators `" "` and `~`: every node that counts is tried, through the cache. */
    method MatchAny(t: Tree, link: Link, elem: Node) returns (r: bool)
      requires link.Combined? && !link.comb.first
      requires WellNamed(link)
      requires CacheOk(t, link, cache, dirruns, cachedruns, true)
      modifies this`cache
      ensures r == LinkMatches(t, link, elem)
      ensures OnlyTouched(old(cache), cache, dirruns, LinkNames(link), Weight(elem))
      ensures CacheOk(t, link, cache, dirruns, cachedruns, !r)
      decreases link, 1
    {
      var cur := elem;
      while Next(link.comb.dir, cur).Some?
        invariant OnlyTouched(old(cache), cache, dirruns, LinkNames(link), Weight(elem))
        invariant Weight(cur) <= Weight(elem)
        invariant LinkMatches(t, link, cur) == LinkMatches(t, link, elem)
        invariant Sound(t, link, cache, dirruns, cachedruns)
        invariant Walking(t, link, cur)
        invariant link.target.Compound? ==> CacheOk(t, link.target.inner.link, cache, dirruns, cachedruns, true)
        decreases Weight(cur)
      {
        NextDescends(link.comb.dir, cur);
        var p := Next(link.comb.dir, cur).value;
        if Counts(t, link.comb, link.target.Context?, p) {
          if Keyed(cache, dirruns, link, p) {
            var data := cache[(p, link.comb.dir)].data;
            if data == Matched || data == Failed(cachedruns) {
              if data == Matched && link.target.Compound? {
                CacheOkWeakens(t, link.target.inner.link, cache, dirruns, cachedruns);
              }
              return data == Matched;
            }
          } else {
            var hit := TryNode(t, link, p);
            if hit {
              return true;
            }
          }
        }
        cur := p;
      }
      return false;
    }

    /** During a walk: a node that failed in this run and still has a match beyond it
        was passed in this very walk. */
    ghost predicate Walking(t: Tree, link: Link, cur: Node)
      requires link.Combined?
      reads this
    {
      forall n :: Keyed(cache, dirruns, link, n) && cache[(n, link.comb.dir)].data == Failed(cachedruns) ==>
        !LinkMatches(t, link, n) || (LinkMatches(t, link, cur) && Weight(cur) <= Weight(n))
    }

    /** Runs the inner matcher at a node without a slot and records the answer in its slot. */
    method TryNode(t: Tree, link: Link, p: Node) returns (hit: bool)
      requires link.Combined? && !link.comb.first && WellNamed(link)
      requires Sound(t, link, cache, dirruns, cachedruns)
      requires link.target.Compound? ==> CacheOk(t, link.target.inner.link, cache, dirruns, cachedruns, true)
      modifies this`cache
      ensures hit == Hit(t, link.target, p)
      ensures OnlyTouched(old(cache), cache, dirruns, LinkNames(link), Weight(p) + 1)
      ensures Sound(t, link, cache, dirruns, cachedruns)
      ensures forall n :: n != p && Keyed(cache, dirruns, link, n) ==>
                old(Keyed(cache, dirruns, link, n)) && old(cache)[(n, link.comb.dir)] == cache[(n, link.comb.dir)]
      ensures Keyed(cache, dirruns, link, p)
      ensures link.target.Compound? ==> CacheOk(t, link.target.inner.link, cache, dirruns, cachedruns, !hit)
      decreases link, 0
    {
      hide OnlyTouched, Sound, CacheOk, LinkNames, Hit, Weight;
      var key := (p, link.comb.dir);
      ghost var c0 := cache;
      cache := cache[key := Slot(dirruns, link.doneName, Pending)];
      ghost var c1 := cache;
      OneSlotTouched(c0, key, c1[key], Weight(p) + 1);
      if link.target.Compound? {
        OwnNameApart(link);
        CacheOkKept(t, link.target.inner.link, c0, c1, dirruns, {link.doneName}, Weight(p) + 1, cachedruns, true);
      }
      hit := MatchTarget(t, link.target, p);
      ghost var c2 := cache;
      cache := cache[key := Slot(dirruns, link.doneName, if hit then Matched else Failed(cachedruns))];
      OneSlotTouched(c2, key, cache[key], Weight(p) + 1);
      if link.target.Compound? {
        CacheOkKept(t, link.target.inner.link, c2, cache, dirruns, {link.doneName}, Weight(p) + 1, cachedruns, !hit);
      }
      SlotWritten(t, link, p, hit, c0, c2, dirruns, cachedruns);
    }

    /** Compiles a token list (matcherFromTokens). */
    method MatcherFromTokens(tokens: seq<Token>, scope: Scope) returns (m: Matcher)
      requires tokens != []
      modifies this`done
      ensures done >= old(done) && Between(LinkNames(m.link), old(done), done)
      ensures WellNamed(m.link)
      ensures forall t, e :: Matches(t, m, e) <==> Selects(t, tokens, scope, e)
    {
      var leading := tokens[0].Relative?;
      var implicit := if leading then tokens[0].comb else DESCENDANT;
      var i := if leading then 1 else 0;
      var matchContext, matchAnyContext := done, done + 1;
      done := done + 2;
      var link := if !leading && scope == WholeDocument then Anywhere
                  else Combined(implicit, if scope.Several? then matchAnyContext else matchContext,
                                Context(ContextsOf(scope)));
      var filters := [];
      ContextMeaning(link, implicit, scope);
      while i < |tokens|
        invariant 0 <= i <= |tokens| && (i == 0 ==> !leading)
        invariant done >= old(done) + 2
        invariant Between(LinkNames(link), old(done), done)
        invariant WellNamed(link)
        invariant forall t, e :: Matches(t, Matcher(link, filters), e) <==> Selects(t, tokens[..i], scope, e)
      {
        assert tokens[..i + 1] == tokens[..i] + [tokens[i]];
        match tokens[i] {
          case Relative(comb) =>
            RelativeMeaning(Matcher(link, filters), tokens[..i], comb, done, scope);
            link := Combined(comb, done, Compound(Matcher(link, filters)));
            done, filters := done + 1, [];
          case Filter(test) =>
            FilterMeaning(link, filters, tokens[..i], test, scope);
            filters := filters + [test];
        }
        i := i + 1;
      }
      assert tokens[..i] == tokens;
      m := Matcher(link, filters);
    }

    /** The element loop of the outermost superMatcher: each element is one run, and the first
        group that accepts it ends the run. */
    method SuperMatcher(t: Tree, matchers: seq<Matcher>, elems: seq<Node>, matcherCachedRuns: nat)
      returns (results: seq<Node>, runs: nat)
      requires Valid()
      requires forall k :: 0 <= k < |matchers| ==> WellNamed(matchers[k].link)
      requires Apart(matchers)
      modifies this`cache, this`dirruns, this`cachedruns
      ensures Valid() && dirruns == old(dirruns) + 1
      ensures results == Picked(t, matchers, elems)
      ensures runs == matcherCachedRuns + |elems|
    {
      dirruns, cachedruns, runs := dirruns + 1, matcherCachedRuns, matcherCachedRuns;
      forall k | 0 <= k < |matchers| ensures CacheOk(t, matchers[k].link, cache, dirruns, runs, true) {
        CacheOkFresh(t, matchers[k].link, cache, dirruns, runs);
      }
      results := [];
      for i := 0 to |elems|
        invariant Valid() && dirruns == old(dirruns) + 1
        invariant cachedruns == runs == matcherCachedRuns + i
        invariant AllOk(t, matchers, true)
        invariant results == Picked(t, matchers, elems[..i])
      {
        assert elems[..i + 1][..i] == elems[..i];
        var hit := MatchGroups(t, matchers, elems[i]);
        if hit {
          results := results + [elems[i]];
        }
        forall k | 0 <= k < |matchers| ensures CacheOk(t, matchers[k].link, cache, dirruns, runs + 1, true) {
          CacheOkNextRun(t, matchers[k].link, cache, dirruns, runs, !hit);
        }
        runs := runs + 1;
        cachedruns := runs;
      }
      assert elems[..|elems|] == elems;
    }

    ghost predicate AllOk(t: Tree, matchers: seq<Matcher>, idle: bool)
      reads this
    {
      forall k :: 0 <= k < |matchers| ==> CacheOk(t, matchers[k].link, cache, dirruns, cachedruns, idle)
    }

    /** One run: the groups of the selector in turn, up to the first that accepts. */
    method MatchGroups(t: Tree, matchers: seq<Matcher>, elem: Node) returns (hit: bool)
      requires Valid() && AllOk(t, matchers, true)
      requires forall k :: 0 <= k < |matchers| ==> WellNamed(matchers[k].link)
      requires Apart(matchers)
      modifies this`cache
      ensures Valid() && AllOk(t, matchers, !hit)
      ensures hit <==> exists k :: 0 <= k < |matchers| && Matches(t, matchers[k], elem)
    {
      for j := 0 to |matchers|
        invariant Valid() && AllOk(t, matchers, true)
        invariant forall k :: 0 <= k < j ==> !Matches(t, matchers[k], elem)
      {
        ghost var before := cache;
        hit := MatchElement(t, matchers[j], elem);
        forall k | 0 <= k < |matchers| ensures CacheOk(t, matchers[k].link, cache, dirruns, cachedruns, !hit) {
          if k != j {
            CacheOkKept(t, matchers[k].link, before, cache, dirruns, LinkNames(matchers[j].link), Weight(elem),
                        cachedruns, true);
            CacheOkWeakens(t, matchers[k].link, cache, dirruns, cachedruns);
          }
        }
        if hit {
          return;
        }
      }
      return false;
    }

    /** Compiles the groups of a selector and runs them over the candidate elements. */
    method Select(t: Tree, groups: seq<seq<Token>>, scope: Scope, elems: seq<Node>) returns (results: seq<Node>)
      requires Valid()
      requires forall k :: 0 <= k < |groups| ==> groups[k] != []
      modifies this
      ensures Valid()
      ensures results == Selected(t, groups, scope, elems)
    {
      var matchers: seq<Matcher> := [];
      for i := 0 to |groups|
        invariant |matchers| == i && Valid()
        invariant forall k :: 0 <= k < i ==> WellNamed(matchers[k].link)
        invariant forall k :: 0 <= k < i ==> Between(LinkNames(matchers[k].link), 0, done)
        invariant Apart(matchers)
        invariant forall k, t, e :: 0 <= k < i ==> (Matches(t, matchers[k], e) <==> Selects(t, groups[k], scope, e))
      {
        var m := MatcherFromTokens(groups[i], scope);
        matchers := matchers + [m];
      }
      var runs;
      results, runs := SuperMatcher(t, matchers, elems, 0);
      PickedIsSelected(t, matchers, groups, scope, elems);
    }
  }

  /** Different groups never share a combinator name. */
  ghost predicate Apart(matchers: seq<Matcher>) {
    forall j, k :: 0 <= j < |matchers| && 0 <= k < |matchers| && j != k ==>
      LinkNames(matchers[j].link) !! LinkNames(matchers[k].link)
  }

  /** The elements the uncached matchers accept, in order. */
  ghost function Picked(t: Tree, matchers: seq<Matcher>, elems: seq<Node>): seq<Node> {
    if elems == [] then []
    else
      var e := elems[|elems| - 1];
      Picked(t, matchers, elems[..|elems| - 1]) +
      (if exists k :: 0 <= k < |matchers| && Matches(t, matchers[k], e) then [e] else [])
  }

  /** The elements that some group of the selector selects, in order. */
  ghost function Selected(t: Tree, groups: seq<seq<Token>>, scope: Scope, elems: seq<Node>): seq<Node> {
    if elems == [] then []
    else
      var e := elems[|elems| - 1];
      Selected(t, groups, scope, elems[..|elems| - 1]) +
      (if exists k :: 0 <= k < |groups| && Selects(t, groups[k], scope, e) then [e] else [])
  }

  lemma {:induction false} PickedIsSelected(t: Tree, matchers: seq<Matcher>, groups: seq<seq<Token>>, scope: Scope,
                                            elems: seq<Node>)
    requires |matchers| == |groups|
    requires forall k, e :: 0 <= k < |groups| ==> (Matches(t, matchers[k], e) <==> Selects(t, groups[k], scope, e))
    ensures Picked(t, matchers, elems) == Selected(t, groups, scope, elems)
  {
    if elems != [] {
      PickedIsSelected(t, matchers, groups, scope, elems[..|elems| - 1]);
    }
  }

  ghost predicate Between(names: set<nat>, lo: nat, hi: nat) {
    forall k :: k in names ==> lo <= k < hi
  }

  /** Pushing a filter adds one conjunct. */
  lemma FilterMeaning(link: Link, filters: seq<Node -> bool>, rest: seq<Token>, test: Node -> bool, scope: Scope)
    requires forall t, e :: Matches(t, Matcher(link, filters), e) <==> Selects(t, rest, scope, e)
    ensures forall t, e :: Matches(t, Matcher(link, filters + [test]), e) <==>
                           Selects(t, rest + [Filter(test)], scope, e)
  {
    assert (rest + [Filter(test)])[..|rest|] == rest;
    forall t, e ensures Matches(t, Matcher(link, filters + [test]), e) <==>
                        test(e) && Matches(t, Matcher(link, filters), e)
    {
      assert forall j :: 0 <= j < |filters| ==> (filters + [test])[j] == filters[j];
      assert (filters + [test])[|filters|] == test;
    }
  }

  /** Wrapping the compound so far in a combinator steps to a related node. */
  lemma RelativeMeaning(inner: Matcher, rest: seq<Token>, comb: Combinator, name: nat, scope: Scope)
    requires rest != []
    requires forall t, e :: Matches(t, inner, e) <==> Selects(t, rest, scope, e)
    ensures forall t, e :: Matches(t, Matcher(Combined(comb, name, Compound(inner)), []), e) <==>
                           Selects(t, rest + [Relative(comb)], scope, e)
  {
    assert (rest + [Relative(comb)])[..|rest|] == rest;
    var link := Combined(comb, name, Compound(inner));
    forall t, e ensures Matches(t, Matcher(link, []), e) <==> Selects(t, rest + [Relative(comb)], scope, e) {
      SearchMeansRelated(t, link, e);
      assert forall p :: Hit(t, link.target, p) <==> Selects(t, rest, scope, p);
    }
  }

  /** The foundational matcher tests the scope. */
  lemma ContextMeaning(link: Link, comb: Combinator, scope: Scope)
    requires link.Combined? ==> link.comb == comb && link.target == Context(ContextsOf(scope))
    ensures link.Combined? ==> forall t, e :: LinkMatches(t, link, e) <==> InScope(t, comb, scope, e)
  {
    if link.Combined? {
      forall t, e ensures LinkMatches(t, link, e) <==> InScope(t, comb, scope, e) {
        SearchMeansRelated(t, link, e);
        assert forall p :: Hit(t, link.target, p) <==> p in ContextsOf(scope);
      }
    }
  }
}