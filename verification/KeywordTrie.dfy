/** The keyword trie of Source/JavaScriptCore/KeywordLookupGenerator.py: insertion,
    path compression and ordering by weight, and what a lookup in it means. */
module KeywordTrie {
  import opened Common

  /** Keywords are written in ASCII; the text they are looked up in is not. */
  type Letter = c: nat | c < 128
  type Word = seq<Letter>
  type Text = seq<nat>
  type Token = string

  /** `keys` lists the children in dictionary order; a child's key is its own `prefix`.
      `fullPrefix` and `weight` are set by FillOut and are empty before. */
  datatype Trie = Trie(prefix: Word, keys: seq<Trie>, value: Option<Token>, fullPrefix: Word, weight: real)

  function NewTrie(prefix: Word): Trie {
    Trie(prefix, [], None, [], 0.0)
  }

  // ----- Lookup -----

  /** The position of the child that starts with `c`, or the number of children. */
  function Branch(keys: seq<Trie>, c: nat): (i: nat)
    ensures i <= |keys|
    ensures i < |keys| ==> Head(keys[i]) == c
    ensures forall j :: 0 <= j < i ==> Head(keys[j]) != c
  {
    if keys == [] || Head(keys[0]) == c then 0
    else 1 + Branch(keys[1..], c)
  }

  /** The token stored for the word that continues this node's path by `w`. */
  function Find(t: Trie, w: Text): Option<Token>
    decreases |w|
  {
    if w == [] then t.value
    else
      var i := Branch(t.keys, w[0]);
      if i < |t.keys| then FindFrom(t.keys[i], w) else None
  }

  /** The same, with the node's own edge still to be consumed. */
  function FindFrom(t: Trie, w: Text): Option<Token>
    requires t.prefix != []
    decreases |w|, 0
  {
    if t.prefix <= w then Find(t, w[|t.prefix|..]) else None
  }

  /** Edges are never empty, and siblings start with different units. */
  ghost predicate Forked(t: Trie) {
    && DistinctHeads(t.keys)
    && forall i :: 0 <= i < |t.keys| ==> Forked(t.keys[i])
  }

  ghost predicate DistinctHeads(keys: seq<Trie>) {
    && (forall i :: 0 <= i < |keys| ==> keys[i].prefix != [])
    && (forall i, j :: 0 <= i < j < |keys| ==> Head(keys[i]) != Head(keys[j]))
  }

  function Head(t: Trie): int {
    if t.prefix == [] then -1 else t.prefix[0]
  }

  /** As long as words are being inserted every edge carries one unit. */
  ghost predicate Plain(t: Trie) {
    forall i :: 0 <= i < |t.keys| ==> |t.keys[i].prefix| == 1 && Plain(t.keys[i])
  }

  // ----- Insertion -----

  function Insert(t: Trie, key: Word, value: Token): Trie
    decreases |key|
  {
    if key == [] then t.(value := Some(value))
    else
      var i := Branch(t.keys, key[0]);
      if i < |t.keys| then t.(keys := t.keys[i := Insert(t.keys[i], key[1..], value)])
      else t.(keys := t.keys + [Insert(NewTrie([key[0]]), key[1..], value)])
  }

  lemma {:induction false} InsertKeepsShape(t: Trie, key: Word, value: Token)
    requires Forked(t) && Plain(t)
    ensures Forked(Insert(t, key, value)) && Plain(Insert(t, key, value))
    ensures Insert(t, key, value).prefix == t.prefix
    decreases |key|
  {
    if key != [] {
      var i := Branch(t.keys, key[0]);
      if i < |t.keys| {
        InsertKeepsShape(t.keys[i], key[1..], value);
      } else {
        InsertKeepsShape(NewTrie([key[0]]), key[1..], value);
      }
    }
  }

  /** The child that an insertion works on. */
  function Target(t: Trie, c: Letter): Trie {
    var i := Branch(t.keys, c);
    if i < |t.keys| then t.keys[i] else NewTrie([c])
  }

  /** Below its first letter, insertion replaces one child. */
  lemma {:induction false} InsertChild(t: Trie, key: Word, value: Token)
    requires Forked(t) && Plain(t) && key != []
    ensures var t', i := Insert(t, key, value), Branch(t.keys, key[0]);
            && i < |t'.keys| && t'.keys[i] == Insert(Target(t, key[0]), key[1..], value)
            && t'.keys[i].prefix == [key[0]]
            && |t.keys| <= |t'.keys|
            && (forall j :: 0 <= j < |t'.keys| && j != i ==> j < |t.keys| && t'.keys[j] == t.keys[j])
    ensures Forked(Target(t, key[0])) && Plain(Target(t, key[0]))
  {
    InsertKeepsShape(Target(t, key[0]), key[1..], value);
  }

  lemma {:induction false} InsertBranch(t: Trie, key: Word, value: Token, c: nat)
    requires Forked(t) && Plain(t) && key != []
    ensures c == key[0] ==> Branch(Insert(t, key, value).keys, c) == Branch(t.keys, key[0])
    ensures c != key[0] && Branch(t.keys, c) < |t.keys| ==> Branch(Insert(t, key, value).keys, c) == Branch(t.keys, c)
    ensures c != key[0] && Branch(t.keys, c) == |t.keys| ==>
              Branch(Insert(t, key, value).keys, c) == |Insert(t, key, value).keys|
  {
    InsertKeepsShape(t, key, value);
    InsertChild(t, key, value);
    var keys := Insert(t, key, value).keys;
    if c == key[0] {
      BranchIs(keys, Branch(t.keys, key[0]), c);
    } else if Branch(t.keys, c) < |t.keys| {
      BranchIs(keys, Branch(t.keys, c), c);
    }
  }

  /** Insertion changes the answer for its own word and for no other. */
  lemma {:induction false} InsertFind(t: Trie, key: Word, value: Token, w: Text)
    requires Forked(t) && Plain(t)
    ensures Find(Insert(t, key, value), w) == if w == key then Some(value) else Find(t, w)
    decreases |key|
  {
    if key != [] && w != [] {
      InsertChild(t, key, value);
      InsertBranch(t, key, value, w[0]);
      if w[0] == key[0] {
        InsertFind(Target(t, key[0]), key[1..], value, w[1..]);
        assert w == [w[0]] + w[1..] && key == [key[0]] + key[1..];
        assert Target(t, key[0]).prefix == [w[0]];
      }
    }
  }

  lemma {:induction false} BranchIs(keys: seq<Trie>, i: nat, c: nat)
    requires i < |keys|
    requires DistinctHeads(keys)
    requires Head(keys[i]) == c
    ensures Branch(keys, c) == i
  {
  }

  // ----- Path compression -----

  function Coalesce(t: Trie): Trie {
    var t' := t.(keys := CoalesceAll(t.keys));
    if t.value.Some? || |t'.keys| != 1 then t'
    else Trie(t.prefix + t'.keys[0].prefix, t'.keys[0].keys, t'.keys[0].value, [], 0.0)
  }

  function CoalesceAll(keys: seq<Trie>): (r: seq<Trie>)
    ensures |r| == |keys|
    ensures forall i :: 0 <= i < |keys| ==> r[i] == Coalesce(keys[i])
  {
    seq(|keys|, i requires 0 <= i < |keys| => Coalesce(keys[i]))
  }

  /** The root compresses its children and keeps its own empty prefix. */
  function CoalesceRoot(t: Trie): Trie {
    t.(keys := CoalesceAll(t.keys))
  }

  lemma {:induction false} CoalesceKeepsShape(t: Trie)
    requires Forked(t)
    ensures Forked(Coalesce(t)) && Forked(CoalesceRoot(t))
    ensures t.prefix <= Coalesce(t).prefix
    decreases t
  {
    forall i | 0 <= i < |t.keys| ensures Forked(Coalesce(t.keys[i])) && t.keys[i].prefix <= Coalesce(t.keys[i]).prefix {
      CoalesceKeepsShape(t.keys[i]);
    }
  }

  /** Compression keeps every answer. */
  lemma {:induction false} CoalesceFind(t: Trie, w: Text)
    requires Forked(t)
    ensures Find(CoalesceRoot(t), w) == Find(t, w)
    ensures t.prefix != [] ==> Coalesce(t).prefix != [] && FindFrom(Coalesce(t), w) == FindFrom(t, w)
    decreases t, |w|
  {
    CoalesceKeepsShape(t);
    if w != [] {
      var i := Branch(t.keys, w[0]);
      if i < |t.keys| {
        CoalesceKeepsShape(t.keys[i]);
        BranchIs(CoalesceAll(t.keys), i, w[0]);
        CoalesceFind(t.keys[i], w);
      } else {
        forall j | 0 <= j < |t.keys| ensures Head(CoalesceAll(t.keys)[j]) != w[0] {
          CoalesceKeepsShape(t.keys[j]);
        }
      }
    }
    if t.prefix != [] && t.prefix <= w {
      var rest := w[|t.prefix|..];
      CoalesceFind(t, rest);
      MergedFind(t, w);
    } else if t.prefix != [] {
      assert !(Coalesce(t).prefix <= w);
    }
  }

  lemma {:induction false} PrefixSplits(p: Word, q: Word, w: Text)
    requires p <= w
    ensures p + q <= w <==> q <= w[|p|..]
    ensures q <= w[|p|..] ==> w[|p + q|..] == w[|p|..][|q|..]
  {
    assert w == p + w[|p|..];
    if p + q <= w {
      assert w[|p|..][..|q|] == (p + q)[|p|..] == q;
    }
  }

  lemma {:induction false} OnlyBranch(t: Trie, w: Text)
    requires Forked(t) && |t.keys| == 1 && t.value == None
    ensures Find(t, w) == FindFrom(t.keys[0], w)
  {
  }

  /** A lookup below a node reads its children and its value. */
  lemma {:induction false} SameFind(a: Trie, b: Trie, w: Text)
    requires a.keys == b.keys && a.value == b.value
    ensures Find(a, w) == Find(b, w)
  {
  }

  lemma {:induction false} MergedFind(t: Trie, w: Text)
    requires Forked(t) && Forked(CoalesceRoot(t))
    requires t.prefix != [] && t.prefix <= w
    ensures Coalesce(t).prefix != [] && FindFrom(Coalesce(t), w) == Find(CoalesceRoot(t), w[|t.prefix|..])
  {
    var root := CoalesceRoot(t);
    if t.value.None? && |root.keys| == 1 {
      var only, rest := root.keys[0], w[|t.prefix|..];
      PrefixSplits(t.prefix, only.prefix, w);
      OnlyBranch(root, rest);
      if only.prefix <= rest {
        SameFind(Coalesce(t), only, rest[|only.prefix|..]);
      }
    }
  }

  // ----- Weights and order -----

  /** Sets full prefixes and weights and sorts the children, heaviest first. */
  function FillOut(t: Trie, prefix: Word, weights: map<Word, real>): Trie {
    var full := prefix + t.prefix;
    var self := if full in weights then weights[full] else 0.0;
    var kids := FillOutAll(t.keys, full, weights);
    t.(fullPrefix := full, weight := self + TotalWeight(kids), keys := SortByWeight(kids))
  }

  function FillOutAll(keys: seq<Trie>, full: Word, weights: map<Word, real>): (r: seq<Trie>)
    ensures |r| == |keys|
    ensures forall i :: 0 <= i < |keys| ==> r[i] == FillOut(keys[i], full, weights)
    ensures forall i :: 0 <= i < |keys| ==> r[i].prefix == keys[i].prefix
  {
    seq(|keys|, i requires 0 <= i < |keys| => FillOut(keys[i], full, weights))
  }

  function TotalWeight(keys: seq<Trie>): real {
    if keys == [] then 0.0 else TotalWeight(keys[..|keys| - 1]) + keys[|keys| - 1].weight
  }

  /** A stable sort by descending weight. */
  function SortByWeight(keys: seq<Trie>): seq<Trie> {
    if keys == [] then []
    else
      var n := |keys| - 1;
      var r := SortByWeight(keys[..n]);
      var k := Place(r, keys[n].weight);
      Splice(r, k, keys[n])
  }

  function Splice<T>(r: seq<T>, k: nat, x: T): (s: seq<T>)
    requires k <= |r|
    ensures |s| == |r| + 1 && s[k] == x
    ensures forall i :: 0 <= i < k ==> s[i] == r[i]
    ensures forall i :: k < i <= |r| ==> s[i] == r[i - 1]
  {
    r[..k] + [x] + r[k..]
  }

  /** Behind the elements that are at least as heavy. */
  function Place(sorted: seq<Trie>, weight: real): (k: nat)
    ensures k <= |sorted|
    ensures k > 0 ==> sorted[k - 1].weight >= weight
    ensures forall j :: k <= j < |sorted| ==> sorted[j].weight < weight
  {
    if sorted == [] then 0
    else if sorted[|sorted| - 1].weight >= weight then |sorted|
    else Place(sorted[..|sorted| - 1], weight)
  }

  ghost predicate Descending(keys: seq<Trie>) {
    forall i, j :: 0 <= i < j < |keys| ==> keys[i].weight >= keys[j].weight
  }

  /** The result is in order and is a permutation of the children. */
  lemma {:induction false} SortSorts(keys: seq<Trie>)
    ensures Descending(SortByWeight(keys))
    ensures multiset(SortByWeight(keys)) == multiset(keys)
  {
    if keys != [] {
      var n := |keys| - 1;
      SortSorts(keys[..n]);
      assert keys == keys[..n] + [keys[n]];
      var r := SortByWeight(keys[..n]);
      SpliceMultiset(r, Place(r, keys[n].weight), keys[n]);
      SpliceDescends(r, keys[n]);
    }
  }

  lemma {:induction false} SpliceDescends(r: seq<Trie>, x: Trie)
    requires Descending(r)
    ensures Descending(Splice(r, Place(r, x.weight), x))
  {
  }

  lemma {:induction false} SpliceHeads(r: seq<Trie>, k: nat, x: Trie)
    requires k <= |r| && DistinctHeads(r)
    requires x.prefix != [] && forall i :: 0 <= i < |r| ==> Head(r[i]) != Head(x)
    ensures DistinctHeads(Splice(r, k, x))
  {
  }

  lemma {:induction false} SpliceMultiset<T>(r: seq<T>, k: nat, x: T)
    requires k <= |r|
    ensures multiset(Splice(r, k, x)) == multiset(r) + multiset{x}
  {
    assert r == r[..k] + r[k..];
  }

  lemma {:induction false} SortMembers(keys: seq<Trie>)
    ensures |SortByWeight(keys)| == |keys|
    ensures forall x :: x in SortByWeight(keys) <==> x in keys
  {
    SortSorts(keys);
    assert |SortByWeight(keys)| == |multiset(SortByWeight(keys))| == |keys|;
    forall x ensures x in SortByWeight(keys) <==> x in keys {
      assert x in SortByWeight(keys) <==> x in multiset(SortByWeight(keys));
    }
  }

  lemma {:induction false} SortKeepsHeads(keys: seq<Trie>)
    requires DistinctHeads(keys)
    ensures DistinctHeads(SortByWeight(keys))
  {
    if keys != [] {
      var n := |keys| - 1;
      var r := SortByWeight(keys[..n]);
      SortKeepsHeads(keys[..n]);
      SortMembers(keys[..n]);
      forall i | 0 <= i < |r| ensures Head(r[i]) != Head(keys[n]) {
        assert r[i] in keys[..n];
      }
      SpliceHeads(r, Place(r, keys[n].weight), keys[n]);
    }
  }

  /** Sorting only moves children: the child that starts with a given unit stays the same. */
  lemma {:induction false} SortFind(keys: seq<Trie>, c: nat)
    requires DistinctHeads(keys)
    ensures |SortByWeight(keys)| == |keys|
    ensures Branch(keys, c) < |keys| <==> Branch(SortByWeight(keys), c) < |keys|
    ensures Branch(keys, c) < |keys| ==> SortByWeight(keys)[Branch(SortByWeight(keys), c)] == keys[Branch(keys, c)]
  {
    SortMembers(keys);
    SortKeepsHeads(keys);
    SameBranch(SortByWeight(keys), keys, c);
    SameBranch(keys, SortByWeight(keys), c);
  }

  lemma {:induction false} SameBranch(a: seq<Trie>, b: seq<Trie>, c: nat)
    requires DistinctHeads(b)
    requires forall x :: x in a ==> x in b
    ensures Branch(a, c) < |a| ==> Branch(b, c) < |b| && b[Branch(b, c)] == a[Branch(a, c)]
  {
    var i := Branch(a, c);
    if i < |a| {
      assert a[i] in b;
      var j :| 0 <= j < |b| && b[j] == a[i];
      BranchIs(b, j, c);
    }
  }

  lemma {:induction false} SortedShape(t: Trie, kids: seq<Trie>)
    requires t.keys == SortByWeight(kids)
    requires DistinctHeads(kids) && forall i :: 0 <= i < |kids| ==> Forked(kids[i])
    ensures Forked(t)
  {
    SortKeepsHeads(kids);
    SortMembers(kids);
    forall i | 0 <= i < |t.keys| ensures Forked(t.keys[i]) {
      assert t.keys[i] in kids;
    }
  }

  lemma {:induction false} SortedFind(t: Trie, kids: seq<Trie>, w: Text)
    requires t.keys == SortByWeight(kids) && DistinctHeads(kids)
    requires w != []
    ensures Find(t, w) == var i := Branch(kids, w[0]); if i < |kids| then FindFrom(kids[i], w) else None
  {
    SortFind(kids, w[0]);
  }

  lemma {:induction false} FillOutKeepsShape(t: Trie, prefix: Word, weights: map<Word, real>)
    requires Forked(t)
    ensures Forked(FillOut(t, prefix, weights))
    decreases t
  {
    var full := prefix + t.prefix;
    var kids := FillOutAll(t.keys, full, weights);
    forall i | 0 <= i < |t.keys| ensures Forked(kids[i]) && kids[i].prefix == t.keys[i].prefix {
      FillOutKeepsShape(t.keys[i], full, weights);
    }
    SortedShape(FillOut(t, prefix, weights), kids);
  }

  lemma {:induction false} SameHeads(a: seq<Trie>, b: seq<Trie>, c: nat)
    requires |a| == |b| && forall i :: 0 <= i < |a| ==> a[i].prefix == b[i].prefix
    requires DistinctHeads(a)
    ensures DistinctHeads(b) && Branch(b, c) == Branch(a, c)
  {
    assert forall i :: 0 <= i < |a| ==> Head(a[i]) == Head(b[i]);
    if Branch(a, c) < |a| {
      BranchIs(b, Branch(a, c), c);
    }
  }

  /** Weights decide the order of the branches and nothing else. */
  lemma {:induction false} FillOutFind(t: Trie, prefix: Word, weights: map<Word, real>, w: Text)
    requires Forked(t)
    ensures Find(FillOut(t, prefix, weights), w) == Find(t, w)
    decreases |w|
  {
    if w != [] {
      var full := prefix + t.prefix;
      var kids := FillOutAll(t.keys, full, weights);
      SameHeads(t.keys, kids, w[0]);
      SortedFind(FillOut(t, prefix, weights), kids, w);
      var i := Branch(t.keys, w[0]);
      if i < |t.keys| && t.keys[i].prefix <= w {
        FillOutFind(t.keys[i], full, weights, w[|t.keys[i].prefix|..]);
      }
    }
  }

  /** Every node knows the word that leads to it. */
  ghost predicate Spelled(t: Trie, full: Word) {
    && t.fullPrefix == full
    && forall i :: 0 <= i < |t.keys| ==> Spelled(t.keys[i], full + t.keys[i].prefix)
  }

  lemma {:induction false} FillOutSpells(t: Trie, prefix: Word, weights: map<Word, real>)
    ensures Spelled(FillOut(t, prefix, weights), prefix + t.prefix)
    decreases t
  {
    var full := prefix + t.prefix;
    var kids := FillOutAll(t.keys, full, weights);
    forall i | 0 <= i < |t.keys| ensures Spelled(kids[i], full + kids[i].prefix) {
      FillOutSpells(t.keys[i], full, weights);
    }
    SortMembers(kids);
    var r := SortByWeight(kids);
    forall i | 0 <= i < |r| ensures Spelled(r[i], full + r[i].prefix) {
      assert r[i] in kids;
    }
  }

  // ----- The order of equals -----

  ghost function OfWeight(keys: seq<Trie>, weight: real): seq<Trie> {
    if keys == [] then []
    else OfWeight(keys[..|keys| - 1], weight) + if keys[|keys| - 1].weight == weight then [keys[|keys| - 1]] else []
  }

  lemma {:induction false} OfWeightConcat(a: seq<Trie>, b: seq<Trie>, weight: real)
    ensures OfWeight(a + b, weight) == OfWeight(a, weight) + OfWeight(b, weight)
    decreases |b|
  {
    if b == [] {
      assert a + b == a;
    } else {
      assert (a + b)[..|a + b| - 1] == a + b[..|b| - 1];
      OfWeightConcat(a, b[..|b| - 1], weight);
    }
  }

  lemma {:induction false} NoneOfWeight(keys: seq<Trie>, weight: real)
    requires forall i :: 0 <= i < |keys| ==> keys[i].weight != weight
    ensures OfWeight(keys, weight) == []
  {
    if keys != [] {
      NoneOfWeight(keys[..|keys| - 1], weight);
    }
  }

  lemma {:induction false} SpliceOfWeight(r: seq<Trie>, x: Trie, weight: real)
    ensures OfWeight(Splice(r, Place(r, x.weight), x), weight) == OfWeight(r + [x], weight)
  {
    hide OfWeight, Place;
    var k, one: seq<Trie> := Place(r, x.weight), [x];
    var front, back := r[..k], r[k..];
    assert r == front + back;
    OfWeightConcat(front, back, weight);
    OfWeightConcat(front + back, one, weight);
    OfWeightConcat(front, one, weight);
    OfWeightConcat(front + one, back, weight);
    if x.weight == weight {
      NoneOfWeight(back, weight);
    } else {
      NoneOfWeight(one, weight);
    }
  }

  /** Children of the same weight stay in the order they had. */
  lemma {:induction false} SortStable(keys: seq<Trie>, weight: real)
    ensures OfWeight(SortByWeight(keys), weight) == OfWeight(keys, weight)
  {
    hide OfWeight, Place, Splice;
    if keys != [] {
      var n := |keys| - 1;
      var before, r, last: seq<Trie> := keys[..n], SortByWeight(keys[..n]), [keys[n]];
      assert keys == before + last;
      assert SortByWeight(keys) == Splice(r, Place(r, keys[n].weight), keys[n]);
      hide SortByWeight;
      SortStable(before, weight);
      SpliceOfWeight(r, keys[n], weight);
      OfWeightConcat(r, last, weight);
      OfWeightConcat(before, last, weight);
    }
  }

  // ----- What the weights mean -----

  /** The full prefixes at a node and below it, from left to right. */
  ghost function Prefixes(t: Trie): seq<Word> {
    [t.fullPrefix] + AllPrefixes(t.keys)
  }

  ghost function AllPrefixes(keys: seq<Trie>): seq<Word> {
    if keys == [] then [] else AllPrefixes(keys[..|keys| - 1]) + Prefixes(keys[|keys| - 1])
  }

  /** How often these words are used, all together. */
  ghost function Usage(words: seq<Word>, weights: map<Word, real>): real {
    if words == [] then 0.0
    else
      var last := words[|words| - 1];
      Usage(words[..|words| - 1], weights) + if last in weights then weights[last] else 0.0
  }

  /** Every node weighs what the words at and below it weigh together, and its heavier branches come first. */
  ghost predicate Weighed(t: Trie, weights: map<Word, real>) {
    && t.weight == Usage(Prefixes(t), weights) && Descending(t.keys)
    && forall i :: 0 <= i < |t.keys| ==> Weighed(t.keys[i], weights)
  }

  lemma {:induction false} UsageConcat(a: seq<Word>, b: seq<Word>, weights: map<Word, real>)
    ensures Usage(a + b, weights) == Usage(a, weights) + Usage(b, weights)
    decreases |b|
  {
    if b == [] {
      assert a + b == a;
    } else {
      assert (a + b)[..|a + b| - 1] == a + b[..|b| - 1];
      UsageConcat(a, b[..|b| - 1], weights);
    }
  }

  lemma {:induction false} TotalSpliced(r: seq<Trie>, k: nat, x: Trie)
    requires k <= |r|
    ensures TotalWeight(Splice(r, k, x)) == TotalWeight(r) + x.weight
    decreases |r|
  {
    var s := Splice(r, k, x);
    if k == |r| {
      assert s[..|r|] == r;
    } else {
      assert s[..|r|] == Splice(r[..|r| - 1], k, x);
      TotalSpliced(r[..|r| - 1], k, x);
    }
  }

  lemma {:induction false} SortKeepsTotal(keys: seq<Trie>)
    ensures TotalWeight(SortByWeight(keys)) == TotalWeight(keys)
  {
    if keys != [] {
      var n := |keys| - 1;
      SortKeepsTotal(keys[..n]);
      var r := SortByWeight(keys[..n]);
      TotalSpliced(r, Place(r, keys[n].weight), keys[n]);
    }
  }

  lemma {:induction false} TotalIsUsage(keys: seq<Trie>, weights: map<Word, real>)
    requires forall i :: 0 <= i < |keys| ==> keys[i].weight == Usage(Prefixes(keys[i]), weights)
    ensures TotalWeight(keys) == Usage(AllPrefixes(keys), weights)
  {
    if keys != [] {
      var n := |keys| - 1;
      TotalIsUsage(keys[..n], weights);
      UsageConcat(AllPrefixes(keys[..n]), Prefixes(keys[n]), weights);
    }
  }

  /** The emitted branches are in the order of what is used below them. */
  lemma {:induction false} FillOutWeighs(t: Trie, prefix: Word, weights: map<Word, real>)
    ensures Weighed(FillOut(t, prefix, weights), weights)
    decreases t
  {
    var full := prefix + t.prefix;
    var kids := FillOutAll(t.keys, full, weights);
    forall i | 0 <= i < |t.keys| ensures Weighed(kids[i], weights) {
      FillOutWeighs(t.keys[i], full, weights);
    }
    SortedWeighs(FillOut(t, prefix, weights), kids, weights);
  }

  lemma {:induction false} SortedWeighs(t: Trie, kids: seq<Trie>, weights: map<Word, real>)
    requires t.keys == SortByWeight(kids) && forall i :: 0 <= i < |kids| ==> Weighed(kids[i], weights)
    requires t.weight == (if t.fullPrefix in weights then weights[t.fullPrefix] else 0.0) + TotalWeight(kids)
    ensures Weighed(t, weights)
  {
    SortSorts(kids);
    SortMembers(kids);
    SortKeepsTotal(kids);
    hide SortByWeight, TotalWeight, Descending;
    forall i | 0 <= i < |t.keys| ensures Weighed(t.keys[i], weights) {
      assert t.keys[i] in kids;
    }
    TotalIsUsage(t.keys, weights);
    var own: seq<Word> := [t.fullPrefix];
    UsageConcat(own, AllPrefixes(t.keys), weights);
    assert own[..0] == [];
  }
}
