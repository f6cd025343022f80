/** Two facts about the generated keyword matcher that depend on the table alone: how much
    input it needs, and whether the macros it uses exist. */
module KeywordBounds {
  import opened Common
  import opened KeywordTrie
  import opened KeywordCompiler
  import opened KeywordLookup

  // ----- maxTokenLength -----

  ghost function Longest(entries: seq<Entry>): nat {
    if entries == [] then 0
    else Max(Longest(entries[..|entries| - 1]), |entries[|entries| - 1].0|)
  }

  /** The length of the longest path below a node. */
  ghost function Depth(t: Trie): nat {
    Depths(t.keys)
  }

  ghost function Depths(keys: seq<Trie>): (d: nat)
    ensures forall i :: 0 <= i < |keys| ==> |keys[i].prefix| + Depth(keys[i]) <= d
    ensures d == 0 || exists i :: 0 <= i < |keys| && |keys[i].prefix| + Depth(keys[i]) == d
  {
    if keys == [] then 0
    else
      var d := Max(|keys[0].prefix| + Depth(keys[0]), Depths(keys[1..]));
      assert d == 0 || exists i :: 0 <= i < |keys| && |keys[i].prefix| + Depth(keys[i]) == d by {
        if d == Depths(keys[1..]) && d != 0 {
          var i :| 0 <= i < |keys[1..]| && |keys[1..][i].prefix| + Depth(keys[1..][i]) == d;
          assert keys[1..][i] == keys[i + 1];
        }
      }
      d
  }

  ghost function Reach(t: Trie): nat {
    |t.prefix| + Depth(t)
  }

  /** A bound that is met is the maximum. */
  lemma {:induction false} DepthsIs(keys: seq<Trie>, d: nat)
    requires forall i :: 0 <= i < |keys| ==> Reach(keys[i]) <= d
    requires d == 0 || exists i :: 0 <= i < |keys| && Reach(keys[i]) == d
    ensures Depths(keys) == d
  {
  }

  lemma {:induction false} InsertDepth(t: Trie, key: Word, value: Token)
    requires Plain(t)
    ensures Depth(Insert(t, key, value)) == Max(Depth(t), |key|)
    ensures Insert(t, key, value).prefix == t.prefix
    decreases |key|
  {
    if key != [] {
      var i := Branch(t.keys, key[0]);
      var child := if i < |t.keys| then t.keys[i] else NewTrie([key[0]]);
      InsertDepth(child, key[1..], value);
      var keys := Insert(t, key, value).keys;
      assert keys[i] == Insert(child, key[1..], value);
      assert forall j :: 0 <= j < |t.keys| && j != i ==> keys[j] == t.keys[j];
      InsertedMax(t.keys, keys, i, |key|);
    }
  }

  lemma {:induction false} InsertedMax(before: seq<Trie>, keys: seq<Trie>, i: nat, n: nat)
    requires i < |keys| && |keys| == (if i < |before| then |before| else |before| + 1)
    requires forall j :: 0 <= j < |before| && j != i ==> keys[j] == before[j]
    requires i <= |before|
    requires Reach(keys[i]) == if i < |before| then Max(Reach(before[i]), n) else n
    ensures Depths(keys) == Max(Depths(before), n)
  {
    var d := Max(Depths(before), n);
    if d != 0 && d != Reach(keys[i]) {
      var j :| 0 <= j < |before| && Reach(before[j]) == d;
      assert keys[j] == before[j];
    }
    DepthsIs(keys, d);
  }

  lemma {:induction false} InsertAllDepth(entries: seq<Entry>)
    ensures Depth(InsertAll(entries)) == Longest(entries)
  {
    if entries != [] {
      var n := |entries| - 1;
      InsertAllShape(entries[..n]);
      InsertAllDepth(entries[..n]);
      InsertDepth(InsertAll(entries[..n]), entries[n].0, entries[n].1);
    }
  }

  lemma {:induction false} SameReaches(a: seq<Trie>, b: seq<Trie>)
    requires |a| == |b| && forall i :: 0 <= i < |a| ==> Reach(a[i]) == Reach(b[i])
    ensures Depths(a) == Depths(b)
  {
    DepthsIs(a, Depths(b));
  }

  lemma {:induction false} CoalesceDepth(t: Trie)
    ensures Reach(Coalesce(t)) == Reach(t) && Depth(CoalesceRoot(t)) == Depth(t)
    decreases t
  {
    forall i | 0 <= i < |t.keys| ensures Reach(Coalesce(t.keys[i])) == Reach(t.keys[i]) {
      CoalesceDepth(t.keys[i]);
    }
    SameReaches(t.keys, CoalesceAll(t.keys));
    if |t.keys| == 1 {
      DepthsIs(CoalesceAll(t.keys), Reach(Coalesce(t.keys[0])));
    }
  }

  lemma {:induction false} FillOutDepth(t: Trie, prefix: Word, weights: map<Word, real>)
    ensures Depth(FillOut(t, prefix, weights)) == Depth(t)
    decreases t
  {
    var full := prefix + t.prefix;
    var kids := FillOutAll(t.keys, full, weights);
    forall i | 0 <= i < |t.keys| ensures Reach(kids[i]) == Reach(t.keys[i]) {
      FillOutDepth(t.keys[i], full, weights);
    }
    SameReaches(t.keys, kids);
    SortDepths(kids);
  }

  lemma {:induction false} SortDepths(kids: seq<Trie>)
    ensures Depths(SortByWeight(kids)) == Depths(kids)
  {
    var r, d := SortByWeight(kids), Depths(kids);
    SortMembers(kids);
    forall i | 0 <= i < |r| ensures Reach(r[i]) <= d {
      assert r[i] in kids;
    }
    if d != 0 {
      var i :| 0 <= i < |kids| && Reach(kids[i]) == d;
      assert kids[i] in r;
    }
    DepthsIs(r, d);
  }

  lemma {:induction false} MaxLengthIsReach(t: Trie, full: Word)
    requires Spelled(t, full)
    ensures MaxLength(t) == |full| + Depth(t)
    decreases t
  {
    forall i | 0 <= i < |t.keys| ensures MaxLength(t.keys[i]) == |full| + Reach(t.keys[i]) {
      MaxLengthIsReach(t.keys[i], full + t.keys[i].prefix);
    }
    MaxLengthsIs(t.keys, |full|);
  }

  lemma {:induction false} MaxLengthsIs(keys: seq<Trie>, n: nat)
    requires forall i :: 0 <= i < |keys| ==> MaxLength(keys[i]) == n + Reach(keys[i])
    ensures keys != [] ==> MaxLengths(keys) == n + Depths(keys)
  {
    if keys != [] {
      forall i | 0 <= i < |keys[1..]| ensures MaxLength(keys[1..][i]) == n + Reach(keys[1..][i]) {
        assert keys[1..][i] == keys[i + 1];
      }
      MaxLengthsIs(keys[1..], n);
    }
  }

  /** The matcher asks for exactly one unit more than the longest keyword has. */
  lemma {:induction false} MaxTokenLengthIsTight(entries: seq<Entry>, weights: map<Word, real>)
    ensures MaxTokenLength(entries, weights) == Longest(entries) + 1
  {
    var t := InsertAll(entries);
    InsertAllDepth(entries);
    CoalesceDepth(t);
    FillOutDepth(CoalesceRoot(t), [], weights);
    FinishedFind(entries, weights, []);
    MaxLengthIsReach(Finished(entries, weights), []);
  }

  // ----- When the macros exist -----

  ghost predicate TestCompiles(test: Test) {
    test.Compare? ==> 2 <= |test.units| <= 8
  }

  /** Every COMPARE macro the program uses is defined. */
  ghost predicate Compiles(block: seq<Stmt>) {
    forall i :: 0 <= i < |block| && block[i].Chain? ==> ArmsCompile(block[i].arms)
  }

  ghost predicate ArmsCompile(arms: seq<Arm>) {
    forall i :: 0 <= i < |arms| ==> TestCompiles(arms[i].test) && Compiles(arms[i].body)
  }

  lemma {:induction false} EmitCompiles(t: Trie)
    requires Forked(t) && Spelled(t, t.fullPrefix)
    ensures Compiles(Emit(t)) <==> ShortEdges(t)
    decreases t
  {
    var n, arms := |t.fullPrefix|, EmitArms(|t.fullPrefix|, t.keys);
    forall i | 0 <= i < |t.keys|
      ensures TestCompiles(arms[i].test) <==> 1 <= |t.keys[i].prefix| <= 8
      ensures Compiles(arms[i].body) <==> ShortEdges(t.keys[i])
    {
      assert Spelled(t.keys[i], t.fullPrefix + t.keys[i].prefix);
      EmitCompiles(t.keys[i]);
    }
    assert ArmsCompile(arms) <==> ShortEdges(t);
    ChainLast(t);
  }

  lemma {:induction false} ChainLast(t: Trie)
    ensures Compiles(Emit(t)) <==> ArmsCompile(EmitArms(|t.fullPrefix|, t.keys))
  {
    var block := Emit(t);
    if t.keys != [] {
      assert block[|block| - 1] == Chain(EmitArms(|t.fullPrefix|, t.keys));
    }
  }

  lemma {:induction false} FillOutEdges(t: Trie, prefix: Word, weights: map<Word, real>)
    ensures ShortEdges(FillOut(t, prefix, weights)) <==> ShortEdges(t)
    decreases t
  {
    var full := prefix + t.prefix;
    var kids := FillOutAll(t.keys, full, weights);
    forall i | 0 <= i < |t.keys| ensures ShortEdges(kids[i]) <==> ShortEdges(t.keys[i]) {
      FillOutEdges(t.keys[i], full, weights);
    }
    SortEdges(FillOut(t, prefix, weights), kids);
  }

  lemma {:induction false} SortEdges(t: Trie, kids: seq<Trie>)
    requires t.keys == SortByWeight(kids)
    ensures ShortEdges(t) <==> forall i :: 0 <= i < |kids| ==> 1 <= |kids[i].prefix| <= 8 && ShortEdges(kids[i])
  {
    SortMembers(kids);
    if ShortEdges(t) {
      forall i | 0 <= i < |kids| ensures 1 <= |kids[i].prefix| <= 8 && ShortEdges(kids[i]) {
        assert kids[i] in t.keys;
      }
    } else {
      var i :| 0 <= i < |t.keys| && !(1 <= |t.keys[i].prefix| <= 8 && ShortEdges(t.keys[i]));
      assert t.keys[i] in kids;
    }
  }

  /** No node starts a compressed edge of more than eight letters. */
  ghost predicate ShortRuns(t: Trie) {
    forall i :: 0 <= i < |t.keys| ==> |Coalesce(t.keys[i]).prefix| <= 8 && ShortRuns(t.keys[i])
  }

  lemma {:induction false} CoalesceEdges(t: Trie)
    requires Forked(t)
    ensures ShortEdges(CoalesceRoot(t)) <==> ShortRuns(t)
    ensures |Coalesce(t).prefix| <= 8 ==> (ShortEdges(Coalesce(t)) <==> ShortRuns(t))
    decreases t
  {
    CoalesceKeepsShape(t);
    var root := CoalesceRoot(t);
    forall i | 0 <= i < |t.keys|
      ensures |root.keys[i].prefix| <= 8 ==> (ShortEdges(root.keys[i]) <==> ShortRuns(t.keys[i]))
    {
      CoalesceEdges(t.keys[i]);
    }
  }

  /** The words stored below a node. */
  ghost function Words(t: Trie): iset<Text> {
    iset w: Text | Find(t, w).Some?
  }

  /** `tails` holds what follows `c` in the words that start with it. */
  ghost predicate Continues(words: iset<Text>, c: nat, tails: iset<Text>) {
    forall v :: v in tails <==> [c] + v in words
  }

  /** Every subtree stores a word. */
  ghost predicate Inhabited(t: Trie) {
    (t.value.Some? || t.keys != []) && forall i :: 0 <= i < |t.keys| ==> Inhabited(t.keys[i])
  }

  lemma {:induction false} InsertInhabits(t: Trie, key: Word, value: Token)
    requires forall i :: 0 <= i < |t.keys| ==> Inhabited(t.keys[i])
    ensures Inhabited(Insert(t, key, value))
    decreases |key|
  {
    if key != [] {
      var i := Branch(t.keys, key[0]);
      InsertInhabits(if i < |t.keys| then t.keys[i] else NewTrie([key[0]]), key[1..], value);
    }
  }

  lemma {:induction false} InsertAllInhabits(entries: seq<Entry>)
    ensures forall i :: 0 <= i < |InsertAll(entries).keys| ==> Inhabited(InsertAll(entries).keys[i])
  {
    if entries != [] {
      var n := |entries| - 1;
      InsertAllInhabits(entries[..n]);
      InsertInhabits(InsertAll(entries[..n]), entries[n].0, entries[n].1);
    }
  }

  lemma {:induction false} ChildWord(t: Trie, i: nat, w: Text)
    requires Forked(t) && Plain(t) && i < |t.keys|
    ensures Find(t, [t.keys[i].prefix[0]] + w) == Find(t.keys[i], w)
  {
    var c := t.keys[i].prefix[0];
    BranchIs(t.keys, i, c);
    assert t.keys[i].prefix == [c];
    assert ([c] + w)[1..] == w;
  }

  lemma {:induction false} ChildWords(t: Trie, i: nat)
    requires Forked(t) && Plain(t) && i < |t.keys|
    ensures Continues(Words(t), t.keys[i].prefix[0], Words(t.keys[i]))
  {
    var c: nat := t.keys[i].prefix[0];
    forall v: Text ensures v in Words(t.keys[i]) <==> [c] + v in Words(t) {
      ChildWord(t, i, v);
    }
  }

  lemma {:induction false} SomeWord(t: Trie) returns (w: Text)
    requires Forked(t) && Plain(t) && Inhabited(t)
    ensures w in Words(t)
    decreases t
  {
    if t.value.Some? {
      w := [];
    } else {
      var rest := SomeWord(t.keys[0]);
      ChildWord(t, 0, rest);
      w := [t.keys[0].prefix[0]] + rest;
    }
  }

  lemma {:induction false} FirstLetter(t: Trie, w: Text)
    requires w in Words(t) && w != []
    ensures Branch(t.keys, w[0]) < |t.keys|
  {
  }

  /** After the first `j` letters of `w` no word ends and every word goes on as `w` does. */
  ghost predicate OneWay(words: iset<Text>, w: Text, j: nat)
    requires j < |w|
  {
    w[..j] !in words && forall v :: v in words && w[..j] <= v ==> |v| > j && v[j] == w[j]
  }

  ghost predicate OneWayFor(words: iset<Text>, w: Text, lo: nat, hi: nat)
    requires hi <= |w|
  {
    forall j :: lo <= j < hi ==> OneWay(words, w, j)
  }

  lemma {:induction false} OneWayDown(words: iset<Text>, c: nat, tails: iset<Text>, w: Text, j: nat)
    requires Continues(words, c, tails)
    requires 0 < j < |w| && w[0] == c && OneWay(words, w, j)
    ensures OneWay(tails, w[1..], j - 1)
  {
    var head := w[1..][..j - 1];
    assert w[..j] == [c] + head;
    forall v | v in tails && head <= v ensures |v| > j - 1 && v[j - 1] == w[1..][j - 1] {
      assert v == head + v[|head|..];
      assert [c] + v == w[..j] + v[|head|..];
      assert ([c] + v)[j] == v[j - 1];
    }
  }

  lemma {:induction false} OneWayUp(words: iset<Text>, c: nat, tails: iset<Text>, w: Text, j: nat)
    requires Continues(words, c, tails)
    requires 0 < j < |w| && w[0] == c && OneWay(tails, w[1..], j - 1)
    ensures OneWay(words, w, j)
  {
    var head := w[1..][..j - 1];
    assert w[..j] == [c] + head;
    forall v | v in words && w[..j] <= v ensures |v| > j && v[j] == w[j] {
      assert v[0] == w[..j][0] && v == [c] + v[1..];
      assert head == w[..j][1..] <= v[1..];
    }
  }

  /** `w` is one of the words and runs one way from `lo` to `hi`. */
  ghost predicate RunsOneWay(words: iset<Text>, w: Text, lo: nat, hi: nat) {
    w in words && hi <= |w| && OneWayFor(words, w, lo, hi)
  }

  ghost predicate HasRun(words: iset<Text>, n: nat) {
    exists w: Text :: RunsOneWay(words, w, 0, n)
  }

  lemma {:induction false} RunDown(words: iset<Text>, c: nat, tails: iset<Text>, w: Text, lo: nat, hi: nat)
    requires Continues(words, c, tails)
    requires RunsOneWay(words, w, lo, hi) && w != [] && w[0] == c
    requires 0 < lo && 0 < hi
    ensures RunsOneWay(tails, w[1..], lo - 1, hi - 1)
  {
    assert w == [c] + w[1..];
    forall j | lo - 1 <= j < hi - 1 ensures OneWay(tails, w[1..], j) {
      OneWayDown(words, c, tails, w, j + 1);
    }
  }

  lemma {:induction false} RunUp(words: iset<Text>, c: nat, tails: iset<Text>, v: Text, lo: nat, hi: nat)
    requires Continues(words, c, tails)
    requires RunsOneWay(tails, v, lo, hi)
    ensures RunsOneWay(words, [c] + v, lo + 1, hi + 1)
  {
    var w := [c] + v;
    assert w[1..] == v;
    forall j | lo + 1 <= j < hi + 1 ensures OneWay(words, w, j) {
      OneWayUp(words, c, tails, w, j);
    }
  }

  /** Only a node without a word of its own and with one child is passed one way. */
  lemma {:induction false} OneWayHere(t: Trie, w: Text)
    requires Forked(t) && Plain(t) && Inhabited(t)
    requires w != [] && w in Words(t) && OneWay(Words(t), w, 0)
    ensures t.value == None && |t.keys| == 1
  {
    assert w[..0] == [];
    FirstLetter(t, w);
    forall i | 0 <= i < |t.keys| ensures Head(t.keys[i]) == w[0] {
      var rest := SomeWord(t.keys[i]);
      ChildWord(t, i, rest);
      var v := [t.keys[i].prefix[0]] + rest;
      assert v in Words(t) && w[..0] <= v && v[0] == w[0];
    }
    if |t.keys| > 1 {
      TwoHeads(t.keys, w[0]);
    }
  }

  lemma {:induction false} TwoHeads(keys: seq<Trie>, c: nat)
    requires DistinctHeads(keys) && |keys| > 1
    ensures exists i :: 0 <= i < |keys| && Head(keys[i]) != c
  {
    assert Head(keys[0]) != Head(keys[1]);
  }

  lemma {:induction false} UnaryIsOneWay(t: Trie, w: Text)
    requires Forked(t) && Plain(t)
    requires w != [] && w in Words(t) && t.value == None && |t.keys| == 1
    ensures OneWay(Words(t), w, 0) && w[0] == t.keys[0].prefix[0]
  {
    assert w[..0] == [];
    forall v | v in Words(t) ensures |v| > 0 && v[0] == t.keys[0].prefix[0] {
      assert v != [];
      FirstLetter(t, v);
      assert Head(t.keys[0]) == v[0];
    }
  }

  /** A node starts an edge of more than `n` letters exactly when some word runs one way for `n` letters. */
  lemma {:induction false} RunIsOneWay(t: Trie, n: nat)
    requires Forked(t) && Plain(t) && Inhabited(t) && |t.prefix| == 1
    ensures |Coalesce(t).prefix| > n <==> HasRun(Words(t), n)
    decreases n
  {
    if n == 0 {
      var w := SomeWord(t);
      assert RunsOneWay(Words(t), w, 0, 0);
    } else {
      if HasRun(Words(t), n) {
        ShorterRun(t, n);
      }
      if t.value == None && |t.keys| == 1 {
        RunIsOneWay(t.keys[0], n - 1);
        if HasRun(Words(t.keys[0]), n - 1) {
          LongerRun(t, n - 1);
        }
      }
    }
  }

  lemma {:induction false} ShorterRun(t: Trie, n: nat)
    requires Forked(t) && Plain(t) && Inhabited(t)
    requires n > 0 && HasRun(Words(t), n)
    ensures t.value == None && |t.keys| == 1 && HasRun(Words(t.keys[0]), n - 1)
  {
    var w: Text :| RunsOneWay(Words(t), w, 0, n);
    assert OneWay(Words(t), w, 0);
    OneWayHere(t, w);
    UnaryIsOneWay(t, w);
    ChildWords(t, 0);
    RunDown(Words(t), w[0], Words(t.keys[0]), w, 1, n);
  }

  lemma {:induction false} LongerRun(t: Trie, n: nat)
    requires Forked(t) && Plain(t) && t.value == None && |t.keys| == 1
    requires HasRun(Words(t.keys[0]), n)
    ensures HasRun(Words(t), n + 1)
  {
    var v: Text :| RunsOneWay(Words(t.keys[0]), v, 0, n);
    var w: Text := [t.keys[0].prefix[0]] + v;
    ChildWords(t, 0);
    RunUp(Words(t), t.keys[0].prefix[0], Words(t.keys[0]), v, 0, n);
    UnaryIsOneWay(t, w);
    assert RunsOneWay(Words(t), w, 0, n + 1);
  }

  /** Nine letters of a word: from the second on no word ends and none branches off
      until the ninth is over. */
  ghost predicate LongStretch(words: iset<Text>, w: Text, i: nat) {
    RunsOneWay(words, w, i + 1, i + 9)
  }

  ghost predicate HasLongStretch(words: iset<Text>) {
    exists w: Text, i: nat :: LongStretch(words, w, i)
  }

  lemma {:induction false} ShortRunsMeans(t: Trie)
    requires Forked(t) && Plain(t)
    requires forall i :: 0 <= i < |t.keys| ==> Inhabited(t.keys[i])
    ensures ShortRuns(t) <==> !HasLongStretch(Words(t))
    decreases t
  {
    forall k | 0 <= k < |t.keys|
      ensures |Coalesce(t.keys[k]).prefix| > 8 <==> HasRun(Words(t.keys[k]), 8)
      ensures ShortRuns(t.keys[k]) <==> !HasLongStretch(Words(t.keys[k]))
    {
      RunIsOneWay(t.keys[k], 8);
      ShortRunsMeans(t.keys[k]);
    }
    if HasLongStretch(Words(t)) {
      var _ := StretchDown(t);
    }
    forall k | 0 <= k < |t.keys| && !(|Coalesce(t.keys[k]).prefix| <= 8 && ShortRuns(t.keys[k]))
      ensures HasLongStretch(Words(t))
    {
      StretchUp(t, k);
    }
  }

  lemma {:induction false} StretchDown(t: Trie) returns (k: nat)
    requires Forked(t) && Plain(t) && HasLongStretch(Words(t))
    ensures k < |t.keys|
    ensures HasRun(Words(t.keys[k]), 8) || HasLongStretch(Words(t.keys[k]))
  {
    var w: Text, i: nat :| LongStretch(Words(t), w, i);
    k := Branch(t.keys, w[0]);
    FirstLetter(t, w);
    ChildWords(t, k);
    RunDown(Words(t), w[0], Words(t.keys[k]), w, i + 1, i + 9);
    if i > 0 {
      assert LongStretch(Words(t.keys[k]), w[1..], i - 1);
    }
  }

  lemma {:induction false} StretchUp(t: Trie, k: nat)
    requires Forked(t) && Plain(t) && k < |t.keys|
    requires HasRun(Words(t.keys[k]), 8) || HasLongStretch(Words(t.keys[k]))
    ensures HasLongStretch(Words(t))
  {
    var v: Text, i: nat;
    if HasRun(Words(t.keys[k]), 8) {
      v, i :| i == 0 && RunsOneWay(Words(t.keys[k]), v, 0, 8);
    } else {
      var j: nat;
      v, j :| LongStretch(Words(t.keys[k]), v, j);
      i := j + 1;
    }
    ChildWords(t, k);
    RunUp(Words(t), t.keys[k].prefix[0], Words(t.keys[k]), v, i, i + 8);
    var w: Text := [t.keys[k].prefix[0]] + v;
    assert LongStretch(Words(t), w, i);
  }

  ghost function Keywords(entries: seq<Entry>): iset<Text> {
    iset w: Text | w in TableOf(entries)
  }

  /** The generated code compiles exactly when no keyword has such a stretch. */
  lemma {:induction false} CompilesIffNoLongStretch(entries: seq<Entry>, weights: map<Word, real>)
    ensures Compiles(Generate(entries, weights)) <==> ShortEdges(Finished(entries, weights))
    ensures Compiles(Generate(entries, weights)) <==> !HasLongStretch(Keywords(entries))
  {
    var t := InsertAll(entries);
    InsertAllShape(entries);
    InsertAllInhabits(entries);
    FinishedFind(entries, weights, []);
    EmitCompiles(Finished(entries, weights));
    FillOutEdges(CoalesceRoot(t), [], weights);
    CoalesceEdges(t);
    ShortRunsMeans(t);
    KeywordsAreWords(entries);
  }

  lemma {:induction false} KeywordsAreWords(entries: seq<Entry>)
    ensures Words(InsertAll(entries)) == Keywords(entries)
  {
    forall w: Text ensures w in Words(InsertAll(entries)) <==> w in Keywords(entries) {
      InsertAllFind(entries, w);
    }
  }

  /** For every table without such a stretch, any weights, any platform and any input one unit longer
      than the longest keyword, the generated matcher is the table lookup. */
  lemma {:induction false} TableLookup(p: Platform, entries: seq<Entry>, weights: map<Word, real>, input: Input)
    requires !HasLongStretch(Keywords(entries))
    requires UnitsFit(p.units, input.code) && |input.code| > Longest(entries)
    ensures LooksUp(TableOf(entries), input, ParseKeyword(p, Generate(entries, weights), input))
  {
    CompilesIffNoLongStretch(entries, weights);
    MaxTokenLengthIsTight(entries, weights);
    GeneratedLookup(p, entries, weights, input);
  }
}
