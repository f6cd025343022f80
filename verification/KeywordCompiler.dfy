/** The C decision tree that Source/JavaScriptCore/KeywordLookupGenerator.py prints, an
    interpreter for it, and the proof that running it looks a word up in the keyword table. */
module KeywordCompiler {
  import opened Common
  import opened KeywordTrie

  // ----- The emitted program -----

  datatype Test = UnitTest(index: nat, unit: nat) | Compare(base: nat, units: Word)

  /** `Accept` is the block guarded by `!isIdentPartIncludingEscape(code+offset)`;
      `Chain` is an if / else-if cascade. */
  datatype Stmt = Accept(offset: nat, shift: nat, ident: Word, token: Token)
                | Chain(arms: seq<Arm>)
  datatype Arm = Arm(test: Test, body: seq<Stmt>)

  /** printSubTreeAsC */
  function Emit(t: Trie): seq<Stmt>
    decreases t
  {
    (if t.value.Some? then [Accept(|t.fullPrefix|, |t.fullPrefix|, t.fullPrefix, t.value.value)] else []) +
    (if t.keys == [] then [] else [Chain(EmitArms(|t.fullPrefix|, t.keys))])
  }

  function EmitArms(rootIndex: nat, keys: seq<Trie>): (arms: seq<Arm>)
    ensures |arms| == |keys|
    ensures forall i :: 0 <= i < |keys| ==> arms[i] == Arm(EmitTest(rootIndex, keys[i]), Emit(keys[i]))
    decreases keys
  {
    seq(|keys|, i requires 0 <= i < |keys| => Arm(EmitTest(rootIndex, keys[i]), Emit(keys[i])))
  }

  /** Three units below the root are tested together with the unit before them. */
  function EmitTest(rootIndex: nat, child: Trie): Test {
    var k := child.prefix;
    if rootIndex > 0 && |k| == 3 && rootIndex <= |child.fullPrefix| then
      Compare(rootIndex - 1, [child.fullPrefix[rootIndex - 1]] + k)
    else if |k| == 1 then UnitTest(rootIndex, k[0])
    else Compare(rootIndex, k)
  }

  function MaxLength(t: Trie): nat {
    Max(|t.fullPrefix|, MaxLengths(t.keys))
  }

  function MaxLengths(keys: seq<Trie>): (m: nat)
    ensures forall i :: 0 <= i < |keys| ==> MaxLength(keys[i]) <= m
  {
    if keys == [] then 0 else Max(MaxLength(keys[0]), MaxLengths(keys[1..]))
  }

  function Max(a: nat, b: nat): nat {
    if a >= b then a else b
  }

  // ----- Running it -----

  datatype Cpu = NeedsAlignedAccess | X86_64 | OtherLittleEndian
  datatype Units = LChars | UChars
  datatype Platform = Platform(cpu: Cpu, units: Units)

  /** `isIdentPart(n)` stands for `isIdentPartIncludingEscape(code+n, m_codeEnd)`. */
  datatype Input = Input(code: Text, isIdentPart: nat -> bool)

  /** `Stuck`: a read past the end of the input, or a macro that is not defined. */
  datatype Truth = Yes | No | Stuck

  datatype Outcome = Returned(token: Token, shift: nat, ident: Word) | FellThrough | Fault

  function Both(a: Truth, b: Truth): Truth {
    if a == Yes then b else a
  }

  function Is(b: bool): Truth {
    if b then Yes else No
  }

  function Radix(units: Units): nat {
    match units case LChars => 0x100 case UChars => 0x1_0000
  }

  function UnitIs(code: Text, i: nat, c: nat): Truth {
    if i < |code| then Is(code[i] == c) else Stuck
  }

  /** CHARPAIR_TOUINT16, UCHARPAIR_TOUINT32 */
  function Pair(units: Units, a: nat, b: nat): nat {
    b * Radix(units) + a
  }

  /** CHARQUAD_TOUINT32, UCHARQUAD_TOUINT64 */
  function Quad(units: Units, a: nat, b: nat, c: nat, d: nat): nat {
    Pair(units, c, d) * (Radix(units) * Radix(units)) + Pair(units, a, b)
  }

  /** A little-endian load of `n` consecutive units. */
  function Load(units: Units, code: Text, i: nat, n: nat): nat
    requires i + n <= |code|
    decreases n
  {
    if n == 0 then 0 else code[i] + Radix(units) * Load(units, code, i + 1, n - 1)
  }

  function Compare2(p: Platform, code: Text, i: nat, a: nat, b: nat): Truth {
    if p.cpu == NeedsAlignedAccess then Both(UnitIs(code, i, a), UnitIs(code, i + 1, b))
    else if i + 2 <= |code| then Is(Load(p.units, code, i, 2) == Pair(p.units, a, b))
    else Stuck
  }

  function Compare4(p: Platform, code: Text, i: nat, a: nat, b: nat, c: nat, d: nat): Truth {
    if p.cpu != X86_64 then Both(Compare2(p, code, i, a, b), Compare2(p, code, i + 2, c, d))
    else if i + 4 <= |code| then Is(Load(p.units, code, i, 4) == Quad(p.units, a, b, c, d))
    else Stuck
  }

  /** The macros COMPARE_2 to COMPARE_8; there is no other. */
  function CompareMacro(p: Platform, code: Text, i: nat, k: Word): Truth {
    if |k| == 2 then Compare2(p, code, i, k[0], k[1])
    else if |k| == 3 then Both(Compare2(p, code, i, k[0], k[1]), UnitIs(code, i + 2, k[2]))
    else if 4 <= |k| <= 8 then
      var four := Compare4(p, code, i, k[0], k[1], k[2], k[3]);
      if |k| == 4 then four
      else if |k| == 5 then Both(four, UnitIs(code, i + 4, k[4]))
      else if |k| == 6 then Both(four, Compare2(p, code, i + 4, k[4], k[5]))
      else if |k| == 7 then Both(four, Compare4(p, code, i + 3, k[3], k[4], k[5], k[6]))
      else Both(four, Compare4(p, code, i + 4, k[4], k[5], k[6], k[7]))
    else Stuck
  }

  function Eval(p: Platform, code: Text, test: Test): Truth {
    match test
    case UnitTest(i, c) => UnitIs(code, i, c)
    case Compare(i, k) => CompareMacro(p, code, i, k)
  }

  function Exec(p: Platform, block: seq<Stmt>, input: Input): Outcome {
    if block == [] then FellThrough
    else
      var o := ExecStmt(p, block[0], input);
      if o == FellThrough then Exec(p, block[1..], input) else o
  }

  function ExecStmt(p: Platform, s: Stmt, input: Input): Outcome {
    match s
    case Accept(offset, shift, ident, token) =>
      if offset >= |input.code| then Fault
      else if input.isIdentPart(offset) then FellThrough
      else Returned(token, shift, ident)
    case Chain(arms) => ExecArms(p, arms, input)
  }

  function ExecArms(p: Platform, arms: seq<Arm>, input: Input): Outcome {
    if arms == [] then FellThrough
    else
      match Eval(p, input.code, arms[0].test)
      case Yes => Exec(p, arms[0].body, input)
      case No => ExecArms(p, arms[1..], input)
      case Stuck => Fault
  }

  /** parseKeyword: whatever falls through is an ordinary identifier. */
  datatype Keyword = Keyword(token: Token, shift: nat, ident: Word) | Identifier | Crash

  function ParseKeyword(p: Platform, program: seq<Stmt>, input: Input): Keyword {
    ToKeyword(Exec(p, program, input))
  }

  function ToKeyword(o: Outcome): Keyword {
    match o
    case Returned(token, shift, ident) => Keyword(token, shift, ident)
    case FellThrough => Identifier
    case Fault => Crash
  }

  // ----- Wide compares -----

  ghost predicate UnitsFit(units: Units, code: Text) {
    forall i :: 0 <= i < |code| ==> code[i] < Radix(units)
  }

  lemma {:induction false} Compare2Exact(p: Platform, code: Text, i: nat, a: nat, b: nat)
    requires UnitsFit(p.units, code) && a < Radix(p.units) && b < Radix(p.units)
    requires i + 2 <= |code|
    ensures Compare2(p, code, i, a, b) == Is(code[i] == a && code[i + 1] == b)
  {
    assert Load(p.units, code, i, 2) == code[i] + Radix(p.units) * code[i + 1];
  }

  lemma {:induction false} Compare4Exact(p: Platform, code: Text, i: nat, a: nat, b: nat, c: nat, d: nat)
    requires UnitsFit(p.units, code)
    requires a < Radix(p.units) && b < Radix(p.units) && c < Radix(p.units) && d < Radix(p.units)
    requires i + 4 <= |code|
    ensures Compare4(p, code, i, a, b, c, d) ==
            Is(code[i] == a && code[i + 1] == b && code[i + 2] == c && code[i + 3] == d)
  {
    Compare2Exact(p, code, i, a, b);
    Compare2Exact(p, code, i + 2, c, d);
    LoadSplits(p.units, code, i);
    var lo, hi := Load(p.units, code, i, 2), Load(p.units, code, i + 2, 2);
    DigitsUnique(p.units, lo, hi, Pair(p.units, a, b), Pair(p.units, c, d));
    PairUnique(p.units, code[i], code[i + 1], a, b);
    PairUnique(p.units, code[i + 2], code[i + 3], c, d);
  }

  lemma {:induction false} LoadSplits(units: Units, code: Text, i: nat)
    requires i + 4 <= |code|
    ensures Load(units, code, i, 2) == Pair(units, code[i], code[i + 1])
    ensures Load(units, code, i + 2, 2) == Pair(units, code[i + 2], code[i + 3])
    ensures Load(units, code, i, 4) ==
            Load(units, code, i + 2, 2) * (Radix(units) * Radix(units)) + Load(units, code, i, 2)
  {
    assert Load(units, code, i + 3, 1) == code[i + 3] && Load(units, code, i + 1, 1) == code[i + 1];
    match units
    case LChars =>
      assert Load(units, code, i + 2, 2) == code[i + 2] + 0x100 * code[i + 3];
      assert Load(units, code, i + 1, 3) == code[i + 1] + 0x100 * Load(units, code, i + 2, 2);
    case UChars =>
      assert Load(units, code, i + 2, 2) == code[i + 2] + 0x1_0000 * code[i + 3];
      assert Load(units, code, i + 1, 3) == code[i + 1] + 0x1_0000 * Load(units, code, i + 2, 2);
  }

  lemma {:induction false} PairUnique(units: Units, a: nat, b: nat, c: nat, d: nat)
    requires a < Radix(units) && b < Radix(units) && c < Radix(units) && d < Radix(units)
    ensures Pair(units, a, b) == Pair(units, c, d) <==> a == c && b == d
    ensures Pair(units, a, b) < Radix(units) * Radix(units)
  {
  }

  lemma {:induction false} DigitsUnique(units: Units, lo: nat, hi: nat, lo': nat, hi': nat)
    requires lo < Radix(units) * Radix(units) && lo' < Radix(units) * Radix(units)
    ensures hi * (Radix(units) * Radix(units)) + lo == hi' * (Radix(units) * Radix(units)) + lo' <==>
            lo == lo' && hi == hi'
  {
  }

  /** Every macro, the overlapping seven-unit one included, compares unit by unit. */
  lemma {:induction false} CompareExact(p: Platform, code: Text, i: nat, k: Word)
    requires UnitsFit(p.units, code)
    requires 2 <= |k| <= 8 && i + |k| <= |code|
    ensures CompareMacro(p, code, i, k) == Is(k <= code[i..])
  {
    Compare2Exact(p, code, i, k[0], k[1]);
    if |k| >= 4 {
      Compare4Exact(p, code, i, k[0], k[1], k[2], k[3]);
    }
    if |k| == 6 {
      Compare2Exact(p, code, i + 4, k[4], k[5]);
    } else if |k| == 7 {
      Compare4Exact(p, code, i + 3, k[3], k[4], k[5], k[6]);
    } else if |k| == 8 {
      Compare4Exact(p, code, i + 4, k[4], k[5], k[6], k[7]);
    }
    PrefixByUnits(k, code, i);
  }

  lemma {:induction false} PrefixByUnits(k: Word, code: Text, i: nat)
    requires i + |k| <= |code|
    ensures k <= code[i..] <==> forall j :: 0 <= j < |k| ==> code[i + j] == k[j]
  {
    if forall j :: 0 <= j < |k| ==> code[i + j] == k[j] {
      assert forall j :: 0 <= j < |k| ==> code[i..][j] == k[j];
    } else {
      var j :| 0 <= j < |k| && code[i + j] != k[j];
      assert code[i..][j] != k[j];
    }
  }

  /** With a unit in front that is known to match, the rest decides. */
  lemma {:induction false} WidenedPrefix(c: nat, k: Word, code: Text, i: nat)
    requires 0 < i && i + |k| <= |code| && code[i - 1] == c
    ensures [c] + k <= code[i - 1..] <==> k <= code[i..]
  {
    assert code[i - 1..] == [c] + code[i..];
    if [c] + k <= code[i - 1..] {
      assert ([c] + k)[1..] == k && code[i - 1..][1..] == code[i..];
    }
  }

  /** The test of an edge succeeds exactly when the edge's units come next;
      the widened test may rely on the unit already matched. */
  lemma {:induction false} TestExact(p: Platform, code: Text, full: Word, child: Trie)
    requires UnitsFit(p.units, code)
    requires full <= code && child.fullPrefix == full + child.prefix
    requires 1 <= |child.prefix| <= 8 && |child.fullPrefix| <= |code|
    ensures Eval(p, code, EmitTest(|full|, child)) == Is(child.prefix <= code[|full|..])
  {
    hide UnitsFit, CompareMacro;
    var k, root := child.prefix, |full|;
    if root > 0 && |k| == 3 {
      CompareExact(p, code, root - 1, [child.fullPrefix[root - 1]] + k);
      WidenedPrefix(child.fullPrefix[root - 1], k, code, root);
    } else if |k| == 1 {
      PrefixByUnits(k, code, root);
    } else {
      CompareExact(p, code, root, k);
    }
  }

  // ----- Meaning of the whole program -----

  /** The word that ends at position `n` is stored below `t` and is not continued. */
  ghost predicate Hit(t: Trie, input: Input, n: nat) {
    && |t.fullPrefix| <= n <= |input.code|
    && Find(t, input.code[|t.fullPrefix|..n]).Some?
    && !input.isIdentPart(n)
  }

  /** The outcome is the shortest hit, or falls through when there is none. */
  ghost predicate Correct(t: Trie, input: Input, o: Outcome) {
    match o
    case Fault => false
    case FellThrough => forall n: nat :: !Hit(t, input, n)
    case Returned(token, shift, ident) =>
      && Hit(t, input, shift)
      && Find(t, input.code[|t.fullPrefix|..shift]) == Some(token)
      && ident == input.code[..shift]
      && forall n: nat :: n < shift ==> !Hit(t, input, n)
  }

  /** Every edge has a macro. */
  ghost predicate ShortEdges(t: Trie) {
    forall i :: 0 <= i < |t.keys| ==> 1 <= |t.keys[i].prefix| <= 8 && ShortEdges(t.keys[i])
  }

  ghost predicate Fits(p: Platform, t: Trie, input: Input) {
    && UnitsFit(p.units, input.code)
    && t.fullPrefix <= input.code
    && MaxLength(t) < |input.code|
  }

  /** The edge to child `i` is what comes next in the input. */
  ghost predicate Here(t: Trie, i: nat, code: Text)
    requires i < |t.keys| && |t.fullPrefix| <= |code|
  {
    t.keys[i].prefix <= code[|t.fullPrefix|..]
  }

  lemma {:induction false} ChildFits(p: Platform, t: Trie, i: nat, input: Input)
    requires Fits(p, t, input) && Spelled(t, t.fullPrefix)
    requires i < |t.keys|
    ensures t.keys[i].fullPrefix == t.fullPrefix + t.keys[i].prefix
    ensures MaxLength(t.keys[i]) < |input.code|
    ensures Spelled(t.keys[i], t.keys[i].fullPrefix)
    ensures Here(t, i, input.code) ==> Fits(p, t.keys[i], input)
  {
    var child, code, n := t.keys[i], input.code, |t.fullPrefix|;
    assert Spelled(child, t.fullPrefix + child.prefix);
    if child.prefix <= code[n..] {
      assert code == t.fullPrefix + code[n..];
    }
  }

  /** Below the node itself, hits are the hits of the child that comes next. */
  lemma {:induction false} HitsOfChild(t: Trie, i: nat, input: Input, n: nat)
    requires Forked(t) && t.fullPrefix <= input.code
    requires i < |t.keys| && Here(t, i, input.code)
    requires t.keys[i].fullPrefix == t.fullPrefix + t.keys[i].prefix
    requires n > |t.fullPrefix|
    ensures Hit(t, input, n) <==> Hit(t.keys[i], input, n)
    ensures Hit(t, input, n) ==> Find(t, input.code[|t.fullPrefix|..n]) ==
                                 Find(t.keys[i], input.code[|t.keys[i].fullPrefix|..n])
  {
    var child, code, root := t.keys[i], input.code, |t.fullPrefix|;
    if n <= |code| {
      var w := code[root..n];
      assert w[0] == code[root..][0] == child.prefix[0];
      BranchIs(t.keys, i, w[0]);
      assert Find(t, w) == FindFrom(child, w);
      if |child.fullPrefix| <= n {
        assert w == code[root..][..n - root];
        assert child.prefix <= w;
        assert w[|child.prefix|..] == code[|child.fullPrefix|..n];
      }
    }
  }

  lemma {:induction false} NoHitsBelow(t: Trie, input: Input, n: nat)
    requires Forked(t) && t.fullPrefix <= input.code
    requires forall i :: 0 <= i < |t.keys| ==> !Here(t, i, input.code)
    requires n > |t.fullPrefix|
    ensures !Hit(t, input, n)
  {
    var code, root := input.code, |t.fullPrefix|;
    if n <= |code| {
      var w := code[root..n];
      var i := Branch(t.keys, w[0]);
      assert Find(t, w) == if i < |t.keys| then FindFrom(t.keys[i], w) else None;
      if i < |t.keys| && t.keys[i].prefix <= w {
        assert code[root..] == w + code[n..];
        assert Here(t, i, code);
      }
    }
  }

  lemma {:induction false} ArmStep(p: Platform, t: Trie, input: Input, i: nat)
    requires Fits(p, t, input) && Spelled(t, t.fullPrefix)
    requires i < |t.keys| && 1 <= |t.keys[i].prefix| <= 8
    ensures ExecArms(p, EmitArms(|t.fullPrefix|, t.keys)[i..], input) ==
            if Here(t, i, input.code) then Exec(p, Emit(t.keys[i]), input)
            else ExecArms(p, EmitArms(|t.fullPrefix|, t.keys)[i + 1..], input)
  {
    ChildFits(p, t, i, input);
    TestExact(p, input.code, t.fullPrefix, t.keys[i]);
    var arms := EmitArms(|t.fullPrefix|, t.keys)[i..];
    assert arms[0] == Arm(EmitTest(|t.fullPrefix|, t.keys[i]), Emit(t.keys[i]));
    assert arms[1..] == EmitArms(|t.fullPrefix|, t.keys)[i + 1..];
  }

  /** The cascade runs the body of the edge that comes next, wherever it stands in the order. */
  lemma {:induction false} ArmsRun(p: Platform, t: Trie, input: Input, i: nat, next: nat)
    requires Fits(p, t, input) && Spelled(t, t.fullPrefix) && Forked(t)
    requires forall j :: 0 <= j < |t.keys| ==> 1 <= |t.keys[j].prefix| <= 8
    requires i <= next <= |t.keys|
    requires forall j :: 0 <= j < |t.keys| && j != next ==> !Here(t, j, input.code)
    requires next < |t.keys| ==> Here(t, next, input.code)
    ensures ExecArms(p, EmitArms(|t.fullPrefix|, t.keys)[i..], input) ==
            if next < |t.keys| then Exec(p, Emit(t.keys[next]), input) else FellThrough
    decreases next - i
  {
    if i < |t.keys| {
      ArmStep(p, t, input, i);
      if i < next {
        ArmsRun(p, t, input, i + 1, next);
      }
    }
  }

  lemma {:induction false} OneHere(t: Trie, i: nat, j: nat, code: Text)
    requires Forked(t) && |t.fullPrefix| <= |code|
    requires i < |t.keys| && j < |t.keys| && Here(t, i, code) && Here(t, j, code)
    ensures i == j
  {
    assert Head(t.keys[i]) == code[|t.fullPrefix|..][0] == Head(t.keys[j]);
  }

  /** The child that comes next, or the number of children. */
  ghost function NextChild(t: Trie, code: Text): (next: nat)
    requires Forked(t) && |t.fullPrefix| <= |code|
    ensures next <= |t.keys|
    ensures next < |t.keys| ==> Here(t, next, code)
    ensures forall j :: 0 <= j < |t.keys| && j != next ==> !Here(t, j, code)
  {
    if i :| 0 <= i < |t.keys| && Here(t, i, code) then
      assert forall j :: 0 <= j < |t.keys| && Here(t, j, code) ==> j == i by {
        forall j | 0 <= j < |t.keys| && Here(t, j, code) ensures j == i { OneHere(t, i, j, code); }
      }
      i
    else |t.keys|
  }

  lemma {:induction false} BelowCorrect(t: Trie, input: Input, next: nat, below: Outcome)
    requires Forked(t) && t.fullPrefix <= input.code && Spelled(t, t.fullPrefix)
    requires next == NextChild(t, input.code)
    requires if next < |t.keys| then Correct(t.keys[next], input, below) else below == FellThrough
    ensures !Hit(t, input, |t.fullPrefix|) ==> Correct(t, input, below)
  {
    var n := |t.fullPrefix|;
    if next < |t.keys| {
      assert Spelled(t.keys[next], t.fullPrefix + t.keys[next].prefix);
      forall k: nat | k > n
        ensures Hit(t, input, k) <==> Hit(t.keys[next], input, k)
        ensures Hit(t, input, k) ==> Find(t, input.code[n..k]) ==
                                     Find(t.keys[next], input.code[|t.keys[next].fullPrefix|..k])
      {
        HitsOfChild(t, next, input, k);
      }
    } else {
      forall k: nat | k > n ensures !Hit(t, input, k) {
        NoHitsBelow(t, input, k);
      }
    }
  }

  /** Running the code of a node finds the shortest hit below it. */
  lemma {:induction false} EmitCorrect(p: Platform, t: Trie, input: Input)
    requires Fits(p, t, input) && Spelled(t, t.fullPrefix) && ShortEdges(t) && Forked(t)
    ensures Correct(t, input, Exec(p, Emit(t), input))
    decreases t
  {
    var n, next := |t.fullPrefix|, NextChild(t, input.code);
    assert input.code[n..n] == [] && input.code[..n] == t.fullPrefix;
    ExecNode(p, t, input);
    ArmsRun(p, t, input, 0, next);
    assert EmitArms(n, t.keys)[0..] == EmitArms(n, t.keys);
    if next < |t.keys| {
      ChildFits(p, t, next, input);
      EmitCorrect(p, t.keys[next], input);
    }
    BelowCorrect(t, input, next, ExecBelow(p, t, input));
  }

  function ExecBelow(p: Platform, t: Trie, input: Input): Outcome {
    ExecArms(p, EmitArms(|t.fullPrefix|, t.keys), input)
  }

  lemma {:induction false} ExecNode(p: Platform, t: Trie, input: Input)
    requires |t.fullPrefix| < |input.code|
    ensures Exec(p, Emit(t), input) ==
            if t.value.Some? && !input.isIdentPart(|t.fullPrefix|)
            then Returned(t.value.value, |t.fullPrefix|, t.fullPrefix)
            else ExecBelow(p, t, input)
  {
    var chain := if t.keys == [] then [] else [Chain(EmitArms(|t.fullPrefix|, t.keys))];
    assert Exec(p, chain, input) == ExecBelow(p, t, input) by {
      if t.keys != [] {
        assert chain[1..] == [];
      }
    }
    if t.value.Some? {
      assert Emit(t)[1..] == chain;
    } else {
      assert Emit(t) == chain;
    }
  }
}
