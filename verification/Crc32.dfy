/** The table-driven CRC-32 of Tools/DumpRenderTree/CyclicRedundancyCheck.cpp against the
    bit-serial register of section 3.4 of RFC 2083, and the errors it is sure to detect. */
module Crc32 {

  /** The reflected polynomial; the source writes it as the int -306674912. */
  const POLYNOMIAL: bv32 := 0xEDB8_8320

  function Plus(a: bv32, b: bv32): bv32 { a ^ b }

  function Half(x: bv32): bv32 { x >> 1 }

  predicate Odd(x: bv32) { x & 1 == 1 }

  // ----- The register, one message bit at a time -----

  /** Shifts out one bit; the feedback is that bit added to the message bit. */
  function Feed(register: bv32, bit: bool): bv32 {
    if Odd(register) != bit then Plus(Half(register), POLYNOMIAL) else Half(register)
  }

  function FeedAll(register: bv32, bits: seq<bool>): bv32
    decreases |bits|
  {
    if bits == [] then register else FeedAll(Feed(register, bits[0]), bits[1..])
  }

  /** The low `k` bits, least significant first. */
  function LowBits(x: bv32, k: nat): (bits: seq<bool>)
    ensures |bits| == k
    decreases k
  {
    if k == 0 then [] else LowBits(x, k - 1) + [Odd(Shifted(x, k - 1))]
  }

  function Shifted(x: bv32, k: nat): bv32 {
    if k == 0 then x else Half(Shifted(x, k - 1))
  }

  /** The bits of a message: bytes in order, each from its least significant bit. */
  function BufferBits(buffer: seq<bv8>): (bits: seq<bool>)
    ensures |bits| == 8 * |buffer|
  {
    if buffer == [] then []
    else BufferBits(buffer[..|buffer| - 1]) + LowBits(buffer[|buffer| - 1] as bv32, 8)
  }

  /** The register starts with all ones and is inverted at the end. */
  function Crc(buffer: seq<bv8>): bv32 {
    Invert(FeedAll(0xFFFF_FFFF, BufferBits(buffer)))
  }

  function Invert(x: bv32): bv32 { x ^ 0xFFFF_FFFF }

  lemma {:induction false} FeedAllConcat(register: bv32, a: seq<bool>, b: seq<bool>)
    ensures FeedAll(register, a + b) == FeedAll(FeedAll(register, a), b)
    decreases |a|
  {
    hide Feed;
    if a == [] {
      assert a + b == b;
    } else {
      assert (a + b)[0] == a[0] && (a + b)[1..] == a[1..] + b;
      FeedAllConcat(Feed(register, a[0]), a[1..], b);
    }
  }

  // ----- Steps of the table and of the register -----

  /** One pass of the inner loop of makeCrcTable. */
  function Step(c: bv32): bv32 {
    if c & 1 == 1 then POLYNOMIAL ^ ((c >> 1) & 0x7FFF_FFFF) else c >> 1
  }

  function Steps(c: bv32, k: nat): bv32 {
    if k == 0 then c else Step(Steps(c, k - 1))
  }

  lemma {:induction false} HalfPlus(a: bv32, b: bv32)
    ensures Half(Plus(a, b)) == Plus(Half(a), Half(b))
  {
  }

  lemma {:induction false} OddPlus(a: bv32, b: bv32)
    ensures Odd(Plus(a, b)) <==> Odd(a) != Odd(b)
  {
  }

  lemma {:induction false} PlusAssociates(a: bv32, b: bv32, c: bv32)
    ensures Plus(Plus(a, b), c) == Plus(a, Plus(b, c))
  {
  }

  lemma {:induction false} PlusCommutes(a: bv32, b: bv32)
    ensures Plus(a, b) == Plus(b, a)
  {
  }

  lemma {:induction false} PlusSwap(a: bv32, b: bv32, c: bv32)
    ensures Plus(Plus(a, b), c) == Plus(Plus(a, c), b)
  {
    hide Plus;
    PlusAssociates(a, b, c);
    PlusAssociates(a, c, b);
    PlusCommutes(b, c);
  }

  lemma {:induction false} StepIsFeed(c: bv32)
    ensures Step(c) == Feed(c, false)
  {
    assert (c >> 1) & 0x7FFF_FFFF == c >> 1;
    assert POLYNOMIAL ^ (c >> 1) == (c >> 1) ^ POLYNOMIAL;
  }

  lemma {:induction false} FeedLast(register: bv32, bits: seq<bool>, bit: bool)
    ensures FeedAll(register, bits + [bit]) == Feed(FeedAll(register, bits), bit)
  {
    hide Feed;
    FeedAllConcat(register, bits, [bit]);
    var r := FeedAll(register, bits);
    assert [bit][1..] == [];
    assert FeedAll(r, [bit]) == FeedAll(Feed(r, bit), []);
  }

  /** Stepping a sum feeds the lowest bits of one part and shifts the rest of it. */
  lemma {:induction false} StepsOfSum(register: bv32, x: bv32, k: nat)
    ensures Steps(Plus(register, x), k) == Plus(FeedAll(register, LowBits(x, k)), Shifted(x, k))
  {
    hide Plus, Half, Odd, Step;
    if k > 0 {
      StepsOfSum(register, x, k - 1);
      var r, y := FeedAll(register, LowBits(x, k - 1)), Shifted(x, k - 1);
      assert Step(Plus(r, y)) == Plus(Feed(r, Odd(y)), Half(y)) by {
        HalfPlus(r, y);
        OddPlus(r, y);
        StepIsFeed(Plus(r, y));
        PlusSwap(Half(r), Half(y), POLYNOMIAL);
      }
      FeedLast(register, LowBits(x, k - 1), Odd(y));
    } else {
      assert LowBits(x, 0) == [];
    }
  }

  lemma {:induction false} ShiftedIs(x: bv32)
    ensures Shifted(x, 1) == x >> 1 && Shifted(x, 2) == x >> 2 && Shifted(x, 3) == x >> 3 && Shifted(x, 4) == x >> 4
    ensures Shifted(x, 5) == x >> 5 && Shifted(x, 6) == x >> 6 && Shifted(x, 7) == x >> 7 && Shifted(x, 8) == x >> 8
  {
    assert Shifted(x, 1) == x >> 1;
    assert Shifted(x, 2) == (x >> 1) >> 1 == x >> 2;
    assert Shifted(x, 3) == (x >> 2) >> 1 == x >> 3;
    assert Shifted(x, 4) == (x >> 3) >> 1 == x >> 4;
    assert Shifted(x, 5) == (x >> 4) >> 1 == x >> 5;
    assert Shifted(x, 6) == (x >> 5) >> 1 == x >> 6;
    assert Shifted(x, 7) == (x >> 6) >> 1 == x >> 7;
    assert Shifted(x, 8) == (x >> 7) >> 1 == x >> 8;
  }

  lemma {:induction false} HighPartIsEven(c: bv32, k: nat)
    requires k < 8
    ensures !Odd(Shifted(c & 0xFFFF_FF00, k))
  {
    var x := c & 0xFFFF_FF00;
    ShiftedIs(x);
    assert x & 1 == 0 && (x >> 1) & 1 == 0 && (x >> 2) & 1 == 0 && (x >> 3) & 1 == 0;
    assert (x >> 4) & 1 == 0 && (x >> 5) & 1 == 0 && (x >> 6) & 1 == 0 && (x >> 7) & 1 == 0;
    assert k == 0 || k == 1 || k == 2 || k == 3 || k == 4 || k == 5 || k == 6 || k == 7;
  }

  lemma {:induction false} ZeroStaysZero(k: nat)
    ensures Shifted(0, k) == 0
  {
    if k > 0 {
      ZeroStaysZero(k - 1);
    }
  }

  lemma {:induction false} HighPartFeedsZeros(c: bv32, k: nat)
    requires k <= 8
    ensures LowBits(c & 0xFFFF_FF00, k) == LowBits(0, k)
  {
    if k > 0 {
      HighPartFeedsZeros(c, k - 1);
      HighPartIsEven(c, k - 1);
      ZeroStaysZero(k - 1);
    }
  }

  lemma {:induction false} SplitByte(c: bv32)
    ensures Plus(c & 0xFF, c & 0xFFFF_FF00) == c
    ensures Plus(c & 0xFF, 0) == c & 0xFF
    ensures (c & 0xFFFF_FF00) >> 8 == (c >> 8) & 0x00FF_FFFF
  {
  }

  lemma {:induction false} PlusZero(c: bv32)
    ensures Plus(c, 0) == c
  {
  }

  /** Eight steps of any register are one table lookup. */
  lemma {:induction false} EightSteps(c: bv32)
    ensures Steps(c, 8) == Plus(Steps(c & 0xFF, 8), (c >> 8) & 0x00FF_FFFF)
  {
    hide Plus, Half, Odd, Step, Feed, Steps, FeedAll, LowBits, Shifted;
    var lo, hi := c & 0xFF, c & 0xFFFF_FF00;
    SplitByte(c);
    StepsOfSum(lo, hi, 8);
    StepsOfSum(lo, 0, 8);
    HighPartFeedsZeros(c, 8);
    ShiftedIs(hi);
    ZeroStaysZero(8);
    PlusZero(FeedAll(lo, LowBits(0, 8)));
  }

  /** Adding a byte and stepping eight times feeds its eight bits. */
  lemma {:induction false} ByteSteps(register: bv32, b: bv8)
    ensures Steps(Plus(register, b as bv32), 8) == FeedAll(register, LowBits(b as bv32, 8))
  {
    hide Plus, Half, Odd, Step, Feed, Steps, FeedAll, LowBits, Shifted;
    StepsOfSum(register, b as bv32, 8);
    ShiftedIs(b as bv32);
    assert (b as bv32) >> 8 == 0;
    PlusZero(FeedAll(register, LowBits(b as bv32, 8)));
  }

  lemma {:induction false} ByteIsLow(crc: bv32, b: bv8)
    ensures (Plus(crc, b as bv32) >> 8) & 0x00FF_FFFF == (crc >> 8) & 0x00FF_FFFF
  {
  }

  /** The update of computeCrc feeds one byte. */
  lemma {:induction false} TableUpdate(crc: bv32, b: bv8)
    ensures Plus(Steps(Plus(crc, b as bv32) & 0xFF, 8), (crc >> 8) & 0x00FF_FFFF) == FeedAll(crc, LowBits(b as bv32, 8))
  {
    hide Plus, Half, Odd, Step, Feed, Steps, FeedAll, LowBits, Shifted;
    ByteSteps(crc, b);
    EightSteps(Plus(crc, b as bv32));
    ByteIsLow(crc, b);
  }

  // ----- The program -----

  /** computeCrc with its two static variables. */
  class CrcComputer {
    var crcTable: array<bv32>
    var crcTableComputed: bool

    ghost predicate Valid()
      reads this, crcTable
    {
      crcTable.Length == 256 && (crcTableComputed ==> Filled(crcTable[..]))
    }

    constructor ()
      ensures Valid() && !crcTableComputed && fresh(crcTable)
    {
      crcTable := new bv32[256];
      crcTableComputed := false;
    }

    method ComputeCrc(buffer: seq<bv8>) returns (crc: bv32)
      requires Valid()
      modifies this, crcTable
      ensures Valid() && crcTableComputed && crcTable == old(crcTable)
      ensures old(crcTableComputed) ==> crcTable[..] == old(crcTable[..])
      ensures crc == Crc(buffer)
    {
      hide Steps, FeedAll, LowBits;
      if !crcTableComputed {
        MakeCrcTable(crcTable);
        crcTableComputed := true;
      }
      crc := 0xFFFF_FFFF;
      assert BufferBits(buffer[..0]) == [];
      FeedNothing(crc);
      for i := 0 to |buffer|
        invariant Valid() && crcTableComputed && crcTable == old(crcTable)
        invariant old(crcTableComputed) ==> crcTable[..] == old(crcTable[..])
        invariant crc == FeedAll(0xFFFF_FFFF, BufferBits(buffer[..i]))
      {
        assert buffer[..i + 1][..i] == buffer[..i];
        FeedAllConcat(0xFFFF_FFFF, BufferBits(buffer[..i]), LowBits(buffer[i] as bv32, 8));
        crc := Update(crc, buffer[i]);
      }
      assert buffer[..|buffer|] == buffer;
      crc := crc ^ 0xFFFF_FFFF;
    }

    /** The body of the loop over the buffer. */
    method Update(crc: bv32, b: bv8) returns (r: bv32)
      requires Valid() && crcTableComputed
      ensures r == FeedAll(crc, LowBits(b as bv32, 8))
    {
      hide Plus, Steps, FeedAll, LowBits;
      var index := Plus(crc, b as bv32) & 0xFF;
      LowByte(Plus(crc, b as bv32));
      Indexes(index);
      TableUpdate(crc, b);
      assert crcTable[..][index as int] == Steps(index, 8);
      r := Plus(crcTable[index as int], (crc >> 8) & 0x00FF_FFFF);
    }
  }

  lemma {:induction false} FeedNothing(register: bv32)
    ensures FeedAll(register, []) == register
  {
  }

  lemma {:induction false} LowByte(c: bv32)
    ensures c & 0xFF < 256
  {
  }

  lemma {:induction false} Indexes(c: bv32)
    requires c < 256
    ensures (c as int) < 256
    ensures (c as int) as bv32 == c
  {
  }

  ghost predicate Filled(table: seq<bv32>) {
    |table| == 256 && forall i :: 0 <= i < 256 ==> table[i] == Steps(i as bv32, 8)
  }

  method MakeCrcTable(crcTable: array<bv32>)
    requires crcTable.Length == 256
    modifies crcTable
    ensures Filled(crcTable[..])
  {
    for i := 0 to 256
      invariant forall j :: 0 <= j < i ==> crcTable[j] == Steps(j as bv32, 8)
    {
      var c := i as bv32;
      for k := 0 to 8
        invariant c == Steps(i as bv32, k)
        invariant forall j :: 0 <= j < i ==> crcTable[j] == Steps(j as bv32, 8)
      {
        if c & 1 == 1 {
          c := POLYNOMIAL ^ ((c >> 1) & 0x7FFF_FFFF);
        } else {
          c := c >> 1;
        }
      }
      crcTable[i] := c;
    }
  }

  // ----- Burst errors -----

  /** The mask that leaves out the low `j` bits. */
  function High(j: nat): bv32 {
    if j == 0 then 0xFFFF_FFFF else High(j - 1) << 1
  }

  predicate TopSet(x: bv32) { x & 0x8000_0000 != 0 }

  /** Two registers agree on all but their low bits. */
  predicate Agree(a: bv32, b: bv32, mask: bv32) { Clear(Plus(a, b), mask) }

  predicate Clear(x: bv32, mask: bv32) { x & mask == 0 }

  lemma {:induction false} ShiftKeepsInclusion(a: bv32, b: bv32)
    requires a & b == b
    ensures (a << 1) & (b << 1) == b << 1
  {
    ShiftOfMeet(a, b);
  }

  lemma {:induction false} ShiftOfMeet(a: bv32, b: bv32)
    ensures (a << 1) & (b << 1) == (a & b) << 1
  {
  }

  lemma {:induction false} HighLast()
    ensures High(31) == 0x8000_0000
  {
    assert High(1) == 0xFFFF_FFFE && High(2) == 0xFFFF_FFFC && High(3) == 0xFFFF_FFF8 && High(4) == 0xFFFF_FFF0;
    assert High(5) == 0xFFFF_FFE0 && High(6) == 0xFFFF_FFC0 && High(7) == 0xFFFF_FF80 && High(8) == 0xFFFF_FF00;
    assert High(9) == 0xFFFF_FE00 && High(10) == 0xFFFF_FC00 && High(11) == 0xFFFF_F800 && High(12) == 0xFFFF_F000;
    assert High(13) == 0xFFFF_E000 && High(14) == 0xFFFF_C000 && High(15) == 0xFFFF_8000 && High(16) == 0xFFFF_0000;
    assert High(17) == 0xFFFE_0000 && High(18) == 0xFFFC_0000 && High(19) == 0xFFF8_0000 && High(20) == 0xFFF0_0000;
    assert High(21) == 0xFFE0_0000 && High(22) == 0xFFC0_0000 && High(23) == 0xFF80_0000 && High(24) == 0xFF00_0000;
    assert High(25) == 0xFE00_0000 && High(26) == 0xFC00_0000 && High(27) == 0xF800_0000 && High(28) == 0xF000_0000;
    assert High(29) == 0xE000_0000 && High(30) == 0xC000_0000 && High(31) == 0x8000_0000;
  }

  lemma {:induction false} HighShrinks(j: nat)
    ensures High(j) & High(j + 1) == High(j + 1)
  {
    if j == 0 {
      assert 0xFFFF_FFFF & High(1) == High(1);
    } else {
      HighShrinks(j - 1);
      ShiftKeepsInclusion(High(j - 1), High(j));
    }
  }

  lemma {:induction false} TopOfSubset(a: bv32, b: bv32)
    requires a & b == b && TopSet(b)
    ensures TopSet(a)
  {
  }

  lemma {:induction false} HighHasTop(j: nat)
    requires j <= 31
    ensures TopSet(High(j))
    decreases 31 - j
  {
    if j == 31 {
      HighLast();
    } else {
      HighHasTop(j + 1);
      HighShrinks(j);
      TopOfSubset(High(j), High(j + 1));
    }
  }

  /** The top bit after a step is the feedback of the step. */
  lemma {:induction false} TopIsFeedback(register: bv32, bit: bool)
    ensures TopSet(Feed(register, bit)) <==> Odd(register) != bit
  {
  }

  lemma {:induction false} TopAgrees(a: bv32, b: bv32, mask: bv32)
    requires Agree(a, b, mask) && TopSet(mask)
    ensures TopSet(a) <==> TopSet(b)
  {
  }

  lemma {:induction false} PolynomialCancels(a: bv32, b: bv32)
    ensures Plus(Plus(a, POLYNOMIAL), Plus(b, POLYNOMIAL)) == Plus(a, b)
  {
  }

  lemma {:induction false} MeetOfShift(d: bv32, mask: bv32)
    ensures Clear(Half(d), mask) ==> Clear(d, mask << 1)
  {
  }

  lemma {:induction false} CommonCancels(a: bv32, b: bv32, mask: bv32)
    ensures Agree(Plus(a, POLYNOMIAL), Plus(b, POLYNOMIAL), mask) <==> Agree(a, b, mask)
  {
    hide Plus, Clear;
    PolynomialCancels(a, b);
  }

  lemma {:induction false} AgreeShifts(a: bv32, b: bv32, mask: bv32)
    requires Agree(Half(a), Half(b), mask)
    ensures Agree(a, b, mask << 1)
  {
    hide Plus, Half, Clear;
    HalfPlus(a, b);
    MeetOfShift(Plus(a, b), mask);
  }

  /** Registers that agree after a step had the same feedback and agreed before, up to one bit more. */
  lemma {:induction false} BackStep(a: bv32, x: bool, b: bv32, y: bool, mask: bv32)
    requires TopSet(mask) && Agree(Feed(a, x), Feed(b, y), mask)
    ensures (Odd(a) != x) == (Odd(b) != y)
    ensures Agree(a, b, mask << 1)
  {
    hide Plus, Half, Odd, Agree, TopSet;
    TopAgrees(Feed(a, x), Feed(b, y), mask);
    TopIsFeedback(a, x);
    TopIsFeedback(b, y);
    CommonCancels(Half(a), Half(b), mask);
    AgreeShifts(a, b, mask);
  }

  lemma {:induction false} BackSteps(a: bv32, s: seq<bool>, b: bv32, t: seq<bool>)
    requires |s| == |t| <= 32
    requires FeedAll(a, s) == FeedAll(b, t)
    ensures Agree(a, b, High(|s|))
    decreases |s|
  {
    hide Feed, TopSet;
    if s == [] {
      assert Plus(a, b) == 0;
    } else {
      BackSteps(Feed(a, s[0]), s[1..], Feed(b, t[0]), t[1..]);
      HighHasTop(|s| - 1);
      BackStep(a, s[0], b, t[0], High(|s| - 1));
    }
  }

  /** From the same register, different strings of at most 32 bits lead to different registers. */
  lemma {:induction false} BurstDetected(register: bv32, s: seq<bool>, t: seq<bool>)
    requires |s| == |t| <= 32 && s != t
    ensures FeedAll(register, s) != FeedAll(register, t)
    decreases |s|
  {
    hide Feed, Odd, TopSet, Agree, Plus, Half, High;
    if FeedAll(register, s) == FeedAll(register, t) {
      BackSteps(Feed(register, s[0]), s[1..], Feed(register, t[0]), t[1..]);
      HighHasTop(|s| - 1);
      BackStep(register, s[0], register, t[0], High(|s| - 1));
      assert s == [s[0]] + s[1..] && t == [t[0]] + t[1..];
      BurstDetected(Feed(register, s[0]), s[1..], t[1..]);
    }
  }

  /** A step loses nothing: different registers stay different while the same bits are fed. */
  lemma {:induction false} FeedInjective(a: bv32, b: bv32, bits: seq<bool>)
    requires FeedAll(a, bits) == FeedAll(b, bits)
    ensures a == b
    decreases |bits|
  {
    hide Feed;
    if bits != [] {
      FeedInjective(Feed(a, bits[0]), Feed(b, bits[0]), bits[1..]);
      StepInjective(a, b, bits[0]);
    }
  }

  lemma {:induction false} StepInjective(a: bv32, b: bv32, bit: bool)
    requires Feed(a, bit) == Feed(b, bit)
    ensures a == b
  {
    assert TopSet(0xFFFF_FFFF) && Agree(Feed(a, bit), Feed(b, bit), 0xFFFF_FFFF);
    BackStep(a, bit, b, bit, 0xFFFF_FFFF);
    AllButLow(a, b);
  }

  lemma {:induction false} AllButLow(a: bv32, b: bv32)
    requires Agree(a, b, 0xFFFF_FFFF << 1) && Odd(a) == Odd(b)
    ensures a == b
  {
  }

  lemma {:induction false} ShiftedSum(x: bv32, j: nat, k: nat)
    ensures Shifted(x, j + k) == Shifted(Shifted(x, j), k)
    decreases k
  {
    hide Half;
    if k > 0 {
      ShiftedSum(x, j, k - 1);
    }
  }

  lemma {:induction false} ShiftedOut(x: bv32)
    ensures Shifted(x, 32) == 0
  {
    hide Shifted;
    ShiftedSum(x, 8, 24);
    ShiftedSum(x >> 8, 8, 16);
    ShiftedSum((x >> 8) >> 8, 8, 8);
    ShiftedIs(x);
    ShiftedIs(x >> 8);
    ShiftedIs((x >> 8) >> 8);
    ShiftedIs(((x >> 8) >> 8) >> 8);
    assert (((x >> 8) >> 8) >> 8) >> 8 == 0;
  }

  lemma {:induction false} OwnBit(x: bv32)
    ensures Feed(x, Odd(x)) == Half(x)
  {
    hide Half, Odd, Plus;
  }

  /** Feeding a register its own bits never causes feedback. */
  lemma {:induction false} OwnBits(x: bv32, k: nat)
    ensures FeedAll(x, LowBits(x, k)) == Shifted(x, k)
  {
    hide Half, Odd, Feed;
    if k > 0 {
      OwnBits(x, k - 1);
      OwnBit(Shifted(x, k - 1));
      FeedLast(x, LowBits(x, k - 1), Odd(Shifted(x, k - 1)));
    } else {
      assert LowBits(x, 0) == [];
    }
  }

  /** The bound is exact: from every register two different strings of 33 bits lead to the same one. */
  lemma {:induction false} LongerBurstMissed(register: bv32) returns (s: seq<bool>, t: seq<bool>)
    ensures |s| == |t| == 33 && s != t
    ensures FeedAll(register, s) == FeedAll(register, t)
  {
    hide Half, Odd, LowBits, Shifted;
    var a, b := Feed(register, true), Feed(register, false);
    s, t := [true] + LowBits(a, 32), [false] + LowBits(b, 32);
    assert s[1..] == LowBits(a, 32) && t[1..] == LowBits(b, 32);
    assert s[0] != t[0];
    OwnBits(a, 32);
    OwnBits(b, 32);
    ShiftedOut(a);
    ShiftedOut(b);
  }

  // ----- Messages -----

  lemma {:induction false} LowBitAt(x: bv32, k: nat, j: nat)
    requires j < k
    ensures LowBits(x, k)[j] == Odd(Shifted(x, j))
  {
    if j < k - 1 {
      LowBitAt(x, k - 1, j);
    }
  }

  lemma {:induction false} BitsOfByte(b: bv8)
    ensures var x, bits := b as bv32, LowBits(b as bv32, 8);
            && bits[0] == (x & 1 == 1) && bits[1] == ((x >> 1) & 1 == 1)
            && bits[2] == ((x >> 2) & 1 == 1) && bits[3] == ((x >> 3) & 1 == 1)
            && bits[4] == ((x >> 4) & 1 == 1) && bits[5] == ((x >> 5) & 1 == 1)
            && bits[6] == ((x >> 6) & 1 == 1) && bits[7] == ((x >> 7) & 1 == 1)
  {
    var x := b as bv32;
    ShiftedIs(x);
    LowBitAt(x, 8, 0);
    LowBitAt(x, 8, 1);
    LowBitAt(x, 8, 2);
    LowBitAt(x, 8, 3);
    LowBitAt(x, 8, 4);
    LowBitAt(x, 8, 5);
    LowBitAt(x, 8, 6);
    LowBitAt(x, 8, 7);
  }

  lemma {:induction false} ByteFromBits(x: bv8, y: bv8)
    requires LowBits(x as bv32, 8) == LowBits(y as bv32, 8)
    ensures x == y
  {
    hide LowBits;
    BitsOfByte(x);
    BitsOfByte(y);
  }

  lemma {:induction false} LastByteBits(a: seq<bv8>)
    requires a != []
    ensures BufferBits(a)[..8 * (|a| - 1)] == BufferBits(a[..|a| - 1])
    ensures BufferBits(a)[8 * (|a| - 1)..] == LowBits(a[|a| - 1] as bv32, 8)
  {
    hide LowBits;
  }

  /** A message can be read back from its bits. */
  lemma {:induction false} BitsDetermineBuffer(a: seq<bv8>, b: seq<bv8>)
    requires BufferBits(a) == BufferBits(b)
    ensures a == b
  {
    hide LowBits, BufferBits;
    assert |a| == |b|;
    if a != [] {
      var n := |a| - 1;
      LastByteBits(a);
      LastByteBits(b);
      BitsDetermineBuffer(a[..n], b[..n]);
      ByteFromBits(a[n], b[n]);
      assert a == a[..n] + [a[n]] && b == b[..n] + [b[n]];
    }
  }

  /** The bits of two messages differ only within `n` consecutive positions from `lo`. */
  ghost predicate DifferWithin(a: seq<bool>, b: seq<bool>, lo: nat, n: nat) {
    |a| == |b| && forall i :: 0 <= i < |a| && a[i] != b[i] ==> lo <= i < lo + n
  }

  /** Every error burst of at most 32 bits, wherever it starts, changes the CRC. */
  lemma {:induction false} CrcDetectsBurst(a: seq<bv8>, b: seq<bv8>, lo: nat, n: nat)
    requires a != b && n <= 32
    requires DifferWithin(BufferBits(a), BufferBits(b), lo, n)
    ensures Crc(a) != Crc(b)
  {
    hide FeedAll, LowBits, BufferBits, Invert;
    var x, y := BufferBits(a), BufferBits(b);
    var mid := if lo <= |x| then lo else |x|;
    var hi := if lo + n <= |x| then lo + n else |x|;
    assert x[..mid] == y[..mid] && x[hi..] == y[hi..];
    if x[mid..hi] == y[mid..hi] {
      assert x == x[..mid] + x[mid..hi] + x[hi..] && y == y[..mid] + y[mid..hi] + y[hi..];
      BitsDetermineBuffer(a, b);
    }
    var register := FeedAll(0xFFFF_FFFF, x[..mid]);
    SplitFeed(0xFFFF_FFFF, x, mid, hi);
    SplitFeed(0xFFFF_FFFF, y, mid, hi);
    BurstDetected(register, x[mid..hi], y[mid..hi]);
    if FeedAll(0xFFFF_FFFF, x) == FeedAll(0xFFFF_FFFF, y) {
      FeedInjective(FeedAll(register, x[mid..hi]), FeedAll(register, y[mid..hi]), x[hi..]);
    }
    InvertTwice(FeedAll(0xFFFF_FFFF, x));
    InvertTwice(FeedAll(0xFFFF_FFFF, y));
  }

  lemma {:induction false} SplitFeed(register: bv32, bits: seq<bool>, mid: nat, hi: nat)
    requires mid <= hi <= |bits|
    ensures FeedAll(register, bits) == FeedAll(FeedAll(FeedAll(register, bits[..mid]), bits[mid..hi]), bits[hi..])
  {
    hide FeedAll;
    assert bits == bits[..mid] + bits[mid..];
    assert bits[mid..] == bits[mid..hi] + bits[hi..];
    FeedAllConcat(register, bits[..mid], bits[mid..]);
    FeedAllConcat(FeedAll(register, bits[..mid]), bits[mid..hi], bits[hi..]);
  }

  lemma {:induction false} InvertTwice(x: bv32)
    ensures Invert(Invert(x)) == x
  {
  }

  /** In particular, damage to any four consecutive bytes changes the CRC. */
  lemma {:induction false} CrcDetectsFourBytes(a: seq<bv8>, b: seq<bv8>, lo: nat)
    requires |a| == |b| && a != b
    requires forall i :: 0 <= i < |a| && a[i] != b[i] ==> lo <= i < lo + 4
    ensures Crc(a) != Crc(b)
  {
    hide LowBits;
    forall i | 0 <= i < 8 * |a| && BufferBits(a)[i] != BufferBits(b)[i] ensures 8 * lo <= i < 8 * lo + 32 {
      BitOfBuffer(a, i);
      BitOfBuffer(b, i);
    }
    CrcDetectsBurst(a, b, 8 * lo, 32);
  }

  lemma {:induction false} BitOfBuffer(a: seq<bv8>, i: nat)
    requires i < 8 * |a|
    ensures BufferBits(a)[i] == LowBits(a[i / 8] as bv32, 8)[i % 8]
  {
    hide LowBits;
    var n := |a| - 1;
    if i < 8 * n {
      BitOfBuffer(a[..n], i);
      assert a[..n][i / 8] == a[i / 8];
    } else {
      assert i / 8 == n && i % 8 == i - 8 * n;
    }
  }

  // ----- A burst that is missed -----

  lemma {:induction false} BufferBitsConcat(a: seq<bv8>, b: seq<bv8>)
    ensures BufferBits(a + b) == BufferBits(a) + BufferBits(b)
    decreases |b|
  {
    hide LowBits;
    if b == [] {
      assert a + b == a;
    } else {
      var n := |b| - 1;
      assert (a + b)[..|a + b| - 1] == a + b[..n];
      BufferBitsConcat(a, b[..n]);
    }
  }

  function BitValue(bit: bool, value: bv32): bv32 {
    if bit then value else 0
  }

  function ByteValue(bits: seq<bool>): bv32
    requires |bits| == 8
  {
    BitValue(bits[0], 1) | BitValue(bits[1], 2) | BitValue(bits[2], 4) | BitValue(bits[3], 8)
    | BitValue(bits[4], 16) | BitValue(bits[5], 32) | BitValue(bits[6], 64) | BitValue(bits[7], 128)
  }

  lemma {:induction false} ByteOf(bits: seq<bool>) returns (b: bv8)
    requires |bits| == 8
    ensures LowBits(b as bv32, 8) == bits
  {
    hide LowBits;
    var x := ByteValue(bits);
    assert x < 256;
    b := x as bv8;
    assert b as bv32 == x;
    BitsOfByte(b);
  }

  /** Every string of whole bytes is that of a message. */
  lemma {:induction false} BufferOf(bits: seq<bool>) returns (buffer: seq<bv8>)
    requires |bits| % 8 == 0
    ensures BufferBits(buffer) == bits
    decreases |bits|
  {
    hide LowBits;
    if bits == [] {
      buffer := [];
    } else {
      var n := |bits| - 8;
      var front := BufferOf(bits[..n]);
      var last := ByteOf(bits[n..]);
      buffer := front + [last];
      assert buffer[..|buffer| - 1] == front && bits == bits[..n] + bits[n..];
    }
  }

  lemma {:induction false} CrcOfParts(p: seq<bv8>, x: seq<bv8>, q: seq<bv8>)
    ensures BufferBits(p + x + q) == BufferBits(p) + BufferBits(x) + BufferBits(q)
    ensures Crc(p + x + q) ==
            Invert(FeedAll(FeedAll(FeedAll(0xFFFF_FFFF, BufferBits(p)), BufferBits(x)), BufferBits(q)))
  {
    hide FeedAll, BufferBits, Invert;
    BufferBitsConcat(p + x, q);
    BufferBitsConcat(p, x);
    FeedAllConcat(0xFFFF_FFFF, BufferBits(p) + BufferBits(x), BufferBits(q));
    FeedAllConcat(0xFFFF_FFFF, BufferBits(p), BufferBits(x));
  }

  /** The bound is exact for messages too: between any two messages five bytes can be put in two ways that differ
      only within 33 consecutive bits and lead to the same CRC. */
  lemma {:induction false} CrcMissesBurst(p: seq<bv8>, q: seq<bv8>) returns (x: seq<bv8>, y: seq<bv8>)
    ensures |x| == |y| == 5 && x != y && Crc(p + x + q) == Crc(p + y + q)
    ensures DifferWithin(BufferBits(p + x + q), BufferBits(p + y + q), 8 * |p|, 33)
  {
    hide FeedAll, BufferBits, Invert, LowBits;
    var register := FeedAll(0xFFFF_FFFF, BufferBits(p));
    var s, t := LongerBurstMissed(register);
    var rest := seq(7, _ => false);
    FeedAllConcat(register, s, rest);
    FeedAllConcat(register, t, rest);
    x := BufferOf(s + rest);
    y := BufferOf(t + rest);
    assert (s + rest)[..33] == s && (t + rest)[..33] == t;
    CrcOfParts(p, x, q);
    CrcOfParts(p, y, q);
  }
}
