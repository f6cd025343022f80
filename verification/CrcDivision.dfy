/** The checksum of Crc32 as the remainder of a polynomial division over GF(2), with the generator of section 3.4 of
    RFC 2083. A polynomial is the sequence of its coefficients, the highest power first. */
module CrcDivision {
  import opened Crc32

  type Poly = seq<bool>

  /** The powers of x with a coefficient in the generator. */
  const EXPONENTS: set<nat> := {32, 26, 23, 22, 16, 12, 11, 10, 8, 7, 5, 4, 2, 1, 0}

  ghost function Generator(): (g: Poly)
    ensures |g| == 33
  {
    seq(33, i requires 0 <= i < 33 => 32 - i in EXPONENTS)
  }

  ghost function Zeros(n: nat): (z: Poly)
    ensures |z| == n && forall i :: 0 <= i < n ==> !z[i]
  {
    seq(n, _ => false)
  }

  ghost function Sum(a: Poly, b: Poly): (s: Poly)
    requires |a| == |b|
    ensures |s| == |a| && forall i :: 0 <= i < |s| ==> s[i] == (a[i] != b[i])
  {
    seq(|a|, i requires 0 <= i < |a| => a[i] != b[i])
  }

  /** The generator times one power more than the rest of the factor needs, or nothing. */
  ghost function Multiple(yes: bool, n: nat): (m: Poly)
    ensures |m| == n + 33
  {
    (if yes then Generator() else Zeros(33)) + Zeros(n)
  }

  ghost function Product(q: Poly): (p: Poly)
    ensures |p| == |q| + 32
    decreases |q|
  {
    if q == [] then Zeros(32) else Sum(Multiple(q[0], |q| - 1), [false] + Product(q[1..]))
  }

  /** A register as a polynomial of degree below 32: it is reflected, so its lowest bit is the highest power. */
  ghost function Coefficients(register: bv32): (p: Poly)
    ensures |p| == 32
  {
    LowBits(register, 32)
  }

  /** The message times x^32, with the register added to its first 32 coefficients. */
  ghost function Dividend(register: bv32, bits: seq<bool>): (p: Poly)
    ensures |p| == |bits| + 32
  {
    Sum(Coefficients(register) + Zeros(|bits|), bits + Zeros(32))
  }

  /** The bits that are fed back. */
  ghost function Quotient(register: bv32, bits: seq<bool>): (q: Poly)
    ensures |q| == |bits|
    decreases |bits|
  {
    if bits == [] then [] else [Odd(register) != bits[0]] + Quotient(Feed(register, bits[0]), bits[1..])
  }

  // ----- Registers as polynomials -----

  lemma {:induction false} LowBitsAt(x: bv32, k: nat, i: nat)
    requires i < k
    ensures LowBits(x, k)[i] == Odd(Shifted(x, i))
    decreases k
  {
    if i < k - 1 {
      LowBitsAt(x, k - 1, i);
    }
  }

  lemma {:induction false} ShiftedHalf(x: bv32, k: nat)
    ensures Shifted(Half(x), k) == Shifted(x, k + 1)
  {
    hide Half;
    if k > 0 {
      ShiftedHalf(x, k - 1);
    }
  }

  lemma {:induction false} ShiftedPlus(a: bv32, b: bv32, k: nat)
    ensures Shifted(Plus(a, b), k) == Plus(Shifted(a, k), Shifted(b, k))
  {
    hide Half, Plus;
    if k > 0 {
      ShiftedPlus(a, b, k - 1);
      HalfPlus(Shifted(a, k - 1), Shifted(b, k - 1));
    }
  }

  /** Nothing is left after 32 shifts. */
  lemma {:induction false} ShiftedOut(x: bv32)
    ensures !Odd(Shifted(x, 32))
  {
    hide Half;
    ShiftedByte(x, 0);
    ShiftedByte(x, 8);
    ShiftedByte(x, 16);
    ShiftedByte(x, 24);
    GoneAfterFour(x);
  }

  lemma {:induction false} ShiftedByte(x: bv32, k: nat)
    ensures Shifted(x, k + 8) == Shifted(x, k) >> 8
  {
    ShiftedIs(Shifted(x, k));
    ShiftedTwice(x, k, 8);
  }

  lemma {:induction false} ShiftedTwice(x: bv32, k: nat, n: nat)
    ensures Shifted(x, k + n) == Shifted(Shifted(x, k), n)
  {
    hide Half;
    if n > 0 {
      ShiftedTwice(x, k, n - 1);
    }
  }

  lemma {:induction false} GoneAfterFour(x: bv32)
    ensures (((x >> 8) >> 8) >> 8) >> 8 == 0 && !Odd(0)
  {
  }

  // ----- The generator -----

  /** The constant of the source has exactly the coefficients of the generator below x^32. */
  lemma {:induction false} PolynomialIsGenerator(k: nat)
    requires k < 32
    ensures Odd(Shifted(POLYNOMIAL, k)) <==> 31 - k in EXPONENTS
    ensures Coefficients(POLYNOMIAL)[k] == Generator()[k + 1]
  {
    hide Shifted, Odd, LowBits;
    LowBitsAt(POLYNOMIAL, 32, k);
    PolynomialBytes();
    if k < 8 {
      FirstByte(k);
    } else if k < 16 {
      ShiftedTwice(POLYNOMIAL, 8, k - 8);
      SecondByte(k - 8);
    } else if k < 24 {
      ShiftedTwice(POLYNOMIAL, 16, k - 16);
      ThirdByte(k - 16);
    } else {
      ShiftedTwice(POLYNOMIAL, 24, k - 24);
      FourthByte(k - 24);
    }
  }

  lemma {:induction false} PolynomialBytes()
    ensures Shifted(POLYNOMIAL, 8) == 0x00ED_B883 && Shifted(POLYNOMIAL, 16) == 0x0000_EDB8
    ensures Shifted(POLYNOMIAL, 24) == 0x0000_00ED
  {
    ShiftedByte(POLYNOMIAL, 0);
    ShiftedByte(POLYNOMIAL, 8);
    ShiftedByte(POLYNOMIAL, 16);
  }

  lemma {:induction false} FirstByte(k: nat)
    requires k < 8
    ensures Odd(Shifted(0xEDB8_8320, k)) <==> 0 + k in {5}
  {
    ShiftedIs(0xEDB8_8320);
  }

  lemma {:induction false} SecondByte(k: nat)
    requires k < 8
    ensures Odd(Shifted(0x00ED_B883, k)) <==> 8 + k in {8, 9, 15}
  {
    ShiftedIs(0x00ED_B883);
  }

  lemma {:induction false} ThirdByte(k: nat)
    requires k < 8
    ensures Odd(Shifted(0x0000_EDB8, k)) <==> 16 + k in {19, 20, 21, 23}
  {
    ShiftedIs(0x0000_EDB8);
  }

  lemma {:induction false} FourthByte(k: nat)
    requires k < 8
    ensures Odd(Shifted(0x0000_00ED, k)) <==> 24 + k in {24, 26, 27, 29, 30, 31}
  {
    ShiftedIs(0x0000_00ED);
  }

  // ----- One step of the division -----

  /** Shifting the register and feeding back subtracts the generator when the leading coefficient is one. */
  lemma {:induction false} FeedCoefficient(register: bv32, bit: bool, i: nat)
    requires 1 <= i <= 32
    ensures Coefficients(Feed(register, bit))[i - 1] ==
            ((i < 32 && Coefficients(register)[i]) != (Odd(register) != bit && Generator()[i]))
  {
    hide Plus, Half, Odd, Shifted, LowBits;
    LowBitsAt(Feed(register, bit), 32, i - 1);
    ShiftedHalf(register, i - 1);
    if i < 32 {
      LowBitsAt(register, 32, i);
    } else {
      ShiftedOut(register);
    }
    if Odd(register) != bit {
      PolynomialIsGenerator(i - 1);
      LowBitsAt(POLYNOMIAL, 32, i - 1);
      ShiftedPlus(Half(register), POLYNOMIAL, i - 1);
      OddPlus(Shifted(Half(register), i - 1), Shifted(POLYNOMIAL, i - 1));
    }
  }

  lemma {:induction false} DivisionStep(register: bv32, bits: seq<bool>)
    requires bits != []
    ensures Dividend(register, bits) ==
            Sum(Multiple(Odd(register) != bits[0], |bits| - 1), [false] + Dividend(Feed(register, bits[0]), bits[1..]))
  {
    hide Feed, Odd, LowBits, Coefficients;
    var fed, rest := Feed(register, bits[0]), bits[1..];
    var left, right := Dividend(register, bits), Dividend(fed, rest);
    var m := Multiple(Odd(register) != bits[0], |bits| - 1);
    forall i | 0 <= i < |left| ensures left[i] == (m[i] != ([false] + right)[i]) {
      if i == 0 {
        FirstCoefficient(register);
      } else if i <= 32 {
        FeedCoefficient(register, bits[0], i);
      }
    }
  }

  lemma {:induction false} FirstCoefficient(register: bv32)
    ensures Coefficients(register)[0] == Odd(register) && Generator()[0]
  {
    LowBitsAt(register, 32, 0);
  }

  lemma {:induction false} SumAssociates(a: Poly, b: Poly, c: Poly)
    requires |a| == |b| == |c|
    ensures Sum(Sum(a, b), c) == Sum(a, Sum(b, c))
  {
  }

  // ----- The division -----

  /** What the register is after a message: the rest of dividing by the generator. */
  lemma {:induction false} RegisterIsRest(register: bv32, bits: seq<bool>)
    ensures Dividend(register, bits) ==
            Sum(Product(Quotient(register, bits)), Zeros(|bits|) + Coefficients(FeedAll(register, bits)))
    decreases |bits|
  {
    hide Feed, Odd, Coefficients, Multiple, Generator, Dividend, Sum, Zeros;
    var n := |bits|;
    if n == 0 {
      NothingToDivide(register);
    } else {
      var fed, rest := Feed(register, bits[0]), bits[1..];
      var m, product := Multiple(Odd(register) != bits[0], n - 1), Product(Quotient(fed, rest));
      var rem := Coefficients(FeedAll(register, bits));
      DivisionStep(register, bits);
      RegisterIsRest(fed, rest);
      ShiftedSum(product, rem, n);
      SumAssociates(m, [false] + product, Zeros(n) + rem);
      assert Quotient(register, bits)[1..] == Quotient(fed, rest);
    }
  }

  lemma {:induction false} NothingToDivide(register: bv32)
    ensures Dividend(register, []) == Sum(Product([]), Zeros(0) + Coefficients(register))
  {
    hide Coefficients, Generator;
  }

  lemma {:induction false} ShiftedSum(product: Poly, rem: Poly, n: nat)
    requires n > 0 && |rem| == 32 && |product| == n + 31
    ensures [false] + Sum(product, Zeros(n - 1) + rem) == Sum([false] + product, Zeros(n) + rem)
  {
  }

  /** There is only one rest: what is left of degree below 32 decides quotient and rest. */
  lemma {:induction false} OneRest(q: Poly, rem: Poly, q': Poly, rem': Poly)
    requires |q| == |q'| && |rem| == |rem'| == 32
    requires Sum(Product(q), Zeros(|q|) + rem) == Sum(Product(q'), Zeros(|q|) + rem')
    ensures q == q' && rem == rem'
    decreases |q|
  {
    hide Generator;
    var n := |q|;
    var whole, whole' := Sum(Product(q), Zeros(n) + rem), Sum(Product(q'), Zeros(n) + rem');
    if n == 0 {
      forall i | 0 <= i < 32 ensures rem[i] == rem'[i] {
        assert whole[i] == whole'[i];
      }
    } else {
      LeadingCoefficient(q);
      LeadingCoefficient(q');
      assert whole[0] == whole'[0];
      SameTail(q, rem, q', rem');
      OneRest(q[1..], rem, q'[1..], rem');
      assert q == [q[0]] + q[1..] && q' == [q'[0]] + q'[1..];
    }
  }

  lemma {:induction false} LeadingCoefficient(q: Poly)
    requires q != []
    ensures Product(q)[0] == q[0]
  {
    FirstCoefficient(0);
  }

  lemma {:induction false} SameTail(q: Poly, rem: Poly, q': Poly, rem': Poly)
    requires |q| == |q'| > 0 && |rem| == |rem'| == 32 && q[0] == q'[0]
    requires Sum(Product(q), Zeros(|q|) + rem) == Sum(Product(q'), Zeros(|q|) + rem')
    ensures Sum(Product(q[1..]), Zeros(|q| - 1) + rem) == Sum(Product(q'[1..]), Zeros(|q| - 1) + rem')
  {
    hide Generator, Multiple, Product, Sum, Zeros;
    var n := |q|;
    var whole, whole' := Sum(Product(q), Zeros(n) + rem), Sum(Product(q'), Zeros(n) + rem');
    var tail, tail' := Sum(Product(q[1..]), Zeros(n - 1) + rem), Sum(Product(q'[1..]), Zeros(n - 1) + rem');
    forall i | 0 <= i < |tail| ensures tail[i] == tail'[i] {
      TailCoefficient(q, rem, i);
      TailCoefficient(q', rem', i);
      assert whole[i + 1] == whole'[i + 1];
    }
  }

  /** Below the leading coefficient the generator is added to what the rest of the factor gives. */
  lemma {:induction false} TailCoefficient(q: Poly, rem: Poly, i: nat)
    requires q != [] && |rem| == 32 && i < |q| + 31
    ensures Sum(Product(q), Zeros(|q|) + rem)[i + 1] ==
            (Multiple(q[0], |q| - 1)[i + 1] != Sum(Product(q[1..]), Zeros(|q| - 1) + rem)[i])
  {
    hide Generator, Multiple;
    assert Product(q)[i + 1] == (Multiple(q[0], |q| - 1)[i + 1] != Product(q[1..])[i]);
    assert (Zeros(|q|) + rem)[i + 1] == (Zeros(|q| - 1) + rem)[i];
  }

  ghost predicate IsRest(dividend: Poly, rem: Poly) {
    |rem| == 32 && exists q :: |q| + 32 == |dividend| && dividend == Sum(Product(q), Zeros(|q|) + rem)
  }

  /** The checksum is the inverse of the rest, and of no other polynomial of degree below 32, that the message leaves
      when it is multiplied by x^32, its first 32 coefficients are inverted and it is divided by the generator. */
  lemma {:induction false} CrcIsRemainder(buffer: seq<bv8>, rem: Poly)
    ensures IsRest(Dividend(0xFFFF_FFFF, BufferBits(buffer)), rem) <==> rem == Coefficients(Invert(Crc(buffer)))
  {
    hide Coefficients, Product, Dividend, FeedAll, BufferBits;
    var bits := BufferBits(buffer);
    InvertTwice(FeedAll(0xFFFF_FFFF, bits));
    RegisterIsRest(0xFFFF_FFFF, bits);
    var q := Quotient(0xFFFF_FFFF, bits);
    var rest := Coefficients(FeedAll(0xFFFF_FFFF, bits));
    if IsRest(Dividend(0xFFFF_FFFF, bits), rem) {
      var q' :| |q'| + 32 == |bits| + 32 && Dividend(0xFFFF_FFFF, bits) == Sum(Product(q'), Zeros(|q'|) + rem);
      OneRest(q, rest, q', rem);
    }
  }
}
