/** The multiplicative order of alpha in GF(256). Powers of alpha are followed bit by bit, as the shift
    register of services/einvoicing/qr.go:117-126 steps through them, and alpha is shown to be primitive. */
module Primitivity {
  import opened GaloisField

  datatype Bits = Bits(b7: bool, b6: bool, b5: bool, b4: bool, b3: bool, b2: bool, b1: bool, b0: bool)

  function B(b7: int, b6: int, b5: int, b4: int, b3: int, b2: int, b1: int, b0: int): Bits {
    Bits(b7 == 1, b6 == 1, b5 == 1, b4 == 1, b3 == 1, b2 == 1, b1 == 1, b0 == 1)
  }

  /** The digit of weight 2^k. */
  predicate Bit(a: nat, k: nat)
    decreases k
  {
    if k == 0 then a % 2 == 1 else Bit(a / 2, k - 1)
  }

  function BitsOf(a: Byte): Bits {
    Bits(Bit(a, 7), Bit(a, 6), Bit(a, 5), Bit(a, 4), Bit(a, 3), Bit(a, 2), Bit(a, 1), Bit(a, 0))
  }

  /** `Double` on bits: a shift register with taps at the modulus. */
  function Shift(b: Bits): Bits {
    Bits(b.b6, b.b5, b.b4, b.b3 != b.b7, b.b2 != b.b7, b.b1 != b.b7, b.b0, b.b7)
  }

  // ----- Double is Shift -----

  lemma {:induction false} XorBit(a: nat, b: nat, k: nat)
    ensures Bit(Xor(a, b), k) == (Bit(a, k) != Bit(b, k))
    decreases k
  {
    XorStep(a, b);
    if k > 0 {
      XorBit(a / 2, b / 2, k - 1);
    }
  }

  lemma {:induction false} TopBit(a: nat, k: nat)
    requires a < Pow2(k + 1)
    ensures Bit(a, k) <==> a >= Pow2(k)
    decreases k
  {
    if k > 0 {
      TopBit(a / 2, k - 1);
    }
  }

  lemma {:induction false} SameBits(a: nat, b: nat, k: nat)
    requires a < Pow2(k) && b < Pow2(k)
    requires forall j :: 0 <= j < k ==> Bit(a, j) == Bit(b, j)
    ensures a == b
    decreases k
  {
    if k > 0 {
      assert Bit(a, 0) == Bit(b, 0);
      forall j | 0 <= j < k - 1
        ensures Bit(a / 2, j) == Bit(b / 2, j)
      {
        assert Bit(a, j + 1) == Bit(b, j + 1);
      }
      SameBits(a / 2, b / 2, k - 1);
    }
  }

  lemma ModulusBits(m: nat)
    requires m == MODULUS
    ensures Bit(m, 0) && !Bit(m, 1) && Bit(m, 2) && Bit(m, 3) && Bit(m, 4)
    ensures !Bit(m, 5) && !Bit(m, 6) && !Bit(m, 7)
  {
    assert m / 2 == 142 && m / 2 / 2 == 71 && m / 2 / 2 / 2 == 35 && m / 2 / 2 / 2 / 2 == 17;
    LowBits(m);
    LowBits(17);
  }

  lemma LowBits(m: nat)
    ensures Bit(m, 0) == (m % 2 == 1) && Bit(m, 1) == (m / 2 % 2 == 1)
    ensures Bit(m, 2) == (m / 2 / 2 % 2 == 1) && Bit(m, 3) == (m / 2 / 2 / 2 % 2 == 1)
    ensures Bit(m, 4) == Bit(m / 2 / 2 / 2 / 2, 0) && Bit(m, 5) == Bit(m / 2 / 2 / 2 / 2, 1)
    ensures Bit(m, 6) == Bit(m / 2 / 2 / 2 / 2, 2) && Bit(m, 7) == Bit(m / 2 / 2 / 2 / 2, 3)
  {
  }

  lemma DoubleBit(a: Byte, k: nat)
    requires k < 8
    ensures Bit(Double(a), k) == ((k > 0 && Bit(a, k - 1)) != (Bit(a, 7) && Bit(MODULUS, k)))
  {
    assert Pow2(7) == 128 && Pow2(8) == 256;
    TopBit(a, 7);
    if k > 0 {
      assert Bit(2 * a, k) == Bit(a, k - 1);
    }
    if a >= 128 {
      XorBit(2 * a, MODULUS, k);
    }
  }

  lemma DoubleIsShift(a: Byte)
    ensures BitsOf(Double(a)) == Shift(BitsOf(a))
  {
    ModulusBits(MODULUS);
    DoubleBit(a, 0);
    DoubleBit(a, 1);
    DoubleBit(a, 2);
    DoubleBit(a, 3);
    DoubleBit(a, 4);
    DoubleBit(a, 5);
    DoubleBit(a, 6);
    DoubleBit(a, 7);
  }

  // ----- Checkpoints along the powers of alpha -----

  /** Four shifts at once. */
  function ShiftFour(b: Bits): Bits {
    Bits(b.b7 != b.b3, (b.b7 != b.b6) != b.b2, ((b.b7 != b.b6) != b.b5) != b.b1,
         ((b.b6 != b.b5) != b.b4) != b.b0, (b.b7 != b.b5) != b.b4, b.b6 != b.b4, b.b5, b.b4)
  }

  lemma ShiftFourTimes(b: Bits)
    ensures ShiftFour(b) == Shift(Shift(Shift(Shift(b))))
  {
  }

  /** `n` rounds of eight shifts. */
  function Steps(b: Bits, n: nat): Bits
    decreases n
  {
    if n == 0 then b else Steps(ShiftFour(ShiftFour(b)), n - 1)
  }

  lemma AdvanceFour(i: nat)
    ensures BitsOf(AlphaPow(i + 4)) == ShiftFour(BitsOf(AlphaPow(i)))
  {
    hide Double, BitsOf, Shift, ShiftFour;
    var a := AlphaPow(i);
    DoubleIsShift(a);
    DoubleIsShift(Double(a));
    DoubleIsShift(Double(Double(a)));
    DoubleIsShift(Double(Double(Double(a))));
    ShiftFourTimes(BitsOf(a));
    assert AlphaPow(i + 2) == Double(Double(a));
    assert AlphaPow(i + 4) == Double(Double(AlphaPow(i + 2)));
  }

  lemma {:induction false} Advance(i: nat, n: nat)
    ensures BitsOf(AlphaPow(i + 8 * n)) == Steps(BitsOf(AlphaPow(i)), n)
    decreases n
  {
    if n > 0 {
      AdvanceFour(i);
      AdvanceFour(i + 4);
      Advance(i + 8, n - 1);
    }
  }

  lemma FirstQuarter(i: nat)
    requires BitsOf(AlphaPow(i)) == B(0, 0, 0, 0, 0, 0, 0, 1)
    ensures BitsOf(AlphaPow(i + 64)) == B(0, 1, 0, 1, 1, 1, 1, 1)
  {
    Advance(i, 8);
  }

  lemma SecondQuarter(i: nat)
    requires BitsOf(AlphaPow(i)) == B(0, 1, 0, 1, 1, 1, 1, 1)
    ensures BitsOf(AlphaPow(i + 64)) == B(1, 0, 0, 0, 0, 1, 0, 1)
  {
    Advance(i, 8);
  }

  lemma ThirdQuarter(i: nat)
    requires BitsOf(AlphaPow(i)) == B(1, 0, 0, 0, 0, 1, 0, 1)
    ensures BitsOf(AlphaPow(i + 64)) == B(1, 0, 0, 0, 0, 0, 1, 0)
  {
    Advance(i, 8);
  }

  lemma FourthQuarter(i: nat)
    requires BitsOf(AlphaPow(i)) == B(1, 0, 0, 0, 0, 0, 1, 0)
    ensures BitsOf(AlphaPow(i + 64)) == B(0, 0, 0, 0, 0, 0, 1, 0)
  {
    Advance(i, 8);
  }

  lemma BitsOfOne(one: Byte)
    requires one == 1
    ensures BitsOf(one) == B(0, 0, 0, 0, 0, 0, 0, 1)
  {
    ZeroBits(7);
  }

  lemma {:induction false} ZeroBits(k: nat)
    ensures forall j :: 0 <= j < k ==> !Bit(0, j)
    decreases k
  {
    if k > 0 {
      ZeroBits(k - 1);
      assert !Bit(0, k - 1) by { if k > 1 { assert !Bit(0, k - 2); } }
    }
  }

  lemma DoubleParity(a: Byte)
    ensures Double(a) % 2 == 1 <==> BitsOf(a).b7
  {
    DoubleBit(a, 0);
    ModulusBits(MODULUS);
  }

  /** How the parity of the third and of the fifth power ahead shows in a byte. */
  lemma ParityAhead(i: nat)
    ensures AlphaPow(i + 3) % 2 == 1 <==> BitsOf(AlphaPow(i)).b5
    ensures AlphaPow(i + 5) % 2 == 1 <==> ShiftFour(BitsOf(AlphaPow(i))).b7
  {
    DoubleIsShift(AlphaPow(i));
    DoubleIsShift(AlphaPow(i + 1));
    DoubleParity(AlphaPow(i + 2));
    AdvanceFour(i);
    DoubleParity(AlphaPow(i + 4));
  }

  /** The exponents that decide the order of alpha: alpha^256 = alpha, while 85, 51 and 15 (255 over
      each of its prime factors) do not give one. */
  lemma FullCircle(zero: nat)
    requires zero == 0
    ensures AlphaPow(zero + 256) == AlphaPow(zero + 1)
  {
    BitsOfOne(AlphaPow(zero));
    FirstQuarter(zero);
    SecondQuarter(zero + 64);
    ThirdQuarter(zero + 128);
    FourthQuarter(zero + 192);
    DoubleIsShift(AlphaPow(zero));
    EqualBits(AlphaPow(zero + 256), AlphaPow(zero + 1));
  }

  lemma EqualBits(a: Byte, b: Byte)
    requires BitsOf(a) == BitsOf(b)
    ensures a == b
  {
    assert Pow2(8) == 256;
    SameBits(a, b, 8);
  }

  lemma EvaluateParities()
    ensures !ShiftFour(Steps(B(0, 0, 0, 0, 0, 0, 0, 1), 1)).b5
    ensures !Steps(B(0, 0, 0, 0, 0, 0, 0, 1), 6).b5
    ensures !ShiftFour(Steps(B(0, 1, 0, 1, 1, 1, 1, 1), 2)).b7
  {
  }

  lemma ProperDivisors(zero: nat)
    requires zero == 0
    ensures AlphaPow(zero + 15) != 1 && AlphaPow(zero + 51) != 1 && AlphaPow(zero + 85) != 1
  {
    BitsOfOne(AlphaPow(zero));
    EvaluateParities();
    Advance(zero, 1);
    AdvanceFour(zero + 8);
    ParityAhead(zero + 12);
    Advance(zero, 6);
    ParityAhead(zero + 48);
    FirstQuarter(zero);
    Advance(zero + 64, 2);
    ParityAhead(zero + 80);
  }

  // ----- The order of alpha is 255 -----

  lemma DoubleInjective(a: Byte, b: Byte)
    requires Double(a) == Double(b)
    ensures a == b
  {
    DoubleIsShift(a);
    DoubleIsShift(b);
    EqualBits(a, b);
  }

  lemma {:induction false} AlphaPowNonzero(i: nat)
    ensures AlphaPow(i) != 0
  {
    if i > 0 {
      AlphaPowNonzero(i - 1);
      if Double(AlphaPow(i - 1)) == Double(0) {
        DoubleInjective(AlphaPow(i - 1), 0);
      }
    }
  }

  lemma {:induction false} Cancel(i: nat, j: nat)
    requires i <= j && AlphaPow(i) == AlphaPow(j)
    ensures AlphaPow(j - i) == 1
  {
    if i > 0 {
      DoubleInjective(AlphaPow(i - 1), AlphaPow(j - 1));
      Cancel(i - 1, j - 1);
    }
  }

  /** Two periods have a common divisor that is a period (Euclid, by subtraction). */
  lemma {:induction false} CommonPeriod(a: nat, b: nat) returns (g: nat, m: nat, n: nat)
    requires a > 0 && b > 0 && AlphaPow(a) == 1 && AlphaPow(b) == 1
    ensures g > 0 && AlphaPow(g) == 1 && a == g * m && b == g * n
    decreases a + b
  {
    if a == b {
      g, m, n := a, 1, 1;
    } else if a < b {
      Cancel(a, b);
      g, m, n := CommonPeriod(a, b - a);
      assert g * (m + n) == g * m + g * n;
      n := m + n;
    } else {
      Cancel(b, a);
      g, m, n := CommonPeriod(a - b, b);
      assert g * (m + n) == g * m + g * n;
      m := m + n;
    }
  }

  lemma {:induction false} MultipleOfPeriod(g: nat, m: nat)
    requires AlphaPow(g) == 1
    ensures AlphaPow(g * m) == 1
  {
    if m > 0 {
      MultipleOfPeriod(g, m - 1);
      MulAlphaPow(g * (m - 1), g);
      MulOne(1);
      assert g * (m - 1) + g == g * m;
    }
  }

  lemma SmallFactor(g: nat, n: nat)
    requires g * n == 255 && n > 16
    ensures g < 16
  {
    if g >= 16 {
      Monotone(16, g, n);
      assert false;
    }
  }

  lemma Monotone(a: nat, b: nat, n: nat)
    requires a <= b
    ensures a * n <= b * n
  {
  }

  lemma PrimeFactor(g: nat, n: nat) returns (q: nat)
    requires g * n == 255 && n >= 2
    ensures n == 3 * q || n == 5 * q || n == 17 * q
  {
    q := if n % 3 == 0 then n / 3 else if n % 5 == 0 then n / 5 else n / 17;
    if n <= 16 {
      assert n == 2 || n == 3 || n == 4 || n == 5 || n == 6 || n == 7 || n == 8 || n == 9 || n == 10
          || n == 11 || n == 12 || n == 13 || n == 14 || n == 15 || n == 16;
    } else {
      SmallFactor(g, n);
      assert g == 0 || g == 1 || g == 2 || g == 3 || g == 4 || g == 5 || g == 6 || g == 7 || g == 8 || g == 9
          || g == 10 || g == 11 || g == 12 || g == 13 || g == 14 || g == 15;
    }
  }

  lemma PeriodFrom(zero: nat)
    requires zero == 0
    ensures AlphaPow(zero + 255) == 1
  {
    FullCircle(zero);
    Cancel(zero + 1, zero + 256);
  }

  lemma Quotient(g: nat, n: nat, third: nat, fifth: nat, seventeenth: nat) returns (q: nat)
    requires n >= 2 && g * n == 3 * third == 5 * fifth == 17 * seventeenth && 254 < g * n < 256
    ensures g * q == third || g * q == fifth || g * q == seventeenth
  {
    q := PrimeFactor(g, n);
    assert g * (3 * q) == 3 * (g * q) && g * (5 * q) == 5 * (g * q) && g * (17 * q) == 17 * (g * q);
  }

  lemma AtLeastTwo(k: nat, period: nat, g: nat, m: nat, n: nat)
    requires 0 < k < period && k == g * m && period == g * n
    ensures n >= 2
  {
    if n == 1 {
      assert m >= 1;
      Monotone(1, m, g);
      assert false;
    }
  }

  /** A smaller period would make one of the three largest divisors of 255 a period. */
  lemma SmallerPeriod(k: nat, period: nat, third: nat, fifth: nat, seventeenth: nat) returns (d: nat)
    requires 0 < k < period && period == 3 * third == 5 * fifth == 17 * seventeenth && 254 < period < 256
    requires AlphaPow(period) == 1 && AlphaPow(k) == 1
    ensures AlphaPow(d) == 1 && (d == third || d == fifth || d == seventeenth)
  {
    var g, m, n := CommonPeriod(k, period);
    var q;
    assert n >= 2 by { AtLeastTwo(k, period, g, m, n); }
    q := Quotient(g, n, third, fifth, seventeenth);
    d := g * q;
    MultipleOfPeriod(g, q);
  }

  lemma OrderFrom(k: nat, zero: nat)
    requires 0 < k < 255 && zero == 0
    ensures AlphaPow(k) != 1
  {
    PeriodFrom(zero);
    ProperDivisors(zero);
    if AlphaPow(k) == 1 {
      var d := SmallerPeriod(k, zero + 255, zero + 85, zero + 51, zero + 15);
      assert false;
    }
  }

  /** No smaller power than the 255th is one. */
  lemma OrderOfAlpha(k: nat)
    requires 0 < k < 255
    ensures AlphaPow(k) != 1
  {
    OrderFrom(k, 0);
  }
}
