/** The field GF(256) of the QR error-correction code (services/einvoicing/qr.go:114-137).

    A byte is a polynomial over GF(2) whose coefficients are its bits. Addition is `Xor`, and `Mul` is the
    product modulo x^8+x^4+x^3+x^2+1 (0x11D), written in Horner form and independent of any table. The
    program multiplies through logarithm tables; the `Tables` class of ReedSolomon.dfy models those. */
module GaloisField {

  type Byte = x: nat | x < 256

  const MODULUS: nat := 0x11D

  /** Bitwise exclusive or. */
  function Xor(a: nat, b: nat): nat
    decreases a + b
  {
    if a == 0 && b == 0 then 0 else (if a % 2 == b % 2 then 0 else 1) + 2 * Xor(a / 2, b / 2)
  }

  function Pow2(k: nat): nat {
    if k == 0 then 1 else 2 * Pow2(k - 1)
  }

  // ----- Laws of Xor -----

  lemma HalfAndParity(low: nat, high: nat)
    requires low < 2
    ensures (low + 2 * high) % 2 == low && (low + 2 * high) / 2 == high
  {
  }

  lemma {:induction false} XorStep(a: nat, b: nat)
    ensures Xor(a, b) / 2 == Xor(a / 2, b / 2)
    ensures Xor(a, b) % 2 == if a % 2 == b % 2 then 0 else 1
  {
    HalfAndParity(if a % 2 == b % 2 then 0 else 1, Xor(a / 2, b / 2));
  }

  lemma {:induction false} XorZero(a: nat)
    ensures Xor(a, 0) == a == Xor(0, a)
  {
    if a > 0 {
      XorZero(a / 2);
    }
  }

  lemma {:induction false} XorSelf(a: nat)
    ensures Xor(a, a) == 0
  {
    if a > 0 {
      XorSelf(a / 2);
    }
  }

  lemma {:induction false} XorCommutes(a: nat, b: nat)
    ensures Xor(a, b) == Xor(b, a)
    decreases a + b
  {
    if a + b > 0 {
      XorCommutes(a / 2, b / 2);
    }
  }

  lemma {:induction false} XorAssociates(a: nat, b: nat, c: nat)
    ensures Xor(Xor(a, b), c) == Xor(a, Xor(b, c))
    decreases a + b + c
  {
    if a + b + c > 0 {
      XorStep(a, b);
      XorStep(b, c);
      XorStep(Xor(a, b), c);
      XorStep(a, Xor(b, c));
      XorAssociates(a / 2, b / 2, c / 2);
    }
  }

  lemma {:induction false} XorBelow(a: nat, b: nat, k: nat)
    requires a < Pow2(k) && b < Pow2(k)
    ensures Xor(a, b) < Pow2(k)
  {
    if k > 0 {
      XorBelow(a / 2, b / 2, k - 1);
    }
  }

  /** Equal leading bits cancel. */
  lemma {:induction false} XorTop(a: nat, b: nat, k: nat)
    requires a < Pow2(k) && b < Pow2(k)
    ensures Xor(Pow2(k) + a, Pow2(k) + b) == Xor(a, b)
  {
    if k > 0 {
      var p := Pow2(k - 1);
      assert (2 * p + a) / 2 == p + a / 2 && (2 * p + b) / 2 == p + b / 2;
      XorTop(a / 2, b / 2, k - 1);
    }
  }

  /** (a + b) + (c + d) = (a + c) + (b + d). */
  lemma XorSwap(a: nat, b: nat, c: nat, d: nat)
    ensures Xor(Xor(a, b), Xor(c, d)) == Xor(Xor(a, c), Xor(b, d))
  {
    XorAssociates(a, b, Xor(c, d));
    XorAssociates(b, c, d);
    XorCommutes(b, c);
    XorAssociates(c, b, d);
    XorAssociates(a, c, Xor(b, d));
  }

  /** Adding twice cancels. */
  lemma XorTwice(a: nat, b: nat)
    ensures Xor(Xor(a, b), b) == a
  {
    XorAssociates(a, b, b);
    XorSelf(b);
    XorZero(a);
  }

  lemma XorByte(a: Byte, b: Byte)
    ensures Xor(a, b) < 256
  {
    assert Pow2(8) == 256;
    XorBelow(a, b, 8);
  }

  /** Addition in the field. */
  function Add(a: Byte, b: Byte): (r: Byte)
    ensures r == Xor(a, b)
  {
    XorByte(a, b);
    Xor(a, b)
  }

  // ----- Multiplication -----

  /** Multiplication by x: shift, and subtract the modulus when the degree reaches eight. */
  function Double(a: Byte): Byte {
    if a < 128 then 2 * a else
      (DoubleIsByte(a); Xor(2 * a, MODULUS))
  }

  lemma DoubleIsByte(a: Byte)
    requires a >= 128
    ensures Xor(2 * a, MODULUS) < 256
  {
    assert Pow2(8) == 256;
    XorTop(2 * a - 256, MODULUS - 256, 8);
    XorBelow(2 * a - 256, MODULUS - 256, 8);
  }

  /** `a` times the constant coefficient of `b`. */
  function Pick(a: Byte, b: nat): Byte {
    if b % 2 == 1 then a else 0
  }

  /** The product of `a` and the polynomial whose coefficients are the bits of `b`, modulo 0x11D. */
  function Mul(a: Byte, b: nat): Byte
    decreases b
  {
    if b == 0 then 0 else Add(Pick(a, b), Double(Mul(a, b / 2)))
  }

  /** alpha^i, where alpha is the polynomial x. */
  function AlphaPow(i: nat): Byte {
    if i == 0 then 1 else Double(AlphaPow(i - 1))
  }

  lemma MulStep(a: Byte, b: nat)
    ensures Mul(a, b) == Xor(Pick(a, b), Double(Mul(a, b / 2)))
  {
  }

  lemma DoubleXor(a: Byte, b: Byte)
    ensures Double(Add(a, b)) == Add(Double(a), Double(b))
  {
    XorStep(2 * a, 2 * b);
    assert Xor(2 * a, 2 * b) == 2 * Xor(a, b);
    TopBitXor(a, b);
    if a >= 128 && b >= 128 {
      XorSwap(2 * a, MODULUS, 2 * b, MODULUS);
      XorSelf(MODULUS);
      XorZero(2 * Xor(a, b));
    } else if b >= 128 {
      XorAssociates(2 * a, 2 * b, MODULUS);
    } else if a >= 128 {
      XorAssociates(2 * a, MODULUS, 2 * b);
      XorCommutes(MODULUS, 2 * b);
      XorAssociates(2 * a, 2 * b, MODULUS);
    }
  }

  lemma TopBitXor(a: Byte, b: Byte)
    ensures Xor(a, b) < 128 <==> (a < 128 <==> b < 128)
  {
    assert Pow2(7) == 128;
    if a < 128 && b < 128 {
      XorBelow(a, b, 7);
    } else if a >= 128 && b >= 128 {
      XorTop(a - 128, b - 128, 7);
      XorBelow(a - 128, b - 128, 7);
    } else if Xor(a, b) < 128 {
      XorTwice(a, b);
      XorTwice(b, a);
      XorCommutes(a, b);
      if a < 128 { XorBelow(Xor(b, a), a, 7); } else { XorBelow(Xor(a, b), b, 7); }
      assert false;
    }
  }

  lemma {:induction false} MulXorRight(a: Byte, b: nat, c: nat)
    ensures Mul(a, Xor(b, c)) == Xor(Mul(a, b), Mul(a, c))
    decreases b + c
  {
    if b + c > 0 {
      XorStep(b, c);
      MulStep(a, b);
      MulStep(a, c);
      MulStep(a, Xor(b, c));
      MulXorRight(a, b / 2, c / 2);
      DoubleXor(Mul(a, b / 2), Mul(a, c / 2));
      var low, low' := Pick(a, b), Pick(a, c);
      XorSwap(low, Double(Mul(a, b / 2)), low', Double(Mul(a, c / 2)));
      assert Xor(low, low') == Pick(a, Xor(b, c)) by {
        XorSelf(a);
        XorZero(a);
      }
    }
  }

  lemma {:induction false} MulXorLeft(a: Byte, b: Byte, c: nat)
    ensures Mul(Add(a, b), c) == Xor(Mul(a, c), Mul(b, c))
    decreases c
  {
    if c > 0 {
      MulXorLeft(a, b, c / 2);
      DoubleXor(Mul(a, c / 2), Mul(b, c / 2));
      XorSwap(Pick(a, c), Double(Mul(a, c / 2)), Pick(b, c), Double(Mul(b, c / 2)));
    }
  }

  lemma {:induction false} MulDoubleLeft(a: Byte, b: nat)
    ensures Mul(Double(a), b) == Double(Mul(a, b))
    decreases b
  {
    if b > 0 {
      MulDoubleLeft(a, b / 2);
      DoubleXor(Pick(a, b), Double(Mul(a, b / 2)));
    }
  }

  lemma {:induction false} MulZero(b: nat)
    ensures Mul(0, b) == 0
  {
    if b > 0 {
      MulZero(b / 2);
    }
  }

  lemma MulOne(a: Byte)
    ensures Mul(a, 1) == a
  {
    MulStep(a, 1);
    XorZero(a);
  }

  /** Horner form of a byte. */
  lemma ByteSplit(a: Byte)
    ensures a == Add(a % 2, Double(a / 2))
  {
    var half := a / 2;
    XorStep(a % 2, 2 * half);
    XorZero(half);
  }

  lemma {:induction false} OneMul(b: Byte)
    ensures Mul(1, b) == b
  {
    if b > 0 {
      ByteSplit(b);
      MulStep(1, b);
      OneMul(b / 2);
    }
  }

  /** A polynomial that vanishes when multiplied by one is zero in the field. */
  lemma {:induction false} MulVanishing(a: Byte, m: nat)
    requires Mul(1, m) == 0
    ensures Mul(a, m) == 0
  {
    if a == 0 {
      MulZero(m);
    } else if a > 1 {
      ByteSplit(a);
      MulXorLeft(a % 2, Double(a / 2), m);
      MulVanishing(a % 2, m);
      MulVanishing(a / 2, m);
      MulDoubleLeft(a / 2, m);
    }
  }

  /** A polynomial 2h + 1 with x*h = 1 is zero in the field; the modulus is one. */
  lemma VanishesAtOne(half: Byte, m: nat)
    requires Double(half) == 1 && m == 2 * half + 1
    ensures Mul(1, m) == 0
  {
    MulStep(1, m);
    assert m / 2 == half && m % 2 == 1;
    OneMul(half);
    XorSelf(Pick(1, m));
  }

  /** Twice the half of the modulus, minus the modulus, is one. */
  lemma DoubleOfHalf(half: Byte)
    requires half >= 128 && MODULUS == 2 * half + 1
    ensures Double(half) == 1
  {
    XorStep(2 * half, 2 * half + 1);
    XorSelf(half);
  }

  lemma MulTwice(a: Byte, b: nat)
    ensures Mul(a, 2 * b) == Double(Mul(a, b))
  {
    MulStep(a, 2 * b);
    XorZero(Double(Mul(a, b)));
  }

  lemma ReduceRight(a: Byte, b: nat, m: nat)
    requires Mul(1, m) == 0
    ensures Mul(a, Xor(b, m)) == Mul(a, b)
  {
    MulXorRight(a, b, m);
    MulVanishing(a, m);
    XorZero(Mul(a, b));
  }

  lemma MulDoubleRight(a: Byte, b: Byte)
    ensures Mul(a, Double(b)) == Double(Mul(a, b))
  {
    MulTwice(a, b);
    if b >= 128 {
      DoubleOfHalf(142);
      VanishesAtOne(142, MODULUS);
      ReduceRight(a, 2 * b, MODULUS);
    }
  }

  /** Multiplying powers of alpha adds their exponents. */
  lemma {:induction false} MulAlphaPow(i: nat, j: nat)
    ensures Mul(AlphaPow(i), AlphaPow(j)) == AlphaPow(i + j)
  {
    if j == 0 {
      MulOne(AlphaPow(i));
    } else {
      MulAlphaPow(i, j - 1);
      MulDoubleRight(AlphaPow(i), AlphaPow(j - 1));
    }
  }
}
