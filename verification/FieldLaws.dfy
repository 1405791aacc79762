/** The laws of multiplication in GF(256), from the fact that the powers of alpha are exactly the nonzero
    bytes: that is what lets services/einvoicing/qr.go:132-137 multiply by adding logarithms. */
module FieldLaws {
  import opened GaloisField
  import opened Primitivity

  lemma EarlierPowerDiffers(i: nat, j: nat)
    requires i < j < 255
    ensures AlphaPow(i) != AlphaPow(j)
  {
    OrderOfAlpha(j - i);
    if AlphaPow(i) == AlphaPow(j) {
      Cancel(i, j);
      assert false;
    }
  }

  /** alpha^0 .. alpha^254 are pairwise different. */
  lemma AlphaPowInjective(i: nat, j: nat)
    requires i < 255 && j < 255 && AlphaPow(i) == AlphaPow(j)
    ensures i == j
  {
    if i < j {
      EarlierPowerDiffers(i, j);
    } else if j < i {
      EarlierPowerDiffers(j, i);
    }
  }

  /** Exponents count modulo 255. */
  lemma AlphaPowPeriodic(i: nat, period: nat)
    requires 254 < period < 256
    ensures AlphaPow(i + period) == AlphaPow(i)
  {
    PeriodFrom(0);
    MulAlphaPow(i, period);
    MulOne(AlphaPow(i));
  }

  // ----- Every nonzero byte is a power of alpha -----

  ghost function Powers(n: nat): set<Byte> {
    if n == 0 then {} else Powers(n - 1) + {AlphaPow(n - 1)}
  }

  lemma {:induction false} PowersMembers(n: nat, a: Byte)
    requires a in Powers(n)
    ensures exists i: nat :: i < n && AlphaPow(i) == a
  {
    if a == AlphaPow(n - 1) {
    } else {
      PowersMembers(n - 1, a);
    }
  }

  lemma {:induction false} PowersSize(n: nat)
    requires n <= 255
    ensures |Powers(n)| == n
  {
    if n > 0 {
      PowersSize(n - 1);
      if AlphaPow(n - 1) in Powers(n - 1) {
        PowersMembers(n - 1, AlphaPow(n - 1));
        var i: nat :| i < n - 1 && AlphaPow(i) == AlphaPow(n - 1);
        AlphaPowInjective(i, n - 1);
        assert false;
      }
    }
  }

  /** The nonzero bytes up to `n`. */
  ghost function Nonzero(n: nat): (s: set<Byte>)
    requires n < 256
    ensures |s| == n
    ensures forall x: Byte :: x in s <==> 0 < x <= n
  {
    if n == 0 then {} else Nonzero(n - 1) + {n}
  }

  lemma FullSubset(s: set<Byte>, t: set<Byte>)
    requires s <= t && |s| == |t|
    ensures s == t
  {
    assert |t - s| == |t| - |s|;
  }

  /** The powers of alpha exhaust the nonzero bytes. */
  lemma EveryNonzeroIsPower(a: Byte)
    requires a != 0
    ensures exists i: nat :: i < 255 && AlphaPow(i) == a
  {
    var s, t := Powers(255), Nonzero(255);
    PowersSize(255);
    forall b | b in s
      ensures b in t
    {
      PowersMembers(255, b);
      var i: nat :| i < 255 && AlphaPow(i) == b;
      AlphaPowNonzero(i);
    }
    FullSubset(s, t);
    assert a in t;
    PowersMembers(255, a);
  }

  /** The discrete logarithm. */
  ghost function Log(a: Byte): (i: nat)
    requires a != 0
    ensures i < 255 && AlphaPow(i) == a
  {
    EveryNonzeroIsPower(a);
    var i: nat :| i < 255 && AlphaPow(i) == a;
    i
  }

  // ----- Field laws -----

  lemma MulByLogs(a: Byte, b: Byte)
    requires a != 0 && b != 0
    ensures Mul(a, b) == AlphaPow(Log(a) + Log(b)) != 0
  {
    MulAlphaPow(Log(a), Log(b));
    AlphaPowNonzero(Log(a) + Log(b));
  }

  lemma MulByZero(a: Byte)
    ensures Mul(a, 0) == 0 == Mul(0, a)
  {
    MulZero(a);
  }

  lemma MulCommutes(a: Byte, b: Byte)
    ensures Mul(a, b) == Mul(b, a)
  {
    if a == 0 || b == 0 {
      MulByZero(a);
      MulByZero(b);
    } else {
      MulByLogs(a, b);
      MulByLogs(b, a);
    }
  }

  lemma AssociatesLeftZero(a: Byte, b: Byte, c: Byte)
    requires a == 0
    ensures Mul(Mul(a, b), c) == Mul(a, Mul(b, c))
  {
    MulByZero(b);
    MulByZero(c);
    MulByZero(Mul(b, c));
  }

  lemma AssociatesMiddleZero(a: Byte, b: Byte, c: Byte)
    requires b == 0
    ensures Mul(Mul(a, b), c) == Mul(a, Mul(b, c))
  {
    MulByZero(a);
    MulByZero(c);
  }

  lemma AssociatesRightZero(a: Byte, b: Byte, c: Byte)
    requires c == 0
    ensures Mul(Mul(a, b), c) == Mul(a, Mul(b, c))
  {
    MulByZero(a);
    MulByZero(b);
    MulByZero(Mul(a, b));
  }

  lemma AssociatesNonzero(a: Byte, b: Byte, c: Byte)
    requires a != 0 && b != 0 && c != 0
    ensures Mul(Mul(a, b), c) == Mul(a, Mul(b, c))
  {
    LeftNested(Log(a), Log(b), Log(c));
    RightNested(Log(a), Log(b), Log(c));
  }

  lemma MulAssociates(a: Byte, b: Byte, c: Byte)
    ensures Mul(Mul(a, b), c) == Mul(a, Mul(b, c))
  {
    if a == 0 {
      AssociatesLeftZero(a, b, c);
    } else if b == 0 {
      AssociatesMiddleZero(a, b, c);
    } else if c == 0 {
      AssociatesRightZero(a, b, c);
    } else {
      AssociatesNonzero(a, b, c);
    }
  }

  lemma LeftNested(i: nat, j: nat, k: nat)
    ensures Mul(Mul(AlphaPow(i), AlphaPow(j)), AlphaPow(k)) == AlphaPow(i + j + k)
  {
    MulAlphaPow(i, j);
    MulAlphaPow(i + j, k);
  }

  lemma RightNested(i: nat, j: nat, k: nat)
    ensures Mul(AlphaPow(i), Mul(AlphaPow(j), AlphaPow(k))) == AlphaPow(i + (j + k))
  {
    MulAlphaPow(j, k);
    MulAlphaPow(i, j + k);
  }

  lemma NoZeroDivisors(a: Byte, b: Byte)
    requires Mul(a, b) == 0
    ensures a == 0 || b == 0
  {
    if a != 0 && b != 0 {
      MulByLogs(a, b);
      assert false;
    }
  }
}
