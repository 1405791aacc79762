/** The Reed-Solomon encoder of services/einvoicing/qr.go:114-171: log/antilog tables, generator polynomial
    and shift-register division, proved against polynomial algebra over GF(256). */
module ReedSolomon {
  import opened GaloisField
  import opened FieldLaws
  import opened Polynomials

  /** A word vanishes at alpha^0 .. alpha^(n-1). */
  ghost predicate IsCodeword(w: seq<Byte>, n: nat) {
    forall j :: 0 <= j < n ==> Eval(w, AlphaPow(j)) == 0
  }

  // ----- Tables -----

  /** Shift left, and subtract 0x11D when bit 0x100 appears. */
  function ShiftReduce(x: Byte): (r: Byte)
    ensures r == Double(x)
  {
    if 2 * x / 256 % 2 == 1 then
      DoubleIsByte(x);
      Xor(2 * x, MODULUS)
    else
      2 * x
  }

  /** The first 512 powers of alpha, as the loops need them. */
  ghost predicate IsPowerTable(powers: seq<Byte>) {
    && |powers| == 512 && powers[0] == 1
    && (forall i, j :: 0 <= i && j == i + 1 < 256 ==> powers[j] == Double(powers[i]))
    && (forall i, j :: 0 <= i < j < 255 ==> powers[i] != powers[j])
    && (forall i, j :: 0 <= i && j == i + 255 < 512 ==> powers[j] == powers[i])
  }

  ghost function PowerTable(): (powers: seq<Byte>)
    ensures |powers| == 512 && forall i :: 0 <= i < 512 ==> powers[i] == AlphaPow(i)
  {
    seq(512, i requires 0 <= i => AlphaPow(i))
  }

  lemma PowerSteps(i: nat, j: nat)
    requires j == i + 1
    ensures AlphaPow(j) == Double(AlphaPow(i))
  {
  }

  lemma PowerTableFacts(powers: seq<Byte>)
    requires |powers| == 512 && forall i :: 0 <= i < 512 ==> powers[i] == AlphaPow(i)
    ensures IsPowerTable(powers)
  {
    forall i, j | 0 <= i && j == i + 1 < 256
      ensures powers[j] == Double(powers[i])
    {
      PowerSteps(i, j);
    }
    forall i, j | 0 <= i < j < 255
      ensures powers[i] != powers[j]
    {
      EarlierPowerDiffers(i, j);
    }
    forall i, j | 0 <= i && j == i + 255 < 512
      ensures powers[j] == powers[i]
    {
      AlphaPowPeriodic(i, j - i);
    }
  }

  class Tables {
    const exp: array<Byte>
    const log: array<nat>

    ghost predicate Valid()
      reads this, exp, log
    {
      && exp.Length == 512 && log.Length == 256
      && (forall i :: 0 <= i < 512 ==> exp[i] == AlphaPow(i))
      && (forall i :: 0 <= i < 255 ==> log[AlphaPow(i)] == i)
    }

    constructor ()
      ensures Valid() && fresh(exp) && fresh(log)
    {
      exp := new Byte[512](_ => 0);
      log := new nat[256](_ => 0);
      new;
      ghost var powers := PowerTable();
      PowerTableFacts(powers);
      FillPowers(powers);
      FillRepeats(powers);
    }

    method FillPowers(ghost powers: seq<Byte>)
      requires exp.Length == 512 && log.Length == 256 && IsPowerTable(powers)
      modifies exp, log
      ensures forall i :: 0 <= i < 255 ==> exp[i] == powers[i] && log[powers[i]] == i
    {
      hide Double;
      var x: Byte := 1;
      var i := 0;
      while i < 255
        invariant 0 <= i <= 255 && x == powers[i]
        invariant forall k :: 0 <= k < i ==> exp[k] == powers[k]
        invariant forall k :: 0 <= k < i ==> log[powers[k]] == k
      {
        exp[i] := x;
        log[x] := i;
        x := ShiftReduce(x);
        i := i + 1;
      }
    }

    method FillRepeats(ghost powers: seq<Byte>)
      requires exp.Length == 512 && IsPowerTable(powers)
      requires forall i :: 0 <= i < 255 ==> exp[i] == powers[i]
      modifies exp
      ensures forall i :: 0 <= i < 512 ==> exp[i] == powers[i]
    {
      var i := 255;
      while i < 512
        invariant 255 <= i <= 512
        invariant forall k :: 0 <= k < i ==> exp[k] == powers[k]
      {
        exp[i] := exp[i - 255];
        i := i + 1;
      }
    }

    /** Multiplication by adding logarithms is the field product. */
    function GfMul(a: Byte, b: Byte): (r: Byte)
      requires Valid()
      reads this, exp, log
      ensures r == Mul(a, b)
    {
      if a == 0 || b == 0 then
        MulByZero(a); MulByZero(b);
        0
      else
        MulByLogs(a, b);
        exp[log[a] + log[b]]
    }
  }

  // ----- Generator polynomial -----

  /** p(x) * (x + r), coefficients ascending. */
  function TimesLinear(p: seq<Byte>, r: Byte): (q: seq<Byte>)
    ensures |q| == |p| + 1
  {
    AddSeq(Scale(p, r) + [0], [0] + p)
  }

  /** (x + alpha^0) ... (x + alpha^(n-1)), coefficients ascending. */
  function GenPoly(n: nat): (p: seq<Byte>)
    ensures |p| == n + 1
  {
    if n == 0 then [1] else TimesLinear(GenPoly(n - 1), AlphaPow(n - 1))
  }

  lemma TimesLinearValue(p: seq<Byte>, r: Byte, x: Byte)
    ensures EvalAscending(TimesLinear(p, r), x) == Mul(EvalAscending(p, x), Add(r, x))
  {
    AscendingAdds(Scale(p, r) + [0], [0] + p, x);
    AscendingPadded(Scale(p, r), x);
    AscendingScales(p, r, x);
    AscendingShifted(p, x);
    MulXorRight(EvalAscending(p, x), r, x);
  }

  /** The generator vanishes at its n roots. */
  lemma {:induction false} GenPolyVanishes(n: nat, j: nat)
    requires j < n
    ensures EvalAscending(GenPoly(n), AlphaPow(j)) == 0
  {
    TimesLinearValue(GenPoly(n - 1), AlphaPow(n - 1), AlphaPow(j));
    if j == n - 1 {
      XorSelf(AlphaPow(j));
    } else {
      GenPolyVanishes(n - 1, j);
      MulZero(Add(AlphaPow(n - 1), AlphaPow(j)));
    }
  }

  lemma {:induction false} GenPolyMonic(n: nat)
    ensures GenPoly(n)[n] == 1
  {
    if n > 0 {
      GenPolyMonic(n - 1);
      XorZero(1);
    }
  }

  lemma TimesLinearAt(p: seq<Byte>, r: Byte, k: nat)
    requires k < |p|
    ensures TimesLinear(p, r)[k] == Add(if k == 0 then 0 else p[k - 1], Mul(p[k], r))
  {
    hide Mul, Xor;
    XorCommutes(Mul(p[k], r), if k == 0 then 0 else p[k - 1]);
  }

  lemma TimesLinearLeading(p: seq<Byte>, r: Byte)
    requires |p| > 0
    ensures TimesLinear(p, r)[|p|] == p[|p| - 1]
  {
    XorZero(p[|p| - 1]);
  }

  /** One factor: p * (x + alpha^i), accumulated in place. */
  method TimesRoot(tables: Tables, p: array<Byte>, i: nat) returns (p2: array<Byte>)
    requires tables.Valid() && i < 512 && p.Length > 0
    ensures fresh(p2) && p2[..] == TimesLinear(p[..], AlphaPow(i))
  {
    hide Xor, Mul, AlphaPow;
    p2 := new Byte[p.Length + 1](_ => 0);
    ghost var goal := TimesLinear(p[..], AlphaPow(i));
    var j := 0;
    while j < p.Length
      invariant 0 <= j <= p.Length && p2.Length == p.Length + 1
      invariant forall k :: 0 <= k < j ==> p2[k] == goal[k]
      invariant p2[j] == if j == 0 then 0 else p[j - 1]
      invariant forall k :: j < k < p2.Length ==> p2[k] == 0
    {
      var c := p[j];
      var product := tables.GfMul(c, tables.exp[i]);
      TimesLinearAt(p[..], AlphaPow(i), j);
      p2[j] := Add(p2[j], product);
      XorZero(c);
      p2[j + 1] := Add(p2[j + 1], c);
      j := j + 1;
    }
    TimesLinearLeading(p[..], AlphaPow(i));
  }

  method RsGenPoly(tables: Tables, n: nat) returns (p: array<Byte>)
    requires tables.Valid() && n <= 512
    ensures fresh(p) && p[..] == GenPoly(n)
  {
    p := new Byte[1][1];
    var i := 0;
    while i < n
      invariant 0 <= i <= n && p[..] == GenPoly(i) && fresh(p)
    {
      p := TimesRoot(tables, p, i);
      i := i + 1;
    }
  }

  // ----- Shift-register division -----

  /** One step of the register: the next data byte enters, the generator is subtracted. */
  function Step(res: seq<Byte>, d: Byte, generator: seq<Byte>): (next: seq<Byte>)
    requires |generator| == |res| + 1 > 1
    ensures |next| == |res|
  {
    AddSeq(res + [0], Scale(generator, Add(d, res[0])))[1..]
  }

  /** The register stays the remainder: appending it to the data read so far gives a codeword. */
  lemma StepKeepsRoot(data: seq<Byte>, res: seq<Byte>, d: Byte, generator: seq<Byte>, x: Byte)
    requires |generator| == |res| + 1 > 1 && generator[0] == 1
    requires Eval(generator, x) == 0 && Eval(data + res, x) == 0
    ensures Eval(data + [d] + Step(res, d, generator), x) == 0
  {
    var factor := Add(d, res[0]);
    var sum := AddSeq(res + [0], Scale(generator, factor));
    assert sum[0] == d by {
      OneMul(factor);
      XorCommutes(d, res[0]);
      XorCommutes(res[0], factor);
      XorTwice(d, res[0]);
    }
    assert data + [d] + Step(res, d, generator) == data + sum;
    var acc := Horner(0, data, x);
    HornerAppend(0, data, sum, x);
    XorZero(acc);
    HornerAdds(acc, 0, res + [0], Scale(generator, factor), x);
    HornerAppend(acc, res, [0], x);
    HornerAppend(0, data, res, x);
    MulZero(x);
    XorZero(0);
    MulZero(factor);
    HornerScales(0, generator, factor, x);
  }

  /** The register after all of the data. */
  ghost function Register(data: seq<Byte>, generator: seq<Byte>, n: nat): (res: seq<Byte>)
    requires |generator| == n + 1 && (n == 0 ==> data == [])
    ensures |res| == n
  {
    if data == [] then seq(n, _ => 0) else Step(Register(data[..|data| - 1], generator, n), data[|data| - 1], generator)
  }

  /** It completes the data to a codeword. */
  lemma {:induction false} RegisterCompletes(data: seq<Byte>, generator: seq<Byte>, n: nat)
    requires |generator| == n + 1 && (n == 0 ==> data == []) && generator[0] == 1 && IsCodeword(generator, n)
    ensures IsCodeword(data + Register(data, generator, n), n)
    decreases |data|
  {
    if data == [] {
      ZeroRegister(n, Register(data, generator, n));
    } else {
      var front, d := data[..|data| - 1], data[|data| - 1];
      RegisterCompletes(front, generator, n);
      StepKeepsCodeword(front, Register(front, generator, n), d, generator, n);
      assert data == front + [d];
    }
  }

  method RsEncode(tables: Tables, data: seq<Byte>, n: nat) returns (res: array<Byte>)
    requires tables.Valid() && n <= 512 && (n == 0 ==> data == [])
    ensures fresh(res) && res.Length == n
    ensures IsCodeword(data + res[..], n)
  {
    var g := RsGenPoly(tables, n);
    var gd := Descending(g);
    res := Divide(tables, data, n, gd);
    GeneratorDescending(n, gd[..]);
    RegisterCompletes(data, gd[..], n);
  }

  /** The loop over the data bytes. */
  method Divide(tables: Tables, data: seq<Byte>, n: nat, gd: array<Byte>) returns (res: array<Byte>)
    requires tables.Valid() && gd.Length == n + 1 && (n == 0 ==> data == [])
    ensures fresh(res) && res[..] == Register(data, gd[..], n)
  {
    res := new Byte[n](_ => 0);
    var i := 0;
    while i < |data|
      invariant 0 <= i <= |data| && res[..] == Register(data[..i], gd[..], n)
    {
      assert data[..i + 1][..i] == data[..i];
      Shift(tables, res, data[i], gd);
      i := i + 1;
    }
    assert data[..i] == data;
  }

  method Descending(g: array<Byte>) returns (gd: array<Byte>)
    ensures fresh(gd) && gd[..] == Reverse(g[..])
  {
    gd := new Byte[g.Length](_ => 0);
    var i := 0;
    while i < g.Length
      invariant 0 <= i <= g.Length
      invariant forall k :: 0 <= k < i ==> gd[g.Length - 1 - k] == g[k]
    {
      gd[g.Length - 1 - i] := g[i];
      i := i + 1;
    }
  }

  /** The slice copy onto itself, one place down, and a zero at the end. */
  method DropFirst(res: array<Byte>)
    requires res.Length > 0
    modifies res
    ensures res[..] == (old(res[..]) + [0])[1..]
  {
    var n := res.Length;
    forall j | 0 <= j < n - 1 {
      res[j] := res[j + 1];
    }
    res[n - 1] := 0;
  }

  /** One data byte through the register, in place. */
  method Shift(tables: Tables, res: array<Byte>, d: Byte, gd: array<Byte>)
    requires tables.Valid() && gd.Length == res.Length + 1 > 1
    requires res != gd && res != tables.exp
    modifies res
    ensures res[..] == Step(old(res[..]), d, gd[..])
  {
    hide Xor;
    ghost var before := res[..];
    var factor := Add(d, res[0]);
    var n := res.Length;
    DropFirst(res);
    ghost var shifted := res[..];
    if factor != 0 {
      var j := 0;
      while j < n
        invariant 0 <= j <= n
        invariant forall k :: 0 <= k < j ==> res[k] == Add(shifted[k], Mul(gd[k + 1], factor))
        invariant forall k :: j <= k < n ==> res[k] == shifted[k]
      {
        res[j] := Add(res[j], tables.GfMul(gd[j + 1], factor));
        j := j + 1;
      }
    } else {
      forall k | 0 <= k < n
        ensures res[k] == Add(shifted[k], Mul(gd[k + 1], factor))
      {
        XorZero(res[k]);
      }
    }
  }

  lemma StepKeepsCodeword(data: seq<Byte>, res: seq<Byte>, d: Byte, generator: seq<Byte>, n: nat)
    requires |generator| == |res| + 1 > 1 && generator[0] == 1
    requires IsCodeword(generator, n) && IsCodeword(data + res, n)
    ensures IsCodeword(data + [d] + Step(res, d, generator), n)
  {
    forall j | 0 <= j < n
      ensures Eval(data + [d] + Step(res, d, generator), AlphaPow(j)) == 0
    {
      StepKeepsRoot(data, res, d, generator, AlphaPow(j));
    }
  }

  lemma GeneratorDescending(n: nat, generator: seq<Byte>)
    requires generator == Reverse(GenPoly(n))
    ensures |generator| == n + 1 && generator[0] == 1 && IsCodeword(generator, n)
  {
    GenPolyMonic(n);
    forall j | 0 <= j < n
      ensures Eval(generator, AlphaPow(j)) == 0
    {
      GenPolyVanishes(n, j);
      AscendingIsReversed(GenPoly(n), AlphaPow(j));
    }
  }

  lemma ZeroRegister(n: nat, res: seq<Byte>)
    requires forall i :: 0 <= i < |res| ==> res[i] == 0
    ensures IsCodeword(res, n) && [] + res == res
  {
    forall j | 0 <= j < n
      ensures Eval(res, AlphaPow(j)) == 0
    {
      HornerZeros(res, AlphaPow(j));
    }
  }

  lemma {:induction false} HornerZeros(s: seq<Byte>, x: Byte)
    requires forall i :: 0 <= i < |s| ==> s[i] == 0
    ensures Eval(s, x) == 0
  {
    if s != [] {
      MulZero(x);
      XorZero(0);
      HornerZeros(s[1..], x);
    }
  }
}
