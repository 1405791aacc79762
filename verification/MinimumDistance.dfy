/** What the error-correction bytes are for: words that vanish at n consecutive powers of alpha are more than
    n positions apart, so the encoder's suffix is the only one possible and up to n/2 damaged bytes leave a
    single nearest codeword (services/einvoicing/qr.go:152-171). */
module MinimumDistance {
  import opened GaloisField
  import opened FieldLaws
  import opened Polynomials
  import opened ReedSolomon

  function Pow(a: Byte, j: nat): Byte {
    if j == 0 then 1 else Mul(Pow(a, j - 1), a)
  }

  /** One nonzero coefficient and the power of alpha at its position. */
  datatype Term = Term(c: Byte, loc: Byte)

  function PowerSum(ts: seq<Term>, j: nat): Byte {
    if ts == [] then 0 else Add(PowerSum(ts[..|ts| - 1], j), Mul(ts[|ts| - 1].c, Pow(ts[|ts| - 1].loc, j)))
  }

  ghost predicate Independent(ts: seq<Term>) {
    && (forall k :: 0 <= k < |ts| ==> ts[k].c != 0)
    && (forall k, l :: 0 <= k < l < |ts| ==> ts[k].loc != ts[l].loc)
  }

  // ----- A combination of m distinct locations cannot vanish at m consecutive powers -----

  /** Remove the location `x`: multiply each coefficient by its distance from `x`. */
  function Eliminate(ts: seq<Term>, x: Byte): (r: seq<Term>)
    ensures |r| == |ts|
    ensures forall k :: 0 <= k < |ts| ==> r[k] == Term(Mul(ts[k].c, Add(ts[k].loc, x)), ts[k].loc)
  {
    if ts == [] then [] else
      var last := ts[|ts| - 1];
      Eliminate(ts[..|ts| - 1], x) + [Term(Mul(last.c, Add(last.loc, x)), last.loc)]
  }

  lemma EliminateTerm(c: Byte, loc: Byte, x: Byte, p: Byte)
    ensures Mul(Mul(c, Add(loc, x)), p) == Add(Mul(c, Mul(p, loc)), Mul(Mul(c, p), x))
  {
    MulXorRight(c, loc, x);
    MulXorLeft(Mul(c, loc), Mul(c, x), p);
    MulAssociates(c, loc, p);
    MulCommutes(loc, p);
    MulAssociates(c, x, p);
    MulCommutes(x, p);
    MulAssociates(c, p, x);
  }

  lemma {:induction false} EliminateSum(ts: seq<Term>, x: Byte, j: nat)
    ensures PowerSum(Eliminate(ts, x), j) == Add(PowerSum(ts, j + 1), Mul(PowerSum(ts, j), x))
  {
    if ts == [] {
      MulZero(x);
      XorZero(0);
    } else {
      var front, last := ts[..|ts| - 1], ts[|ts| - 1];
      var p := Pow(last.loc, j);
      EliminateSum(front, x, j);
      EliminateTerm(last.c, last.loc, x, p);
      MulXorLeft(PowerSum(front, j), Mul(last.c, p), x);
      XorSwap(PowerSum(front, j + 1), Mul(PowerSum(front, j), x), Mul(last.c, Mul(p, last.loc)),
              Mul(Mul(last.c, p), x));
      assert Eliminate(ts, x)[..|ts| - 1] == Eliminate(front, x);
    }
  }

  lemma EliminateIndependent(ts: seq<Term>, x: Byte)
    requires Independent(ts) && forall k :: 0 <= k < |ts| ==> ts[k].loc != x
    ensures Independent(Eliminate(ts, x))
  {
    forall k | 0 <= k < |ts|
      ensures Mul(ts[k].c, Add(ts[k].loc, x)) != 0
    {
      if Mul(ts[k].c, Add(ts[k].loc, x)) == 0 {
        NoZeroDivisors(ts[k].c, Add(ts[k].loc, x));
        XorTwice(ts[k].loc, x);
        XorZero(x);
        assert false;
      }
    }
  }

  /** If the last term makes the sums vanish, eliminating it makes the sums of the others vanish. */
  lemma EliminateVanishes(front: seq<Term>, last: Term, j: nat)
    requires PowerSum(front + [last], j) == 0 && PowerSum(front + [last], j + 1) == 0
    ensures PowerSum(Eliminate(front, last.loc), j) == 0
  {
    var p := Pow(last.loc, j);
    assert (front + [last])[..|front|] == front;
    EliminateSum(front, last.loc, j);
    XorTwice(PowerSum(front, j), Mul(last.c, p));
    XorZero(Mul(last.c, p));
    XorTwice(PowerSum(front, j + 1), Mul(last.c, Mul(p, last.loc)));
    XorZero(Mul(last.c, Mul(p, last.loc)));
    MulAssociates(last.c, p, last.loc);
    XorSelf(Mul(Mul(last.c, p), last.loc));
  }

  lemma {:induction false} Vandermonde(ts: seq<Term>, n: nat)
    requires Independent(ts) && |ts| <= n
    requires forall j :: 0 <= j < n ==> PowerSum(ts, j) == 0
    ensures ts == []
    decreases |ts|
  {
    if ts != [] {
      var front, last := ts[..|ts| - 1], ts[|ts| - 1];
      assert ts == front + [last];
      forall j | 0 <= j < n - 1
        ensures PowerSum(Eliminate(front, last.loc), j) == 0
      {
        assert PowerSum(ts, j) == 0 && PowerSum(ts, j + 1) == 0;
        EliminateVanishes(front, last, j);
      }
      EliminateIndependent(front, last.loc);
      Vandermonde(Eliminate(front, last.loc), n - 1);
      assert ts == [last];
      SingleTerm(last);
      assert false;
    }
  }

  lemma SingleTerm(t: Term)
    ensures PowerSum([t], 0) == t.c
  {
    assert [t][..0] == [];
    MulOne(t.c);
    XorZero(t.c);
  }

  // ----- Words as power sums -----

  /** The nonzero coefficients of a word with the power of alpha at each position. */
  function Terms(w: seq<Byte>): seq<Term> {
    if w == [] then []
    else if w[0] == 0 then Terms(w[1..])
    else Terms(w[1..]) + [Term(w[0], AlphaPow(|w| - 1))]
  }

  lemma Product(e: nat, j: nat, k: nat)
    requires j > 0 && k == e * j
    ensures k >= e && k - e == e * (j - 1)
  {
    assert e * j == e * (j - 1) + e;
  }

  lemma {:induction false} PowOfAlphaPow(e: nat, j: nat, k: nat)
    requires k == e * j
    ensures Pow(AlphaPow(e), j) == AlphaPow(k)
    decreases j
  {
    if j > 0 {
      Product(e, j, k);
      PowOfAlphaPow(e, j - 1, k - e);
      MulAlphaPow(k - e, e);
    }
  }

  lemma PowSymmetric(e: nat, j: nat)
    ensures Pow(AlphaPow(e), j) == Pow(AlphaPow(j), e)
  {
    PowOfAlphaPow(e, j, e * j);
    PowOfAlphaPow(j, e, e * j);
  }

  lemma {:induction false} HornerLeading(acc: Byte, s: seq<Byte>, x: Byte)
    ensures Horner(acc, s, x) == Add(Horner(0, s, x), Mul(acc, Pow(x, |s|)))
    decreases |s|
  {
    if s == [] {
      MulOne(acc);
      XorZero(acc);
    } else {
      var p := Pow(x, |s| - 1);
      HornerLeading(Add(Mul(acc, x), s[0]), s[1..], x);
      MulZero(x);
      XorZero(s[0]);
      HornerLeading(s[0], s[1..], x);
      MulXorLeft(Mul(acc, x), s[0], p);
      MulAssociates(acc, x, p);
      MulCommutes(x, p);
      var low, high, lead := Horner(0, s[1..], x), Mul(s[0], p), Mul(acc, Mul(p, x));
      XorCommutes(lead, high);
      XorAssociates(low, high, lead);
    }
  }

  lemma {:induction false} TermsSum(w: seq<Byte>, j: nat)
    ensures PowerSum(Terms(w), j) == Eval(w, AlphaPow(j))
  {
    if w != [] {
      var x := AlphaPow(j);
      TermsSum(w[1..], j);
      MulZero(x);
      XorZero(w[0]);
      HornerLeading(w[0], w[1..], x);
      PowSymmetric(|w| - 1, j);
      if w[0] == 0 {
        MulZero(Pow(x, |w| - 1));
        XorZero(Eval(w[1..], x));
      } else {
        assert Terms(w)[..|Terms(w)| - 1] == Terms(w[1..]);
      }
    }
  }

  ghost predicate PowerBelow(x: Byte, n: nat) {
    exists e: nat :: e < n && AlphaPow(e) == x
  }

  lemma {:induction false} TermsIndependent(w: seq<Byte>)
    requires |w| <= 255
    ensures Independent(Terms(w))
    ensures forall t :: t in Terms(w) ==> PowerBelow(t.loc, |w|)
  {
    if w != [] {
      TermsIndependent(w[1..]);
      var ts := Terms(w[1..]);
      forall t | t in ts
        ensures t.loc != AlphaPow(|w| - 1) && PowerBelow(t.loc, |w|)
      {
        var e: nat :| e < |w| - 1 && AlphaPow(e) == t.loc;
        EarlierPowerDiffers(e, |w| - 1);
      }
      assert PowerBelow(AlphaPow(|w| - 1), |w|);
    }
  }

  // ----- Distance -----

  /** In how many positions two words differ. */
  function Distance(u: seq<Byte>, v: seq<Byte>): nat
    requires |u| == |v|
  {
    if u == [] then 0 else (if u[0] != v[0] then 1 else 0) + Distance(u[1..], v[1..])
  }

  lemma {:induction false} DifferenceTerms(u: seq<Byte>, v: seq<Byte>)
    requires |u| == |v|
    ensures |Terms(AddSeq(u, v))| == Distance(u, v)
  {
    if u != [] {
      assert AddSeq(u, v)[1..] == AddSeq(u[1..], v[1..]);
      DifferenceTerms(u[1..], v[1..]);
      XorTwice(u[0], v[0]);
      XorZero(v[0]);
      XorSelf(u[0]);
    }
  }

  lemma {:induction false} ZeroDistance(u: seq<Byte>, v: seq<Byte>)
    requires |u| == |v| && Distance(u, v) == 0
    ensures u == v
  {
    if u != [] {
      ZeroDistance(u[1..], v[1..]);
      assert u == [u[0]] + u[1..] && v == [v[0]] + v[1..];
    }
  }

  lemma {:induction false} Triangle(u: seq<Byte>, r: seq<Byte>, v: seq<Byte>)
    requires |u| == |r| == |v|
    ensures Distance(u, v) <= Distance(u, r) + Distance(r, v)
  {
    if u != [] {
      Triangle(u[1..], r[1..], v[1..]);
    }
  }

  lemma {:induction false} DistanceSymmetric(u: seq<Byte>, v: seq<Byte>)
    requires |u| == |v|
    ensures Distance(u, v) == Distance(v, u)
  {
    if u != [] {
      DistanceSymmetric(u[1..], v[1..]);
    }
  }

  /** Two different codewords of at most 255 bytes differ in more than n positions. */
  lemma CodewordsFarApart(u: seq<Byte>, v: seq<Byte>, n: nat)
    requires |u| == |v| <= 255 && IsCodeword(u, n) && IsCodeword(v, n) && u != v
    ensures Distance(u, v) > n
  {
    if Distance(u, v) <= n {
      var w := AddSeq(u, v);
      forall j | 0 <= j < n
        ensures PowerSum(Terms(w), j) == 0
      {
        XorZero(0);
        HornerAdds(0, 0, u, v, AlphaPow(j));
        TermsSum(w, j);
      }
      TermsIndependent(w);
      DifferenceTerms(u, v);
      Vandermonde(Terms(w), n);
      ZeroDistance(u, v);
      assert false;
    }
  }

  /** The check bytes are the only ones that complete the data to a codeword. */
  lemma CheckBytesUnique(data: seq<Byte>, r: seq<Byte>, r': seq<Byte>, n: nat)
    requires |r| == |r'| == n <= 255
    requires IsCodeword(data + r, n) && IsCodeword(data + r', n)
    ensures r == r'
  {
    var w := AddSeq(r, r');
    var zeros: seq<Byte> := AddSeq(r, r);
    forall j | 0 <= j < n
      ensures Eval(w, AlphaPow(j)) == 0 && Eval(zeros, AlphaPow(j)) == 0
    {
      var x := AlphaPow(j);
      var acc := Horner(0, data, x);
      HornerAppend(0, data, r, x);
      HornerAppend(0, data, r', x);
      XorSelf(acc);
      HornerAdds(acc, acc, r, r', x);
      HornerAdds(acc, acc, r, r, x);
      XorZero(0);
    }
    if w != zeros {
      CodewordsFarApart(w, zeros, n);
      DistanceAtMost(w, zeros);
      assert false;
    }
    forall i | 0 <= i < n
      ensures r[i] == r'[i]
    {
      assert w[i] == zeros[i];
      XorSelf(r[i]);
      XorTwice(r[i], r'[i]);
      XorZero(r'[i]);
    }
  }

  lemma {:induction false} DistanceAtMost(u: seq<Byte>, v: seq<Byte>)
    requires |u| == |v|
    ensures Distance(u, v) <= |u|
  {
    if u != [] {
      DistanceAtMost(u[1..], v[1..]);
    }
  }

  /** With n check bytes, at most n/2 damaged bytes leave one codeword nearest: the one that was sent. */
  lemma UniqueDecoding(sent: seq<Byte>, received: seq<Byte>, other: seq<Byte>, n: nat)
    requires |sent| == |received| == |other| <= 255
    requires IsCodeword(sent, n) && IsCodeword(other, n)
    requires 2 * Distance(sent, received) <= n && other != sent
    ensures Distance(other, received) > Distance(sent, received)
  {
    CodewordsFarApart(sent, other, n);
    Triangle(sent, received, other);
    DistanceSymmetric(received, other);
  }
}
