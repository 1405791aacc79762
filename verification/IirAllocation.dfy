/** Charging the residual top-up under the income inclusion rule (services/etr/app/engine.py:183-240): each entity's
    share by its own excess profit, then to the first partially-owned parent above it and the ultimate parent. */
module IirAllocation {
  import opened TopUpTax

  datatype Allocation = Allocation(to: string, mechanism: string, amount: int, ownership: int)

  type Group = map<string, Entity>

  // ----- Shares -----

  function OwnExcess(e: Entity, rates: Rates, b: Basis): int {
    Max(0, Income(e, b) - CarveOut(e, rates))
  }

  function OwnExcesses(es: seq<Entity>, rates: Rates, b: Basis): seq<int> {
    seq(|es|, i requires 0 <= i < |es| => OwnExcess(es[i], rates, b))
  }

  function Share(e: Entity, rates: Rates, jr: Result): int
    requires jr.excess > 0
  {
    jr.residual * OwnExcess(e, rates, jr.basis) / jr.excess
  }

  function Shares(es: seq<Entity>, rates: Rates, jr: Result): int
    requires jr.excess > 0
  {
    if es == [] then 0 else Shares(es[..|es| - 1], rates, jr) + Share(es[|es| - 1], rates, jr)
  }

  lemma {:induction false} SharesAreFloors(es: seq<Entity>, rates: Rates, jr: Result)
    requires jr.excess > 0
    ensures Shares(es, rates, jr) == Floors(Scaled(OwnExcesses(es, rates, jr.basis), jr.residual), jr.excess)
    decreases |es|
  {
    if es != [] {
      var front := es[..|es| - 1];
      SharesAreFloors(front, rates, jr);
      var ns := Scaled(OwnExcesses(es, rates, jr.basis), jr.residual);
      assert ns[..|ns| - 1] == Scaled(OwnExcesses(front, rates, jr.basis), jr.residual);
    }
  }

  function CarveOuts(es: seq<Entity>, rates: Rates): int {
    if es == [] then 0 else CarveOuts(es[..|es| - 1], rates) + CarveOut(es[|es| - 1], rates)
  }

  lemma FloorsNext(ns: seq<int>, front: seq<int>, d: int)
    requires d > 0 && ns != [] && ns[..|ns| - 1] == front
    ensures Floors(ns, d) == Floors(front, d) + ns[|ns| - 1] / d
  {
  }

  lemma SwapFactors(x: int, m: int)
    ensures x * m / 10000 == m * x / 10000
  {
    assert x * m == m * x;
  }

  lemma ScaledFront(xs: seq<int>, front: seq<int>, m: int)
    requires xs != [] && xs[..|xs| - 1] == front
    ensures var ns := Scaled(xs, m);
      |ns| == |xs| && ns[..|ns| - 1] == Scaled(front, m) && ns[|ns| - 1] == m * xs[|xs| - 1]
  {
  }

  lemma {:induction false} CarveOutsAreFloors(es: seq<Entity>, rates: Rates)
    ensures CarveOuts(es, rates) ==
      Floors(Scaled(Payrolls(es), rates.payrollBps), 10000) + Floors(Scaled(Assets(es), rates.assetsBps), 10000)
    decreases |es|
  {
    if es != [] {
      var front, last := es[..|es| - 1], es[|es| - 1];
      CarveOutsAreFloors(front, rates);
      assert Payrolls(es)[..|es| - 1] == Payrolls(front) && Assets(es)[..|es| - 1] == Assets(front);
      ScaledFront(Payrolls(es), Payrolls(front), rates.payrollBps);
      ScaledFront(Assets(es), Assets(front), rates.assetsBps);
      FloorsNext(Scaled(Payrolls(es), rates.payrollBps), Scaled(Payrolls(front), rates.payrollBps), 10000);
      FloorsNext(Scaled(Assets(es), rates.assetsBps), Scaled(Assets(front), rates.assetsBps), 10000);
      SwapFactors(last.payroll, rates.payrollBps);
      SwapFactors(last.assets, rates.assetsBps);
    }
  }

  /** The entities' own carve-outs fall short of the jurisdiction's by less than one kobo per entity and component. */
  lemma CarveOutLoss(es: seq<Entity>, rates: Rates)
    requires es != []
    ensures 0 <= Sbie(es, rates) - CarveOuts(es, rates) <= 2 * (|es| - 1)
  {
    CarveOutsAreFloors(es, rates);
    FloorsOfScaled(Payrolls(es), rates.payrollBps, 10000);
    FloorsOfScaled(Assets(es), rates.assetsBps, 10000);
  }

  predicate CoversCarveOut(e: Entity, rates: Rates, b: Basis) {
    Income(e, b) >= CarveOut(e, rates)
  }

  /** Clipping at zero can only raise the sum; where no entity is below its carve-out it changes nothing. */
  lemma {:induction false} OwnExcessSum(es: seq<Entity>, rates: Rates, b: Basis)
    ensures Sum(OwnExcesses(es, rates, b)) >= Sum(Incomes(es, b)) - CarveOuts(es, rates)
    ensures (forall i :: 0 <= i < |es| ==> CoversCarveOut(es[i], rates, b)) ==>
      Sum(OwnExcesses(es, rates, b)) == Sum(Incomes(es, b)) - CarveOuts(es, rates)
    decreases |es|
  {
    if es != [] {
      var front := es[..|es| - 1];
      OwnExcessSum(front, rates, b);
      assert OwnExcesses(es, rates, b)[..|es| - 1] == OwnExcesses(front, rates, b);
      assert Incomes(es, b)[..|es| - 1] == Incomes(front, b);
    }
  }

  lemma Monotone(a: int, b: int, d: int)
    requires d > 0
    ensures a <= b ==> a * d <= b * d
  {
  }

  lemma DivideBoth(n: int, r: int, d: int)
    requires d > 0 && n >= r * d
    ensures n / d >= r
  {
    assert n < (n / d + 1) * d;
    Monotone(n / d + 1, r, d);
  }

  /** From s * e <= r * e + r * m and 10000 * r <= e * pct. */
  lemma UpperBound(s: int, r: int, e: int, m: int, pct: int)
    requires e > 0 && m >= 0 && r >= 0 && s * e <= r * (e + m) && 10000 * r <= e * pct
    ensures 10000 * (s - r) <= m * pct
  {
    assert (s - r) * e <= r * m by {
      assert r * (e + m) == r * e + r * m;
      assert (s - r) * e == s * e - r * e;
    }
    assert 10000 * r * m <= e * pct * m by {
      assert (e * pct - 10000 * r) * m >= 0;
    }
    assert 10000 * ((s - r) * e) <= e * (m * pct) by {
      assert e * pct * m == e * (m * pct);
      assert 10000 * (r * m) == 10000 * r * m;
    }
    assert (10000 * (s - r)) * e <= (m * pct) * e;
    CancelFactor(10000 * (s - r), m * pct, e);
  }

  lemma CancelFactor(a: int, b: int, e: int)
    requires e > 0 && a * e <= b * e
    ensures a <= b
  {
    Monotone(b + 1, a, e);
    assert (b + 1) * e == b * e + e;
  }

  /** A charged jurisdiction: its figures come from the computation and something is left to allocate. */
  predicate Charged(es: seq<Entity>, rates: Rates, pushed: int, jr: Result) {
    && jr.residual > 0 && jr.excess > 0
    && exists inForce :: jr == Domestic(OnBasis(es, rates, pushed, jr.basis), inForce)
  }

  lemma ChargedFigures(es: seq<Entity>, rates: Rates, pushed: int, jr: Result)
    requires Charged(es, rates, pushed, jr)
    ensures jr == OnBasis(es, rates, pushed, jr.basis) && jr.pct >= 0 && jr.residual == jr.excess * jr.pct / 10000
    ensures jr.excess == Sum(Incomes(es, jr.basis)) - Sbie(es, rates) && 10000 * jr.residual <= jr.excess * jr.pct
      && es != []
  {
    assert es == [] ==> Sum(Incomes(es, jr.basis)) == 0;
  }

  /** The shares of k entities miss the residual top-up R by less than k from below. They exceed it by at most
      2 (k - 1) pct / 10000 when no entity's income is below its own carve-out. */
  lemma ShareBounds(es: seq<Entity>, rates: Rates, pushed: int, jr: Result)
    requires Charged(es, rates, pushed, jr)
    ensures jr.residual - |es| < Shares(es, rates, jr)
    ensures (forall i :: 0 <= i < |es| ==> CoversCarveOut(es[i], rates, jr.basis)) ==>
      10000 * (Shares(es, rates, jr) - jr.residual) <= 2 * (|es| - 1) * jr.pct
  {
    ChargedFigures(es, rates, pushed, jr);
    var xs := OwnExcesses(es, rates, jr.basis);
    var s := Shares(es, rates, jr);
    SharesAreFloors(es, rates, jr);
    FloorsOfScaled(xs, jr.residual, jr.excess);
    OwnExcessSum(es, rates, jr.basis);
    CarveOutLoss(es, rates);
    LowerBound(s, jr.residual, jr.excess, Sum(xs), |es|);
    if forall i :: 0 <= i < |es| ==> CoversCarveOut(es[i], rates, jr.basis) {
      UpperBoundOf(s, jr.residual, jr.excess, Sum(xs), |es|, jr.pct);
    }
  }

  lemma LowerBound(s: int, r: int, e: int, total: int, k: int)
    requires e > 0 && r >= 0 && total >= e && total * r / e - s <= k - 1
    ensures r - k < s
  {
    assert (total - e) * r >= 0;
    assert (total - e) * r == total * r - r * e;
    DivideBoth(total * r, r, e);
  }

  lemma UpperBoundOf(s: int, r: int, e: int, total: int, k: int, pct: int)
    requires e > 0 && r >= 0 && pct >= 0 && e <= total <= e + 2 * (k - 1)
    requires s <= total * r / e && 10000 * r <= e * pct
    ensures 10000 * (s - r) <= 2 * (k - 1) * pct
  {
    var m := total - e;
    Below(s, total * r, e);
    assert total * r == r * (e + m);
    UpperBound(s, r, e, m, pct);
    assert (2 * (k - 1) - m) * pct >= 0;
    assert (2 * (k - 1) - m) * pct == 2 * (k - 1) * pct - m * pct;
  }

  lemma Below(s: int, n: int, d: int)
    requires d > 0 && s <= n / d
    ensures s * d <= n
  {
    assert s * d <= n / d * d;
  }
}
