/** The Pillar Two computation per jurisdiction (services/etr/app/engine.py:123-181): carve-out, effective rate, top-up
    on the less favourable basis, and the domestic top-up tax. All divisions floor. */
module TopUpTax {
  datatype Basis = Nta | Globe

  datatype Entity = Entity(id: string, parent: string, jurisdiction: string, ntaIncome: int, globeIncome: int,
                           ntaTaxes: int, globeTaxes: int, payroll: int, assets: int, ownership: int, isPope: bool)

  datatype Rates = Rates(payrollBps: int, assetsBps: int, minimumBps: int)

  datatype Result = Result(basis: Basis, income: int, taxes: int, sbie: int, excess: int, etr: int, pct: int,
                           topup: int, qdmtt: int, residual: int)

  function Income(e: Entity, b: Basis): int {
    if b == Nta then e.ntaIncome else e.globeIncome
  }

  function Taxes(e: Entity, b: Basis): int {
    if b == Nta then e.ntaTaxes else e.globeTaxes
  }

  function Max(a: int, b: int): int {
    if a >= b then a else b
  }

  function Sum(xs: seq<int>): int {
    if xs == [] then 0 else Sum(xs[..|xs| - 1]) + xs[|xs| - 1]
  }

  function Payrolls(es: seq<Entity>): seq<int> {
    seq(|es|, i requires 0 <= i < |es| => es[i].payroll)
  }

  function Assets(es: seq<Entity>): seq<int> {
    seq(|es|, i requires 0 <= i < |es| => es[i].assets)
  }

  function Incomes(es: seq<Entity>, b: Basis): seq<int> {
    seq(|es|, i requires 0 <= i < |es| => Income(es[i], b))
  }

  function CoveredTaxes(es: seq<Entity>, b: Basis): seq<int> {
    seq(|es|, i requires 0 <= i < |es| => Taxes(es[i], b))
  }

  /** The carve-out of the jurisdiction as a whole. */
  function Sbie(es: seq<Entity>, rates: Rates): int {
    Sum(Payrolls(es)) * rates.payrollBps / 10000 + Sum(Assets(es)) * rates.assetsBps / 10000
  }

  /** And of one entity alone. */
  function CarveOut(e: Entity, rates: Rates): int {
    e.payroll * rates.payrollBps / 10000 + e.assets * rates.assetsBps / 10000
  }

  function OnBasis(es: seq<Entity>, rates: Rates, pushed: int, b: Basis): Result {
    var income := Sum(Incomes(es, b));
    var taxes := Sum(CoveredTaxes(es, b)) + pushed;
    var sbie := Sbie(es, rates);
    if income <= 0 then Result(b, income, taxes, sbie, 0, 0, 0, 0, 0, 0)
    else
      var etr := taxes * 10000 / income;
      var pct := Max(0, rates.minimumBps - etr);
      var excess := Max(0, income - sbie);
      Result(b, income, taxes, sbie, excess, etr, pct, excess * pct / 10000, 0, excess * pct / 10000)
  }

  /** The loop over the requested bases keeps the first one with the highest top-up. */
  method BestBasis(es: seq<Entity>, rates: Rates, pushed: int, bases: seq<Basis>) returns (at: nat, best: Result)
    requires bases != []
    ensures at < |bases| && best == OnBasis(es, rates, pushed, bases[at])
    ensures forall j :: 0 <= j < |bases| ==> OnBasis(es, rates, pushed, bases[j]).topup <= best.topup
    ensures forall j :: 0 <= j < at ==> OnBasis(es, rates, pushed, bases[j]).topup < best.topup
  {
    at, best := 0, OnBasis(es, rates, pushed, bases[0]);
    var k := 1;
    while k < |bases|
      invariant 1 <= k <= |bases| && at < k && best == OnBasis(es, rates, pushed, bases[at])
      invariant forall j :: 0 <= j < k ==> OnBasis(es, rates, pushed, bases[j]).topup <= best.topup
      invariant forall j :: 0 <= j < at ==> OnBasis(es, rates, pushed, bases[j]).topup < best.topup
    {
      var jr := OnBasis(es, rates, pushed, bases[k]);
      if jr.topup > best.topup {
        at, best := k, jr;
      }
      k := k + 1;
    }
  }

  /** The domestic top-up tax, where it is in force, takes the whole top-up. */
  function Domestic(jr: Result, inForce: bool): Result {
    if jr.topup > 0 && inForce then jr.(qdmtt := jr.topup, residual := 0) else jr
  }

  // ----- Sums of floors -----

  function Floors(ns: seq<int>, d: int): int
    requires d > 0
  {
    if ns == [] then 0 else Floors(ns[..|ns| - 1], d) + ns[|ns| - 1] / d
  }

  lemma FloorOfSum(a: int, b: int, d: int)
    requires d > 0
    ensures 0 <= (a + b) / d - a / d - b / d <= 1
  {
    var q, r := a / d, a % d;
    var p, t := b / d, b % d;
    assert a == q * d + r && b == p * d + t;
    assert a + b == (q + p) * d + (r + t);
    if r + t < d {
      QuotientIs(a + b, d, q + p, r + t);
    } else {
      assert a + b == (q + p + 1) * d + (r + t - d);
      QuotientIs(a + b, d, q + p + 1, r + t - d);
    }
  }

  lemma Multiple(k: int, d: int)
    requires d > 0 && -d < k * d < d
    ensures k == 0
  {
  }

  lemma QuotientIs(n: int, d: int, q: int, r: int)
    requires d > 0 && 0 <= r < d && n == q * d + r
    ensures n / d == q
  {
    var k := n / d - q;
    assert n % d == r - k * d;
    assert k * d < d && k * d > -d;
    Multiple(k, d);
  }

  /** Flooring each term falls short of flooring the sum by less than the number of terms. */
  lemma {:induction false} FloorsOfSum(ns: seq<int>, d: int)
    requires d > 0 && ns != []
    ensures 0 <= Sum(ns) / d - Floors(ns, d) <= |ns| - 1
  {
    if |ns| == 1 {
      assert ns[..0] == [];
    } else {
      FloorsOfSum(ns[..|ns| - 1], d);
      FloorOfSum(Sum(ns[..|ns| - 1]), ns[|ns| - 1], d);
    }
  }

  function Scaled(xs: seq<int>, m: int): seq<int> {
    seq(|xs|, i requires 0 <= i < |xs| => m * xs[i])
  }

  lemma {:induction false} SumScaled(xs: seq<int>, m: int)
    ensures Sum(Scaled(xs, m)) == Sum(xs) * m
  {
    if xs != [] {
      SumScaled(xs[..|xs| - 1], m);
      assert Scaled(xs, m)[..|xs| - 1] == Scaled(xs[..|xs| - 1], m);
      assert (Sum(xs[..|xs| - 1]) + xs[|xs| - 1]) * m == Sum(xs[..|xs| - 1]) * m + m * xs[|xs| - 1];
    }
  }

  lemma FloorsOfScaled(xs: seq<int>, m: int, d: int)
    requires d > 0 && xs != []
    ensures 0 <= Sum(xs) * m / d - Floors(Scaled(xs, m), d) <= |xs| - 1
  {
    var ns := Scaled(xs, m);
    assert Sum(ns) == Sum(xs) * m by {
      SumScaled(xs, m);
    }
    FloorsOfSum(ns, d);
  }

  /** There is a top-up percentage if and only if the covered taxes fall short of the minimum rate on the income, and
      the top-up is that percentage of the excess profit, rounded down. */
  lemma TopUpBelowMinimum(es: seq<Entity>, rates: Rates, pushed: int, b: Basis)
    ensures var jr := OnBasis(es, rates, pushed, b);
      && (jr.pct > 0 <==> jr.income > 0 && 10000 * jr.taxes < rates.minimumBps * jr.income)
      && 10000 * jr.topup <= jr.excess * jr.pct < 10000 * (jr.topup + 1)
      && (jr.excess > 0 ==> jr.income - jr.sbie == jr.excess)
      && (jr.topup > 0 ==> jr.income > jr.sbie && jr.pct > 0)
  {
    var jr := OnBasis(es, rates, pushed, b);
    if jr.income > 0 {
      QuotientBelow(jr.taxes * 10000, jr.income, rates.minimumBps);
    }
  }

  lemma QuotientBelow(n: int, d: int, m: int)
    requires d > 0
    ensures n / d < m <==> n < m * d
  {
    var q := n / d;
    assert q * d <= n < q * d + d;
    if q < m {
      Ordered(q + 1, m, d);
    } else {
      Ordered(m, q, d);
    }
  }

  lemma Ordered(a: int, b: int, d: int)
    requires a <= b && d > 0
    ensures a * d <= b * d
  {
  }

  // ----- The figures of a jurisdiction -----

  lemma SumNext(xs: seq<int>, x: int)
    ensures Sum(xs + [x]) == Sum(xs) + x
  {
    assert (xs + [x])[..|xs|] == xs;
  }

  /** Income and covered taxes are added up over the entities on the basis asked for, and taxes pushed down count as
      covered. */
  lemma FiguresAdd(es: seq<Entity>, e: Entity, rates: Rates, pushed: int)
    ensures forall b :: OnBasis([], rates, pushed, b).income == 0 && OnBasis([], rates, pushed, b).taxes == pushed
    ensures var jr, jr' := OnBasis(es, rates, pushed, Nta), OnBasis(es + [e], rates, pushed, Nta);
      jr'.income == jr.income + e.ntaIncome && jr'.taxes == jr.taxes + e.ntaTaxes
    ensures var jr, jr' := OnBasis(es, rates, pushed, Globe), OnBasis(es + [e], rates, pushed, Globe);
      jr'.income == jr.income + e.globeIncome && jr'.taxes == jr.taxes + e.globeTaxes
  {
    assert Incomes(es + [e], Nta) == Incomes(es, Nta) + [e.ntaIncome];
    assert Incomes(es + [e], Globe) == Incomes(es, Globe) + [e.globeIncome];
    assert CoveredTaxes(es + [e], Nta) == CoveredTaxes(es, Nta) + [e.ntaTaxes];
    assert CoveredTaxes(es + [e], Globe) == CoveredTaxes(es, Globe) + [e.globeTaxes];
    SumNext(Incomes(es, Nta), e.ntaIncome);
    SumNext(Incomes(es, Globe), e.globeIncome);
    SumNext(CoveredTaxes(es, Nta), e.ntaTaxes);
    SumNext(CoveredTaxes(es, Globe), e.globeTaxes);
  }

  /** The carve-out base: each entity's payroll and assets at their rates, in hundredths of a basis point. */
  function Substance(es: seq<Entity>, rates: Rates): int {
    if es == [] then 0
    else es[0].payroll * rates.payrollBps + es[0].assets * rates.assetsBps + Substance(es[1..], rates)
  }

  lemma {:induction false} SubstanceIs(es: seq<Entity>, rates: Rates)
    ensures Substance(es, rates) == Sum(Payrolls(es)) * rates.payrollBps + Sum(Assets(es)) * rates.assetsBps
  {
    if es != [] {
      SubstanceIs(es[1..], rates);
      SumFirst(es[0].payroll, Payrolls(es[1..]));
      SumFirst(es[0].assets, Assets(es[1..]));
      assert Payrolls(es) == [es[0].payroll] + Payrolls(es[1..]) && Assets(es) == [es[0].assets] + Assets(es[1..]);
      Spread(es[0].payroll, Sum(Payrolls(es[1..])), rates.payrollBps);
      Spread(es[0].assets, Sum(Assets(es[1..])), rates.assetsBps);
    }
  }

  lemma Spread(a: int, b: int, c: int)
    ensures (a + b) * c == a * c + b * c
  {
  }

  lemma {:induction false} SumFirst(x: int, xs: seq<int>)
    ensures Sum([x] + xs) == x + Sum(xs)
    decreases |xs|
  {
    if xs == [] {
      assert [x] + xs == [x] && [x][..0] == [];
    } else {
      assert ([x] + xs)[..|xs|] == [x] + xs[..|xs| - 1];
      SumFirst(x, xs[..|xs| - 1]);
    }
  }

  /** The carve-out is that base in whole kobo, each of its two parts rounded down. */
  lemma CarveOutRoundsDown(es: seq<Entity>, rates: Rates)
    ensures 10000 * Sbie(es, rates) <= Substance(es, rates) < 10000 * (Sbie(es, rates) + 2)
  {
    SubstanceIs(es, rates);
  }

  /** Below the minimum rate, the percentage is what the effective rate, rounded down, is short of it. */
  lemma PercentageIsShortfall(es: seq<Entity>, rates: Rates, pushed: int, b: Basis)
    requires OnBasis(es, rates, pushed, b).pct > 0
    ensures var jr := OnBasis(es, rates, pushed, b); var etr := rates.minimumBps - jr.pct;
      jr.income > 0 && jr.etr == etr && etr * jr.income <= 10000 * jr.taxes < (etr + 1) * jr.income
  {
    var jr := OnBasis(es, rates, pushed, b);
    assert jr.taxes * 10000 == jr.income * jr.etr + jr.taxes * 10000 % jr.income;
  }

  /** The domestic tax and the residual make up the top-up: where the domestic tax is in force it takes all of it. */
  lemma DomesticTakesAll(es: seq<Entity>, rates: Rates, pushed: int, b: Basis, inForce: bool)
    ensures var jr := OnBasis(es, rates, pushed, b); var after := Domestic(jr, inForce);
      && after.qdmtt + after.residual == jr.topup && after.topup == jr.topup
      && (inForce && jr.topup > 0 ==> after.residual == 0) && (!inForce ==> after.qdmtt == 0)
  {
  }
}
