/** First-in first-out cost basis (services/vasp-carf/engine.go:163-166,280-309,424-434): lots of milli-units bought at
    a price per whole asset, relieved from the oldest on, each piece valued by a truncating division. */
module CostBasis {
  import opened TruncatedDivision

  datatype Lot = Lot(qty: int, cost: int, acquiredAt: string)

  function AmountKobo(qty: int, price: int): int {
    Quotient(qty * price, 1000)
  }

  function Have(lots: seq<Lot>): int {
    if lots == [] then 0 else lots[0].qty + Have(lots[1..])
  }

  function Value(lots: seq<Lot>): int {
    if lots == [] then 0 else AmountKobo(lots[0].qty, lots[0].cost) + Value(lots[1..])
  }

  /** The pieces a disposal of `qty` takes. */
  function Taken(lots: seq<Lot>, qty: int): seq<Lot> {
    if qty <= 0 || lots == [] then []
    else if lots[0].qty <= qty then [lots[0]] + Taken(lots[1..], qty - lots[0].qty)
    else [lots[0].(qty := qty)]
  }

  /** The lots it leaves. */
  function Left(lots: seq<Lot>, qty: int): seq<Lot> {
    if qty <= 0 || lots == [] then lots
    else if lots[0].qty <= qty then Left(lots[1..], qty - lots[0].qty)
    else [lots[0].(qty := lots[0].qty - qty)] + lots[1..]
  }

  /** The summing loop in front of a disposal and in a position report. */
  method Position(lots: seq<Lot>) returns (qty: int, basis: int)
    ensures qty == Have(lots) && basis == Value(lots)
  {
    qty, basis := 0, 0;
    var i := 0;
    while i < |lots|
      invariant 0 <= i <= |lots|
      invariant qty + Have(lots[i..]) == Have(lots) && basis + Value(lots[i..]) == Value(lots)
    {
      assert lots[i..][0] == lots[i] && lots[i..][1..] == lots[i + 1..];
      qty, basis := qty + lots[i].qty, basis + AmountKobo(lots[i].qty, lots[i].cost);
      i := i + 1;
    }
  }

  /** The relief loop. */
  method Relieve(lots0: seq<Lot>, qty: int) returns (ok: bool, lots: seq<Lot>, basis: int)
    ensures ok <==> qty <= Have(lots0)
    ensures !ok ==> lots == lots0
    ensures ok ==> lots == Left(lots0, qty) && basis == Value(Taken(lots0, qty))
  {
    lots, basis := lots0, 0;
    var have, _ := Position(lots);
    if have < qty {
      return false, lots, 0;
    }
    ok := true;
    var remain := qty;
    while remain > 0 && |lots| > 0
      invariant Left(lots, remain) == Left(lots0, qty)
      invariant basis + Value(Taken(lots, remain)) == Value(Taken(lots0, qty))
      decreases |lots|, remain
    {
      var head := lots[0];
      var take := head.qty;
      if take > remain {
        take := remain;
      }
      basis := basis + AmountKobo(take, head.cost);
      head := head.(qty := head.qty - take);
      remain := remain - take;
      if head.qty == 0 {
        lots := lots[1..];
      } else {
        lots := lots[0 := head];
      }
    }
  }

  // ----- The unit queue -----

  /** One milli-unit: what it cost and when it came in. */
  datatype Unit = Unit(cost: int, acquiredAt: string)

  function UnitsOf(lot: Lot): seq<Unit>
    requires lot.qty >= 0
  {
    seq(lot.qty, _ => Unit(lot.cost, lot.acquiredAt))
  }

  predicate WholeLots(lots: seq<Lot>) {
    forall i :: 0 <= i < |lots| ==> lots[i].qty > 0
  }

  /** The lots as the plain queue of single units they stand for. */
  function Units(lots: seq<Lot>): seq<Unit>
    requires WholeLots(lots)
  {
    if lots == [] then [] else UnitsOf(lots[0]) + Units(lots[1..])
  }

  lemma {:induction false} UnitsHeld(lots: seq<Lot>)
    requires WholeLots(lots)
    ensures |Units(lots)| == Have(lots) >= 0
  {
    if lots != [] {
      UnitsHeld(lots[1..]);
    }
  }

  lemma {:induction false} SplitWhole(lots: seq<Lot>, qty: int)
    requires WholeLots(lots)
    ensures WholeLots(Taken(lots, qty)) && WholeLots(Left(lots, qty))
    decreases |lots|
  {
    if qty > 0 && lots != [] && lots[0].qty <= qty {
      SplitWhole(lots[1..], qty - lots[0].qty);
    }
  }

  lemma UnitsOfSplit(lot: Lot, a: int)
    requires 0 <= a <= lot.qty
    ensures UnitsOf(lot)[..a] == UnitsOf(lot.(qty := a)) && UnitsOf(lot)[a..] == UnitsOf(lot.(qty := lot.qty - a))
  {
  }

  lemma SliceAfter<T>(a: seq<T>, b: seq<T>, n: int)
    requires 0 <= n <= |b|
    ensures (a + b)[..|a| + n] == a + b[..n] && (a + b)[|a| + n..] == b[n..]
  {
  }

  lemma SliceWithin<T>(a: seq<T>, b: seq<T>, n: int)
    requires 0 <= n <= |a|
    ensures (a + b)[..n] == a[..n] && (a + b)[n..] == a[n..] + b
  {
  }

  /** Relief removes exactly the first `qty` units, and the pieces taken are those units. */
  lemma {:induction false} RelievesFirstUnits(lots: seq<Lot>, qty: int)
    requires WholeLots(lots) && 0 <= qty <= Have(lots)
    ensures |Units(lots)| == Have(lots) && WholeLots(Taken(lots, qty)) && WholeLots(Left(lots, qty))
    ensures Units(Taken(lots, qty)) == Units(lots)[..qty] && Units(Left(lots, qty)) == Units(lots)[qty..]
    decreases |lots|
  {
    UnitsHeld(lots);
    SplitWhole(lots, qty);
    if qty > 0 && lots != [] {
      var head, rest := lots[0], lots[1..];
      UnitsHeld(rest);
      if head.qty <= qty {
        RelievesFirstUnits(rest, qty - head.qty);
        SliceAfter(UnitsOf(head), Units(rest), qty - head.qty);
        assert Taken(lots, qty)[1..] == Taken(rest, qty - head.qty);
      } else {
        UnitsOfSplit(head, qty);
        SliceWithin(UnitsOf(head), Units(rest), qty);
        assert Left(lots, qty)[1..] == rest;
        assert Taken(lots, qty)[1..] == [];
      }
    }
  }

  lemma {:induction false} UnitsAppend(lots: seq<Lot>, lot: Lot)
    requires WholeLots(lots) && lot.qty > 0
    ensures WholeLots(lots + [lot]) && Units(lots + [lot]) == Units(lots) + UnitsOf(lot)
  {
    if lots == [] {
      assert lots + [lot] == [lot] && [lot][1..] == [];
    } else {
      UnitsAppend(lots[1..], lot);
      assert (lots + [lot])[1..] == lots[1..] + [lot];
      assert UnitsOf(lots[0]) + (Units(lots[1..]) + UnitsOf(lot)) == UnitsOf(lots[0]) + Units(lots[1..]) + UnitsOf(lot);
    }
  }

  lemma {:induction false} SumsAppend(lots: seq<Lot>, lot: Lot)
    ensures Value(lots + [lot]) == Value(lots) + AmountKobo(lot.qty, lot.cost)
      && Have(lots + [lot]) == Have(lots) + lot.qty
  {
    if lots == [] {
      assert lots + [lot] == [lot] && [lot][1..] == [];
    } else {
      SumsAppend(lots[1..], lot);
      assert (lots + [lot])[1..] == lots[1..] + [lot];
    }
  }

  // ----- The kobo bound -----

  predicate Priced(lots: seq<Lot>) {
    forall i :: 0 <= i < |lots| ==> lots[i].cost >= 0
  }

  lemma QuotientsOfSum(x: int, y: int)
    requires x >= 0 && y >= 0
    ensures 0 <= (x + y) / 1000 - x / 1000 - y / 1000 <= 1
  {
  }

  /** Valuing two pieces of a lot apart costs at most one kobo. */
  lemma SplitLoss(a: int, b: int, cost: int)
    requires a >= 0 && b >= 0 && cost >= 0
    ensures 0 <= AmountKobo(a + b, cost) - AmountKobo(a, cost) - AmountKobo(b, cost) <= 1
  {
    assert (a + b) * cost == a * cost + b * cost && a * cost >= 0 && b * cost >= 0;
    QuotientsOfSum(a * cost, b * cost);
  }

  /** What is relieved and what is left are worth the old basis, or one kobo less. */
  lemma {:induction false} ReliefLoss(lots: seq<Lot>, qty: int)
    requires WholeLots(lots) && Priced(lots) && qty >= 0
    ensures 0 <= Value(lots) - Value(Taken(lots, qty)) - Value(Left(lots, qty)) <= 1
    ensures Priced(Left(lots, qty))
    decreases |lots|
  {
    if qty > 0 && lots != [] {
      var head, rest := lots[0], lots[1..];
      if head.qty <= qty {
        ReliefLoss(rest, qty - head.qty);
        assert Taken(lots, qty)[1..] == Taken(rest, qty - head.qty);
      } else {
        SplitLoss(qty, head.qty - qty, head.cost);
        assert Taken(lots, qty)[1..] == [] && Left(lots, qty)[1..] == rest;
      }
    }
  }

  lemma {:induction false} HeldAfterRelief(lots: seq<Lot>, qty: int)
    requires WholeLots(lots) && 0 <= qty <= Have(lots)
    ensures Have(Left(lots, qty)) == Have(lots) - qty
    decreases |lots|
  {
    if qty > 0 && lots != [] {
      if lots[0].qty <= qty {
        HeldAfterRelief(lots[1..], qty - lots[0].qty);
      } else {
        assert Left(lots, qty)[1..] == lots[1..];
      }
    }
  }

  // ----- What an amount is -----

  /** An amount is the quantity in whole assets times the price, rounded down to a kobo. */
  lemma AmountRoundsDown(qty: int, price: int)
    requires qty >= 0 && price >= 0
    ensures 1000 * AmountKobo(qty, price) <= qty * price < 1000 * (AmountKobo(qty, price) + 1)
  {
    assert qty * price >= 0;
    QuotientTruncates(qty * price, 1000);
  }

  /** On a negative value it rounds towards zero as well. */
  lemma AmountTruncates(qty: int, price: int)
    requires qty * price < 0
    ensures 1000 * (AmountKobo(qty, price) - 1) < qty * price <= 1000 * AmountKobo(qty, price)
  {
    QuotientTruncates(qty * price, 1000);
  }

  lemma AmountOfWhole(n: int, price: int)
    requires n >= 0 && price >= 0
    ensures AmountKobo(1000 * n, price) == n * price
  {
    assert 1000 * n * price == 1000 * (n * price) && n * price >= 0;
    AmountRoundsDown(1000 * n, price);
  }

  /** What the units cost in all, in thousandths of a kobo. */
  function UnitCosts(units: seq<Unit>): int {
    if units == [] then 0 else units[0].cost + UnitCosts(units[1..])
  }

  lemma {:induction false} UnitCostsConcat(a: seq<Unit>, b: seq<Unit>)
    ensures UnitCosts(a + b) == UnitCosts(a) + UnitCosts(b)
  {
    if a == [] {
      assert a + b == b;
    } else {
      assert (a + b)[1..] == a[1..] + b;
      UnitCostsConcat(a[1..], b);
    }
  }

  lemma {:induction false} LotCosts(lot: Lot)
    requires lot.qty >= 0
    ensures UnitCosts(UnitsOf(lot)) == lot.qty * lot.cost
    decreases lot.qty
  {
    if lot.qty > 0 {
      var less := lot.(qty := lot.qty - 1);
      assert UnitsOf(lot)[1..] == UnitsOf(less);
      LotCosts(less);
      assert lot.qty * lot.cost == less.qty * lot.cost + lot.cost;
    }
  }

  /** The value of lots is what their units cost, short by less than a kobo per lot. */
  lemma {:induction false} ValueOfUnits(lots: seq<Lot>)
    requires WholeLots(lots) && Priced(lots)
    ensures 1000 * Value(lots) <= UnitCosts(Units(lots)) <= 1000 * Value(lots) + 999 * |lots|
  {
    if lots != [] {
      ValueOfUnits(lots[1..]);
      LotCosts(lots[0]);
      UnitCostsConcat(UnitsOf(lots[0]), Units(lots[1..]));
      AmountRoundsDown(lots[0].qty, lots[0].cost);
    }
  }

  lemma {:induction false} TakenPriced(lots: seq<Lot>, qty: int)
    requires Priced(lots)
    ensures Priced(Taken(lots, qty)) && |Taken(lots, qty)| <= |lots|
    decreases |lots|
  {
    if qty > 0 && lots != [] && lots[0].qty <= qty {
      TakenPriced(lots[1..], qty - lots[0].qty);
    }
  }

  /** The basis of a disposal is what exactly the first units cost, short by less than a kobo per lot it touches. */
  lemma BasisOfFirstUnits(lots: seq<Lot>, qty: int)
    requires WholeLots(lots) && Priced(lots) && 0 <= qty <= Have(lots)
    ensures |Units(lots)| == Have(lots)
    ensures var basis, pieces := Value(Taken(lots, qty)), |Taken(lots, qty)|;
      pieces <= |lots| && 1000 * basis <= UnitCosts(Units(lots)[..qty]) <= 1000 * basis + 999 * pieces
  {
    RelievesFirstUnits(lots, qty);
    TakenPriced(lots, qty);
    ValueOfUnits(Taken(lots, qty));
  }
}
