/** What the entries of the gain-or-loss ledger say in money (services/vasp-carf/engine.go:163-375): proceeds, basis and
    result of sales and withdrawals, and the snapshot that values a transfer. */
module TradeEntries {
  import opened TruncatedDivision
  import opened CostBasis
  import opened CarfEngine

  // ----- Sales -----

  /** A booked first-in first-out sale: the proceeds are quantity times price, rounded down, less the fee; the basis
      is what the first units of the position cost, short by less than a kobo per lot; the result is their difference.
      */
  lemma FifoEntry(s: State, t: Trade, way: string, entryId: string)
    requires t.side == "sell" && (way == "" || way == "fifo") && DoTrade(s, t, way, entryId).1.Booked?
    requires WholeLots(LotsAt(s.core, TradeKey(t))) && Priced(LotsAt(s.core, TradeKey(t)))
    ensures var e, lots := DoTrade(s, t, way, entryId).1.e, LotsAt(s.core, TradeKey(t));
      && 0 < t.qty <= |Units(lots)| && e.gainLoss == e.proceeds - e.basis && e.tradeId == t.id && e.way == "fifo"
      && 1000 * (e.proceeds + t.fee) <= t.qty * t.price < 1000 * (e.proceeds + t.fee + 1)
      && 1000 * e.basis <= UnitCosts(Units(lots)[..t.qty]) <= 1000 * e.basis + 999 * |lots|
  {
    var lots := LotsAt(s.core, TradeKey(t));
    AmountRoundsDown(t.qty, t.price);
    BasisOfFirstUnits(lots, t.qty);
  }

  /** A booked weighted-average sale: the basis is the sold fraction of the average cost, rounded down, and all of it
      when all is sold. */
  lemma AverageEntry(s: State, t: Trade, entryId: string)
    requires t.side == "sell" && DoTrade(s, t, "wac", entryId).1.Booked?
    requires TradeKey(t) in s.wac && s.wac[TradeKey(t)].cost >= 0
    ensures var e, w := DoTrade(s, t, "wac", entryId).1.e, s.wac[TradeKey(t)];
      && 0 < t.qty <= w.qty && e.gainLoss == e.proceeds - e.basis && e.way == "wac"
      && 1000 * (e.proceeds + t.fee) <= t.qty * t.price < 1000 * (e.proceeds + t.fee + 1)
      && w.qty * e.basis <= w.cost * t.qty < w.qty * (e.basis + 1)
      && (t.qty == w.qty ==> e.basis == w.cost)
    ensures var w, w' := s.wac[TradeKey(t)], DoTrade(s, t, "wac", entryId).0.wac;
      TradeKey(t) in w' && w'[TradeKey(t)].qty == w.qty - t.qty
      && w'[TradeKey(t)].cost == w.cost - DoTrade(s, t, "wac", entryId).1.e.basis
  {
    var w := s.wac[TradeKey(t)];
    AmountRoundsDown(t.qty, t.price);
    AverageShare(w, t.qty);
  }

  lemma AverageShare(w: Wac, qty: int)
    requires 0 < qty <= w.qty && w.cost >= 0
    ensures w.qty * WacBasis(w, qty) <= w.cost * qty < w.qty * (WacBasis(w, qty) + 1)
    ensures qty == w.qty ==> WacBasis(w, qty) == w.cost
  {
    var b := WacBasis(w, qty);
    assert w.cost * qty >= 0;
    QuotientTruncates(w.cost * qty, w.qty);
    if qty == w.qty {
      Between(w.qty, w.cost, b);
    }
  }

  lemma Between(q: int, c: int, b: int)
    requires q > 0 && q * b <= c * q < q * (b + 1)
    ensures b == c
  {
    assert b + 1 <= c ==> q * (b + 1) <= q * c;
    assert c + 1 <= b ==> q * (c + 1) <= q * b;
  }

  /** The average position is what was acquired: quantities and amounts add up. */
  lemma AverageAcquires(s: State, t: Trade, entryId: string)
    requires t.side == "buy" && DoTrade(s, t, "", entryId).1 == Recorded
    ensures var k, w' := TradeKey(t), DoTrade(s, t, "", entryId).0.wac;
      var w := if k in s.wac then s.wac[k] else Wac(0, 0);
      && k in w' && w'[k].qty == w.qty + t.qty
      && 1000 * (w'[k].cost - w.cost) <= t.qty * t.price < 1000 * (w'[k].cost - w.cost + 1)
  {
    AmountRoundsDown(t.qty, t.price);
  }

  /** Whole assets bought into an empty position and all sold gain the difference of the prices on each, less the fee,
      by either method. */
  lemma BuyThenSell(s: State, buy: Trade, sell: Trade, way: string, buyId: string, sellId: string, n: int)
    requires buy.side == "buy" && sell.side == "sell" && TradeKey(buy) == TradeKey(sell) && buy.id != sell.id
    requires buy.id !in s.core.trades && sell.id !in s.core.trades && buy.price >= 0 && sell.price >= 0
    requires n > 0 && buy.qty == 1000 * n && sell.qty == 1000 * n && way in {"", "fifo", "wac"}
    requires LotsAt(s.core, TradeKey(buy)) == [] && TradeKey(buy) !in s.wac
    ensures var s1 := DoTrade(s, buy, "", buyId).0;
      var a := DoTrade(s1, sell, way, sellId).1;
      a.Booked? && a.e.basis == n * buy.price && a.e.gainLoss == n * (sell.price - buy.price) - sell.fee
  {
    var k, lot := TradeKey(buy), Lot(buy.qty, buy.price, buy.at);
    AmountOfWhole(n, buy.price);
    AmountOfWhole(n, sell.price);
    var s1 := DoTrade(s, buy, "", buyId).0;
    assert LotsAt(s1.core, k) == [lot] && s1.wac[k] == Wac(buy.qty, n * buy.price);
    OneLot(lot);
    assert n * (sell.price - buy.price) == n * sell.price - n * buy.price;
    if way == "wac" {
      assert n * buy.price >= 0;
      AverageShare(s1.wac[k], sell.qty);
    }
  }

  lemma OneLot(lot: Lot)
    requires lot.qty > 0
    ensures Have([lot]) == lot.qty && Value(Taken([lot], lot.qty)) == AmountKobo(lot.qty, lot.cost)
  {
    assert [lot][1..] == [];
    assert Taken([lot], lot.qty) == [lot] + [] == [lot];
  }

  // ----- Transfers -----

  /** Asset names are read without regard to the case of ASCII letters. */
  lemma {:induction false} UpperTwice(s: string)
    ensures |Upper(s)| == |s| && forall i :: 0 <= i < |s| ==>
      Upper(s)[i] == if 'a' <= s[i] <= 'z' then (s[i] as int - 32) as char else s[i]
  {
    if s != "" {
      UpperTwice(s[1..]);
      assert forall i :: 0 < i < |s| ==> s[i] == s[1..][i - 1];
    }
  }

  /** A transfer that brings a value keeps it. */
  lemma GivenValueKept(c: Core, tr: Transfer)
    requires tr.fmv != 0
    ensures Valued(c, tr) == tr
  {
  }

  /** One that brings none takes the price of the last snapshot of its asset, and only of its asset. */
  lemma LatestSnapshotValues(c: Core, snap: Snapshot, tr: Transfer)
    requires tr.fmv == 0
    ensures Upper(snap.asset) == Upper(tr.asset) ==> Valued(ApplyFmv(c, snap), tr) == tr.(fmv := snap.price)
    ensures Upper(snap.asset) != Upper(tr.asset) ==> Valued(ApplyFmv(c, snap), tr) == Valued(c, tr)
    ensures Upper(tr.asset) !in c.fmv ==> Valued(c, tr) == tr
  {
  }

  /** A booked withdrawal is a disposal at its value: proceeds are quantity times value, rounded down, and the basis
      what the first units cost. */
  lemma WithdrawalEntry(s: State, tr: Transfer, entryId: string)
    requires tr.direction == "out" && DoTransfer(s, tr, entryId).1.Booked? && Valued(s.core, tr).fmv >= 0
    requires WholeLots(LotsAt(s.core, TransferKey(tr))) && Priced(LotsAt(s.core, TransferKey(tr)))
    ensures var e, lots := DoTransfer(s, tr, entryId).1.e, LotsAt(s.core, TransferKey(tr));
      && 0 < tr.qty <= |Units(lots)| && e.gainLoss == e.proceeds - e.basis
      && 1000 * e.proceeds <= tr.qty * Valued(s.core, tr).fmv < 1000 * (e.proceeds + 1)
      && 1000 * e.basis <= UnitCosts(Units(lots)[..tr.qty]) <= 1000 * e.basis + 999 * |lots|
  {
    AmountRoundsDown(tr.qty, Valued(s.core, tr).fmv);
    BasisOfFirstUnits(LotsAt(s.core, TransferKey(tr)), tr.qty);
  }

  /** A deposit acquires at its value. */
  lemma DepositAcquires(s: State, tr: Transfer, entryId: string)
    requires tr.direction == "in" && DoTransfer(s, tr, entryId).1 == Recorded
    ensures var k := TransferKey(tr);
      LotsAt(DoTransfer(s, tr, entryId).0.core, k)
        == LotsAt(s.core, k) + [Lot(tr.qty, Valued(s.core, tr).fmv, tr.at)]
  {
  }

  // ----- Positions -----

  /** Users of a tenant have a position per asset, whatever the case of its name. */
  lemma PositionsApart(tenant: string, user: string, asset: string, tenant': string, user': string, asset': string)
    requires '|' !in tenant && '|' !in user && '|' !in tenant' && '|' !in user'
    ensures Key3(tenant, user, asset) == Key3(tenant', user', asset')
       <==> tenant == tenant' && user == user' && Upper(asset) == Upper(asset')
  {
    if Key3(tenant, user, asset) == Key3(tenant', user', asset') {
      assert Key3(tenant, user, asset) == tenant + ['|'] + (user + ['|'] + Upper(asset));
      assert Key3(tenant', user', asset') == tenant' + ['|'] + (user' + ['|'] + Upper(asset'));
      FirstBar(tenant, user + ['|'] + Upper(asset), tenant', user' + ['|'] + Upper(asset'));
      FirstBar(user, Upper(asset), user', Upper(asset'));
    }
  }

  lemma FirstBar(a: string, x: string, b: string, y: string)
    requires a + ['|'] + x == b + ['|'] + y && '|' !in a && '|' !in b
    ensures a == b && x == y
  {
    var s := a + ['|'] + x;
    assert s[|a|] == '|' && s[|b|] == '|';
    assert forall i :: 0 <= i < |a| ==> s[i] == a[i];
    assert forall i :: 0 <= i < |b| ==> s[i] == b[i];
    assert s[..|a|] == a && s[..|b|] == b && s[|a| + 1..] == x && s[|b| + 1..] == y;
  }
}
