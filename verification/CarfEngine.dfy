/** The crypto-asset engine (services/vasp-carf/engine.go:70-387): trades and transfers feed lots and a gain-or-loss
    ledger, everything is logged, and a restart replays the log. */
module CarfEngine {
  import opened TruncatedDivision
  import opened CostBasis

  datatype Trade = Trade(id: string, tenant: string, user: string, asset: string, side: string,
                         qty: int, price: int, fee: int, at: string)

  datatype Transfer = Transfer(id: string, tenant: string, user: string, asset: string, direction: string,
                               qty: int, fmv: int, at: string)

  datatype Snapshot = Snapshot(asset: string, price: int, source: string, at: string)

  datatype Entry = Entry(id: string, tenant: string, user: string, asset: string, kind: string,
                         proceeds: int, basis: int, gainLoss: int, way: string, tradeId: string)

  datatype Record =
    | TradeRecord(t: Trade)
    | TransferRecord(tr: Transfer)
    | FmvRecord(s: Snapshot)
    | LedgerRecord(e: Entry)

  /** What replay must give back. */
  datatype Core = Core(trades: map<string, Trade>, transfers: map<string, Transfer>, lots: map<string, seq<Lot>>,
                       fmv: map<string, seq<Snapshot>>, ledger: seq<Entry>)

  datatype Wac = Wac(qty: int, cost: int)

  datatype State = State(core: Core, wac: map<string, Wac>, log: seq<Record>)

  const EMPTY_CORE: Core := Core(map[], map[], map[], map[], [])

  datatype Answer = Refused | Duplicate | Recorded | Booked(e: Entry)

  function Upper(s: string): string {
    if s == "" then ""
    else
      var c := s[0];
      [if 'a' <= c <= 'z' then (c as int - 32) as char else c] + Upper(s[1..])
  }

  function Key3(tenant: string, user: string, asset: string): string {
    tenant + "|" + user + "|" + Upper(asset)
  }

  function TradeKey(t: Trade): string {
    Key3(t.tenant, t.user, t.asset)
  }

  function TransferKey(tr: Transfer): string {
    Key3(tr.tenant, tr.user, tr.asset)
  }

  function LotsAt(c: Core, k: string): seq<Lot> {
    if k in c.lots then c.lots[k] else []
  }

  // ----- Basis -----

  function Acquire(c: Core, k: string, lot: Lot): Core {
    c.(lots := c.lots[k := LotsAt(c, k) + [lot]])
  }

  function AcquireWac(wac: map<string, Wac>, k: string, qty: int, cost: int): map<string, Wac> {
    var w := if k in wac then wac[k] else Wac(0, 0);
    wac[k := Wac(w.qty + qty, w.cost + AmountKobo(qty, cost))]
  }

  predicate Sufficient(c: Core, k: string, qty: int) {
    qty <= Have(LotsAt(c, k))
  }

  /** First-in first-out relief; an insufficient position is left alone. */
  function Dispose(c: Core, k: string, qty: int): Core {
    if Sufficient(c, k, qty) then c.(lots := c.lots[k := Left(LotsAt(c, k), qty)]) else c
  }

  predicate SufficientWac(wac: map<string, Wac>, k: string, qty: int) {
    k in wac && qty <= wac[k].qty
  }

  function WacBasis(w: Wac, qty: int): int {
    if w.qty > 0 then Quotient(w.cost * qty, w.qty) else 0
  }

  function DisposeWac(wac: map<string, Wac>, k: string, qty: int): map<string, Wac> {
    if SufficientWac(wac, k, qty) then
      wac[k := Wac(wac[k].qty - qty, wac[k].cost - WacBasis(wac[k], qty))]
    else wac
  }

  // ----- Replay -----

  function ApplyTrade(c: Core, t: Trade): Core {
    if t.id in c.trades then c
    else
      var c' := c.(trades := c.trades[t.id := t]);
      if t.side == "buy" then Acquire(c', TradeKey(t), Lot(t.qty, t.price, t.at)) else Dispose(c', TradeKey(t), t.qty)
  }

  function ApplyTransfer(c: Core, tr: Transfer): Core {
    if tr.id in c.transfers then c
    else
      var c' := c.(transfers := c.transfers[tr.id := tr]);
      if tr.direction == "in" then Acquire(c', TransferKey(tr), Lot(tr.qty, tr.fmv, tr.at))
      else Dispose(c', TransferKey(tr), tr.qty)
  }

  function SnapshotsAt(c: Core, asset: string): seq<Snapshot> {
    if Upper(asset) in c.fmv then c.fmv[Upper(asset)] else []
  }

  function ApplyFmv(c: Core, s: Snapshot): Core {
    c.(fmv := c.fmv[Upper(s.asset) := SnapshotsAt(c, s.asset) + [s]])
  }

  function Apply(c: Core, r: Record): Core {
    match r
    case TradeRecord(t) => ApplyTrade(c, t)
    case TransferRecord(tr) => ApplyTransfer(c, tr)
    case FmvRecord(s) => ApplyFmv(c, s)
    case LedgerRecord(e) => c.(ledger := c.ledger + [e])
  }

  function ApplyWac(c: Core, wac: map<string, Wac>, r: Record): map<string, Wac> {
    match r
    case TradeRecord(t) =>
      if t.id in c.trades then wac
      else if t.side == "buy" then AcquireWac(wac, TradeKey(t), t.qty, t.price) else DisposeWac(wac, TradeKey(t), t.qty)
    case TransferRecord(tr) =>
      if tr.id in c.transfers then wac
      else if tr.direction == "in" then AcquireWac(wac, TransferKey(tr), tr.qty, tr.fmv)
      else DisposeWac(wac, TransferKey(tr), tr.qty)
    case FmvRecord(_) => wac
    case LedgerRecord(_) => wac
  }

  function Replay(log: seq<Record>): State {
    if log == [] then State(EMPTY_CORE, map[], [])
    else
      var before, r := Replay(log[..|log| - 1]), log[|log| - 1];
      State(Apply(before.core, r), ApplyWac(before.core, before.wac, r), log)
  }

  // ----- Live operations -----

  function Disposal(t: Trade, way: string, basis: int, entryId: string): Entry {
    var proceeds := AmountKobo(t.qty, t.price) - t.fee;
    Entry(entryId, t.tenant, t.user, Upper(t.asset), "disposal", proceeds, basis, proceeds - basis, way, t.id)
  }

  function Sell(s: State, t: Trade, way: string, entryId: string): (State, Answer) {
    var k := TradeKey(t);
    var c := s.core.(trades := s.core.trades[t.id := t]);
    if way == "fifo" && Sufficient(s.core, k, t.qty) then
      var e := Disposal(t, way, Value(Taken(LotsAt(s.core, k), t.qty)), entryId);
      (State(Dispose(c, k, t.qty).(ledger := c.ledger + [e]), s.wac, s.log + [TradeRecord(t), LedgerRecord(e)]),
       Booked(e))
    else if way == "wac" && SufficientWac(s.wac, k, t.qty) then
      var e := Disposal(t, way, WacBasis(s.wac[k], t.qty), entryId);
      (State(c.(ledger := c.ledger + [e]), DisposeWac(s.wac, k, t.qty), s.log + [TradeRecord(t), LedgerRecord(e)]),
       Booked(e))
    else (s, Refused)
  }

  function DoTrade(s: State, t: Trade, asked: string, entryId: string): (State, Answer) {
    if t.qty <= 0 || t.price < 0 || (t.side != "buy" && t.side != "sell") then (s, Refused)
    else if t.id in s.core.trades then (s, Duplicate)
    else if t.side == "sell" then Sell(s, t, if asked == "" then "fifo" else asked, entryId)
    else
      var c := s.core.(trades := s.core.trades[t.id := t]);
      (State(Acquire(c, TradeKey(t), Lot(t.qty, t.price, t.at)), AcquireWac(s.wac, TradeKey(t), t.qty, t.price),
             s.log + [TradeRecord(t)]), Recorded)
  }

  /** A transfer without a value takes the latest snapshot's. */
  function Valued(c: Core, tr: Transfer): Transfer {
    var snaps := SnapshotsAt(c, tr.asset);
    if tr.fmv == 0 && snaps != [] then tr.(fmv := snaps[|snaps| - 1].price) else tr
  }

  function Withdrawal(tr: Transfer, basis: int, entryId: string): Entry {
    var proceeds := AmountKobo(tr.qty, tr.fmv);
    Entry(entryId, tr.tenant, tr.user, Upper(tr.asset), "transfer-out-fmv",
          proceeds, basis, proceeds - basis, "fifo", "")
  }

  function DoTransfer(s: State, tr0: Transfer, entryId: string): (State, Answer) {
    if tr0.qty <= 0 || (tr0.direction != "in" && tr0.direction != "out") then (s, Refused)
    else if tr0.id in s.core.transfers then (s, Duplicate)
    else
      var tr := Valued(s.core, tr0);
      var k := TransferKey(tr);
      var c := s.core.(transfers := s.core.transfers[tr.id := tr]);
      if tr.direction == "in" then
        (State(Acquire(c, k, Lot(tr.qty, tr.fmv, tr.at)), AcquireWac(s.wac, k, tr.qty, tr.fmv),
               s.log + [TransferRecord(tr)]), Recorded)
      else if !Sufficient(s.core, k, tr.qty) then (s, Refused)
      else
        var e := Withdrawal(tr, Value(Taken(LotsAt(s.core, k), tr.qty)), entryId);
        (State(Dispose(c, k, tr.qty).(ledger := c.ledger + [e]), DisposeWac(s.wac, k, tr.qty),
               s.log + [LedgerRecord(e), TransferRecord(tr)]), Booked(e))
  }

  function DoFmv(s: State, snap: Snapshot): State {
    s.(core := ApplyFmv(s.core, snap), log := s.log + [FmvRecord(snap)])
  }

  // ----- The engine object -----

  class Engine {
    var trades: map<string, Trade>
    var transfers: map<string, Transfer>
    var lots: map<string, seq<Lot>>
    var wac: map<string, Wac>
    var fmv: map<string, seq<Snapshot>>
    var ledger: seq<Entry>
    var log: seq<Record>

    ghost function View(): State
      reads this
    {
      State(Core(trades, transfers, lots, fmv, ledger), wac, log)
    }

    constructor (log: seq<Record>)
      ensures View() == Replay(log)
    {
      trades, transfers, lots, wac, fmv, ledger, this.log := map[], map[], map[], map[], map[], [], [];
      new;
      var i := 0;
      while i < |log|
        invariant 0 <= i <= |log| && View() == Replay(log[..i])
      {
        assert log[..i + 1][..i] == log[..i];
        Reapply(log[i]);
        this.log := log[..i + 1];
        i := i + 1;
      }
      assert log[..i] == log;
    }

    method Reapply(r: Record)
      modifies this
      ensures View() == old(State(Apply(View().core, r), ApplyWac(View().core, wac, r), log))
    {
      match r
      case TradeRecord(t) =>
        if t.id !in trades {
          trades := trades[t.id := t];
          if t.side == "buy" {
            AcquireLot(TradeKey(t), Lot(t.qty, t.price, t.at));
          } else {
            var _, _ := ConsumeBasis(TradeKey(t), t.qty);
            var _, _ := ConsumeWac(TradeKey(t), t.qty);
          }
        }
      case TransferRecord(tr) =>
        if tr.id !in transfers {
          transfers := transfers[tr.id := tr];
          if tr.direction == "in" {
            AcquireLot(TransferKey(tr), Lot(tr.qty, tr.fmv, tr.at));
          } else {
            var _, _ := ConsumeBasis(TransferKey(tr), tr.qty);
            var _, _ := ConsumeWac(TransferKey(tr), tr.qty);
          }
        }
      case FmvRecord(s) =>
        fmv := fmv[Upper(s.asset) := (if Upper(s.asset) in fmv then fmv[Upper(s.asset)] else []) + [s]];
      case LedgerRecord(e) =>
        ledger := ledger + [e];
    }

    method AcquireLot(k: string, lot: Lot)
      modifies this`lots, this`wac
      ensures lots == Acquire(old(View()).core, k, lot).lots && wac == AcquireWac(old(wac), k, lot.qty, lot.cost)
    {
      lots := lots[k := (if k in lots then lots[k] else []) + [lot]];
      var w := if k in wac then wac[k] else Wac(0, 0);
      wac := wac[k := Wac(w.qty + lot.qty, w.cost + AmountKobo(lot.qty, lot.cost))];
    }

    method ConsumeBasis(k: string, qty: int) returns (ok: bool, basis: int)
      modifies this`lots
      ensures ok == Sufficient(old(View()).core, k, qty) && lots == Dispose(old(View()).core, k, qty).lots
      ensures ok ==> basis == Value(Taken(LotsAt(old(View()).core, k), qty))
    {
      var left;
      ok, left, basis := Relieve(if k in lots then lots[k] else [], qty);
      if ok {
        lots := lots[k := left];
      }
    }

    method ConsumeWac(k: string, qty: int) returns (ok: bool, basis: int)
      modifies this`wac
      ensures ok == SufficientWac(old(wac), k, qty) && wac == DisposeWac(old(wac), k, qty)
      ensures ok ==> basis == WacBasis(old(wac)[k], qty)
    {
      ok, basis := k in wac && qty <= wac[k].qty, 0;
      if ok {
        basis := WacBasis(wac[k], qty);
        wac := wac[k := Wac(wac[k].qty - qty, wac[k].cost - basis)];
      }
    }

    method IngestTrade(t: Trade, asked: string, entryId: string) returns (a: Answer)
      modifies this
      ensures (View(), a) == DoTrade(old(View()), t, asked, entryId)
    {
      if t.qty <= 0 || t.price < 0 || (t.side != "buy" && t.side != "sell") {
        return Refused;
      }
      if t.id in trades {
        return Duplicate;
      }
      if t.side == "buy" {
        AcquireLot(TradeKey(t), Lot(t.qty, t.price, t.at));
        trades := trades[t.id := t];
        log := log + [TradeRecord(t)];
        return Recorded;
      }
      var way := if asked == "" then "fifo" else asked;
      var ok, basis := false, 0;
      if way == "fifo" {
        ok, basis := ConsumeBasis(TradeKey(t), t.qty);
      } else if way == "wac" {
        ok, basis := ConsumeWac(TradeKey(t), t.qty);
      }
      if !ok {
        return Refused;
      }
      var e := Disposal(t, way, basis, entryId);
      trades := trades[t.id := t];
      ledger := ledger + [e];
      log := log + [TradeRecord(t), LedgerRecord(e)];
      return Booked(e);
    }

    method Resolve(tr0: Transfer) returns (tr: Transfer)
      ensures tr == Valued(View().core, tr0)
    {
      tr := tr0;
      var snaps := if Upper(tr.asset) in fmv then fmv[Upper(tr.asset)] else [];
      if tr.fmv == 0 && |snaps| > 0 {
        tr := tr.(fmv := snaps[|snaps| - 1].price);
      }
    }

    method Withdraw(tr: Transfer, entryId: string) returns (a: Answer)
      modifies this`lots, this`wac, this`ledger, this`log
      ensures var s, k := old(View()), TransferKey(tr);
        if !Sufficient(s.core, k, tr.qty) then a == Refused && View() == s
        else
          var e := Withdrawal(tr, Value(Taken(LotsAt(s.core, k), tr.qty)), entryId);
          && a == Booked(e) && lots == Dispose(s.core, k, tr.qty).lots && wac == DisposeWac(s.wac, k, tr.qty)
          && ledger == s.core.ledger + [e] && log == s.log + [LedgerRecord(e)]
    {
      var ok, basis := ConsumeBasis(TransferKey(tr), tr.qty);
      if !ok {
        return Refused;
      }
      var _, _ := ConsumeWac(TransferKey(tr), tr.qty);
      var e := Withdrawal(tr, basis, entryId);
      ledger := ledger + [e];
      log := log + [LedgerRecord(e)];
      return Booked(e);
    }

    method IngestTransfer(tr0: Transfer, entryId: string) returns (a: Answer)
      modifies this
      ensures (View(), a) == DoTransfer(old(View()), tr0, entryId)
    {
      if tr0.qty <= 0 || (tr0.direction != "in" && tr0.direction != "out") {
        return Refused;
      }
      if tr0.id in transfers {
        return Duplicate;
      }
      var tr := Resolve(tr0);
      if tr.direction == "in" {
        AcquireLot(TransferKey(tr), Lot(tr.qty, tr.fmv, tr.at));
        a := Recorded;
      } else {
        a := Withdraw(tr, entryId);
        if a == Refused {
          return;
        }
        assert log + [TransferRecord(tr)] == old(log) + [LedgerRecord(a.e), TransferRecord(tr)];
      }
      transfers := transfers[tr.id := tr];
      log := log + [TransferRecord(tr)];
    }

    method AddFmv(s: Snapshot)
      modifies this
      ensures View() == DoFmv(old(View()), s)
    {
      fmv := fmv[Upper(s.asset) := (if Upper(s.asset) in fmv then fmv[Upper(s.asset)] else []) + [s]];
      log := log + [FmvRecord(s)];
    }
  }

  // ----- Histories -----

  datatype Op =
    | TradeOp(t: Trade, way: string, entryId: string)
    | TransferOp(tr: Transfer, entryId: string)
    | FmvOp(snap: Snapshot)
    | Restart

  function Next(s: State, op: Op): (State, Answer) {
    match op
    case TradeOp(t, way, entryId) => DoTrade(s, t, way, entryId)
    case TransferOp(tr, entryId) => DoTransfer(s, tr, entryId)
    case FmvOp(snap) => (DoFmv(s, snap), Recorded)
    case Restart => (Replay(s.log), Recorded)
  }

  function Run(ops: seq<Op>): State {
    if ops == [] then Replay([]) else Next(Run(ops[..|ops| - 1]), ops[|ops| - 1]).0
  }
}
