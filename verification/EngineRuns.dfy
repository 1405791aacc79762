/** Whole runs of the crypto-asset engine: the log replays to the live state, and the lots are a plain queue of units
    whose value is kept to one kobo per disposal. */
module EngineRuns {
  import opened CostBasis
  import opened CarfEngine

  // ----- Replay equals live -----

  ghost predicate InSync(s: State) {
    Replay(s.log).core == s.core
  }

  /** A booked weighted-average sale that the lots could cover: it relieves none of them now, and some on replay. */
  predicate Diverts(s: State, op: Op) {
    && op.TradeOp? && op.t.side == "sell" && op.way == "wac"
    && DoTrade(s, op.t, op.way, op.entryId).1.Booked? && Sufficient(s.core, TradeKey(op.t), op.t.qty)
  }

  lemma ReplayAppend(log: seq<Record>, r: Record)
    ensures Replay(log + [r]).core == Apply(Replay(log).core, r)
  {
    assert (log + [r])[..|log|] == log;
  }

  lemma ReplayAppendTwo(log: seq<Record>, r: Record, r': Record)
    ensures Replay(log + [r, r']).core == Apply(Apply(Replay(log).core, r), r')
  {
    assert log + [r, r'] == log + [r] + [r'];
    ReplayAppend(log + [r], r');
    ReplayAppend(log, r);
  }

  lemma TradeInSync(s: State, t: Trade, way: string, entryId: string)
    requires InSync(s) && !Diverts(s, TradeOp(t, way, entryId))
    ensures InSync(DoTrade(s, t, way, entryId).0)
  {
    var (s', a) := DoTrade(s, t, way, entryId);
    match a
    case Refused =>
    case Duplicate =>
    case Recorded => ReplayAppend(s.log, TradeRecord(t));
    case Booked(e) => ReplayAppendTwo(s.log, TradeRecord(t), LedgerRecord(e));
  }

  lemma TransferInSync(s: State, tr: Transfer, entryId: string)
    requires InSync(s)
    ensures InSync(DoTransfer(s, tr, entryId).0)
  {
    var (s', a) := DoTransfer(s, tr, entryId);
    match a
    case Refused =>
    case Duplicate =>
    case Recorded => ReplayAppend(s.log, TransferRecord(Valued(s.core, tr)));
    case Booked(e) => ReplayAppendTwo(s.log, LedgerRecord(e), TransferRecord(Valued(s.core, tr)));
  }

  lemma {:induction false} ReplayLog(log: seq<Record>)
    ensures Replay(log).log == log
  {
  }

  lemma NextInSync(s: State, op: Op)
    requires InSync(s) && !Diverts(s, op)
    ensures InSync(Next(s, op).0)
  {
    match op
    case TradeOp(t, way, entryId) => TradeInSync(s, t, way, entryId);
    case TransferOp(tr, entryId) => TransferInSync(s, tr, entryId);
    case FmvOp(snap) => ReplayAppend(s.log, FmvRecord(snap));
    case Restart => ReplayLog(s.log);
  }

  /** No step of a run is such a sale. */
  predicate NeverDiverts(ops: seq<Op>) {
    ops == [] || (NeverDiverts(ops[..|ops| - 1]) && !Diverts(Run(ops[..|ops| - 1]), ops[|ops| - 1]))
  }

  /** The log replays to the live core at every point of a run. */
  ghost predicate AlwaysInSync(ops: seq<Op>) {
    InSync(Run(ops)) && (ops == [] || AlwaysInSync(ops[..|ops| - 1]))
  }

  lemma {:induction false} UndivertedInSync(ops: seq<Op>)
    requires NeverDiverts(ops)
    ensures InSync(Run(ops))
  {
    if ops != [] {
      hide Diverts, InSync;
      UndivertedInSync(ops[..|ops| - 1]);
      NextInSync(Run(ops[..|ops| - 1]), ops[|ops| - 1]);
    } else {
      assert InSync(Run([]));
    }
  }

  // ----- What always replays -----

  /** Everything but the lots. */
  predicate SameRecords(c: Core, c': Core) {
    c.trades == c'.trades && c.transfers == c'.transfers && c.fmv == c'.fmv && c.ledger == c'.ledger
  }

  lemma ApplyRecords(c: Core, c': Core, r: Record)
    requires SameRecords(c, c')
    ensures SameRecords(Apply(c, r), Apply(c', r))
  {
    match r
    case TradeRecord(t) => ApplyTradeRecords(c, c', t);
    case TransferRecord(tr) => ApplyTransferRecords(c, c', tr);
    case FmvRecord(_) =>
    case LedgerRecord(_) =>
  }

  lemma ApplyTradeRecords(c: Core, c': Core, t: Trade)
    requires SameRecords(c, c')
    ensures SameRecords(ApplyTrade(c, t), ApplyTrade(c', t))
    ensures ApplyTrade(c, t).ledger == c.ledger && ApplyTrade(c, t).fmv == c.fmv
    ensures ApplyTrade(c, t).trades == if t.id in c.trades then c.trades else c.trades[t.id := t]
    ensures ApplyTrade(c, t).transfers == c.transfers
  {
  }

  lemma ApplyTransferRecords(c: Core, c': Core, tr: Transfer)
    requires SameRecords(c, c')
    ensures SameRecords(ApplyTransfer(c, tr), ApplyTransfer(c', tr))
  {
  }

  /** What an accepted sale leaves in the records, whichever way its basis was found. */
  lemma SellRecords(s: State, t: Trade, way: string, entryId: string)
    requires Sell(s, t, way, entryId).1.Booked? && t.id !in s.core.trades
    ensures var (s', a) := Sell(s, t, way, entryId);
      && s'.log == s.log + [TradeRecord(t), LedgerRecord(a.e)] && s'.core.ledger == s.core.ledger + [a.e]
      && s'.core.trades == s.core.trades[t.id := t]
      && s'.core.transfers == s.core.transfers && s'.core.fmv == s.core.fmv
  {
  }

  lemma SaleReplays(s: State, t: Trade, way: string, entryId: string)
    requires SameRecords(Replay(s.log).core, s.core) && Sell(s, t, way, entryId).1.Booked? && t.id !in s.core.trades
    ensures var s' := Sell(s, t, way, entryId).0; SameRecords(Replay(s'.log).core, s'.core)
  {
    var e := Sell(s, t, way, entryId).1.e;
    SellRecords(s, t, way, entryId);
    ReplayAppendTwo(s.log, TradeRecord(t), LedgerRecord(e));
    ApplyTradeRecords(Replay(s.log).core, s.core, t);
  }

  lemma TradeRecords(s: State, t: Trade, way: string, entryId: string)
    requires SameRecords(Replay(s.log).core, s.core)
    ensures var s' := DoTrade(s, t, way, entryId).0; SameRecords(Replay(s'.log).core, s'.core)
  {
    match DoTrade(s, t, way, entryId).1
    case Refused =>
    case Duplicate =>
    case Recorded =>
      ReplayAppend(s.log, TradeRecord(t));
      ApplyTradeRecords(Replay(s.log).core, s.core, t);
    case Booked(_) => SaleReplays(s, t, if way == "" then "fifo" else way, entryId);
  }

  lemma TransferRecords(s: State, tr: Transfer, entryId: string)
    requires SameRecords(Replay(s.log).core, s.core)
    ensures var s' := DoTransfer(s, tr, entryId).0; SameRecords(Replay(s'.log).core, s'.core)
  {
    var (s', a) := DoTransfer(s, tr, entryId);
    var valued := TransferRecord(Valued(s.core, tr));
    match a
    case Refused =>
    case Duplicate =>
    case Recorded =>
      ReplayAppend(s.log, valued);
      ApplyRecords(Replay(s.log).core, s.core, valued);
    case Booked(e) =>
      ReplayAppendTwo(s.log, LedgerRecord(e), valued);
      ApplyRecords(Replay(s.log).core, s.core, LedgerRecord(e));
      ApplyRecords(Apply(Replay(s.log).core, LedgerRecord(e)), Apply(s.core, LedgerRecord(e)), valued);
  }

  /** After any run whatever, replaying the log rebuilds trades, transfers, snapshots and ledger as they are; only lots
      and averages can differ. */
  lemma {:induction false} RecordsReplay(ops: seq<Op>)
    ensures SameRecords(Replay(Run(ops).log).core, Run(ops).core)
  {
    if ops != [] {
      hide DoTrade, DoTransfer, Apply;
      var front, op := ops[..|ops| - 1], ops[|ops| - 1];
      var s := Run(front);
      RecordsReplay(front);
      match op
      case TradeOp(t, way, entryId) => TradeRecords(s, t, way, entryId);
      case TransferOp(tr, entryId) => TransferRecords(s, tr, entryId);
      case FmvOp(snap) =>
        ReplayAppend(s.log, FmvRecord(snap));
        ApplyRecords(Replay(s.log).core, s.core, FmvRecord(snap));
      case Restart => ReplayLog(s.log);
    }
  }

  // ----- What an operation does to one position -----

  datatype Effect = None | In(lot: Lot) | Out(qty: int, basis: int)

  /** Read off the answer: an accepted purchase or deposit, or a booked first-in first-out disposal. */
  function EffectOn(s: State, op: Op, k: string): Effect {
    var a := Next(s, op).1;
    match op
    case TradeOp(t, _, _) =>
      if TradeKey(t) != k then None
      else if a == Recorded then In(Lot(t.qty, t.price, t.at))
      else if a.Booked? && a.e.way == "fifo" then Out(t.qty, a.e.basis)
      else None
    case TransferOp(tr, _) =>
      if TransferKey(tr) != k then None
      else if a == Recorded then In(Lot(tr.qty, Valued(s.core, tr).fmv, tr.at))
      else if a.Booked? then Out(tr.qty, a.e.basis)
      else None
    case FmvOp(_) => None
    case Restart => None
  }

  ghost predicate Does(before: seq<Lot>, e: Effect, after: seq<Lot>) {
    match e
    case None => after == before
    case In(lot) => lot.qty > 0 && after == before + [lot]
    case Out(qty, basis) => 0 < qty <= Have(before) && after == Left(before, qty) && basis == Value(Taken(before, qty))
  }

  lemma EffectOnLots(s: State, op: Op, k: string)
    requires op != Restart
    ensures Does(LotsAt(s.core, k), EffectOn(s, op, k), LotsAt(Next(s, op).0.core, k))
  {
    match op
    case TradeOp(t, way, entryId) => TradeEffect(s, t, way, entryId, k);
    case TransferOp(tr, entryId) => TransferEffect(s, tr, entryId, k);
    case FmvOp(_) =>
    case Restart =>
  }

  lemma SellEffect(s: State, t: Trade, way: string, entryId: string, k: string)
    ensures var (s', a) := Sell(s, t, way, entryId);
      var lots, fifo := LotsAt(s.core, k), a.Booked? && a.e.way == "fifo" && TradeKey(t) == k;
      && a != Recorded && LotsAt(s'.core, k) == (if fifo then Left(lots, t.qty) else lots)
      && (fifo ==> t.qty <= Have(lots) && a.e.basis == Value(Taken(lots, t.qty)))
  {
  }

  lemma TradeEffect(s: State, t: Trade, way: string, entryId: string, k: string)
    ensures Does(LotsAt(s.core, k), EffectOn(s, TradeOp(t, way, entryId), k),
                 LotsAt(DoTrade(s, t, way, entryId).0.core, k))
  {
    hide Sell;
    SellEffect(s, t, if way == "" then "fifo" else way, entryId, k);
  }

  lemma TransferEffect(s: State, tr: Transfer, entryId: string, k: string)
    ensures Does(LotsAt(s.core, k), EffectOn(s, TransferOp(tr, entryId), k),
                 LotsAt(DoTransfer(s, tr, entryId).0.core, k))
  {
  }

  function EffectsOf(ops: seq<Op>, k: string): seq<Effect> {
    if ops == [] then []
    else EffectsOf(ops[..|ops| - 1], k) + [EffectOn(Run(ops[..|ops| - 1]), ops[|ops| - 1], k)]
  }

  /** Everything that ever came in, how much went out, at what basis, in how many disposals. */
  datatype Flow = Flow(acquired: seq<Lot>, outQty: int, outBasis: int, disposals: nat)

  function FlowStep(f: Flow, e: Effect): Flow {
    match e
    case None => f
    case In(lot) => f.(acquired := f.acquired + [lot])
    case Out(qty, basis) => Flow(f.acquired, f.outQty + qty, f.outBasis + basis, f.disposals + 1)
  }

  function FlowOf(es: seq<Effect>): Flow {
    if es == [] then Flow([], 0, 0, 0) else FlowStep(FlowOf(es[..|es| - 1]), es[|es| - 1])
  }

  // ----- The queue -----

  ghost predicate IsQueue(held: seq<Lot>, f: Flow) {
    && WholeLots(held) && WholeLots(f.acquired) && 0 <= f.outQty <= |Units(f.acquired)|
    && Units(held) == Units(f.acquired)[f.outQty..]
  }

  lemma QueueStep(held: seq<Lot>, f: Flow, e: Effect, held': seq<Lot>)
    requires IsQueue(held, f) && Does(held, e, held')
    ensures IsQueue(held', FlowStep(f, e))
  {
    match e
    case None =>
    case In(lot) =>
      UnitsAppend(held, lot);
      UnitsAppend(f.acquired, lot);
      SliceWithin(Units(f.acquired), UnitsOf(lot), f.outQty);
    case Out(qty, basis) =>
      RelievesFirstUnits(held, qty);
      SliceTwice(Units(f.acquired), f.outQty, qty);
  }

  lemma SliceTwice<T>(s: seq<T>, a: int, b: int)
    requires 0 <= a && 0 <= b && a + b <= |s|
    ensures s[a..][b..] == s[a + b..]
  {
  }

  /** No restart comes after a booked weighted-average sale that the lots could cover. */
  predicate Steady(ops: seq<Op>) {
    ops == [] ||
    var front, op := ops[..|ops| - 1], ops[|ops| - 1];
    Steady(front) && (op == Restart ==> NeverDiverts(front))
  }

  lemma NextDoes(ops: seq<Op>, k: string)
    requires ops != [] && Steady(ops)
    ensures var front, op := ops[..|ops| - 1], ops[|ops| - 1];
      Steady(front) && Does(LotsAt(Run(front).core, k), EffectOn(Run(front), op, k), LotsAt(Run(ops).core, k))
  {
    var front, op := ops[..|ops| - 1], ops[|ops| - 1];
    if op == Restart {
      UndivertedInSync(front);
    } else {
      EffectOnLots(Run(front), op, k);
    }
  }

  lemma FlowNext(ops: seq<Op>, k: string)
    requires ops != []
    ensures var front, op := ops[..|ops| - 1], ops[|ops| - 1];
      FlowOf(EffectsOf(ops, k)) == FlowStep(FlowOf(EffectsOf(front, k)), EffectOn(Run(front), op, k))
  {
    var es := EffectsOf(ops, k);
    assert es[..|es| - 1] == EffectsOf(ops[..|ops| - 1], k);
  }

  /** At every point of every run a position is the queue of all units that came in, in order, less exactly the first
      ones that went out. */
  lemma {:induction false} LotsAreQueue(ops: seq<Op>, k: string)
    requires Steady(ops)
    ensures IsQueue(LotsAt(Run(ops).core, k), FlowOf(EffectsOf(ops, k)))
    decreases |ops|
  {
    if ops != [] {
      var front, op := ops[..|ops| - 1], ops[|ops| - 1];
      NextDoes(ops, k);
      LotsAreQueue(front, k);
      FlowNext(ops, k);
      QueueStep(LotsAt(Run(front).core, k), FlowOf(EffectsOf(front, k)), EffectOn(Run(front), op, k),
                LotsAt(Run(ops).core, k));
    }
  }

  // ----- The value -----

  predicate PricedOp(op: Op) {
    match op
    case TradeOp(_, _, _) => true
    case TransferOp(tr, _) => tr.fmv >= 0
    case FmvOp(snap) => snap.price >= 0
    case Restart => true
  }

  ghost predicate PricedSnapshots(c: Core) {
    forall a, i :: a in c.fmv && 0 <= i < |c.fmv[a]| ==> c.fmv[a][i].price >= 0
  }

  lemma NextPriced(front: seq<Op>, op: Op)
    requires PricedSnapshots(Run(front).core) && PricedOp(op)
    ensures PricedSnapshots(Next(Run(front), op).0.core)
  {
    match op
    case TradeOp(t, way, entryId) => TradeKeepsFmv(Run(front), t, way, entryId);
    case TransferOp(tr, entryId) => TransferKeepsFmv(Run(front), tr, entryId);
    case FmvOp(snap) => FmvPriced(Run(front).core, snap);
    case Restart => RecordsReplay(front);
  }

  lemma TradeKeepsFmv(s: State, t: Trade, way: string, entryId: string)
    ensures DoTrade(s, t, way, entryId).0.core.fmv == s.core.fmv
  {
  }

  lemma TransferKeepsFmv(s: State, tr: Transfer, entryId: string)
    ensures DoTransfer(s, tr, entryId).0.core.fmv == s.core.fmv
  {
  }

  lemma FmvPriced(c: Core, snap: Snapshot)
    requires PricedSnapshots(c) && snap.price >= 0
    ensures PricedSnapshots(ApplyFmv(c, snap))
  {
  }

  lemma {:induction false} SnapshotsPriced(ops: seq<Op>)
    requires forall i :: 0 <= i < |ops| ==> PricedOp(ops[i])
    ensures PricedSnapshots(Run(ops).core)
  {
    if ops != [] {
      var front, op := ops[..|ops| - 1], ops[|ops| - 1];
      SnapshotsPriced(front);
      NextPriced(front, op);
    }
  }

  ghost predicate ValueKept(held: seq<Lot>, f: Flow) {
    && WholeLots(held) && Priced(held)
    && Value(f.acquired) - f.disposals <= f.outBasis + Value(held) <= Value(f.acquired)
  }

  lemma ValueStep(held: seq<Lot>, f: Flow, e: Effect, held': seq<Lot>)
    requires ValueKept(held, f) && Does(held, e, held') && (e.In? ==> e.lot.cost >= 0)
    ensures ValueKept(held', FlowStep(f, e))
  {
    match e
    case None =>
    case In(lot) =>
      SumsAppend(held, lot);
      SumsAppend(f.acquired, lot);
    case Out(qty, basis) =>
      SplitWhole(held, qty);
      ReliefLoss(held, qty);
  }

  lemma EffectPriced(s: State, op: Op, k: string)
    requires PricedSnapshots(s.core) && PricedOp(op)
    ensures EffectOn(s, op, k).In? ==> EffectOn(s, op, k).lot.cost >= 0
  {
  }

  /** With non-negative prices, what was relieved and what is held never exceed what was acquired, and fall short of it
      by at most one kobo per disposal. */
  lemma {:induction false} BasisKept(ops: seq<Op>, k: string)
    requires Steady(ops) && forall i :: 0 <= i < |ops| ==> PricedOp(ops[i])
    ensures ValueKept(LotsAt(Run(ops).core, k), FlowOf(EffectsOf(ops, k)))
    decreases |ops|
  {
    if ops != [] {
      var front, op := ops[..|ops| - 1], ops[|ops| - 1];
      NextDoes(ops, k);
      BasisKept(front, k);
      SnapshotsPriced(front);
      EffectPriced(Run(front), op, k);
      FlowNext(ops, k);
      ValueStep(LotsAt(Run(front).core, k), FlowOf(EffectsOf(front, k)), EffectOn(Run(front), op, k),
                LotsAt(Run(ops).core, k));
    }
  }

  // ----- Weighted-average sales -----

  /** An accepted weighted-average sale relieves no lots now but relieves them on replay: the log stays faithful if and
      only if the lots could not have covered the sale. */
  lemma WacSaleReplays(s: State, t: Trade, entryId: string)
    requires InSync(s) && WholeLots(LotsAt(s.core, TradeKey(t)))
    requires t.side == "sell" && DoTrade(s, t, "wac", entryId).1.Booked?
    ensures InSync(DoTrade(s, t, "wac", entryId).0) <==> !Sufficient(s.core, TradeKey(t), t.qty)
  {
    var (s', a) := DoTrade(s, t, "wac", entryId);
    var k := TradeKey(t);
    ReplayAppendTwo(s.log, TradeRecord(t), LedgerRecord(a.e));
    if Sufficient(s.core, k, t.qty) {
      HeldAfterRelief(LotsAt(s.core, k), t.qty);
      assert LotsAt(Replay(s'.log).core, k) != LotsAt(s'.core, k);
    }
  }

  lemma {:induction false} UndivertedIsSteady(ops: seq<Op>)
    requires NeverDiverts(ops)
    ensures Steady(ops)
  {
    if ops != [] {
      UndivertedIsSteady(ops[..|ops| - 1]);
    }
  }

  lemma LastDiverts(front: seq<Op>, op: Op)
    requires NeverDiverts(front) && InSync(Run(front)) && Diverts(Run(front), op)
    ensures !InSync(Next(Run(front), op).0)
  {
    UndivertedIsSteady(front);
    LotsAreQueue(front, TradeKey(op.t));
    WacSaleReplays(Run(front), op.t, op.entryId);
  }

  /** Over every run: at every point the log replays to the live trades, transfers, lots, snapshots and ledger if and
      only if no step was a booked weighted-average sale that the lots could cover. */
  lemma {:induction false} ReplayEqualsLive(ops: seq<Op>)
    ensures AlwaysInSync(ops) <==> NeverDiverts(ops)
  {
    if ops == [] {
      UndivertedInSync(ops);
    } else {
      hide Diverts, InSync, Next;
      var front, op := ops[..|ops| - 1], ops[|ops| - 1];
      ReplayEqualsLive(front);
      if NeverDiverts(front) {
        UndivertedInSync(front);
        if Diverts(Run(front), op) {
          LastDiverts(front, op);
        } else {
          UndivertedInSync(ops);
        }
      }
    }
  }

  // ----- The averages -----

  ghost predicate AveragesInSync(s: State) {
    Replay(s.log).wac == s.wac
  }

  /** A booked first-in first-out sale that the average position could cover: it relieves the lots now, and both on
      replay. */
  predicate DivertsAverages(s: State, op: Op) {
    && op.TradeOp? && op.t.side == "sell" && (op.way == "" || op.way == "fifo")
    && DoTrade(s, op.t, op.way, op.entryId).1.Booked? && SufficientWac(s.wac, TradeKey(op.t), op.t.qty)
  }

  lemma ReplayWacAppend(log: seq<Record>, r: Record)
    ensures Replay(log + [r]).wac == ApplyWac(Replay(log).core, Replay(log).wac, r)
  {
    assert (log + [r])[..|log|] == log;
  }

  lemma ReplayWacAppendTwo(log: seq<Record>, r: Record, e: Entry)
    ensures Replay(log + [r, LedgerRecord(e)]).wac == ApplyWac(Replay(log).core, Replay(log).wac, r)
    ensures Replay(log + [LedgerRecord(e), r]).wac == ApplyWac(Replay(log + [LedgerRecord(e)]).core, Replay(log).wac, r)
  {
    hide ApplyWac;
    assert log + [r, LedgerRecord(e)] == log + [r] + [LedgerRecord(e)];
    assert log + [LedgerRecord(e), r] == log + [LedgerRecord(e)] + [r];
    ReplayWacAppend(log + [r], LedgerRecord(e));
    ReplayWacAppend(log, r);
    ReplayWacAppend(log + [LedgerRecord(e)], r);
    ReplayWacAppend(log, LedgerRecord(e));
    LedgerKeepsWac(Replay(log + [r]), e);
    LedgerKeepsWac(Replay(log), e);
  }

  lemma LedgerKeepsWac(s: State, e: Entry)
    ensures ApplyWac(s.core, s.wac, LedgerRecord(e)) == s.wac
  {
  }

  lemma DisposalShows(wac: map<string, Wac>, k: string, qty: int)
    requires SufficientWac(wac, k, qty) && qty > 0
    ensures DisposeWac(wac, k, qty) != wac
  {
    assert DisposeWac(wac, k, qty)[k].qty != wac[k].qty;
  }

  lemma TradeAverages(s: State, t: Trade, way: string, entryId: string)
    requires AveragesInSync(s) && SameRecords(Replay(s.log).core, s.core)
    ensures AveragesInSync(DoTrade(s, t, way, entryId).0) <==> !DivertsAverages(s, TradeOp(t, way, entryId))
  {
    var (s', a) := DoTrade(s, t, way, entryId);
    match a
    case Refused =>
    case Duplicate =>
    case Recorded => ReplayWacAppend(s.log, TradeRecord(t));
    case Booked(e) =>
      ReplayWacAppendTwo(s.log, TradeRecord(t), e);
      if SufficientWac(s.wac, TradeKey(t), t.qty) {
        DisposalShows(s.wac, TradeKey(t), t.qty);
      }
  }

  lemma TransferAverages(s: State, tr: Transfer, entryId: string)
    requires AveragesInSync(s) && SameRecords(Replay(s.log).core, s.core)
    ensures AveragesInSync(DoTransfer(s, tr, entryId).0)
  {
    var (s', a) := DoTransfer(s, tr, entryId);
    match a
    case Refused =>
    case Duplicate =>
    case Recorded => ReplayWacAppend(s.log, TransferRecord(Valued(s.core, tr)));
    case Booked(e) =>
      ReplayAppend(s.log, LedgerRecord(e));
      ReplayWacAppendTwo(s.log, TransferRecord(Valued(s.core, tr)), e);
  }

  lemma NextAverages(s: State, op: Op)
    requires AveragesInSync(s) && SameRecords(Replay(s.log).core, s.core)
    ensures AveragesInSync(Next(s, op).0) <==> !DivertsAverages(s, op)
  {
    hide DoTrade, DoTransfer, ApplyFmv;
    match op
    case TradeOp(t, way, entryId) => TradeAverages(s, t, way, entryId);
    case TransferOp(tr, entryId) => TransferAverages(s, tr, entryId);
    case FmvOp(snap) => ReplayWacAppend(s.log, FmvRecord(snap));
    case Restart => ReplayLog(s.log);
  }

  predicate NeverDivertsAverages(ops: seq<Op>) {
    ops == [] || (NeverDivertsAverages(ops[..|ops| - 1]) && !DivertsAverages(Run(ops[..|ops| - 1]), ops[|ops| - 1]))
  }

  ghost predicate AveragesAlwaysInSync(ops: seq<Op>) {
    AveragesInSync(Run(ops)) && (ops == [] || AveragesAlwaysInSync(ops[..|ops| - 1]))
  }

  /** Over every run: at every point the log replays to the live averages if and only if no step was a booked first-in
      first-out sale that the average position could cover. */
  lemma {:induction false} AveragesReplay(ops: seq<Op>)
    ensures AveragesAlwaysInSync(ops) <==> NeverDivertsAverages(ops)
  {
    if ops == [] {
      assert AveragesInSync(Run([]));
    } else {
      hide DivertsAverages, AveragesInSync, Next, SameRecords;
      var front, op := ops[..|ops| - 1], ops[|ops| - 1];
      AveragesReplay(front);
      if AveragesAlwaysInSync(front) {
        RecordsReplay(front);
        NextAverages(Run(front), op);
        assert Run(ops) == Next(Run(front), op).0;
      }
    }
  }

  // ----- The gain-or-loss ledger -----

  /** An entry's result is its proceeds less its basis; a disposal names a stored sale, and its proceeds are that sale's
      value less the fee. */
  predicate Explained(c: Core, e: Entry) {
    && e.gainLoss == e.proceeds - e.basis
    && (e.kind == "disposal" ==>
          e.tradeId in c.trades && c.trades[e.tradeId].side == "sell"
          && e.proceeds == AmountKobo(c.trades[e.tradeId].qty, c.trades[e.tradeId].price) - c.trades[e.tradeId].fee)
  }

  ghost predicate AllExplained(c: Core) {
    forall i :: 0 <= i < |c.ledger| ==> Explained(c, c.ledger[i])
  }

  /** Entries stay explained while trades are only added. */
  lemma StillExplained(c: Core, c': Core)
    requires AllExplained(c) && c.ledger <= c'.ledger && |c'.ledger| <= |c.ledger| + 1
    requires forall id :: id in c.trades ==> id in c'.trades && c'.trades[id] == c.trades[id]
    requires |c'.ledger| > |c.ledger| ==> Explained(c', c'.ledger[|c.ledger|])
    ensures AllExplained(c')
  {
    forall i | 0 <= i < |c'.ledger|
      ensures Explained(c', c'.ledger[i])
    {
      if i < |c.ledger| {
        assert c'.ledger[i] == c.ledger[i];
      }
    }
  }

  lemma TradeExplained(s: State, t: Trade, way: string, entryId: string)
    requires AllExplained(s.core)
    ensures AllExplained(DoTrade(s, t, way, entryId).0.core)
  {
    StillExplained(s.core, DoTrade(s, t, way, entryId).0.core);
  }

  lemma TransferExplained(s: State, tr: Transfer, entryId: string)
    requires AllExplained(s.core)
    ensures AllExplained(DoTransfer(s, tr, entryId).0.core)
  {
    StillExplained(s.core, DoTransfer(s, tr, entryId).0.core);
  }

  /** In every run each ledger entry is explained by a stored sale. */
  lemma {:induction false} LedgerExplained(ops: seq<Op>)
    ensures AllExplained(Run(ops).core)
    decreases |ops|
  {
    if ops != [] {
      var front, op := ops[..|ops| - 1], ops[|ops| - 1];
      LedgerExplained(front);
      match op
      case TradeOp(t, way, entryId) => TradeExplained(Run(front), t, way, entryId);
      case TransferOp(tr, entryId) => TransferExplained(Run(front), tr, entryId);
      case FmvOp(snap) => StillExplained(Run(front).core, Run(ops).core);
      case Restart =>
        RecordsReplay(front);
        StillExplained(Run(front).core, Run(ops).core);
    }
  }
}
