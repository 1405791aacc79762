/** Settling periods (services/pos-vat/handlers.go:241-345): a run sums the unsettled receipts of a period, moves the
    sums to the pools through the settlement saga, stamps the receipts and moves the marker. */
module Settlement {
  import opened Attribution
  import opened ReceiptStore
  import opened TransferNames
  import PosLedger
  import Saga = SettlementSaga

  type Ledger = PosLedger.Ledger

  /** The hash behind deterministic ids, and the accounts. */
  datatype Setup = Setup(hash: string -> string, merchant: string, pool: LegName -> string)

  datatype Marker = Marker(settled: bool, supplements: nat)

  datatype Recon = Recon(tenant: string, period: string, supp: nat, sums: Tally)

  datatype World = World(store: Contents, ledger: Ledger, markers: map<string, Marker>, recons: seq<Recon>)

  ghost predicate GoodSetup(u: Setup) {
    && (forall x, y :: u.hash(x) == u.hash(y) ==> x == y)
    && (forall x :: u.hash(x) != "")
    && (forall a, b :: u.pool(a) == u.pool(b) ==> a == b)
  }

  function ReversalId(u: Setup, tenant: string, period: string, leg: LegName): string {
    u.hash("posv-rev:" + tenant + ":" + period + ":" + Text(leg))
  }

  function PendingId(u: Setup, tenant: string, period: string, leg: LegName, supp: nat): string {
    u.hash(PendingName(tenant, period, leg, supp))
  }

  // ----- Ingest -----

  function Attribute(id: string, tenant: string, capturedAt: string, vat: int, cfg: Config, platform: bool): Receipt {
    var legs := ComputeAttribution(vat, cfg).primary;
    Receipt(id, tenant, capturedAt, cfg.mode, vat, legs.federal, legs.state, legs.lga, platform, "")
  }

  // ----- Aggregation -----

  /** The local leg as remitted: receipts attributed without one remit the remainder. */
  function RemittedLga(r: Receipt): int {
    if r.lga == 0 && r.mode != "federal" then r.vat - r.federal - r.state else r.lga
  }

  predicate InPeriod(r: Receipt, period: string) {
    period <= r.capturedAt
  }

  predicate Chosen(c: Contents, id: string, period: string) {
    id in c.receipts && InPeriod(c.receipts[id], period) && c.receipts[id].settledIn == ""
  }

  function Selected(c: Contents, order: seq<string>, period: string): seq<string> {
    if order == [] then []
    else
      var id := order[|order| - 1];
      Selected(c, order[..|order| - 1], period) + if Chosen(c, id, period) then [id] else []
  }

  function Vats(c: Contents): map<string, int> {
    map id | id in c.receipts :: c.receipts[id].vat
  }

  function Part(r: Receipt, leg: LegName): int {
    match leg
    case Federal => r.federal
    case State => r.state
    case Lga => RemittedLga(r)
  }

  function Parts(c: Contents, leg: LegName): map<string, int> {
    map id | id in c.receipts :: Part(c.receipts[id], leg)
  }

  function SumLegs(c: Contents, ids: seq<string>): Legs {
    Legs(ListSum(ids, Parts(c, Federal)), ListSum(ids, Parts(c, State)), ListSum(ids, Parts(c, Lga)))
  }

  predicate AnyInPeriod(c: Contents, order: seq<string>, period: string) {
    order != [] &&
    var id := order[|order| - 1];
    AnyInPeriod(c, order[..|order| - 1], period) || (id in c.receipts && InPeriod(c.receipts[id], period))
  }

  /** The VAT that a designated platform collected. */
  function PlatformVats(c: Contents): map<string, int> {
    map id | id in c.receipts :: if c.receipts[id].platform then c.receipts[id].vat else 0
  }

  function PlatformMarks(c: Contents): map<string, int> {
    map id | id in c.receipts :: if c.receipts[id].platform then 1 else 0
  }

  lemma SumNext(ids: seq<string>, id: string, m: map<string, int>)
    requires id in m
    ensures ListSum(ids + [id], m) == ListSum(ids, m) + m[id]
  {
    assert (ids + [id])[..|ids|] == ids;
  }

  lemma LegsNext(c: Contents, ids: seq<string>, id: string)
    requires id in c.receipts
    ensures var r, sums := c.receipts[id], SumLegs(c, ids);
      SumLegs(c, ids + [id]) == Legs(sums.federal + r.federal, sums.state + r.state, sums.lga + RemittedLga(r))
  {
    SumNext(ids, id, Parts(c, Federal));
    SumNext(ids, id, Parts(c, State));
    SumNext(ids, id, Parts(c, Lga));
  }

  lemma SelectedNext(c: Contents, order: seq<string>, id: string, period: string)
    ensures Selected(c, order + [id], period)
      == if Chosen(c, id, period) then Selected(c, order, period) + [id] else Selected(c, order, period)
    ensures AnyInPeriod(c, order + [id], period)
      <==> AnyInPeriod(c, order, period) || (id in c.receipts && InPeriod(c.receipts[id], period))
  {
    assert (order + [id])[..|order|] == order;
  }

  datatype Tally = Tally(any: bool, ids: seq<string>, vat: int, legs: Legs, platformVat: int, platformCount: int)

  /** The tally one receipt further. */
  function Visit(c: Contents, t: Tally, id: string, period: string): Tally {
    if id !in c.receipts || !InPeriod(c.receipts[id], period) then t
    else if c.receipts[id].settledIn != "" then t.(any := true)
    else
      var r := c.receipts[id];
      Tally(true, t.ids + [id], t.vat + r.vat,
            Legs(t.legs.federal + r.federal, t.legs.state + r.state, t.legs.lga + RemittedLga(r)),
            t.platformVat + (if r.platform then r.vat else 0), t.platformCount + (if r.platform then 1 else 0))
  }

  function TallyOf(c: Contents, order: seq<string>, period: string): Tally {
    if order == [] then Tally(false, [], 0, NO_LEGS, 0, 0)
    else Visit(c, TallyOf(c, order[..|order| - 1], period), order[|order| - 1], period)
  }

  /** A tally selects the unsettled receipts of the period and holds their sums. */
  ghost predicate Exact(c: Contents, order: seq<string>, period: string, t: Tally) {
    && t.any == AnyInPeriod(c, order, period) && t.ids == Selected(c, order, period)
    && t.vat == ListSum(t.ids, Vats(c)) && t.legs == SumLegs(c, t.ids)
    && t.platformVat == ListSum(t.ids, PlatformVats(c)) && t.platformCount == ListSum(t.ids, PlatformMarks(c))
  }

  lemma VisitSums(c: Contents, order: seq<string>, id: string, period: string, t: Tally)
    requires Exact(c, order, period, t) && Chosen(c, id, period)
    ensures var t' := Visit(c, t, id, period);
      && t'.ids == t.ids + [id] && t'.vat == ListSum(t'.ids, Vats(c)) && t'.legs == SumLegs(c, t'.ids)
      && t'.platformVat == ListSum(t'.ids, PlatformVats(c)) && t'.platformCount == ListSum(t'.ids, PlatformMarks(c))
  {
    LegsNext(c, t.ids, id);
    SumNext(t.ids, id, Vats(c));
    SumNext(t.ids, id, PlatformVats(c));
    SumNext(t.ids, id, PlatformMarks(c));
  }

  lemma VisitExact(c: Contents, order: seq<string>, id: string, period: string, t: Tally)
    requires Exact(c, order, period, t)
    ensures Exact(c, order + [id], period, Visit(c, t, id, period))
  {
    SelectedNext(c, order, id, period);
    if Chosen(c, id, period) {
      VisitSums(c, order, id, period, t);
    }
  }

  lemma {:induction false} TallyExact(c: Contents, order: seq<string>, period: string)
    ensures Exact(c, order, period, TallyOf(c, order, period))
    decreases |order|
  {
    if order != [] {
      var front, last := order[..|order| - 1], order[|order| - 1];
      TallyExact(c, front, period);
      VisitExact(c, front, last, period, TallyOf(c, front, period));
      assert order == front + [last];
    }
  }

  /** A tally holds exactly the listed receipts that are unsettled and whose capture date starts with the period, as
      often as they are listed; and it has seen a receipt of the period if some listed one starts so, settled or not.
      */
  lemma {:induction false} SelectsPeriod(c: Contents, order: seq<string>, period: string)
    ensures forall id :: id in Selected(c, order, period) <==>
      && id in order && id in c.receipts && c.receipts[id].settledIn == ""
      && |period| <= |c.receipts[id].capturedAt| && c.receipts[id].capturedAt[..|period|] == period
    ensures AnyInPeriod(c, order, period) <==>
      exists id :: id in order && id in c.receipts
                   && |period| <= |c.receipts[id].capturedAt| && c.receipts[id].capturedAt[..|period|] == period
    decreases |order|
  {
    if order != [] {
      var front, last := order[..|order| - 1], order[|order| - 1];
      SelectsPeriod(c, front, period);
      assert order == front + [last];
      if AnyInPeriod(c, order, period) && !AnyInPeriod(c, front, period) {
        assert last in order;
      }
    }
  }

  /** The aggregation loop over the receipts of a listing. */
  method Aggregate(c: Contents, order: seq<string>, period: string) returns (t: Tally)
    ensures Exact(c, order, period, t) && t == TallyOf(c, order, period)
    ensures forall id :: id in t.ids <==>
      && id in order && id in c.receipts && c.receipts[id].settledIn == ""
      && |period| <= |c.receipts[id].capturedAt| && c.receipts[id].capturedAt[..|period|] == period
  {
    var any, ids, vat, platformVat, platformCount := false, [], 0, 0, 0;
    var federal, state, lga := 0, 0, 0;
    var i := 0;
    while i < |order|
      invariant 0 <= i <= |order|
      invariant Tally(any, ids, vat, Legs(federal, state, lga), platformVat, platformCount)
        == TallyOf(c, order[..i], period)
    {
      var id := order[i];
      assert order[..i + 1][..i] == order[..i];
      if id in c.receipts && InPeriod(c.receipts[id], period) {
        var r := c.receipts[id];
        any := true;
        if r.settledIn == "" {
          vat, federal, state := vat + r.vat, federal + r.federal, state + r.state;
          var lgaKobo := r.lga;
          if lgaKobo == 0 && r.mode != "federal" {
            lgaKobo := r.vat - r.federal - r.state;
          }
          lga := lga + lgaKobo;
          if r.platform {
            platformVat, platformCount := platformVat + r.vat, platformCount + 1;
          }
          ids := ids + [id];
        }
      }
      i := i + 1;
    }
    assert order[..i] == order;
    TallyExact(c, order, period);
    SelectsPeriod(c, order, period);
    t := Tally(any, ids, vat, Legs(federal, state, lga), platformVat, platformCount);
  }

  // ----- A settlement run -----

  function RunLeg(u: Setup, tenant: string, period: string, supp: nat, leg: LegName, amount: int): Saga.Leg {
    Saga.Leg(PendingId(u, tenant, period, leg, supp), ReversalId(u, tenant, period, leg), amount, u.pool(leg))
  }

  function RunArgs(u: Setup, tenant: string, period: string, supp: nat, legs: Legs): Saga.Args {
    Saga.Args(u.merchant, [RunLeg(u, tenant, period, supp, Federal, legs.federal),
                           RunLeg(u, tenant, period, supp, State, legs.state),
                           RunLeg(u, tenant, period, supp, Lga, legs.lga)])
  }

  /** A tenant's receipts come in list order; without a tenant every receipt comes once, in any order. */
  ghost predicate Listing(c: Contents, tenant: string, order: seq<string>) {
    if tenant != "" then order == Listed(c, tenant)
    else forall id :: Count(order, id) == if id in c.receipts then 1 else 0
  }

  function NextSupplement(w: World, key: string): nat {
    if key in w.markers && w.markers[key].settled then w.markers[key].supplements + 1 else 0
  }

  function Opened(u: Setup, l: Ledger): Ledger {
    PosLedger.CreateAccount(l, u.merchant, false)
  }

  function Amount(legs: Legs, leg: LegName): int {
    match leg
    case Federal => legs.federal
    case State => legs.state
    case Lga => legs.lga
  }

  /** What a request to settle sets out to do. */
  datatype Plan = Plan(tenant: string, period: string, supp: nat, sums: Tally)

  function PlanOf(w: World, tenant: string, period: string, order: seq<string>): Plan {
    Plan(tenant, period, NextSupplement(w, SettledKey(tenant, period)), TallyOf(w.store, order, period))
  }

  /** There are receipts in the period, and some are new when it has been settled before. */
  predicate Proceeds(plan: Plan) {
    plan.sums.any && !(plan.supp > 0 && plan.sums.ids == [])
  }

  function PlanId(u: Setup, plan: Plan, leg: LegName): string {
    PendingId(u, plan.tenant, plan.period, leg, plan.supp)
  }

  function PlanArgs(u: Setup, plan: Plan): Saga.Args {
    RunArgs(u, plan.tenant, plan.period, plan.supp, plan.sums.legs)
  }

  /** The world after an attempt that left the ledger `l`: stamped and recorded when it was done. */
  function After(u: Setup, w: World, plan: Plan, l: Ledger, done: bool): World {
    var key := SettledKey(plan.tenant, plan.period);
    World(if done then Mark(w.store, plan.sums.ids, key) else w.store, l,
          w.markers[key := Marker(done, plan.supp)],
          if done then w.recons + [Recon(plan.tenant, plan.period, plan.supp, plan.sums)] else w.recons)
  }

  // ----- Histories -----

  /** `evs` is how far the settlement got: it went through if the saga returned success, and was cut short otherwise. */
  datatype Event =
    | Ingest(id: string, tenant: string, capturedAt: string, vat: int, cfg: Config, platform: bool)
    | Settle(tenant: string, period: string, order: seq<string>, evs: seq<Saga.Event>, s: Saga.System)

  /** Non-negative VAT, and shares below the whole. */
  predicate Regular(ev: Event) {
    ev.Ingest? ==>
      ev.id != "" && ev.vat >= 0 && ev.cfg.federalBps >= 0 && ev.cfg.stateBps >= 0
        && ev.cfg.federalBps + ev.cfg.stateBps < 10000
  }

  predicate Done(ev: Event) {
    ev.Settle? && ev.s.attempt == Saga.Returned(true)
  }

  ghost predicate Attempts(u: Setup, w: World, ev: Event, w': World)
    requires ev.Settle?
  {
    var plan := PlanOf(w, ev.tenant, ev.period, ev.order);
    && Listing(w.store, ev.tenant, ev.order)
    && (!Proceeds(plan) ==> w' == w)
    && (Proceeds(plan) ==>
          && Saga.Reachable(Opened(u, w.ledger), PlanArgs(u, plan), ev.evs, ev.s)
          && w' == After(u, w, plan, ev.s.l, Done(ev)))
  }

  ghost predicate Steps(u: Setup, w: World, ev: Event, w': World) {
    match ev
    case Ingest(id, tenant, at, vat, cfg, platform) =>
      w' == w.(store := Put(w.store, Attribute(id, tenant, at, vat, cfg, platform)))
    case Settle(_, _, _, _, _) => Attempts(u, w, ev, w')
  }

  function Start(u: Setup): World {
    var l := PosLedger.CreateAccount(PosLedger.CreateAccount(PosLedger.CreateAccount(PosLedger.EMPTY_LEDGER,
                u.pool(Federal), false), u.pool(State), false), u.pool(Lga), false);
    World(Contents(map[], map[], []), l, map[], [])
  }

  /** `ws` are the worlds that the events pass through. */
  ghost predicate IsRun(u: Setup, evs: seq<Event>, ws: seq<World>) {
    && |ws| == |evs| + 1 && ws[0] == Start(u)
    && forall i, j :: 0 <= i < |evs| && j == i + 1 ==> Steps(u, ws[i], evs[i], ws[j])
  }
}
