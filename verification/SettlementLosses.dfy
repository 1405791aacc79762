/** What a resume after a cut-short settlement loses, and runs from the start that lose VAT: the second of two
    settlements that share their texts, a supplemental settlement resumed after it was cut short, an initial one resumed
    with grown sums, and the supplement after one that was cut short late. */
module SettlementLosses {
  import opened MapSums
  import opened Attribution
  import opened ReceiptStore
  import opened TransferNames
  import opened SagaPayments
  import opened Settlement
  import opened SettlementConservation
  import Saga = SettlementSaga

  // ----- Steps that can be taken -----

  /** An undisturbed settlement goes through. */
  lemma SettleThrough(u: Setup, w: World, tenant: string, period: string, order: seq<string>)
    returns (ev: Event, w': World)
    requires GoodSetup(u) && Inv(u, w) && Listing(w.store, tenant, order)
    requires Proceeds(PlanOf(w, tenant, period, order))
    requires HoldsEnough(Opened(u, w.ledger), PlanArgs(u, PlanOf(w, tenant, period, order)))
    ensures ev.Settle? && ev.tenant == tenant && ev.period == period && ev.order == order && Done(ev)
    ensures Steps(u, w, ev, w') && Settling(w, ev)
      && w' == After(u, w, PlanOf(w, tenant, period, order), w'.ledger, true)
    ensures Inv(u, w')
  {
    var plan := PlanOf(w, tenant, period, order);
    PlanUsable(u, w.ledger, plan);
    var evs, s := Finishes(Opened(u, w.ledger), PlanArgs(u, plan));
    ev := Event.Settle(tenant, period, order, evs, s);
    w' := After(u, w, plan, s.l, true);
    StepKeepsInv(u, w, ev, w');
  }

  /** One can be cut short at once. */
  lemma SettleNot(u: Setup, w: World, tenant: string, period: string, order: seq<string>) returns (ev: Event, w': World)
    requires GoodSetup(u) && Inv(u, w) && Listing(w.store, tenant, order)
    requires Proceeds(PlanOf(w, tenant, period, order))
    ensures ev.Settle? && ev.tenant == tenant && ev.period == period && ev.order == order && !Done(ev)
    ensures Steps(u, w, ev, w') && Inv(u, w')
    ensures w' == After(u, w, PlanOf(w, tenant, period, order), Opened(u, w.ledger), false)
  {
    var s := Saga.System(Opened(u, w.ledger), Saga.NotRunning, 0);
    ev := Event.Settle(tenant, period, order, [], s);
    w' := After(u, w, PlanOf(w, tenant, period, order), s.l, false);
    StepKeepsInv(u, w, ev, w');
  }

  /** And one can be cut short after its last posting. */
  lemma SettleAlmost(u: Setup, w: World, tenant: string, period: string, order: seq<string>)
    returns (ev: Event, w': World)
    requires GoodSetup(u) && Inv(u, w) && Listing(w.store, tenant, order)
    requires Proceeds(PlanOf(w, tenant, period, order))
    requires HoldsEnough(Opened(u, w.ledger), PlanArgs(u, PlanOf(w, tenant, period, order)))
    ensures ev.Settle? && ev.tenant == tenant && ev.period == period && ev.order == order && !Done(ev)
    ensures Steps(u, w, ev, w') && Inv(u, w')
    ensures var plan := PlanOf(w, tenant, period, order);
      && w' == After(u, w, plan, w'.ledger, false)
      && forall leg :: Amount(plan.sums.legs, leg) > 0 ==> IsPosted(w'.ledger, PlanId(u, plan, leg))
  {
    var plan := PlanOf(w, tenant, period, order);
    PlanUsable(u, w.ledger, plan);
    var evs, s := AlmostFinishes(Opened(u, w.ledger), PlanArgs(u, plan));
    LegsPosted(u, plan, s.l);
    ev := Event.Settle(tenant, period, order, evs, s);
    w' := After(u, w, plan, s.l, false);
    StepKeepsInv(u, w, ev, w');
  }

  lemma LegsPosted(u: Setup, plan: Plan, l: Ledger)
    requires var args := PlanArgs(u, plan);
      forall k :: 0 <= k < |args.legs| && args.legs[k].amount > 0 ==> IsPosted(l, args.legs[k].id)
    ensures forall leg :: Amount(plan.sums.legs, leg) > 0 ==> IsPosted(l, PlanId(u, plan, leg))
  {
    forall leg
      ensures Amount(plan.sums.legs, leg) > 0 ==> IsPosted(l, PlanId(u, plan, leg))
    {
      var k := Index(leg);
      assert PlanArgs(u, plan).legs[k].id == PlanId(u, plan, leg);
    }
  }

  /** Without holds, and with posted or empty legs, there is enough. */
  lemma NothingHeld(u: Setup, l: Ledger, plan: Plan)
    requires forall leg :: Amount(plan.sums.legs, leg) > 0 ==>
      PlanId(u, plan, leg) !in l.transfers || IsPosted(l, PlanId(u, plan, leg))
    ensures HoldsEnough(Opened(u, l), PlanArgs(u, plan))
  {
    var args := PlanArgs(u, plan);
    assert args.legs[0].id == PlanId(u, plan, Federal) && args.legs[0].amount == Amount(plan.sums.legs, Federal);
    assert args.legs[1].id == PlanId(u, plan, State) && args.legs[1].amount == Amount(plan.sums.legs, State);
    assert args.legs[2].id == PlanId(u, plan, Lga) && args.legs[2].amount == Amount(plan.sums.legs, Lga);
  }

  // ----- A resume -----

  /** Only receipts come in. */
  ghost predicate OnlyIngests(u: Setup, evs: seq<Event>, ws: seq<World>) {
    && |ws| == |evs| + 1
    && forall i, j :: 0 <= i < |evs| && j == i + 1 ==>
         evs[i].Ingest? && Regular(evs[i]) && Steps(u, ws[i], evs[i], ws[j])
  }

  lemma {:induction false} IngestsKeep(u: Setup, evs: seq<Event>, ws: seq<World>, n: nat, leg: LegName)
    requires GoodSetup(u) && OnlyIngests(u, evs, ws) && Inv(u, ws[0]) && n <= |evs|
    ensures Inv(u, ws[n]) && Short(u, ws[n], leg) == Short(u, ws[0], leg)
    ensures ws[n].ledger == ws[0].ledger && ws[n].markers == ws[0].markers
    decreases n
  {
    hide Inv, Short, GoodSetup;
    if n > 0 {
      IngestsKeep(u, evs, ws, n - 1, leg);
      StepKeepsInv(u, ws[n - 1], evs[n - 1], ws[n]);
      IngestShort(u, ws[n - 1], evs[n - 1], ws[n], leg);
    }
  }

  /** A settlement is cut short, receipts come in, and the next settlement of the tenant and period goes through. */
  ghost predicate Resumed(u: Setup, w: World, ev: Event, ins: seq<Event>, ws: seq<World>, ev2: Event, w2: World) {
    && Inv(u, w) && Regular(ev) && Regular(ev2) && OnlyIngests(u, ins, ws)
    && Steps(u, w, ev, ws[0]) && CutOff(w, ev)
    && Steps(u, ws[|ins|], ev2, w2) && Settling(ws[|ins|], ev2)
    && ev2.tenant == ev.tenant && ev2.period == ev.period
  }

  function PlanAt(w: World, ev: Event): Plan
    requires ev.Settle?
  {
    PlanOf(w, ev.tenant, ev.period, ev.order)
  }

  /** What the two attempts together add to a pool's shortfall. */
  lemma ResumeAdds(u: Setup, w: World, ev: Event, ins: seq<Event>, ws: seq<World>, ev2: Event, w2: World, leg: LegName)
    requires GoodSetup(u) && Resumed(u, w, ev, ins, ws, ev2, w2)
    ensures Short(u, w2, leg) == Short(u, w, leg) - Advanced(u, w, ev, leg) + Missed(u, ws[|ins|], ev2, leg)
    ensures ws[|ins|].ledger == ev.s.l && PlanAt(ws[|ins|], ev2).supp == 0
  {
    hide Inv, Short, GoodSetup, Missed, Advanced, SettledKey;
    var w1, w1' := ws[0], ws[|ins|];
    StepKeepsInv(u, w, ev, w1);
    IngestsKeep(u, ins, ws, |ins|, leg);
    StepKeepsInv(u, w1', ev2, w2);
    StepShort(u, w, ev, w1, leg);
    StepShort(u, w1', ev2, w2, leg);
    NothingMissed(u, w, ev, leg);
    NothingAdvanced(u, w1', ev2, leg);
  }

  lemma NothingMissed(u: Setup, w: World, ev: Event, leg: LegName)
    requires CutOff(w, ev)
    ensures Missed(u, w, ev, leg) == 0
  {
  }

  lemma NothingAdvanced(u: Setup, w: World, ev: Event, leg: LegName)
    requires Settling(w, ev)
    ensures Advanced(u, w, ev, leg) == 0
  {
  }

  /** An initial settlement whose leg was not posted before is cut short and resumed: the pool ends up as exact as it
      was if and only if the leg was not posted by then or asks for the same amount again, and else the difference is
      missing. Receipts that came in between make it. */
  lemma ResumeExact(u: Setup, w: World, ev: Event, ins: seq<Event>, ws: seq<World>, ev2: Event, w2: World, leg: LegName)
    requires GoodSetup(u) && Resumed(u, w, ev, ins, ws, ev2, w2)
    requires PlanAt(w, ev).supp == 0 && !IsPosted(w.ledger, PlanId(u, PlanAt(w, ev), leg))
    ensures Short(u, w2, leg) == Short(u, w, leg)
      + if IsPosted(ev.s.l, PlanId(u, PlanAt(w, ev), leg)) then
          Amount(PlanAt(ws[|ins|], ev2).sums.legs, leg) - Amount(PlanAt(w, ev).sums.legs, leg)
        else 0
  {
    hide Inv, Short, GoodSetup, PendingId, SettledKey, Proceeds, TallyOf, Steps, OnlyIngests;
    ResumeAdds(u, w, ev, ins, ws, ev2, w2, leg);
  }

  /** A supplemental settlement that is cut short is resumed as the initial one. What it has posted under its own number
      is gained, what the initial one posted is missed. */
  lemma SupplementResumes(u: Setup, w: World, ev: Event, ins: seq<Event>, ws: seq<World>, ev2: Event, w2: World,
                          leg: LegName)
    requires GoodSetup(u) && Resumed(u, w, ev, ins, ws, ev2, w2) && PlanAt(w, ev).supp > 0
    ensures Short(u, w2, leg) == Short(u, w, leg) - Advanced(u, w, ev, leg)
      + if IsPosted(w.ledger, PendingId(u, ev.tenant, ev.period, leg, 0)) then
          Amount(PlanAt(ws[|ins|], ev2).sums.legs, leg)
        else 0
  {
    ResumeAdds(u, w, ev, ins, ws, ev2, w2, leg);
    InitialUntouched(u, w, ev, ws[0], leg);
    hide Inv, Short, GoodSetup, PendingId, SettledKey, Proceeds, TallyOf, OnlyIngests, Advanced;
  }

  /** A supplement leaves the ids of the initial settlement alone. */
  lemma InitialUntouched(u: Setup, w: World, ev: Event, w1: World, leg: LegName)
    requires GoodSetup(u) && Inv(u, w) && Steps(u, w, ev, w1) && CutOff(w, ev) && PlanAt(w, ev).supp > 0
    ensures IsPosted(ev.s.l, PendingId(u, ev.tenant, ev.period, leg, 0))
       <==> IsPosted(w.ledger, PendingId(u, ev.tenant, ev.period, leg, 0))
  {
    hide PendingId, LedgerOk, EntriesOwn, StoreOk, GoodSetup, TallyOf, SettledKey;
    var plan, id := PlanAt(w, ev), PendingId(u, ev.tenant, ev.period, leg, 0);
    forall other
      ensures id != PlanId(u, plan, other)
    {
      PendingIdSame(u, ev.tenant, ev.period, leg, 0, ev.tenant, ev.period, other, plan.supp);
    }
    AttemptKeepsOthers(u, w.ledger, plan, ev.evs, ev.s, id);
  }

  // ----- The runs -----

  /** A receipt whose whole VAT is federal. */
  function FederalReceipt(id: string, tenant: string, at: string, vat: int): Event {
    Event.Ingest(id, tenant, at, vat, Config("federal", 1000, 5500), false)
  }

  function FederalLegs(vat: int): Legs {
    Legs(vat, 0, 0)
  }

  function Received(id: string, tenant: string, at: string, vat: int): Receipt {
    Attribute(id, tenant, at, vat, Config("federal", 1000, 5500), false)
  }

  lemma ReceivedLegs(id: string, tenant: string, at: string, vat: int)
    ensures var r := Received(id, tenant, at, vat);
      r.id == id && r.federal == vat && r.state == 0 && RemittedLga(r) == 0 && r.vat == vat && r.settledIn == ""
  {
  }

  /** What a tenant's list holds for a period: these receipts are unsettled, and worth this much federal VAT. */
  ghost predicate Scene(w: World, tenant: string, period: string, ids: seq<string>, vat: int) {
    var t := TallyOf(w.store, Listed(w.store, tenant), period);
    (t.any <== ids != []) && t.ids == ids && t.legs == FederalLegs(vat)
  }

  lemma TallyLast(c: Contents, front: seq<string>, id: string, tenant: string, vat: int, period: string)
    requires id in c.receipts && c.receipts[id] == Received(id, tenant, period, vat)
    ensures var t, before := TallyOf(c, front + [id], period), TallyOf(c, front, period);
      && t.any && t.ids == before.ids + [id]
      && t.legs == Legs(before.legs.federal + vat, before.legs.state, before.legs.lga)
  {
    assert (front + [id])[..|front|] == front;
    ReceivedLegs(id, tenant, period, vat);
  }

  lemma {:induction false} TallySame(c: Contents, c': Contents, ids: seq<string>, period: string)
    requires forall i :: 0 <= i < |ids| ==>
      && (ids[i] in c.receipts <==> ids[i] in c'.receipts)
      && (ids[i] in c.receipts ==> c.receipts[ids[i]] == c'.receipts[ids[i]])
    ensures TallyOf(c, ids, period) == TallyOf(c', ids, period)
    decreases |ids|
  {
    if ids != [] {
      TallySame(c, c', ids[..|ids| - 1], period);
    }
  }

  lemma ListedKnown(c: Contents, tenant: string)
    requires ListsExact(c)
    ensures forall i :: 0 <= i < |Listed(c, tenant)| ==> Listed(c, tenant)[i] in c.receipts
  {
    var ids := Listed(c, tenant);
    forall i | 0 <= i < |ids|
      ensures ids[i] in c.receipts
    {
      CountMember(ids, ids[i]);
      assert Times(c, tenant, ids[i]) > 0;
    }
  }

  /** Once a period has settled, nothing of it is left. */
  lemma {:induction false} NothingLeft(c: Contents, order: seq<string>, period: string)
    requires forall i :: 0 <= i < |order| ==> !Chosen(c, order[i], period)
    ensures TallyOf(c, order, period).ids == [] && TallyOf(c, order, period).legs == NO_LEGS
    decreases |order|
  {
    if order != [] {
      NothingLeft(c, order[..|order| - 1], period);
    }
  }

  lemma SettledLeavesNothing(c: Contents, order: seq<string>, period: string, key: string)
    requires key != ""
    ensures var t := TallyOf(Mark(c, Selected(c, order, period), key), order, period); t.ids == [] && t.legs == NO_LEGS
  {
    var ids := Selected(c, order, period);
    var c' := Mark(c, ids, key);
    MarkAt(c, ids, key);
    forall i | 0 <= i < |order|
      ensures !Chosen(c', order[i], period)
    {
      if Chosen(c, order[i], period) {
        SelectedCount(c, order, period, order[i]);
        CountMember(order, order[i]);
        CountMember(ids, order[i]);
      }
    }
    NothingLeft(c', order, period);
  }

  // ----- Runs, one step further -----

  ghost predicate Reaches(u: Setup, evs: seq<Event>, w: World) {
    exists ws :: IsRun(u, evs, ws) && ws[|evs|] == w && AllRegular(evs)
  }

  /** `reach` holds of worlds that keep the invariant, and of what a step makes of them. */
  ghost predicate Closed(u: Setup, reach: (seq<Event>, World) -> bool) {
    && (forall evs, w {:trigger reach(evs, w), Inv(u, w)} :: reach(evs, w) ==> Inv(u, w))
    && (forall evs, w, ev, w' {:trigger reach(evs, w), Steps(u, w, ev, w')} ::
          reach(evs, w) && Regular(ev) && Steps(u, w, ev, w') ==> reach(evs + [ev], w'))
  }

  lemma ReachesClosed(u: Setup)
    requires GoodSetup(u)
    ensures Closed(u, (evs, w) => Reaches(u, evs, w)) && Reaches(u, [], Start(u))
  {
    hide Inv, Steps, Start, GoodSetup, Regular;
    assert IsRun(u, [], [Start(u)]);
    forall evs, w | Reaches(u, evs, w)
      ensures Inv(u, w)
    {
      var ws :| IsRun(u, evs, ws) && ws[|evs|] == w && AllRegular(evs);
      RunInv(u, evs, ws, |evs|);
    }
    forall evs, w, ev, w' | Reaches(u, evs, w) && Regular(ev) && Steps(u, w, ev, w')
      ensures Reaches(u, evs + [ev], w')
    {
      var ws :| IsRun(u, evs, ws) && ws[|evs|] == w && AllRegular(evs);
      var ws' := ws + [w'];
      assert IsRun(u, evs + [ev], ws') && ws'[|evs + [ev]|] == w';
    }
  }

  /** The federal VAT that is stamped, and the federal VAT that has arrived. */
  ghost function Stamped(w: World): int {
    Total(StampedParts(w.store, Federal))
  }

  function Arrived(u: Setup, w: World): int {
    Credits(w.ledger, u.pool(Federal))
  }

  predicate IsSettle(ev: Event, tenant: string, period: string, done: bool) {
    ev.Settle? && ev.tenant == tenant && ev.period == period && Done(ev) == done
  }

  /** A federal receipt comes in. */
  lemma Arrives(u: Setup, reach: (seq<Event>, World) -> bool, evs: seq<Event>, w: World,
                id: string, tenant: string, period: string, ids: seq<string>, sum: int, vat: int)
    returns (w': World)
    requires GoodSetup(u) && Closed(u, reach) && reach(evs, w)
    requires id !in w.store.receipts && id != "" && tenant != "" && vat > 0 && Scene(w, tenant, period, ids, sum)
    ensures reach(evs + [FederalReceipt(id, tenant, period, vat)], w')
    ensures w' == w.(store := w'.store) && w'.store.receipts.Keys == w.store.receipts.Keys + {id}
    ensures w'.store.byTenant.Keys == w.store.byTenant.Keys + {tenant}
    ensures Scene(w', tenant, period, ids + [id], sum + vat)
    ensures Stamped(w') == Stamped(w) && Arrived(u, w') == Arrived(u, w)
  {
    hide Scene, GoodSetup, Inv, ListsExact, StampedParts;
    var ev := FederalReceipt(id, tenant, period, vat);
    w' := w.(store := Put(w.store, Received(id, tenant, period, vat)));
    assert Inv(u, w) && Steps(u, w, ev, w');
    assert Inv(u, w');
    InvLists(u, w);
    IngestShort(u, w, ev, w', Federal);
    ArrivesScene(w, w', id, tenant, period, ids, sum, vat);
  }

  lemma InvLists(u: Setup, w: World)
    requires Inv(u, w)
    ensures ListsExact(w.store)
  {
  }

  lemma ArrivesScene(w: World, w': World, id: string, tenant: string, period: string, ids: seq<string>, sum: int,
                     vat: int)
    requires ListsExact(w.store) && id !in w.store.receipts && Scene(w, tenant, period, ids, sum)
    requires w' == w.(store := Put(w.store, Received(id, tenant, period, vat)))
    ensures Scene(w', tenant, period, ids + [id], sum + vat)
  {
    var front := Listed(w.store, tenant);
    ListedKnown(w.store, tenant);
    TallySame(w.store, w'.store, front, period);
    TallyLast(w'.store, front, id, tenant, vat, period);
    assert Listed(w'.store, tenant) == front + [id];
  }

  function NextId(u: Setup, w: World, tenant: string, period: string): string {
    PendingId(u, tenant, period, Federal, NextSupplement(w, SettledKey(tenant, period)))
  }

  /** The federal receipts are settled: their VAT is stamped, and arrives unless the id is posted already. */
  lemma Settles(u: Setup, reach: (seq<Event>, World) -> bool, evs: seq<Event>, w: World,
                tenant: string, period: string, ids: seq<string>, vat: int) returns (ev: Event, w': World)
    requires GoodSetup(u) && Closed(u, reach) && reach(evs, w) && tenant != "" && ids != [] && vat > 0
    requires Scene(w, tenant, period, ids, vat)
    requires NextId(u, w, tenant, period) !in w.ledger.transfers || IsPosted(w.ledger, NextId(u, w, tenant, period))
    ensures IsSettle(ev, tenant, period, true) && reach(evs + [ev], w')
    ensures IsPosted(w'.ledger, NextId(u, w, tenant, period)) && Stamped(w') == Stamped(w) + vat
    ensures Arrived(u, w') == Arrived(u, w) + if IsPosted(w.ledger, NextId(u, w, tenant, period)) then 0 else vat
    ensures w'.markers
      == w.markers[SettledKey(tenant, period) := Marker(true, NextSupplement(w, SettledKey(tenant, period)))]
    ensures w'.store.receipts.Keys == w.store.receipts.Keys && w'.store.byTenant == w.store.byTenant
    ensures Scene(w', tenant, period, [], 0) && KeepsPosted(w.ledger, w'.ledger)
    ensures OthersFree(u, w.ledger, w'.ledger, tenant, period, NextSupplement(w, SettledKey(tenant, period)))
  {
    hide Inv, GoodSetup, PendingId, HoldsEnough, Steps, StampedParts;
    var order := Listed(w.store, tenant);
    var plan := PlanOf(w, tenant, period, order);
    var key := SettledKey(tenant, period);
    assert Inv(u, w);
    NothingHeld(u, w.ledger, plan);
    ev, w' := SettleThrough(u, w, tenant, period, order);
    ThroughPays(u, w, ev, w');
    SettledScene(w, w', order, period, key);
  }

  ghost predicate KeepsPosted(l: Ledger, l': Ledger) {
    forall id :: IsPosted(l, id) ==> IsPosted(l', id)
  }

  /** Federal ids of the tenant and period with another number stay unused. */
  ghost predicate OthersFree(u: Setup, l: Ledger, l': Ledger, tenant: string, period: string, n: nat) {
    forall supp: nat :: supp != n && PendingId(u, tenant, period, Federal, supp) !in l.transfers ==>
      PendingId(u, tenant, period, Federal, supp) !in l'.transfers
  }

  lemma AttemptKeepsFree(u: Setup, l: Ledger, plan: Plan, evs: seq<Saga.Event>, s: Saga.System)
    requires GoodSetup(u) && LedgerOk(u, l) && EntriesOwn(u, l)
    requires Saga.Reachable(Opened(u, l), PlanArgs(u, plan), evs, s)
    ensures OthersFree(u, l, s.l, plan.tenant, plan.period, plan.supp)
  {
    hide PendingId, GoodSetup, LedgerOk, EntriesOwn, Opened, PlanArgs;
    forall supp: nat | supp != plan.supp && PendingId(u, plan.tenant, plan.period, Federal, supp) !in l.transfers
      ensures PendingId(u, plan.tenant, plan.period, Federal, supp) !in s.l.transfers
    {
      var id := PendingId(u, plan.tenant, plan.period, Federal, supp);
      forall other
        ensures id != PlanId(u, plan, other)
      {
        PendingIdSame(u, plan.tenant, plan.period, Federal, supp, plan.tenant, plan.period, other, plan.supp);
      }
      AttemptKeepsOthers(u, l, plan, evs, s, id);
    }
  }

  /** What a settlement that goes through does to the federal side. */
  lemma ThroughPays(u: Setup, w: World, ev: Event, w': World)
    requires GoodSetup(u) && Inv(u, w) && Inv(u, w') && Steps(u, w, ev, w') && Settling(w, ev)
    ensures var plan := PlanOf(w, ev.tenant, ev.period, ev.order);
      var vat := plan.sums.legs.federal;
      && Stamped(w') == Stamped(w) + vat
      && Arrived(u, w') == Arrived(u, w) + (if IsPosted(w.ledger, PlanId(u, plan, Federal)) then 0 else vat)
      && (vat > 0 ==> IsPosted(w'.ledger, PlanId(u, plan, Federal)))
      && KeepsPosted(w.ledger, w'.ledger)
      && OthersFree(u, w.ledger, w'.ledger, plan.tenant, plan.period, plan.supp)
  {
    hide GoodSetup, PendingId, PlanOf, Proceeds, LedgerOk, EntriesOwn, StoreOk, StampedParts, OthersFree;
    var plan := PlanOf(w, ev.tenant, ev.period, ev.order);
    StampedAfter(u, w, ev, w', Federal);
    AttemptKeepsFree(u, w.ledger, plan, ev.evs, ev.s);
    AttemptPays(u, w.ledger, plan, ev.evs, ev.s, Federal);
    AttemptKeepsLedger(u, w.ledger, plan, ev.evs, ev.s);
  }

  lemma SettledScene(w: World, w': World, order: seq<string>, period: string, key: string)
    requires w'.store == Mark(w.store, TallyOf(w.store, order, period).ids, key) && key != ""
    ensures w'.store.receipts.Keys == w.store.receipts.Keys && w'.store.byTenant == w.store.byTenant
    ensures TallyOf(w'.store, order, period).ids == [] && TallyOf(w'.store, order, period).legs == NO_LEGS
  {
    TallyExact(w.store, order, period);
    MarkAt(w.store, TallyOf(w.store, order, period).ids, key);
    SettledLeavesNothing(w.store, order, period, key);
  }

  /** The settlement is cut short before it pays. */
  lemma CutShort(u: Setup, reach: (seq<Event>, World) -> bool, evs: seq<Event>, w: World,
                 tenant: string, period: string, ids: seq<string>, vat: int) returns (ev: Event, w': World)
    requires GoodSetup(u) && Closed(u, reach) && reach(evs, w) && tenant != "" && ids != []
    requires Scene(w, tenant, period, ids, vat)
    ensures IsSettle(ev, tenant, period, false) && reach(evs + [ev], w')
    ensures w'.store == w.store && Scene(w', tenant, period, ids, vat)
    ensures w'.ledger.transfers == w.ledger.transfers && Arrived(u, w') == Arrived(u, w)
    ensures w'.markers
      == w.markers[SettledKey(tenant, period) := Marker(false, NextSupplement(w, SettledKey(tenant, period)))]
  {
    hide Inv, GoodSetup, SettledKey, Steps;
    assert Inv(u, w);
    ev, w' := SettleNot(u, w, tenant, period, Listed(w.store, tenant));
  }

  /** The settlement is cut short after it has paid. */
  lemma CutLate(u: Setup, reach: (seq<Event>, World) -> bool, evs: seq<Event>, w: World,
                tenant: string, period: string, ids: seq<string>, vat: int) returns (ev: Event, w': World)
    requires GoodSetup(u) && Closed(u, reach) && reach(evs, w) && tenant != "" && ids != [] && vat > 0
    requires Scene(w, tenant, period, ids, vat) && NextId(u, w, tenant, period) !in w.ledger.transfers
    ensures IsSettle(ev, tenant, period, false) && reach(evs + [ev], w')
    ensures w'.store == w.store && Scene(w', tenant, period, ids, vat)
    ensures IsPosted(w'.ledger, NextId(u, w, tenant, period)) && Arrived(u, w') == Arrived(u, w) + vat
    ensures w'.markers
      == w.markers[SettledKey(tenant, period) := Marker(false, NextSupplement(w, SettledKey(tenant, period)))]
    ensures KeepsPosted(w.ledger, w'.ledger)
  {
    hide Inv, GoodSetup, PendingId, SettledKey, HoldsEnough, Steps;
    var order := Listed(w.store, tenant);
    var plan := PlanOf(w, tenant, period, order);
    assert Inv(u, w);
    NothingHeld(u, w.ledger, plan);
    ev, w' := SettleAlmost(u, w, tenant, period, order);
    CutOffPays(u, w, ev, w');
  }

  lemma CutOffPays(u: Setup, w: World, ev: Event, w': World)
    requires GoodSetup(u) && Inv(u, w) && Steps(u, w, ev, w') && CutOff(w, ev)
    ensures LegPaid(u, w.ledger, PlanOf(w, ev.tenant, ev.period, ev.order), w'.ledger, Federal)
    ensures KeepsPosted(w.ledger, w'.ledger)
  {
    hide GoodSetup, PendingId, PlanOf, Proceeds, LedgerOk, EntriesOwn, StoreOk, LegPaid;
    var plan := PlanOf(w, ev.tenant, ev.period, ev.order);
    AttemptPays(u, w.ledger, plan, ev.evs, ev.s, Federal);
    AttemptKeepsLedger(u, w.ledger, plan, ev.evs, ev.s);
  }

  // ----- The runs -----

  /** The start, as far as the runs need it. */
  ghost predicate Blank(u: Setup, w: World) {
    && w.store.receipts == map[] && w.store.byTenant == map[] && w.ledger.transfers == map[] && w.markers == map[]
    && Stamped(w) == 0 && Arrived(u, w) == 0
  }

  lemma StartBlank(u: Setup)
    requires GoodSetup(u)
    ensures Blank(u, Start(u))
  {
    assert StampedParts(Start(u).store, Federal) == map[];
  }

  lemma BlankScene(w: World, tenant: string, period: string)
    requires tenant !in w.store.byTenant
    ensures Scene(w, tenant, period, [], 0)
  {
  }

  /** A first receipt comes in and is settled. */
  lemma SettledOnce(u: Setup, reach: (seq<Event>, World) -> bool, w: World, tenant: string, period: string, x: int)
    returns (ev: Event, w2: World)
    requires GoodSetup(u) && Closed(u, reach) && reach([], w) && Blank(u, w) && tenant != "" && x > 0
    ensures IsSettle(ev, tenant, period, true) && reach([FederalReceipt("a", tenant, period, x), ev], w2)
    ensures w2.store.receipts.Keys == {"a"} && w2.store.byTenant.Keys == {tenant} && Scene(w2, tenant, period, [], 0)
    ensures w2.markers == map[SettledKey(tenant, period) := Marker(true, 0)]
    ensures IsPosted(w2.ledger, PendingId(u, tenant, period, Federal, 0))
    ensures PendingId(u, tenant, period, Federal, 1) !in w2.ledger.transfers
    ensures Stamped(w2) == x && Arrived(u, w2) == x
  {
    hide Scene, Stamped, Arrived, PendingId, SettledKey, GoodSetup, Closed, IsSettle;
    BlankScene(w, tenant, period);
    var e1 := [] + [FederalReceipt("a", tenant, period, x)];
    var w1 := Arrives(u, reach, [], w, "a", tenant, period, [], 0, x);
    ev, w2 := Settles(u, reach, e1, w1, tenant, period, [] + ["a"], 0 + x);
    assert e1 + [ev] == [FederalReceipt("a", tenant, period, x), ev];
  }

  lemma SupplementRun(u: Setup, reach: (seq<Event>, World) -> bool, w: World, tenant: string, period: string,
                      x: int, y: int) returns (s1: Event, s2: Event, s3: Event, w5: World)
    requires GoodSetup(u) && Closed(u, reach) && reach([], w) && Blank(u, w) && tenant != "" && x > 0 && y > 0
    ensures IsSettle(s1, tenant, period, true) && IsSettle(s2, tenant, period, false)
    ensures IsSettle(s3, tenant, period, true)
    ensures reach([FederalReceipt("a", tenant, period, x), s1, FederalReceipt("b", tenant, period, y), s2, s3], w5)
    ensures Stamped(w5) == x + y && Arrived(u, w5) == x
  {
    hide Scene, Stamped, Arrived, PendingId, SettledKey, GoodSetup, Closed, IsSettle;
    var w2, w3, w4;
    var a, b := FederalReceipt("a", tenant, period, x), FederalReceipt("b", tenant, period, y);
    s1, w2 := SettledOnce(u, reach, w, tenant, period, x);
    w3 := Arrives(u, reach, [a, s1], w2, "b", tenant, period, [], 0, y);
    s2, w4 := CutShort(u, reach, [a, s1] + [b], w3, tenant, period, [] + ["b"], 0 + y);
    StoreStamped(w3, w4);
    s3, w5 := Settles(u, reach, [a, s1] + [b] + [s2], w4, tenant, period, [] + ["b"], 0 + y);
    assert [a, s1] + [b] + [s2] + [s3] == [a, s1, b, s2, s3];
  }

  /** Receipt "a" is settled. The late receipt "b" comes in, and its supplemental settlement is cut short before it pays
      anything. The next run takes itself for the initial settlement, finds the federal leg posted, and stamps "b": the
      stamped receipts are worth x + y, and x has arrived. */
  lemma InterruptedSupplementLosesVat(u: Setup, tenant: string, period: string, x: int, y: int)
    returns (s1: Event, s2: Event, s3: Event, w: World)
    requires GoodSetup(u) && tenant != "" && x > 0 && y > 0
    ensures IsSettle(s1, tenant, period, true) && IsSettle(s2, tenant, period, false)
    ensures IsSettle(s3, tenant, period, true)
    ensures Reaches(u, [FederalReceipt("a", tenant, period, x), s1, FederalReceipt("b", tenant, period, y), s2, s3], w)
    ensures Total(StampedParts(w.store, Federal)) == x + y && Credits(w.ledger, u.pool(Federal)) == x
  {
    ReachesClosed(u);
    StartBlank(u);
    s1, s2, s3, w := SupplementRun(u, (evs, w) => Reaches(u, evs, w), Start(u), tenant, period, x, y);
  }

  lemma KeysDiffer(p: string, q: string, r: string)
    ensures SettledKey(p + ":" + q, r) != SettledKey(p, q + ":" + r) && p + ":" + q != p
  {
    assert SettledKey(p + ":" + q, r)[|p|] == ':' && SettledKey(p, q + ":" + r)[|p|] == '|';
    assert |p + ":" + q| > |p|;
  }

  lemma SharedRun(u: Setup, reach: (seq<Event>, World) -> bool, w: World,
                  t: string, p: string, t': string, p': string, x: int, y: int)
    returns (s1: Event, s2: Event, w4: World)
    requires GoodSetup(u) && Closed(u, reach) && reach([], w) && Blank(u, w) && x > 0 && y > 0
    requires t != "" && t' != "" && t != t' && SettledKey(t, p) != SettledKey(t', p') && Joined(t, p) == Joined(t', p')
    ensures IsSettle(s1, t, p, true) && IsSettle(s2, t', p', true)
    ensures reach([FederalReceipt("a", t, p, x), s1, FederalReceipt("b", t', p', y), s2], w4)
    ensures Stamped(w4) == x + y && Arrived(u, w4) == x
  {
    hide Scene, Stamped, Arrived, PendingId, SettledKey, GoodSetup, Closed, IsSettle;
    var w2, w3;
    var a, b := FederalReceipt("a", t, p, x), FederalReceipt("b", t', p', y);
    s1, w2 := SettledOnce(u, reach, w, t, p, x);
    BlankScene(w2, t', p');
    w3 := Arrives(u, reach, [a, s1], w2, "b", t', p', [], 0, y);
    PendingIdSame(u, t, p, Federal, 0, t', p', Federal, 0);
    s2, w4 := Settles(u, reach, [a, s1] + [b], w3, t', p', [] + ["b"], 0 + y);
    assert [a, s1] + [b] + [s2] == [a, s1, b, s2];
  }

  /** Tenants "p" and "p:q" join alike with the periods "q:r" and "r". After the first has settled, the second one's
      receipt is stamped and its VAT is in no pool. */
  lemma SharedNamesLoseVat(u: Setup, p: string, q: string, r: string, x: int, y: int)
    returns (s1: Event, s2: Event, w: World)
    requires GoodSetup(u) && p != "" && x > 0 && y > 0
    ensures IsSettle(s1, p, q + ":" + r, true) && IsSettle(s2, p + ":" + q, r, true)
    ensures Reaches(u, [FederalReceipt("a", p, q + ":" + r, x), s1, FederalReceipt("b", p + ":" + q, r, y), s2], w)
    ensures Total(StampedParts(w.store, Federal)) == x + y && Credits(w.ledger, u.pool(Federal)) == x
  {
    ReachesClosed(u);
    StartBlank(u);
    KeysDiffer(p, q, r);
    JoinedAmbiguous(p, q, r);
    s1, s2, w := SharedRun(u, (evs, w) => Reaches(u, evs, w), Start(u), p, q + ":" + r, p + ":" + q, r, x, y);
  }

  lemma GrownRun(u: Setup, reach: (seq<Event>, World) -> bool, w: World, tenant: string, period: string, x: int, y: int)
    returns (s1: Event, s2: Event, w4: World)
    requires GoodSetup(u) && Closed(u, reach) && reach([], w) && Blank(u, w) && tenant != "" && x > 0 && y > 0
    ensures IsSettle(s1, tenant, period, false) && IsSettle(s2, tenant, period, true)
    ensures reach([FederalReceipt("a", tenant, period, x), s1, FederalReceipt("b", tenant, period, y), s2], w4)
    ensures Stamped(w4) == x + y && Arrived(u, w4) == x
  {
    hide Scene, Stamped, Arrived, PendingId, SettledKey, GoodSetup, Closed, IsSettle;
    BlankScene(w, tenant, period);
    var w1, w2, w3;
    var a, b := FederalReceipt("a", tenant, period, x), FederalReceipt("b", tenant, period, y);
    w1 := Arrives(u, reach, [], w, "a", tenant, period, [], 0, x);
    s1, w2 := CutLate(u, reach, [] + [a], w1, tenant, period, [] + ["a"], 0 + x);
    StoreStamped(w1, w2);
    w3 := Arrives(u, reach, [] + [a] + [s1], w2, "b", tenant, period, [] + ["a"], 0 + x, y);
    s2, w4 := Settles(u, reach, [] + [a] + [s1] + [b], w3, tenant, period, [] + ["a"] + ["b"], 0 + x + y);
    assert [] + [a] + [s1] + [b] + [s2] == [a, s1, b, s2];
  }

  lemma StoreStamped(w: World, w': World)
    requires w.store == w'.store
    ensures Stamped(w) == Stamped(w')
  {
  }

  /** An initial settlement is cut short after its federal posting and a further receipt comes in. The resume finds the
      leg posted at the old amount and stamps both receipts: the second one's VAT is in no pool. */
  lemma GrownResumeLosesVat(u: Setup, tenant: string, period: string, x: int, y: int)
    returns (s1: Event, s2: Event, w: World)
    requires GoodSetup(u) && tenant != "" && x > 0 && y > 0
    ensures IsSettle(s1, tenant, period, false) && IsSettle(s2, tenant, period, true)
    ensures Reaches(u, [FederalReceipt("a", tenant, period, x), s1, FederalReceipt("b", tenant, period, y), s2], w)
    ensures Total(StampedParts(w.store, Federal)) == x + y && Credits(w.ledger, u.pool(Federal)) == x
  {
    ReachesClosed(u);
    StartBlank(u);
    s1, s2, w := GrownRun(u, (evs, w) => Reaches(u, evs, w), Start(u), tenant, period, x, y);
  }

  // ----- A supplement cut short after its posting -----

  /** A late receipt's supplement is cut short after its posting and resumed as the initial settlement. */
  lemma LateRun(u: Setup, reach: (seq<Event>, World) -> bool, w: World, tenant: string, period: string, x: int, y: int)
    returns (s1: Event, s2: Event, s3: Event, w5: World)
    requires GoodSetup(u) && Closed(u, reach) && reach([], w) && Blank(u, w) && tenant != "" && x > 0 && y > 0
    ensures IsSettle(s1, tenant, period, true) && IsSettle(s2, tenant, period, false)
    ensures IsSettle(s3, tenant, period, true)
    ensures reach([FederalReceipt("a", tenant, period, x), s1, FederalReceipt("b", tenant, period, y), s2, s3], w5)
    ensures Stamped(w5) == x + y && Arrived(u, w5) == x + y
    ensures w5.store.receipts.Keys == {"a", "b"} && Scene(w5, tenant, period, [], 0)
    ensures w5.markers == map[SettledKey(tenant, period) := Marker(true, 0)]
    ensures IsPosted(w5.ledger, PendingId(u, tenant, period, Federal, 1))
  {
    hide Scene, Stamped, Arrived, PendingId, SettledKey, GoodSetup, Closed, IsSettle;
    var w2, w3, w4;
    var a, b := FederalReceipt("a", tenant, period, x), FederalReceipt("b", tenant, period, y);
    s1, w2 := SettledOnce(u, reach, w, tenant, period, x);
    w3 := Arrives(u, reach, [a, s1], w2, "b", tenant, period, [], 0, y);
    s2, w4 := CutLate(u, reach, [a, s1] + [b], w3, tenant, period, [] + ["b"], 0 + y);
    StoreStamped(w3, w4);
    s3, w5 := Settles(u, reach, [a, s1] + [b] + [s2], w4, tenant, period, [] + ["b"], 0 + y);
    assert [a, s1] + [b] + [s2] + [s3] == [a, s1, b, s2, s3];
  }

  lemma NextRun(u: Setup, reach: (seq<Event>, World) -> bool, evs: seq<Event>, w: World, tenant: string, period: string,
                z: int) returns (s4: Event, w2: World)
    requires GoodSetup(u) && Closed(u, reach) && reach(evs, w) && tenant != "" && z > 0
    requires w.store.receipts.Keys == {"a", "b"} && Scene(w, tenant, period, [], 0)
    requires w.markers == map[SettledKey(tenant, period) := Marker(true, 0)]
    requires IsPosted(w.ledger, PendingId(u, tenant, period, Federal, 1))
    ensures IsSettle(s4, tenant, period, true) && reach(evs + [FederalReceipt("c", tenant, period, z)] + [s4], w2)
    ensures Stamped(w2) == Stamped(w) + z && Arrived(u, w2) == Arrived(u, w)
  {
    hide Scene, Stamped, Arrived, PendingId, SettledKey, GoodSetup, Closed, IsSettle;
    var w1 := Arrives(u, reach, evs, w, "c", tenant, period, [], 0, z);
    s4, w2 := Settles(u, reach, evs + [FederalReceipt("c", tenant, period, z)], w1, tenant, period, [] + ["c"], 0 + z);
  }

  /** Receipt "a" is settled. The supplemental settlement of the late receipt "b" is cut short after its posting, and
      the resume as the initial settlement stamps "b": nothing is lost, x + y is stamped and has arrived. But the
      number 1 is free again and its id is posted, so the supplement of the next receipt "c" stamps it and pays
      nothing. */
  lemma LateSupplementLosesNext(u: Setup, tenant: string, period: string, x: int, y: int, z: int)
    returns (s1: Event, s2: Event, s3: Event, s4: Event, w: World, w': World)
    requires GoodSetup(u) && tenant != "" && x > 0 && y > 0 && z > 0
    ensures IsSettle(s1, tenant, period, true) && IsSettle(s2, tenant, period, false)
    ensures IsSettle(s3, tenant, period, true) && IsSettle(s4, tenant, period, true)
    ensures var evs := [FederalReceipt("a", tenant, period, x), s1, FederalReceipt("b", tenant, period, y), s2, s3];
      Reaches(u, evs, w) && Reaches(u, evs + [FederalReceipt("c", tenant, period, z)] + [s4], w')
    ensures Total(StampedParts(w.store, Federal)) == x + y && Credits(w.ledger, u.pool(Federal)) == x + y
    ensures Total(StampedParts(w'.store, Federal)) == x + y + z && Credits(w'.ledger, u.pool(Federal)) == x + y
  {
    hide GoodSetup, IsSettle, Closed, PendingId, SettledKey, Scene, Start, Reaches, Blank, FederalReceipt;
    ReachesClosed(u);
    StartBlank(u);
    var reach: (seq<Event>, World) -> bool := (evs, w) => Reaches(u, evs, w);
    s1, s2, s3, w := LateRun(u, reach, Start(u), tenant, period, x, y);
    var evs := [FederalReceipt("a", tenant, period, x), s1, FederalReceipt("b", tenant, period, y), s2, s3];
    s4, w' := NextRun(u, reach, evs, w, tenant, period, z);
  }
}
