/** Histories in which no settlement is cut short: the pools are exact if and only if no two settlements share a pending
    id with something to pay. */
module SettlementHistories {
  import opened MapSums
  import opened Attribution
  import opened ReceiptStore
  import opened TransferNames
  import opened SagaPayments
  import opened Settlement
  import opened SettlementConservation
  import Saga = SettlementSaga

  // ----- Histories without interruptions -----

  /** Some recorded settlement has paid a leg under this text and supplement number. */
  predicate Remitted(recons: seq<Recon>, joined: string, leg: LegName, supp: nat) {
    recons != [] &&
    var last := recons[|recons| - 1];
    || Remitted(recons[..|recons| - 1], joined, leg, supp)
    || (Joined(last.tenant, last.period) == joined && last.supp == supp && Amount(last.sums.legs, leg) > 0)
  }

  /** No settlement pays a leg that an earlier one has paid under the same text and number. */
  predicate NoClash(recons: seq<Recon>) {
    recons == [] ||
    var front, last := recons[..|recons| - 1], recons[|recons| - 1];
    NoClash(front) && ClashFree(front, last, Federal) && ClashFree(front, last, State) && ClashFree(front, last, Lga)
  }

  predicate ClashFree(recons: seq<Recon>, r: Recon, leg: LegName) {
    Amount(r.sums.legs, leg) > 0 ==> !Remitted(recons, Joined(r.tenant, r.period), leg, r.supp)
  }

  lemma RemittedNext(recons: seq<Recon>, r: Recon, joined: string, leg: LegName, supp: nat)
    ensures Remitted(recons + [r], joined, leg, supp)
       <==> Remitted(recons, joined, leg, supp)
            || (Joined(r.tenant, r.period) == joined && r.supp == supp && Amount(r.sums.legs, leg) > 0)
  {
    assert (recons + [r])[..|recons|] == recons;
  }

  lemma NoClashNext(recons: seq<Recon>, r: Recon)
    ensures NoClash(recons + [r]) <==> NoClash(recons) && forall leg :: ClashFree(recons, r, leg)
  {
    assert (recons + [r])[..|recons|] == recons;
    assert (forall leg :: ClashFree(recons, r, leg))
      <==> ClashFree(recons, r, Federal) && ClashFree(recons, r, State) && ClashFree(recons, r, Lga) by {
      forall leg | ClashFree(recons, r, Federal) && ClashFree(recons, r, State) && ClashFree(recons, r, Lga)
        ensures ClashFree(recons, r, leg)
      {
        assert leg == Federal || leg == State || leg == Lga;
      }
    }
  }

  /** Nothing is cut short: a settlement with something to do goes through. */
  predicate Uninterrupted(w: World, ev: Event) {
    ev.Settle? && Proceeds(PlanOf(w, ev.tenant, ev.period, ev.order)) ==> Done(ev)
  }

  ghost predicate NeverCutShort(evs: seq<Event>, ws: seq<World>) {
    forall i :: 0 <= i < |evs| && i < |ws| ==> Uninterrupted(ws[i], evs[i])
  }

  /** A pending id is posted exactly when a recorded settlement paid under it. */
  ghost predicate PostedByRecons(u: Setup, w: World) {
    forall t, p, leg, supp: nat ::
      IsPosted(w.ledger, PendingId(u, t, p, leg, supp)) <==> Remitted(w.recons, Joined(t, p), leg, supp)
  }

  lemma SettlePosts(u: Setup, w: World, ev: Event, w': World, t: string, p: string, leg: LegName, supp: nat)
    requires GoodSetup(u) && Inv(u, w) && Steps(u, w, ev, w') && Settling(w, ev)
    requires IsPosted(w.ledger, PendingId(u, t, p, leg, supp)) <==> Remitted(w.recons, Joined(t, p), leg, supp)
    ensures IsPosted(w'.ledger, PendingId(u, t, p, leg, supp)) <==> Remitted(w'.recons, Joined(t, p), leg, supp)
  {
    var plan := PlanOf(w, ev.tenant, ev.period, ev.order);
    var id := PendingId(u, t, p, leg, supp);
    RemittedNext(w.recons, Recon(plan.tenant, plan.period, plan.supp, plan.sums), Joined(t, p), leg, supp);
    PendingIdSame(u, t, p, leg, supp, plan.tenant, plan.period, leg, plan.supp);
    if id == PlanId(u, plan, leg) {
      AttemptPays(u, w.ledger, plan, ev.evs, ev.s, leg);
    } else {
      forall other
        ensures id != PlanId(u, plan, other)
      {
        PendingIdSame(u, t, p, leg, supp, plan.tenant, plan.period, other, plan.supp);
      }
      AttemptKeepsOthers(u, w.ledger, plan, ev.evs, ev.s, id);
    }
  }

  lemma StepPostsByRecons(u: Setup, w: World, ev: Event, w': World)
    requires GoodSetup(u) && Inv(u, w) && Steps(u, w, ev, w') && Uninterrupted(w, ev) && PostedByRecons(u, w)
    ensures PostedByRecons(u, w')
  {
    if Settling(w, ev) {
      forall t, p, leg, supp: nat
        ensures IsPosted(w'.ledger, PendingId(u, t, p, leg, supp)) <==> Remitted(w'.recons, Joined(t, p), leg, supp)
      {
        SettlePosts(u, w, ev, w', t, p, leg, supp);
      }
    }
  }

  lemma {:induction false} RunPostsByRecons(u: Setup, evs: seq<Event>, ws: seq<World>, n: nat)
    requires GoodSetup(u) && IsRun(u, evs, ws) && AllRegular(evs) && NeverCutShort(evs, ws) && n <= |evs|
    ensures PostedByRecons(u, ws[n])
    decreases n
  {
    if n > 0 {
      RunPostsByRecons(u, evs, ws, n - 1);
      RunInv(u, evs, ws, n - 1);
      StepPostsByRecons(u, ws[n - 1], evs[n - 1], ws[n]);
    }
  }

  lemma LegClashFree(u: Setup, w: World, ev: Event, leg: LegName)
    requires Inv(u, w) && PostedByRecons(u, w) && Settling(w, ev)
    ensures var plan := PlanOf(w, ev.tenant, ev.period, ev.order);
      ClashFree(w.recons, Recon(plan.tenant, plan.period, plan.supp, plan.sums), leg) <==> Missed(u, w, ev, leg) == 0
  {
    var plan := PlanOf(w, ev.tenant, ev.period, ev.order);
    TallyExact(w.store, ev.order, ev.period);
    RunSums(w.store, AllIds(w.recons), plan.sums.ids, SettledKey(ev.tenant, ev.period), leg);
    assert IsPosted(w.ledger, PendingId(u, plan.tenant, plan.period, leg, plan.supp))
      <==> Remitted(w.recons, Joined(plan.tenant, plan.period), leg, plan.supp);
  }

  /** Missing nothing is not having been paid for. */
  lemma SquareIsClashFree(u: Setup, w: World, ev: Event, w': World)
    requires Inv(u, w) && Steps(u, w, ev, w') && PostedByRecons(u, w) && Uninterrupted(w, ev)
    ensures NoClash(w'.recons) <==> NoClash(w.recons) && Square(u, w, ev)
  {
    if Settling(w, ev) {
      var plan := PlanOf(w, ev.tenant, ev.period, ev.order);
      var r := Recon(plan.tenant, plan.period, plan.supp, plan.sums);
      NoClashNext(w.recons, r);
      forall leg
        ensures ClashFree(w.recons, r, leg) <==> Missed(u, w, ev, leg) == 0 && Advanced(u, w, ev, leg) == 0
      {
        LegClashFree(u, w, ev, leg);
      }
    }
  }

  lemma {:induction false} ClashIff(u: Setup, evs: seq<Event>, ws: seq<World>, n: nat)
    requires GoodSetup(u) && IsRun(u, evs, ws) && AllRegular(evs) && NeverCutShort(evs, ws) && n <= |evs|
    ensures NoClash(ws[n].recons) <==> SquareUpTo(u, evs, ws, n)
    decreases n
  {
    if n > 0 {
      ClashIff(u, evs, ws, n - 1);
      RunInv(u, evs, ws, n - 1);
      RunPostsByRecons(u, evs, ws, n - 1);
      SquareIsClashFree(u, ws[n - 1], evs[n - 1], ws[n]);
      LastOne(u, evs, ws, n);
    }
  }

  /** Uninterrupted settlements never pay ahead, so a shortfall is never made good. */
  lemma StepLosesOnly(u: Setup, w: World, ev: Event, w': World)
    requires GoodSetup(u) && Inv(u, w) && Inv(u, w') && Steps(u, w, ev, w') && Uninterrupted(w, ev)
    requires forall leg :: Short(u, w, leg) >= 0
    ensures forall leg :: Short(u, w', leg) >= 0
    ensures PoolsExact(u, w') ==> PoolsExact(u, w)
  {
    hide Inv, Steps, GoodSetup, PlanOf, Proceeds, Missed;
    forall leg
      ensures Short(u, w', leg) >= Short(u, w, leg)
    {
      StepShort(u, w, ev, w', leg);
    }
    forall leg | PoolsExact(u, w')
      ensures Credits(w.ledger, u.pool(leg)) == Total(StampedParts(w.store, leg))
    {
      assert Credits(w'.ledger, u.pool(leg)) == Total(StampedParts(w'.store, leg));
      assert Short(u, w', leg) >= Short(u, w, leg) >= 0;
    }
  }

  lemma {:induction false} ExactStaysExact(u: Setup, evs: seq<Event>, ws: seq<World>, n: nat)
    requires GoodSetup(u) && IsRun(u, evs, ws) && AllRegular(evs) && NeverCutShort(evs, ws) && n <= |evs|
    ensures forall leg :: Short(u, ws[n], leg) >= 0
    ensures PoolsExact(u, ws[n]) ==> ExactUpTo(u, ws, n)
    decreases n
  {
    hide Inv, Steps, GoodSetup, PoolsExact, Uninterrupted, Start;
    if n == 0 {
      forall leg
        ensures Short(u, ws[0], leg) >= 0
      {
        StartShort(u, leg);
      }
    } else {
      ExactStaysExact(u, evs, ws, n - 1);
      RunInv(u, evs, ws, n - 1);
      RunInv(u, evs, ws, n);
      StepLosesOnly(u, ws[n - 1], evs[n - 1], ws[n]);
      LastOne(u, evs, ws, n);
    }
  }

  /** When no settlement is cut short, the pools hold exactly the stamped parts at the end, and at every point before,
      if and only if no two recorded settlements of one joined text and one number both have something to pay for a
      leg. */
  lemma UninterruptedConserves(u: Setup, evs: seq<Event>, ws: seq<World>)
    requires GoodSetup(u) && IsRun(u, evs, ws) && AllRegular(evs) && NeverCutShort(evs, ws)
    ensures PoolsExact(u, ws[|evs|]) <==> NoClash(ws[|evs|].recons)
    ensures (forall i :: 0 <= i < |ws| ==> PoolsExact(u, ws[i])) <==> NoClash(ws[|evs|].recons)
  {
    hide PoolsExact, Square, Steps, GoodSetup, NoClash;
    ExactIff(u, evs, ws, |evs|);
    ClashIff(u, evs, ws, |evs|);
    ExactStaysExact(u, evs, ws, |evs|);
  }

  // ----- Settlements that the text keeps apart -----

  predicate PairsApart(r: Recon, r': Recon) {
    Joined(r.tenant, r.period) == Joined(r'.tenant, r'.period) ==> r.tenant == r'.tenant && r.period == r'.period
  }

  /** Different tenants and periods that have settled join to different texts. */
  ghost predicate Apart(recons: seq<Recon>) {
    forall i, j :: 0 <= i < |recons| && 0 <= j < |recons| ==> PairsApart(recons[i], recons[j])
  }

  /** The marker counts every settlement of its tenant and period. */
  ghost predicate Numbered(w: World) {
    forall i :: 0 <= i < |w.recons| ==> CountedBy(w.markers, w.recons[i])
  }

  predicate CountedBy(markers: map<string, Marker>, r: Recon) {
    var key := SettledKey(r.tenant, r.period);
    key in markers && markers[key].settled && r.supp <= markers[key].supplements
  }

  lemma StepNumbers(u: Setup, w: World, ev: Event, w': World)
    requires Numbered(w) && Steps(u, w, ev, w') && Uninterrupted(w, ev)
    ensures Numbered(w')
  {
    forall i | 0 <= i < |w'.recons|
      ensures CountedBy(w'.markers, w'.recons[i])
    {
      if i < |w.recons| {
        assert CountedBy(w.markers, w.recons[i]);
      }
    }
  }

  predicate SameName(r: Recon, joined: string, supp: nat) {
    Joined(r.tenant, r.period) == joined && r.supp == supp
  }

  lemma {:induction false} NotRemitted(recons: seq<Recon>, joined: string, leg: LegName, supp: nat)
    requires forall i :: 0 <= i < |recons| ==> !SameName(recons[i], joined, supp)
    ensures !Remitted(recons, joined, leg, supp)
    decreases |recons|
  {
    if recons != [] {
      NotRemitted(recons[..|recons| - 1], joined, leg, supp);
    }
  }

  /** A settlement that the markers number afresh has no earlier one of its name. */
  lemma NumberedAfresh(markers: map<string, Marker>, r: Recon, r': Recon)
    requires CountedBy(markers, r) && PairsApart(r, r')
    requires var key := SettledKey(r'.tenant, r'.period);
      key in markers && markers[key].settled ==> r'.supp == markers[key].supplements + 1
    ensures !SameName(r, Joined(r'.tenant, r'.period), r'.supp)
  {
  }

  lemma StepNoClash(u: Setup, w: World, ev: Event, w': World)
    requires Numbered(w) && Steps(u, w, ev, w') && Uninterrupted(w, ev) && NoClash(w.recons) && Apart(w'.recons)
    ensures NoClash(w'.recons)
  {
    if Settling(w, ev) {
      var plan := PlanOf(w, ev.tenant, ev.period, ev.order);
      var r := Recon(plan.tenant, plan.period, plan.supp, plan.sums);
      var joined := Joined(r.tenant, r.period);
      forall i | 0 <= i < |w.recons|
        ensures !SameName(w.recons[i], joined, r.supp)
      {
        assert w'.recons[i] == w.recons[i] && w'.recons[|w.recons|] == r;
        assert PairsApart(w'.recons[i], w'.recons[|w.recons|]);
        NumberedAfresh(w.markers, w.recons[i], r);
      }
      NoClashNext(w.recons, r);
      forall leg
        ensures ClashFree(w.recons, r, leg)
      {
        NotRemitted(w.recons, joined, leg, r.supp);
      }
    }
  }

  lemma {:induction false} RunNoClash(u: Setup, evs: seq<Event>, ws: seq<World>, n: nat)
    requires IsRun(u, evs, ws) && NeverCutShort(evs, ws) && n <= |evs| && Apart(ws[n].recons)
    ensures Numbered(ws[n]) && NoClash(ws[n].recons)
    decreases n
  {
    if n > 0 {
      ReconsGrow(u, ws[n - 1], evs[n - 1], ws[n]);
      RunNoClash(u, evs, ws, n - 1);
      StepNumbers(u, ws[n - 1], evs[n - 1], ws[n]);
      StepNoClash(u, ws[n - 1], evs[n - 1], ws[n]);
    }
  }

  lemma ReconsGrow(u: Setup, w: World, ev: Event, w': World)
    requires Steps(u, w, ev, w') && Apart(w'.recons)
    ensures w.recons <= w'.recons && Apart(w.recons)
  {
  }

  /** When no settlement is cut short and different tenants and periods join to different texts, nothing is lost and
      nothing remitted twice: at the end each pool holds exactly its parts of the stamped receipts, together their VAT,
      and each stamped receipt is in exactly one settlement. */
  lemma SettlementConserves(u: Setup, evs: seq<Event>, ws: seq<World>)
    requires GoodSetup(u) && IsRun(u, evs, ws) && AllRegular(evs) && NeverCutShort(evs, ws)
    requires Apart(ws[|evs|].recons)
    ensures var w := ws[|evs|];
      && (forall leg :: Credits(w.ledger, u.pool(leg)) == Total(StampedParts(w.store, leg)))
      && Credits(w.ledger, u.pool(Federal)) + Credits(w.ledger, u.pool(State)) + Credits(w.ledger, u.pool(Lga))
         == Total(StampedVats(w.store))
      && forall id :: Count(AllIds(w.recons), id) ==
                      if id in w.store.receipts && w.store.receipts[id].settledIn != "" then 1 else 0
  {
    RunNoClash(u, evs, ws, |evs|);
    UninterruptedConserves(u, evs, ws);
    RunInv(u, evs, ws, |evs|);
    PoolsHoldVat(u, ws[|evs|]);
  }

  // ----- Requests that settle nothing -----

  predicate HasPrefix(text: string, prefix: string) {
    |prefix| <= |text| && text[..|prefix|] == prefix
  }

  /** A listed receipt of the period that is not settled yet. */
  predicate Open(w: World, ev: Event, id: string)
    requires ev.Settle?
  {
    && id in ev.order && id in w.store.receipts && w.store.receipts[id].settledIn == ""
    && HasPrefix(w.store.receipts[id].capturedAt, ev.period)
  }

  /** A request for a period without receipts changes nothing. */
  lemma EmptyPeriod(u: Setup, w: World, ev: Event, w': World)
    requires ev.Settle? && Steps(u, w, ev, w')
    requires forall id :: id in ev.order && id in w.store.receipts ==>
      !HasPrefix(w.store.receipts[id].capturedAt, ev.period)
    ensures w' == w
  {
    hide After, Saga.Reachable, Listing;
    SelectsPeriod(w.store, ev.order, ev.period);
    TallyExact(w.store, ev.order, ev.period);
  }

  /** Nor does one for a settled period without new receipts. */
  lemma NothingNew(u: Setup, w: World, ev: Event, w': World)
    requires ev.Settle? && Steps(u, w, ev, w') && forall id :: !Open(w, ev, id)
    requires SettledKey(ev.tenant, ev.period) in w.markers && w.markers[SettledKey(ev.tenant, ev.period)].settled
    ensures w' == w
  {
    hide After, Saga.Reachable, Listing, SettledKey;
    SelectsPeriod(w.store, ev.order, ev.period);
    TallyExact(w.store, ev.order, ev.period);
    var ids := TallyOf(w.store, ev.order, ev.period).ids;
    assert |ids| > 0 ==> ids[0] in ids && Open(w, ev, ids[0]);
  }

  /** One with something unsettled is attempted, and the marker says whether it went through. */
  lemma SomethingToSettle(u: Setup, w: World, ev: Event, w': World, id: string)
    requires ev.Settle? && Steps(u, w, ev, w') && Open(w, ev, id)
    ensures var key := SettledKey(ev.tenant, ev.period); key in w'.markers && w'.markers[key].settled == Done(ev)
  {
    hide Saga.Reachable, Listing, SettledKey;
    SelectsPeriod(w.store, ev.order, ev.period);
    TallyExact(w.store, ev.order, ev.period);
    assert id in TallyOf(w.store, ev.order, ev.period).ids;
  }

  /** A new receipt is stored as it came, with its attribution, unsettled. */
  lemma IngestRecords(u: Setup, w: World, ev: Event, w': World)
    requires ev.Ingest? && Steps(u, w, ev, w') && ev.id !in w.store.receipts
    ensures ev.id in w'.store.receipts && w'.ledger == w.ledger && w'.markers == w.markers && w'.recons == w.recons
    ensures var r, legs := w'.store.receipts[ev.id], ComputeAttribution(ev.vat, ev.cfg).primary;
      && r.tenant == ev.tenant && r.capturedAt == ev.capturedAt && r.vat == ev.vat && r.platform == ev.platform
      && r.federal == legs.federal && r.state == legs.state && r.lga == legs.lga && r.settledIn == ""
      && r.mode == ev.cfg.mode
    ensures forall id :: id in w.store.receipts ==>
      id in w'.store.receipts && w'.store.receipts[id] == w.store.receipts[id]
  {
  }
}
