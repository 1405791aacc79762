/** Where the VAT goes: over every history of ingests and settlements in one process, cut short or not, what the pools
    hold against the stamped receipts, and exactly when nothing is lost. */
module SettlementConservation {
  import opened MapSums
  import opened Attribution
  import opened ReceiptStore
  import opened TransferNames
  import opened SagaPayments
  import opened Settlement
  import PosLedger
  import Saga = SettlementSaga

  // ----- What every step keeps, whatever the names and the interruptions -----

  function AllIds(recons: seq<Recon>): seq<string> {
    if recons == [] then [] else AllIds(recons[..|recons| - 1]) + recons[|recons| - 1].sums.ids
  }

  /** Within one process a receipt is listed once, under its tenant. */
  ghost predicate ListsExact(c: Contents) {
    forall t, id :: Times(c, t, id) == if id in c.receipts && c.receipts[id].tenant == t then 1 else 0
  }

  predicate GoodReceipt(r: Receipt, id: string) {
    && r.id == id && r.federal >= 0 && r.state >= 0 && RemittedLga(r) >= 0
    && r.federal + r.state + RemittedLga(r) == r.vat
  }

  ghost predicate ReceiptsGood(c: Contents) {
    forall id :: id in c.receipts ==> GoodReceipt(c.receipts[id], id)
  }

  /** Stamped receipts are exactly those of the recorded settlements, once each. */
  ghost predicate StampsExact(c: Contents, ids: seq<string>) {
    forall id :: Count(ids, id) == if id in c.receipts && c.receipts[id].settledIn != "" then 1 else 0
  }

  ghost predicate StoreOk(c: Contents, ids: seq<string>) {
    ListsExact(c) && ReceiptsGood(c) && StampsExact(c, ids)
  }

  ghost predicate LedgerOk(u: Setup, l: Ledger) {
    && PosLedger.KnownAccounts(l)
    && (forall leg :: u.pool(leg) in l.accounts)
    && (u.merchant in l.accounts ==> !l.accounts[u.merchant].flagged)
  }

  /** An entry under a pending id goes from the merchant to the pool of its leg. */
  ghost predicate EntriesOwn(u: Setup, l: Ledger) {
    forall t, p, leg, supp: nat :: PendingId(u, t, p, leg, supp) in l.transfers ==>
      EntryOwn(u, l.transfers[PendingId(u, t, p, leg, supp)], leg)
  }

  predicate EntryOwn(u: Setup, e: PosLedger.Entry, leg: LegName) {
    e.t.debit == u.merchant && e.t.credit == u.pool(leg) && e.state != PosLedger.Voided
  }

  ghost predicate Inv(u: Setup, w: World) {
    StoreOk(w.store, AllIds(w.recons)) && LedgerOk(u, w.ledger) && EntriesOwn(u, w.ledger)
  }

  // ----- Lists of ids -----

  lemma {:induction false} CountConcat(a: seq<string>, b: seq<string>, x: string)
    ensures Count(a + b, x) == Count(a, x) + Count(b, x)
    decreases |b|
  {
    if b == [] {
      assert a + b == a;
    } else {
      assert (a + b)[..|a + b| - 1] == a + b[..|b| - 1];
      CountConcat(a, b[..|b| - 1], x);
    }
  }

  lemma {:induction false} ListSumConcat(a: seq<string>, b: seq<string>, m: map<string, int>)
    ensures ListSum(a + b, m) == ListSum(a, m) + ListSum(b, m)
    decreases |b|
  {
    if b == [] {
      assert a + b == a;
    } else {
      assert (a + b)[..|a + b| - 1] == a + b[..|b| - 1];
      ListSumConcat(a, b[..|b| - 1], m);
    }
  }

  lemma {:induction false} ListSumNonNegative(ids: seq<string>, m: map<string, int>)
    requires forall id :: id in m ==> m[id] >= 0
    ensures ListSum(ids, m) >= 0
    decreases |ids|
  {
    if ids != [] {
      ListSumNonNegative(ids[..|ids| - 1], m);
    }
  }

  lemma {:induction false} PartsAddUp(c: Contents, ids: seq<string>)
    requires ReceiptsGood(c)
    ensures Sum(SumLegs(c, ids)) == ListSum(ids, Vats(c))
    decreases |ids|
  {
    if ids != [] {
      PartsAddUp(c, ids[..|ids| - 1]);
    }
  }

  lemma {:induction false} SelectedCount(c: Contents, order: seq<string>, period: string, id: string)
    ensures Count(Selected(c, order, period), id) == if Chosen(c, id, period) then Count(order, id) else 0
    decreases |order|
  {
    if order != [] {
      var front, last := order[..|order| - 1], order[|order| - 1];
      SelectedCount(c, front, period, id);
      SelectedNext(c, front, last, period);
      assert order == front + [last];
      if Chosen(c, last, period) {
        CountAppend(Selected(c, front, period), last, id);
      }
    }
  }

  lemma ListingOnce(c: Contents, tenant: string, order: seq<string>, id: string)
    requires ListsExact(c) && Listing(c, tenant, order)
    ensures Count(order, id) <= 1
  {
    if tenant != "" {
      assert Times(c, tenant, id) <= 1;
    }
  }

  // ----- Ingest -----

  lemma AttributeGood(ev: Event)
    requires ev.Ingest? && Regular(ev)
    ensures GoodReceipt(Attribute(ev.id, ev.tenant, ev.capturedAt, ev.vat, ev.cfg, ev.platform), ev.id)
  {
    LegsExact(ev.vat, ev.cfg);
  }

  lemma PutLists(c: Contents, r: Receipt)
    requires ListsExact(c) && r.id !in c.receipts
    ensures ListsExact(Put(c, r))
  {
    var c' := Put(c, r);
    forall t, id
      ensures Times(c', t, id) == if id in c'.receipts && c'.receipts[id].tenant == t then 1 else 0
    {
      EnterTimes(c, r, t, id);
      assert Times(c', t, id) == Times(Enter(c, r), t, id);
      assert Times(c, t, id) == if id in c.receipts && c.receipts[id].tenant == t then 1 else 0;
    }
  }

  lemma PutStamps(c: Contents, r: Receipt, ids: seq<string>)
    requires StampsExact(c, ids) && r.settledIn == "" && r.id !in c.receipts
    ensures StampsExact(Put(c, r), ids)
  {
  }

  /** An ingest changes no sum over settled receipts. */
  lemma PutSums(c: Contents, r: Receipt, ids: seq<string>, leg: LegName)
    requires StampsExact(c, ids) && r.id !in c.receipts
    ensures ListSum(ids, Parts(Put(c, r), leg)) == ListSum(ids, Parts(c, leg))
  {
    CountMember(ids, r.id);
    ListSumSame(ids, Parts(Put(c, r), leg), Parts(c, leg));
  }

  lemma PutKeepsStore(c: Contents, r: Receipt, ids: seq<string>)
    requires StoreOk(c, ids) && GoodReceipt(r, r.id) && r.settledIn == ""
    ensures StoreOk(Put(c, r), ids)
  {
    if r.id !in c.receipts {
      PutLists(c, r);
      PutStamps(c, r, ids);
    }
  }

  // ----- The stamps of a run -----

  lemma {:induction false} MarkAt(c: Contents, ids: seq<string>, key: string)
    ensures Mark(c, ids, key).byTenant == c.byTenant && Mark(c, ids, key).receipts.Keys == c.receipts.Keys
    ensures forall id :: id in c.receipts ==>
      Mark(c, ids, key).receipts[id] == if id in ids then c.receipts[id].(settledIn := key) else c.receipts[id]
    decreases |ids|
  {
    if ids != [] {
      MarkAt(c, ids[..|ids| - 1], key);
      assert ids == ids[..|ids| - 1] + [ids[|ids| - 1]];
    }
  }

  lemma MarkKeepsParts(c: Contents, ids: seq<string>, key: string)
    ensures forall leg :: Parts(Mark(c, ids, key), leg) == Parts(c, leg)
  {
    MarkAt(c, ids, key);
    forall leg
      ensures Parts(Mark(c, ids, key), leg) == Parts(c, leg)
    {
      assert forall id :: id in c.receipts ==> Part(Mark(c, ids, key).receipts[id], leg) == Part(c.receipts[id], leg);
    }
  }

  lemma MarkKeepsReceipts(c: Contents, ids: seq<string>, key: string)
    requires ReceiptsGood(c)
    ensures ReceiptsGood(Mark(c, ids, key))
  {
    MarkAt(c, ids, key);
  }

  lemma MarkKeepsLists(c: Contents, ids: seq<string>, key: string)
    requires ListsExact(c)
    ensures ListsExact(Mark(c, ids, key))
  {
    MarkAt(c, ids, key);
    var c' := Mark(c, ids, key);
    forall t, id
      ensures Times(c', t, id) == if id in c'.receipts && c'.receipts[id].tenant == t then 1 else 0
    {
      assert Times(c', t, id) == Times(c, t, id);
    }
  }

  lemma RunStamps(c: Contents, done: seq<string>, tenant: string, order: seq<string>, period: string, key: string)
    requires ListsExact(c) && Listing(c, tenant, order) && StampsExact(c, done) && key != ""
    ensures var ids := Selected(c, order, period); StampsExact(Mark(c, ids, key), done + ids)
  {
    var ids := Selected(c, order, period);
    MarkAt(c, ids, key);
    forall id
      ensures Count(done + ids, id) ==
        if id in Mark(c, ids, key).receipts && Mark(c, ids, key).receipts[id].settledIn != "" then 1 else 0
    {
      CountConcat(done, ids, id);
      SelectedCount(c, order, period, id);
      ListingOnce(c, tenant, order, id);
      CountMember(ids, id);
    }
  }

  lemma AllIdsAppend(recons: seq<Recon>, rec: Recon)
    ensures AllIds(recons + [rec]) == AllIds(recons) + rec.sums.ids
  {
    assert (recons + [rec])[..|recons|] == recons;
  }

  lemma SettleKeepsStore(w: World, tenant: string, period: string, order: seq<string>, rec: Recon)
    requires StoreOk(w.store, AllIds(w.recons)) && Listing(w.store, tenant, order)
    requires rec.sums.ids == Selected(w.store, order, period)
    ensures StoreOk(Mark(w.store, rec.sums.ids, SettledKey(tenant, period)), AllIds(w.recons + [rec]))
  {
    var key := SettledKey(tenant, period);
    MarkKeepsReceipts(w.store, rec.sums.ids, key);
    MarkKeepsLists(w.store, rec.sums.ids, key);
    RunStamps(w.store, AllIds(w.recons), tenant, order, period, key);
    AllIdsAppend(w.recons, rec);
  }

  // ----- The ledger -----

  function Index(leg: LegName): nat {
    match leg
    case Federal => 0
    case State => 1
    case Lga => 2
  }

  lemma PendingIdSame(u: Setup, t: string, p: string, leg: LegName, s: nat, t': string, p': string, leg': LegName,
                      s': nat)
    requires GoodSetup(u)
    ensures PendingId(u, t, p, leg, s) == PendingId(u, t', p', leg', s')
       <==> Joined(t, p) == Joined(t', p') && leg == leg' && s == s'
  {
    PendingNameSame(t, p, leg, s, t', p', leg', s');
  }

  lemma LegsDistinct(u: Setup, plan: Plan)
    requires GoodSetup(u)
    ensures DistinctLegs(PlanArgs(u, plan))
  {
    var t, p, s := plan.tenant, plan.period, plan.supp;
    PendingIdSame(u, t, p, Federal, s, t, p, State, s);
    PendingIdSame(u, t, p, Federal, s, t, p, Lga, s);
    PendingIdSame(u, t, p, State, s, t, p, Lga, s);
  }

  lemma PlanUsable(u: Setup, l: Ledger, plan: Plan)
    requires GoodSetup(u) && LedgerOk(u, l) && EntriesOwn(u, l)
    ensures Usable(Opened(u, l), PlanArgs(u, plan))
  {
    LegsDistinct(u, plan);
    var args := PlanArgs(u, plan);
    assert args.legs[0].id == PlanId(u, plan, Federal);
    assert args.legs[1].id == PlanId(u, plan, State);
    assert args.legs[2].id == PlanId(u, plan, Lga);
  }

  /** What an attempt has done to one leg. */
  ghost predicate LegPaid(u: Setup, before: Ledger, plan: Plan, after: Ledger, leg: LegName) {
    var id, amount := PlanId(u, plan, leg), Amount(plan.sums.legs, leg);
    && (IsPosted(before, id) ==> IsPosted(after, id))
    && Credits(after, u.pool(leg)) == Credits(before, u.pool(leg))
         + (if IsPosted(after, id) && !IsPosted(before, id) then amount else 0)
    && (amount <= 0 ==> IsPosted(after, id) == IsPosted(before, id))
  }

  lemma AttemptPays(u: Setup, l: Ledger, plan: Plan, evs: seq<Saga.Event>, s: Saga.System, leg: LegName)
    requires GoodSetup(u) && LedgerOk(u, l) && EntriesOwn(u, l)
    requires Saga.Reachable(Opened(u, l), PlanArgs(u, plan), evs, s)
    ensures LegPaid(u, l, plan, s.l, leg)
    ensures s.attempt == Saga.Returned(true) && Amount(plan.sums.legs, leg) > 0 ==> IsPosted(s.l, PlanId(u, plan, leg))
  {
    hide PendingId, ReversalId, GoodSetup, EntriesOwn, LedgerOk, Usable, LegIds, LegPaid;
    var args := PlanArgs(u, plan);
    PlanUsable(u, l, plan);
    LegIdMember(u, plan, leg);
    assert args.legs[Index(leg)] == RunLeg(u, plan.tenant, plan.period, plan.supp, leg, Amount(plan.sums.legs, leg));
    LegPays(u, l, plan, args, evs, s, leg, Index(leg));
  }

  lemma LegPays(u: Setup, l: Ledger, plan: Plan, args: Saga.Args, evs: seq<Saga.Event>, s: Saga.System, leg: LegName,
                k: nat)
    requires Usable(Opened(u, l), args) && Saga.Reachable(Opened(u, l), args, evs, s) && k < |args.legs|
    requires args.legs[k] == RunLeg(u, plan.tenant, plan.period, plan.supp, leg, Amount(plan.sums.legs, leg))
    requires PlanId(u, plan, leg) in LegIds(args) <==> Amount(plan.sums.legs, leg) > 0
    ensures LegPaid(u, l, plan, s.l, leg)
    ensures s.attempt == Saga.Returned(true) && Amount(plan.sums.legs, leg) > 0 ==> IsPosted(s.l, PlanId(u, plan, leg))
  {
    hide PendingId, ReversalId, Usable, HasAccounts, OwnEntries, Paid, Saga.AttemptOk, LegIds, Amount;
    PaysUnlessPosted(Opened(u, l), args, evs, s, k);
    ReachablePayInv(Opened(u, l), args, evs, s);
  }

  lemma LegIdMember(u: Setup, plan: Plan, leg: LegName)
    requires GoodSetup(u)
    ensures PlanId(u, plan, leg) in LegIds(PlanArgs(u, plan)) <==> Amount(plan.sums.legs, leg) > 0
  {
    var args := PlanArgs(u, plan);
    assert args.legs[Index(leg)].id == PlanId(u, plan, leg);
    LegsDistinct(u, plan);
  }

  /** Pending ids other than the plan's are untouched. */
  lemma AttemptKeepsOthers(u: Setup, l: Ledger, plan: Plan, evs: seq<Saga.Event>, s: Saga.System, id: string)
    requires GoodSetup(u) && LedgerOk(u, l) && EntriesOwn(u, l)
    requires Saga.Reachable(Opened(u, l), PlanArgs(u, plan), evs, s)
    requires forall leg :: Amount(plan.sums.legs, leg) > 0 ==> id != PlanId(u, plan, leg)
    ensures id in s.l.transfers <==> id in l.transfers
    ensures id in l.transfers ==> s.l.transfers[id] == l.transfers[id]
  {
    var args := PlanArgs(u, plan);
    PlanUsable(u, l, plan);
    ReachablePayInv(Opened(u, l), args, evs, s);
    forall k | 0 <= k < |args.legs| && args.legs[k].amount > 0
      ensures args.legs[k].id != id
    {
      var leg := if k == 0 then Federal else if k == 1 then State else Lga;
      assert args.legs[k].id == PlanId(u, plan, leg) && args.legs[k].amount == Amount(plan.sums.legs, leg);
    }
    assert id !in LegIds(args);
  }

  lemma AttemptKeepsLedger(u: Setup, l: Ledger, plan: Plan, evs: seq<Saga.Event>, s: Saga.System)
    requires GoodSetup(u) && LedgerOk(u, l) && EntriesOwn(u, l)
    requires Saga.Reachable(Opened(u, l), PlanArgs(u, plan), evs, s)
    ensures LedgerOk(u, s.l)
    ensures forall id :: IsPosted(l, id) ==> IsPosted(s.l, id)
  {
    hide PendingId, ReversalId, GoodSetup, EntriesOwn, Usable;
    var args := PlanArgs(u, plan);
    PlanUsable(u, l, plan);
    ReachablePayInv(Opened(u, l), args, evs, s);
    assert HasAccounts(s.l, args);
    PlanAccounts(u, plan, s.l);
  }

  lemma PlanAccounts(u: Setup, plan: Plan, l: Ledger)
    requires HasAccounts(l, PlanArgs(u, plan))
    ensures LedgerOk(u, l)
  {
    hide PendingId, ReversalId;
    forall leg
      ensures u.pool(leg) in l.accounts
    {
      assert PlanArgs(u, plan).legs[Index(leg)].pool == u.pool(leg);
    }
  }

  /** Under a pending id of the plan the saga leaves an entry of its own. */
  lemma PlanEntryOwn(u: Setup, l: Ledger, plan: Plan, evs: seq<Saga.Event>, s: Saga.System, leg: LegName)
    requires GoodSetup(u) && LedgerOk(u, l) && EntriesOwn(u, l)
    requires Saga.Reachable(Opened(u, l), PlanArgs(u, plan), evs, s)
    requires PlanId(u, plan, leg) in s.l.transfers
    ensures EntryOwn(u, s.l.transfers[PlanId(u, plan, leg)], leg)
  {
    PlanUsable(u, l, plan);
    ReachablePayInv(Opened(u, l), PlanArgs(u, plan), evs, s);
    assert PlanArgs(u, plan).legs[Index(leg)].id == PlanId(u, plan, leg);
  }

  lemma AttemptKeepsEntries(u: Setup, l: Ledger, plan: Plan, evs: seq<Saga.Event>, s: Saga.System)
    requires GoodSetup(u) && LedgerOk(u, l) && EntriesOwn(u, l)
    requires Saga.Reachable(Opened(u, l), PlanArgs(u, plan), evs, s)
    ensures EntriesOwn(u, s.l)
  {
    forall t, p, leg, supp: nat | PendingId(u, t, p, leg, supp) in s.l.transfers
      ensures EntryOwn(u, s.l.transfers[PendingId(u, t, p, leg, supp)], leg)
    {
      NamedEntryOwn(u, l, plan, evs, s, t, p, leg, supp);
    }
  }

  lemma NamedEntryOwn(u: Setup, l: Ledger, plan: Plan, evs: seq<Saga.Event>, s: Saga.System,
                      t: string, p: string, leg: LegName, supp: nat)
    requires GoodSetup(u) && LedgerOk(u, l) && EntriesOwn(u, l)
    requires Saga.Reachable(Opened(u, l), PlanArgs(u, plan), evs, s)
    requires PendingId(u, t, p, leg, supp) in s.l.transfers
    ensures EntryOwn(u, s.l.transfers[PendingId(u, t, p, leg, supp)], leg)
  {
    var id := PendingId(u, t, p, leg, supp);
    if id == PlanId(u, plan, leg) {
      PlanEntryOwn(u, l, plan, evs, s, leg);
    } else {
      forall other
        ensures id != PlanId(u, plan, other)
      {
        PendingIdSame(u, t, p, leg, supp, plan.tenant, plan.period, other, plan.supp);
      }
      AttemptKeepsOthers(u, l, plan, evs, s, id);
    }
  }

  // ----- Every step -----

  lemma AttemptKeepsInv(u: Setup, w: World, ev: Event, w': World)
    requires GoodSetup(u) && Inv(u, w) && ev.Settle? && Attempts(u, w, ev, w')
    ensures Inv(u, w')
  {
    var plan := PlanOf(w, ev.tenant, ev.period, ev.order);
    if Proceeds(plan) {
      AttemptKeepsLedger(u, w.ledger, plan, ev.evs, ev.s);
      AttemptKeepsEntries(u, w.ledger, plan, ev.evs, ev.s);
      if Done(ev) {
        TallyExact(w.store, ev.order, ev.period);
        SettleKeepsStore(w, ev.tenant, ev.period, ev.order, Recon(plan.tenant, plan.period, plan.supp, plan.sums));
      }
    }
  }

  lemma StepKeepsInv(u: Setup, w: World, ev: Event, w': World)
    requires GoodSetup(u) && Inv(u, w) && Regular(ev) && Steps(u, w, ev, w')
    ensures Inv(u, w')
  {
    match ev
    case Ingest(id, tenant, at, vat, cfg, platform) =>
      AttributeGood(ev);
      PutKeepsStore(w.store, Attribute(id, tenant, at, vat, cfg, platform), AllIds(w.recons));
    case Settle(_, _, _, _, _) => AttemptKeepsInv(u, w, ev, w');
  }

  ghost predicate AllRegular(evs: seq<Event>) {
    forall i :: 0 <= i < |evs| ==> Regular(evs[i])
  }

  lemma {:induction false} StartInv(u: Setup)
    ensures Inv(u, Start(u))
  {
    forall leg
      ensures u.pool(leg) in Start(u).ledger.accounts
    {
      assert leg == Federal || leg == State || leg == Lga;
    }
  }

  lemma {:induction false} RunInv(u: Setup, evs: seq<Event>, ws: seq<World>, n: nat)
    requires GoodSetup(u) && IsRun(u, evs, ws) && AllRegular(evs) && n <= |evs|
    ensures Inv(u, ws[n])
    decreases n
  {
    hide Inv, Steps, Regular, GoodSetup, Start;
    if n == 0 {
      StartInv(u);
    } else {
      RunInv(u, evs, ws, n - 1);
      StepKeepsInv(u, ws[n - 1], evs[n - 1], ws[n]);
    }
  }

  // ----- Which receipts a settlement stamps -----

  /** A recorded settlement stamped receipts of its tenant whose capture date starts with its period. */
  ghost predicate OfPeriod(c: Contents, r: Recon) {
    forall id :: id in r.sums.ids ==>
      && id in c.receipts && c.receipts[id].settledIn == SettledKey(r.tenant, r.period)
      && (r.tenant != "" ==> c.receipts[id].tenant == r.tenant)
      && |r.period| <= |c.receipts[id].capturedAt| && c.receipts[id].capturedAt[..|r.period|] == r.period
  }

  ghost predicate AllOfPeriod(w: World) {
    forall i :: 0 <= i < |w.recons| ==> OfPeriod(w.store, w.recons[i])
  }

  /** Receipts keep their tenant and date, and a stamp once given. */
  ghost predicate StampsKept(c: Contents, c': Contents) {
    forall id :: id in c.receipts ==>
      && id in c'.receipts && c'.receipts[id].tenant == c.receipts[id].tenant
      && c'.receipts[id].capturedAt == c.receipts[id].capturedAt
      && (c.receipts[id].settledIn != "" ==> c'.receipts[id].settledIn == c.receipts[id].settledIn)
  }

  lemma KeptOfPeriod(c: Contents, c': Contents, r: Recon)
    requires OfPeriod(c, r) && StampsKept(c, c')
    ensures OfPeriod(c', r)
  {
    assert SettledKey(r.tenant, r.period)[|r.tenant|] == '|';
  }

  lemma MarkKeepsStamps(c: Contents, ids: seq<string>, key: string)
    requires forall id :: id in ids ==> id in c.receipts && c.receipts[id].settledIn == ""
    ensures StampsKept(c, Mark(c, ids, key))
  {
    MarkAt(c, ids, key);
  }

  lemma ListedOfTenant(c: Contents, tenant: string, order: seq<string>, id: string)
    requires ListsExact(c) && Listing(c, tenant, order) && id in order
    ensures id in c.receipts && (tenant != "" ==> c.receipts[id].tenant == tenant)
  {
    CountMember(order, id);
    if tenant != "" {
      assert Times(c, tenant, id) == if id in c.receipts && c.receipts[id].tenant == tenant then 1 else 0;
    }
  }

  lemma SettlementOfPeriod(w: World, ev: Event, w': World)
    requires ListsExact(w.store) && ev.Settle? && Listing(w.store, ev.tenant, ev.order)
    requires var plan := PlanOf(w, ev.tenant, ev.period, ev.order);
      w'.store == Mark(w.store, plan.sums.ids, SettledKey(ev.tenant, ev.period))
    ensures var plan := PlanOf(w, ev.tenant, ev.period, ev.order);
      StampsKept(w.store, w'.store) && OfPeriod(w'.store, Recon(plan.tenant, plan.period, plan.supp, plan.sums))
  {
    var ids, key := PlanOf(w, ev.tenant, ev.period, ev.order).sums.ids, SettledKey(ev.tenant, ev.period);
    TallyExact(w.store, ev.order, ev.period);
    SelectsPeriod(w.store, ev.order, ev.period);
    MarkAt(w.store, ids, key);
    MarkKeepsStamps(w.store, ids, key);
    forall id | id in ids
      ensures ev.tenant != "" ==> w.store.receipts[id].tenant == ev.tenant
    {
      ListedOfTenant(w.store, ev.tenant, ev.order, id);
    }
  }

  lemma StepOfPeriod(u: Setup, w: World, ev: Event, w': World)
    requires Inv(u, w) && AllOfPeriod(w) && Steps(u, w, ev, w')
    ensures AllOfPeriod(w')
  {
    hide OfPeriod;
    if ev.Settle? && Proceeds(PlanOf(w, ev.tenant, ev.period, ev.order)) && Done(ev) {
      SettlementOfPeriod(w, ev, w');
    } else {
      assert StampsKept(w.store, w'.store);
    }
    forall i | 0 <= i < |w'.recons|
      ensures OfPeriod(w'.store, w'.recons[i])
    {
      if i < |w.recons| {
        KeptOfPeriod(w.store, w'.store, w.recons[i]);
        assert w'.recons[i] == w.recons[i];
      }
    }
  }

  /** Over every history: a recorded settlement of a period has stamped, and paid for, only receipts of its tenant whose
      capture date starts with the period. */
  lemma {:induction false} StampedInPeriod(u: Setup, evs: seq<Event>, ws: seq<World>, n: nat)
    requires GoodSetup(u) && IsRun(u, evs, ws) && AllRegular(evs) && n <= |evs|
    ensures AllOfPeriod(ws[n])
    decreases n
  {
    hide Inv, Steps, GoodSetup, Regular, OfPeriod;
    if n > 0 {
      StampedInPeriod(u, evs, ws, n - 1);
      RunInv(u, evs, ws, n - 1);
      StepOfPeriod(u, ws[n - 1], evs[n - 1], ws[n]);
    }
  }

  /** And it leaves none of them behind. */
  lemma PeriodIsCleared(u: Setup, w: World, ev: Event, w': World, id: string)
    requires Inv(u, w) && Steps(u, w, ev, w') && Settling(w, ev) && id in w.store.receipts
    requires ev.tenant != "" ==> w.store.receipts[id].tenant == ev.tenant
    requires |ev.period| <= |w.store.receipts[id].capturedAt|
             && w.store.receipts[id].capturedAt[..|ev.period|] == ev.period
    ensures id in w'.store.receipts && w'.store.receipts[id].settledIn != ""
  {
    var plan := PlanOf(w, ev.tenant, ev.period, ev.order);
    TallyExact(w.store, ev.order, ev.period);
    SelectsPeriod(w.store, ev.order, ev.period);
    MarkAt(w.store, plan.sums.ids, SettledKey(ev.tenant, ev.period));
    CountMember(ev.order, id);
    if ev.tenant != "" {
      assert Times(w.store, ev.tenant, id) == 1;
    }
    assert SettledKey(ev.tenant, ev.period)[|ev.tenant|] == '|';
  }

  // ----- The balance of a pool -----

  /** The stamped receipts' parts, and their VAT. */
  function StampedParts(c: Contents, leg: LegName): map<string, int> {
    map id | id in c.receipts && c.receipts[id].settledIn != "" :: Part(c.receipts[id], leg)
  }

  function StampedVats(c: Contents): map<string, int> {
    map id | id in c.receipts && c.receipts[id].settledIn != "" :: c.receipts[id].vat
  }

  lemma StampedTotal(c: Contents, ids: seq<string>, m: map<string, int>, stamped: map<string, int>)
    requires StampsExact(c, ids)
    requires forall id :: id in stamped <==> id in c.receipts && c.receipts[id].settledIn != ""
    requires forall id :: id in stamped ==> id in m && m[id] == stamped[id]
    ensures ListSum(ids, m) == Total(stamped)
  {
    forall id | id in ids
      ensures Weight(m, id) == Weight(stamped, id)
    {
      CountMember(ids, id);
    }
    ListSumSame(ids, m, stamped);
    ListSumTotal(ids, stamped);
  }

  lemma StampedPartsTotal(c: Contents, ids: seq<string>, leg: LegName)
    requires StampsExact(c, ids)
    ensures Total(StampedParts(c, leg)) == ListSum(ids, Parts(c, leg))
  {
    StampedTotal(c, ids, Parts(c, leg), StampedParts(c, leg));
  }

  /** What a pool is short of: the stamped parts less its credits. */
  ghost function Short(u: Setup, w: World, leg: LegName): int {
    Total(StampedParts(w.store, leg)) - Credits(w.ledger, u.pool(leg))
  }

  /** Every pool holds exactly its parts of the stamped receipts. */
  ghost predicate PoolsExact(u: Setup, w: World) {
    forall leg :: Credits(w.ledger, u.pool(leg)) == Total(StampedParts(w.store, leg))
  }

  /** A run's own sums: none is negative, and stamping adds them. */
  lemma RunSums(c: Contents, done: seq<string>, ids: seq<string>, key: string, leg: LegName)
    requires ReceiptsGood(c)
    ensures Amount(SumLegs(c, ids), leg) >= 0
    ensures ListSum(done + ids, Parts(Mark(c, ids, key), leg))
      == ListSum(done, Parts(c, leg)) + Amount(SumLegs(c, ids), leg)
  {
    MarkKeepsParts(c, ids, key);
    ListSumNonNegative(ids, Parts(c, leg));
    ListSumConcat(done, ids, Parts(c, leg));
  }

  lemma StampedAfter(u: Setup, w: World, ev: Event, w': World, leg: LegName)
    requires Inv(u, w) && Inv(u, w') && ev.Settle? && Attempts(u, w, ev, w') && Done(ev)
    requires Proceeds(PlanOf(w, ev.tenant, ev.period, ev.order))
    ensures var amount := Amount(PlanOf(w, ev.tenant, ev.period, ev.order).sums.legs, leg);
      amount >= 0 && Total(StampedParts(w'.store, leg)) == Total(StampedParts(w.store, leg)) + amount
  {
    var plan := PlanOf(w, ev.tenant, ev.period, ev.order);
    TallyExact(w.store, ev.order, ev.period);
    RunSums(w.store, AllIds(w.recons), plan.sums.ids, SettledKey(ev.tenant, ev.period), leg);
    AllIdsAppend(w.recons, Recon(plan.tenant, plan.period, plan.supp, plan.sums));
    StampedPartsTotal(w.store, AllIds(w.recons), leg);
    StampedPartsTotal(w'.store, AllIds(w'.recons), leg);
  }

  /** The event is a settlement that goes through. */
  predicate Settling(w: World, ev: Event) {
    ev.Settle? && Done(ev) && Proceeds(PlanOf(w, ev.tenant, ev.period, ev.order))
  }

  /** The event is a settlement that is cut short. */
  predicate CutOff(w: World, ev: Event) {
    ev.Settle? && !Done(ev) && Proceeds(PlanOf(w, ev.tenant, ev.period, ev.order))
  }

  /** What a settlement that goes through stamps and does not pay: the leg's amount when its id is posted already. The
      ledger can be asked for that before the run. */
  function Missed(u: Setup, w: World, ev: Event, leg: LegName): int {
    if Settling(w, ev) && IsPosted(w.ledger, PlanId(u, PlanOf(w, ev.tenant, ev.period, ev.order), leg)) then
      Amount(PlanOf(w, ev.tenant, ev.period, ev.order).sums.legs, leg)
    else 0
  }

  /** What a settlement that is cut short pays and does not stamp: the leg's amount when it gets as far as posting it.
      */
  function Advanced(u: Setup, w: World, ev: Event, leg: LegName): int {
    if CutOff(w, ev) && !IsPosted(w.ledger, PlanId(u, PlanOf(w, ev.tenant, ev.period, ev.order), leg))
       && IsPosted(ev.s.l, PlanId(u, PlanOf(w, ev.tenant, ev.period, ev.order), leg)) then
      Amount(PlanOf(w, ev.tenant, ev.period, ev.order).sums.legs, leg)
    else 0
  }

  lemma AttemptShort(u: Setup, w: World, ev: Event, w': World, leg: LegName)
    requires GoodSetup(u) && Inv(u, w) && Inv(u, w') && ev.Settle? && Attempts(u, w, ev, w')
    ensures Short(u, w', leg) == Short(u, w, leg) + Missed(u, w, ev, leg) - Advanced(u, w, ev, leg)
    ensures Missed(u, w, ev, leg) >= 0 && Advanced(u, w, ev, leg) >= 0
  {
    hide GoodSetup, PendingId, EntriesOwn, LedgerOk, StoreOk, PlanOf, Proceeds, StampedParts;
    var plan := PlanOf(w, ev.tenant, ev.period, ev.order);
    if Proceeds(plan) {
      AttemptPays(u, w.ledger, plan, ev.evs, ev.s, leg);
      if Done(ev) {
        StampedAfter(u, w, ev, w', leg);
      }
    }
  }

  lemma IngestShort(u: Setup, w: World, ev: Event, w': World, leg: LegName)
    requires Inv(u, w) && Inv(u, w') && ev.Ingest? && Steps(u, w, ev, w')
    ensures Short(u, w', leg) == Short(u, w, leg)
  {
    var r := Attribute(ev.id, ev.tenant, ev.capturedAt, ev.vat, ev.cfg, ev.platform);
    if r.id !in w.store.receipts {
      PutSums(w.store, r, AllIds(w.recons), leg);
      StampedPartsTotal(w.store, AllIds(w.recons), leg);
      StampedPartsTotal(w'.store, AllIds(w'.recons), leg);
    }
  }

  /** Every step moves each pool's shortfall by what it misses less what it advances. */
  lemma StepShort(u: Setup, w: World, ev: Event, w': World, leg: LegName)
    requires GoodSetup(u) && Inv(u, w) && Inv(u, w') && Steps(u, w, ev, w')
    ensures Short(u, w', leg) == Short(u, w, leg) + Missed(u, w, ev, leg) - Advanced(u, w, ev, leg)
    ensures Missed(u, w, ev, leg) >= 0 && Advanced(u, w, ev, leg) >= 0
    ensures Missed(u, w, ev, leg) == 0 || Advanced(u, w, ev, leg) == 0
  {
    hide Inv, Short, Attempts, PlanOf, Proceeds, GoodSetup, PendingId;
    if ev.Ingest? {
      IngestShort(u, w, ev, w', leg);
    } else {
      AttemptShort(u, w, ev, w', leg);
    }
  }

  // ----- Whole histories -----

  lemma StartShort(u: Setup, leg: LegName)
    requires GoodSetup(u)
    ensures Short(u, Start(u), leg) == 0
  {
    assert StampedParts(Start(u).store, leg) == map[];
  }

  /** What the first `n` events have missed, and what they have advanced. */
  function AllMissed(u: Setup, evs: seq<Event>, ws: seq<World>, n: nat, leg: LegName): int
    requires n <= |evs| <= |ws|
  {
    if n == 0 then 0 else AllMissed(u, evs, ws, n - 1, leg) + Missed(u, ws[n - 1], evs[n - 1], leg)
  }

  function AllAdvanced(u: Setup, evs: seq<Event>, ws: seq<World>, n: nat, leg: LegName): int
    requires n <= |evs| <= |ws|
  {
    if n == 0 then 0 else AllAdvanced(u, evs, ws, n - 1, leg) + Advanced(u, ws[n - 1], evs[n - 1], leg)
  }

  /** Over every history of ingests and settlements, cut short or not, under any tenant names: what a pool is short of
      is what settlements that went through found posted already, less what settlements that were cut short posted. So
      nothing is lost if and only if the first is at most the second, and the pool is exact if and only if they agree.
      */
  lemma {:induction false} ShortfallExact(u: Setup, evs: seq<Event>, ws: seq<World>, n: nat, leg: LegName)
    requires GoodSetup(u) && IsRun(u, evs, ws) && AllRegular(evs) && n <= |evs|
    ensures Total(StampedParts(ws[n].store, leg)) - Credits(ws[n].ledger, u.pool(leg))
         == AllMissed(u, evs, ws, n, leg) - AllAdvanced(u, evs, ws, n, leg)
    ensures Credits(ws[n].ledger, u.pool(leg)) >= Total(StampedParts(ws[n].store, leg))
       <==> AllMissed(u, evs, ws, n, leg) <= AllAdvanced(u, evs, ws, n, leg)
    ensures Credits(ws[n].ledger, u.pool(leg)) == Total(StampedParts(ws[n].store, leg))
       <==> AllMissed(u, evs, ws, n, leg) == AllAdvanced(u, evs, ws, n, leg)
    decreases n
  {
    hide Inv, Steps, Regular, GoodSetup, Start, Missed, Advanced;
    if n == 0 {
      StartShort(u, leg);
    } else {
      ShortfallExact(u, evs, ws, n - 1, leg);
      RunInv(u, evs, ws, n - 1);
      RunInv(u, evs, ws, n);
      StepShort(u, ws[n - 1], evs[n - 1], ws[n], leg);
    }
  }

  /** A step that neither stamps what it does not pay nor pays what it does not stamp. */
  ghost predicate Square(u: Setup, w: World, ev: Event) {
    forall leg :: Missed(u, w, ev, leg) == 0 && Advanced(u, w, ev, leg) == 0
  }

  lemma StepExact(u: Setup, w: World, ev: Event, w': World)
    requires GoodSetup(u) && Inv(u, w) && Inv(u, w') && Steps(u, w, ev, w') && PoolsExact(u, w)
    ensures PoolsExact(u, w') <==> Square(u, w, ev)
  {
    hide Inv, Steps, GoodSetup, Missed, Advanced;
    forall leg
      ensures Credits(w'.ledger, u.pool(leg)) == Total(StampedParts(w'.store, leg))
         <==> Missed(u, w, ev, leg) == 0 && Advanced(u, w, ev, leg) == 0
    {
      assert Credits(w.ledger, u.pool(leg)) == Total(StampedParts(w.store, leg));
      StepShort(u, w, ev, w', leg);
    }
  }

  ghost predicate ExactUpTo(u: Setup, ws: seq<World>, n: nat) {
    forall i :: 0 <= i < |ws| && i <= n ==> PoolsExact(u, ws[i])
  }

  ghost predicate SquareUpTo(u: Setup, evs: seq<Event>, ws: seq<World>, n: nat) {
    forall i :: 0 <= i < |evs| && i < |ws| && i < n ==> Square(u, ws[i], evs[i])
  }

  lemma {:induction false} ExactIff(u: Setup, evs: seq<Event>, ws: seq<World>, n: nat)
    requires GoodSetup(u) && IsRun(u, evs, ws) && AllRegular(evs) && n <= |evs|
    ensures ExactUpTo(u, ws, n) <==> SquareUpTo(u, evs, ws, n)
    decreases n
  {
    hide Inv, Steps, Regular, GoodSetup, Start, Square, Short;
    if n == 0 {
      StartExact(u);
    } else {
      ExactIff(u, evs, ws, n - 1);
      RunInv(u, evs, ws, n - 1);
      RunInv(u, evs, ws, n);
      if ExactUpTo(u, ws, n - 1) {
        StepExact(u, ws[n - 1], evs[n - 1], ws[n]);
      }
      LastOne(u, evs, ws, n);
    }
  }

  lemma StartExact(u: Setup)
    requires GoodSetup(u)
    ensures PoolsExact(u, Start(u))
  {
    forall leg
      ensures Credits(Start(u).ledger, u.pool(leg)) == Total(StampedParts(Start(u).store, leg))
    {
      StartShort(u, leg);
    }
  }

  lemma LastOne(u: Setup, evs: seq<Event>, ws: seq<World>, n: nat)
    requires 0 < n <= |evs| && |ws| == |evs| + 1
    ensures ExactUpTo(u, ws, n) <==> ExactUpTo(u, ws, n - 1) && PoolsExact(u, ws[n])
    ensures SquareUpTo(u, evs, ws, n) <==> SquareUpTo(u, evs, ws, n - 1) && Square(u, ws[n - 1], evs[n - 1])
  {
    hide PoolsExact, Square;
  }

  /** The pools hold exactly the stamped parts at every point of a history if and only if no settlement goes through
      over a leg that is posted already with something to pay, and none is cut short after posting one. Stamped receipts
      belong to exactly one recorded settlement, unconditionally. */
  lemma ConservesExactly(u: Setup, evs: seq<Event>, ws: seq<World>)
    requires GoodSetup(u) && IsRun(u, evs, ws) && AllRegular(evs)
    ensures (forall i :: 0 <= i < |ws| ==> PoolsExact(u, ws[i]))
       <==> (forall i :: 0 <= i < |evs| ==> Square(u, ws[i], evs[i]))
    ensures forall i :: 0 <= i < |ws| ==> StampsExact(ws[i].store, AllIds(ws[i].recons))
  {
    hide PoolsExact, Square, Steps, GoodSetup;
    ExactIff(u, evs, ws, |evs|);
    forall i | 0 <= i < |ws|
      ensures StampsExact(ws[i].store, AllIds(ws[i].recons))
    {
      RunInv(u, evs, ws, i);
    }
  }

  /** With all three pools exact, they together hold exactly the stamped receipts' VAT. */
  lemma PoolsHoldVat(u: Setup, w: World)
    requires Inv(u, w) && PoolsExact(u, w)
    ensures Credits(w.ledger, u.pool(Federal)) + Credits(w.ledger, u.pool(State)) + Credits(w.ledger, u.pool(Lga))
         == Total(StampedVats(w.store))
  {
    hide PoolsExact, StampsExact, ReceiptsGood, ListsExact, LedgerOk, EntriesOwn, Parts, Vats;
    var ids := AllIds(w.recons);
    PoolHolds(u, w, Federal);
    PoolHolds(u, w, State);
    PoolHolds(u, w, Lga);
    StampedVatsTotal(w.store, ids);
    PartsAddUp(w.store, ids);
  }

  lemma PoolHolds(u: Setup, w: World, leg: LegName)
    requires Inv(u, w) && PoolsExact(u, w)
    ensures Credits(w.ledger, u.pool(leg)) == ListSum(AllIds(w.recons), Parts(w.store, leg))
  {
    StampedPartsTotal(w.store, AllIds(w.recons), leg);
  }

  lemma StampedVatsTotal(c: Contents, ids: seq<string>)
    requires StampsExact(c, ids)
    ensures Total(StampedVats(c)) == ListSum(ids, Vats(c))
  {
    StampedTotal(c, ids, Vats(c), StampedVats(c));
  }
}
