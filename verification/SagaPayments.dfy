/** What a settlement attempt pays, on any ledger: pending ids may be in use already, by an attempt that was cut short
    or by another settlement of the same name (services/pos-vat/handlers.go:402-458). */
module SagaPayments {
  import opened PosLedger
  import opened SettlementSaga

  /** Entries under the pending ids go from the merchant to the leg's pool, and none is voided. */
  ghost predicate OwnEntries(l: Ledger, args: Args) {
    forall k :: 0 <= k < |args.legs| && args.legs[k].id in l.transfers ==>
      && l.transfers[args.legs[k].id].t.debit == args.merchant
      && l.transfers[args.legs[k].id].t.credit == args.legs[k].pool
      && l.transfers[args.legs[k].id].state != Voided
  }

  /** The accounts an attempt needs. */
  ghost predicate HasAccounts(l: Ledger, args: Args) {
    && KnownAccounts(l) && args.merchant in l.accounts && !l.accounts[args.merchant].flagged
    && forall k :: 0 <= k < |args.legs| ==> args.legs[k].pool in l.accounts
  }

  ghost predicate DistinctLegs(args: Args) {
    && (forall k :: 0 <= k < |args.legs| ==> args.legs[k].id != "")
    && (forall j, k :: 0 <= j < k < |args.legs| ==>
          args.legs[j].id != args.legs[k].id && args.legs[j].pool != args.legs[k].pool)
  }

  ghost predicate Usable(l0: Ledger, args: Args) {
    HasAccounts(l0, args) && DistinctLegs(args) && OwnEntries(l0, args)
  }

  predicate IsPosted(l: Ledger, id: string) {
    HasState(l, id, Posted)
  }

  /** The ids of the legs there is something to pay for. */
  function LegIds(args: Args): set<string> {
    set k | 0 <= k < |args.legs| && args.legs[k].amount > 0 :: args.legs[k].id
  }

  /** Transfers other than those legs are as they were, no leg disappears, and posted stays posted. */
  ghost predicate TransfersKept(l0: Ledger, args: Args, l: Ledger) {
    && (forall id :: id in l.transfers && id !in LegIds(args) ==>
          id in l0.transfers && l.transfers[id] == l0.transfers[id])
    && (forall id :: id in l0.transfers ==> id in l.transfers)
    && (forall id :: IsPosted(l0, id) ==> IsPosted(l, id))
  }

  function Credits(l: Ledger, a: string): int {
    if a in l.accounts then l.accounts[a].creditsPosted else 0
  }

  /** What leg k has paid since the start: its amount if it was posted in between. */
  function PaidSince(l0: Ledger, l: Ledger, leg: Leg): int {
    if IsPosted(l, leg.id) && !IsPosted(l0, leg.id) then leg.amount else 0
  }

  ghost predicate Paid(l0: Ledger, args: Args, l: Ledger) {
    forall k :: 0 <= k < |args.legs| ==>
      Credits(l, args.legs[k].pool) == Credits(l0, args.legs[k].pool) + PaidSince(l0, l, args.legs[k])
  }

  ghost predicate LedgerInv(l0: Ledger, args: Args, l: Ledger) {
    HasAccounts(l, args) && OwnEntries(l, args) && TransfersKept(l0, args, l) && Paid(l0, args, l)
  }

  // ----- One ledger call -----

  /** A leg's entry is replaced, and its pool credited by `x`. */
  ghost predicate LegUpdated(args: Args, l: Ledger, k: nat, e: Entry, x: int, l': Ledger)
    requires k < |args.legs|
  {
    && l'.transfers == l.transfers[args.legs[k].id := e]
    && l'.accounts.Keys == l.accounts.Keys
    && (forall a :: a in l.accounts ==> l'.accounts[a].flagged == l.accounts[a].flagged)
    && forall a :: a in l.accounts ==>
         l'.accounts[a].creditsPosted == l.accounts[a].creditsPosted + if a == args.legs[k].pool then x else 0
  }

  predicate LegEntry(args: Args, k: nat, e: Entry)
    requires k < |args.legs|
  {
    && e.t.debit == args.merchant && e.t.credit == args.legs[k].pool && e.t.id == args.legs[k].id && e.t.amount > 0
    && e.state != Voided
  }

  lemma UpdateKeepsAccounts(args: Args, l: Ledger, k: nat, e: Entry, x: int, l': Ledger)
    requires HasAccounts(l, args) && k < |args.legs| && LegEntry(args, k, e) && LegUpdated(args, l, k, e, x, l')
    ensures HasAccounts(l', args)
  {
  }

  lemma UpdateKeepsOwn(args: Args, l: Ledger, k: nat, e: Entry, x: int, l': Ledger)
    requires OwnEntries(l, args) && DistinctLegs(args) && k < |args.legs| && LegEntry(args, k, e)
    requires LegUpdated(args, l, k, e, x, l')
    ensures OwnEntries(l', args)
  {
  }

  lemma UpdateKeepsTransfers(l0: Ledger, args: Args, l: Ledger, k: nat, e: Entry, x: int, l': Ledger)
    requires TransfersKept(l0, args, l) && k < |args.legs| && LegUpdated(args, l, k, e, x, l')
    requires args.legs[k].amount > 0 && (IsPosted(l, args.legs[k].id) ==> e.state == Posted)
    ensures TransfersKept(l0, args, l')
  {
    assert args.legs[k].id in LegIds(args);
  }

  lemma UpdateKeepsPaid(l0: Ledger, args: Args, l: Ledger, k: nat, e: Entry, x: int, l': Ledger)
    requires Paid(l0, args, l) && HasAccounts(l, args) && DistinctLegs(args) && TransfersKept(l0, args, l)
    requires k < |args.legs| && LegUpdated(args, l, k, e, x, l') && !IsPosted(l, args.legs[k].id)
    requires x == if e.state == Posted then args.legs[k].amount else 0
    ensures Paid(l0, args, l')
  {
    forall j | 0 <= j < |args.legs|
      ensures Credits(l', args.legs[j].pool) == Credits(l0, args.legs[j].pool) + PaidSince(l0, l', args.legs[j])
    {
      assert Credits(l, args.legs[j].pool) == Credits(l0, args.legs[j].pool) + PaidSince(l0, l, args.legs[j]);
      if j != k {
        assert args.legs[j].id != args.legs[k].id && args.legs[j].pool != args.legs[k].pool;
        assert IsPosted(l', args.legs[j].id) == IsPosted(l, args.legs[j].id);
      } else {
        assert !IsPosted(l0, args.legs[k].id);
      }
    }
  }

  lemma UpdateKeeps(l0: Ledger, args: Args, l: Ledger, k: nat, e: Entry, x: int, l': Ledger)
    requires LedgerInv(l0, args, l) && DistinctLegs(args) && k < |args.legs| && !IsPosted(l, args.legs[k].id)
    requires args.legs[k].amount > 0
    requires LegEntry(args, k, e) && LegUpdated(args, l, k, e, x, l')
    requires x == if e.state == Posted then args.legs[k].amount else 0
    ensures LedgerInv(l0, args, l')
  {
    UpdateKeepsAccounts(args, l, k, e, x, l');
    UpdateKeepsOwn(args, l, k, e, x, l');
    UpdateKeepsTransfers(l0, args, l, k, e, x, l');
    UpdateKeepsPaid(l0, args, l, k, e, x, l');
  }

  /** Holding a leg under an unused id. */
  lemma HoldUpdates(args: Args, l: Ledger, k: nat)
    requires HasAccounts(l, args) && k < |args.legs| && args.legs[k].id != "" && args.legs[k].amount > 0
    requires args.legs[k].id !in l.transfers
    ensures DoPending(l, PendingOrder(args, args.legs[k])).1
    ensures LegUpdated(args, l, k, Entry(PendingOrder(args, args.legs[k]), Pending), 0,
                       DoPending(l, PendingOrder(args, args.legs[k])).0)
  {
    var leg := args.legs[k];
    var accounts := AddPending(l.accounts, args.merchant, leg.pool, leg.amount);
    assert DoPending(l, PendingOrder(args, leg)).0.accounts == accounts;
    forall a | a in l.accounts
      ensures accounts[a].flagged == l.accounts[a].flagged && accounts[a].creditsPosted == l.accounts[a].creditsPosted
    {
      HeldAt(l.accounts, args.merchant, leg.pool, leg.amount, a);
    }
  }

  /** Posting a held leg: refused without effect when it asks for more than was held. */
  lemma PostUpdates(args: Args, l: Ledger, k: nat)
    requires HasAccounts(l, args) && OwnEntries(l, args) && k < |args.legs| && args.legs[k].amount > 0
    requires HasState(l, args.legs[k].id, Pending)
    ensures var (l', ok) := DoPost(l, args.legs[k].id, args.legs[k].amount);
      var t := l.transfers[args.legs[k].id].t;
      && (ok <==> args.legs[k].amount <= t.amount) && (!ok ==> l' == l)
      && (ok ==> LegUpdated(args, l, k, Entry(t, Posted), args.legs[k].amount, l'))
  {
    var leg := args.legs[k];
    var t := l.transfers[leg.id].t;
    if leg.amount <= t.amount {
      var released := AddPending(l.accounts, args.merchant, leg.pool, -t.amount);
      HeldAt(l.accounts, args.merchant, leg.pool, -t.amount, args.merchant);
      var accounts := AddPosted(released, args.merchant, leg.pool, leg.amount);
      assert DoPost(l, leg.id, leg.amount).0.accounts == accounts;
      forall a | a in l.accounts
        ensures accounts[a].flagged == l.accounts[a].flagged
        ensures accounts[a].creditsPosted == l.accounts[a].creditsPosted + if a == leg.pool then leg.amount else 0
      {
        HeldAt(l.accounts, args.merchant, leg.pool, -t.amount, a);
        PostedAt(released, args.merchant, leg.pool, leg.amount, a);
      }
    }
  }

  // ----- One step of an attempt -----

  ghost predicate PayInv(l0: Ledger, args: Args, s: System) {
    LedgerInv(l0, args, s.l) && AttemptOk(args, s) && s.reversals == 0
  }

  lemma HoldKeeps(l0: Ledger, args: Args, s: System)
    requires DistinctLegs(args) && PayInv(l0, args, s) && s.attempt.Active? && s.attempt.leg < |args.legs|
    requires s.attempt.stage == Hold
    ensures PayInv(l0, args, LegStep(s, args)) && LegStep(s, args).attempt == s.attempt.(stage := Post)
  {
    var k := s.attempt.leg;
    var leg := args.legs[k];
    if leg.id !in s.l.transfers {
      HoldUpdates(args, s.l, k);
      UpdateKeeps(l0, args, s.l, k, Entry(PendingOrder(args, leg), Pending), 0,
                  DoPending(s.l, PendingOrder(args, leg)).0);
      StillPosted(args, s.l, k, Entry(PendingOrder(args, leg), Pending), DoPending(s.l, PendingOrder(args, leg)).0);
    }
  }

  /** Legs posted before a leg are posted after its entry is replaced. */
  lemma StillPosted(args: Args, l: Ledger, k: nat, e: Entry, l': Ledger)
    requires DistinctLegs(args) && k < |args.legs| && l'.transfers == l.transfers[args.legs[k].id := e]
    requires AllPosted(args, l, k)
    ensures AllPosted(args, l', k) && HasState(l', args.legs[k].id, e.state)
  {
  }

  lemma OneMorePosted(args: Args, l: Ledger, k: nat)
    requires k < |args.legs| && AllPosted(args, l, k) && IsPosted(l, args.legs[k].id)
    ensures AllPosted(args, l, k + 1)
  {
  }

  /** Posting a leg that was held for enough. */
  lemma PostPays(l0: Ledger, args: Args, l: Ledger, k: nat)
    requires DistinctLegs(args) && LedgerInv(l0, args, l) && k < |args.legs| && args.legs[k].amount > 0
    requires HasState(l, args.legs[k].id, Pending) && AllPosted(args, l, k)
    requires args.legs[k].amount <= l.transfers[args.legs[k].id].t.amount
    ensures var (l', ok) := DoPost(l, args.legs[k].id, args.legs[k].amount);
      ok && LedgerInv(l0, args, l') && AllPosted(args, l', k + 1)
  {
    var leg := args.legs[k];
    var e := Entry(l.transfers[leg.id].t, Posted);
    var l' := DoPost(l, leg.id, leg.amount).0;
    PostUpdates(args, l, k);
    UpdateKeeps(l0, args, l, k, e, leg.amount, l');
    StillPosted(args, l, k, e, l');
    OneMorePosted(args, l', k);
  }

  lemma PostRefused(l0: Ledger, args: Args, s: System)
    requires LedgerInv(l0, args, s.l) && AttemptOk(args, s)
    requires s.attempt.Active? && s.attempt.leg < |args.legs| && s.attempt.stage == Post
    requires args.legs[s.attempt.leg].amount > s.l.transfers[args.legs[s.attempt.leg].id].t.amount
    ensures LegStep(s, args) == s.(attempt := s.attempt.(stage := Refused)) && AttemptOk(args, LegStep(s, args))
  {
    PostUpdates(args, s.l, s.attempt.leg);
  }

  lemma PostKeeps(l0: Ledger, args: Args, s: System)
    requires DistinctLegs(args) && PayInv(l0, args, s) && s.attempt.Active? && s.attempt.leg < |args.legs|
    requires s.attempt.stage == Post
    ensures PayInv(l0, args, LegStep(s, args))
    ensures args.legs[s.attempt.leg].amount <= s.l.transfers[args.legs[s.attempt.leg].id].t.amount ==>
      LegStep(s, args).attempt == Active(s.attempt.leg + 1, Check, s.attempt.posted + {s.attempt.leg})
  {
    hide LedgerInv, DistinctLegs, DoPost;
    var k := s.attempt.leg;
    if args.legs[k].amount <= s.l.transfers[args.legs[k].id].t.amount {
      PostPays(l0, args, s.l, k);
    } else {
      PostRefused(l0, args, s);
    }
  }

  lemma LegStepKeeps(l0: Ledger, args: Args, s: System)
    requires DistinctLegs(args) && PayInv(l0, args, s) && s.attempt.Active? && s.attempt.leg < |args.legs|
    requires args.legs[s.attempt.leg].amount > 0
    ensures PayInv(l0, args, LegStep(s, args))
  {
    match s.attempt.stage
    case Check =>
    case Hold => HoldKeeps(l0, args, s);
    case Post => PostKeeps(l0, args, s);
    case Refused =>
  }

  lemma NextKeepsPayInv(l0: Ledger, args: Args, s: System, ev: Event)
    requires DistinctLegs(args) && PayInv(l0, args, s)
    ensures PayInv(l0, args, Next(s, args, ev))
  {
    if ev == Step && s.attempt.Active? && s.attempt.leg < |args.legs| && args.legs[s.attempt.leg].amount > 0 {
      LegStepKeeps(l0, args, s);
    }
  }

  lemma {:induction false} ReachablePayInv(l0: Ledger, args: Args, evs: seq<Event>, s: System)
    requires Usable(l0, args) && Reachable(l0, args, evs, s)
    ensures PayInv(l0, args, s)
    decreases |evs|
  {
    if evs != [] {
      var before :| Reachable(l0, args, evs[..|evs| - 1], before) && KnownAccounts(before.l)
                    && s == Next(before, args, evs[|evs| - 1]);
      ReachablePayInv(l0, args, evs[..|evs| - 1], before);
      NextKeepsPayInv(l0, args, before, evs[|evs| - 1]);
    }
  }

  /** On any usable ledger and after any history, nothing has been reversed, a leg's pool has been credited by its
      amount if the leg was posted in between and by nothing otherwise. So when an attempt returns success, a positive
      leg has been paid if and only if its id was not posted before. */
  lemma PaysUnlessPosted(l0: Ledger, args: Args, evs: seq<Event>, s: System, k: nat)
    requires Usable(l0, args) && Reachable(l0, args, evs, s) && k < |args.legs|
    ensures s.reversals == 0
    ensures Credits(s.l, args.legs[k].pool) == Credits(l0, args.legs[k].pool) + PaidSince(l0, s.l, args.legs[k])
    ensures s.attempt == Returned(true) && args.legs[k].amount > 0 ==>
      && IsPosted(s.l, args.legs[k].id)
      && (Credits(s.l, args.legs[k].pool) == Credits(l0, args.legs[k].pool) + args.legs[k].amount
          <==> !IsPosted(l0, args.legs[k].id))
      && (IsPosted(l0, args.legs[k].id) ==> Credits(s.l, args.legs[k].pool) == Credits(l0, args.legs[k].pool))
  {
    ReachablePayInv(l0, args, evs, s);
  }

  // ----- When an attempt can succeed -----

  /** Every positive leg that is held is held for at least its amount. */
  ghost predicate HoldsEnough(l: Ledger, args: Args) {
    forall k :: 0 <= k < |args.legs| ==> !ShortHeld(l, args.legs[k])
  }

  predicate ShortHeld(l: Ledger, leg: Leg) {
    leg.amount > 0 && HasState(l, leg.id, Pending) && l.transfers[leg.id].t.amount < leg.amount
  }

  /** Steps neither make nor mend a hold that is too small. */
  lemma ShortHeldStays(l0: Ledger, args: Args, s: System, ev: Event, k: nat)
    requires DistinctLegs(args) && PayInv(l0, args, s) && k < |args.legs|
    ensures ShortHeld(Next(s, args, ev).l, args.legs[k]) <==> ShortHeld(s.l, args.legs[k])
  {
    if ev == Step && s.attempt.Active? && s.attempt.leg < |args.legs| && args.legs[s.attempt.leg].amount > 0 {
      ShortHeldStep(l0, args, s, k);
    }
  }

  lemma HoldAgain(args: Args, l: Ledger, k: nat)
    requires KnownAccounts(l) && k < |args.legs| && args.legs[k].id != "" && args.legs[k].id in l.transfers
    ensures DoPending(l, PendingOrder(args, args.legs[k])).0 == l
  {
  }

  lemma ShortHeldStep(l0: Ledger, args: Args, s: System, k: nat)
    requires DistinctLegs(args) && PayInv(l0, args, s) && k < |args.legs|
    requires s.attempt.Active? && s.attempt.leg < |args.legs| && args.legs[s.attempt.leg].amount > 0
    ensures ShortHeld(LegStep(s, args).l, args.legs[k]) <==> ShortHeld(s.l, args.legs[k])
  {
    hide DoPost, DoPending, KnownAccounts, Paid, TransfersKept;
    var j := s.attempt.leg;
    assert k != j ==> args.legs[k].id != args.legs[j].id;
    match s.attempt.stage
    case Check =>
    case Hold =>
      if args.legs[j].id in s.l.transfers {
        HoldAgain(args, s.l, j);
      } else {
        HoldUpdates(args, s.l, j);
      }
    case Post => PostUpdates(args, s.l, j);
    case Refused =>
  }

  lemma {:induction false} ShortHeldReached(l0: Ledger, args: Args, evs: seq<Event>, s: System, k: nat)
    requires Usable(l0, args) && Reachable(l0, args, evs, s) && k < |args.legs|
    ensures ShortHeld(s.l, args.legs[k]) <==> ShortHeld(l0, args.legs[k])
    decreases |evs|
  {
    if evs != [] {
      var before :| Reachable(l0, args, evs[..|evs| - 1], before) && KnownAccounts(before.l)
                    && s == Next(before, args, evs[|evs| - 1]);
      ShortHeldReached(l0, args, evs[..|evs| - 1], before, k);
      ReachablePayInv(l0, args, evs[..|evs| - 1], before);
      ShortHeldStays(l0, args, before, evs[|evs| - 1], k);
    }
  }

  /** A leg that is held for less than it now asks is refused by the ledger for good. */
  lemma ShortHeldNeverFinishes(l0: Ledger, args: Args, evs: seq<Event>, s: System, k: nat)
    requires Usable(l0, args) && Reachable(l0, args, evs, s) && k < |args.legs| && ShortHeld(l0, args.legs[k])
    ensures s.attempt != Returned(true)
  {
    ReachablePayInv(l0, args, evs, s);
    ShortHeldReached(l0, args, evs, s, k);
  }

  ghost predicate Promising(l0: Ledger, args: Args, s: System) {
    PayInv(l0, args, s) && HoldsEnough(s.l, args)
  }

  lemma PromisingSteps(l0: Ledger, args: Args, s: System)
    requires DistinctLegs(args) && Promising(l0, args, s)
    ensures Promising(l0, args, Next(s, args, Step))
  {
    NextKeepsPayInv(l0, args, s, Step);
    forall k | 0 <= k < |args.legs|
      ensures !ShortHeld(Next(s, args, Step).l, args.legs[k])
    {
      ShortHeldStays(l0, args, s, Step, k);
    }
  }

  lemma PromisingProgresses(l0: Ledger, args: Args, s: System)
    requires DistinctLegs(args) && Promising(l0, args, s) && UnderWay(args, s)
    ensures var s' := Next(s, args, Step);
      && s'.attempt.Active? && s'.attempt.stage != Refused
      && (s'.attempt.leg == s.attempt.leg + 1
          || (s'.attempt.leg == s.attempt.leg && Rank(s'.attempt.stage) < Rank(s.attempt.stage)))
  {
    if args.legs[s.attempt.leg].amount > 0 {
      match s.attempt.stage
      case Check =>
      case Hold => HoldKeeps(l0, args, s);
      case Post =>
        assert !ShortHeld(s.l, args.legs[s.attempt.leg]);
        PostKeeps(l0, args, s);
    }
  }

  lemma PromisingSelfRunning(l0: Ledger, args: Args)
    requires DistinctLegs(args)
    ensures SelfRunning(args, s => Promising(l0, args, s))
  {
    forall s | Promising(l0, args, s) && UnderWay(args, s)
      ensures Progresses(args, s, s => Promising(l0, args, s))
    {
      PromisingProgresses(l0, args, s);
      PromisingSteps(l0, args, s);
    }
  }

  /** Undisturbed steps extend a history. */
  lemma {:induction false} StepsReach(l0: Ledger, args: Args, evs: seq<Event>, s: System, n: nat, t: System)
    returns (all: seq<Event>)
    requires Reachable(l0, args, evs, s) && StepsTo(args, s, n, t)
    ensures Reachable(l0, args, all, t)
    decreases n
  {
    if n == 0 {
      all := evs;
    } else {
      var more := evs + [Step];
      assert more[..|more| - 1] == evs && Reachable(l0, args, more, Next(s, args, Step));
      all := StepsReach(l0, args, more, Next(s, args, Step), n - 1, t);
    }
  }

  /** With enough held, an undisturbed attempt succeeds. */
  lemma Finishes(l0: Ledger, args: Args) returns (evs: seq<Event>, s: System)
    requires Usable(l0, args) && HoldsEnough(l0, args)
    ensures Reachable(l0, args, evs, s) && s.attempt == Returned(true)
  {
    var idle := System(l0, NotRunning, 0);
    assert Reachable(l0, args, [], idle);
    var begun := Next(idle, args, Begin);
    assert [Begin][..0] == [] && Reachable(l0, args, [Begin], begun);
    PromisingSelfRunning(l0, args);
    ReachablePayInv(l0, args, [Begin], begun);
    var n, t := Completes(args, begun, s => Promising(l0, args, s));
    evs := StepsReach(l0, args, [Begin], begun, n, t);
    s := t;
  }

  /** Or it is cut short after its last posting. */
  lemma AlmostFinishes(l0: Ledger, args: Args) returns (evs: seq<Event>, s: System)
    requires Usable(l0, args) && HoldsEnough(l0, args)
    ensures Reachable(l0, args, evs, s) && s.attempt == NotRunning
    ensures forall k :: 0 <= k < |args.legs| && args.legs[k].amount > 0 ==> IsPosted(s.l, args.legs[k].id)
  {
    var front, done := Finishes(l0, args);
    ReachablePayInv(l0, args, front, done);
    evs, s := front + [Crash], Next(done, args, Crash);
    assert evs[..|evs| - 1] == front;
  }

  ghost predicate Succeeds(l0: Ledger, args: Args, evs: seq<Event>, s: System) {
    Reachable(l0, args, evs, s) && s.attempt == Returned(true)
  }

  /** Some history of attempts succeeds if and only if every held leg is held for enough: a resume whose sums have grown
      past a hold can never go through. */
  lemma CanFinish(l0: Ledger, args: Args)
    requires Usable(l0, args)
    ensures (exists evs, s :: Succeeds(l0, args, evs, s)) <==> HoldsEnough(l0, args)
  {
    if HoldsEnough(l0, args) {
      var evs, s := Finishes(l0, args);
      assert Succeeds(l0, args, evs, s);
    } else {
      var k :| 0 <= k < |args.legs| && ShortHeld(l0, args.legs[k]);
      forall evs, s | Succeeds(l0, args, evs, s)
        ensures false
      {
        ShortHeldNeverFinishes(l0, args, evs, s, k);
      }
    }
  }
}
