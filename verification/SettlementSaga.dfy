/** The resumable settlement saga (services/pos-vat/handlers.go:358-459): the federal, state and local legs of
    a period are each held pending under a deterministic id and then posted. An attempt may be cut short by a
    crash between any two ledger calls or by a posting that is refused without effect; the next attempt picks
    up from what the ledger says. */
module SettlementSaga {
  import opened PosLedger

  /** One leg: its pending id, the id its reversal would have, its amount and the pool it credits. */
  datatype Leg = Leg(id: string, reversalId: string, amount: int, pool: string)

  datatype Stage = Check | Hold | Post | Refused

  datatype Attempt = NotRunning | Active(leg: nat, stage: Stage, posted: set<nat>) | Returned(ok: bool)

  datatype Args = Args(merchant: string, legs: seq<Leg>)

  datatype System = System(l: Ledger, attempt: Attempt, reversals: nat)

  datatype Event = Begin | Step | RefusePost | Crash

  function PendingOrder(args: Args, leg: Leg): LedgerTransfer {
    LedgerTransfer(leg.id, args.merchant, leg.pool, leg.amount)
  }

  predicate HasState(l: Ledger, id: string, state: State) {
    id in l.transfers && l.transfers[id].state == state
  }

  /** Reverse the legs this attempt has seen posted. */
  function Compensate(s: System, args: Args, k: nat, posted: set<nat>): System
    requires k <= |args.legs|
  {
    if k == 0 then s
    else
      var before := Compensate(s, args, k - 1, posted);
      var leg := args.legs[k - 1];
      if k - 1 !in posted then before
      else
        before.(l := DoTransfer(before.l, LedgerTransfer(leg.reversalId, leg.pool, args.merchant, leg.amount)).0,
                reversals := before.reversals + 1)
  }

  function LegStep(s: System, args: Args): System
    requires KnownAccounts(s.l) && s.attempt.Active? && s.attempt.leg < |args.legs|
  {
    var Active(k, stage, posted) := s.attempt;
    var leg := args.legs[k];
    match stage
    case Check =>
      if HasState(s.l, leg.id, Posted) then s.(attempt := Active(k + 1, Check, posted + {k}))
      else s.(attempt := Active(k, Hold, posted))
    case Hold =>
      var (l', ok) := DoPending(s.l, PendingOrder(args, leg));
      if !ok && leg.id !in l'.transfers then s.(l := l', attempt := Returned(false))
      else s.(l := l', attempt := Active(k, Post, posted))
    case Post =>
      var (l', ok) := DoPost(s.l, leg.id, leg.amount);
      if ok then s.(l := l', attempt := Active(k + 1, Check, posted + {k}))
      else s.(l := l', attempt := Active(k, Refused, posted))
    case Refused =>
      if HasState(s.l, leg.id, Pending) then s.(attempt := Returned(false))
      else Compensate(s, args, |args.legs|, posted).(attempt := Returned(false))
  }

  function Next(s: System, args: Args, ev: Event): System
    requires KnownAccounts(s.l)
  {
    match ev
    case Begin => if s.attempt.Active? then s else s.(attempt := Active(0, Check, {}))
    case Crash => s.(attempt := NotRunning)
    case RefusePost =>
      if s.attempt.Active? && s.attempt.leg < |args.legs| && s.attempt.stage == Post then
        s.(attempt := s.attempt.(stage := Refused))
      else s
    case Step =>
      if !s.attempt.Active? then s
      else if s.attempt.leg >= |args.legs| then s.(attempt := Returned(true))
      else if args.legs[s.attempt.leg].amount <= 0 then
        s.(attempt := Active(s.attempt.leg + 1, Check, s.attempt.posted))
      else LegStep(s, args)
  }

  // ----- What the ledger must look like -----

  /** The period's arguments against the ledger it starts from: fresh distinct ids, known accounts, a merchant
      account without float limit, distinct pools. */
  ghost predicate Ready(l0: Ledger, args: Args) {
    && KnownAccounts(l0)
    && args.merchant in l0.accounts && !l0.accounts[args.merchant].flagged
    && (forall k :: 0 <= k < |args.legs| ==>
          args.legs[k].pool in l0.accounts && args.legs[k].id != "" && args.legs[k].id !in l0.transfers)
    && (forall j, k :: 0 <= j < k < |args.legs| ==>
          args.legs[j].id != args.legs[k].id && args.legs[j].pool != args.legs[k].pool)
  }

  /** The amounts of the legs in a given state, for one pool or for all. */
  function Moved(legs: seq<Leg>, l: Ledger, state: State, pool: string, all: bool): int {
    if legs == [] then 0
    else
      var leg := legs[|legs| - 1];
      Moved(legs[..|legs| - 1], l, state, pool, all)
      + if HasState(l, leg.id, state) && (all || leg.pool == pool) then leg.amount else 0
  }

  /** The ledger is the initial one plus exactly the legs, as far as each has come. */
  ghost predicate AccountsExact(l0: Ledger, args: Args, l: Ledger) {
    && l.accounts.Keys == l0.accounts.Keys
    && forall a :: a in l0.accounts ==> AccountExact(l0, args, l, a)
  }

  ghost predicate AccountExact(l0: Ledger, args: Args, l: Ledger, a: string)
    requires a in l0.accounts && a in l.accounts
  {
    var b, c := l0.accounts[a], l.accounts[a];
    && c.flagged == b.flagged
    && c.debitsPosted == b.debitsPosted + (if a == args.merchant then Moved(args.legs, l, Posted, a, true) else 0)
    && c.creditsPosted == b.creditsPosted + Moved(args.legs, l, Posted, a, false)
    && c.debitsPending == b.debitsPending + (if a == args.merchant then Moved(args.legs, l, Pending, a, true) else 0)
    && c.creditsPending == b.creditsPending + Moved(args.legs, l, Pending, a, false)
  }

  ghost predicate TransfersExact(l0: Ledger, args: Args, l: Ledger) {
    && (forall id :: id in l0.transfers ==> id in l.transfers && l.transfers[id] == l0.transfers[id])
    && (forall k :: 0 <= k < |args.legs| && args.legs[k].id in l.transfers ==>
          args.legs[k].amount > 0 && l.transfers[args.legs[k].id].t == PendingOrder(args, args.legs[k])
          && l.transfers[args.legs[k].id].state != Voided)
    && KnownAccounts(l)
  }

  ghost predicate AttemptOk(args: Args, s: System) {
    match s.attempt
    case NotRunning => true
    case Returned(ok) => ok ==> AllPosted(args, s.l, |args.legs|)
    case Active(k, stage, posted) =>
      && k <= |args.legs| && AllPosted(args, s.l, k)
      && (stage != Check ==> k < |args.legs| && args.legs[k].amount > 0)
      && (stage == Hold ==> !HasState(s.l, args.legs[k].id, Posted))
      && (stage == Post || stage == Refused ==> HasState(s.l, args.legs[k].id, Pending))
  }

  ghost predicate AllPosted(args: Args, l: Ledger, k: nat)
    requires k <= |args.legs|
  {
    forall j :: 0 <= j < k && args.legs[j].amount > 0 ==> HasState(l, args.legs[j].id, Posted)
  }

  ghost predicate Inv(l0: Ledger, args: Args, s: System) {
    Ready(l0, args) && Exact(l0, args, s.l) && AttemptOk(args, s) && s.reversals == 0
  }

  // ----- One ledger call -----

  /** Changing the state of leg `k` moves its amount between the sums. */
  lemma {:induction false} MovedUpdate(legs: seq<Leg>, l: Ledger, l': Ledger, k: nat, state: State, pool: string,
                                       all: bool)
    requires forall i, j :: 0 <= i < j < |legs| ==> legs[i].id != legs[j].id
    requires forall i :: 0 <= i < |legs| && i != k ==>
      (legs[i].id in l.transfers <==> legs[i].id in l'.transfers)
      && (legs[i].id in l.transfers ==> l.transfers[legs[i].id] == l'.transfers[legs[i].id])
    ensures Moved(legs, l', state, pool, all) == Moved(legs, l, state, pool, all)
      + if k < |legs| && (all || legs[k].pool == pool) then
          (if HasState(l', legs[k].id, state) then legs[k].amount else 0)
          - (if HasState(l, legs[k].id, state) then legs[k].amount else 0)
        else 0
    decreases |legs|
  {
    if legs != [] {
      MovedUpdate(legs[..|legs| - 1], l, l', k, state, pool, all);
    }
  }

  lemma {:induction false} MovedNothing(legs: seq<Leg>, l: Ledger, state: State, pool: string, all: bool)
    requires forall i :: 0 <= i < |legs| ==> legs[i].id !in l.transfers
    ensures Moved(legs, l, state, pool, all) == 0
    decreases |legs|
  {
    if legs != [] {
      MovedNothing(legs[..|legs| - 1], l, state, pool, all);
    }
  }

  lemma HeldAt(m: map<string, Account>, d: string, c: string, x: int, a: string)
    requires d in m && c in m && a in m
    ensures AddPending(m, d, c, x)[a] == m[a].(debitsPending := m[a].debitsPending + (if a == d then x else 0),
                                               creditsPending := m[a].creditsPending + (if a == c then x else 0))
  {
  }

  lemma PostedAt(m: map<string, Account>, d: string, c: string, x: int, a: string)
    requires d in m && c in m && a in m
    ensures AddPosted(m, d, c, x)[a] == m[a].(debitsPosted := m[a].debitsPosted + (if a == d then x else 0),
                                              creditsPosted := m[a].creditsPosted + (if a == c then x else 0))
  {
  }

  /** Replacing one leg's entry changes only that leg's share of the sums. */
  lemma LegMoves(args: Args, l: Ledger, l': Ledger, k: nat, e: Entry, a: string)
    requires k < |args.legs| && forall i, j :: 0 <= i < j < |args.legs| ==> args.legs[i].id != args.legs[j].id
    requires l'.transfers == l.transfers[args.legs[k].id := e]
    ensures forall state, all: bool {:trigger Moved(args.legs, l', state, a, all)} ::
      Moved(args.legs, l', state, a, all) == Moved(args.legs, l, state, a, all)
        + if all || args.legs[k].pool == a then
            (if e.state == state then args.legs[k].amount else 0)
            - (if HasState(l, args.legs[k].id, state) then args.legs[k].amount else 0)
          else 0
  {
    forall state, all: bool {
      MovedUpdate(args.legs, l, l', k, state, a, all);
    }
  }

  lemma HoldAccount(l0: Ledger, args: Args, l: Ledger, l': Ledger, k: nat, a: string)
    requires a in l0.accounts && a in l.accounts && AccountExact(l0, args, l, a)
    requires k < |args.legs| && forall i, j :: 0 <= i < j < |args.legs| ==> args.legs[i].id != args.legs[j].id
    requires args.legs[k].id !in l.transfers && args.merchant in l.accounts && args.legs[k].pool in l.accounts
    requires l'.transfers == l.transfers[args.legs[k].id := Entry(PendingOrder(args, args.legs[k]), Pending)]
    requires l'.accounts == AddPending(l.accounts, args.merchant, args.legs[k].pool, args.legs[k].amount)
    ensures AccountExact(l0, args, l', a)
  {
    HeldAt(l.accounts, args.merchant, args.legs[k].pool, args.legs[k].amount, a);
    LegMoves(args, l, l', k, Entry(PendingOrder(args, args.legs[k]), Pending), a);
  }

  lemma PostAccount(l0: Ledger, args: Args, l: Ledger, l': Ledger, k: nat, a: string)
    requires a in l0.accounts && a in l.accounts && AccountExact(l0, args, l, a)
    requires k < |args.legs| && forall i, j :: 0 <= i < j < |args.legs| ==> args.legs[i].id != args.legs[j].id
    requires HasState(l, args.legs[k].id, Pending) && args.merchant in l.accounts && args.legs[k].pool in l.accounts
    requires l'.transfers == l.transfers[args.legs[k].id := Entry(PendingOrder(args, args.legs[k]), Posted)]
    requires l'.accounts == AddPosted(AddPending(l.accounts, args.merchant, args.legs[k].pool, -args.legs[k].amount),
                                      args.merchant, args.legs[k].pool, args.legs[k].amount)
    ensures AccountExact(l0, args, l', a)
  {
    var released := AddPending(l.accounts, args.merchant, args.legs[k].pool, -args.legs[k].amount);
    HeldAt(l.accounts, args.merchant, args.legs[k].pool, -args.legs[k].amount, a);
    PostedAt(released, args.merchant, args.legs[k].pool, args.legs[k].amount, a);
    LegMoves(args, l, l', k, Entry(PendingOrder(args, args.legs[k]), Posted), a);
  }

  /** Entering a leg, or changing its state, keeps the transfers exact. */
  lemma TransfersStep(l0: Ledger, args: Args, l: Ledger, l': Ledger, k: nat, e: Entry)
    requires Ready(l0, args) && TransfersExact(l0, args, l) && k < |args.legs| && args.legs[k].amount > 0
    requires args.merchant in l.accounts && args.legs[k].pool in l.accounts && l'.accounts.Keys == l.accounts.Keys
    requires e.t == PendingOrder(args, args.legs[k]) && e.state != Voided
    requires l'.transfers == l.transfers[args.legs[k].id := e]
    ensures TransfersExact(l0, args, l')
  {
  }

  /** What holding leg `k` does to the ledger. */
  lemma HoldResult(l0: Ledger, args: Args, l: Ledger, k: nat)
    requires Ready(l0, args) && AccountsExact(l0, args, l) && k < |args.legs| && args.legs[k].amount > 0
    requires args.legs[k].id !in l.transfers
    ensures args.merchant in l.accounts && args.legs[k].pool in l.accounts
    ensures DoPending(l, PendingOrder(args, args.legs[k])) ==
      (Ledger(AddPending(l.accounts, args.merchant, args.legs[k].pool, args.legs[k].amount),
              l.transfers[args.legs[k].id := Entry(PendingOrder(args, args.legs[k]), Pending)], l.seqNo), true)
  {
    assert AccountExact(l0, args, l, args.merchant);
  }

  /** What posting a pending transfer in full does, when its debit account has no float limit. */
  lemma FullPosting(l: Ledger, id: string, t: LedgerTransfer)
    requires KnownAccounts(l) && HasState(l, id, Pending) && l.transfers[id].t == t
    requires !l.accounts[t.debit].flagged
    ensures DoPost(l, id, t.amount) ==
      (Ledger(AddPosted(AddPending(l.accounts, t.debit, t.credit, -t.amount), t.debit, t.credit, t.amount),
              l.transfers[id := Entry(t, Posted)], l.seqNo), true)
  {
    HeldAt(l.accounts, t.debit, t.credit, -t.amount, t.debit);
  }

  lemma PostResult(args: Args, l: Ledger, k: nat)
    requires KnownAccounts(l) && k < |args.legs| && HasState(l, args.legs[k].id, Pending)
    requires l.transfers[args.legs[k].id].t == PendingOrder(args, args.legs[k]) && !l.accounts[args.merchant].flagged
    ensures var leg := args.legs[k];
      DoPost(l, leg.id, leg.amount) ==
        (Ledger(AddPosted(AddPending(l.accounts, args.merchant, leg.pool, -leg.amount), args.merchant, leg.pool,
                          leg.amount),
                l.transfers[leg.id := Entry(PendingOrder(args, leg), Posted)], l.seqNo), true)
  {
    FullPosting(l, args.legs[k].id, PendingOrder(args, args.legs[k]));
  }

  lemma AccountsKnown(l0: Ledger, args: Args, l: Ledger)
    requires Ready(l0, args) && AccountsExact(l0, args, l)
    ensures args.merchant in l.accounts && !l.accounts[args.merchant].flagged
    ensures forall k :: 0 <= k < |args.legs| ==> args.legs[k].pool in l.accounts
  {
    assert AccountExact(l0, args, l, args.merchant);
  }

  lemma HoldExact(l0: Ledger, args: Args, l: Ledger, k: nat)
    requires Ready(l0, args) && AccountsExact(l0, args, l) && TransfersExact(l0, args, l)
    requires k < |args.legs| && args.legs[k].amount > 0 && args.legs[k].id !in l.transfers
    ensures AccountsExact(l0, args, DoPending(l, PendingOrder(args, args.legs[k])).0)
    ensures TransfersExact(l0, args, DoPending(l, PendingOrder(args, args.legs[k])).0)
  {
    var l' := DoPending(l, PendingOrder(args, args.legs[k])).0;
    HoldResult(l0, args, l, k);
    TransfersStep(l0, args, l, l', k, Entry(PendingOrder(args, args.legs[k]), Pending));
    forall a | a in l0.accounts
      ensures AccountExact(l0, args, l', a)
    {
      HoldAccount(l0, args, l, l', k, a);
    }
  }

  lemma PostExact(l0: Ledger, args: Args, l: Ledger, k: nat)
    requires Ready(l0, args) && AccountsExact(l0, args, l) && TransfersExact(l0, args, l)
    requires k < |args.legs| && HasState(l, args.legs[k].id, Pending)
    ensures AccountsExact(l0, args, DoPost(l, args.legs[k].id, args.legs[k].amount).0)
    ensures TransfersExact(l0, args, DoPost(l, args.legs[k].id, args.legs[k].amount).0)
  {
    var l' := DoPost(l, args.legs[k].id, args.legs[k].amount).0;
    AccountsKnown(l0, args, l);
    PostResult(args, l, k);
    TransfersStep(l0, args, l, l', k, Entry(PendingOrder(args, args.legs[k]), Posted));
    forall a | a in l0.accounts
      ensures AccountExact(l0, args, l', a)
    {
      PostAccount(l0, args, l, l', k, a);
    }
  }

  /** The attempt's bookkeeping over one step, whatever else `p` says of the ledger. */
  lemma HoldStep(args: Args, s: System, p: Ledger -> bool)
    requires KnownAccounts(s.l) && AttemptOk(args, s) && p(s.l)
    requires s.attempt.Active? && s.attempt.leg < |args.legs| && s.attempt.stage == Hold
    requires var leg := args.legs[s.attempt.leg];
      && leg.id != "" && (leg.id in s.l.transfers ==> s.l.transfers[leg.id] == Entry(PendingOrder(args, leg), Pending))
      && (leg.id !in s.l.transfers ==>
            Accepts(s.l, PendingOrder(args, leg)) && p(DoPending(s.l, PendingOrder(args, leg)).0))
    ensures p(LegStep(s, args).l) && AttemptOk(args, LegStep(s, args)) && LegStep(s, args).reversals == s.reversals
  {
  }

  lemma PostStep(args: Args, s: System, p: Ledger -> bool)
    requires KnownAccounts(s.l) && AttemptOk(args, s)
    requires s.attempt.Active? && s.attempt.leg < |args.legs| && s.attempt.stage == Post
    requires forall i, j :: 0 <= i < j < |args.legs| ==> args.legs[i].id != args.legs[j].id
    requires var leg := args.legs[s.attempt.leg];
      && HasState(s.l, leg.id, Pending) && s.l.transfers[leg.id].t == PendingOrder(args, leg)
      && !s.l.accounts[args.merchant].flagged && p(DoPost(s.l, leg.id, leg.amount).0)
    ensures p(LegStep(s, args).l) && AttemptOk(args, LegStep(s, args)) && LegStep(s, args).reversals == s.reversals
  {
    FullPosting(s.l, args.legs[s.attempt.leg].id, PendingOrder(args, args.legs[s.attempt.leg]));
  }

  ghost predicate Exact(l0: Ledger, args: Args, l: Ledger) {
    AccountsExact(l0, args, l) && TransfersExact(l0, args, l)
  }

  lemma StepKeepsInv(l0: Ledger, args: Args, s: System)
    requires Inv(l0, args, s) && s.attempt.Active? && s.attempt.leg < |args.legs| && args.legs[s.attempt.leg].amount > 0
    ensures Inv(l0, args, LegStep(s, args))
  {
    hide AccountsExact, DoPost, DoPending;
    var k := s.attempt.leg;
    AccountsKnown(l0, args, s.l);
    match s.attempt.stage
    case Check =>
    case Hold =>
      if args.legs[k].id !in s.l.transfers {
        HoldExact(l0, args, s.l, k);
      }
      HoldStep(args, s, l => Exact(l0, args, l));
    case Post =>
      PostExact(l0, args, s.l, k);
      PostStep(args, s, l => Exact(l0, args, l));
    case Refused =>
  }

  lemma NextKeepsInv(l0: Ledger, args: Args, s: System, ev: Event)
    requires Inv(l0, args, s)
    ensures Inv(l0, args, Next(s, args, ev))
  {
    if ev == Step && s.attempt.Active? && s.attempt.leg < |args.legs| && args.legs[s.attempt.leg].amount > 0 {
      StepKeepsInv(l0, args, s);
    }
  }

  // ----- Whole histories -----

  ghost predicate Reachable(l0: Ledger, args: Args, evs: seq<Event>, s: System)
    decreases |evs|
  {
    if evs == [] then s == System(l0, NotRunning, 0)
    else exists before ::
      Reachable(l0, args, evs[..|evs| - 1], before) && KnownAccounts(before.l)
        && s == Next(before, args, evs[|evs| - 1])
  }

  lemma {:induction false} ReachableInv(l0: Ledger, args: Args, evs: seq<Event>, s: System)
    requires Ready(l0, args) && Reachable(l0, args, evs, s)
    ensures Inv(l0, args, s)
    decreases |evs|
  {
    if evs == [] {
      forall a | a in l0.accounts
        ensures AccountExact(l0, args, l0, a)
      {
        MovedNothing(args.legs, l0, Posted, a, true);
        MovedNothing(args.legs, l0, Posted, a, false);
        MovedNothing(args.legs, l0, Pending, a, true);
        MovedNothing(args.legs, l0, Pending, a, false);
      }
    } else {
      var before :| Reachable(l0, args, evs[..|evs| - 1], before) && KnownAccounts(before.l)
                    && s == Next(before, args, evs[|evs| - 1]);
      ReachableInv(l0, args, evs[..|evs| - 1], before);
      NextKeepsInv(l0, args, before, evs[|evs| - 1]);
    }
  }

  /** One leg's share of its pool: with distinct pools the sum is that leg alone. */
  lemma {:induction false} MovedSingle(legs: seq<Leg>, l: Ledger, k: nat)
    requires forall i, j :: 0 <= i < j < |legs| ==> legs[i].id != legs[j].id && legs[i].pool != legs[j].pool
    requires k < |legs|
    ensures Moved(legs, l, Posted, legs[k].pool, false) == if HasState(l, legs[k].id, Posted) then legs[k].amount else 0
    decreases |legs|
  {
    if k < |legs| - 1 {
      MovedSingle(legs[..|legs| - 1], l, k);
    } else {
      MovedElsewhere(legs[..k], l, legs[k].pool);
    }
  }

  lemma {:induction false} MovedElsewhere(legs: seq<Leg>, l: Ledger, pool: string)
    requires forall i :: 0 <= i < |legs| ==> legs[i].pool != pool
    ensures Moved(legs, l, Posted, pool, false) == 0
    decreases |legs|
  {
    if legs != [] {
      MovedElsewhere(legs[..|legs| - 1], l, pool);
    }
  }

  /** Whatever crashes and refusals occur, no leg is posted twice and none is reversed: each pool has been
      credited by the leg's amount or not at all, and by its amount once an attempt returns success. */
  lemma PostsOnce(l0: Ledger, args: Args, evs: seq<Event>, s: System, k: nat)
    requires Ready(l0, args) && Reachable(l0, args, evs, s) && k < |args.legs|
    ensures var leg := args.legs[k];
      && s.reversals == 0 && leg.pool in l0.accounts && leg.pool in s.l.accounts
      && s.l.accounts[leg.pool].creditsPosted - l0.accounts[leg.pool].creditsPosted
         == (if HasState(s.l, leg.id, Posted) then leg.amount else 0)
      && (s.attempt == Returned(true) && leg.amount > 0 ==> HasState(s.l, leg.id, Posted))
  {
    ReachableInv(l0, args, evs, s);
    MovedSingle(args.legs, s.l, k);
    assert AccountExact(l0, args, s.l, args.legs[k].pool);
  }

  // ----- No attempt is stuck -----

  ghost predicate StepsTo(args: Args, s: System, n: nat, t: System)
    decreases n
  {
    if n == 0 then s == t else KnownAccounts(s.l) && StepsTo(args, Next(s, args, Step), n - 1, t)
  }

  function Rank(stage: Stage): nat {
    match stage
    case Check => 3
    case Hold => 2
    case Post => 1
    case Refused => 0
  }

  /** One undisturbed step makes progress: the stage advances, or the leg does. */
  lemma StepProgresses(l0: Ledger, args: Args, s: System)
    requires Inv(l0, args, s) && s.attempt.Active? && s.attempt.leg < |args.legs| && s.attempt.stage != Refused
    ensures var s' := Next(s, args, Step);
      && s'.attempt.Active? && s'.attempt.stage != Refused
      && (s'.attempt.leg == s.attempt.leg + 1
          || (s'.attempt.leg == s.attempt.leg && Rank(s'.attempt.stage) < Rank(s.attempt.stage)))
  {
    var k := s.attempt.leg;
    if args.legs[k].amount > 0 {
      AccountsKnown(l0, args, s.l);
      match s.attempt.stage
      case Check =>
      case Hold =>
      case Post => PostResult(args, s.l, k);
      case Refused =>
    }
  }

  lemma OneMore(args: Args, s: System, s': System, n: nat, t: System)
    requires KnownAccounts(s.l) && s' == Next(s, args, Step) && StepsTo(args, s', n, t)
    ensures StepsTo(args, s, n + 1, t)
  {
  }

  predicate UnderWay(args: Args, s: System) {
    s.attempt.Active? && s.attempt.leg < |args.legs| && s.attempt.stage != Refused
  }

  ghost predicate Progresses(args: Args, s: System, good: System -> bool) {
    && KnownAccounts(s.l)
    && UnderWay(args, s)
    && var s' := Next(s, args, Step);
      && good(s') && s'.attempt.Active? && s'.attempt.stage != Refused
      && (s'.attempt.leg == s.attempt.leg + 1
          || (s'.attempt.leg == s.attempt.leg && Rank(s'.attempt.stage) < Rank(s.attempt.stage)))
  }

  /** States that stay good under undisturbed steps. */
  ghost predicate SelfRunning(args: Args, good: System -> bool) {
    && (forall s :: good(s) ==> KnownAccounts(s.l))
    && (forall s {:trigger UnderWay(args, s)} :: good(s) && UnderWay(args, s) ==> Progresses(args, s, good))
  }

  lemma InvSelfRunning(l0: Ledger, args: Args)
    ensures SelfRunning(args, s => Inv(l0, args, s))
  {
    forall s | Inv(l0, args, s) && UnderWay(args, s)
      ensures Progresses(args, s, s => Inv(l0, args, s))
    {
      StepProgresses(l0, args, s);
      NextKeepsInv(l0, args, s, Step);
    }
  }

  lemma {:induction false} Completes(args: Args, s: System, good: System -> bool) returns (n: nat, t: System)
    requires SelfRunning(args, good) && good(s) && s.attempt.Active? && s.attempt.stage != Refused
    ensures StepsTo(args, s, n, t) && t.attempt == Returned(true)
    decreases |args.legs| - s.attempt.leg, Rank(s.attempt.stage)
  {
    var s' := Next(s, args, Step);
    if UnderWay(args, s) {
      assert Progresses(args, s, good);
      n, t := Completes(args, s', good);
      OneMore(args, s, s', n, t);
    } else {
      n, t := 0, s';
      OneMore(args, s, t, n, t);
    }
    n := n + 1;
  }

  /** After any history of crashes and refusals, one undisturbed attempt settles the period. */
  lemma AlwaysResumable(l0: Ledger, args: Args, evs: seq<Event>, s: System) returns (n: nat, t: System)
    requires Ready(l0, args) && Reachable(l0, args, evs, s) && !s.attempt.Active?
    ensures KnownAccounts(s.l) && StepsTo(args, Next(s, args, Begin), n, t) && t.attempt == Returned(true)
  {
    ReachableInv(l0, args, evs, s);
    NextKeepsInv(l0, args, s, Begin);
    InvSelfRunning(l0, args);
    n, t := Completes(args, Next(s, args, Begin), s => Inv(l0, args, s));
  }
}
