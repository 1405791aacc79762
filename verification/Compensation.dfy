/** When the settlement saga reverses legs it has posted (services/pos-vat/handlers.go:428-447): only when the id of a
    leg it must pay has been voided, and then again in every attempt. */
module Compensation {
  import opened PosLedger
  import opened SettlementSaga
  import opened SagaPayments

  predicate IsVoided(l: Ledger, id: string) {
    HasState(l, id, Voided)
  }

  /** Reversals have ids of their own. */
  ghost predicate OwnReversals(args: Args) {
    && DistinctLegs(args)
    && (forall j :: 0 <= j < |args.legs| ==> args.legs[j].reversalId != "")
    && forall j, k :: 0 <= j < |args.legs| && 0 <= k < |args.legs| ==> args.legs[j].reversalId != args.legs[k].id
  }

  // ----- Only a voided leg is compensated -----

  /** Some leg there is something to pay for has been voided. */
  ghost predicate SomeVoided(l: Ledger, args: Args) {
    exists k :: 0 <= k < |args.legs| && args.legs[k].amount > 0 && IsVoided(l, args.legs[k].id)
  }

  ghost predicate NoneNewlyVoided(l0: Ledger, args: Args, l: Ledger) {
    forall k :: 0 <= k < |args.legs| && IsVoided(l, args.legs[k].id) ==> IsVoided(l0, args.legs[k].id)
  }

  /** An attempt that has got to holding a leg has not found it posted, and one that has got to posting it has an
      entry. */
  predicate StageOk(args: Args, s: System) {
    s.attempt.Active? && s.attempt.stage != Check ==>
      && s.attempt.leg < |args.legs| && args.legs[s.attempt.leg].amount > 0
      && !IsPosted(s.l, args.legs[s.attempt.leg].id)
      && (s.attempt.stage != Hold ==> args.legs[s.attempt.leg].id in s.l.transfers)
  }

  ghost predicate VoidInv(l0: Ledger, args: Args, s: System) {
    NoneNewlyVoided(l0, args, s.l) && StageOk(args, s) && (s.reversals > 0 ==> SomeVoided(l0, args))
  }

  /** Reversing touches no leg. */
  lemma {:induction false} CompensateKeepsLegs(s: System, args: Args, n: nat, posted: set<nat>, k: nat)
    requires OwnReversals(args) && n <= |args.legs| && k < |args.legs|
    ensures var l' := Compensate(s, args, n, posted).l;
      && (args.legs[k].id in l'.transfers <==> args.legs[k].id in s.l.transfers)
      && (args.legs[k].id in l'.transfers ==> l'.transfers[args.legs[k].id] == s.l.transfers[args.legs[k].id])
    decreases n
  {
    if n > 0 {
      CompensateKeepsLegs(s, args, n - 1, posted, k);
    }
  }

  lemma RefusedKeeps(l0: Ledger, args: Args, s: System)
    requires OwnReversals(args) && KnownAccounts(s.l) && VoidInv(l0, args, s)
    requires s.attempt.Active? && s.attempt.leg < |args.legs| && s.attempt.stage == Refused
    ensures VoidInv(l0, args, LegStep(s, args))
  {
    var k, s' := s.attempt.leg, LegStep(s, args);
    if !HasState(s.l, args.legs[k].id, Pending) {
      assert IsVoided(s.l, args.legs[k].id) && SomeVoided(l0, args);
      forall j | 0 <= j < |args.legs| && IsVoided(s'.l, args.legs[j].id)
        ensures IsVoided(l0, args.legs[j].id)
      {
        CompensateKeepsLegs(s, args, |args.legs|, s.attempt.posted, j);
      }
    }
  }

  lemma HoldVoids(l0: Ledger, args: Args, s: System)
    requires OwnReversals(args) && KnownAccounts(s.l) && VoidInv(l0, args, s)
    requires s.attempt.Active? && s.attempt.leg < |args.legs| && s.attempt.stage == Hold
    ensures VoidInv(l0, args, LegStep(s, args))
  {
    hide AddPending, SomeVoided;
  }

  lemma PostVoids(l0: Ledger, args: Args, s: System)
    requires OwnReversals(args) && KnownAccounts(s.l) && VoidInv(l0, args, s)
    requires s.attempt.Active? && s.attempt.leg < |args.legs| && s.attempt.stage == Post
    ensures VoidInv(l0, args, LegStep(s, args))
  {
    hide AddPending, AddPosted, SomeVoided;
  }

  lemma NextKeepsVoidInv(l0: Ledger, args: Args, s: System, ev: Event)
    requires OwnReversals(args) && KnownAccounts(s.l) && VoidInv(l0, args, s)
    ensures VoidInv(l0, args, Next(s, args, ev))
  {
    hide SomeVoided, NoneNewlyVoided, Compensate, DoPost, DoPending;
    if ev == Step && s.attempt.Active? && s.attempt.leg < |args.legs| && args.legs[s.attempt.leg].amount > 0 {
      match s.attempt.stage
      case Check =>
      case Hold => HoldVoids(l0, args, s);
      case Post => PostVoids(l0, args, s);
      case Refused => RefusedKeeps(l0, args, s);
    }
  }

  /** On any ledger and after any history: if anything has been reversed, a leg there was something to pay for had been
      voided before the first attempt. */
  lemma {:induction false} ReversesOnlyIfVoided(l0: Ledger, args: Args, evs: seq<Event>, s: System)
    requires OwnReversals(args) && Reachable(l0, args, evs, s)
    ensures s.reversals > 0 ==> SomeVoided(l0, args)
    ensures VoidInv(l0, args, s)
    decreases |evs|
  {
    if evs != [] {
      hide VoidInv, OwnReversals;
      var before :| Reachable(l0, args, evs[..|evs| - 1], before) && KnownAccounts(before.l)
                    && s == Next(before, args, evs[|evs| - 1]);
      ReversesOnlyIfVoided(l0, args, evs[..|evs| - 1], before);
      NextKeepsVoidInv(l0, args, before, evs[|evs| - 1]);
      InvReverses(l0, args, s);
    }
  }

  lemma InvReverses(l0: Ledger, args: Args, s: System)
    requires VoidInv(l0, args, s)
    ensures s.reversals > 0 ==> SomeVoided(l0, args)
  {
  }

  // ----- A voided leg is compensated in every attempt -----

  /** The legs before the k-th there is something to pay for. */
  function Seen(args: Args, k: nat): set<nat>
    requires k <= |args.legs|
  {
    set j: nat | j < k && args.legs[j].amount > 0
  }

  function Positive(args: Args, k: nat): nat
    requires k <= |args.legs|
  {
    if k == 0 then 0 else Positive(args, k - 1) + if args.legs[k - 1].amount > 0 then 1 else 0
  }

  function Debits(l: Ledger, a: string): int {
    if a in l.accounts then l.accounts[a].debitsPosted else 0
  }

  ghost predicate OpenAccounts(l: Ledger, args: Args) {
    && KnownAccounts(l) && args.merchant in l.accounts
    && forall j :: 0 <= j < |args.legs| ==>
         args.legs[j].pool in l.accounts && args.legs[j].pool != args.merchant && !l.accounts[args.legs[j].pool].flagged
  }

  /** The k-th leg is the first that cannot be posted: it is voided, and the ones before it are posted. */
  ghost predicate Stuck(l: Ledger, args: Args, k: nat) {
    && k < |args.legs| && args.legs[k].amount > 0 && IsVoided(l, args.legs[k].id) && AllPosted(args, l, k)
  }

  /** One reversal debits its pool. */
  lemma OneReversal(l: Ledger, args: Args, j: nat, i: nat)
    requires OwnReversals(args) && OpenAccounts(l, args) && j < |args.legs| && i < |args.legs|
      && args.legs[j].amount > 0
    ensures var leg := args.legs[j];
      var l' := DoTransfer(l, LedgerTransfer(leg.reversalId, leg.pool, args.merchant, leg.amount)).0;
      && OpenAccounts(l', args)
      && Debits(l', args.legs[i].pool) == Debits(l, args.legs[i].pool) + if i == j then leg.amount else 0
  {
  }

  /** All reversals of one compensation. */
  lemma {:induction false} ReversesSeen(s: System, args: Args, n: nat, k: nat, i: nat)
    requires OwnReversals(args) && OpenAccounts(s.l, args) && n <= |args.legs| && k <= |args.legs| && i < |args.legs|
    ensures var s' := Compensate(s, args, n, Seen(args, k));
      && OpenAccounts(s'.l, args) && s'.reversals == s.reversals + Positive(args, if n < k then n else k)
      && Debits(s'.l, args.legs[i].pool) == Debits(s.l, args.legs[i].pool)
           + if i < n && i < k && args.legs[i].amount > 0 then args.legs[i].amount else 0
    decreases n
  {
    hide OwnReversals, OpenAccounts, DoTransfer, Debits, Seen;
    if n > 0 {
      CompensateNext(s, args, n, Seen(args, k));
      PositiveNext(args, n, k);
      hide Compensate, Positive;
      ReversesSeen(s, args, n - 1, k, i);
      var before := Compensate(s, args, n - 1, Seen(args, k));
      SeenHas(args, k, n - 1);
      if n - 1 < k && args.legs[n - 1].amount > 0 {
        OneReversal(before.l, args, n - 1, i);
      }
    }
  }

  lemma CompensateNext(s: System, args: Args, n: nat, posted: set<nat>)
    requires 0 < n <= |args.legs|
    ensures var before, leg := Compensate(s, args, n - 1, posted), args.legs[n - 1];
      Compensate(s, args, n, posted) ==
        if n - 1 !in posted then before
        else before.(l := DoTransfer(before.l, LedgerTransfer(leg.reversalId, leg.pool, args.merchant, leg.amount)).0,
                     reversals := before.reversals + 1)
  {
    hide DoTransfer;
  }

  lemma PositiveNext(args: Args, n: nat, k: nat)
    requires 0 < n <= |args.legs| && k <= |args.legs|
    ensures Positive(args, if n < k then n else k)
         == Positive(args, if n - 1 < k then n - 1 else k) + if n - 1 < k && args.legs[n - 1].amount > 0 then 1 else 0
  {
  }

  lemma SeenHas(args: Args, k: nat, j: nat)
    requires k <= |args.legs| && j < |args.legs|
    ensures j in Seen(args, k) <==> j < k && args.legs[j].amount > 0
  {
  }

  /** An undisturbed attempt passes the posted legs. */
  lemma {:induction false} Passes(args: Args, s: System, j: nat, k: nat, t: System, n: nat)
    requires KnownAccounts(s.l) && j <= k < |args.legs| && AllPosted(args, s.l, k)
    requires s.attempt == Active(j, Check, Seen(args, j))
    requires StepsTo(args, s.(attempt := Active(k, Check, Seen(args, k))), n, t)
    ensures StepsTo(args, s, n + (k - j), t)
    decreases k - j
  {
    if j < k {
      var s' := s.(attempt := Active(j + 1, Check, Seen(args, j + 1)));
      SeenNext(args, j);
      assert Next(s, args, Step) == s';
      Passes(args, s', j + 1, k, t, n);
    }
  }

  lemma SeenNext(args: Args, j: nat)
    requires j < |args.legs|
    ensures Seen(args, j + 1) == if args.legs[j].amount > 0 then Seen(args, j) + {j} else Seen(args, j)
  {
  }

  /** And is refused at the voided one, after which it compensates. */
  lemma Refuses(args: Args, s: System, k: nat)
    requires KnownAccounts(s.l) && Stuck(s.l, args, k) && args.legs[k].id != ""
    requires s.attempt == Active(k, Check, Seen(args, k))
    ensures StepsTo(args, s, 4, Compensate(s, args, |args.legs|, Seen(args, k)).(attempt := Returned(false)))
  {
    hide Compensate;
    var seen := Seen(args, k);
    var s1, s2 := s.(attempt := Active(k, Hold, seen)), s.(attempt := Active(k, Post, seen));
    var s3 := s.(attempt := Active(k, Refused, seen));
    CompensateAttempt(s3, s, args, |args.legs|, seen);
    var t := Compensate(s, args, |args.legs|, seen).(attempt := Returned(false));
    assert Next(s, args, Step) == s1 && Next(s1, args, Step) == s2 && Next(s2, args, Step) == s3;
    assert Next(s3, args, Step) == t;
    OneMore(args, s3, t, 0, t);
    OneMore(args, s2, s3, 1, t);
    OneMore(args, s1, s2, 2, t);
    OneMore(args, s, s1, 3, t);
  }

  /** Compensation does not look at the attempt. */
  lemma {:induction false} CompensateAttempt(s: System, s': System, args: Args, n: nat, posted: set<nat>)
    requires s'.l == s.l && s'.reversals == s.reversals && n <= |args.legs|
    ensures Compensate(s, args, n, posted).l == Compensate(s', args, n, posted).l
    ensures Compensate(s, args, n, posted).reversals == Compensate(s', args, n, posted).reversals
    decreases n
  {
    if n > 0 {
      CompensateAttempt(s, s', args, n - 1, posted);
    }
  }

  lemma StillStuck(s: System, args: Args, k: nat)
    requires OwnReversals(args) && Stuck(s.l, args, k)
    ensures Stuck(Compensate(s, args, |args.legs|, Seen(args, k)).l, args, k)
  {
    hide Compensate;
    forall j: nat | j < |args.legs|
      ensures var l' := Compensate(s, args, |args.legs|, Seen(args, k)).l;
        forall state :: HasState(l', args.legs[j].id, state) <==> HasState(s.l, args.legs[j].id, state)
    {
      CompensateKeepsLegs(s, args, |args.legs|, Seen(args, k), j);
    }
  }

  /** The pools of the legs before the k-th have been debited n times. */
  ghost predicate Drained(args: Args, k: nat, l: Ledger, n: nat, l': Ledger) {
    forall i :: 0 <= i < k && i < |args.legs| && args.legs[i].amount > 0 ==>
      Debits(l', args.legs[i].pool) == Debits(l, args.legs[i].pool) + n * args.legs[i].amount
  }

  lemma DrainedAgain(args: Args, k: nat, l: Ledger, n: nat, l1: Ledger, l2: Ledger)
    requires Drained(args, k, l, n, l1) && Drained(args, k, l1, 1, l2)
    ensures Drained(args, k, l, n + 1, l2)
  {
    hide Debits;
    forall i | 0 <= i < k && i < |args.legs| && args.legs[i].amount > 0
      ensures Debits(l2, args.legs[i].pool) == Debits(l, args.legs[i].pool) + (n + 1) * args.legs[i].amount
    {
      assert (n + 1) * args.legs[i].amount == n * args.legs[i].amount + args.legs[i].amount;
    }
  }

  lemma CompensationDrains(s: System, args: Args, k: nat)
    requires OwnReversals(args) && OpenAccounts(s.l, args) && k < |args.legs|
    ensures var s' := Compensate(s, args, |args.legs|, Seen(args, k));
      OpenAccounts(s'.l, args) && s'.reversals == s.reversals + Positive(args, k) && Drained(args, k, s.l, 1, s'.l)
  {
    hide Compensate, Debits, OwnReversals, OpenAccounts, Seen;
    var s' := Compensate(s, args, |args.legs|, Seen(args, k));
    ReversesSeen(s, args, |args.legs|, k, k);
    forall i | 0 <= i < k && i < |args.legs| && args.legs[i].amount > 0
      ensures Debits(s'.l, args.legs[i].pool) == Debits(s.l, args.legs[i].pool) + 1 * args.legs[i].amount
    {
      ReversesSeen(s, args, |args.legs|, k, i);
    }
  }

  /** One undisturbed attempt at a stuck settlement: it fails, has debited each posted leg's pool by the leg's amount,
      and leaves the settlement stuck. */
  lemma AttemptReverses(l: Ledger, args: Args, k: nat, r: nat) returns (t: System)
    requires OwnReversals(args) && OpenAccounts(l, args) && Stuck(l, args, k)
    ensures StepsTo(args, System(l, Active(0, Check, {}), r), k + 4, t) && t.attempt == Returned(false)
    ensures OpenAccounts(t.l, args) && Stuck(t.l, args, k) && t.reversals == r + Positive(args, k)
    ensures Drained(args, k, l, 1, t.l)
  {
    StuckFacts(l, args, k);
    hide *;
    var at := System(l, Active(k, Check, Seen(args, k)), r);
    CompensationDrains(at, args, k);
    StillStuck(at, args, k);
    t := Compensate(at, args, |args.legs|, Seen(args, k)).(attempt := Returned(false));
    ReachesVoided(l, args, k, r, t);
  }

  lemma ReachesVoided(l: Ledger, args: Args, k: nat, r: nat, t: System)
    requires KnownAccounts(l) && Stuck(l, args, k) && k < |args.legs| && args.legs[k].id != ""
    requires AllPosted(args, l, k) && Seen(args, 0) == {}
    requires var at := System(l, Active(k, Check, Seen(args, k)), r);
      t == Compensate(at, args, |args.legs|, Seen(args, k)).(attempt := Returned(false))
    ensures StepsTo(args, System(l, Active(0, Check, {}), r), k + 4, t)
  {
    hide *;
    Refuses(args, System(l, Active(k, Check, Seen(args, k)), r), k);
    Passes(args, System(l, Active(0, Check, {}), r), 0, k, t, 4);
  }

  lemma StuckFacts(l: Ledger, args: Args, k: nat)
    requires OwnReversals(args) && OpenAccounts(l, args) && Stuck(l, args, k)
    ensures KnownAccounts(l) && k < |args.legs| && args.legs[k].id != "" && AllPosted(args, l, k) && Seen(args, 0) == {}
  {
  }

  /** A history one event longer. */
  lemma Extends(l: Ledger, args: Args, evs: seq<Event>, s: System, ev: Event)
    requires Reachable(l, args, evs, s) && KnownAccounts(s.l)
    ensures Reachable(l, args, evs + [ev], Next(s, args, ev))
  {
    assert (evs + [ev])[..|evs|] == evs;
  }

  /** A settlement with a voided leg behind posted ones can be attempted any number of times, and every attempt takes
      the posted amounts out of their pools again: nothing tells a reversal that it has been made before. */
  lemma {:induction false} EveryAttemptReverses(l: Ledger, args: Args, k: nat, n: nat)
    returns (evs: seq<Event>, s: System)
    requires OwnReversals(args) && OpenAccounts(l, args) && Stuck(l, args, k)
    ensures Reachable(l, args, evs, s) && !s.attempt.Active? && OpenAccounts(s.l, args) && Stuck(s.l, args, k)
    ensures s.reversals == n * Positive(args, k) && Drained(args, k, l, n, s.l)
    decreases n
  {
    hide OwnReversals, OpenAccounts, StepsTo, KnownAccounts, IsVoided, AllPosted, Debits, Positive, Next;
    if n == 0 {
      evs, s := [], System(l, NotRunning, 0);
    } else {
      hide Drained, Reachable;
      var front, before := EveryAttemptReverses(l, args, k, n - 1);
      KnownFromOpen(before.l, args);
      Extends(l, args, front, before, Begin);
      Begins(args, before);
      s := AttemptReverses(before.l, args, k, before.reversals);
      evs := StepsReach(l, args, front + [Begin], Next(before, args, Begin), k + 4, s);
      DrainedAgain(args, k, l, n - 1, before.l, s.l);
      TimesNext(n - 1, Positive(args, k));
    }
  }

  lemma Begins(args: Args, s: System)
    requires KnownAccounts(s.l) && !s.attempt.Active?
    ensures Next(s, args, Begin) == System(s.l, Active(0, Check, {}), s.reversals)
  {
  }

  lemma TimesNext(n: nat, x: nat)
    ensures (n + 1) * x == n * x + x
  {
  }

  lemma KnownFromOpen(l: Ledger, args: Args)
    requires OpenAccounts(l, args)
    ensures KnownAccounts(l)
  {
  }
}
