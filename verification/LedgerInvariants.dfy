/** What every history of the ledger keeps (services/pos-vat/ledger.go:234-352): double entry, float limits,
    finality of posting, and pending totals that match the open pending transfers. */
module LedgerInvariants {
  import opened MapSums
  import opened PosLedger

  datatype Op =
    | OpenAccount(account: string, flagged: bool)
    | Post(t: LedgerTransfer)
    | Hold(t: LedgerTransfer)
    | Settle(id: string, amount: int)
    | Release(id: string)

  function Next(l: Ledger, op: Op): Ledger
    requires KnownAccounts(l)
  {
    match op
    case OpenAccount(id, flagged) => CreateAccount(l, id, flagged)
    case Post(t) => DoTransfer(l, t).0
    case Hold(t) => DoPending(l, t).0
    case Settle(id, amount) => DoPost(l, id, amount).0
    case Release(id) => DoVoid(l, id).0
  }

  lemma NextKeepsKnown(l: Ledger, op: Op)
    requires KnownAccounts(l)
    ensures KnownAccounts(Next(l, op))
  {
  }

  function Run(ops: seq<Op>): (l: Ledger)
    ensures KnownAccounts(l)
  {
    if ops == [] then EMPTY_LEDGER
    else
      var l := Run(ops[..|ops| - 1]);
      NextKeepsKnown(l, ops[|ops| - 1]);
      Next(l, ops[|ops| - 1])
  }

  // ----- Columns of the trial balance -----

  datatype Column = DebitsPosted | CreditsPosted | DebitsPending | CreditsPending

  function Get(a: Account, c: Column): int {
    match c
    case DebitsPosted => a.debitsPosted
    case CreditsPosted => a.creditsPosted
    case DebitsPending => a.debitsPending
    case CreditsPending => a.creditsPending
  }

  function Amounts(accounts: map<string, Account>, c: Column): map<string, int> {
    map a | a in accounts :: Get(accounts[a], c)
  }

  ghost function Sum(accounts: map<string, Account>, c: Column): int {
    Total(Amounts(accounts, c))
  }

  lemma SumUpdate(accounts: map<string, Account>, id: string, a: Account, c: Column)
    ensures Sum(accounts[id := a], c)
      == Sum(accounts, c) - (if id in accounts then Get(accounts[id], c) else 0) + Get(a, c)
  {
    TotalUpdate(Amounts(accounts, c), id, Get(a, c));
    assert Amounts(accounts[id := a], c) == Amounts(accounts, c)[id := Get(a, c)];
  }

  lemma PostedSums(accounts: map<string, Account>, debit: string, credit: string, amount: int, c: Column)
    requires debit in accounts && credit in accounts
    ensures Sum(AddPosted(accounts, debit, credit, amount), c)
         == Sum(accounts, c) + if c == DebitsPosted || c == CreditsPosted then amount else 0
  {
    var one := accounts[debit := accounts[debit].(debitsPosted := accounts[debit].debitsPosted + amount)];
    SumUpdate(accounts, debit, one[debit], c);
    SumUpdate(one, credit, one[credit].(creditsPosted := one[credit].creditsPosted + amount), c);
  }

  lemma PendingSums(accounts: map<string, Account>, debit: string, credit: string, amount: int, c: Column)
    requires debit in accounts && credit in accounts
    ensures Sum(AddPending(accounts, debit, credit, amount), c)
         == Sum(accounts, c) + if c == DebitsPending || c == CreditsPending then amount else 0
  {
    var one := accounts[debit := accounts[debit].(debitsPending := accounts[debit].debitsPending + amount)];
    SumUpdate(accounts, debit, one[debit], c);
    SumUpdate(one, credit, one[credit].(creditsPending := one[credit].creditsPending + amount), c);
  }

  // ----- Double entry and float limits -----

  ghost predicate Even(accounts: map<string, Account>) {
    && Sum(accounts, DebitsPosted) == Sum(accounts, CreditsPosted)
    && Sum(accounts, DebitsPending) == Sum(accounts, CreditsPending)
  }

  /** Total debits equal total credits, posted and pending. */
  ghost predicate Balanced(l: Ledger) {
    Even(l.accounts)
  }

  ghost predicate WithinFloat(l: Ledger) {
    forall a :: a in l.accounts && l.accounts[a].flagged ==> l.accounts[a].debitsPosted <= l.accounts[a].creditsPosted
  }

  lemma PostingBalances(accounts: map<string, Account>, debit: string, credit: string, amount: int)
    requires debit in accounts && credit in accounts && Even(accounts)
    ensures Even(AddPosted(accounts, debit, credit, amount))
  {
    PostedSums(accounts, debit, credit, amount, DebitsPosted);
    PostedSums(accounts, debit, credit, amount, CreditsPosted);
    PostedSums(accounts, debit, credit, amount, DebitsPending);
    PostedSums(accounts, debit, credit, amount, CreditsPending);
  }

  lemma HoldingBalances(accounts: map<string, Account>, debit: string, credit: string, amount: int)
    requires debit in accounts && credit in accounts && Even(accounts)
    ensures Even(AddPending(accounts, debit, credit, amount))
  {
    PendingSums(accounts, debit, credit, amount, DebitsPosted);
    PendingSums(accounts, debit, credit, amount, CreditsPosted);
    PendingSums(accounts, debit, credit, amount, DebitsPending);
    PendingSums(accounts, debit, credit, amount, CreditsPending);
  }

  lemma OpeningBalances(accounts: map<string, Account>, id: string, a: Account)
    requires id !in accounts && a == Account(a.flagged, 0, 0, 0, 0) && Even(accounts)
    ensures Even(accounts[id := a])
  {
    SumUpdate(accounts, id, a, DebitsPosted);
    SumUpdate(accounts, id, a, CreditsPosted);
    SumUpdate(accounts, id, a, DebitsPending);
    SumUpdate(accounts, id, a, CreditsPending);
  }

  /** A property of the accounts that opening one, and any paired debit and credit, leave true. */
  ghost predicate Paired(p: map<string, Account> -> bool) {
    && (forall m, d, c, x :: d in m && c in m && p(m) ==> p(AddPosted(m, d, c, x)))
    && (forall m, d, c, x :: d in m && c in m && p(m) ==> p(AddPending(m, d, c, x)))
    && (forall m, a, f :: a !in m && p(m) ==> p(m[a := Account(f, 0, 0, 0, 0)]))
  }

  /** Every operation only opens accounts or moves pairs. */
  lemma NextKeepsPaired(l: Ledger, op: Op, p: map<string, Account> -> bool)
    requires KnownAccounts(l) && Paired(p) && p(l.accounts)
    ensures p(Next(l, op).accounts)
  {
  }

  lemma EvenIsPaired()
    ensures Paired(m => Even(m))
  {
    forall m, d, c, x | d in m && c in m && Even(m)
      ensures Even(AddPosted(m, d, c, x)) && Even(AddPending(m, d, c, x))
    {
      PostingBalances(m, d, c, x);
      HoldingBalances(m, d, c, x);
    }
    forall m, a, f | a !in m && Even(m)
      ensures Even(m[a := Account(f, 0, 0, 0, 0)])
    {
      OpeningBalances(m, a, Account(f, 0, 0, 0, 0));
    }
  }

  lemma NextKeepsBalance(l: Ledger, op: Op)
    requires KnownAccounts(l) && Balanced(l)
    ensures Balanced(Next(l, op))
  {
    EvenIsPaired();
    NextKeepsPaired(l, op, m => Even(m));
  }

  lemma NextKeepsFloat(l: Ledger, op: Op)
    requires KnownAccounts(l) && WithinFloat(l)
    ensures WithinFloat(Next(l, op))
  {
  }

  /** Whatever is asked of the ledger, debits equal credits and float accounts stay within their credits. */
  lemma {:induction false} DoubleEntry(ops: seq<Op>)
    ensures Balanced(Run(ops)) && WithinFloat(Run(ops))
  {
    if ops != [] {
      DoubleEntry(ops[..|ops| - 1]);
      NextKeepsBalance(Run(ops[..|ops| - 1]), ops[|ops| - 1]);
      NextKeepsFloat(Run(ops[..|ops| - 1]), ops[|ops| - 1]);
    }
  }

  // ----- Posted is final, if nobody forges generated ids -----

  /** A posted transfer stays posted, except that an anonymous hold overwrites one whose name it is given. */
  lemma PostedSurvives(l: Ledger, op: Op, id: string)
    requires KnownAccounts(l) && id in l.transfers && l.transfers[id].state == Posted
    ensures id in Next(l, op).transfers
    ensures Next(l, op).transfers[id].state == Posted
       <==> !(op.Hold? && op.t.id == "" && Accepts(l, op.t) && GeneratedId(l.seqNo + 1) == id)
  {
  }

  lemma RunNext(ops: seq<Op>, op: Op)
    ensures Run(ops + [op]) == Next(Run(ops), op)
  {
    assert (ops + [op])[..|ops|] == ops;
  }

  /** And that happens: a caller posts under the name that the ledger gives out first, and an anonymous hold turns the
      posted transfer into a pending one of its own. */
  lemma PostedIsOverwritten(a: string, b: string, x: int, y: int)
    requires a != b && x > 0 && y > 0
    ensures var id := GeneratedId(1);
      var ops := [OpenAccount(a, false)] + [OpenAccount(b, false)] + [Post(LedgerTransfer(id, a, b, x))];
      var l, l' := Run(ops), Run(ops + [Hold(LedgerTransfer("", a, b, y))]);
      && id in l.transfers && l.transfers[id] == Entry(LedgerTransfer(id, a, b, x), Posted)
      && id in l'.transfers && l'.transfers[id] == Entry(LedgerTransfer(id, a, b, y), Pending)
  {
    hide GeneratedId, Run;
    var id, two := GeneratedId(1), [OpenAccount(a, false)] + [OpenAccount(b, false)];
    var posted := LedgerTransfer(id, a, b, x);
    NameNonempty(1);
    TwoOpen(a, b);
    RunNext(two, Post(posted));
    RunNext(two + [Post(posted)], Hold(LedgerTransfer("", a, b, y)));
    hide AddPosted, AddPending, KnownAccounts;
  }

  lemma TwoOpen(a: string, b: string)
    requires a != b
    ensures var l := Run([OpenAccount(a, false)] + [OpenAccount(b, false)]);
      && l.transfers == map[] && l.seqNo == 0 && a in l.accounts && b in l.accounts
      && !l.accounts[a].flagged && !l.accounts[b].flagged
  {
    assert [OpenAccount(a, false)] == [] + [OpenAccount(a, false)];
    RunNext([], OpenAccount(a, false));
    RunNext([OpenAccount(a, false)], OpenAccount(b, false));
  }

  lemma NameNonempty(n: nat)
    ensures GeneratedId(n) != ""
  {
    assert GeneratedId(n)[0] == 'd';
  }

  lemma {:induction false} DigitsInjective(n: nat, m: nat)
    requires Digits(n) == Digits(m)
    ensures n == m
  {
    var s, t := Digits(n), Digits(m);
    assert s[|s| - 1] == t[|t| - 1];
    assert n % 10 == m % 10;
    assert s[..|s| - 1] == t[..|t| - 1];
    assert s[..|s| - 1] == if n < 10 then "" else Digits(n / 10);
    assert t[..|t| - 1] == if m < 10 then "" else Digits(m / 10);
    if n >= 10 && m >= 10 {
      DigitsInjective(n / 10, m / 10);
    }
  }

  lemma GeneratedInjective(n: nat, m: nat)
    requires GeneratedId(n) == GeneratedId(m)
    ensures n == m
  {
    var prefix := "dev-tx-";
    assert GeneratedId(n)[|prefix|..] == Digits(n) && GeneratedId(m)[|prefix|..] == Digits(m);
    DigitsInjective(n, m);
  }

  /** The caller leaves the id empty or picks one the ledger would not generate. */
  ghost predicate OwnName(op: Op) {
    op.Post? || op.Hold? ==> op.t.id == "" || forall n: nat :: op.t.id != GeneratedId(n)
  }

  ghost predicate NamesAhead(l: Ledger) {
    forall n: nat :: n > l.seqNo ==> GeneratedId(n) !in l.transfers
  }

  lemma NextKeepsNamesAhead(l: Ledger, op: Op)
    requires KnownAccounts(l) && NamesAhead(l) && OwnName(op)
    ensures NamesAhead(Next(l, op))
  {
    forall n: nat | n > Next(l, op).seqNo
      ensures GeneratedId(n) !in Next(l, op).transfers
    {
      if (op.Post? || op.Hold?) && op.t.id == "" && GeneratedId(n) == GeneratedId(l.seqNo + 1) {
        GeneratedInjective(n, l.seqNo + 1);
      }
    }
  }

  ghost predicate OwnNames(ops: seq<Op>) {
    forall op :: op in ops ==> OwnName(op)
  }

  lemma {:induction false} RunNamesAhead(ops: seq<Op>)
    requires OwnNames(ops)
    ensures NamesAhead(Run(ops))
  {
    if ops != [] {
      RunNamesAhead(ops[..|ops| - 1]);
      NextKeepsNamesAhead(Run(ops[..|ops| - 1]), ops[|ops| - 1]);
    }
  }

  /** If callers use names of their own, a transfer once posted is posted for good. */
  lemma {:induction false} PostedIsFinal(ops: seq<Op>, k: nat, id: string)
    requires OwnNames(ops)
    requires k <= |ops| && id in Run(ops[..k]).transfers && Run(ops[..k]).transfers[id].state == Posted
    ensures id in Run(ops).transfers && Run(ops).transfers[id].state == Posted
  {
    if k == |ops| {
      assert ops[..k] == ops;
    } else {
      var front := ops[..|ops| - 1];
      assert front[..k] == ops[..k];
      PostedIsFinal(front, k, id);
      RunNamesAhead(front);
      PostedSurvives(Run(front), ops[|ops| - 1], id);
    }
  }

  // ----- Pending totals -----

  function OpenAmount(e: Entry, account: string, debit: bool): int {
    if e.state == Pending && (if debit then e.t.debit else e.t.credit) == account then e.t.amount else 0
  }

  function OpenAmounts(transfers: map<string, Entry>, account: string, debit: bool): map<string, int> {
    map id | id in transfers :: OpenAmount(transfers[id], account, debit)
  }

  /** What is held pending against an account, on one side. */
  ghost function Open(l: Ledger, account: string, debit: bool): int {
    Total(OpenAmounts(l.transfers, account, debit))
  }

  lemma OpenUpdate(l: Ledger, id: string, e: Entry, account: string, debit: bool)
    ensures Total(OpenAmounts(l.transfers[id := e], account, debit))
         == Open(l, account, debit) - (if id in l.transfers then OpenAmount(l.transfers[id], account, debit) else 0)
            + OpenAmount(e, account, debit)
  {
    TotalUpdate(OpenAmounts(l.transfers, account, debit), id, OpenAmount(e, account, debit));
    assert OpenAmounts(l.transfers[id := e], account, debit)
        == OpenAmounts(l.transfers, account, debit)[id := OpenAmount(e, account, debit)];
  }

  ghost predicate PendingMatches(l: Ledger) {
    forall a :: a in l.accounts ==>
      l.accounts[a].debitsPending == Open(l, a, true) && l.accounts[a].creditsPending == Open(l, a, false)
  }

  // ----- When the pending totals drift -----

  /** The step overwrites a pending transfer, or a posting is refused for the float limit with its hold released. */
  predicate Drifts(l: Ledger, op: Op)
    requires KnownAccounts(l)
  {
    match op
    case OpenAccount(_, _) => false
    case Post(t) => Accepts(l, t) && IsPending(l, Named(l, t).0.id)
    case Hold(t) => t.id == "" && Accepts(l, t) && IsPending(l, Named(l, t).0.id)
    case Settle(id, amount) =>
      IsPending(l, id) && 0 < amount <= l.transfers[id].t.amount
        && !FloatOk(l.accounts[l.transfers[id].t.debit], amount)
    case Release(_) => false
  }

  lemma NothingOpen(l: Ledger, account: string, debit: bool)
    requires KnownAccounts(l) && account !in l.accounts
    ensures Open(l, account, debit) == 0
  {
    TotalZero(OpenAmounts(l.transfers, account, debit));
  }

  /** The pending totals of one account after its hold of `amount` on either side. */
  lemma HeldAmounts(accounts: map<string, Account>, debit: string, credit: string, amount: int, a: string)
    requires debit in accounts && credit in accounts && a in accounts
    ensures var after := AddPending(accounts, debit, credit, amount)[a];
      && after.debitsPending == accounts[a].debitsPending + (if a == debit then amount else 0)
      && after.creditsPending == accounts[a].creditsPending + (if a == credit then amount else 0)
      && after.flagged == accounts[a].flagged
  {
  }

  lemma PostedAmounts(accounts: map<string, Account>, debit: string, credit: string, amount: int, a: string)
    requires debit in accounts && credit in accounts && a in accounts
    ensures var after := AddPosted(accounts, debit, credit, amount)[a];
      && after.debitsPending == accounts[a].debitsPending && after.creditsPending == accounts[a].creditsPending
      && after.flagged == accounts[a].flagged
  {
  }

  ghost predicate MatchesAt(l: Ledger, a: string)
    requires a in l.accounts
  {
    l.accounts[a].debitsPending == Open(l, a, true) && l.accounts[a].creditsPending == Open(l, a, false)
  }

  /** What an overwritten transfer still counts for in the totals. */
  function Overwritten(l: Ledger, id: string, a: string, debit: bool): int {
    if id in l.transfers then OpenAmount(l.transfers[id], a, debit) else 0
  }

  lemma PostShifts(l: Ledger, t: LedgerTransfer, a: string)
    requires KnownAccounts(l) && a in l.accounts && MatchesAt(l, a) && Accepts(l, t)
    ensures var l', id := DoTransfer(l, t).0, Named(l, t).0.id;
      && a in l'.accounts
      && l'.accounts[a].debitsPending == Open(l', a, true) + Overwritten(l, id, a, true)
      && l'.accounts[a].creditsPending == Open(l', a, false) + Overwritten(l, id, a, false)
  {
    var named := Named(l, t).0;
    OpenUpdate(l, named.id, Entry(named, Posted), a, true);
    OpenUpdate(l, named.id, Entry(named, Posted), a, false);
    PostedAmounts(l.accounts, t.debit, t.credit, t.amount, a);
  }

  lemma HoldShifts(l: Ledger, t: LedgerTransfer, a: string)
    requires KnownAccounts(l) && a in l.accounts && MatchesAt(l, a) && Accepts(l, t)
    requires t.id == "" || t.id !in l.transfers
    ensures var l', id := DoPending(l, t).0, Named(l, t).0.id;
      && a in l'.accounts
      && l'.accounts[a].debitsPending == Open(l', a, true) + Overwritten(l, id, a, true)
      && l'.accounts[a].creditsPending == Open(l', a, false) + Overwritten(l, id, a, false)
  {
    var named := Named(l, t).0;
    OpenUpdate(l, named.id, Entry(named, Pending), a, true);
    OpenUpdate(l, named.id, Entry(named, Pending), a, false);
    HeldAmounts(l.accounts, t.debit, t.credit, t.amount, a);
  }

  /** A posting in range: carried out, or refused with the hold released. */
  lemma SettleShape(l: Ledger, id: string, amount: int)
    requires KnownAccounts(l) && IsPending(l, id) && 0 < amount <= l.transfers[id].t.amount
    ensures var t := l.transfers[id].t;
      var released := AddPending(l.accounts, t.debit, t.credit, -t.amount);
      DoPost(l, id, amount) ==
        if FloatOk(l.accounts[t.debit], amount) then
          (Ledger(AddPosted(released, t.debit, t.credit, amount), l.transfers[id := Entry(t, Posted)], l.seqNo), true)
        else (l.(accounts := released), false)
  {
    var t := l.transfers[id].t;
    ReleaseKeepsFloat(l.accounts, t.debit, t.credit, t.amount, amount);
  }

  lemma ReleaseKeepsFloat(accounts: map<string, Account>, debit: string, credit: string, held: int, amount: int)
    requires debit in accounts && credit in accounts
    ensures FloatOk(AddPending(accounts, debit, credit, -held)[debit], amount) == FloatOk(accounts[debit], amount)
  {
  }

  lemma SettleMatches(l: Ledger, id: string, amount: int, a: string)
    requires KnownAccounts(l) && a in l.accounts && MatchesAt(l, a) && IsPending(l, id)
    requires 0 < amount <= l.transfers[id].t.amount && FloatOk(l.accounts[l.transfers[id].t.debit], amount)
    ensures a in DoPost(l, id, amount).0.accounts && MatchesAt(DoPost(l, id, amount).0, a)
  {
    var t := l.transfers[id].t;
    SettleShape(l, id, amount);
    OpenUpdate(l, id, Entry(t, Posted), a, true);
    OpenUpdate(l, id, Entry(t, Posted), a, false);
    HeldAmounts(l.accounts, t.debit, t.credit, -t.amount, a);
    PostedAmounts(AddPending(l.accounts, t.debit, t.credit, -t.amount), t.debit, t.credit, amount, a);
  }

  /** A posting refused for a float account has released its hold, yet the transfer is still pending. */
  lemma RefusedPostingDrifts(l: Ledger, id: string, amount: int)
    requires KnownAccounts(l) && PendingMatches(l) && Drifts(l, Settle(id, amount))
    ensures var (l', ok) := DoPost(l, id, amount);
      var t := l.transfers[id].t;
      && !ok && IsPending(l', id) && t.debit in l'.accounts && t.credit in l'.accounts
      && l'.accounts[t.debit].debitsPending == Open(l', t.debit, true) - t.amount
      && l'.accounts[t.credit].creditsPending == Open(l', t.credit, false) - t.amount
  {
    var t := l.transfers[id].t;
    SettleShape(l, id, amount);
    HeldAmounts(l.accounts, t.debit, t.credit, -t.amount, t.debit);
    HeldAmounts(l.accounts, t.debit, t.credit, -t.amount, t.credit);
    assert MatchesAt(l, t.debit) && MatchesAt(l, t.credit);
  }

  lemma ReleaseMatches(l: Ledger, id: string, a: string)
    requires KnownAccounts(l) && a in l.accounts && MatchesAt(l, a)
    ensures a in DoVoid(l, id).0.accounts && MatchesAt(DoVoid(l, id).0, a)
  {
    if IsPending(l, id) {
      var t := l.transfers[id].t;
      OpenUpdate(l, id, Entry(t, Voided), a, true);
      OpenUpdate(l, id, Entry(t, Voided), a, false);
      HeldAmounts(l.accounts, t.debit, t.credit, -t.amount, a);
    }
  }

  lemma NewAccountMatches(l: Ledger, op: Op, a: string)
    requires KnownAccounts(l) && a !in l.accounts && a in Next(l, op).accounts
    ensures MatchesAt(Next(l, op), a)
  {
    NothingOpen(l, a, true);
    NothingOpen(l, a, false);
  }

  lemma OldAccountMatches(l: Ledger, op: Op, a: string)
    requires KnownAccounts(l) && a in l.accounts && MatchesAt(l, a) && !Drifts(l, op)
    ensures a in Next(l, op).accounts && MatchesAt(Next(l, op), a)
  {
    match op
    case OpenAccount(id, flagged) =>
    case Post(t) =>
      if Accepts(l, t) {
        PostShifts(l, t, a);
      }
    case Hold(t) =>
      if Accepts(l, t) && (t.id == "" || t.id !in l.transfers) {
        HoldShifts(l, t, a);
      }
    case Settle(id, amount) =>
      if IsPending(l, id) && 0 < amount <= l.transfers[id].t.amount {
        SettleMatches(l, id, amount, a);
      }
    case Release(id) => ReleaseMatches(l, id, a);
  }

  lemma MatchesUnlessDrift(l: Ledger, op: Op)
    requires KnownAccounts(l) && PendingMatches(l) && !Drifts(l, op)
    ensures PendingMatches(Next(l, op))
  {
    forall a | a in Next(l, op).accounts
      ensures MatchesAt(Next(l, op), a)
    {
      if a in l.accounts {
        assert MatchesAt(l, a);
        OldAccountMatches(l, op, a);
      } else {
        NewAccountMatches(l, op, a);
      }
    }
  }

  /** A drift shows in the debit account of the transfer it concerns. */
  lemma PostDriftShows(l: Ledger, t: LedgerTransfer)
    requires KnownAccounts(l) && PendingMatches(l) && Drifts(l, Post(t))
    ensures !PendingMatches(DoTransfer(l, t).0)
  {
    var a := l.transfers[Named(l, t).0.id].t.debit;
    assert MatchesAt(l, a);
    PostShifts(l, t, a);
  }

  lemma HoldDriftShows(l: Ledger, t: LedgerTransfer)
    requires KnownAccounts(l) && PendingMatches(l) && Drifts(l, Hold(t))
    ensures !PendingMatches(DoPending(l, t).0)
  {
    var a := l.transfers[Named(l, t).0.id].t.debit;
    assert MatchesAt(l, a);
    HoldShifts(l, t, a);
  }

  lemma DriftShows(l: Ledger, op: Op)
    requires KnownAccounts(l) && PendingMatches(l) && Drifts(l, op)
    ensures !PendingMatches(Next(l, op))
  {
    match op
    case Post(t) => PostDriftShows(l, t);
    case Hold(t) => HoldDriftShows(l, t);
    case Settle(id, amount) => RefusedPostingDrifts(l, id, amount);
  }

  /** From matching totals a step leads to matching totals if and only if it does not drift. */
  lemma MatchesIffNoDrift(l: Ledger, op: Op)
    requires KnownAccounts(l) && PendingMatches(l)
    ensures PendingMatches(Next(l, op)) <==> !Drifts(l, op)
  {
    if Drifts(l, op) {
      DriftShows(l, op);
    } else {
      MatchesUnlessDrift(l, op);
    }
  }

  // ----- Whole histories -----

  /** The totals match after every step. */
  ghost predicate MatchesThroughout(ops: seq<Op>) {
    PendingMatches(Run(ops)) && (ops == [] || MatchesThroughout(ops[..|ops| - 1]))
  }

  ghost predicate NeverDrifts(ops: seq<Op>) {
    ops == [] || (NeverDrifts(ops[..|ops| - 1]) && !Drifts(Run(ops[..|ops| - 1]), ops[|ops| - 1]))
  }

  /** Each account's pending totals are its open holds throughout a history if and only if no step drifts. */
  lemma {:induction false} PendingTotalsExact(ops: seq<Op>)
    ensures MatchesThroughout(ops) <==> NeverDrifts(ops)
  {
    if ops != [] {
      var front, op := ops[..|ops| - 1], ops[|ops| - 1];
      PendingTotalsExact(front);
      if MatchesThroughout(front) {
        MatchesIffNoDrift(Run(front), op);
      }
    }
  }

  lemma Extends(ops: seq<Op>, op: Op)
    ensures Run(ops + [op]) == Next(Run(ops), op)
    ensures NeverDrifts(ops + [op]) <==> NeverDrifts(ops) && !Drifts(Run(ops), op)
  {
    assert (ops + [op])[..|ops|] == ops;
  }

  /** An immediate transfer comes under a name not used before, and no float account is held against. */
  predicate Careful(l: Ledger, op: Op) {
    && (op.Post? ==> op.t.id !in l.transfers)
    && (op.Hold? && op.t.debit in l.accounts ==> !l.accounts[op.t.debit].flagged)
  }

  /** Held amounts are against accounts the ledger has, and not against float accounts. */
  ghost predicate NoFloatHeld(l: Ledger) {
    forall id :: id in l.transfers && l.transfers[id].state == Pending ==>
      l.transfers[id].t.debit in l.accounts && !l.accounts[l.transfers[id].t.debit].flagged
  }

  lemma NextKeepsFlags(l: Ledger, op: Op)
    requires KnownAccounts(l)
    ensures forall a :: a in l.accounts ==>
      a in Next(l, op).accounts && Next(l, op).accounts[a].flagged == l.accounts[a].flagged
  {
  }

  lemma NextKeepsNoFloatHeld(l: Ledger, op: Op)
    requires KnownAccounts(l) && NoFloatHeld(l) && Careful(l, op)
    ensures NoFloatHeld(Next(l, op))
  {
    NextKeepsFlags(l, op);
    hide AddPosted, AddPending;
  }

  ghost predicate CarefulRun(ops: seq<Op>) {
    ops == [] || (CarefulRun(ops[..|ops| - 1]) && Careful(Run(ops[..|ops| - 1]), ops[|ops| - 1]))
  }

  lemma {:induction false} CarefulHoldsNoFloat(ops: seq<Op>)
    requires CarefulRun(ops)
    ensures NoFloatHeld(Run(ops))
  {
    if ops != [] {
      CarefulHoldsNoFloat(ops[..|ops| - 1]);
      NextKeepsNoFloatHeld(Run(ops[..|ops| - 1]), ops[|ops| - 1]);
    }
  }

  lemma CarefulStep(l: Ledger, op: Op)
    requires KnownAccounts(l) && NoFloatHeld(l) && NamesAhead(l) && Careful(l, op) && OwnName(op)
    ensures !Drifts(l, op)
  {
  }

  /** Callers with names of their own, new ones for immediate transfers, and no holds on float accounts never drift. */
  lemma {:induction false} CarefulNeverDrifts(ops: seq<Op>)
    requires OwnNames(ops) && CarefulRun(ops)
    ensures NeverDrifts(ops)
  {
    if ops != [] {
      var front := ops[..|ops| - 1];
      CarefulNeverDrifts(front);
      RunNamesAhead(front);
      CarefulHoldsNoFloat(front);
      CarefulStep(Run(front), ops[|ops| - 1]);
    }
  }

  lemma OpenStep(ops: seq<Op>, id: string, flagged: bool)
    requires NeverDrifts(ops) && id !in Run(ops).accounts
    ensures var op := OpenAccount(id, flagged);
      && NeverDrifts(ops + [op])
      && Run(ops + [op]) == Run(ops).(accounts := Run(ops).accounts[id := Account(flagged, 0, 0, 0, 0)])
  {
    Extends(ops, OpenAccount(id, flagged));
  }

  /** Three open accounts, the second a float account that has received `x`. */
  lemma FloatFunded(m: string, f: string, c: string, x: int) returns (ops: seq<Op>)
    requires m != f && m != c && f != c && x > 0
    ensures NeverDrifts(ops) && f in Run(ops).accounts && c in Run(ops).accounts
    ensures Run(ops).accounts[f] == Account(true, 0, x, 0, 0)
    ensures Run(ops).transfers.Keys == {"p"}
  {
    ops := [];
    OpenStep(ops, m, false);
    ops := ops + [OpenAccount(m, false)];
    OpenStep(ops, f, true);
    ops := ops + [OpenAccount(f, true)];
    OpenStep(ops, c, false);
    ops := ops + [OpenAccount(c, false)];
    FloatFunding(ops, m, f, x);
    ops := ops + [Post(LedgerTransfer("p", m, f, x))];
  }

  lemma FloatFunding(ops: seq<Op>, m: string, f: string, x: int)
    requires NeverDrifts(ops) && m != f && x > 0 && Run(ops).transfers == map[]
    requires m in Run(ops).accounts && !Run(ops).accounts[m].flagged
    requires f in Run(ops).accounts && Run(ops).accounts[f] == Account(true, 0, 0, 0, 0)
    ensures var l := Run(ops + [Post(LedgerTransfer("p", m, f, x))]);
      && NeverDrifts(ops + [Post(LedgerTransfer("p", m, f, x))]) && l.accounts.Keys == Run(ops).accounts.Keys
      && l.accounts[f] == Account(true, 0, x, 0, 0) && l.transfers.Keys == {"p"}
  {
    Extends(ops, Post(LedgerTransfer("p", m, f, x)));
  }

  /** Holding an amount that posted credits cover. */
  lemma FloatHold(ops: seq<Op>, id: string, f: string, c: string, x: int)
    requires NeverDrifts(ops) && id != "" && id !in Run(ops).transfers && f != c && x > 0
    requires f in Run(ops).accounts && c in Run(ops).accounts && FloatOk(Run(ops).accounts[f], x)
    ensures var t := LedgerTransfer(id, f, c, x);
      var l, l' := Run(ops), Run(ops + [Hold(t)]);
      && NeverDrifts(ops + [Hold(t)]) && l'.transfers == l.transfers[id := Entry(t, Pending)]
      && f in l'.accounts && c in l'.accounts
      && l'.accounts[f] == l.accounts[f].(debitsPending := l.accounts[f].debitsPending + x)
  {
    Extends(ops, Hold(LedgerTransfer(id, f, c, x)));
  }

  lemma FloatPost(ops: seq<Op>, id: string, f: string, c: string, x: int)
    requires NeverDrifts(ops) && f != c && x > 0 && f in Run(ops).accounts && c in Run(ops).accounts
    requires id in Run(ops).transfers && Run(ops).transfers[id] == Entry(LedgerTransfer(id, f, c, x), Pending)
    requires FloatOk(Run(ops).accounts[f], x)
    ensures var l, l' := Run(ops), Run(ops + [Settle(id, x)]);
      && NeverDrifts(ops + [Settle(id, x)])
      && l'.transfers == l.transfers[id := Entry(LedgerTransfer(id, f, c, x), Posted)] && f in l'.accounts
      && l'.accounts[f] == l.accounts[f].(debitsPending := l.accounts[f].debitsPending - x,
                                          debitsPosted := l.accounts[f].debitsPosted + x)
  {
    Extends(ops, Settle(id, x));
    SettleShape(Run(ops), id, x);
  }

  /** A float account really gets there: two holds within its credits, one posting, and the second is refused. */
  lemma FloatDrifts(m: string, f: string, c: string, x: int) returns (ops: seq<Op>, last: Op)
    requires m != f && m != c && f != c && x > 0
    ensures NeverDrifts(ops) && Drifts(Run(ops), last) && last.Settle? && !MatchesThroughout(ops + [last])
  {
    var funded := FloatFunded(m, f, c, x);
    FloatHold(funded, "g", f, c, x);
    var one := funded + [Hold(LedgerTransfer("g", f, c, x))];
    FloatHold(one, "h", f, c, x);
    var two := one + [Hold(LedgerTransfer("h", f, c, x))];
    FloatPost(two, "g", f, c, x);
    ops, last := two + [Settle("g", x)], Settle("h", x);
    Extends(ops, last);
    PendingTotalsExact(ops + [last]);
  }
}
