/** The two-phase double-entry ledger (services/pos-vat/ledger.go:199-363): accounts with posted and pending
    totals, transfers that are posted at once or held pending, then posted or voided. */
module PosLedger {
  datatype Account = Account(flagged: bool, debitsPosted: int, creditsPosted: int, debitsPending: int,
                             creditsPending: int)

  datatype LedgerTransfer = LedgerTransfer(id: string, debit: string, credit: string, amount: int)

  datatype State = Pending | Posted | Voided

  datatype Entry = Entry(t: LedgerTransfer, state: State)

  datatype Ledger = Ledger(accounts: map<string, Account>, transfers: map<string, Entry>, seqNo: nat)

  const EMPTY_LEDGER: Ledger := Ledger(map[], map[], 0)

  function Digits(n: nat): string {
    (if n < 10 then "" else Digits(n / 10)) + [('0' as int + n % 10) as char]
  }

  function GeneratedId(n: nat): string {
    "dev-tx-" + Digits(n)
  }

  // ----- Operations -----

  /** Float accounts must not be debited beyond their posted credits. */
  predicate FloatOk(a: Account, amount: int) {
    a.flagged ==> a.debitsPosted + amount <= a.creditsPosted
  }

  predicate Accepts(l: Ledger, t: LedgerTransfer) {
    t.amount > 0 && t.debit in l.accounts && t.credit in l.accounts && FloatOk(l.accounts[t.debit], t.amount)
  }

  function AddPosted(accounts: map<string, Account>, debit: string, credit: string, amount: int)
    : (r: map<string, Account>)
    requires debit in accounts && credit in accounts
    ensures r.Keys == accounts.Keys
  {
    var one := accounts[debit := accounts[debit].(debitsPosted := accounts[debit].debitsPosted + amount)];
    one[credit := one[credit].(creditsPosted := one[credit].creditsPosted + amount)]
  }

  function AddPending(accounts: map<string, Account>, debit: string, credit: string, amount: int)
    : (r: map<string, Account>)
    requires debit in accounts && credit in accounts
    ensures r.Keys == accounts.Keys
  {
    var one := accounts[debit := accounts[debit].(debitsPending := accounts[debit].debitsPending + amount)];
    one[credit := one[credit].(creditsPending := one[credit].creditsPending + amount)]
  }

  /** The transfer with an id of its own, and the counter that gave it. */
  function Named(l: Ledger, t: LedgerTransfer): (LedgerTransfer, nat) {
    if t.id == "" then (t.(id := GeneratedId(l.seqNo + 1)), l.seqNo + 1) else (t, l.seqNo)
  }

  function CreateAccount(l: Ledger, id: string, flagged: bool): Ledger {
    if id in l.accounts then l else l.(accounts := l.accounts[id := Account(flagged, 0, 0, 0, 0)])
  }

  function DoTransfer(l: Ledger, t: LedgerTransfer): (Ledger, bool) {
    if !Accepts(l, t) then (l, false)
    else
      var (named, n) := Named(l, t);
      (Ledger(AddPosted(l.accounts, t.debit, t.credit, t.amount), l.transfers[named.id := Entry(named, Posted)], n),
       true)
  }

  function DoPending(l: Ledger, t: LedgerTransfer): (Ledger, bool) {
    if t.id != "" && t.id in l.transfers then
      (l, l.transfers[t.id] == Entry(t, Pending))
    else if !Accepts(l, t) then (l, false)
    else
      var (named, n) := Named(l, t);
      (Ledger(AddPending(l.accounts, t.debit, t.credit, t.amount), l.transfers[named.id := Entry(named, Pending)], n),
       true)
  }

  predicate IsPending(l: Ledger, id: string) {
    id in l.transfers && l.transfers[id].state == Pending
  }

  predicate KnownAccounts(l: Ledger) {
    forall id :: id in l.transfers ==> l.transfers[id].t.debit in l.accounts && l.transfers[id].t.credit in l.accounts
                                       && l.transfers[id].t.amount > 0 && l.transfers[id].t.id == id
  }

  /** The pending totals are released before the float test: a refusal there has already changed them. */
  function DoPost(l: Ledger, id: string, amount: int): (Ledger, bool)
    requires KnownAccounts(l)
  {
    if !IsPending(l, id) || amount <= 0 || amount > l.transfers[id].t.amount then (l, false)
    else
      var t := l.transfers[id].t;
      var released := AddPending(l.accounts, t.debit, t.credit, -t.amount);
      if !FloatOk(released[t.debit], amount) then (l.(accounts := released), false)
      else (Ledger(AddPosted(released, t.debit, t.credit, amount), l.transfers[id := Entry(t, Posted)], l.seqNo), true)
  }

  function DoVoid(l: Ledger, id: string): (Ledger, bool)
    requires KnownAccounts(l)
  {
    if !IsPending(l, id) then (l, false)
    else
      var t := l.transfers[id].t;
      (Ledger(AddPending(l.accounts, t.debit, t.credit, -t.amount), l.transfers[id := Entry(t, Voided)], l.seqNo), true)
  }

  /** The ledger object: its maps are updated in place, as the functions above say. */
  class DevLedger {
    var accounts: map<string, Account>
    var transfers: map<string, Entry>
    var seqNo: nat

    ghost function View(): Ledger
      reads this
    {
      Ledger(accounts, transfers, seqNo)
    }

    constructor ()
      ensures View() == EMPTY_LEDGER
    {
      accounts, transfers, seqNo := map[], map[], 0;
    }

    method PostPair(debit: string, credit: string, amount: int)
      requires debit in accounts && credit in accounts
      modifies this
      ensures View() == old(View()).(accounts := AddPosted(old(accounts), debit, credit, amount))
    {
      accounts := accounts[debit := accounts[debit].(debitsPosted := accounts[debit].debitsPosted + amount)];
      accounts := accounts[credit := accounts[credit].(creditsPosted := accounts[credit].creditsPosted + amount)];
    }

    method HoldPair(debit: string, credit: string, amount: int)
      requires debit in accounts && credit in accounts
      modifies this
      ensures View() == old(View()).(accounts := AddPending(old(accounts), debit, credit, amount))
    {
      accounts := accounts[debit := accounts[debit].(debitsPending := accounts[debit].debitsPending + amount)];
      accounts := accounts[credit := accounts[credit].(creditsPending := accounts[credit].creditsPending + amount)];
    }

    method Transfer(t: LedgerTransfer) returns (ok: bool)
      modifies this
      ensures (View(), ok) == DoTransfer(old(View()), t)
    {
      if t.amount <= 0 || t.debit !in accounts || t.credit !in accounts || !FloatOk(accounts[t.debit], t.amount) {
        return false;
      }
      var named := t;
      if t.id == "" {
        seqNo := seqNo + 1;
        named := t.(id := GeneratedId(seqNo));
      }
      PostPair(t.debit, t.credit, t.amount);
      transfers := transfers[named.id := Entry(named, Posted)];
      return true;
    }

    method PendingTransfer(t: LedgerTransfer) returns (ok: bool)
      modifies this
      ensures (View(), ok) == DoPending(old(View()), t)
    {
      if t.id != "" && t.id in transfers {
        return transfers[t.id] == Entry(t, Pending);
      }
      if t.amount <= 0 || t.debit !in accounts || t.credit !in accounts || !FloatOk(accounts[t.debit], t.amount) {
        return false;
      }
      var named := t;
      if t.id == "" {
        seqNo := seqNo + 1;
        named := t.(id := GeneratedId(seqNo));
      }
      HoldPair(t.debit, t.credit, t.amount);
      transfers := transfers[named.id := Entry(named, Pending)];
      return true;
    }

    method PostPending(id: string, amount: int) returns (ok: bool)
      requires KnownAccounts(View())
      modifies this
      ensures (View(), ok) == DoPost(old(View()), id, amount)
    {
      if id !in transfers || transfers[id].state != Pending {
        return false;
      }
      var t := transfers[id].t;
      if amount <= 0 || amount > t.amount {
        return false;
      }
      HoldPair(t.debit, t.credit, -t.amount);
      if !FloatOk(accounts[t.debit], amount) {
        return false;
      }
      PostPair(t.debit, t.credit, amount);
      transfers := transfers[id := Entry(t, Posted)];
      return true;
    }

    method VoidPending(id: string) returns (ok: bool)
      requires KnownAccounts(View())
      modifies this
      ensures (View(), ok) == DoVoid(old(View()), id)
    {
      if id !in transfers || transfers[id].state != Pending {
        return false;
      }
      var t := transfers[id].t;
      HoldPair(t.debit, t.credit, -t.amount);
      transfers := transfers[id := Entry(t, Voided)];
      return true;
    }
  }
}
