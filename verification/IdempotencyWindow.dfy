/** The idempotency window over whole histories of the invoice store (services/einvoicing/store.go:81-150,
    187-290): saves of new invoices, later versions of stored ones, purges and restarts, in any order. */
module IdempotencyWindow {
  import opened InvoiceStore

  /** The file, the live index, and the clock. */
  datatype System = System(log: seq<Invoice>, ix: Index, now: nat)

  /** What can happen, and when. A save names an invoice the store has not seen (not yet dated), or a version
      of a stored one that keeps its tenant, key and date; the store itself assigns the date. */
  datatype Op = Save(at: nat, inv: Invoice, fault: bool) | Purge(at: nat) | Restart(at: nat)

  predicate IsNew(s: System, inv: Invoice) {
    inv.id !in s.ix.byId && inv.createdAt == 0
  }

  predicate IsVersion(s: System, inv: Invoice) {
    && inv.id in s.ix.byId
    && inv.tenant == s.ix.byId[inv.id].tenant
    && inv.idemKey == s.ix.byId[inv.id].idemKey
    && inv.createdAt == s.ix.byId[inv.id].createdAt
  }

  predicate Enabled(s: System, op: Op) {
    op.at > 0 && op.at >= s.now && (op.Save? ==> IsNew(s, op.inv) || IsVersion(s, op.inv))
  }

  function Next(s: System, op: Op): System {
    if !Enabled(s, op) then s
    else match op
      case Save(at, inv, fault) =>
        var r := SaveCheck(s.ix, inv, at);
        if fault || !r.Saved? then s.(now := at)
        else System(s.log + [r.inv], IndexOne(s.ix, r.inv), at)
      case Purge(at) => s.(ix := Purged(s.ix, at), now := at)
      case Restart(at) => s.(ix := Load(s.log), now := at)
  }

  const START: System := System([], EMPTY_INDEX, 0)

  function Run(ops: seq<Op>): System {
    if ops == [] then START else Next(Run(ops[..|ops| - 1]), ops[|ops| - 1])
  }

  // ----- Invariant -----

  ghost predicate WellStored(byId: map<string, Invoice>, now: nat) {
    forall id :: id in byId ==> byId[id].id == id && 0 < byId[id].createdAt <= now
  }

  /** Every invoice whose key is not (or no longer) mapped to it is expired. */
  ghost predicate OthersExpired(ix: Index, now: nat) {
    forall id :: id in ix.byId && ix.byId[id].idemKey != "" ==>
      (IdemKey(ix.byId[id]) in ix.byIdemKey && ix.byIdemKey[IdemKey(ix.byId[id])] == id) || Expired(ix.byId[id], now)
  }

  ghost predicate MapsToHolder(ix: Index) {
    forall k :: k in ix.byIdemKey ==>
      ix.byIdemKey[k] in ix.byId && ix.byId[ix.byIdemKey[k]].idemKey != "" && IdemKey(ix.byId[ix.byIdemKey[k]]) == k
  }

  /** Two different invoices with one tenant and key were created more than the window apart. */
  ghost predicate Spaced(byId: map<string, Invoice>) {
    forall x, y :: x in byId && y in byId && x != y && byId[x].idemKey != ""
                   && byId[x].tenant == byId[y].tenant && byId[x].idemKey == byId[y].idemKey ==>
      byId[x].createdAt - byId[y].createdAt > IDEMPOTENCY_TTL || byId[y].createdAt - byId[x].createdAt > IDEMPOTENCY_TTL
  }

  /** The index is in order, given what it holds. */
  ghost predicate Good(ix: Index, now: nat) {
    WellStored(ix.byId, now) && OthersExpired(ix, now) && MapsToHolder(ix) && Spaced(ix.byId)
  }

  /** Both the live index and the one a restart would build are good, and they hold the same invoices. */
  ghost predicate Inv(s: System) {
    && s.ix.byId == Load(s.log).byId
    && Good(s.ix, s.now)
    && Good(Load(s.log), s.now)
  }

  lemma LaterStillGood(ix: Index, now: nat, at: nat)
    requires Good(ix, now) && now <= at
    ensures Good(ix, at)
  {
  }

  /** An accepted save keeps an index good: everybody else with the key has expired. */
  lemma SaveKeepsGood(ix: Index, inv: Invoice, now: nat, before: nat)
    requires Good(ix, before) && before <= now && now > 0
    requires inv.createdAt == 0 <==> inv.id !in ix.byId
    requires inv.id in ix.byId ==> inv.tenant == ix.byId[inv.id].tenant && inv.idemKey == ix.byId[inv.id].idemKey
                                   && inv.createdAt == ix.byId[inv.id].createdAt
    requires HoldersExpired(ix, inv, now)
    ensures Good(IndexOne(ix, Stamped(inv, now)), now)
  {
    SaveKeepsOthersExpired(ix, inv, now, before);
    SaveKeepsHolders(ix, Stamped(inv, now));
    SaveKeepsSpaced(ix, inv, now, before);
  }

  lemma SaveKeepsHolders(ix: Index, inv: Invoice)
    requires MapsToHolder(ix)
    requires inv.id in ix.byId ==> inv.tenant == ix.byId[inv.id].tenant && inv.idemKey == ix.byId[inv.id].idemKey
    ensures MapsToHolder(IndexOne(ix, inv))
  {
  }

  lemma SaveKeepsOthersExpired(ix: Index, inv: Invoice, now: nat, before: nat)
    requires Good(ix, before) && before <= now && HoldersExpired(ix, inv, now)
    ensures OthersExpired(IndexOne(ix, Stamped(inv, now)), now)
  {
    var ix' := IndexOne(ix, Stamped(inv, now));
    forall id | id in ix'.byId && ix'.byId[id].idemKey != ""
      ensures (IdemKey(ix'.byId[id]) in ix'.byIdemKey && ix'.byIdemKey[IdemKey(ix'.byId[id])] == id)
        || Expired(ix'.byId[id], now)
    {
      if id != inv.id {
        assert ix'.byId[id] == ix.byId[id];
      }
    }
  }

  /** Every other invoice with the key of `inv` is expired. */
  ghost predicate HoldersExpired(ix: Index, inv: Invoice, now: nat) {
    inv.idemKey != "" ==>
      forall id :: id in ix.byId && id != inv.id && ix.byId[id].idemKey != "" && IdemKey(ix.byId[id]) == IdemKey(inv)
                   ==> Expired(ix.byId[id], now)
  }

  lemma SaveKeepsSpaced(ix: Index, inv: Invoice, now: nat, before: nat)
    requires Good(ix, before) && before <= now && now > 0
    requires inv.createdAt == 0 <==> inv.id !in ix.byId
    requires inv.id in ix.byId ==> inv.tenant == ix.byId[inv.id].tenant && inv.idemKey == ix.byId[inv.id].idemKey
                                   && inv.createdAt == ix.byId[inv.id].createdAt
    requires HoldersExpired(ix, inv, now)
    ensures Spaced(ix.byId[inv.id := Stamped(inv, now)])
  {
  }

  /** The live check sees an unexpired holder whenever there is one. */
  lemma AcceptedMeansLiveExpired(ix: Index, inv: Invoice, now: nat, at: nat)
    requires Good(ix, now) && at >= now && SaveCheck(ix, inv, at).Saved?
    ensures HoldersExpired(ix, inv, at)
  {
  }

  /** And so in either index. */
  lemma AcceptedMeansExpired(s: System, inv: Invoice, at: nat)
    requires Inv(s) && at >= s.now && SaveCheck(s.ix, inv, at).Saved?
    ensures HoldersExpired(s.ix, inv, at) && HoldersExpired(Load(s.log), inv, at)
  {
    AcceptedMeansLiveExpired(s.ix, inv, s.now, at);
  }

  lemma PurgeKeepsGood(ix: Index, now: nat)
    requires Good(ix, now)
    ensures Good(Purged(ix, now), now)
  {
  }

  lemma NextKeepsInv(s: System, op: Op)
    requires Inv(s)
    ensures Inv(Next(s, op))
  {
    if Enabled(s, op) {
      LaterStillGood(s.ix, s.now, op.at);
      LaterStillGood(Load(s.log), s.now, op.at);
      match op
      case Save(at, inv, fault) =>
        var r := SaveCheck(s.ix, inv, at);
        if !fault && r.Saved? {
          AcceptedMeansExpired(s, inv, at);
          SaveKeepsGood(s.ix, inv, at, s.now);
          SaveKeepsGood(Load(s.log), inv, at, s.now);
          LoadAppend(s.log, r.inv);
        }
      case Purge(at) =>
        PurgeKeepsGood(s.ix, at);
      case Restart(at) =>
    }
  }

  lemma {:induction false} RunKeepsInv(ops: seq<Op>)
    ensures Inv(Run(ops))
  {
    if ops != [] {
      RunKeepsInv(ops[..|ops| - 1]);
      NextKeepsInv(Run(ops[..|ops| - 1]), ops[|ops| - 1]);
    }
  }

  /** Over every history, one key is never shared inside its window: two invoices of one tenant with the same
      idempotency key were created more than seven days apart. */
  lemma OneInvoicePerWindow(ops: seq<Op>, x: string, y: string)
    requires x in Run(ops).ix.byId && y in Run(ops).ix.byId && x != y
    requires var m := Run(ops).ix.byId; m[x].idemKey != "" && m[x].tenant == m[y].tenant && m[x].idemKey == m[y].idemKey
    ensures var m := Run(ops).ix.byId;
      m[x].createdAt - m[y].createdAt > IDEMPOTENCY_TTL || m[y].createdAt - m[x].createdAt > IDEMPOTENCY_TTL
  {
    RunKeepsInv(ops);
  }

  /** And the window shuts nobody out: a version of a stored invoice, or a new one whose key nobody else has been
      given in the last seven days, is stored. */
  lemma UnsharedKeyIsStored(s: System, at: nat, inv: Invoice)
    requires Enabled(s, Save(at, inv, false))
    requires forall id :: id in s.ix.byId && id != inv.id && s.ix.byId[id].tenant + "|" + s.ix.byId[id].idemKey
                            == inv.tenant + "|" + inv.idemKey ==>
      s.ix.byId[id].createdAt != 0 && at - s.ix.byId[id].createdAt > 604_800_000_000_000
    requires MapsToHolder(s.ix)
    ensures var s' := Next(s, Save(at, inv, false));
      && |s'.log| == |s.log| + 1 && s'.now == at && inv.id in s'.ix.byId
      && s'.ix.byId[inv.id] == inv.(updatedAt := at, createdAt := s'.ix.byId[inv.id].createdAt)
      && s'.ix.byId[inv.id].createdAt == if inv.createdAt == 0 then at else inv.createdAt
  {
    var key := IdemKey(inv);
    if inv.idemKey != "" && key in s.ix.byIdemKey {
      assert IdemKey(s.ix.byId[s.ix.byIdemKey[key]]) == key;
    }
  }
}
