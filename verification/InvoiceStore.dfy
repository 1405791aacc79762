/** The durable invoice store (services/einvoicing/store.go): an append-only file of invoice versions and the
    in-memory indexes rebuilt from it, with idempotency keys that expire. */
module InvoiceStore {

  /** An invoice version. `core` stands for the locked core fields that CoreHash digests. */
  datatype Invoice = Invoice(
    id: string, tenant: string, idemKey: string, supplierTin: string, businessId: string,
    number: string, issueDate: string, irn: string, core: string, signedCore: string,
    status: string, payment: string, reference: string, nrs: bool, createdAt: nat, updatedAt: nat)

  /** Seven days, in nanoseconds. */
  const IDEMPOTENCY_TTL: nat := 7 * 24 * 3600 * 1_000_000_000

  datatype Index = Index(byId: map<string, Invoice>, byIdemKey: map<string, string>,
                         bySuppNum: map<string, string>, byIrn: map<string, string>, order: seq<string>)

  const EMPTY_INDEX: Index := Index(map[], map[], map[], map[], [])

  function IdemKey(inv: Invoice): string {
    inv.tenant + "|" + inv.idemKey
  }

  function SuppNum(inv: Invoice): string {
    inv.tenant + "|" + inv.supplierTin + "|" + inv.number
  }

  function IndexOne(ix: Index, inv: Invoice): Index {
    Index(
      ix.byId[inv.id := inv],
      if inv.idemKey != "" then ix.byIdemKey[IdemKey(inv) := inv.id] else ix.byIdemKey,
      if inv.supplierTin != "" && inv.number != "" then ix.bySuppNum[SuppNum(inv) := inv.id] else ix.bySuppNum,
      if inv.irn != "" then ix.byIrn[inv.irn := inv.id] else ix.byIrn,
      if inv.id in ix.byId then ix.order else ix.order + [inv.id])
  }

  /** The index a restart rebuilds: the file folded in order, last write wins. */
  function Load(log: seq<Invoice>): Index {
    if log == [] then EMPTY_INDEX else IndexOne(Load(log[..|log| - 1]), log[|log| - 1])
  }

  lemma LoadAppend(log: seq<Invoice>, inv: Invoice)
    ensures Load(log + [inv]) == IndexOne(Load(log), inv)
  {
    assert (log + [inv])[..|log|] == log;
  }

  predicate Expired(inv: Invoice, now: nat) {
    inv.createdAt != 0 && now - inv.createdAt > IDEMPOTENCY_TTL
  }

  datatype SaveResult = Saved(inv: Invoice) | Replayed(prior: string) | PayloadConflict(prior: string) | Faulted

  /** The version as it is written: time-stamped, and dated at its first save. */
  function Stamped(inv: Invoice, now: nat): Invoice {
    inv.(updatedAt := now, createdAt := if inv.createdAt == 0 then now else inv.createdAt)
  }

  /** Whether a save goes through, and if not, which invoice holds the key. */
  function SaveCheck(ix: Index, inv: Invoice, now: nat): SaveResult {
    if inv.idemKey != "" && IdemKey(inv) in ix.byIdemKey && ix.byIdemKey[IdemKey(inv)] != inv.id
       && ix.byIdemKey[IdemKey(inv)] in ix.byId
       && !Expired(ix.byId[ix.byIdemKey[IdemKey(inv)]], now) then
      var prior := ix.byIdemKey[IdemKey(inv)];
      if ix.byId[prior].core != inv.core then PayloadConflict(prior) else Replayed(prior)
    else Saved(Stamped(inv, now))
  }

  predicate Purgeable(ix: Index, id: string, now: nat) {
    id in ix.byId && ix.byId[id].status in {"reported", "failed"} && Expired(ix.byId[id], now)
  }

  function Purged(ix: Index, now: nat): Index {
    ix.(byIdemKey := map k | k in ix.byIdemKey && !Purgeable(ix, ix.byIdemKey[k], now) :: ix.byIdemKey[k])
  }

  /** The keys left once all but those in `todo` have been visited. */
  function Remaining(ix: Index, todo: set<string>, now: nat): map<string, string> {
    map k | k in ix.byIdemKey && (k in todo || !Purgeable(ix, ix.byIdemKey[k], now)) :: ix.byIdemKey[k]
  }

  lemma VisitKey(ix: Index, todo: set<string>, key: string, now: nat)
    requires key in todo && key in ix.byIdemKey
    ensures var m, m' := Remaining(ix, todo, now), Remaining(ix, todo - {key}, now);
      if Purgeable(ix, ix.byIdemKey[key], now) then m' == m - {key} && |m'| == |m| - 1 else m' == m
  {
    var m, m' := Remaining(ix, todo, now), Remaining(ix, todo - {key}, now);
    if Purgeable(ix, ix.byIdemKey[key], now) {
      assert m' == m - {key};
      assert m.Keys == m'.Keys + {key};
    } else {
      assert m' == m;
    }
  }

  class Store {
    var file: seq<Invoice>
    var byId: map<string, Invoice>
    var byIdemKey: map<string, string>
    var bySuppNum: map<string, string>
    var byIrn: map<string, string>
    var order: seq<string>

    ghost function View(): Index
      reads this
    {
      Index(byId, byIdemKey, bySuppNum, byIrn, order)
    }

    method Put(inv: Invoice)
      modifies this
      ensures View() == IndexOne(old(View()), inv) && file == old(file)
      ensures inv.id in byId && byId[inv.id] == inv
      ensures inv.idemKey != "" ==>
        var key := inv.tenant + "|" + inv.idemKey; key in byIdemKey && byIdemKey[key] == inv.id
      ensures inv.supplierTin != "" && inv.number != "" ==>
        var key := inv.tenant + "|" + inv.supplierTin + "|" + inv.number; key in bySuppNum && bySuppNum[key] == inv.id
      ensures inv.irn != "" ==> inv.irn in byIrn && byIrn[inv.irn] == inv.id
    {
      if inv.id !in byId {
        order := order + [inv.id];
      }
      byId := byId[inv.id := inv];
      if inv.idemKey != "" {
        byIdemKey := byIdemKey[IdemKey(inv) := inv.id];
      }
      if inv.supplierTin != "" && inv.number != "" {
        bySuppNum := bySuppNum[SuppNum(inv) := inv.id];
      }
      if inv.irn != "" {
        byIrn := byIrn[inv.irn := inv.id];
      }
    }

    /** Opening the store replays the file. */
    constructor (file: seq<Invoice>)
      ensures this.file == file && View() == Load(file)
    {
      this.file := file;
      byId, byIdemKey, bySuppNum, byIrn, order := map[], map[], map[], map[], [];
      new;
      var i := 0;
      while i < |file|
        invariant 0 <= i <= |file| && this.file == file && View() == Load(file[..i])
      {
        LoadAppend(file[..i], file[i]);
        assert file[..i + 1] == file[..i] + [file[i]];
        Put(file[i]);
        i := i + 1;
      }
      assert file[..i] == file;
    }

    /** An accepted save appends one version and indexes it; a refused one changes nothing. */
    method Save(inv: Invoice, now: nat, fault: bool) returns (r: SaveResult)
      modifies this
      ensures r == if fault then Faulted else SaveCheck(old(View()), inv, now)
      ensures r.Saved? ==> file == old(file) + [r.inv] && View() == IndexOne(old(View()), r.inv)
      ensures !r.Saved? ==> file == old(file) && View() == old(View())
    {
      if fault {
        return Faulted;
      }
      if inv.idemKey != "" && IdemKey(inv) in byIdemKey {
        var id := byIdemKey[IdemKey(inv)];
        if id != inv.id && id in byId && !Expired(byId[id], now) {
          if byId[id].core != inv.core {
            return PayloadConflict(id);
          }
          return Replayed(id);
        }
      }
      var stamped := inv.(updatedAt := now);
      if stamped.createdAt == 0 {
        stamped := stamped.(createdAt := now);
      }
      file := file + [stamped];
      Put(stamped);
      return Saved(stamped);
    }

    /** Drops the keys whose window has closed and whose invoice is finished, and nothing else. */
    method PurgeExpiredIdempotencyKeys(now: nat) returns (purged: nat)
      modifies this
      ensures View() == Purged(old(View()), now) && file == old(file)
      ensures forall key :: key in old(byIdemKey) ==>
        (key !in byIdemKey <==>
           && old(byIdemKey)[key] in byId && byId[old(byIdemKey)[key]].createdAt != 0
           && now - byId[old(byIdemKey)[key]].createdAt > 604_800_000_000_000
           && (byId[old(byIdemKey)[key]].status == "reported" || byId[old(byIdemKey)[key]].status == "failed"))
      ensures purged == |old(byIdemKey)| - |byIdemKey|
    {
      var ix := Index(byId, byIdemKey, bySuppNum, byIrn, order);
      purged := 0;
      var todo := byIdemKey.Keys;
      assert byIdemKey == Remaining(ix, todo, now);
      while todo != {}
        invariant todo <= ix.byIdemKey.Keys
        invariant View() == ix.(byIdemKey := Remaining(ix, todo, now)) && file == old(file)
        invariant purged == |ix.byIdemKey| - |byIdemKey|
        decreases todo
      {
        var key :| key in todo;
        VisitKey(ix, todo, key, now);
        if Purgeable(ix, ix.byIdemKey[key], now) {
          byIdemKey := byIdemKey - {key};
          purged := purged + 1;
        }
        todo := todo - {key};
      }
    }
  }
}
