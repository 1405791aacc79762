/** The receipt store (services/pos-vat/store.go:157-263): a map of receipts, a per-tenant list of ids, and the
    append-only log both are rebuilt from. A receipt stamped as settled is logged again, so after a restart its
    id is listed more than once; what matters is that an unsettled one never is. */
module ReceiptStore {
  import opened MapSums

  datatype Receipt = Receipt(id: string, tenant: string, capturedAt: string, mode: string,
                             vat: int, federal: int, state: int, lga: int, platform: bool, settledIn: string)

  datatype Contents = Contents(receipts: map<string, Receipt>, byTenant: map<string, seq<string>>, log: seq<Receipt>)

  function Listed(c: Contents, tenant: string): seq<string> {
    if tenant in c.byTenant then c.byTenant[tenant] else []
  }

  function Enter(c: Contents, r: Receipt): Contents {
    c.(receipts := c.receipts[r.id := r], byTenant := c.byTenant[r.tenant := Listed(c, r.tenant) + [r.id]])
  }

  /** What a restart reads back. */
  function Replay(log: seq<Receipt>): Contents {
    if log == [] then Contents(map[], map[], [])
    else
      var r := log[|log| - 1];
      var before := Replay(log[..|log| - 1]);
      (if r.id == "" then before else Enter(before, r)).(log := log)
  }

  function Put(c: Contents, r: Receipt): Contents {
    if r.id in c.receipts then c else Enter(c, r).(log := c.log + [r])
  }

  function MarkOne(c: Contents, id: string, key: string): Contents {
    if id !in c.receipts then c
    else
      var r := c.receipts[id].(settledIn := key);
      c.(receipts := c.receipts[id := r], log := c.log + [r])
  }

  function Mark(c: Contents, ids: seq<string>, key: string): Contents {
    if ids == [] then c else MarkOne(Mark(c, ids[..|ids| - 1], key), ids[|ids| - 1], key)
  }

  class Store {
    var receipts: map<string, Receipt>
    var byTenant: map<string, seq<string>>
    var log: seq<Receipt>

    ghost function View(): Contents
      reads this
    {
      Contents(receipts, byTenant, log)
    }

    constructor (log: seq<Receipt>)
      ensures View() == Replay(log)
    {
      receipts, byTenant, this.log := map[], map[], [];
      new;
      var i := 0;
      while i < |log|
        invariant 0 <= i <= |log| && View() == Replay(log[..i])
      {
        var r := log[i];
        assert log[..i + 1] == log[..i] + [r] && log[..i + 1][..i] == log[..i];
        if r.id != "" {
          receipts := receipts[r.id := r];
          byTenant := byTenant[r.tenant := (if r.tenant in byTenant then byTenant[r.tenant] else []) + [r.id]];
        }
        this.log := log[..i + 1];
        i := i + 1;
      }
      assert log[..i] == log;
    }

    method PutReceipt(r: Receipt)
      modifies this
      ensures View() == Put(old(View()), r)
    {
      if r.id !in receipts {
        log := log + [r];
        receipts := receipts[r.id := r];
        byTenant := byTenant[r.tenant := (if r.tenant in byTenant then byTenant[r.tenant] else []) + [r.id]];
      }
    }

    method MarkReceiptsSettled(ids: seq<string>, key: string)
      modifies this
      ensures View() == Mark(old(View()), ids, key)
    {
      var i := 0;
      while i < |ids|
        invariant 0 <= i <= |ids| && View() == Mark(old(View()), ids[..i], key)
      {
        assert ids[..i + 1][..i] == ids[..i];
        if ids[i] in receipts {
          var r := receipts[ids[i]].(settledIn := key);
          receipts := receipts[ids[i] := r];
          log := log + [r];
        }
        i := i + 1;
      }
      assert ids[..i] == ids;
    }
  }

  // ----- Histories -----

  datatype Op = Ingest(r: Receipt) | Settle(ids: seq<string>, key: string) | Restart

  /** Receipts come in unsettled and with an id; settling stamps a non-empty key. */
  predicate Proper(op: Op) {
    match op
    case Ingest(r) => r.id != "" && r.settledIn == ""
    case Settle(_, key) => key != ""
    case Restart => true
  }

  function Next(c: Contents, op: Op): Contents {
    match op
    case Ingest(r) => Put(c, r)
    case Settle(ids, key) => Mark(c, ids, key)
    case Restart => Replay(c.log)
  }

  function Run(ops: seq<Op>): Contents {
    if ops == [] then Contents(map[], map[], []) else Next(Run(ops[..|ops| - 1]), ops[|ops| - 1])
  }

  // ----- Invariant -----

  function Count(s: seq<string>, x: string): nat {
    if s == [] then 0 else Count(s[..|s| - 1], x) + if s[|s| - 1] == x then 1 else 0
  }

  lemma CountAppend(s: seq<string>, y: string, x: string)
    ensures Count(s + [y], x) == Count(s, x) + if y == x then 1 else 0
  {
    assert (s + [y])[..|s|] == s;
  }

  lemma {:induction false} CountMember(s: seq<string>, x: string)
    ensures Count(s, x) > 0 <==> x in s
  {
    if s != [] {
      CountMember(s[..|s| - 1], x);
      assert s == s[..|s| - 1] + [s[|s| - 1]];
    }
  }

  /** How often `id` is listed under `tenant`. */
  function Times(c: Contents, tenant: string, id: string): nat {
    Count(Listed(c, tenant), id)
  }

  /** Every stored receipt is listed under its tenant, and exactly once while it is unsettled; nothing else is
      listed there. */
  ghost predicate ListedOnce(c: Contents) {
    TimesRight(c) && TenantsRight(c) && IdsRight(c)
  }

  ghost predicate TimesRight(c: Contents) {
    forall id :: id in c.receipts ==> OnceListed(c, c.receipts[id])
  }

  predicate OnceListed(c: Contents, r: Receipt) {
    var n := Times(c, r.tenant, r.id); n >= 1 && (r.settledIn == "" ==> n == 1)
  }

  ghost predicate TenantsRight(c: Contents) {
    forall t, id :: id in Listed(c, t) ==> id in c.receipts && c.receipts[id].tenant == t
  }

  ghost predicate IdsRight(c: Contents) {
    forall id :: id in c.receipts ==> c.receipts[id].id == id != ""
  }

  lemma ReplayAppend(log: seq<Receipt>, r: Receipt)
    requires r.id != ""
    ensures Replay(log + [r]) == Enter(Replay(log), r).(log := log + [r])
  {
    assert (log + [r])[..|log|] == log;
  }

  /** Entering a receipt appends to one tenant's list and leaves the others. */
  lemma EnterLists(c: Contents, r: Receipt, t: string)
    ensures Listed(Enter(c, r), t) == Listed(c, t) + if t == r.tenant then [r.id] else []
  {
  }

  lemma EnterTimes(c: Contents, r: Receipt, t: string, id: string)
    ensures Times(Enter(c, r), t, id) == Times(c, t, id) + if t == r.tenant && id == r.id then 1 else 0
    ensures id in Listed(Enter(c, r), t) <==> id in Listed(c, t) || (t == r.tenant && id == r.id)
  {
    EnterLists(c, r, t);
    CountAppend(Listed(c, t), r.id, id);
  }

  /** Entering keeps the lists exact: either a new receipt, or a settled version of one already listed. */
  lemma EnterKeeps(c: Contents, r: Receipt)
    requires ListedOnce(c) && r.id != ""
    requires r.id in c.receipts ==> r.tenant == c.receipts[r.id].tenant && r.settledIn != ""
    ensures ListedOnce(Enter(c, r))
  {
    hide TimesRight, TenantsRight, IdsRight, Enter;
    EnterTimesRight(c, r);
    EnterTenantsRight(c, r);
    EnterIdsRight(c, r);
  }

  lemma EnterIdsRight(c: Contents, r: Receipt)
    requires IdsRight(c) && r.id != ""
    ensures IdsRight(Enter(c, r))
  {
  }

  lemma EnterTimesRight(c: Contents, r: Receipt)
    requires TimesRight(c) && TenantsRight(c) && IdsRight(c)
    requires r.id in c.receipts ==> r.tenant == c.receipts[r.id].tenant && r.settledIn != ""
    ensures TimesRight(Enter(c, r))
  {
    var c' := Enter(c, r);
    CountMember(Listed(c, r.tenant), r.id);
    hide Listed, Count, Times;
    forall id | id in c'.receipts
      ensures OnceListed(c', c'.receipts[id])
    {
      EnterTimes(c, r, c'.receipts[id].tenant, c'.receipts[id].id);
      EnteredOnce(c, r, c'.receipts[id]);
    }
  }

  lemma EnteredOnce(c: Contents, r: Receipt, x: Receipt)
    requires IdsRight(c) && TimesRight(c) && TenantsRight(c)
    requires x == r || (x.id in c.receipts && c.receipts[x.id] == x && x.id != r.id)
    requires r.id in c.receipts ==> r.tenant == c.receipts[r.id].tenant && r.settledIn != ""
    ensures OnceListed(Enter(c, r), x)
  {
    CountMember(Listed(c, r.tenant), r.id);
    EnterTimes(c, r, x.tenant, x.id);
    assert x.id in c.receipts ==> OnceListed(c, c.receipts[x.id]);
    hide Enter, Listed, Count, TimesRight;
  }

  lemma EnterTenantsRight(c: Contents, r: Receipt)
    requires TenantsRight(c)
    requires r.id in c.receipts ==> r.tenant == c.receipts[r.id].tenant
    ensures TenantsRight(Enter(c, r))
  {
    var c' := Enter(c, r);
    forall t, id | id in Listed(c', t)
      ensures id in c'.receipts && c'.receipts[id].tenant == t
    {
      EnterTimes(c, r, t, id);
    }
  }

  lemma StampKeeps(c: Contents, id: string, r: Receipt, log: seq<Receipt>)
    requires ListedOnce(c) && id in c.receipts && r.id == id && r.tenant == c.receipts[id].tenant && r.settledIn != ""
    ensures ListedOnce(c.(receipts := c.receipts[id := r], log := log))
  {
    var c' := c.(receipts := c.receipts[id := r], log := log);
    assert forall t :: Listed(c', t) == Listed(c, t);
    assert IdsRight(c') && TenantsRight(c');
    forall x | x in c'.receipts
      ensures OnceListed(c', c'.receipts[x])
    {
      assert OnceListed(c, c.receipts[x]);
    }
  }

  lemma ChangeLog(c: Contents, log: seq<Receipt>)
    requires ListedOnce(c)
    ensures ListedOnce(c.(log := log))
  {
    assert forall t :: Listed(c.(log := log), t) == Listed(c, t);
  }

  /** The log replays to an exact store with these receipts. */
  ghost predicate Replays(c: Contents) {
    ListedOnce(Replay(c.log)) && Replay(c.log).receipts == c.receipts
  }

  lemma AppendReplays(c: Contents, r: Receipt, c': Contents)
    requires Replays(c) && r.id != "" && c'.log == c.log + [r] && c'.receipts == c.receipts[r.id := r]
    requires r.id in c.receipts ==> r.tenant == c.receipts[r.id].tenant && r.settledIn != ""
    ensures Replays(c')
  {
    ReplayAppend(c.log, r);
    EnterKeeps(Replay(c.log), r);
    ChangeLog(Enter(Replay(c.log), r), c'.log);
  }

  lemma MarkOneKeeps(c: Contents, id: string, key: string)
    requires ListedOnce(c) && Replays(c) && key != ""
    ensures ListedOnce(MarkOne(c, id, key)) && Replays(MarkOne(c, id, key))
  {
    if id in c.receipts {
      var r := c.receipts[id].(settledIn := key);
      StampKeeps(c, id, r, c.log + [r]);
      AppendReplays(c, r, MarkOne(c, id, key));
    }
  }

  lemma {:induction false} MarkKeeps(c: Contents, ids: seq<string>, key: string)
    requires ListedOnce(c) && Replays(c) && key != ""
    ensures ListedOnce(Mark(c, ids, key)) && Replays(Mark(c, ids, key))
    decreases |ids|
  {
    if ids != [] {
      MarkKeeps(c, ids[..|ids| - 1], key);
      MarkOneKeeps(Mark(c, ids[..|ids| - 1], key), ids[|ids| - 1], key);
    }
  }

  lemma PutKeeps(c: Contents, r: Receipt)
    requires ListedOnce(c) && Replays(c) && r.id != ""
    ensures ListedOnce(Put(c, r)) && Replays(Put(c, r))
  {
    if r.id !in c.receipts {
      AppendReplays(c, r, Put(c, r));
      EnterKeeps(c, r);
      ChangeLog(Enter(c, r), c.log + [r]);
    }
  }

  lemma {:induction false} ReplayLog(log: seq<Receipt>)
    ensures Replay(log).log == log
  {
  }

  lemma NextKeepsInv(c: Contents, op: Op)
    requires ListedOnce(c) && Replays(c) && Proper(op)
    ensures ListedOnce(Next(c, op)) && Replays(Next(c, op))
  {
    match op
    case Ingest(r) => PutKeeps(c, r);
    case Settle(ids, key) => MarkKeeps(c, ids, key);
    case Restart => ReplayLog(c.log);
  }

  /** Over every history of ingests, settlements and restarts, the map is the last version of each receipt in
      the log, and an unsettled receipt is listed exactly once. */
  lemma {:induction false} UnsettledListedOnce(ops: seq<Op>)
    requires forall op :: op in ops ==> Proper(op)
    ensures ListedOnce(Run(ops)) && Replays(Run(ops))
  {
    if ops != [] {
      UnsettledListedOnce(ops[..|ops| - 1]);
      NextKeepsInv(Run(ops[..|ops| - 1]), ops[|ops| - 1]);
    }
  }

  // ----- No double counting -----

  function Weight(m: map<string, int>, id: string): int {
    if id in m then m[id] else 0
  }

  function ListSum(ids: seq<string>, m: map<string, int>): int {
    if ids == [] then 0 else ListSum(ids[..|ids| - 1], m) + Weight(m, ids[|ids| - 1])
  }

  /** Summing along a list that has every key once gives the map's total. */
  lemma {:induction false} ListSumTotal(ids: seq<string>, m: map<string, int>)
    requires forall k :: k in m ==> Count(ids, k) == 1
    ensures ListSum(ids, m) == Total(m)
    decreases |ids|
  {
    if ids == [] {
      assert m == map[] by {
        assert forall k :: k in m ==> Count(ids, k) == 0;
      }
    } else {
      var front, x := ids[..|ids| - 1], ids[|ids| - 1];
      var rest := m - {x};
      ListSumTotal(front, rest);
      if x in m {
        TotalRemove(m, x);
        CountMember(front, x);
        ListSumSame(front, m, rest);
      } else {
        assert rest == m;
      }
    }
  }

  lemma {:induction false} ListSumSame(ids: seq<string>, m: map<string, int>, m': map<string, int>)
    requires forall id :: id in ids ==> Weight(m, id) == Weight(m', id)
    ensures ListSum(ids, m) == ListSum(ids, m')
    decreases |ids|
  {
    if ids != [] {
      ListSumSame(ids[..|ids| - 1], m, m');
    }
  }

  /** The unsettled VAT of a tenant. */
  function UnsettledVat(c: Contents, tenant: string): map<string, int> {
    map id | id in c.receipts && c.receipts[id].tenant == tenant && c.receipts[id].settledIn == "" :: c.receipts[id].vat
  }

  /** Adding up unsettled VAT along the tenant's list counts each unsettled receipt exactly once. */
  lemma ListingIsExact(ops: seq<Op>, tenant: string)
    requires forall op :: op in ops ==> Proper(op)
    ensures var c := Run(ops); ListSum(Listed(c, tenant), UnsettledVat(c, tenant)) == Total(UnsettledVat(c, tenant))
  {
    UnsettledListedOnce(ops);
    ListSumTotal(Listed(Run(ops), tenant), UnsettledVat(Run(ops), tenant));
  }
}
