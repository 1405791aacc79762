/** Where a lifecycle run ends (services/einvoicing/nrs_lifecycle.go:45-227): undisturbed, it confirms the invoice
    under its number, whether it starts from a request or from a recovery sweep, and whatever status it was
    interrupted in. */
module LifecycleRuns {
  import opened IrnFormat
  import opened InvoiceStore
  import opened NrsLifecycle
  import opened IrnUniqueness

  /** Every external call and every save succeeds. */
  predicate Good(env: Env) {
    env.ok && !env.fault && !env.failFault && env.at > 0
  }

  /** The machine after further events. */
  function Fold(m: Machine, evs: seq<Event>): Machine {
    if evs == [] then m else Next(Fold(m, evs[..|evs| - 1]), evs[|evs| - 1])
  }

  lemma FoldNext(m: Machine, evs: seq<Event>, ev: Event)
    ensures Fold(m, evs + [ev]) == Next(Fold(m, evs), ev)
  {
    hide Next;
    assert (evs + [ev])[..|evs|] == evs;
  }

  lemma {:induction false} FoldConcat(m: Machine, a: seq<Event>, b: seq<Event>)
    ensures Fold(m, a + b) == Fold(Fold(m, a), b)
    decreases |b|
  {
    hide Next;
    if b == [] {
      assert a + b == a;
    } else {
      assert (a + b)[..|a + b| - 1] == a + b[..|b| - 1];
      FoldConcat(m, a, b[..|b| - 1]);
    }
  }

  // ----- One activity -----

  /** The idempotency key, if there is one, is the invoice's own. */
  predicate KeyOwned(ix: Index, inv: Invoice) {
    inv.idemKey != "" ==> IdemKey(inv) in ix.byIdemKey && ix.byIdemKey[IdemKey(inv)] == inv.id
  }

  lemma SaveFree(ix: Index, inv: Invoice, at: nat)
    requires KeyOwned(ix, inv)
    ensures SaveCheck(ix, inv, at) == Saved(Stamped(inv, at))
  {
  }

  lemma GenerateStep(m: Machine, inv: Invoice, irn: string, env: Env)
    requires m.phase == Running(inv, Generate) && Good(env)
    requires if inv.irn == "" then BuildIrn(inv.number, env.serviceId, inv.issueDate) == Ok(irn) else inv.irn == irn
    ensures Next(m, Work(env)) == m.(phase := Running(inv.(irn := irn), Validate))
  {
    hide BuildIrn;
  }

  lemma ValidatePasses(m: Machine, inv: Invoice, env: Env)
    requires m.phase == Running(inv, Validate) && Good(env)
    requires StructureOk(inv) && (inv.irn in m.ix.byIrn ==> m.ix.byIrn[inv.irn] == inv.id)
    ensures Next(m, Work(env)) == m.(phase := Running(inv, SignIrn))
  {
    hide StructureOk;
    ValidateStep(m, inv, env);
  }

  lemma SignIrnStep(m: Machine, inv: Invoice, env: Env)
    requires m.phase == Running(inv, SignIrn) && Good(env)
    ensures Next(m, Work(env)) == m.(phase := Running(inv, Schema))
  {
  }

  lemma SchemaStep(m: Machine, inv: Invoice, env: Env)
    requires m.phase == Running(inv, Schema) && Good(env)
    ensures Next(m, Work(env)) == m.(phase := Running(inv, SignInvoice))
  {
  }

  /** The version that an activity saves. */
  function Version(inv: Invoice, status: string, at: nat): Invoice {
    Stamped(inv.(status := status), at)
  }

  lemma SignStep(m: Machine, inv: Invoice, env: Env)
    requires m.phase == Running(inv, SignInvoice) && Good(env) && KeyOwned(m.ix, inv)
    ensures var v := Version(inv.(signedCore := inv.core), "signed", env.at);
      Next(m, Work(env)) == Append(m, v, Running(v, Transmit))
  {
    SaveFree(m.ix, inv.(signedCore := inv.core, status := "signed"), env.at);
  }

  lemma TransmitStep(m: Machine, inv: Invoice, env: Env)
    requires m.phase == Running(inv, Transmit) && Good(env) && KeyOwned(m.ix, inv)
    ensures var v := Version(inv, "transmitted", env.at); Next(m, Work(env)) == Append(m, v, Running(v, Confirm))
  {
    SaveFree(m.ix, inv.(status := "transmitted"), env.at);
  }

  lemma ConfirmStep(m: Machine, inv: Invoice, env: Env)
    requires m.phase == Running(inv, Confirm) && Good(env) && KeyOwned(m.ix, inv)
    requires inv.id in m.ix.byId && m.ix.byId[inv.id].irn == inv.irn && m.ix.byId[inv.id].core == inv.signedCore
    ensures var v := Version(inv, "confirmed", env.at); Next(m, Work(env)) == Append(m, v, Idle)
  {
    SaveFree(m.ix, inv.(status := "confirmed"), env.at);
  }

  // ----- The last three activities -----

  /** The invoice is confirmed: signed over its own core, under its number, three versions later, and no other invoice,
      number or key is touched. */
  ghost predicate Confirmed(m: Machine, m': Machine, inv: Invoice) {
    && m'.phase == Idle && m'.queue == m.queue && |m'.log| == |m.log| + 3 && m.log <= m'.log
    && inv.id in m'.ix.byId
    && (var v := m'.ix.byId[inv.id];
        && v.status == "confirmed" && v.id == inv.id && v.irn == inv.irn && v.number == inv.number
        && v.core == inv.core && v.signedCore == inv.core)
    && (forall id :: id != inv.id && id in m.ix.byId ==> id in m'.ix.byId && m'.ix.byId[id] == m.ix.byId[id])
    && m'.ix.byIrn == m.ix.byIrn[inv.irn := inv.id]
    && (forall key :: key in m.ix.byIdemKey && m.ix.byIdemKey[key] != inv.id ==>
          key in m'.ix.byIdemKey && m'.ix.byIdemKey[key] == m.ix.byIdemKey[key])
  }

  lemma IndexedVersion(ix: Index, v: Invoice)
    requires v.irn != "" && KeyOwned(ix, v)
    ensures var ix' := IndexOne(ix, v);
      && KeyOwned(ix', v) && ix'.byId == ix.byId[v.id := v] && ix'.byIrn == ix.byIrn[v.irn := v.id]
      && ix'.byIdemKey == ix.byIdemKey
  {
    if v.idemKey != "" {
      assert ix.byIdemKey[IdemKey(v) := v.id] == ix.byIdemKey;
    }
  }

  lemma ThreeVersions(m: Machine, inv: Invoice, a: Invoice, b: Invoice, c: Invoice, m': Machine)
    requires inv.irn != "" && KeyOwned(m.ix, inv) && IdemKey(a) == IdemKey(b) == IdemKey(c) == IdemKey(inv)
    requires a.id == b.id == c.id == inv.id && a.irn == b.irn == c.irn == inv.irn
    requires a.idemKey == b.idemKey == c.idemKey == inv.idemKey
    requires c.status == "confirmed" && c.number == inv.number && c.core == inv.core && c.signedCore == inv.core
    requires m'.log == m.log + [a] + [b] + [c] && m'.phase == Idle && m'.queue == m.queue
    requires m'.ix == IndexOne(IndexOne(IndexOne(m.ix, a), b), c)
    ensures Confirmed(m, m', inv)
  {
    IndexedVersion(m.ix, a);
    IndexedVersion(IndexOne(m.ix, a), b);
    IndexedVersion(IndexOne(IndexOne(m.ix, a), b), c);
    hide IndexOne;
  }

  lemma Closes(m: Machine, inv: Invoice, env: Env)
    requires m.phase == Running(inv, SignInvoice) && Good(env) && KeyOwned(m.ix, inv) && inv.irn != ""
    ensures Confirmed(m, Next(Next(Next(m, Work(env)), Work(env)), Work(env)), inv)
  {
    var a := Version(inv.(signedCore := inv.core), "signed", env.at);
    var b := Version(a, "transmitted", env.at);
    var c := Version(b, "confirmed", env.at);
    var m1, m2 := Append(m, a, Running(a, Transmit)),
      Append(Append(m, a, Running(a, Transmit)), b, Running(b, Confirm));
    SignStep(m, inv, env);
    IndexedVersion(m.ix, a);
    TransmitStep(m1, a, env);
    IndexedVersion(m1.ix, b);
    ConfirmStep(m2, b, env);
    hide Next, IndexOne, Confirmed;
    ThreeVersions(m, inv, a, b, c, Append(m2, c, Idle));
  }

  // ----- A whole run -----

  /** The number the run gives the invoice, or finds on it. */
  predicate Numbers(inv: Invoice, env: Env, irn: string) {
    if inv.irn == "" then BuildIrn(inv.number, env.serviceId, inv.issueDate) == Ok(irn) else inv.irn == irn
  }

  /** The number fits the invoice, and nobody else is indexed under it. */
  predicate NumberOwned(ix: Index, inv: Invoice, irn: string) {
    StructureOk(inv.(irn := irn)) && (irn in ix.byIrn ==> ix.byIrn[irn] == inv.id)
  }

  function SevenWorks(env: Env): seq<Event> {
    [Work(env), Work(env), Work(env), Work(env), Work(env), Work(env), Work(env)]
  }

  lemma FoldSeven(m: Machine, env: Env)
    ensures var w := Work(env);
      Fold(m, SevenWorks(env)) == Next(Next(Next(Next(Next(Next(Next(m, w), w), w), w), w), w), w)
  {
    hide Next, Fold;
    var w, none: seq<Event> := Work(env), [];
    FoldNone(m);
    FoldNext(m, none, w);
    FoldNext(m, none + [w], w);
    FoldNext(m, none + [w] + [w], w);
    FoldNext(m, none + [w] + [w] + [w], w);
    FoldNext(m, none + [w] + [w] + [w] + [w], w);
    FoldNext(m, none + [w] + [w] + [w] + [w] + [w], w);
    FoldNext(m, none + [w] + [w] + [w] + [w] + [w] + [w], w);
    assert none + [w] + [w] + [w] + [w] + [w] + [w] + [w] == SevenWorks(env);
  }

  lemma FoldNone(m: Machine)
    ensures Fold(m, []) == m
  {
  }

  /** A run that begins, on a draft or on an interrupted invoice of any status, confirms it in seven activities. */
  lemma RunConfirms(m: Machine, inv: Invoice, env: Env, irn: string)
    requires m.phase == Running(inv, Generate) && Good(env) && KeyOwned(m.ix, inv)
    requires Numbers(inv, env, irn) && NumberOwned(m.ix, inv, irn)
    ensures Confirmed(m, Fold(m, SevenWorks(env)), inv.(irn := irn))
  {
    var named := inv.(irn := irn);
    ParsedIrnNonempty(named);
    GenerateStep(m, inv, irn, env);
    hide StructureOk, BuildIrn;
    var m1 := m.(phase := Running(named, Validate));
    ValidatePasses(m1, named, env);
    SignIrnStep(m.(phase := Running(named, SignIrn)), named, env);
    SchemaStep(m.(phase := Running(named, Schema)), named, env);
    var m4 := m.(phase := Running(named, SignInvoice));
    Closes(m4, named, env);
    FoldSeven(m, env);
    hide Next;
    SamePlace(m, m4, Fold(m, SevenWorks(env)), named);
  }

  /** Confirmation does not look at where the run stood. */
  lemma SamePlace(m: Machine, m4: Machine, m': Machine, inv: Invoice)
    requires Confirmed(m4, m', inv) && m4 == m.(phase := m4.phase)
    ensures Confirmed(m, m', inv)
  {
  }

  // ----- From a request -----

  /** A new, numbered invoice without a reference number of its own, and without an idempotency key that is in use. */
  predicate FreshDraft(m: Machine, a: Invoice) {
    && IsDraft(m, a) && a.irn == "" && TrimSpace(a.number) == a.number
    && (a.idemKey != "" ==> IdemKey(a) !in m.ix.byIdemKey)
  }

  lemma CreateStep(m: Machine, a: Invoice, env: Env)
    requires Quiet(m) && FreshDraft(m, a) && Good(env)
    ensures var stored := Stamped(a, env.at);
      Next(m, Create(a, true, env.at, false)) == Append(m, stored, Running(stored, Generate))
  {
    hide TrimSpace;
  }

  lemma DraftIndexed(ix: Index, a: Invoice)
    requires a.irn == ""
    ensures var ix' := IndexOne(ix, a); KeyOwned(ix', a) && ix'.byIrn == ix.byIrn
  {
  }

  lemma BuiltFits(a: Invoice, env: Env, irn: string)
    requires TrimSpace(a.number) == a.number && BuildIrn(a.number, env.serviceId, a.issueDate) == Ok(irn)
    ensures StructureOk(a.(irn := irn))
  {
    ParseBuild(a.number, env.serviceId, a.issueDate);
  }

  /** A request for an unused number on a quiet machine ends, after its seven activities, with the invoice confirmed
      under the number built from its parts, signed over its core. */
  lemma RequestIsConfirmed(m: Machine, a: Invoice, env: Env, irn: string)
    requires Quiet(m) && FreshDraft(m, a) && Good(env)
    requires BuildIrn(a.number, env.serviceId, a.issueDate) == Ok(irn) && irn !in m.ix.byIrn
    ensures var m' := Fold(m, [Create(a, true, env.at, false)] + SevenWorks(env));
      && m'.phase == Idle && m'.queue == [] && a.id in m'.ix.byId && irn in m'.ix.byIrn && m'.ix.byIrn[irn] == a.id
      && var v := m'.ix.byId[a.id];
        v.status == "confirmed" && v.irn == irn && v.core == a.core && v.signedCore == a.core && v.number == a.number
  {
    var create, stored := Create(a, true, env.at, false), Stamped(a, env.at);
    var m1 := Append(m, stored, Running(stored, Generate));
    CreateStep(m, a, env);
    DraftReady(m, a, env, irn);
    hide Next, BuildIrn, IndexOne, KeyOwned, Numbers, NumberOwned, FreshDraft, Good, Fold, SevenWorks;
    RunConfirms(m1, stored, env, irn);
    FoldFirst(m, create, SevenWorks(env));
  }

  lemma DraftReady(m: Machine, a: Invoice, env: Env, irn: string)
    requires FreshDraft(m, a) && BuildIrn(a.number, env.serviceId, a.issueDate) == Ok(irn) && irn !in m.ix.byIrn
    ensures var stored := Stamped(a, env.at); var ix := IndexOne(m.ix, stored);
      KeyOwned(ix, stored) && Numbers(stored, env, irn) && NumberOwned(ix, stored, irn)
  {
    var stored := Stamped(a, env.at);
    DraftIndexed(m.ix, stored);
    BuiltFits(stored, env, irn);
    hide StructureOk, BuildIrn, TrimSpace, IndexOne, KeyOwned;
  }

  lemma FoldFirst(m: Machine, ev: Event, evs: seq<Event>)
    ensures Fold(m, [ev] + evs) == Fold(Next(m, ev), evs)
  {
    hide Next, Fold;
    assert [] + [ev] == [ev];
    FoldNone(m);
    FoldNext(m, [], ev);
    FoldConcat(m, [ev], evs);
  }

  // ----- From a recovery sweep -----

  /** An interrupted invoice that can be driven to its end. */
  predicate Resumable(ix: Index, id: string, env: Env, irn: string) {
    && id in ix.byId && ix.byId[id].id == id && KeyOwned(ix, ix.byId[id])
    && Numbers(ix.byId[id], env, irn) && NumberOwned(ix, ix.byId[id], irn)
  }

  /** What the sweep does for one listed invoice. */
  function OneSwept(env: Env): seq<Event> {
    [SweepNext] + SevenWorks(env)
  }

  lemma SweepStep(m: Machine)
    requires m.phase == Idle && m.queue != [] && m.queue[0] in m.ix.byId
    ensures Next(m, SweepNext)
         == m.(queue := m.queue[1..], phase := Running(m.ix.byId[m.queue[0]], Generate))
  {
  }

  /** The sweep confirms the invoice at the head of its list, whatever status it was interrupted in. */
  lemma SweptIsConfirmed(m: Machine, env: Env, irn: string)
    requires m.phase == Idle && m.queue != [] && Good(env) && Resumable(m.ix, m.queue[0], env, irn)
    ensures var m', inv := Fold(m, OneSwept(env)), m.ix.byId[m.queue[0]];
      Confirmed(m.(queue := m.queue[1..]), m', inv.(irn := irn))
  {
    var inv := m.ix.byId[m.queue[0]];
    SweepStep(m);
    hide Next, StructureOk, BuildIrn;
    var m1 := m.(queue := m.queue[1..], phase := Running(inv, Generate));
    RunConfirms(m1, inv, env, irn);
    FoldFirst(m, SweepNext, SevenWorks(env));
    SamePlace(m.(queue := m.queue[1..]), m1, Fold(m, OneSwept(env)), inv.(irn := irn));
  }

  function AllSwept(n: nat, env: Env): seq<Event> {
    if n == 0 then [] else OneSwept(env) + AllSwept(n - 1, env)
  }

  /** The listed invoices can all be driven, each under a number of its own. */
  ghost predicate AllResumable(ix: Index, ids: seq<string>, env: Env, irns: seq<string>) {
    && |irns| == |ids|
    && (forall i :: 0 <= i < |ids| ==> Resumable(ix, ids[i], env, irns[i]))
    && (forall i, j :: 0 <= i < j < |ids| ==> ids[i] != ids[j] && irns[i] != irns[j])
  }

  lemma StillResumable(m: Machine, m': Machine, inv: Invoice, id: string, env: Env, irn: string)
    requires Confirmed(m, m', inv) && id != inv.id && irn != inv.irn && Resumable(m.ix, id, env, irn)
    ensures Resumable(m'.ix, id, env, irn)
  {
    hide StructureOk, BuildIrn;
  }

  ghost predicate ConfirmedUnder(ix: Index, id: string, irn: string) {
    id in ix.byId && ix.byId[id].status == "confirmed" && ix.byId[id].irn == irn
    && ix.byId[id].signedCore == ix.byId[id].core
  }

  /** A recovery sweep on which nothing fails confirms every invoice it has listed. */
  lemma {:induction false} SweepConfirmsAll(m: Machine, env: Env, irns: seq<string>)
    requires m.phase == Idle && Good(env) && AllResumable(m.ix, m.queue, env, irns)
    ensures var m' := Fold(m, AllSwept(|m.queue|, env));
      && m'.phase == Idle && m'.queue == []
      && (forall i :: 0 <= i < |m.queue| ==> ConfirmedUnder(m'.ix, m.queue[i], irns[i]))
      && forall id :: id in m.ix.byId && id !in m.queue ==> id in m'.ix.byId && m'.ix.byId[id] == m.ix.byId[id]
    decreases |m.queue|
  {
    hide Fold, OneSwept, AllResumable, Good, Confirmed, ConfirmedUnder;
    if m.queue == [] {
      FoldNone(m);
    } else {
      var m1 := Fold(m, OneSwept(env));
      var inv := SweepFirst(m, env, irns);
      FoldConcat(m, OneSwept(env), AllSwept(|m.queue| - 1, env));
      SweepConfirmsAll(m1, env, irns[1..]);
      Listed(m, m1, inv, irns, Fold(m, AllSwept(|m.queue|, env)));
    }
  }

  lemma SweepFirst(m: Machine, env: Env, irns: seq<string>) returns (inv: Invoice)
    requires m.phase == Idle && m.queue != [] && Good(env) && AllResumable(m.ix, m.queue, env, irns)
    ensures var m1 := Fold(m, OneSwept(env));
      && Confirmed(m.(queue := m.queue[1..]), m1, inv) && |irns| == |m.queue|
      && inv.id == m.queue[0] && inv.irn == irns[0] && inv.id !in m1.queue && m1.phase == Idle
      && m1.queue == m.queue[1..] && AllResumable(m1.ix, m1.queue, env, irns[1..])
  {
    hide StructureOk, BuildIrn, Fold, OneSwept;
    inv := m.ix.byId[m.queue[0]].(irn := irns[0]);
    SweptIsConfirmed(m, env, irns[0]);
    NextListed(m, Fold(m, OneSwept(env)), inv, env, irns);
  }

  /** The first listed invoice and the others. */
  lemma Listed(m: Machine, m1: Machine, inv: Invoice, irns: seq<string>, m': Machine)
    requires m.queue != [] && |irns| == |m.queue| && inv.id == m.queue[0] && inv.irn == irns[0]
    requires Confirmed(m.(queue := m.queue[1..]), m1, inv) && inv.id !in m1.queue
    requires forall i :: 0 <= i < |m1.queue| ==> ConfirmedUnder(m'.ix, m1.queue[i], irns[1..][i])
    requires forall id :: id in m1.ix.byId && id !in m1.queue ==> id in m'.ix.byId && m'.ix.byId[id] == m1.ix.byId[id]
    ensures forall i :: 0 <= i < |m.queue| ==> ConfirmedUnder(m'.ix, m.queue[i], irns[i])
    ensures forall id :: id in m.ix.byId && id !in m.queue ==> id in m'.ix.byId && m'.ix.byId[id] == m.ix.byId[id]
  {
    forall i | 0 <= i < |m.queue|
      ensures ConfirmedUnder(m'.ix, m.queue[i], irns[i])
    {
      if i > 0 {
        assert m1.queue[i - 1] == m.queue[i] && irns[1..][i - 1] == irns[i];
      } else {
        assert inv.id !in m1.queue && inv.id in m1.ix.byId;
      }
    }
  }

  lemma NextListed(m: Machine, m1: Machine, inv: Invoice, env: Env, irns: seq<string>)
    requires m.queue != [] && AllResumable(m.ix, m.queue, env, irns) && inv.id == m.queue[0] && inv.irn == irns[0]
    requires Confirmed(m.(queue := m.queue[1..]), m1, inv)
    ensures m1.queue == m.queue[1..] && AllResumable(m1.ix, m1.queue, env, irns[1..]) && m.queue[0] !in m1.queue
  {
    hide Resumable;
    forall i | 0 <= i < |m1.queue|
      ensures Resumable(m1.ix, m1.queue[i], env, irns[1..][i])
    {
      assert m1.queue[i] == m.queue[i + 1] && irns[1..][i] == irns[i + 1];
      StillResumable(m.(queue := m.queue[1..]), m1, inv, m.queue[i + 1], env, irns[i + 1]);
    }
  }

  // ----- When something fails -----

  /** An external call that fails at steps 2, 4, 5 or 7 ends the run, and the invoice is recorded as failed under
      whatever number it had got. */
  lemma FailedCallEnds(m: Machine, inv: Invoice, env: Env)
    requires m.phase.Running? && m.phase.inv == inv && env.at > 0 && !env.ok && !env.failFault && KeyOwned(m.ix, inv)
    requires m.phase.step in {SignIrn, Schema, Transmit} || (m.phase.step == Generate && inv.irn == "")
    ensures var m' := Next(m, Work(env));
      && m'.phase == Idle && inv.id in m'.ix.byId
      && m'.ix.byId[inv.id].status == "failed" && m'.ix.byId[inv.id].irn == inv.irn
  {
    hide BuildIrn;
    SaveFree(m.ix, inv.(status := "failed"), env.at);
  }

  // ----- Replays, conflicts and payments -----

  /** A key whose holder is another stored invoice created within the last seven days answers with that invoice, as a
      replay when the core is the same and as a conflict when it is not; every other save goes through unchanged but for
      its dates. */
  lemma SaveAnswers(ix: Index, inv: Invoice, now: nat)
    ensures var key := inv.tenant + "|" + inv.idemKey;
      if inv.idemKey != "" && key in ix.byIdemKey && ix.byIdemKey[key] != inv.id && ix.byIdemKey[key] in ix.byId
         && (ix.byId[ix.byIdemKey[key]].createdAt == 0
             || now - ix.byId[ix.byIdemKey[key]].createdAt <= 604_800_000_000_000) then
        SaveCheck(ix, inv, now) == if ix.byId[ix.byIdemKey[key]].core == inv.core then Replayed(ix.byIdemKey[key])
                                   else PayloadConflict(ix.byIdemKey[key])
      else
        && SaveCheck(ix, inv, now).Saved?
        && var v := SaveCheck(ix, inv, now).inv;
          && v == inv.(createdAt := v.createdAt, updatedAt := now)
          && v.createdAt == if inv.createdAt == 0 then now else inv.createdAt
  {
  }

  /** A payment update stores what it brings, keeps what it does not, and touches neither number, core nor status. */
  lemma PatchStores(m: Machine, irn: string, payment: string, reference: string, at: nat)
    requires Quiet(m) && at > 0 && irn in m.ix.byIrn && m.ix.byIrn[irn] in m.ix.byId
    requires var inv := m.ix.byId[m.ix.byIrn[irn]]; inv.id == m.ix.byIrn[irn] && KeyOwned(m.ix, inv)
    ensures var m', id := Next(m, Patch(irn, payment, reference, true, at, false)), m.ix.byIrn[irn];
      && id in m'.ix.byId && m'.phase == Idle && |m'.log| == |m.log| + 1
      && var inv, v := m.ix.byId[id], m'.ix.byId[id];
        && (payment != "" ==> v.payment == payment) && (payment == "" ==> v.payment == inv.payment)
        && (reference != "" ==> v.reference == reference) && (reference == "" ==> v.reference == inv.reference)
        && v.status == inv.status && v.irn == inv.irn && v.core == inv.core && v.signedCore == inv.signedCore
  {
    var inv := m.ix.byId[m.ix.byIrn[irn]];
    SaveFree(m.ix, inv.(payment := if payment == "" then inv.payment else payment,
                        reference := if reference == "" then inv.reference else reference), at);
  }

  // ----- What a sweep lists -----

  /** A sweep lists exactly the stored invoices that are received, signed or transmitted. */
  lemma {:induction false} SweepLists(order: seq<string>, byId: map<string, Invoice>)
    ensures forall id :: id in InterimIds(order, byId) <==>
      && id in order && id in byId && byId[id].nrs
      && (byId[id].status == "received" || byId[id].status == "signed" || byId[id].status == "transmitted")
  {
    if order != [] {
      SweepLists(order[..|order| - 1], byId);
      assert order == order[..|order| - 1] + [order[|order| - 1]];
    }
  }

  // ----- Other endings and beginnings -----

  /** Step 8 refuses an invoice whose stored version has another number or another core than was signed. */
  lemma ConfirmRefuses(m: Machine, inv: Invoice, env: Env)
    requires m.phase == Running(inv, Confirm) && env.at > 0 && !env.failFault && KeyOwned(m.ix, inv)
    requires inv.id in m.ix.byId ==> m.ix.byId[inv.id].irn != inv.irn || m.ix.byId[inv.id].core != inv.signedCore
    ensures var m' := Next(m, Work(env));
      m'.phase == Idle && inv.id in m'.ix.byId && m'.ix.byId[inv.id].status == "failed"
  {
    SaveFree(m.ix, inv.(status := "failed"), env.at);
  }

  /** When the confirmation cannot be announced, the invoice stays confirmed and step 8 is tried again, until it is
      given up and the invoice recorded as failed. */
  lemma AnnouncementFails(m: Machine, inv: Invoice, env: Env)
    requires m.phase == Running(inv, Confirm) && env.at > 0 && !env.ok && !env.fault && !env.failFault
    requires KeyOwned(m.ix, inv) && inv.irn != ""
    requires inv.id in m.ix.byId && m.ix.byId[inv.id].irn == inv.irn && m.ix.byId[inv.id].core == inv.signedCore
    ensures var m' := Next(m, Work(env));
      && inv.id in m'.ix.byId
      && (env.giveUp ==> m'.phase == Idle && m'.ix.byId[inv.id].status == "failed")
      && (!env.giveUp ==> m'.phase.Running? && m'.phase.step == Confirm && m'.phase.inv.id == inv.id
                          && m'.ix.byId[inv.id].status == "confirmed")
  {
    var v := Version(inv, "confirmed", env.at);
    SaveFree(m.ix, inv.(status := "confirmed"), env.at);
    IndexedVersion(m.ix, v);
    SaveFree(IndexOne(m.ix, v), v.(status := "failed"), env.at);
  }

  /** A request that names a number in use, or repeats an idempotency key, starts no second invoice: it resumes the
      one it names if that is mid-flow and the caller may, and else changes nothing. */
  lemma RepeatResumes(m: Machine, draft: Invoice, allowed: bool, at: nat, id: string)
    requires Quiet(m) && IsDraft(m, draft) && at > 0 && id in m.ix.byId
    requires if draft.irn != "" && draft.irn in m.ix.byIrn then m.ix.byIrn[draft.irn] == id
             else SaveCheck(m.ix, draft, at) == Replayed(id)
    ensures var m' := Next(m, Create(draft, allowed, at, false));
      && m'.log == m.log && m'.ix == m.ix && m'.queue == m.queue
      && (if allowed && Interim(m.ix.byId[id]) then m'.phase == Running(m.ix.byId[id], Generate) else m'.phase == Idle)
  {
  }

  /** Step 3 refuses a number that does not parse, or that was built from another invoice number or another date, or
      that somebody else is indexed under. */
  lemma ValidateRefuses(m: Machine, inv: Invoice, env: Env)
    requires m.phase == Running(inv, Validate) && env.at > 0 && !env.failFault && KeyOwned(m.ix, inv)
    requires var p := ParseIrn(inv.irn);
      || p.Err? || p.value.number != inv.number || DateStamp(inv.issueDate) != Ok(p.value.dateStamp)
      || (inv.irn in m.ix.byIrn && m.ix.byIrn[inv.irn] != inv.id)
    ensures var m' := Next(m, Work(env));
      m'.phase == Idle && inv.id in m'.ix.byId && m'.ix.byId[inv.id].status == "failed"
  {
    StructureFails(inv);
    hide StructureOk, ParseIrn, DateStamp;
    ValidateStep(m, inv, env);
    SaveFree(m.ix, inv.(status := "failed"), env.at);
  }

  lemma StructureFails(inv: Invoice)
    ensures var p := ParseIrn(inv.irn);
      p.Err? || p.value.number != inv.number || DateStamp(inv.issueDate) != Ok(p.value.dateStamp) ==> !StructureOk(inv)
  {
    hide ParseIrn, DateStamp;
  }
}
