/** No double issuance: over every history of the NRS lifecycle, at most one invoice ever carries a given IRN
    past the draft stage, so at most one is ever signed with it. */
module IrnUniqueness {
  import opened IrnFormat
  import opened InvoiceStore
  import opened NrsLifecycle

  /** A version that holds its IRN: anything but a failure record. */
  predicate Claims(r: Invoice, irn: string) {
    r.irn == irn && r.status != "failed"
  }

  /** Nobody but `id` has ever held `irn`. */
  ghost predicate NoRival(log: seq<Invoice>, irn: string, id: string) {
    forall r :: r in log && Claims(r, irn) ==> r.id == id
  }

  // ----- What the index says about the file -----

  ghost predicate FaithfulIds(log: seq<Invoice>, byId: map<string, Invoice>) {
    && (forall id :: id in byId ==> byId[id] in log && byId[id].id == id)
    && (forall r :: r in log ==> r.id in byId)
  }

  ghost predicate FaithfulIrns(log: seq<Invoice>, byIrn: map<string, string>) {
    && (forall r :: r in log && r.irn != "" ==> r.irn in byIrn)
    && (forall irn :: irn in byIrn ==> irn != "" && exists r :: r in log && r.irn == irn && r.id == byIrn[irn])
  }

  ghost predicate FaithfulOrder(order: seq<string>, byId: map<string, Invoice>) {
    && (forall id :: id in order ==> id in byId)
    && (forall i, j :: 0 <= i < j < |order| ==> order[i] != order[j])
  }

  ghost predicate Faithful(log: seq<Invoice>, ix: Index) {
    FaithfulIds(log, ix.byId) && FaithfulIrns(log, ix.byIrn) && FaithfulOrder(ix.order, ix.byId)
  }

  lemma AppendIds(log: seq<Invoice>, byId: map<string, Invoice>, inv: Invoice)
    requires FaithfulIds(log, byId)
    ensures FaithfulIds(log + [inv], byId[inv.id := inv])
  {
    assert forall r :: r in log + [inv] <==> r in log || r == inv;
  }

  lemma AppendIrns(log: seq<Invoice>, byIrn: map<string, string>, inv: Invoice)
    requires FaithfulIrns(log, byIrn)
    ensures FaithfulIrns(log + [inv], if inv.irn != "" then byIrn[inv.irn := inv.id] else byIrn)
  {
    var log', byIrn' := log + [inv], if inv.irn != "" then byIrn[inv.irn := inv.id] else byIrn;
    assert forall r :: r in log' <==> r in log || r == inv;
    forall irn | irn in byIrn'
      ensures irn != "" && exists r :: r in log' && r.irn == irn && r.id == byIrn'[irn]
    {
      if irn == inv.irn {
        assert inv in log';
      } else {
        var r :| r in log && r.irn == irn && r.id == byIrn[irn];
        assert r in log';
      }
    }
  }

  lemma AppendFaithful(log: seq<Invoice>, ix: Index, inv: Invoice)
    requires Faithful(log, ix)
    ensures Faithful(log + [inv], IndexOne(ix, inv))
  {
    AppendIds(log, ix.byId, inv);
    AppendIrns(log, ix.byIrn, inv);
    assert FaithfulOrder(IndexOne(ix, inv).order, IndexOne(ix, inv).byId);
  }

  lemma {:induction false} LoadFaithful(log: seq<Invoice>)
    ensures Faithful(log, Load(log))
  {
    if log != [] {
      var front, last := log[..|log| - 1], log[|log| - 1];
      assert log == front + [last];
      LoadFaithful(front);
      AppendFaithful(front, Load(front), last);
    }
  }

  /** A restart gives back the live index, up to purged idempotency keys. */
  ghost predicate SameRecords(a: Index, b: Index) {
    a.byId == b.byId && a.byIrn == b.byIrn && a.order == b.order
  }

  // ----- Invariant -----

  ghost predicate OneClaimant(log: seq<Invoice>) {
    forall r, r' :: r in log && r' in log && r.irn != "" && Claims(r, r.irn) && Claims(r', r.irn) ==> r.id == r'.id
  }

  /** Once an invoice has an IRN, its current version has the same one. */
  ghost predicate IrnFixed(log: seq<Invoice>, byId: map<string, Invoice>) {
    forall r :: r in log && r.irn != "" && r.id in byId ==> byId[r.id].irn == r.irn
  }

  ghost predicate SignedHasIrn(log: seq<Invoice>) {
    forall r :: r in log && r.status == "signed" ==> r.irn != ""
  }

  /** What a run knows of its own copy at each step. */
  ghost predicate PhaseOk(m: Machine) {
    m.phase.Running? ==>
      var inv := m.phase.inv;
      && inv.id in m.ix.byId && inv.id !in m.queue
      && (m.ix.byId[inv.id].irn != "" ==> inv.irn == m.ix.byId[inv.id].irn)
      && (m.phase.step == Generate ==> inv.irn == m.ix.byId[inv.id].irn)
      && (m.phase.step in {Generate, Validate} ==> m.ix.byId[inv.id].status != "failed")
      && (m.phase.step !in {Generate, Validate} ==> inv.irn != "" && NoRival(m.log, inv.irn, inv.id))
  }

  ghost predicate QueueOk(m: Machine) {
    && (forall id :: id in m.queue ==> id in m.ix.byId && Interim(m.ix.byId[id]))
    && (forall i, j :: 0 <= i < j < |m.queue| ==> m.queue[i] != m.queue[j])
  }

  ghost predicate RecordsOk(log: seq<Invoice>, ix: Index) {
    && SameRecords(ix, Load(log))
    && OneClaimant(log)
    && IrnFixed(log, ix.byId)
    && SignedHasIrn(log)
  }

  ghost predicate Inv(m: Machine) {
    RecordsOk(m.log, m.ix) && PhaseOk(m) && QueueOk(m)
  }

  /** When a version may be written: it does not steal an IRN, and does not change or drop one. */
  ghost predicate MayWrite(m: Machine, inv: Invoice) {
    && (inv.irn != "" && inv.status != "failed" ==> NoRival(m.log, inv.irn, inv.id))
    && (inv.id in m.ix.byId && m.ix.byId[inv.id].irn != "" ==> inv.irn == m.ix.byId[inv.id].irn)
    && (inv.status == "signed" ==> inv.irn != "")
  }

  lemma WriteKeepsRecords(m: Machine, inv: Invoice)
    requires RecordsOk(m.log, m.ix) && MayWrite(m, inv)
    ensures RecordsOk(m.log + [inv], IndexOne(m.ix, inv))
  {
    LoadAppend(m.log, inv);
    WriteKeepsOneClaimant(m.log, inv);
    WriteKeepsIrnFixed(m.log, m.ix, inv);
    WriteKeepsSignedHasIrn(m.log, inv);
  }

  lemma WriteKeepsOneClaimant(log: seq<Invoice>, inv: Invoice)
    requires OneClaimant(log) && (inv.irn != "" && inv.status != "failed" ==> NoRival(log, inv.irn, inv.id))
    ensures OneClaimant(log + [inv])
  {
    assert forall r :: r in log + [inv] <==> r in log || r == inv;
  }

  lemma WriteKeepsIrnFixed(log: seq<Invoice>, ix: Index, inv: Invoice)
    requires SameRecords(ix, Load(log)) && IrnFixed(log, ix.byId)
    requires inv.id in ix.byId && ix.byId[inv.id].irn != "" ==> inv.irn == ix.byId[inv.id].irn
    ensures IrnFixed(log + [inv], IndexOne(ix, inv).byId)
  {
    LoadFaithful(log);
    var byId := ix.byId[inv.id := inv];
    forall r | r in log + [inv] && r.irn != "" && r.id in byId
      ensures byId[r.id].irn == r.irn
    {
      if r in log {
        assert r.id in ix.byId && ix.byId[r.id].irn == r.irn;
      } else {
        assert r == inv;
      }
    }
  }

  lemma WriteKeepsSignedHasIrn(log: seq<Invoice>, inv: Invoice)
    requires SignedHasIrn(log) && (inv.status == "signed" ==> inv.irn != "")
    ensures SignedHasIrn(log + [inv])
  {
    assert forall r :: r in log + [inv] <==> r in log || r == inv;
  }

  /** Writing another version of an invoice keeps its rivals out. */
  lemma WriteKeepsNoRival(log: seq<Invoice>, inv: Invoice, irn: string)
    requires NoRival(log, irn, inv.id)
    ensures NoRival(log + [inv], irn, inv.id)
  {
    assert forall r :: r in log + [inv] <==> r in log || r == inv;
  }

  lemma WriteKeepsQueue(m: Machine, inv: Invoice)
    requires QueueOk(m) && inv.id !in m.queue
    ensures QueueOk(m.(ix := IndexOne(m.ix, inv)))
  {
  }

  // ----- Each transition keeps the invariant -----

  lemma StartKeeps(m: Machine, id: string)
    requires RecordsOk(m.log, m.ix) && QueueOk(m) && id in m.ix.byId && id !in m.queue && Interim(m.ix.byId[id])
    ensures Inv(Start(m, id))
  {
    LoadFaithful(m.log);
  }

  lemma FailKeeps(m: Machine, inv: Invoice, env: Env)
    requires RecordsOk(m.log, m.ix) && QueueOk(m) && inv.id !in m.queue
    requires inv.id in m.ix.byId && (m.ix.byId[inv.id].irn != "" ==> inv.irn == m.ix.byId[inv.id].irn)
    ensures Inv(Fail(m, inv, env))
  {
    var failed := Stamped(inv.(status := "failed"), env.at);
    WriteKeepsRecords(m, failed);
    WriteKeepsQueue(m, failed);
  }

  lemma AppendKeeps(m: Machine, inv: Invoice, phase: Phase)
    requires RecordsOk(m.log, m.ix) && QueueOk(m) && inv.id !in m.queue
    requires MayWrite(m, inv)
    requires phase.Idle?
      || (phase.inv == inv && phase.step !in {Generate, Validate} && inv.irn != "" && NoRival(m.log, inv.irn, inv.id))
    ensures Inv(Append(m, inv, phase))
  {
    WriteKeepsRecords(m, inv);
    WriteKeepsQueue(m, inv);
    if phase.Running? {
      WriteKeepsNoRival(m.log, inv, inv.irn);
    }
  }

  lemma SaveAndKeeps(m: Machine, inv: Invoice, next: Step, env: Env)
    requires RecordsOk(m.log, m.ix) && QueueOk(m) && inv.id !in m.queue && inv.id in m.ix.byId
    requires m.ix.byId[inv.id].irn != "" ==> inv.irn == m.ix.byId[inv.id].irn
    requires inv.irn != "" && NoRival(m.log, inv.irn, inv.id) && next !in {Generate, Validate}
    ensures Inv(SaveAnd(m, inv, next, env))
  {
    var r := SaveCheck(m.ix, inv, env.at);
    if env.fault || !r.Saved? {
      FailKeeps(m, inv, env);
    } else {
      AppendKeeps(m, r.inv, Running(r.inv, next));
    }
  }

  /** Step 3 clears the way: an unused IRN has no holder, and one used by this mid-flow invoice is its own. */
  lemma ValidateClears(m: Machine)
    requires Inv(m) && m.phase.Running? && m.phase.step == Validate
    requires m.phase.inv.irn != ""
    requires m.phase.inv.irn in m.ix.byIrn ==> m.ix.byIrn[m.phase.inv.irn] == m.phase.inv.id
    ensures NoRival(m.log, m.phase.inv.irn, m.phase.inv.id)
  {
    LoadFaithful(m.log);
    var inv := m.phase.inv;
    if inv.irn in m.ix.byIrn {
      var r :| r in m.log && r.irn == inv.irn && r.id == m.ix.byIrn[inv.irn];
      var current := m.ix.byId[inv.id];
      assert current in m.log && current.irn == inv.irn && Claims(current, inv.irn);
    }
  }

  lemma ParsedIrnNonempty(inv: Invoice)
    requires StructureOk(inv)
    ensures inv.irn != ""
  {
  }

  lemma GenerateKeeps(m: Machine, env: Env)
    requires Inv(m) && m.phase.Running? && m.phase.step == Generate
    ensures Inv(DoGenerate(m, m.phase.inv, env))
  {
    FailKeeps(m, m.phase.inv, env);
  }

  lemma ValidateKeeps(m: Machine, env: Env)
    requires Inv(m) && m.phase.Running? && m.phase.step == Validate
    ensures Inv(DoValidate(m, m.phase.inv, env))
  {
    var inv := m.phase.inv;
    FailKeeps(m, inv, env);
    if StructureOk(inv) && (inv.irn in m.ix.byIrn ==> m.ix.byIrn[inv.irn] == inv.id) {
      ParsedIrnNonempty(inv);
      ValidateClears(m);
    }
  }

  lemma WorkKeeps(m: Machine, env: Env)
    requires Inv(m) && m.phase.Running?
    ensures Inv(DoWork(m, env))
  {
    var inv := m.phase.inv;
    match m.phase.step
    case Generate => GenerateKeeps(m, env);
    case Validate => ValidateKeeps(m, env);
    case SignIrn => FailKeeps(m, inv, env);
    case Schema => FailKeeps(m, inv, env);
    case SignInvoice => SaveAndKeeps(m, inv.(signedCore := inv.core, status := "signed"), Transmit, env);
    case Transmit =>
      FailKeeps(m, inv, env);
      SaveAndKeeps(m, inv.(status := "transmitted"), Confirm, env);
    case Confirm => ConfirmKeeps(m, env);
  }

  lemma ConfirmKeeps(m: Machine, env: Env)
    requires Inv(m) && m.phase.Running? && m.phase.step == Confirm
    ensures Inv(DoConfirm(m, m.phase.inv, env))
  {
    var inv := m.phase.inv;
    var confirmed := inv.(status := "confirmed");
    var r := SaveCheck(m.ix, confirmed, env.at);
    if inv.id !in m.ix.byId || m.ix.byId[inv.id].irn != inv.irn || m.ix.byId[inv.id].core != inv.signedCore {
      FailKeeps(m, inv, env);
    } else if env.fault || !r.Saved? {
      FailKeeps(m, confirmed, env);
    } else {
      AppendKeeps(m, r.inv, Running(r.inv, Confirm));
      ConfirmedKeeps(Append(m, r.inv, Running(r.inv, Confirm)), env);
    }
  }

  lemma ConfirmedKeeps(m: Machine, env: Env)
    requires Inv(m) && m.phase.Running? && m.phase.step == Confirm
    ensures Inv(m.(phase := Idle)) && Inv(Fail(m, m.phase.inv, env))
  {
    FailKeeps(m, m.phase.inv, env);
  }

  lemma NewDraftKeeps(m: Machine, inv: Invoice)
    requires Inv(m) && Quiet(m) && inv.id !in m.ix.byId && inv.status == "received"
    requires inv.irn == "" || inv.irn !in m.ix.byIrn
    ensures Inv(Append(m, inv, Running(inv, Generate)))
  {
    LoadFaithful(m.log);
    assert NoRival(m.log, inv.irn, inv.id) || inv.irn == "";
    WriteKeepsRecords(m, inv);
  }

  lemma CreateKeeps(m: Machine, draft: Invoice, allowed: bool, at: nat, fault: bool)
    requires Inv(m) && Quiet(m) && IsDraft(m, draft)
    ensures Inv(DoCreate(m, draft, allowed, at, fault))
  {
    if draft.irn != "" && draft.irn in m.ix.byIrn {
      var id := m.ix.byIrn[draft.irn];
      if id in m.ix.byId && Interim(m.ix.byId[id]) {
        StartKeeps(m, id);
      }
    } else {
      match SaveCheck(m.ix, draft, at)
      case Replayed(prior) =>
        if prior in m.ix.byId && Interim(m.ix.byId[prior]) {
          StartKeeps(m, prior);
        }
      case Saved(inv) => NewDraftKeeps(m, inv);
      case PayloadConflict(_) =>
      case Faulted =>
    }
  }

  /** A version that keeps id, IRN and status of the current one may be written. */
  lemma SameIdentityMayWrite(m: Machine, inv: Invoice)
    requires RecordsOk(m.log, m.ix) && inv.id in m.ix.byId
    requires inv.irn == m.ix.byId[inv.id].irn && inv.status == m.ix.byId[inv.id].status
    ensures MayWrite(m, inv)
  {
    LoadFaithful(m.log);
    var current := m.ix.byId[inv.id];
    assert current in m.log;
    if inv.irn != "" && inv.status != "failed" {
      assert Claims(current, current.irn);
    }
  }

  lemma PatchKeeps(m: Machine, irn: string, payment: string, reference: string, at: nat, fault: bool)
    requires Inv(m) && Quiet(m)
    ensures Inv(DoPatch(m, irn, payment, reference, at, fault))
  {
    if irn in m.ix.byIrn && m.ix.byIrn[irn] in m.ix.byId {
      var inv := m.ix.byId[m.ix.byIrn[irn]];
      assert inv.id == m.ix.byIrn[irn] by { LoadFaithful(m.log); }
      var changed := inv.(payment := if payment == "" then inv.payment else payment,
                          reference := if reference == "" then inv.reference else reference);
      var r := SaveCheck(m.ix, changed, at);
      if !fault && r.Saved? {
        SameIdentityMayWrite(m, r.inv);
        WriteKeepsRecords(m, r.inv);
      }
    }
  }

  lemma {:induction false} InterimIdsOk(order: seq<string>, byId: map<string, Invoice>)
    requires forall i, j :: 0 <= i < j < |order| ==> order[i] != order[j]
    ensures var q := InterimIds(order, byId);
      && (forall id :: id in q ==> id in order && id in byId && Interim(byId[id]))
      && (forall i, j :: 0 <= i < j < |q| ==> q[i] != q[j])
  {
    if order != [] {
      InterimIdsOk(order[..|order| - 1], byId);
    }
  }

  lemma ListKeeps(m: Machine)
    requires Inv(m)
    ensures Inv(Next(m, BeginSweep))
  {
    assert forall i, j :: 0 <= i < j < |m.ix.order| ==> m.ix.order[i] != m.ix.order[j] by {
      LoadFaithful(m.log);
    }
    InterimIdsOk(m.ix.order, m.ix.byId);
  }

  lemma SweepKeeps(m: Machine)
    requires Inv(m)
    ensures Inv(Next(m, SweepNext))
  {
    if m.phase.Idle? && m.queue != [] && m.queue[0] in m.ix.byId {
      StartKeeps(m.(queue := m.queue[1..]), m.queue[0]);
    }
  }

  lemma RestartKeeps(m: Machine)
    requires Inv(m)
    ensures Inv(Next(m, Crash))
  {
  }

  lemma PurgeKeeps(m: Machine, at: nat)
    requires Inv(m)
    ensures Inv(Next(m, PurgeKeys(at)))
  {
  }

  lemma RequestKeeps(m: Machine, ev: Event)
    requires Inv(m) && (ev.Create? || ev.Patch?)
    ensures Inv(Next(m, ev))
  {
    match ev
    case Create(draft, allowed, at, fault) =>
      if Quiet(m) && IsDraft(m, draft) {
        CreateKeeps(m, draft, allowed, at, fault);
      }
    case Patch(irn, payment, reference, allowed, at, fault) =>
      if Quiet(m) {
        PatchKeeps(m, irn, payment, reference, at, fault);
      }
  }

  lemma NextKeepsInv(m: Machine, ev: Event)
    requires Inv(m)
    ensures Inv(Next(m, ev))
  {
    match ev
    case Create(_, _, _, _) => RequestKeeps(m, ev);
    case Patch(_, _, _, _, _, _) => RequestKeeps(m, ev);
    case BeginSweep => ListKeeps(m);
    case SweepNext => SweepKeeps(m);
    case Work(env) =>
      if m.phase.Running? {
        WorkKeeps(m, env);
      }
    case PurgeKeys(at) => PurgeKeeps(m, at);
    case Crash => RestartKeeps(m);
  }

  lemma {:induction false} RunKeepsInv(evs: seq<Event>)
    ensures Inv(Run(evs))
  {
    if evs != [] {
      RunKeepsInv(evs[..|evs| - 1]);
      NextKeepsInv(Run(evs[..|evs| - 1]), evs[|evs| - 1]);
    }
  }

  // ----- Results -----

  /** At most one invoice is ever signed with a given IRN, whatever requests, sweeps and crashes occur. */
  lemma NoDoubleIssuance(evs: seq<Event>, r: Invoice, r': Invoice)
    requires r in Run(evs).log && r' in Run(evs).log
    requires r.status == "signed" && r'.status == "signed" && r.irn == r'.irn
    ensures r.id == r'.id
  {
    RunKeepsInv(evs);
  }

  /** An invoice that has an IRN never gets another. */
  lemma IrnNeverChanges(evs: seq<Event>, r: Invoice, r': Invoice)
    requires r in Run(evs).log && r' in Run(evs).log && r.id == r'.id && r.irn != "" && r'.irn != ""
    ensures r.irn == r'.irn
  {
    RunKeepsInv(evs);
    LoadFaithful(Run(evs).log);
  }

  // ----- A limit of crash recovery -----

  /** A rival request for a taken IRN fails at step 3, but its failure record re-points the IRN index at it. */
  lemma RivalTakesIndex(m: Machine, b: Invoice, irn: string, env: Env) returns (m': Machine)
    requires Quiet(m) && IsDraft(m, b) && b.irn == "" && b.idemKey == "" && env.at > 0
    requires env.ok && !env.failFault && BuildIrn(b.number, env.serviceId, b.issueDate) == Ok(irn)
    requires irn in m.ix.byIrn && m.ix.byIrn[irn] != b.id
    ensures m' == Next(Next(Next(m, Create(b, true, env.at, false)), Work(env)), Work(env))
    ensures Quiet(m') && irn in m'.ix.byIrn && m'.ix.byIrn[irn] == b.id
    ensures b.id in m'.ix.byId && m'.ix.byId[b.id].status == "failed" && m'.ix.order == m.ix.order + [b.id]
    ensures forall id :: id in m.ix.byId ==> id in m'.ix.byId && m'.ix.byId[id] == m.ix.byId[id]
  {
    var draft := Stamped(b, env.at);
    var m1 := Next(m, Create(b, true, env.at, false));
    assert m1 == Append(m, draft, Running(draft, Generate));
    assert irn != "" by { ParseBuild(b.number, env.serviceId, b.issueDate); }
    var m2 := Next(m1, Work(env));
    assert m2 == m1.(phase := Running(draft.(irn := irn), Validate));
    m' := Next(m2, Work(env));
    assert m' == Fail(m2, draft.(irn := irn), env);
  }

  /** Re-driving an interrupted invoice then fails too, even if it had been signed: the run passes step 3
      exactly when the index still points at it. No second IRN is issued, but the first is lost. */
  lemma InterruptedLostToRival(m: Machine, a: Invoice, env: Env) returns (m': Machine)
    requires m.phase.Idle? && a.id in m.ix.byId && m.ix.byId[a.id] == a && env.at > 0
    requires a.irn in m.ix.byIrn && StructureOk(a)
    ensures m' == Next(Next(Start(m, a.id), Work(env)), Work(env))
    ensures m'.phase.Running? <==> m.ix.byIrn[a.irn] == a.id
    ensures m.ix.byIrn[a.irn] != a.id && a.idemKey == "" && !env.failFault ==>
              a.id in m'.ix.byId && m'.ix.byId[a.id].status == "failed"
  {
    ParsedIrnNonempty(a);
    var m1 := m.(phase := Running(a, Validate));
    assert Next(Start(m, a.id), Work(env)) == m1;
    m' := Next(m1, Work(env));
    ValidateDecides(m1, a, env);
    FailRecords(m1, a, env);
  }

  lemma ValidateDecides(m: Machine, a: Invoice, env: Env)
    requires m.phase == Running(a, Validate) && env.at > 0 && a.irn in m.ix.byIrn && StructureOk(a)
    ensures Next(m, Work(env)) ==
            if m.ix.byIrn[a.irn] == a.id then m.(phase := Running(a, SignIrn)) else Fail(m, a, env)
  {
    ValidateStep(m, a, env);
  }

  lemma ValidateStep(m: Machine, a: Invoice, env: Env)
    requires m.phase == Running(a, Validate) && env.at > 0
    ensures Next(m, Work(env)) == DoValidate(m, a, env)
  {
    hide StructureOk;
  }

  lemma FailRecords(m: Machine, a: Invoice, env: Env)
    ensures Fail(m, a, env).phase == Idle
    ensures a.idemKey == "" && !env.failFault ==>
              a.id in Fail(m, a, env).ix.byId && Fail(m, a, env).ix.byId[a.id].status == "failed"
  {
  }
}
