/** A history from the start in which a signed invoice is lost: a crash after the signature, a rival request for the
    same number that is refused, and the recovery sweep, which then fails the first invoice
    (services/einvoicing/nrs_lifecycle.go:38-106, nrs_resume.go:108-126). */
module LostInvoice {
  import opened IrnFormat
  import opened InvoiceStore
  import opened NrsLifecycle
  import opened IrnUniqueness
  import opened LifecycleRuns

  /** Closed under events. */
  ghost predicate Closed(reach: (seq<Event>, Machine) -> bool) {
    forall evs, m, ev {:trigger reach(evs, m), Next(m, ev)} :: reach(evs, m) ==> reach(evs + [ev], Next(m, ev))
  }

  /** Numbered and dated, with neither IRN nor idempotency key given. */
  predicate Plain(inv: Invoice) {
    && inv.status == "received" && inv.createdAt == 0 && inv.nrs && inv.irn == "" && inv.idemKey == ""
    && TrimSpace(inv.number) == inv.number
  }

  /** The IRN that this environment gives the invoice. */
  predicate Gives(inv: Invoice, env: Env, irn: string) {
    BuildIrn(inv.number, env.serviceId, inv.issueDate) == Ok(irn)
  }

  lemma GivenIrn(inv: Invoice, env: Env, irn: string)
    requires TrimSpace(inv.number) == inv.number && Gives(inv, env, irn)
    ensures irn != "" && StructureOk(inv.(irn := irn))
  {
    ParseBuild(inv.number, env.serviceId, inv.issueDate);
    ParsedIrnNonempty(inv.(irn := irn));
  }

  // ----- Steps of a good run -----

  lemma Creates(reach: (seq<Event>, Machine) -> bool, m: Machine, a: Invoice, env: Env)
    requires Closed(reach) && reach([], m) && m == START && Plain(a) && Good(env)
    ensures reach([Create(a, true, env.at, false)],
                  Append(m, Stamped(a, env.at), Running(Stamped(a, env.at), Generate)))
  {
    var ev := Create(a, true, env.at, false);
    assert Next(m, ev) == Append(m, Stamped(a, env.at), Running(Stamped(a, env.at), Generate));
    assert [] + [ev] == [ev];
  }

  lemma Generates(reach: (seq<Event>, Machine) -> bool, evs: seq<Event>, m: Machine, inv: Invoice, env: Env,
                  irn: string)
    requires Closed(reach) && reach(evs, m) && m.phase == Running(inv, Generate) && inv.irn == "" && Good(env)
    requires Gives(inv, env, irn)
    ensures reach(evs + [Work(env)], m.(phase := Running(inv.(irn := irn), Validate)))
  {
    assert Next(m, Work(env)) == m.(phase := Running(inv.(irn := irn), Validate));
  }

  lemma Validates(reach: (seq<Event>, Machine) -> bool, evs: seq<Event>, m: Machine, inv: Invoice, env: Env)
    requires Closed(reach) && reach(evs, m) && m.phase == Running(inv, Validate) && Good(env)
    requires StructureOk(inv) && inv.irn !in m.ix.byIrn
    ensures reach(evs + [Work(env)], m.(phase := Running(inv, SignIrn)))
  {
    ValidateStep(m, inv, env);
  }

  lemma Passes(reach: (seq<Event>, Machine) -> bool, evs: seq<Event>, m: Machine, inv: Invoice, env: Env)
    requires Closed(reach) && reach(evs, m) && m.phase == Running(inv, SignIrn) && Good(env)
    ensures reach(evs + [Work(env)] + [Work(env)], m.(phase := Running(inv, SignInvoice)))
  {
    var m' := m.(phase := Running(inv, Schema));
    assert Next(m, Work(env)) == m';
    assert Next(m', Work(env)) == m.(phase := Running(inv, SignInvoice));
  }

  function Signed(inv: Invoice, env: Env): Invoice {
    Stamped(inv.(signedCore := inv.core, status := "signed"), env.at)
  }

  lemma Signs(reach: (seq<Event>, Machine) -> bool, evs: seq<Event>, m: Machine, inv: Invoice, env: Env)
    requires Closed(reach) && reach(evs, m) && m.phase == Running(inv, SignInvoice) && inv.idemKey == "" && Good(env)
    ensures reach(evs + [Work(env)], Append(m, Signed(inv, env), Running(Signed(inv, env), Transmit)))
  {
    assert Next(m, Work(env)) == Append(m, Signed(inv, env), Running(Signed(inv, env), Transmit));
  }

  lemma Crashes(reach: (seq<Event>, Machine) -> bool, evs: seq<Event>, m: Machine)
    requires Closed(reach) && reach(evs, m)
    ensures reach(evs + [Crash], Machine(m.log, Load(m.log), Idle, []))
  {
    assert Next(m, Crash) == Machine(m.log, Load(m.log), Idle, []);
  }

  // ----- The first invoice -----

  /** The store after the crash: one signed invoice that holds its number. */
  predicate HoldsNumber(m: Machine, a: Invoice, irn: string) {
    && m.phase == Idle && m.queue == [] && m.ix.order == [a.id] && m.ix.byIrn == map[irn := a.id]
    && m.ix.byId.Keys == {a.id}
    && var v := m.ix.byId[a.id];
      && v.status == "signed" && v.id == a.id && v.irn == irn && v.idemKey == "" && v.nrs
      && v.number == a.number && v.issueDate == a.issueDate
  }

  lemma TwoVersions(stored: Invoice, signed: Invoice, a: Invoice, irn: string)
    requires stored.id == a.id && stored.irn == "" && stored.idemKey == "" && irn != ""
    requires signed.id == a.id && signed.irn == irn && signed.idemKey == "" && signed.nrs && signed.status == "signed"
    requires signed.number == a.number && signed.issueDate == a.issueDate
    ensures HoldsNumber(Machine([stored, signed], Load([stored, signed]), Idle, []), a, irn)
  {
    LoadAppend([], stored);
    LoadAppend([stored], signed);
    assert [] + [stored] == [stored] && [stored] + [signed] == [stored, signed];
  }

  lemma FirstNamed(reach: (seq<Event>, Machine) -> bool, m: Machine, a: Invoice, env: Env, irn: string)
    requires Closed(reach) && reach([], m) && m == START && Plain(a) && Good(env) && Gives(a, env, irn)
    ensures reach([Create(a, true, env.at, false), Work(env)],
                  Append(m, Stamped(a, env.at), Running(Stamped(a, env.at).(irn := irn), Validate)))
  {
    var stored, evs := Stamped(a, env.at), [Create(a, true, env.at, false)];
    Creates(reach, m, a, env);
    Generates(reach, evs, Append(m, stored, Running(stored, Generate)), stored, env, irn);
    assert evs + [Work(env)] == [Create(a, true, env.at, false), Work(env)];
  }

  /** The events up to the signature, up to the crash, the rival's, and the sweep's. */
  function Signing(a: Invoice, env: Env): seq<Event> {
    [Create(a, true, env.at, false), Work(env), Work(env), Work(env), Work(env), Work(env)]
  }

  function Rival(b: Invoice, env: Env): seq<Event> {
    [Create(b, true, env.at, false), Work(env), Work(env)]
  }

  function Sweep(env: Env): seq<Event> {
    [BeginSweep, SweepNext, Work(env), Work(env)]
  }

  lemma SigningSteps(a: Invoice, env: Env)
    ensures [Create(a, true, env.at, false), Work(env)] + [Work(env)] + [Work(env)] + [Work(env)] + [Work(env)]
         == Signing(a, env)
  {
  }

  lemma FirstFits(a: Invoice, env: Env, irn: string)
    requires Plain(a) && Gives(a, env, irn)
    ensures StructureOk(Stamped(a, env.at).(irn := irn))
  {
    hide StructureOk, BuildIrn;
    GivenIrn(Stamped(a, env.at), env, irn);
  }

  lemma FirstUnclaimed(m: Machine, a: Invoice, at: nat, irn: string)
    requires m == START && Plain(a)
    ensures Stamped(a, at).idemKey == "" && irn !in IndexOne(m.ix, Stamped(a, at)).byIrn
  {
    hide TrimSpace;
  }

  lemma FirstSigned(reach: (seq<Event>, Machine) -> bool, m: Machine, a: Invoice, env: Env, irn: string)
    returns (m': Machine)
    requires Closed(reach) && reach([], m) && m == START && Plain(a) && Good(env) && Gives(a, env, irn)
    ensures reach(Signing(a, env), m') && m'.phase.Running? && |m'.log| == 2
    ensures m'.log[0] == Stamped(a, env.at) && m'.log[1] == Signed(Stamped(a, env.at).(irn := irn), env)
  {
    hide StructureOk, Gives, Closed, Plain, Signed, Stamped, Signing;
    var stored, work := Stamped(a, env.at), Work(env);
    var named, m1 := stored.(irn := irn), Append(m, stored, Running(stored.(irn := irn), Validate));
    SigningSteps(a, env);
    FirstFits(a, env, irn);
    FirstUnclaimed(m, a, env.at, irn);
    FirstNamed(reach, m, a, env, irn);
    var evs := [Create(a, true, env.at, false), work];
    Validates(reach, evs, m1, named, env);
    Passes(reach, evs + [work], m1.(phase := Running(named, SignIrn)), named, env);
    Signs(reach, evs + [work] + [work] + [work], m1.(phase := Running(named, SignInvoice)), named, env);
    m' := Append(m1.(phase := Running(named, SignInvoice)), Signed(named, env), Running(Signed(named, env), Transmit));
  }

  lemma CrashHolds(log: seq<Invoice>, a: Invoice, env: Env, irn: string)
    requires |log| == 2 && Plain(a) && irn != ""
    requires log[0] == Stamped(a, env.at) && log[1] == Signed(Stamped(a, env.at).(irn := irn), env)
    ensures HoldsNumber(Machine(log, Load(log), Idle, []), a, irn)
  {
    assert log == [log[0], log[1]];
    TwoVersions(log[0], log[1], a, irn);
  }

  lemma FirstCrashed(reach: (seq<Event>, Machine) -> bool, a: Invoice, env: Env, irn: string) returns (m: Machine)
    requires Closed(reach) && reach([], START) && Plain(a) && Good(env) && Gives(a, env, irn)
    ensures reach(Signing(a, env) + [Crash], m) && HoldsNumber(m, a, irn)
  {
    var running := FirstSigned(reach, START, a, env, irn);
    Crashes(reach, Signing(a, env), running);
    m := Machine(running.log, Load(running.log), Idle, []);
    GivenIrn(a, env, irn);
    CrashHolds(running.log, a, env, irn);
  }

  // ----- The rival and the sweep -----

  /** The rival was refused and has taken over the number. */
  predicate TakenOver(m: Machine, a: string, b: string, irn: string) {
    && m.phase == Idle && m.queue == [] && m.ix.order == [a, b] && irn in m.ix.byIrn && m.ix.byIrn[irn] == b
    && b in m.ix.byId && m.ix.byId[b].status == "failed" && a in m.ix.byId
  }

  lemma RivalRefused(reach: (seq<Event>, Machine) -> bool, evs: seq<Event>, m: Machine,
                     a: Invoice, b: Invoice, env: Env, irn: string) returns (m': Machine)
    requires Closed(reach) && reach(evs, m) && HoldsNumber(m, a, irn) && Plain(b) && b.id != a.id && Good(env)
    requires Gives(b, env, irn)
    ensures reach(evs + Rival(b, env), m') && TakenOver(m', a.id, b.id, irn) && m'.ix.byId[a.id] == m.ix.byId[a.id]
  {
    m' := RivalTakesIndex(m, b, irn, env);
    var first := Create(b, true, env.at, false);
    var m1 := Next(m, first);
    var m2 := Next(m1, Work(env));
    assert reach(evs + [first], m1) && reach(evs + [first] + [Work(env)], m2);
    assert evs + [first] + [Work(env)] + [Work(env)] == evs + Rival(b, env);
  }

  lemma ListsFirst(m: Machine, a: string, b: string)
    requires m.ix.order == [a, b] && a in m.ix.byId && Interim(m.ix.byId[a])
    requires b in m.ix.byId && m.ix.byId[b].status == "failed"
    ensures InterimIds(m.ix.order, m.ix.byId) == [a]
  {
    assert [a, b][..1] == [a] && [a][..0] == [] && [] + [a] == [a];
    assert InterimIds([a], m.ix.byId) == [a];
  }

  lemma SweepStarts(reach: (seq<Event>, Machine) -> bool, evs: seq<Event>, m: Machine, a: string, b: string)
    requires Closed(reach) && reach(evs, m) && m.phase == Idle && m.queue == [] && m.ix.order == [a, b]
    requires a in m.ix.byId && Interim(m.ix.byId[a]) && b in m.ix.byId && m.ix.byId[b].status == "failed"
    ensures reach(evs + [BeginSweep] + [SweepNext], Start(m, a))
  {
    ListsFirst(m, a, b);
    var listed := m.(queue := [a]);
    assert Next(m, BeginSweep) == listed;
    assert Next(listed, SweepNext) == Start(m, a);
  }

  lemma SweepFails(reach: (seq<Event>, Machine) -> bool, evs: seq<Event>, m: Machine, a: string, env: Env)
    returns (m': Machine)
    requires Closed(reach) && m.phase == Idle && a in m.ix.byId && m.ix.byId[a].id == a && reach(evs, Start(m, a))
    requires Good(env) && m.ix.byId[a].idemKey == "" && StructureOk(m.ix.byId[a])
    requires m.ix.byId[a].irn in m.ix.byIrn && m.ix.byIrn[m.ix.byId[a].irn] != a
    ensures reach(evs + [Work(env)] + [Work(env)], m') && a in m'.ix.byId && m'.ix.byId[a].status == "failed"
  {
    m' := InterruptedLostToRival(m, m.ix.byId[a], env);
    var m1 := Next(Start(m, a), Work(env));
    assert reach(evs + [Work(env)], m1);
    assert m' == Next(m1, Work(env));
  }

  /** The sweep after the refusal. */
  lemma Sweeps(reach: (seq<Event>, Machine) -> bool, evs: seq<Event>, m: Machine, a: string, b: string, irn: string,
               env: Env) returns (m': Machine)
    requires Closed(reach) && reach(evs, m) && TakenOver(m, a, b, irn) && a != b && Good(env)
    requires m.ix.byId[a].id == a && Interim(m.ix.byId[a]) && m.ix.byId[a].idemKey == ""
    requires StructureOk(m.ix.byId[a]) && m.ix.byId[a].irn == irn
    ensures reach(evs + Sweep(env), m') && a in m'.ix.byId && m'.ix.byId[a].status == "failed"
  {
    hide StructureOk;
    SweepStarts(reach, evs, m, a, b);
    m' := SweepFails(reach, evs + [BeginSweep] + [SweepNext], m, a, env);
    assert evs + [BeginSweep] + [SweepNext] + [Work(env)] + [Work(env)] == evs + Sweep(env);
  }

  lemma HeldStructure(v: Invoice, a: Invoice, env: Env, irn: string)
    requires Plain(a) && Gives(a, env, irn) && v.irn == irn && v.number == a.number && v.issueDate == a.issueDate
    ensures StructureOk(v)
  {
    GivenIrn(a, env, irn);
  }

  /** The events of the whole story. */
  function Story(a: Invoice, b: Invoice, env: Env): seq<Event> {
    Signing(a, env) + [Crash] + Rival(b, env) + Sweep(env)
  }

  lemma Loses(reach: (seq<Event>, Machine) -> bool, a: Invoice, b: Invoice, env: Env, irn: string)
    returns (held: Machine, taken: Machine, lost: Machine)
    requires Closed(reach) && reach([], START) && Plain(a) && Plain(b) && a.id != b.id && Good(env)
    requires Gives(a, env, irn) && Gives(b, env, irn)
    ensures reach(Signing(a, env) + [Crash], held) && HoldsNumber(held, a, irn)
    ensures reach(Signing(a, env) + [Crash] + Rival(b, env), taken) && TakenOver(taken, a.id, b.id, irn)
    ensures taken.ix.byId[a.id] == held.ix.byId[a.id]
    ensures reach(Story(a, b, env), lost) && a.id in lost.ix.byId && lost.ix.byId[a.id].status == "failed"
  {
    hide Plain, Gives, Good, Closed, StructureOk, Signing, Rival, Sweep;
    held := FirstCrashed(reach, a, env, irn);
    HeldStructure(held.ix.byId[a.id], a, env, irn);
    taken := RivalRefused(reach, Signing(a, env) + [Crash], held, a, b, env, irn);
    lost := Sweeps(reach, Signing(a, env) + [Crash] + Rival(b, env), taken, a.id, b.id, irn, env);
  }

  lemma RunsClosed(reach: (seq<Event>, Machine) -> bool)
    requires forall evs, m :: reach(evs, m) <==> m == Run(evs)
    ensures Closed(reach) && reach([], START)
  {
    hide Next;
    forall evs, m, ev | reach(evs, m)
      ensures reach(evs + [ev], Next(m, ev))
    {
      assert (evs + [ev])[..|evs|] == evs;
    }
  }

  /** From the start: the first invoice is signed under its number and the process crashes. A second request for the
      number is refused and takes over the number index. The recovery sweep then marks the signed invoice failed. */
  lemma SignedInvoiceIsLost(a: Invoice, b: Invoice, env: Env, irn: string)
    requires Plain(a) && Plain(b) && a.id != b.id && Good(env) && Gives(a, env, irn) && Gives(b, env, irn)
    ensures var held := Run(Signing(a, env) + [Crash]).ix;
      a.id in held.byId && held.byId[a.id].status == "signed" && held.byId[a.id].irn == irn
    ensures var taken := Run(Signing(a, env) + [Crash] + Rival(b, env)).ix;
      && irn in taken.byIrn && taken.byIrn[irn] == b.id && b.id in taken.byId && taken.byId[b.id].status == "failed"
      && a.id in taken.byId && taken.byId[a.id].status == "signed"
    ensures var lost := Run(Signing(a, env) + [Crash] + Rival(b, env) + Sweep(env)).ix;
      a.id in lost.byId && lost.byId[a.id].status == "failed"
  {
    hide Plain, Gives, Good, Signing, Rival, Sweep, Run;
    var reach: (seq<Event>, Machine) -> bool := (evs, m) => m == Run(evs);
    RunsClosed(reach);
    var held, taken, lost := Loses(reach, a, b, env, irn);
  }
}
