/** The 8-step NRS e-invoice lifecycle with crash recovery (services/einvoicing/nrs_lifecycle.go,
    nrs_resume.go, nrs_handlers.go) as a step machine over the invoice store. Requests, sweeps and runs do not
    interleave; a crash may come between any two steps. */
module NrsLifecycle {
  import opened IrnFormat
  import opened InvoiceStore

  /** Where a run stands. Step 1 only re-reads the draft. */
  datatype Step = Generate | Validate | SignIrn | Schema | SignInvoice | Transmit | Confirm

  /** A run works on its own copy of the invoice and saves it back. */
  datatype Phase = Idle | Running(inv: Invoice, step: Step)

  /** `queue` holds the invoices a recovery sweep has listed and not yet driven. */
  datatype Machine = Machine(log: seq<Invoice>, ix: Index, phase: Phase, queue: seq<string>)

  /** Everything outside the machine's control in one activity: the service id, whether external calls
      succeed, whether a failure is final, the clock, and storage faults. */
  datatype Env = Env(serviceId: string, ok: bool, giveUp: bool, at: nat, fault: bool, failFault: bool)

  datatype Event =
    | Create(draft: Invoice, allowed: bool, at: nat, fault: bool)
    | Patch(irn: string, payment: string, reference: string, allowed: bool, at: nat, fault: bool)
    | BeginSweep
    | SweepNext
    | Work(env: Env)
    | PurgeKeys(at: nat)
    | Crash

  /** Mid-flow: durably stored, not finished. */
  predicate Interim(inv: Invoice) {
    inv.nrs && inv.status in {"received", "signed", "transmitted"}
  }

  /** A request becomes a fresh draft: new id, status received, not yet dated. */
  predicate IsDraft(m: Machine, inv: Invoice) {
    inv.id !in m.ix.byId && inv.status == "received" && inv.createdAt == 0 && inv.nrs && IsTrimmed(inv.irn)
  }

  // ----- Transitions -----

  function Start(m: Machine, id: string): Machine
    requires id in m.ix.byId
  {
    m.(phase := Running(m.ix.byId[id], Generate))
  }

  function Append(m: Machine, inv: Invoice, phase: Phase): Machine {
    m.(log := m.log + [inv], ix := IndexOne(m.ix, inv), phase := phase)
  }

  /** nrsFail: try to save the copy as failed; the run is over either way. */
  function Fail(m: Machine, inv: Invoice, env: Env): Machine {
    var r := SaveCheck(m.ix, inv.(status := "failed"), env.at);
    if env.failFault || !r.Saved? then m.(phase := Idle) else Append(m, r.inv, Idle)
  }

  /** Save the copy under a new status and go on, or fail. */
  function SaveAnd(m: Machine, inv: Invoice, next: Step, env: Env): Machine {
    var r := SaveCheck(m.ix, inv, env.at);
    if env.fault || !r.Saved? then Fail(m, inv, env) else Append(m, r.inv, Running(r.inv, next))
  }

  /** The structure test of step 3: the IRN parses and names this invoice's number and date. */
  predicate StructureOk(inv: Invoice) {
    var p := ParseIrn(inv.irn);
    && p.Ok?
    && p.value.number == inv.number
    && DateStamp(inv.issueDate) == Ok(p.value.dateStamp)
    && ValidServiceId(p.value.serviceId)
  }

  function DoGenerate(m: Machine, inv: Invoice, env: Env): Machine {
    if inv.irn != "" then m.(phase := Running(inv, Validate))
    else
      var irn := BuildIrn(inv.number, env.serviceId, inv.issueDate);
      if !env.ok || irn.Err? then Fail(m, inv, env)
      else m.(phase := Running(inv.(irn := irn.value), Validate))
  }

  function DoValidate(m: Machine, inv: Invoice, env: Env): Machine {
    if !StructureOk(inv) || (inv.irn in m.ix.byIrn && m.ix.byIrn[inv.irn] != inv.id) then Fail(m, inv, env)
    else m.(phase := Running(inv, SignIrn))
  }

  function DoConfirm(m: Machine, inv: Invoice, env: Env): Machine {
    if inv.id !in m.ix.byId || m.ix.byId[inv.id].irn != inv.irn || m.ix.byId[inv.id].core != inv.signedCore then
      Fail(m, inv, env)
    else
      var confirmed := inv.(status := "confirmed");
      var r := SaveCheck(m.ix, confirmed, env.at);
      if env.fault || !r.Saved? then Fail(m, confirmed, env)
      else
        var m' := Append(m, r.inv, Running(r.inv, Confirm));
        if env.ok then m'.(phase := Idle)
        else if env.giveUp then Fail(m', r.inv, env)
        else m'
  }

  /** One activity of the running workflow, its retries included. */
  function DoWork(m: Machine, env: Env): Machine
    requires m.phase.Running?
  {
    var inv := m.phase.inv;
    match m.phase.step
    case Generate => DoGenerate(m, inv, env)
    case Validate => DoValidate(m, inv, env)
    case SignIrn => if env.ok then m.(phase := Running(inv, Schema)) else Fail(m, inv, env)
    case Schema => if env.ok then m.(phase := Running(inv, SignInvoice)) else Fail(m, inv, env)
    case SignInvoice => SaveAnd(m, inv.(signedCore := inv.core, status := "signed"), Transmit, env)
    case Transmit =>
      if env.ok then SaveAnd(m, inv.(status := "transmitted"), Confirm, env) else Fail(m, inv, env)
    case Confirm => DoConfirm(m, inv, env)
  }

  function DoCreate(m: Machine, draft: Invoice, allowed: bool, at: nat, fault: bool): Machine {
    if draft.irn != "" && draft.irn in m.ix.byIrn then
      var id := m.ix.byIrn[draft.irn];
      if allowed && id in m.ix.byId && Interim(m.ix.byId[id]) then Start(m, id) else m
    else
      var r := SaveCheck(m.ix, draft, at);
      if fault then m
      else match r
        case Replayed(prior) =>
          if allowed && prior in m.ix.byId && Interim(m.ix.byId[prior]) then Start(m, prior) else m
        case Saved(inv) => Append(m, inv, Running(inv, Generate))
        case PayloadConflict(_) => m
        case Faulted => m
  }

  function DoPatch(m: Machine, irn: string, payment: string, reference: string, at: nat, fault: bool): Machine {
    if irn !in m.ix.byIrn || m.ix.byIrn[irn] !in m.ix.byId then m
    else
      var inv := m.ix.byId[m.ix.byIrn[irn]];
      var changed := inv.(payment := if payment == "" then inv.payment else payment,
                          reference := if reference == "" then inv.reference else reference);
      var r := SaveCheck(m.ix, changed, at);
      if fault || !r.Saved? then m else Append(m, r.inv, m.phase)
  }

  function InterimIds(order: seq<string>, byId: map<string, Invoice>): seq<string> {
    if order == [] then []
    else
      var rest, id := InterimIds(order[..|order| - 1], byId), order[|order| - 1];
      if id in byId && Interim(byId[id]) then rest + [id] else rest
  }

  predicate Quiet(m: Machine) {
    m.phase.Idle? && m.queue == []
  }

  function Next(m: Machine, ev: Event): Machine {
    match ev
    case Create(draft, allowed, at, fault) =>
      if Quiet(m) && at > 0 && IsDraft(m, draft) then DoCreate(m, draft, allowed, at, fault) else m
    case Patch(irn, payment, reference, allowed, at, fault) =>
      if Quiet(m) && at > 0 && allowed then DoPatch(m, irn, payment, reference, at, fault) else m
    case BeginSweep => if Quiet(m) then m.(queue := InterimIds(m.ix.order, m.ix.byId)) else m
    case SweepNext =>
      if m.phase.Idle? && m.queue != [] && m.queue[0] in m.ix.byId then
        Start(m.(queue := m.queue[1..]), m.queue[0])
      else m
    case Work(env) => if m.phase.Running? && env.at > 0 then DoWork(m, env) else m
    case PurgeKeys(at) => m.(ix := Purged(m.ix, at))
    case Crash => Machine(m.log, Load(m.log), Idle, [])
  }

  const START: Machine := Machine([], EMPTY_INDEX, Idle, [])

  function Run(evs: seq<Event>): Machine {
    if evs == [] then START else Next(Run(evs[..|evs| - 1]), evs[|evs| - 1])
  }
}
