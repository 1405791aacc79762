/** What every reachable set of assessment documents satisfies. */
module AssessmentLifecycle {
  import opened Options
  import opened Assessments

  function ObjectionOf(d: Docs, a: Assessment): Option<Objection> {
    if a.objection.Some? && a.objection.value in d.objections then Some(d.objections[a.objection.value]) else None
  }

  function AppealOf(d: Docs, a: Assessment): Option<Appeal> {
    if a.appeal.Some? && a.appeal.value in d.appeals then Some(d.appeals[a.appeal.value]) else None
  }

  predicate Outcomes(obj: Option<Objection>, outcome: Outcome) {
    obj.Some? && obj.value.outcome == outcome
  }

  predicate LapsedAfter(a: Assessment, deadline: int) {
    a.lapsedOn.Some? && a.lapsedOn.value > deadline
  }

  /** Status against the objection and the appeal. A final assessment has its cause: a lapsed objection window, an
      objection upheld in whole or part, a rejected one with a lapsed appeal window or a decided appeal. */
  predicate StatusFits(a: Assessment, obj: Option<Objection>, ap: Option<Appeal>) {
    && (ap.Some? ==> Outcomes(obj, Rejected))
    && match a.status
       case Open => obj == None
       case Objected => Outcomes(obj, Pending)
       case Appealable => Outcomes(obj, Rejected) && ap == None
       case UnderAppeal => ap.Some? && ap.value.decision == Awaited
       case Final =>
         && !Outcomes(obj, Pending) && (ap.Some? ==> ap.value.decision != Awaited)
         && (obj == None ==> LapsedAfter(a, a.servedOn + OBJECTION_WINDOW))
         && (Outcomes(obj, Rejected) && ap == None ==> LapsedAfter(a, a.appealDeadline))
       case StatuteBarred => true
  }

  predicate AdmissionFits(a: Assessment, obj: Objection) {
    0 <= obj.admitted <= a.issued && obj.paid <= obj.admitted
  }

  /** The amount as the tribunal left it. */
  predicate AmountAfterAppeal(a: Assessment, obj: Objection, decision: Decision) {
    match decision
    case Awaited => a.amount == a.issued
    case Affirmed => a.amount == a.issued
    case Varied => a.amount >= 0
    case Annulled => a.amount == obj.admitted
  }

  /** The amount follows from what was issued, the objection and the appeal. */
  predicate AmountFits(a: Assessment, obj: Option<Objection>, ap: Option<Appeal>) {
    && a.issued > 0
    && match obj
       case None => a.amount == a.issued
       case Some(o) =>
         && AdmissionFits(a, o)
         && if o.outcome == Upheld || o.outcome == DeemedUpheld then a.amount == o.admitted
            else if o.outcome == PartiallyUpheld then 0 <= a.amount < a.issued
            else AmountAfterAppeal(a, o, if ap.Some? then ap.value.decision else Awaited)
  }

  predicate Fits(a: Assessment, obj: Option<Objection>, ap: Option<Appeal>) {
    StatusFits(a, obj, ap) && AmountFits(a, obj, ap) && (ap.Some? ==> ap.value.objection == a.objection)
  }

  /** Objections and appeals point at an assessment that points back. */
  ghost predicate LinkedObjections(d: Docs) {
    && (forall o :: o in d.objections ==>
          d.objections[o].assessment in d.assessments && d.assessments[d.objections[o].assessment].objection == Some(o))
    && (forall id :: id in d.assessments && d.assessments[id].objection.Some? ==>
          var o := d.assessments[id].objection.value; o in d.objections && d.objections[o].assessment == id)
  }

  ghost predicate LinkedAppeals(d: Docs) {
    && (forall p :: p in d.appeals ==>
          d.appeals[p].assessment in d.assessments && d.assessments[d.appeals[p].assessment].appeal == Some(p))
    && (forall id :: id in d.assessments && d.assessments[id].appeal.Some? ==>
          var p := d.assessments[id].appeal.value; p in d.appeals && d.appeals[p].assessment == id)
  }

  ghost predicate Linked(d: Docs) {
    LinkedObjections(d) && LinkedAppeals(d)
  }

  ghost predicate AllFit(d: Docs) {
    forall id :: id in d.assessments ==>
      Fits(d.assessments[id], ObjectionOf(d, d.assessments[id]), AppealOf(d, d.assessments[id]))
  }

  ghost predicate Inv(d: Docs) {
    Linked(d) && AllFit(d) && Seeds(d, d.counter)
  }

  // ----- One assessment changes -----

  /** An assessment is written, with its objection or its appeal where one is given. */
  function Write(d: Docs, id: nat, a: Assessment, obj: Option<Objection>, ap: Option<Appeal>): Docs {
    d.(assessments := d.assessments[id := a],
       objections := if obj.Some? && a.objection.Some? then d.objections[a.objection.value := obj.value]
                     else d.objections,
       appeals := if ap.Some? && a.appeal.Some? then d.appeals[a.appeal.value := ap.value] else d.appeals)
  }

  function Before(d: Docs, id: nat): (Option<nat>, Option<nat>) {
    if id in d.assessments then (d.assessments[id].objection, d.assessments[id].appeal) else (None, None)
  }

  /** What is written belongs to the assessment, and replaces its own document or none. */
  predicate OwnObjection(d: Docs, id: nat, a: Assessment, obj: Option<Objection>) {
    if obj == None then a.objection == Before(d, id).0
    else
      && a.objection.Some? && obj.value.assessment == id
      && if a.objection.value in d.objections then d.objections[a.objection.value].assessment == id
         else Before(d, id).0 == None
  }

  predicate OwnAppeal(d: Docs, id: nat, a: Assessment, ap: Option<Appeal>) {
    if ap == None then a.appeal == Before(d, id).1
    else
      && a.appeal.Some? && ap.value.assessment == id
      && if a.appeal.value in d.appeals then d.appeals[a.appeal.value].assessment == id
         else Before(d, id).1 == None
  }

  lemma WriteLinksObjections(d: Docs, id: nat, a: Assessment, obj: Option<Objection>, ap: Option<Appeal>)
    requires LinkedObjections(d) && OwnObjection(d, id, a, obj)
    ensures LinkedObjections(Write(d, id, a, obj, ap))
  {
  }

  lemma WriteLinksAppeals(d: Docs, id: nat, a: Assessment, obj: Option<Objection>, ap: Option<Appeal>)
    requires LinkedAppeals(d) && OwnAppeal(d, id, a, ap)
    ensures LinkedAppeals(Write(d, id, a, obj, ap))
  {
  }

  /** Other assessments keep their objection and appeal. */
  lemma WriteOthers(d: Docs, id: nat, a: Assessment, obj: Option<Objection>, ap: Option<Appeal>, other: nat)
    requires Linked(d) && OwnObjection(d, id, a, obj) && OwnAppeal(d, id, a, ap)
    requires other != id && other in d.assessments
    ensures var b, d' := d.assessments[other], Write(d, id, a, obj, ap);
      ObjectionOf(d', b) == ObjectionOf(d, b) && AppealOf(d', b) == AppealOf(d, b)
  {
  }

  lemma WriteFits(d: Docs, id: nat, a: Assessment, obj: Option<Objection>, ap: Option<Appeal>)
    requires Linked(d) && AllFit(d) && OwnObjection(d, id, a, obj) && OwnAppeal(d, id, a, ap)
    requires Fits(a, if obj == None then ObjectionOf(d, a) else obj, if ap == None then AppealOf(d, a) else ap)
    ensures AllFit(Write(d, id, a, obj, ap))
  {
    var d' := Write(d, id, a, obj, ap);
    forall i | i in d'.assessments
      ensures Fits(d'.assessments[i], ObjectionOf(d', d'.assessments[i]), AppealOf(d', d'.assessments[i]))
    {
      if i != id {
        WriteOthers(d, id, a, obj, ap, i);
      }
    }
  }

  lemma WriteKeeps(d: Docs, id: nat, a: Assessment, obj: Option<Objection>, ap: Option<Appeal>, d': Docs)
    requires Linked(d) && AllFit(d) && OwnObjection(d, id, a, obj) && OwnAppeal(d, id, a, ap)
    requires Fits(a, if obj == None then ObjectionOf(d, a) else obj, if ap == None then AppealOf(d, a) else ap)
    requires d' == Write(d, id, a, obj, ap).(counter := d'.counter, referrals := d'.referrals)
    ensures Linked(d') && AllFit(d')
  {
    WriteLinksObjections(d, id, a, obj, ap);
    WriteLinksAppeals(d, id, a, obj, ap);
    WriteFits(d, id, a, obj, ap);
    SameDocs(Write(d, id, a, obj, ap), d');
  }

  lemma SameDocs(d: Docs, d': Docs)
    requires Linked(d) && AllFit(d)
    requires d' == d.(counter := d'.counter, referrals := d'.referrals)
    ensures Linked(d') && AllFit(d')
  {
    forall id | id in d'.assessments
      ensures Fits(d'.assessments[id], ObjectionOf(d', d'.assessments[id]), AppealOf(d', d'.assessments[id]))
    {
      var a := d.assessments[id];
      assert Fits(a, ObjectionOf(d, a), AppealOf(d, a));
    }
  }

  /** What the links say of one objection and one assessment. */
  lemma OfObjection(d: Docs, o: nat)
    requires Linked(d) && AllFit(d) && o in d.objections
    ensures var id := d.objections[o].assessment;
      && id in d.assessments && d.assessments[id].objection == Some(o)
      && Fits(d.assessments[id], Some(d.objections[o]), AppealOf(d, d.assessments[id]))
      && (d.assessments[id].appeal.Some? ==> AppealOf(d, d.assessments[id]).Some?)
  {
    var a := d.assessments[d.objections[o].assessment];
    assert Fits(a, ObjectionOf(d, a), AppealOf(d, a));
  }

  lemma OfAppeal(d: Docs, p: nat)
    requires Linked(d) && AllFit(d) && p in d.appeals
    ensures var id := d.appeals[p].assessment;
      && id in d.assessments && d.assessments[id].appeal == Some(p)
      && Fits(d.assessments[id], ObjectionOf(d, d.assessments[id]), Some(d.appeals[p]))
      && (d.appeals[p].decision == Awaited ==>
            d.assessments[id].status == UnderAppeal || d.assessments[id].status == StatuteBarred)
  {
    var a := d.assessments[d.appeals[p].assessment];
    assert Fits(a, ObjectionOf(d, a), AppealOf(d, a));
  }

  lemma OfAssessment(d: Docs, id: nat)
    requires Linked(d) && AllFit(d) && id in d.assessments
    ensures var a := d.assessments[id];
      && Fits(a, ObjectionOf(d, a), AppealOf(d, a))
      && (a.objection.Some? <==> ObjectionOf(d, a).Some?) && (a.appeal.Some? <==> AppealOf(d, a).Some?)
      && (a.objection.Some? ==> ObjectionOf(d, a).value.assessment == id)
      && (a.appeal.Some? ==> AppealOf(d, a).value.assessment == id)
  {
    var a := d.assessments[id];
    assert Fits(a, ObjectionOf(d, a), AppealOf(d, a));
  }

  // ----- The operations -----

  lemma IssueKeeps(d: Docs, amount: int, servedOn: int, limitation: int, known: bool)
    requires Inv(d)
    ensures Inv(Issue(d, amount, servedOn, limitation, known))
  {
    var d' := Issue(d, amount, servedOn, limitation, known);
    if known && amount > 0 {
      WriteKeeps(d, d.counter + 1, d'.assessments[d.counter + 1], None, None, d');
    }
  }

  lemma ObjectKeeps(d: Docs, id: nat, stated: bool, admitted: int, paid: int, filedOn: int)
    requires Inv(d)
    ensures Inv(Object(d, id, stated, admitted, paid, filedOn))
  {
    var d' := Object(d, id, stated, admitted, paid, filedOn);
    if d' != d {
      OfAssessment(d, id);
      WriteKeeps(d, id, d'.assessments[id], Some(d'.objections[d'.counter]), None, d');
    }
  }

  lemma DecideFits(d: Docs, o: nat, outcome: Outcome, decidedOn: int, revised: int)
    requires Linked(d) && AllFit(d) && Decidable(d, o, outcome, decidedOn, revised)
    ensures Linked(Decide(d, o, outcome, decidedOn, revised)) && AllFit(Decide(d, o, outcome, decidedOn, revised))
  {
    var d' := Decide(d, o, outcome, decidedOn, revised);
    var id := d.objections[o].assessment;
    OfObjection(d, o);
    WriteKeeps(d, id, d'.assessments[id], Some(d'.objections[o]), None, d');
  }

  lemma DecideKeeps(d: Docs, o: nat, outcome: Outcome, decidedOn: int, revised: int)
    requires Inv(d)
    ensures Inv(Decide(d, o, outcome, decidedOn, revised))
  {
    if Decidable(d, o, outcome, decidedOn, revised) {
      DecideFits(d, o, outcome, decidedOn, revised);
      SameNumbers(d, Decide(d, o, outcome, decidedOn, revised));
    }
  }

  lemma SameNumbers(d: Docs, d': Docs)
    requires Seeds(d, d.counter) && d'.assessments.Keys <= d.assessments.Keys && d'.objections.Keys <= d.objections.Keys
    requires d'.appeals.Keys <= d.appeals.Keys && d'.counter >= d.counter
    requires forall n :: n in d'.referrals ==> n in d.referrals || n <= d'.counter
    ensures Seeds(d', d'.counter)
  {
  }

  lemma AppealKeeps(d: Docs, id: nat, filedOn: int)
    requires Inv(d)
    ensures Inv(FileAppeal(d, id, filedOn))
  {
    var d' := FileAppeal(d, id, filedOn);
    if d' != d {
      hide Linked, AllFit, Seeds, FileAppeal;
      AppealFits(d, id, filedOn);
      AppealSeeds(d, id, filedOn);
    }
  }

  lemma AppealSeeds(d: Docs, id: nat, filedOn: int)
    requires Seeds(d, d.counter)
    ensures Seeds(FileAppeal(d, id, filedOn), FileAppeal(d, id, filedOn).counter)
  {
  }

  lemma AppealFits(d: Docs, id: nat, filedOn: int)
    requires Linked(d) && AllFit(d) && Seeds(d, d.counter) && FileAppeal(d, id, filedOn) != d
    ensures var d' := FileAppeal(d, id, filedOn); Linked(d') && AllFit(d')
  {
    var d' := FileAppeal(d, id, filedOn);
    OfAssessment(d, id);
    assert d'.counter !in d.appeals;
    hide Linked, AllFit, Seeds;
    WriteKeeps(d, id, d'.assessments[id], None, Some(d'.appeals[d'.counter]), d');
  }

  /** The decided amount, value by value. */
  lemma TatAmount(a: Assessment, obj: Option<Objection>, ap: Appeal, decision: Decision, amount: int)
    requires Fits(a, obj, Some(ap)) && ap.decision == Awaited && decision != Awaited
    requires amount == a.amount || decision != Affirmed
    requires decision == Varied ==> amount >= 0
    requires decision == Annulled ==> obj.Some? && amount == obj.value.admitted
    ensures Fits(a.(status := Final, amount := amount), obj, Some(ap.(decision := decision)))
  {
  }

  lemma TatFits(d: Docs, p: nat, decision: Decision, varied: int)
    requires Linked(d) && AllFit(d) && TatDecision(d, p, decision, varied) != d
    ensures Linked(TatDecision(d, p, decision, varied)) && AllFit(TatDecision(d, p, decision, varied))
  {
    var d' := TatDecision(d, p, decision, varied);
    var id := d.appeals[p].assessment;
    var a := d.assessments[id];
    OfAppeal(d, p);
    TatAmount(a, ObjectionOf(d, a), d.appeals[p], decision, d'.assessments[id].amount);
    WriteKeeps(d, id, d'.assessments[id], None, Some(d'.appeals[p]), d');
  }

  lemma TatKeeps(d: Docs, p: nat, decision: Decision, varied: int)
    requires Inv(d)
    ensures Inv(TatDecision(d, p, decision, varied))
  {
    var d' := TatDecision(d, p, decision, varied);
    if d' != d {
      TatFits(d, p, decision, varied);
      SameNumbers(d, d');
    }
  }

  lemma DemandKeeps(d: Docs, id: nat, today: int)
    requires Inv(d)
    ensures Inv(DemandPayment(d, id, today).0)
  {
    var d' := DemandPayment(d, id, today).0;
    if d' != d {
      BarredKeeps(d, id);
    }
  }

  lemma BarredKeeps(d: Docs, id: nat)
    requires Inv(d) && id in d.assessments
    ensures Inv(PutAssessment(d, id, d.assessments[id].(status := StatuteBarred)))
  {
    OfAssessment(d, id);
    var d' := PutAssessment(d, id, d.assessments[id].(status := StatuteBarred));
    WriteKeeps(d, id, d'.assessments[id], None, None, d');
  }

  lemma LapseKeeps(d: Docs, id: nat, today: int)
    requires Inv(d) && id in d.assessments
    requires var a := d.assessments[id];
      || (a.status == Open && today > a.servedOn + OBJECTION_WINDOW)
      || (a.status == Appealable && today > a.appealDeadline)
    ensures Inv(PutAssessment(d, id, d.assessments[id].(status := Final, lapsedOn := Some(today))))
  {
    OfAssessment(d, id);
    var d' := PutAssessment(d, id, d.assessments[id].(status := Final, lapsedOn := Some(today)));
    WriteKeeps(d, id, d'.assessments[id], None, None, d');
  }

  function Deemed(d: Docs, id: nat): Docs
    requires id in d.assessments && d.assessments[id].objection.Some?
      && d.assessments[id].objection.value in d.objections
  {
    var a := d.assessments[id];
    var o := a.objection.value;
    PutAssessment(d, id, a.(status := Final, amount := d.objections[o].admitted))
    .(objections := d.objections[o := d.objections[o].(outcome := DeemedUpheld)],
      referrals := d.referrals[d.counter + 1 := Referral(id, o)], counter := d.counter + 1)
  }

  lemma DeemedFits(d: Docs, id: nat)
    requires Linked(d) && AllFit(d) && id in d.assessments && d.assessments[id].status == Objected
    requires d.assessments[id].objection.Some? && d.assessments[id].objection.value in d.objections
    ensures Linked(Deemed(d, id)) && AllFit(Deemed(d, id))
  {
    OfAssessment(d, id);
    var d' := Deemed(d, id);
    var a := d'.assessments[id];
    WriteKeeps(d, id, a, Some(d'.objections[a.objection.value]), None, d');
  }

  lemma DeemedKeeps(d: Docs, id: nat)
    requires Inv(d) && id in d.assessments && d.assessments[id].status == Objected
    requires d.assessments[id].objection.Some? && d.assessments[id].objection.value in d.objections
    ensures Inv(Deemed(d, id))
  {
    DeemedFits(d, id);
    SameNumbers(d, Deemed(d, id));
  }

  /** What a sweep can do to one assessment. */
  lemma TickOneCases(d: Docs, id: nat, today: int)
    requires TickOne(d, id, today) != d
    ensures id in d.assessments
    ensures var a, d' := d.assessments[id], TickOne(d, id, today);
      || d' == PutAssessment(d, id, a.(status := StatuteBarred))
      || (d' == PutAssessment(d, id, a.(status := Final, lapsedOn := Some(today)))
          && ((a.status == Open && today > a.servedOn + OBJECTION_WINDOW)
              || (a.status == Appealable && today > a.appealDeadline)))
      || (a.status == Objected && a.objection.Some? && a.objection.value in d.objections && d' == Deemed(d, id))
  {
  }

  lemma TickOneKeeps(d: Docs, id: nat, today: int)
    requires Inv(d)
    ensures Inv(TickOne(d, id, today))
  {
    var d' := TickOne(d, id, today);
    if d' != d {
      TickOneCases(d, id, today);
      var a := d.assessments[id];
      if d' == PutAssessment(d, id, a.(status := StatuteBarred)) {
        BarredKeeps(d, id);
      } else if d' == PutAssessment(d, id, a.(status := Final, lapsedOn := Some(today))) {
        LapseKeeps(d, id, today);
      } else {
        DeemedKeeps(d, id);
      }
    }
  }

  lemma {:induction false} TickKeeps(d: Docs, ids: seq<nat>, today: int)
    requires Inv(d)
    ensures Inv(Tick(d, ids, today))
    decreases |ids|
  {
    if ids != [] {
      TickKeeps(d, ids[..|ids| - 1], today);
      TickOneKeeps(Tick(d, ids[..|ids| - 1], today), ids[|ids| - 1], today);
    }
  }

  lemma StepKeepsInv(d: Docs, ev: Event, d': Docs)
    requires Inv(d) && Steps(d, ev, d')
    ensures Inv(d')
  {
    match ev
    case Issued(amount, servedOn, limitation, known) => IssueKeeps(d, amount, servedOn, limitation, known);
    case Filed(id, stated, admitted, paid, day) => ObjectKeeps(d, id, stated, admitted, paid, day);
    case ObjectionDecided(o, outcome, day, revised) => DecideKeeps(d, o, outcome, day, revised);
    case Appealed(id, day) => AppealKeeps(d, id, day);
    case TatDecided(p, decision, varied) => TatKeeps(d, p, decision, varied);
    case Demanded(id, day) => DemandKeeps(d, id, day);
    case Ticked(ids, day) => TickKeeps(d, ids, day);
    case Restarted(_) =>
  }

  lemma {:induction false} ReachesInv(evs: seq<Event>, d: Docs)
    requires Reaches(evs, d)
    ensures Inv(d)
    decreases |evs|
  {
    if evs != [] {
      var front, last := evs[..|evs| - 1], evs[|evs| - 1];
      var before :| Reaches(front, before) && Steps(before, last, d);
      ReachesInv(front, before);
      StepKeepsInv(before, last, d);
    }
  }

  // ----- In every reachable state -----

  /** A pending objection belongs to an assessment that is objected or statute-barred; an awaited appeal to one that is
      under appeal or statute-barred. */
  lemma PendingMatchesStatus(evs: seq<Event>, d: Docs)
    requires Reaches(evs, d)
    ensures forall o :: o in d.objections && d.objections[o].outcome == Pending ==>
      && d.objections[o].assessment in d.assessments
      && d.assessments[d.objections[o].assessment].status in {Objected, StatuteBarred}
    ensures forall p :: p in d.appeals && d.appeals[p].decision == Awaited ==>
      && d.appeals[p].assessment in d.assessments
      && d.assessments[d.appeals[p].assessment].status in {UnderAppeal, StatuteBarred}
  {
    ReachesInv(evs, d);
    PendingObjections(d);
    AwaitedAppeals(d);
  }

  lemma PendingObjections(d: Docs)
    requires Linked(d) && AllFit(d)
    ensures forall o :: o in d.objections && d.objections[o].outcome == Pending ==>
      && d.objections[o].assessment in d.assessments
      && d.assessments[d.objections[o].assessment].status in {Objected, StatuteBarred}
  {
    forall o | o in d.objections && d.objections[o].outcome == Pending
      ensures d.objections[o].assessment in d.assessments
      ensures d.assessments[d.objections[o].assessment].status in {Objected, StatuteBarred}
    {
      OfObjection(d, o);
    }
  }

  lemma AwaitedAppeals(d: Docs)
    requires Linked(d) && AllFit(d)
    ensures forall p :: p in d.appeals && d.appeals[p].decision == Awaited ==>
      && d.appeals[p].assessment in d.assessments
      && d.assessments[d.appeals[p].assessment].status in {UnderAppeal, StatuteBarred}
  {
    forall p | p in d.appeals && d.appeals[p].decision == Awaited
      ensures d.appeals[p].assessment in d.assessments
      ensures d.assessments[d.appeals[p].assessment].status in {UnderAppeal, StatuteBarred}
    {
      OfAppeal(d, p);
    }
  }

  /** No assessment has two objections or two appeals. */
  lemma OneOfEach(evs: seq<Event>, d: Docs)
    requires Reaches(evs, d)
    ensures forall o, o' :: o in d.objections && o' in d.objections ==>
      d.objections[o].assessment == d.objections[o'].assessment ==> o == o'
    ensures forall p, p' :: p in d.appeals && p' in d.appeals ==>
      d.appeals[p].assessment == d.appeals[p'].assessment ==> p == p'
  {
    ReachesInv(evs, d);
  }

  /** A final assessment has one of the statutory causes. */
  lemma FinalHasCause(evs: seq<Event>, d: Docs, id: nat)
    requires Reaches(evs, d) && id in d.assessments && d.assessments[id].status == Final
    ensures var a := d.assessments[id];
      var obj, ap := ObjectionOf(d, a), AppealOf(d, a);
      || (obj == None && ap == None && LapsedAfter(a, a.servedOn + OBJECTION_WINDOW))
      || (obj.Some? && obj.value.outcome in {Upheld, PartiallyUpheld, DeemedUpheld} && ap == None)
      || (Outcomes(obj, Rejected) && ap == None && LapsedAfter(a, a.appealDeadline))
      || (Outcomes(obj, Rejected) && ap.Some? && ap.value.decision in {Affirmed, Varied, Annulled})
  {
    ReachesInv(evs, d);
    OfAssessment(d, id);
  }

  // ----- Where an amount comes from -----

  predicate Partial(d: Docs, id: nat) {
    id in d.assessments && Outcomes(ObjectionOf(d, d.assessments[id]), PartiallyUpheld)
  }

  predicate IsVaried(d: Docs, id: nat) {
    id in d.assessments && AppealOf(d, d.assessments[id]).Some?
      && AppealOf(d, d.assessments[id]).value.decision == Varied
  }

  /** A partial or varied amount was there before, under the same document. */
  predicate Inherited(d: Docs, d': Docs, id: nat) {
    && (Partial(d', id) ==>
          && Partial(d, id) && d'.assessments[id].objection == d.assessments[id].objection
          && d'.assessments[id].amount == d.assessments[id].amount)
    && (IsVaried(d', id) ==>
          && IsVaried(d, id) && d'.assessments[id].appeal == d.assessments[id].appeal
          && d'.assessments[id].amount == d.assessments[id].amount)
  }

  /** The step writes one assessment and documents of its own. */
  ghost predicate OnlyAt(d: Docs, d': Docs, who: nat) {
    && (forall id :: id != who ==>
          (id in d'.assessments <==> id in d.assessments)
          && (id in d.assessments ==> d'.assessments[id] == d.assessments[id]))
    && (forall o :: o in d.objections && d.objections[o].assessment != who ==>
          o in d'.objections && d'.objections[o] == d.objections[o])
    && (forall p :: p in d.appeals && d.appeals[p].assessment != who ==>
          p in d'.appeals && d'.appeals[p] == d.appeals[p])
  }

  lemma OthersInherit(d: Docs, d': Docs, who: nat, id: nat)
    requires Linked(d) && OnlyAt(d, d', who) && id != who
    ensures Inherited(d, d', id)
  {
  }

  lemma DecideOnlyAt(d: Docs, o: nat, outcome: Outcome, day: int, revised: int)
    requires Linked(d) && Decidable(d, o, outcome, day, revised)
    ensures OnlyAt(d, Decide(d, o, outcome, day, revised), d.objections[o].assessment)
  {
  }

  /** A pending objection belongs to an assessment that no appeal has varied. */
  lemma PendingUnvaried(d: Docs, o: nat)
    requires Linked(d) && AllFit(d) && o in d.objections && d.objections[o].outcome == Pending
    ensures var id := d.objections[o].assessment;
      && id in d.assessments && d.assessments[id].objection == Some(o) && AppealOf(d, d.assessments[id]) == None
  {
    hide AmountFits;
    OfObjection(d, o);
    OfAssessment(d, d.objections[o].assessment);
  }

  lemma DecideNames(d: Docs, o: nat, outcome: Outcome, day: int, revised: int, id: nat)
    requires Linked(d) && AllFit(d)
    ensures var d' := Decide(d, o, outcome, day, revised);
      || Inherited(d, d', id)
      || (outcome == PartiallyUpheld && id in d'.assessments && d'.assessments[id].objection == Some(o)
          && d'.assessments[id].amount == revised && !IsVaried(d', id))
  {
    if Decidable(d, o, outcome, day, revised) {
      DecideOnlyAt(d, o, outcome, day, revised);
      PendingUnvaried(d, o);
      hide Linked, AllFit, OnlyAt, Decide, Inherited;
      if id != d.objections[o].assessment {
        OthersInherit(d, Decide(d, o, outcome, day, revised), d.objections[o].assessment, id);
      } else {
        DecideOwn(d, o, outcome, day, revised);
      }
    }
  }

  lemma DecideOwn(d: Docs, o: nat, outcome: Outcome, day: int, revised: int)
    requires Decidable(d, o, outcome, day, revised)
    requires var a := d.assessments[d.objections[o].assessment]; a.objection == Some(o) && AppealOf(d, a) == None
    ensures var d', id := Decide(d, o, outcome, day, revised), d.objections[o].assessment;
      && id in d'.assessments && d'.assessments[id].objection == Some(o) && !IsVaried(d', id)
      && (outcome == PartiallyUpheld ==> d'.assessments[id].amount == revised)
      && (outcome != PartiallyUpheld ==> Inherited(d, d', id))
  {
  }

  lemma TatOnlyAt(d: Docs, p: nat, decision: Decision, varied: int)
    requires Linked(d) && TatDecision(d, p, decision, varied) != d
    ensures OnlyAt(d, TatDecision(d, p, decision, varied), d.appeals[p].assessment)
  {
  }

  /** An appealed assessment has a rejected objection. */
  lemma AppealedNotPartial(d: Docs, p: nat)
    requires Linked(d) && AllFit(d) && p in d.appeals
    ensures var id := d.appeals[p].assessment;
      && id in d.assessments && d.assessments[id].appeal == Some(p)
      && Outcomes(ObjectionOf(d, d.assessments[id]), Rejected)
  {
    hide AmountFits;
    OfAppeal(d, p);
    OfAssessment(d, d.appeals[p].assessment);
  }

  lemma TatNames(d: Docs, p: nat, decision: Decision, varied: int, id: nat)
    requires Linked(d) && AllFit(d)
    ensures var d' := TatDecision(d, p, decision, varied);
      || Inherited(d, d', id)
      || (decision == Varied && id in d'.assessments && d'.assessments[id].appeal == Some(p)
          && d'.assessments[id].amount == varied && !Partial(d', id))
  {
    if TatDecision(d, p, decision, varied) != d {
      TatOnlyAt(d, p, decision, varied);
      AppealedNotPartial(d, p);
      hide Linked, AllFit, OnlyAt;
      if id != d.appeals[p].assessment {
        hide TatDecision, Inherited;
        OthersInherit(d, TatDecision(d, p, decision, varied), d.appeals[p].assessment, id);
      }
    }
  }

  lemma TickOneOnlyAt(d: Docs, who: nat, today: int)
    requires Linked(d)
    ensures OnlyAt(d, TickOne(d, who, today), who)
  {
  }

  lemma TickOneInherits(d: Docs, who: nat, today: int, id: nat)
    requires Linked(d) && AllFit(d)
    ensures Inherited(d, TickOne(d, who, today), id)
  {
    if id != who {
      hide TickOne, AllFit;
      TickOneOnlyAt(d, who, today);
      OthersInherit(d, TickOne(d, who, today), who, id);
    } else if id in d.assessments {
      if Outcomes(ObjectionOf(d, d.assessments[id]), Pending) {
        PendingUnvaried(d, d.assessments[id].objection.value);
      }
      hide Linked, AllFit;
      TickOwn(d, id, today);
    }
  }

  lemma TickOwn(d: Docs, id: nat, today: int)
    requires id in d.assessments
    requires Outcomes(ObjectionOf(d, d.assessments[id]), Pending) ==> AppealOf(d, d.assessments[id]) == None
    ensures Inherited(d, TickOne(d, id, today), id)
  {
  }

  lemma {:induction false} TickInherits(d: Docs, ids: seq<nat>, today: int, id: nat)
    requires Inv(d)
    ensures Inherited(d, Tick(d, ids, today), id)
  {
    if ids != [] {
      hide Inv, TickOne;
      var front := ids[..|ids| - 1];
      TickInherits(d, front, today, id);
      TickKeeps(d, front, today);
      InvParts(Tick(d, front, today));
      TickOneInherits(Tick(d, front, today), ids[|ids| - 1], today, id);
    }
  }

  lemma InvParts(d: Docs)
    requires Inv(d)
    ensures Linked(d) && AllFit(d)
  {
  }

  lemma IssueInherits(d: Docs, amount: int, servedOn: int, limitation: int, known: bool, id: nat)
    requires Inv(d)
    ensures Inherited(d, Issue(d, amount, servedOn, limitation, known), id)
  {
    hide AllFit;
  }

  lemma ObjectInherits(d: Docs, who: nat, stated: bool, admitted: int, paid: int, day: int, id: nat)
    requires Inv(d)
    ensures Inherited(d, Object(d, who, stated, admitted, paid, day), id)
  {
    if who in d.assessments {
      OfAssessment(d, who);
    }
    hide AllFit;
  }

  lemma AppealInherits(d: Docs, who: nat, day: int, id: nat)
    requires Inv(d)
    ensures Inherited(d, FileAppeal(d, who, day), id)
  {
    hide AllFit;
  }

  lemma DemandInherits(d: Docs, who: nat, day: int, id: nat)
    requires Inv(d)
    ensures Inherited(d, DemandPayment(d, who, day).0, id)
  {
    hide AllFit, Linked, Seeds;
  }

  /** An amount after a partial outcome or a variation is the one that decision named. */
  ghost predicate AmountNamed(evs: seq<Event>, d: Docs, id: nat) {
    && (Partial(d, id) ==>
          exists day :: ObjectionDecided(d.assessments[id].objection.value, PartiallyUpheld, day,
                                         d.assessments[id].amount) in evs)
    && (IsVaried(d, id) ==> TatDecided(d.assessments[id].appeal.value, Varied, d.assessments[id].amount) in evs)
  }

  lemma InheritedNamed(evs: seq<Event>, d: Docs, ev: Event, d': Docs, id: nat)
    requires AmountNamed(evs, d, id) && Inherited(d, d', id)
    ensures AmountNamed(evs + [ev], d', id)
  {
    if Partial(d', id) {
      var day :| ObjectionDecided(d.assessments[id].objection.value, PartiallyUpheld, day,
                                  d.assessments[id].amount) in evs;
      assert ObjectionDecided(d'.assessments[id].objection.value, PartiallyUpheld, day, d'.assessments[id].amount)
        in evs + [ev];
    }
  }

  lemma StepNamed(evs: seq<Event>, d: Docs, ev: Event, d': Docs, id: nat)
    requires Inv(d) && AmountNamed(evs, d, id) && Steps(d, ev, d')
    ensures AmountNamed(evs + [ev], d', id)
  {
    InvParts(d);
    hide Inv, Linked, AllFit, Decide, TatDecision, Tick, Issue, Object, FileAppeal, DemandPayment;
    match ev
    case Issued(amount, servedOn, limitation, known) => IssueInherits(d, amount, servedOn, limitation, known, id);
    case Filed(who, stated, admitted, paid, day) => ObjectInherits(d, who, stated, admitted, paid, day, id);
    case ObjectionDecided(o, outcome, day, revised) => DecideNames(d, o, outcome, day, revised, id);
    case Appealed(who, day) => AppealInherits(d, who, day, id);
    case TatDecided(p, decision, varied) => TatNames(d, p, decision, varied, id);
    case Demanded(who, day) => DemandInherits(d, who, day, id);
    case Ticked(ids, day) => TickInherits(d, ids, day, id);
    case Restarted(_) =>
    assert ev in evs + [ev];
    if Inherited(d, d', id) {
      InheritedNamed(evs, d, ev, d', id);
    }
  }

  lemma {:induction false} ReachesNamed(evs: seq<Event>, d: Docs, id: nat)
    requires Reaches(evs, d)
    ensures AmountNamed(evs, d, id)
    decreases |evs|
  {
    if evs != [] {
      hide AmountNamed, Inv, Steps;
      var front, last := evs[..|evs| - 1], evs[|evs| - 1];
      var before :| Reaches(front, before) && Steps(before, last, d);
      ReachesInv(front, before);
      ReachesNamed(front, before, id);
      StepNamed(front, before, last, d, id);
      assert evs == front + [last];
    }
  }

  /** The amount is what was issued until an objection is upheld, in whole to the admitted amount or in part to the
      lower one the decision named, or the tribunal annuls the assessment to the admitted amount or varies it to the
      one it named; only a variation can exceed what was issued. */
  lemma AmountExplained(evs: seq<Event>, d: Docs, id: nat)
    requires Reaches(evs, d) && id in d.assessments
    ensures var a := d.assessments[id];
      && AmountFits(a, ObjectionOf(d, a), AppealOf(d, a)) && a.amount >= 0
      && (a.amount > a.issued ==> AppealOf(d, a).Some? && AppealOf(d, a).value.decision == Varied)
    ensures AmountNamed(evs, d, id)
  {
    ReachesInv(evs, d);
    ReachesNamed(evs, d, id);
    OfAssessment(d, id);
  }
}
