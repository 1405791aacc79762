/** The assessment, objection and appeal store (services/filings/app/assessment.py:105-367, after sections 40 to 42 of
    the NTAA 2025). Days are counted from a fixed date; a period's limitation day is part of the assessment. */
module Assessments {
  import opened Options

  const OBJECTION_WINDOW: nat := 30
  const DECISION_WINDOW: nat := 90
  const APPEAL_WINDOW: nat := 30

  datatype Status = Open | Objected | Appealable | UnderAppeal | Final | StatuteBarred

  /** `lapsedOn` is the day noted in the history when a window lapsed. */
  datatype Assessment = Assessment(issued: int, amount: int, servedOn: int, limitation: int, status: Status,
                                   objection: Option<nat>, appealDeadline: int, appeal: Option<nat>,
                                   lapsedOn: Option<int>)

  datatype Outcome = Pending | Upheld | PartiallyUpheld | Rejected | DeemedUpheld

  datatype Objection = Objection(assessment: nat, admitted: int, paid: int, deadline: int, outcome: Outcome)

  datatype Decision = Awaited | Affirmed | Varied | Annulled

  datatype Appeal = Appeal(assessment: nat, objection: Option<nat>, disputed: int, decision: Decision)

  datatype Referral = Referral(assessment: nat, objection: nat)

  /** The documents, keyed by the numbers of one shared counter. */
  datatype Docs = Docs(assessments: map<nat, Assessment>, objections: map<nat, Objection>, appeals: map<nat, Appeal>,
                       referrals: map<nat, Referral>, counter: nat)

  const EMPTY_DOCS: Docs := Docs(map[], map[], map[], map[], 0)

  predicate Barred(a: Assessment, today: int) {
    today > a.limitation
  }

  function PutAssessment(d: Docs, id: nat, a: Assessment): Docs {
    d.(assessments := d.assessments[id := a])
  }

  // ----- Operations: the documents afterwards, or the same ones when refused -----

  function Issue(d: Docs, amount: int, servedOn: int, limitation: int, known: bool): Docs {
    if !known || amount <= 0 then d
    else
      PutAssessment(d, d.counter + 1, Assessment(amount, amount, servedOn, limitation, Open, None, 0, None, None))
      .(counter := d.counter + 1)
  }

  function Object(d: Docs, id: nat, stated: bool, admitted: int, paid: int, filedOn: int): Docs {
    if id !in d.assessments then d
    else
      var a := d.assessments[id];
      if a.status != Open || filedOn > a.servedOn + OBJECTION_WINDOW || !stated || admitted < 0 || admitted > a.amount
         || paid > admitted then d
      else
        var n := d.counter + 1;
        PutAssessment(d, id, a.(status := Objected, objection := Some(n)))
        .(objections := d.objections[n := Objection(id, admitted, paid, filedOn + DECISION_WINDOW, Pending)],
          counter := n)
  }

  /** An outcome for a pending objection; a partial one brings a lower amount. */
  predicate Decidable(d: Docs, o: nat, outcome: Outcome, decidedOn: int, revised: int) {
    && o in d.objections && d.objections[o].outcome == Pending && decidedOn <= d.objections[o].deadline
    && (outcome == Upheld || outcome == PartiallyUpheld || outcome == Rejected)
    && d.objections[o].assessment in d.assessments
    && (outcome == PartiallyUpheld ==> 0 <= revised < d.assessments[d.objections[o].assessment].amount)
  }

  function Decide(d: Docs, o: nat, outcome: Outcome, decidedOn: int, revised: int): Docs {
    if !Decidable(d, o, outcome, decidedOn, revised) then d
    else
      var obj := d.objections[o];
      var a := d.assessments[obj.assessment];
      var amount :=
        if outcome == PartiallyUpheld then revised else if outcome == Upheld then obj.admitted else a.amount;
      var a' := if outcome == Rejected
                then a.(status := Appealable, appealDeadline := decidedOn + APPEAL_WINDOW, appeal := None)
                else a.(status := Final, amount := amount);
      PutAssessment(d, obj.assessment, a').(objections := d.objections[o := obj.(outcome := outcome)])
  }

  function FileAppeal(d: Docs, id: nat, filedOn: int): Docs {
    if id !in d.assessments || d.assessments[id].status != Appealable
       || filedOn > d.assessments[id].appealDeadline then d
    else
      var a, n := d.assessments[id], d.counter + 1;
      PutAssessment(d, id, a.(status := UnderAppeal, appeal := Some(n)))
      .(appeals := d.appeals[n := Appeal(id, a.objection, a.amount, Awaited)], counter := n)
  }

  function Admitted(d: Docs, o: Option<nat>): int {
    if o.Some? && o.value in d.objections then d.objections[o.value].admitted else 0
  }

  function TatDecision(d: Docs, p: nat, decision: Decision, varied: int): Docs {
    if p !in d.appeals || d.appeals[p].decision != Awaited || decision == Awaited
       || d.appeals[p].assessment !in d.assessments || (decision == Varied && varied < 0) then d
    else
      var ap := d.appeals[p];
      var a := d.assessments[ap.assessment];
      var amount :=
        if decision == Varied then varied else if decision == Annulled then Admitted(d, ap.objection) else a.amount;
      PutAssessment(d, ap.assessment, a.(status := Final, amount := amount))
      .(appeals := d.appeals[p := ap.(decision := decision)])
  }

  /** A demand marks an assessment whose limitation has run out; the amount due is answered for a final one only. */
  function DemandPayment(d: Docs, id: nat, today: int): (Docs, Option<int>) {
    if id !in d.assessments || d.assessments[id].status == StatuteBarred then (d, None)
    else
      var a := d.assessments[id];
      if Barred(a, today) then (PutAssessment(d, id, a.(status := StatuteBarred)), None)
      else if a.status != Final then (d, None)
      else (d, Some(a.amount))
  }

  function TickOne(d: Docs, id: nat, today: int): Docs {
    if id !in d.assessments then d
    else
      var a := d.assessments[id];
      if a.status != StatuteBarred && Barred(a, today) then PutAssessment(d, id, a.(status := StatuteBarred))
      else if a.status == Appealable && today > a.appealDeadline then
        PutAssessment(d, id, a.(status := Final, lapsedOn := Some(today)))
      else if a.status == Open && today > a.servedOn + OBJECTION_WINDOW then
        PutAssessment(d, id, a.(status := Final, lapsedOn := Some(today)))
      else if a.status == Objected && a.objection.Some? && a.objection.value in d.objections then
        var obj := d.objections[a.objection.value];
        if obj.outcome == Pending && today > obj.deadline then
          PutAssessment(d, id, a.(status := Final, amount := obj.admitted))
          .(objections := d.objections[a.objection.value := obj.(outcome := DeemedUpheld)],
            referrals := d.referrals[d.counter + 1 := Referral(id, a.objection.value)], counter := d.counter + 1)
        else d
      else d
  }

  function Tick(d: Docs, ids: seq<nat>, today: int): Docs {
    if ids == [] then d else TickOne(Tick(d, ids[..|ids| - 1], today), ids[|ids| - 1], today)
  }

  /** The store object: documents replaced in place. */
  class AssessmentStore {
    var docs: Docs

    constructor ()
      ensures docs == EMPTY_DOCS
    {
      docs := EMPTY_DOCS;
    }

    method IssueAssessment(amount: int, servedOn: int, limitation: int, known: bool)
      modifies this
      ensures docs == Issue(old(docs), amount, servedOn, limitation, known)
    {
      if known && amount > 0 {
        var n := docs.counter + 1;
        docs := docs.(counter := n);
        var a := Assessment(amount, amount, servedOn, limitation, Open, None, 0, None, None);
        docs := docs.(assessments := docs.assessments[n := a]);
      }
    }

    method FileObjection(id: nat, stated: bool, admitted: int, paid: int, filedOn: int)
      modifies this
      ensures docs == Object(old(docs), id, stated, admitted, paid, filedOn)
    {
      if id !in docs.assessments || docs.assessments[id].status != Open {
        return;
      }
      var a := docs.assessments[id];
      if filedOn > a.servedOn + OBJECTION_WINDOW || !stated || admitted < 0 || admitted > a.amount || paid > admitted {
        return;
      }
      var n := docs.counter + 1;
      docs := docs.(counter := n);
      var objection := Objection(id, admitted, paid, filedOn + DECISION_WINDOW, Pending);
      docs := docs.(objections := docs.objections[n := objection]);
      docs := docs.(assessments := docs.assessments[id := a.(status := Objected, objection := Some(n))]);
    }

    method AppealToTat(id: nat, filedOn: int)
      modifies this
      ensures docs == FileAppeal(old(docs), id, filedOn)
    {
      if id in docs.assessments && docs.assessments[id].status == Appealable
        && filedOn <= docs.assessments[id].appealDeadline {
        var a, n := docs.assessments[id], docs.counter + 1;
        docs := docs.(counter := n);
        docs := docs.(appeals := docs.appeals[n := Appeal(id, a.objection, a.amount, Awaited)]);
        docs := docs.(assessments := docs.assessments[id := a.(status := UnderAppeal, appeal := Some(n))]);
      }
    }

    method RecordTatDecision(p: nat, decision: Decision, varied: int)
      modifies this
      ensures docs == TatDecision(old(docs), p, decision, varied)
    {
      if p !in docs.appeals || docs.appeals[p].decision != Awaited || decision == Awaited
         || docs.appeals[p].assessment !in docs.assessments {
        return;
      }
      var ap := docs.appeals[p];
      var a := docs.assessments[ap.assessment];
      if decision == Varied {
        if varied < 0 {
          return;
        }
        a := a.(amount := varied);
      } else if decision == Annulled {
        a := a.(amount := Admitted(docs, ap.objection));
      }
      docs := docs.(appeals := docs.appeals[p := ap.(decision := decision)]);
      docs := docs.(assessments := docs.assessments[ap.assessment := a.(status := Final)]);
    }

    method Demand(id: nat, today: int) returns (due: Option<int>)
      modifies this
      ensures (docs, due) == DemandPayment(old(docs), id, today)
    {
      due := None;
      if id !in docs.assessments || docs.assessments[id].status == StatuteBarred {
        return;
      }
      var a := docs.assessments[id];
      if Barred(a, today) {
        docs := docs.(assessments := docs.assessments[id := a.(status := StatuteBarred)]);
      } else if a.status == Final {
        due := Some(a.amount);
      }
    }

    method DecideObjection(o: nat, outcome: Outcome, decidedOn: int, revised: int) returns (ok: bool)
      modifies this
      ensures docs == Decide(old(docs), o, outcome, decidedOn, revised)
      ensures ok == Decidable(old(docs), o, outcome, decidedOn, revised)
    {
      if o !in docs.objections || docs.objections[o].outcome != Pending || decidedOn > docs.objections[o].deadline
         || (outcome != Upheld && outcome != PartiallyUpheld && outcome != Rejected) {
        return false;
      }
      var obj := docs.objections[o];
      if obj.assessment !in docs.assessments {
        return false;
      }
      var a := docs.assessments[obj.assessment];
      if outcome == PartiallyUpheld {
        if revised < 0 || revised >= a.amount {
          return false;
        }
        a := a.(amount := revised);
      } else if outcome == Upheld {
        a := a.(amount := obj.admitted);
      }
      obj := obj.(outcome := outcome);
      if outcome == Rejected {
        a := a.(status := Appealable, appealDeadline := decidedOn + APPEAL_WINDOW, appeal := None);
      } else {
        a := a.(status := Final);
      }
      docs := docs.(objections := docs.objections[o := obj]);
      docs := docs.(assessments := docs.assessments[obj.assessment := a]);
      return true;
    }

    /** One assessment advanced by its clocks. */
    method Advance(id: nat, today: int)
      requires id in docs.assessments
      modifies this
      ensures docs == TickOne(old(docs), id, today)
    {
      var a := docs.assessments[id];
      if a.status != StatuteBarred && Barred(a, today) {
        docs := docs.(assessments := docs.assessments[id := a.(status := StatuteBarred)]);
        return;
      }
      if a.status == Appealable {
        if today > a.appealDeadline {
          docs := docs.(assessments := docs.assessments[id := a.(status := Final, lapsedOn := Some(today))]);
        }
        return;
      }
      if a.status == Open {
        if today > a.servedOn + OBJECTION_WINDOW {
          docs := docs.(assessments := docs.assessments[id := a.(status := Final, lapsedOn := Some(today))]);
        }
      } else if a.status == Objected && a.objection.Some? && a.objection.value in docs.objections {
        var o := a.objection.value;
        var obj := docs.objections[o];
        if obj.outcome == Pending && today > obj.deadline {
          var n := docs.counter + 1;
          a := a.(amount := obj.admitted, status := Final);
          docs := docs.(referrals := docs.referrals[n := Referral(id, o)], counter := n);
          docs := docs.(objections := docs.objections[o := obj.(outcome := DeemedUpheld)]);
          docs := docs.(assessments := docs.assessments[id := a]);
        }
      }
    }

    /** The sweep visits every stored assessment once, in the order the store yields them, and leaves none overdue. */
    method Sweep(today: int) returns (ids: seq<nat>)
      modifies this
      ensures docs == Tick(old(docs), ids, today)
      ensures forall id :: id in ids <==> id in old(docs).assessments
      ensures forall i, j :: 0 <= i < j < |ids| ==> ids[i] != ids[j]
      ensures docs.assessments.Keys == old(docs).assessments.Keys
      ensures forall id :: id in docs.assessments ==> TickOne(docs, id, today) == docs
    {
      ids := [];
      var todo := docs.assessments.Keys;
      while todo != {}
        invariant todo <= docs.assessments.Keys == old(docs).assessments.Keys
        invariant docs == Tick(old(docs), ids, today)
        invariant forall id :: id in ids <==> id in old(docs).assessments && id !in todo
        invariant forall i, j :: 0 <= i < j < |ids| ==> ids[i] != ids[j]
        invariant forall id :: id in ids ==> TickOne(docs, id, today) == docs
        decreases |todo|
      {
        var id :| id in todo;
        assert (ids + [id])[..|ids|] == ids;
        TickKeepsSettled(docs, ids, id, today);
        Advance(id, today);
        ids := ids + [id];
        todo := todo - {id};
      }
    }
  }

  /** What a sweep has advanced stays so: a second visit to it changes nothing. */
  lemma TickSettles(d: Docs, id: nat, today: int)
    ensures TickOne(TickOne(d, id, today), id, today) == TickOne(d, id, today)
    ensures TickOne(d, id, today).assessments.Keys == d.assessments.Keys
  {
  }

  /** Some clock of the assessment has run out. */
  predicate Overdue(a: Assessment, objections: map<nat, Objection>, today: int) {
    || (a.status != StatuteBarred && Barred(a, today))
    || (a.status == Appealable && today > a.appealDeadline)
    || (a.status == Open && today > a.servedOn + OBJECTION_WINDOW)
    || (a.status == Objected && a.objection.Some? && a.objection.value in objections
        && objections[a.objection.value].outcome == Pending && today > objections[a.objection.value].deadline)
  }

  lemma TickChangesOverdue(d: Docs, id: nat, today: int)
    ensures TickOne(d, id, today) == d <==> (id in d.assessments ==> !Overdue(d.assessments[id], d.objections, today))
  {
  }

  /** A tick of one assessment decides at most an objection that was pending, and leaves other assessments alone. */
  lemma TickLeavesOthers(d: Docs, other: nat, today: int)
    ensures var d' := TickOne(d, other, today);
      && (forall id :: id != other && id in d.assessments ==>
            id in d'.assessments && d'.assessments[id] == d.assessments[id])
      && (forall id :: id in d'.assessments ==> id in d.assessments)
      && (forall o :: o in d'.objections ==>
            && o in d.objections && d'.objections[o].deadline == d.objections[o].deadline
            && (d'.objections[o].outcome == Pending ==> d.objections[o].outcome == Pending))
  {
  }

  lemma TickOthersSettled(d: Docs, id: nat, other: nat, today: int)
    requires TickOne(d, id, today) == d && id != other
    ensures TickOne(TickOne(d, other, today), id, today) == TickOne(d, other, today)
  {
    hide TickOne;
    TickChangesOverdue(d, id, today);
    TickChangesOverdue(TickOne(d, other, today), id, today);
    TickLeavesOthers(d, other, today);
  }

  lemma TickKeepsSettled(d: Docs, ids: seq<nat>, next: nat, today: int)
    requires forall id :: id in ids ==> TickOne(d, id, today) == d
    ensures var d' := TickOne(d, next, today);
      && d'.assessments.Keys == d.assessments.Keys && TickOne(d', next, today) == d'
      && forall id :: id in ids ==> TickOne(d', id, today) == d'
  {
    TickSettles(d, next, today);
    forall id | id in ids
      ensures TickOne(TickOne(d, next, today), id, today) == TickOne(d, next, today)
    {
      if id != next {
        TickOthersSettled(d, id, next, today);
      }
    }
  }

  // ----- Histories -----

  datatype Event =
    | Issued(amount: int, servedOn: int, limitation: int, known: bool)
    | Filed(id: nat, stated: bool, admitted: int, paid: int, day: int)
    | ObjectionDecided(o: nat, outcome: Outcome, day: int, revised: int)
    | Appealed(id: nat, day: int)
    | TatDecided(p: nat, decision: Decision, varied: int)
    | Demanded(id: nat, day: int)
    | Ticked(ids: seq<nat>, day: int)
    | Restarted(counter: nat)

  /** A restart seeds the counter past every stored number. */
  ghost predicate Seeds(d: Docs, counter: nat) {
    && (forall n :: n in d.assessments ==> n <= counter) && (forall n :: n in d.objections ==> n <= counter)
    && (forall n :: n in d.appeals ==> n <= counter) && (forall n :: n in d.referrals ==> n <= counter)
  }

  ghost predicate Steps(d: Docs, ev: Event, d': Docs) {
    match ev
    case Issued(amount, servedOn, limitation, known) => d' == Issue(d, amount, servedOn, limitation, known)
    case Filed(id, stated, admitted, paid, day) => d' == Object(d, id, stated, admitted, paid, day)
    case ObjectionDecided(o, outcome, day, revised) => d' == Decide(d, o, outcome, day, revised)
    case Appealed(id, day) => d' == FileAppeal(d, id, day)
    case TatDecided(p, decision, varied) => d' == TatDecision(d, p, decision, varied)
    case Demanded(id, day) => d' == DemandPayment(d, id, day).0
    case Ticked(ids, day) => d' == Tick(d, ids, day)
    case Restarted(counter) => Seeds(d, counter) && d' == d.(counter := counter)
  }

  ghost predicate Reaches(evs: seq<Event>, d: Docs)
    decreases |evs|
  {
    if evs == [] then d == EMPTY_DOCS
    else
      var front, last := evs[..|evs| - 1], evs[|evs| - 1];
      exists before :: Reaches(front, before) && Steps(before, last, d)
  }
}
