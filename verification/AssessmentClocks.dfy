/** The statutory clocks of an assessment (services/filings/app/assessment.py:32-34,134-367): 30 days to object, 90
    days to decide, 30 days to appeal, each to the day, and what a demand answers. */
module AssessmentClocks {
  import opened Options
  import opened Assessments

  predicate Admissible(d: Docs, id: nat, stated: bool, admitted: int, paid: int) {
    id in d.assessments && d.assessments[id].status == Open && stated
    && 0 <= admitted <= d.assessments[id].amount && paid <= admitted
  }

  /** An admissible objection is accepted up to 30 days after service and not later. It then waits, at the amount
      assessed, for a decision. */
  lemma ObjectionWindow(d: Docs, id: nat, stated: bool, admitted: int, paid: int, day: int)
    requires id in d.assessments
    ensures var d' := Object(d, id, stated, admitted, paid, day);
      && (d' != d <==> Admissible(d, id, stated, admitted, paid) && day <= d.assessments[id].servedOn + 30)
      && (d' != d ==>
            && id in d'.assessments && d'.assessments[id].status == Objected
            && d'.assessments[id].objection == Some(d'.counter) && d'.counter in d'.objections
            && d'.objections[d'.counter].admitted == admitted && d'.objections[d'.counter].outcome == Pending
            && d'.assessments[id].amount == d.assessments[id].amount)
  {
  }

  /** A decision on an objection filed on `day` is accepted up to 90 days later and not afterwards. */
  lemma DecisionWindow(d: Docs, id: nat, admitted: int, paid: int, day: int, outcome: Outcome, decided: int)
    requires Admissible(d, id, true, admitted, paid) && day <= d.assessments[id].servedOn + 30
    requires outcome == Upheld || outcome == Rejected
    ensures var d1 := Object(d, id, true, admitted, paid, day);
      Decide(d1, d1.counter, outcome, decided, 0) != d1 <==> decided <= day + 90
  {
    var d1 := Object(d, id, true, admitted, paid, day);
    var d2 := Decide(d1, d1.counter, outcome, decided, 0);
    if decided <= day + 90 {
      assert d2.objections[d1.counter].outcome == outcome;
    }
  }

  /** After 90 days without a decision the objection is deemed upheld: the amount is the admitted one, final, and the
      case is referred. */
  lemma DecisionLapses(d: Docs, id: nat, admitted: int, paid: int, day: int, today: int)
    requires Admissible(d, id, true, admitted, paid) && day <= d.assessments[id].servedOn + 30
    requires today <= d.assessments[id].limitation
    ensures var d1 := Object(d, id, true, admitted, paid, day);
      var d2 := TickOne(d1, id, today);
      if today <= day + 90 then d2 == d1
      else
        && id in d2.assessments && d2.assessments[id].status == Final && d2.assessments[id].amount == admitted
        && d1.counter in d2.objections && d2.objections[d1.counter].outcome == DeemedUpheld
        && d2.counter in d2.referrals && d2.referrals[d2.counter] == Referral(id, d1.counter)
  {
  }

  /** An appeal against a rejection is accepted up to 30 days after it and not afterwards; then the assessment becomes
      final at its amount. */
  lemma AppealWindow(d: Docs, o: nat, decided: int, day: int)
    requires Decide(d, o, Rejected, decided, 0) != d
    ensures var d1, id := Decide(d, o, Rejected, decided, 0), d.objections[o].assessment;
      && id in d1.assessments && d1.assessments[id].status == Appealable
      && d1.assessments[id].amount == d.assessments[id].amount
      && (FileAppeal(d1, id, day) != d1 <==> day <= decided + 30)
      && (day <= d1.assessments[id].limitation ==>
            if day <= decided + 30 then TickOne(d1, id, day) == d1
            else TickOne(d1, id, day).assessments[id]
                   == d1.assessments[id].(status := Final, lapsedOn := Some(day)))
  {
    var d1, id := Decide(d, o, Rejected, decided, 0), d.objections[o].assessment;
    if day <= decided + 30 {
      assert FileAppeal(d1, id, day).assessments[id].status == UnderAppeal;
    }
  }

  /** An assessment nobody objects to becomes final when its 30 days have passed, and not before. */
  lemma ObjectionLapses(d: Docs, id: nat, today: int)
    requires id in d.assessments && d.assessments[id].status == Open && today <= d.assessments[id].limitation
    ensures if today <= d.assessments[id].servedOn + 30 then TickOne(d, id, today) == d
            else TickOne(d, id, today).assessments[id]
                   == d.assessments[id].(status := Final, lapsedOn := Some(today))
  {
  }

  /** A demand answers the current amount of a final assessment within its limitation period, and nothing otherwise;
      past the period it marks the assessment. */
  lemma DemandAnswers(d: Docs, id: nat, today: int)
    requires id in d.assessments
    ensures var a, (d', due) := d.assessments[id], DemandPayment(d, id, today);
      && (due.Some? <==> a.status == Final && today <= a.limitation)
      && (due.Some? ==> due.value == a.amount && d' == d)
      && (a.status != StatuteBarred && today > a.limitation ==>
            id in d'.assessments && d'.assessments[id] == a.(status := StatuteBarred))
      && (today <= a.limitation ==> d' == d)
  {
  }
}
