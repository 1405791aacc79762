/** Merging a rule pack's decisions (packages/shared/rulepack/rulepack.go:45-61,292-350): matching rules are applied in
    ascending precedence and file order, each overwriting the decision fields it defines. */
module RuleMerge {
  import opened Options

  datatype Value = Number(n: real) | Text(s: string) | Flag(b: bool)

  datatype Rule = Rule(id: string, precedence: Option<int>, when: map<string, Value>, effects: map<string, Value>)

  datatype Scored = Scored(prec: int, idx: nat)

  /** The test of one when-clause against the context at hand. */
  type Test = (string, Value) -> bool

  const PRECEDENCE: string := "precedence"

  function Truncate(r: real): int {
    if r >= 0.0 then r.Floor else -((-r).Floor)
  }

  function Precedence(r: Rule): int {
    if r.precedence.Some? then r.precedence.value
    else if PRECEDENCE in r.effects && r.effects[PRECEDENCE].Number? then Truncate(r.effects[PRECEDENCE].n)
    else 0
  }

  /** A rule's own precedence comes before the one among its effects, which is truncated towards zero; a rule that has
      neither has precedence 0. */
  lemma PrecedenceOf(r: Rule)
    ensures r.precedence.Some? ==> Precedence(r) == r.precedence.value
    ensures r.precedence == None && "precedence" in r.effects && r.effects["precedence"].Number? ==>
      var n, p := r.effects["precedence"].n, Precedence(r) as real;
      if n >= 0.0 then p <= n < p + 1.0 else p - 1.0 < n <= p
    ensures r.precedence == None && ("precedence" !in r.effects || !r.effects["precedence"].Number?) ==>
      Precedence(r) == 0
  {
  }

  ghost predicate Matches(r: Rule, holds: Test) {
    forall k :: k in r.when ==> holds(k, r.when[k])
  }

  /** The clauses are tried in whatever order the map yields them, up to the first that fails. */
  method Match(r: Rule, holds: Test) returns (ok: bool)
    ensures ok <==> Matches(r, holds)
  {
    var keys := r.when.Keys;
    while keys != {}
      invariant keys <= r.when.Keys && forall k :: k in r.when && k !in keys ==> holds(k, r.when[k])
      decreases |keys|
    {
      var k :| k in keys;
      if !holds(k, r.when[k]) {
        return false;
      }
      keys := keys - {k};
    }
    return true;
  }

  // ----- Ordering -----

  predicate Below(a: Scored, b: Scored) {
    a.prec < b.prec || (a.prec == b.prec && a.idx < b.idx)
  }

  predicate Ascending(s: seq<Scored>) {
    forall i, j :: 0 <= i < j < |s| ==> Below(s[i], s[j])
  }

  function Insert(s: seq<Scored>, x: Scored): seq<Scored> {
    if s == [] || Below(s[|s| - 1], x) then s + [x] else Insert(s[..|s| - 1], x) + [s[|s| - 1]]
  }

  lemma {:induction false} InsertAscending(s: seq<Scored>, x: Scored)
    requires Ascending(s) && forall i :: 0 <= i < |s| ==> s[i].idx != x.idx
    ensures Ascending(Insert(s, x)) && forall y :: y in Insert(s, x) <==> y in s || y == x
  {
    if s != [] && !Below(s[|s| - 1], x) {
      var front, last := s[..|s| - 1], s[|s| - 1];
      InsertAscending(front, x);
      assert s == front + [last];
      forall i | 0 <= i < |Insert(front, x)|
        ensures Below(Insert(front, x)[i], last)
      {
        assert Insert(front, x)[i] in Insert(front, x);
      }
    }
  }

  // ----- Evaluation -----

  /** The matching rules in order of application. */
  ghost function Order(rules: seq<Rule>, holds: Test): seq<Scored> {
    if rules == [] then []
    else
      var n := |rules| - 1;
      var before := Order(rules[..n], holds);
      if Matches(rules[n], holds) then Insert(before, Scored(Precedence(rules[n]), n)) else before
  }

  lemma {:induction false} OrderIs(rules: seq<Rule>, holds: Test)
    ensures Ascending(Order(rules, holds))
    ensures forall y :: y in Order(rules, holds) <==>
      y.idx < |rules| && Matches(rules[y.idx], holds) && y.prec == Precedence(rules[y.idx])
  {
    if rules != [] {
      var n := |rules| - 1;
      var before := Order(rules[..n], holds);
      OrderIs(rules[..n], holds);
      if Matches(rules[n], holds) {
        forall i | 0 <= i < |before|
          ensures before[i].idx != n
        {
          assert before[i] in before;
        }
        InsertAscending(before, Scored(Precedence(rules[n]), n));
      }
    }
  }

  /** What a rule contributes. */
  function Payload(r: Rule): map<string, Value> {
    r.effects - {PRECEDENCE}
  }

  /** The decision after a sequence of applications. */
  function Merged(rules: seq<Rule>, order: seq<Scored>): map<string, Value>
    requires forall i :: 0 <= i < |order| ==> order[i].idx < |rules|
  {
    if order == [] then map[] else Merged(rules, order[..|order| - 1]) + Payload(rules[order[|order| - 1].idx])
  }

  /** The decision once all keys but those in `todo` have been copied. */
  function Copied(attrs: map<string, Value>, r: Rule, todo: set<string>): map<string, Value> {
    attrs + (Payload(r) - todo)
  }

  lemma CopyOne(attrs: map<string, Value>, r: Rule, todo: set<string>, k: string)
    requires k in todo && k in r.effects
    ensures Copied(attrs, r, todo - {k})
      == if k == PRECEDENCE then Copied(attrs, r, todo) else Copied(attrs, r, todo)[k := r.effects[k]]
  {
  }

  lemma CopyEnds(attrs: map<string, Value>, r: Rule)
    ensures Copied(attrs, r, r.effects.Keys) == attrs && Copied(attrs, r, {}) == attrs + Payload(r)
  {
    assert Payload(r) - r.effects.Keys == map[] && Payload(r) - {} == Payload(r);
  }

  method CopyKey(out: map<string, Value>, r: Rule, k: string) returns (out': map<string, Value>)
    requires k in r.effects
    ensures out' == if k == PRECEDENCE then out else out[k := r.effects[k]]
  {
    out' := if k == PRECEDENCE then out else out[k := r.effects[k]];
  }

  /** Overwriting key by key, in any order, merges the maps. */
  method Overwrite(attrs: map<string, Value>, r: Rule) returns (out: map<string, Value>)
    ensures out == attrs + Payload(r)
  {
    out := attrs;
    var todo := r.effects.Keys;
    CopyEnds(attrs, r);
    ghost var goal := Copied(attrs, r, todo);
    while todo != {}
      invariant todo <= r.effects.Keys && out == goal == Copied(attrs, r, todo)
      decreases |todo|
    {
      var k :| k in todo;
      CopyOne(attrs, r, todo, k);
      goal := Copied(attrs, r, todo - {k});
      out := CopyKey(out, r, k);
      todo := todo - {k};
    }
  }

  method Evaluate(rules: seq<Rule>, holds: Test) returns (attrs: map<string, Value>, trace: seq<bool>)
    ensures |trace| == |rules| && forall i :: 0 <= i < |rules| ==> (trace[i] <==> Matches(rules[i], holds))
    ensures forall k :: k in attrs <==> exists i: nat :: Defines(rules, holds, k, i)
    ensures forall k, i: nat :: Wins(rules, holds, k, i) ==> k in attrs && attrs[k] == rules[i].effects[k]
  {
    var order;
    order, trace := Select(rules, holds);
    OrderedIndices(rules, holds);
    attrs := Apply(rules, order);
    OrderDecides(rules, holds);
  }

  method Apply(rules: seq<Rule>, order: seq<Scored>) returns (attrs: map<string, Value>)
    requires forall i :: 0 <= i < |order| ==> order[i].idx < |rules|
    ensures attrs == Merged(rules, order)
  {
    attrs := map[];
    var i := 0;
    while i < |order|
      invariant 0 <= i <= |order| && attrs == Merged(rules, order[..i])
    {
      assert order[..i + 1][..i] == order[..i];
      attrs := Overwrite(attrs, rules[order[i].idx]);
      i := i + 1;
    }
    assert order[..i] == order;
  }

  /** Scoring and sorting; the sort keys are distinct, so the sorted order is this one. */
  method Select(rules: seq<Rule>, holds: Test) returns (order: seq<Scored>, trace: seq<bool>)
    ensures order == Order(rules, holds)
    ensures |trace| == |rules| && forall i :: 0 <= i < |rules| ==> (trace[i] <==> Matches(rules[i], holds))
  {
    order, trace := [], [];
    var i := 0;
    while i < |rules|
      invariant 0 <= i <= |rules| && order == Order(rules[..i], holds)
      invariant |trace| == i && forall j :: 0 <= j < i ==> (trace[j] <==> Matches(rules[j], holds))
    {
      var ok := Match(rules[i], holds);
      assert rules[..i + 1][..i] == rules[..i];
      trace := trace + [ok];
      if ok {
        order := Insert(order, Scored(Precedence(rules[i]), i));
      }
      i := i + 1;
    }
    assert rules[..i] == rules;
  }

  // ----- Who decides a field -----

  ghost predicate Defines(rules: seq<Rule>, holds: Test, k: string, i: nat) {
    i < |rules| && Matches(rules[i], holds) && k in rules[i].effects && k != "precedence"
  }

  function ScoreOf(rules: seq<Rule>, i: nat): Scored
    requires i < |rules|
  {
    Scored(Precedence(rules[i]), i)
  }

  /** The matching rule with the greatest precedence and file position that defines the field. */
  ghost predicate Wins(rules: seq<Rule>, holds: Test, k: string, i: nat) {
    && Defines(rules, holds, k, i)
    && forall j: nat :: Defines(rules, holds, k, j) && j != i ==>
         Precedence(rules[j]) < Precedence(rules[i]) || (Precedence(rules[j]) == Precedence(rules[i]) && j < i)
  }

  /** The last application that defines a field decides it. */
  lemma {:induction false} LastDecides(rules: seq<Rule>, order: seq<Scored>, k: string, at: nat)
    requires forall i :: 0 <= i < |order| ==> order[i].idx < |rules|
    requires at < |order| && k in Payload(rules[order[at].idx])
    requires forall i :: at < i < |order| ==> k !in Payload(rules[order[i].idx])
    ensures k in Merged(rules, order) && Merged(rules, order)[k] == rules[order[at].idx].effects[k]
  {
    if at < |order| - 1 {
      LastDecides(rules, order[..|order| - 1], k, at);
    }
  }

  lemma {:induction false} MergedFields(rules: seq<Rule>, order: seq<Scored>, k: string)
    requires forall i :: 0 <= i < |order| ==> order[i].idx < |rules|
    ensures k in Merged(rules, order) <==> exists i :: 0 <= i < |order| && k in Payload(rules[order[i].idx])
  {
    if order != [] {
      var n := |order| - 1;
      MergedFields(rules, order[..n], k);
      assert order[n].idx < |rules|;
    }
  }

  lemma OrderedIndices(rules: seq<Rule>, holds: Test)
    ensures forall i :: 0 <= i < |Order(rules, holds)| ==> Order(rules, holds)[i].idx < |rules|
  {
    OrderIs(rules, holds);
    assert forall i :: 0 <= i < |Order(rules, holds)| ==> Order(rules, holds)[i] in Order(rules, holds);
  }

  lemma FieldsDefined(rules: seq<Rule>, holds: Test, k: string)
    requires forall i :: 0 <= i < |Order(rules, holds)| ==> Order(rules, holds)[i].idx < |rules|
    ensures k in Merged(rules, Order(rules, holds)) <==> exists i: nat :: Defines(rules, holds, k, i)
  {
    var order := Order(rules, holds);
    OrderIs(rules, holds);
    MergedFields(rules, order, k);
    if k in Merged(rules, order) {
      var i :| 0 <= i < |order| && k in Payload(rules[order[i].idx]);
      assert order[i] in order;
      assert Defines(rules, holds, k, order[i].idx);
    }
    if exists i: nat :: Defines(rules, holds, k, i) {
      var i :| Defines(rules, holds, k, i);
      assert ScoreOf(rules, i) in order;
      var at :| 0 <= at < |order| && order[at] == ScoreOf(rules, i);
      assert k in Payload(rules[order[at].idx]);
    }
  }

  lemma WinnerApplies(rules: seq<Rule>, holds: Test, k: string, i: nat)
    requires forall i :: 0 <= i < |Order(rules, holds)| ==> Order(rules, holds)[i].idx < |rules|
    requires Wins(rules, holds, k, i)
    ensures k in Merged(rules, Order(rules, holds)) && Merged(rules, Order(rules, holds))[k] == rules[i].effects[k]
  {
    var order := Order(rules, holds);
    OrderIs(rules, holds);
    assert ScoreOf(rules, i) in order;
    var at :| 0 <= at < |order| && order[at] == ScoreOf(rules, i);
    forall j | at < j < |order|
      ensures k !in Payload(rules[order[j].idx])
    {
      assert order[j] in order && Below(order[at], order[j]) && order[j] == ScoreOf(rules, order[j].idx);
      if k in Payload(rules[order[j].idx]) {
        assert Defines(rules, holds, k, order[j].idx);
      }
    }
    LastDecides(rules, order, k, at);
  }

  lemma OrderDecides(rules: seq<Rule>, holds: Test)
    requires forall i :: 0 <= i < |Order(rules, holds)| ==> Order(rules, holds)[i].idx < |rules|
    ensures forall k :: k in Merged(rules, Order(rules, holds)) <==> exists i: nat :: Defines(rules, holds, k, i)
    ensures forall k, i: nat :: Wins(rules, holds, k, i) ==>
      k in Merged(rules, Order(rules, holds)) && Merged(rules, Order(rules, holds))[k] == rules[i].effects[k]
  {
    forall k
      ensures k in Merged(rules, Order(rules, holds)) <==> exists i: nat :: Defines(rules, holds, k, i)
    {
      FieldsDefined(rules, holds, k);
    }
    forall k, i: nat | Wins(rules, holds, k, i)
      ensures k in Merged(rules, Order(rules, holds)) && Merged(rules, Order(rules, holds))[k] == rules[i].effects[k]
    {
      WinnerApplies(rules, holds, k, i);
    }
  }

  /** Some matching rule defines a field if and only if exactly one wins it, and with equal precedences the winner is
      the last of them in the file. */
  lemma {:induction false} WinnerExists(rules: seq<Rule>, holds: Test, k: string, i: nat) returns (w: nat)
    requires Defines(rules, holds, k, i)
    ensures Wins(rules, holds, k, w) && forall j: nat :: Wins(rules, holds, k, j) ==> j == w
    ensures (forall a, b :: 0 <= a < |rules| && 0 <= b < |rules| ==> Precedence(rules[a]) == Precedence(rules[b])) ==>
      forall j: nat :: Defines(rules, holds, k, j) ==> j <= w
  {
    w := Best(rules, holds, k, i, |rules|);
  }

  /** The best candidate among the first n rules and i. */
  lemma {:induction false} Best(rules: seq<Rule>, holds: Test, k: string, i: nat, n: nat) returns (w: nat)
    requires Defines(rules, holds, k, i) && n <= |rules|
    ensures Defines(rules, holds, k, w) && (w == i || !Below(ScoreOf(rules, w), ScoreOf(rules, i)))
    ensures forall j: nat :: Defines(rules, holds, k, j) && j < n && j != w ==>
      Below(ScoreOf(rules, j), ScoreOf(rules, w))
    decreases n
  {
    if n == 0 {
      w := i;
    } else {
      w := Best(rules, holds, k, i, n - 1);
      if Defines(rules, holds, k, n - 1) && Below(ScoreOf(rules, w), ScoreOf(rules, n - 1)) {
        w := n - 1;
      }
    }
  }
}
