/** The ownership chain part of the allocation (services/etr/app/engine.py:188-240): every share goes to the entity
    itself, to its first partially-owned parent and the ultimate parent, or nowhere when it has no parent. */
module IirChains {
  import opened Options
  import opened TopUpTax
  import opened IirAllocation

  predicate HasParent(g: Group, e: Entity) {
    e.parent != "" && e.parent in g
  }

  /** Entities under their ids, owners along a rank, shares of ownership within the whole. */
  ghost predicate Sound(g: Group, rank: string -> nat) {
    && (forall id :: id in g ==> g[id].id == id && 0 <= g[id].ownership <= 10000)
    && (forall id :: id in g && HasParent(g, g[id]) ==> rank(g[id].parent) < rank(id))
  }

  ghost predicate Member(g: Group, e: Entity) {
    e.id in g && g[e.id] == e
  }

  /** The parents above `e`, nearest first. */
  ghost function Chain(g: Group, e: Entity, rank: string -> nat): seq<Entity>
    requires Sound(g, rank) && Member(g, e)
    decreases rank(e.id)
  {
    if HasParent(g, e) then [g[e.parent]] + Chain(g, g[e.parent], rank) else []
  }

  method Parents(g: Group, e: Entity, ghost rank: string -> nat) returns (chain: seq<Entity>)
    requires Sound(g, rank) && Member(g, e)
    ensures chain == Chain(g, e, rank)
  {
    chain := [];
    var cur := e;
    while HasParent(g, cur)
      invariant Member(g, cur) && chain + Chain(g, cur, rank) == Chain(g, e, rank)
      decreases rank(cur.id)
    {
      var parent := g[cur.parent];
      assert chain + ([parent] + Chain(g, parent, rank)) == chain + [parent] + Chain(g, parent, rank);
      chain := chain + [parent];
      cur := parent;
    }
  }

  lemma {:induction false} ChainMembers(g: Group, e: Entity, rank: string -> nat)
    requires Sound(g, rank) && Member(g, e)
    ensures forall i :: 0 <= i < |Chain(g, e, rank)| ==>
      Member(g, Chain(g, e, rank)[i]) && rank(Chain(g, e, rank)[i].id) < rank(e.id)
    decreases rank(e.id)
  {
    if HasParent(g, e) {
      ChainMembers(g, g[e.parent], rank);
    }
  }

  /** Where the first partially-owned parent stands, or the length. */
  function PopeAt(chain: seq<Entity>): (i: nat)
    ensures i <= |chain| && (i < |chain| ==> chain[i].isPope) && forall j :: 0 <= j < i ==> !chain[j].isPope
  {
    if chain == [] || chain[0].isPope then 0 else 1 + PopeAt(chain[1..])
  }

  function Effective(path: seq<Entity>): int {
    if path == [] then 10000 else Effective(path[..|path| - 1]) * path[|path| - 1].ownership / 10000
  }

  /** Walking up from `e` until the target. */
  method Walk(g: Group, e: Entity, target: Entity, ghost rank: string -> nat, ghost at: nat) returns (path: seq<Entity>)
    requires Sound(g, rank) && Member(g, e) && at < |Chain(g, e, rank)| && Chain(g, e, rank)[at] == target
    ensures path == [e] + Chain(g, e, rank)[..at]
  {
    path := [];
    var walk := e;
    ghost var n := 0;
    ghost var line := [e] + Chain(g, e, rank);
    while walk != target && HasParent(g, walk)
      invariant Member(g, walk) && 0 <= n <= at + 1 && walk == line[n] && path == line[..n]
      invariant [walk] + Chain(g, walk, rank) == line[n..]
      decreases rank(walk.id)
    {
      ChainMembers(g, walk, rank);
      assert n <= at by {
        assert line[at + 1] == target;
      }
      path := path + [walk];
      assert line[n..][1..] == line[n + 1..];
      walk := g[walk.parent];
      n := n + 1;
    }
    ChainMembers(g, walk, rank);
    WalkStops(line, n, walk, Chain(g, walk, rank), rank, at);
    assert line[..at + 1] == [e] + Chain(g, e, rank)[..at];
  }

  /** The target stands at one place only, and before it every member of the line has a parent. */
  lemma WalkStops(line: seq<Entity>, n: nat, walk: Entity, rest: seq<Entity>, rank: string -> nat, at: nat)
    requires n <= at + 1 < |line| && line[n..] == [walk] + rest
    requires forall i :: 0 <= i < |rest| ==> rank(rest[i].id) < rank(walk.id)
    requires walk == line[at + 1] || rest == []
    ensures n == at + 1
  {
    assert |line[n..]| == 1 + |rest|;
    assert forall i :: 0 <= i < |rest| ==> rest[i] == line[n..][i + 1];
    assert forall i :: n < i < |line| ==> line[i] == line[n..][i - n];
  }

  // ----- One entity's share -----

  ghost function Allocate(g: Group, e: Entity, share: int, rank: string -> nat): seq<Allocation>
    requires Sound(g, rank) && Member(g, e)
  {
    var chain := Chain(g, e, rank);
    var at := PopeAt(chain);
    if e.isPope then [Allocation(e.id, "iir_pope", share, 10000)]
    else if chain == [] then []
    else if at == |chain| then
      [Allocation(chain[|chain| - 1].id, "iir_upe", share, Effective([e] + chain[..|chain| - 1]))]
    else
      var eff := Effective([e] + chain[..at]);
      var amount := share * eff / 10000;
      [Allocation(chain[at].id, "iir_pope", amount, eff)]
      + if share - amount > 0 then [Allocation(chain[|chain| - 1].id, "iir_upe", share - amount, 10000)] else []
  }

  /** The product loop. */
  method Multiply(path: seq<Entity>) returns (eff: int)
    ensures eff == Effective(path)
  {
    eff := 10000;
    var i := 0;
    while i < |path|
      invariant 0 <= i <= |path| && eff == Effective(path[..i])
    {
      assert path[..i + 1][..i] == path[..i];
      eff := eff * path[i].ownership / 10000;
      i := i + 1;
    }
    assert path[..i] == path;
  }

  method AllocateShare(g: Group, e: Entity, share: int, ghost rank: string -> nat) returns (out: seq<Allocation>)
    requires Sound(g, rank) && Member(g, e)
    ensures out == Allocate(g, e, share, rank)
  {
    var chain := Parents(g, e, rank);
    if e.isPope {
      return [Allocation(e.id, "iir_pope", share, 10000)];
    }
    if chain == [] {
      return [];
    }
    var at := PopeAt(chain);
    var pope := at < |chain|;
    if !pope {
      at := |chain| - 1;
    }
    var path := Walk(g, e, chain[at], rank, at);
    var eff := Multiply(path);
    var amount := if pope then share * eff / 10000 else share;
    out := [Allocation(chain[at].id, if pope then "iir_pope" else "iir_upe", amount, eff)];
    if pope && share - amount > 0 {
      out := out + [Allocation(chain[|chain| - 1].id, "iir_upe", share - amount, 10000)];
    }
  }

  function Amounts(out: seq<Allocation>): int {
    if out == [] then 0 else Amounts(out[..|out| - 1]) + out[|out| - 1].amount
  }

  lemma {:induction false} AmountsConcat(a: seq<Allocation>, b: seq<Allocation>)
    ensures Amounts(a + b) == Amounts(a) + Amounts(b)
    decreases |b|
  {
    if b == [] {
      assert a + b == a;
    } else {
      assert (a + b)[..|a + b| - 1] == a + b[..|b| - 1];
      AmountsConcat(a, b[..|b| - 1]);
    }
  }

  predicate HasTarget(g: Group, e: Entity) {
    e.isPope || HasParent(g, e)
  }

  lemma PartOf(share: int, eff: int)
    requires share >= 0 && 0 <= eff <= 10000
    ensures 0 <= share * eff / 10000 <= share
  {
    assert share * eff <= share * 10000;
  }

  lemma {:induction false} EffectiveBounds(path: seq<Entity>)
    requires forall i :: 0 <= i < |path| ==> 0 <= path[i].ownership <= 10000
    ensures 0 <= Effective(path) <= 10000
  {
    if path != [] {
      EffectiveBounds(path[..|path| - 1]);
      PartOf(Effective(path[..|path| - 1]), path[|path| - 1].ownership);
    }
  }

  // ----- Effective ownership -----

  predicate OwnedInPart(path: seq<Entity>) {
    forall i :: 0 <= i < |path| ==> 0 <= path[i].ownership <= 10000
  }

  /** The ownerships multiplied out, and the scale of that product. */
  function Product(path: seq<Entity>): int {
    if path == [] then 1 else path[0].ownership * Product(path[1..])
  }

  function Scale(k: nat): int {
    if k == 0 then 1 else 10000 * Scale(k - 1)
  }

  lemma {:induction false} ScalePositive(k: nat)
    ensures Scale(k) > 0
  {
    if k > 0 {
      ScalePositive(k - 1);
    }
  }

  lemma {:induction false} ProductLast(path: seq<Entity>, last: Entity)
    ensures Product(path + [last]) == Product(path) * last.ownership
  {
    if path == [] {
      assert path + [last] == [last] && [last][1..] == [];
    } else {
      assert (path + [last])[1..] == path[1..] + [last];
      ProductLast(path[1..], last);
      Regroup(path[0].ownership, Product(path[1..]), last.ownership);
    }
  }

  lemma Regroup(a: int, b: int, c: int)
    ensures a * (b * c) == (a * b) * c
  {
  }

  /** One more owner: the product of the scale, rounded down once more. */
  lemma NextLink(e: int, o: int, p: int, t: int, k: nat)
    requires t > 0 && 0 <= o <= 10000 && p - k * t < e * t <= p
    ensures var e' := e * o / 10000;
      p * o - (k + 1) * (10000 * t) < e' * (10000 * t) <= p * o
  {
    var e' := e * o / 10000;
    assert 10000 * e' <= e * o < 10000 * e' + 10000;
    Upper(e', e, o, p, t);
    Lower(e', e, o, p, t, k);
  }

  lemma Grows(x: int, y: int, z: int)
    requires x <= y && z >= 0
    ensures x * z <= y * z
  {
  }

  lemma GrowsStrictly(x: int, y: int, z: int)
    requires x < y && z > 0
    ensures x * z < y * z
  {
  }

  lemma Swap(a: int, b: int, c: int)
    ensures (a * b) * c == (a * c) * b
  {
  }

  lemma Upper(e': int, e: int, o: int, p: int, t: int)
    requires t > 0 && o >= 0 && 10000 * e' <= e * o && e * t <= p
    ensures e' * (10000 * t) <= p * o
  {
    Grows(10000 * e', e * o, t);
    Grows(e * t, p, o);
    Swap(e, o, t);
    Swap(10000, e', t);
  }

  lemma Lower(e': int, e: int, o: int, p: int, t: int, k: nat)
    requires t > 0 && 0 <= o <= 10000 && e * o < 10000 * e' + 10000 && p - k * t < e * t
    ensures p * o - (k + 1) * (10000 * t) < e' * (10000 * t)
  {
    GrowsStrictly(e * o, 10000 * (e' + 1), t);
    Swap(10000, e' + 1, t);
    NextMultiple(e', 10000 * t);
    Swap(e, o, t);
    Grows(p - k * t, e * t, o);
    Spread(p, k * t, o);
    Grows(o, 10000, k * t);
    Swap(k, 10000, t);
    Regroup(k, 10000, t);
    NextMultiple(k, 10000 * t);
  }

  lemma NextMultiple(n: int, x: int)
    ensures (n + 1) * x == n * x + x && x * (n + 1) == n * x + x
  {
  }

  lemma Spread(a: int, b: int, c: int)
    ensures (a - b) * c == a * c - b * c && b * c == c * b
  {
  }

  /** The effective ownership of a line of k members is the product of their ownerships, rounded down at each of them:
      never above it, and less than k units below. */
  lemma {:induction false} EffectiveIsProduct(path: seq<Entity>)
    requires OwnedInPart(path) && path != []
    ensures Product(path) - |path| * Scale(|path| - 1) < Effective(path) * Scale(|path| - 1) <= Product(path)
    ensures |path| == 1 ==> Effective(path) == path[0].ownership
    decreases |path|
  {
    var front, last := path[..|path| - 1], path[|path| - 1];
    assert path == front + [last];
    ProductLast(front, last);
    ScalePositive(|path| - 1);
    if front == [] {
      assert Effective(front) == 10000 && Product(front) == 1;
    } else {
      EffectiveIsProduct(front);
      ScalePositive(|front| - 1);
      NextLink(Effective(front), last.ownership, Product(front), Scale(|front| - 1), |front|);
    }
  }

  /** A longer line never owns more, and full ownership all the way up owns all. */
  lemma {:induction false} EffectiveShrinks(path: seq<Entity>, more: seq<Entity>)
    requires OwnedInPart(path) && OwnedInPart(more)
    ensures 0 <= Effective(path + more) <= Effective(path) <= 10000
    ensures (forall i :: 0 <= i < |path| ==> path[i].ownership == 10000) ==> Effective(path) == 10000
  {
    EffectiveBounds(path);
    if more == [] {
      assert path + more == path;
      FullyOwned(path);
    } else {
      var front, last := more[..|more| - 1], more[|more| - 1];
      EffectiveShrinks(path, front);
      assert (path + more)[..|path + more| - 1] == path + front;
      PartOf(Effective(path + front), last.ownership);
    }
  }

  lemma {:induction false} FullyOwned(path: seq<Entity>)
    ensures (forall i :: 0 <= i < |path| ==> path[i].ownership == 10000) ==> Effective(path) == 10000
  {
    if path != [] {
      FullyOwned(path[..|path| - 1]);
    }
  }

  lemma One(a: Allocation)
    ensures Amounts([a]) == a.amount
  {
    assert [a][..0] == [];
  }

  lemma Two(a: Allocation, b: Allocation)
    ensures Amounts([a] + [b]) == a.amount + b.amount
  {
    One(a);
    One(b);
    AmountsConcat([a], [b]);
  }

  /** An entity that has somewhere to charge has its share charged exactly, in parts between nothing and the whole;
      a partially-owned parent's part and the ultimate parent's remainder make up the share. */
  lemma ShareIsCharged(g: Group, e: Entity, share: int, rank: string -> nat)
    requires Sound(g, rank) && Member(g, e) && share > 0
    ensures var out := Allocate(g, e, share, rank);
      && Amounts(out) == (if HasTarget(g, e) then share else 0)
      && forall i :: 0 <= i < |out| ==> 0 <= out[i].amount <= share && out[i].to in g
  {
    var chain := Chain(g, e, rank);
    var at := PopeAt(chain);
    ChainMembers(g, e, rank);
    if e.isPope {
      One(Allocation(e.id, "iir_pope", share, 10000));
    } else if chain != [] {
      if at == |chain| {
        One(Allocate(g, e, share, rank)[0]);
      } else {
        EffectiveBounds([e] + chain[..at]);
        PartOf(share, Effective([e] + chain[..at]));
        var out := Allocate(g, e, share, rank);
        One(out[0]);
        if |out| == 2 {
          Two(out[0], out[1]);
        }
      }
    }
  }

  // ----- Who is charged -----

  /** The n-th parent up. */
  ghost function Above(g: Group, e: Entity, n: nat): Option<Entity> {
    if n == 0 then Some(e)
    else
      var below := Above(g, e, n - 1);
      if below.Some? && HasParent(g, below.value) then Some(g[below.value.parent]) else None
  }

  lemma {:induction false} AboveStep(g: Group, e: Entity, n: nat)
    requires HasParent(g, e)
    ensures Above(g, e, n + 1) == Above(g, g[e.parent], n)
  {
    if n > 0 {
      AboveStep(g, e, n - 1);
    }
  }

  /** The chain is the parents in order, up to one that has none. */
  lemma {:induction false} ChainIsAbove(g: Group, e: Entity, rank: string -> nat)
    requires Sound(g, rank) && Member(g, e)
    ensures var chain := Chain(g, e, rank);
      && (forall i: nat :: i < |chain| ==> Above(g, e, i + 1) == Some(chain[i]))
      && !HasParent(g, if chain == [] then e else chain[|chain| - 1])
    decreases rank(e.id)
  {
    if HasParent(g, e) {
      var up := g[e.parent];
      ChainIsAbove(g, up, rank);
      forall i: nat | i < |Chain(g, e, rank)|
        ensures Above(g, e, i + 1) == Some(Chain(g, e, rank)[i])
      {
        AboveStep(g, e, i);
      }
    }
  }

  /** `to` is the ultimate parent: above `e`, with no parent of its own. */
  ghost predicate IsTop(g: Group, e: Entity, to: string) {
    exists n: nat :: n > 0 && Above(g, e, n).Some? && Above(g, e, n).value.id == to
      && !HasParent(g, Above(g, e, n).value)
  }

  /** `p` is the nearest partially-owned parent, n steps up. */
  ghost predicate NearestPope(g: Group, e: Entity, n: nat, p: Entity) {
    && n > 0 && Above(g, e, n) == Some(p) && p.isPope
    && forall i: nat :: 0 < i < n ==> Above(g, e, i).Some? && !Above(g, e, i).value.isPope
  }

  /** A partially-owned entity is charged its own share. Else, with no partially-owned parent the ultimate parent is
      charged all of it. */
  lemma WholeShare(g: Group, e: Entity, share: int, rank: string -> nat)
    requires Sound(g, rank) && Member(g, e)
    ensures var out := Allocate(g, e, share, rank);
      && (e.isPope ==> |out| == 1 && out[0].to == e.id && out[0].amount == share && out[0].mechanism == "iir_pope")
      && (!e.isPope && !HasParent(g, e) ==> out == [])
      && (!e.isPope && HasParent(g, e) && (forall n, p :: !NearestPope(g, e, n, p)) ==>
            |out| == 1 && IsTop(g, e, out[0].to) && out[0].amount == share && out[0].mechanism == "iir_upe")
  {
    var chain := Chain(g, e, rank);
    ChainIsAbove(g, e, rank);
    if chain != [] && PopeAt(chain) < |chain| {
      PopeIsNearest(g, e, rank);
    } else if chain != [] {
      assert Above(g, e, |chain|) == Some(chain[|chain| - 1]);
    }
  }

  lemma PopeIsNearest(g: Group, e: Entity, rank: string -> nat)
    requires Sound(g, rank) && Member(g, e) && PopeAt(Chain(g, e, rank)) < |Chain(g, e, rank)|
    ensures var at := PopeAt(Chain(g, e, rank)); NearestPope(g, e, at + 1, Chain(g, e, rank)[at])
  {
    var chain := Chain(g, e, rank);
    var at := PopeAt(chain);
    ChainIsAbove(g, e, rank);
    forall i: nat | 0 < i < at + 1
      ensures Above(g, e, i).Some? && !Above(g, e, i).value.isPope
    {
      assert Above(g, e, i - 1 + 1) == Some(chain[i - 1]);
    }
  }

  lemma {:induction false} NearestPopeAt(g: Group, e: Entity, rank: string -> nat, n: nat, p: Entity)
    requires Sound(g, rank) && Member(g, e) && NearestPope(g, e, n, p)
    ensures n <= |Chain(g, e, rank)| && PopeAt(Chain(g, e, rank)) == n - 1 && Chain(g, e, rank)[n - 1] == p
    decreases rank(e.id)
  {
    AboveUp(g, e, n);
    var up := g[e.parent];
    AboveStep(g, e, n - 1);
    if n > 1 {
      assert Above(g, e, 1) == Some(up);
      forall i: nat | 0 < i < n - 1
        ensures Above(g, up, i).Some? && !Above(g, up, i).value.isPope
      {
        AboveStep(g, e, i);
      }
      NearestPopeAt(g, up, rank, n - 1, p);
    }
  }

  lemma {:induction false} AboveUp(g: Group, e: Entity, n: nat)
    requires n > 0 && Above(g, e, n).Some?
    ensures HasParent(g, e)
  {
    if n > 1 {
      AboveUp(g, e, n - 1);
    }
  }

  /** The nearest partially-owned parent is charged the part of the share that the owners between own, rounded down, and
      the ultimate parent the rest, if there is any. For a direct parent the part is the entity's own ownership. */
  lemma PopeTakesItsPart(g: Group, e: Entity, share: int, rank: string -> nat, n: nat, p: Entity)
    requires Sound(g, rank) && Member(g, e) && !e.isPope && NearestPope(g, e, n, p) && share >= 0
    ensures var out := Allocate(g, e, share, rank);
      && out != [] && out[0].to == p.id && out[0].mechanism == "iir_pope"
      && (n == 1 ==> out[0].amount == share * e.ownership / 10000)
      && (exists path :: |path| == n && Line(g, e, path) && out[0].amount == share * Effective(path) / 10000)
      && (out[0].amount < share ==> |out| == 2 && out[1].amount == share - out[0].amount && IsTop(g, e, out[1].to)
                                    && out[1].mechanism == "iir_upe")
      && (out[0].amount >= share ==> |out| == 1)
  {
    var chain := Chain(g, e, rank);
    NearestPopeAt(g, e, rank, n, p);
    hide Effective, NearestPope, Chain, Above, IsTop, Line, Allocate, PopeAt, Product, Scale;
    var path := LineBelow(g, e, rank, n);
    SplitAtPope(g, e, share, rank, n - 1);
    if n == 1 {
      assert path == [e];
      EffectiveIsProduct(path);
    }
  }

  lemma SplitAtPope(g: Group, e: Entity, share: int, rank: string -> nat, at: nat)
    requires Sound(g, rank) && Member(g, e) && !e.isPope && at == PopeAt(Chain(g, e, rank)) < |Chain(g, e, rank)|
    ensures var chain := Chain(g, e, rank); var amount := share * Effective([e] + chain[..at]) / 10000;
      var out := Allocate(g, e, share, rank);
      && out != [] && out[0].to == chain[at].id && out[0].mechanism == "iir_pope" && out[0].amount == amount
      && (amount >= share ==> |out| == 1)
      && (amount < share ==> |out| == 2 && out[1].amount == share - amount && out[1].to == chain[|chain| - 1].id
                             && out[1].mechanism == "iir_upe")
  {
    hide Effective, Chain, PopeAt;
  }

  lemma LineBelow(g: Group, e: Entity, rank: string -> nat, n: nat) returns (path: seq<Entity>)
    requires Sound(g, rank) && Member(g, e) && 0 < n <= |Chain(g, e, rank)|
    ensures path == [e] + Chain(g, e, rank)[..n - 1] && Line(g, e, path)
    ensures var chain := Chain(g, e, rank); IsTop(g, e, chain[|chain| - 1].id)
  {
    var chain := Chain(g, e, rank);
    ChainIsAbove(g, e, rank);
    hide Chain;
    path := [e] + chain[..n - 1];
    assert Above(g, e, |chain|) == Some(chain[|chain| - 1]);
  }

  /** The members of a line are the entity and its parents in order. */
  ghost predicate Line(g: Group, e: Entity, path: seq<Entity>) {
    forall i: nat :: i < |path| ==> Above(g, e, i) == Some(path[i])
  }

  // ----- A whole jurisdiction -----

  function Members(all: seq<Entity>, j: string): seq<Entity> {
    if all == [] then []
    else Members(all[..|all| - 1], j) + if all[|all| - 1].jurisdiction == j then [all[|all| - 1]] else []
  }

  function Targeted(g: Group, es: seq<Entity>): seq<Entity> {
    if es == [] then []
    else Targeted(g, es[..|es| - 1]) + if HasTarget(g, es[|es| - 1]) then [es[|es| - 1]] else []
  }

  ghost function EntityCharge(g: Group, e: Entity, rates: Rates, jr: Result, j: string,
                              rank: string -> nat): seq<Allocation>
    requires Sound(g, rank) && Member(g, e) && jr.excess > 0
  {
    if e.jurisdiction == j && OwnExcess(e, rates, jr.basis) > 0 && Share(e, rates, jr) > 0 then
      Allocate(g, e, Share(e, rates, jr), rank)
    else []
  }

  ghost function Charges(g: Group, all: seq<Entity>, rates: Rates, jr: Result, j: string,
                         rank: string -> nat): seq<Allocation>
    requires Sound(g, rank) && jr.excess > 0 && forall i :: 0 <= i < |all| ==> Member(g, all[i])
  {
    if all == [] then []
    else Charges(g, all[..|all| - 1], rates, jr, j, rank) + EntityCharge(g, all[|all| - 1], rates, jr, j, rank)
  }

  /** The allocation loop for one jurisdiction. */
  method ChargeJurisdiction(g: Group, all: seq<Entity>, rates: Rates, jr: Result, j: string, ghost rank: string -> nat)
    returns (out: seq<Allocation>)
    requires Sound(g, rank) && forall i :: 0 <= i < |all| ==> Member(g, all[i])
    ensures jr.residual <= 0 || jr.excess <= 0 ==> out == []
    ensures jr.residual > 0 && jr.excess > 0 ==> out == Charges(g, all, rates, jr, j, rank)
  {
    out := [];
    if jr.residual <= 0 || jr.excess <= 0 {
      return;
    }
    var i := 0;
    while i < |all|
      invariant 0 <= i <= |all| && out == Charges(g, all[..i], rates, jr, j, rank)
    {
      var e := all[i];
      assert all[..i + 1][..i] == all[..i];
      if e.jurisdiction == j && OwnExcess(e, rates, jr.basis) > 0 {
        var share := Share(e, rates, jr);
        if share > 0 {
          var part := AllocateShare(g, e, share, rank);
          out := out + part;
        }
      }
      i := i + 1;
    }
    assert all[..i] == all;
  }

  lemma SharesAppend(es: seq<Entity>, e: Entity, rates: Rates, jr: Result)
    requires jr.excess > 0
    ensures Shares(es + [e], rates, jr) == Shares(es, rates, jr) + Share(e, rates, jr)
  {
    assert (es + [e])[..|es|] == es;
  }

  lemma TargetedAppend(g: Group, es: seq<Entity>, e: Entity)
    ensures Targeted(g, es + [e]) == if HasTarget(g, e) then Targeted(g, es) + [e] else Targeted(g, es)
  {
    assert (es + [e])[..|es|] == es;
  }

  lemma ShareNotNegative(e: Entity, rates: Rates, jr: Result)
    requires jr.excess > 0 && jr.residual > 0
    ensures Share(e, rates, jr) >= 0 && (OwnExcess(e, rates, jr.basis) == 0 ==> Share(e, rates, jr) == 0)
  {
    assert jr.residual * OwnExcess(e, rates, jr.basis) >= 0;
  }

  /** What one more entity adds to the total. */
  lemma ChargeAdds(g: Group, e: Entity, rates: Rates, jr: Result, j: string, rank: string -> nat)
    requires Sound(g, rank) && jr.excess > 0 && jr.residual > 0 && Member(g, e)
    ensures Amounts(EntityCharge(g, e, rates, jr, j, rank)) ==
      if e.jurisdiction == j && HasTarget(g, e) then Share(e, rates, jr) else 0
  {
    ShareNotNegative(e, rates, jr);
    if Share(e, rates, jr) > 0 {
      ShareIsCharged(g, e, Share(e, rates, jr), rank);
    }
  }

  /** Everything charged is the shares of the members that have somewhere to charge. */
  lemma {:induction false} ChargesTotal(g: Group, all: seq<Entity>, rates: Rates, jr: Result, j: string,
                                        rank: string -> nat)
    requires Sound(g, rank) && jr.excess > 0 && jr.residual > 0 && forall i :: 0 <= i < |all| ==> Member(g, all[i])
    ensures Amounts(Charges(g, all, rates, jr, j, rank)) == Shares(Targeted(g, Members(all, j)), rates, jr)
    decreases |all|
  {
    if all != [] {
      var front, e := all[..|all| - 1], all[|all| - 1];
      ChargesTotal(g, front, rates, jr, j, rank);
      ChargeAdds(g, e, rates, jr, j, rank);
      AmountsConcat(Charges(g, front, rates, jr, j, rank), EntityCharge(g, e, rates, jr, j, rank));
      if e.jurisdiction == j {
        TargetedAppend(g, Members(front, j), e);
        SharesAppend(Targeted(g, Members(front, j)), e, rates, jr);
      } else {
        assert Members(all, j) == Members(front, j);
      }
    }
  }

  lemma {:induction false} AllTargeted(g: Group, es: seq<Entity>)
    requires forall i :: 0 <= i < |es| ==> HasTarget(g, es[i])
    ensures Targeted(g, es) == es
  {
    if es != [] {
      var front, last := es[..|es| - 1], es[|es| - 1];
      AllTargeted(g, front);
      TargetedAppend(g, front, last);
      hide Targeted, HasTarget;
      assert es == front + [last];
    }
  }

  /** With every member chargeable, what is charged for a jurisdiction of k members stays within the share bounds of
      its residual top-up. */
  lemma ChargedWithinBounds(g: Group, all: seq<Entity>, rates: Rates, pushed: int, jr: Result, j: string,
                            rank: string -> nat)
    requires Sound(g, rank) && forall i :: 0 <= i < |all| ==> Member(g, all[i])
    requires Charged(Members(all, j), rates, pushed, jr)
    requires forall i :: 0 <= i < |Members(all, j)| ==> HasTarget(g, Members(all, j)[i])
    ensures var total, k := Amounts(Charges(g, all, rates, jr, j, rank)), |Members(all, j)|;
      && jr.residual - k < total
      && ((forall i :: 0 <= i < k ==> CoversCarveOut(Members(all, j)[i], rates, jr.basis)) ==>
            10000 * (total - jr.residual) <= 2 * (k - 1) * jr.pct)
  {
    ChargesTotal(g, all, rates, jr, j, rank);
    AllTargeted(g, Members(all, j));
    ShareBounds(Members(all, j), rates, pushed, jr);
  }
}
