/** Invoice-ring detection (services/insights/app/circularity.py): a directed multigraph of invoices, a
    bounded depth-first search for closed walks, and rotation-canonical reporting. */
module InvoiceRings {

  datatype Edge = Edge(seller: string, buyer: string, invoiceId: string, vat: int)

  datatype Cycle = Cycle(path: seq<string>, invoiceIds: seq<string>, exposure: int)

  // ----- Lexicographic order on taxpayer ids -----

  predicate LessEq(a: string, b: string) {
    if a == [] then true
    else if b == [] then false
    else a[0] < b[0] || (a[0] == b[0] && LessEq(a[1..], b[1..]))
  }

  lemma {:induction false} LessEqTotal(a: string, b: string)
    ensures LessEq(a, b) || LessEq(b, a)
  {
    if a != [] && b != [] {
      LessEqTotal(a[1..], b[1..]);
    }
  }

  lemma {:induction false} LessEqAntisymmetric(a: string, b: string)
    requires LessEq(a, b) && LessEq(b, a)
    ensures a == b
  {
    if a != [] {
      LessEqAntisymmetric(a[1..], b[1..]);
      assert a == [a[0]] + a[1..] && b == [b[0]] + b[1..];
    }
  }

  lemma {:induction false} LessEqTransitive(a: string, b: string, c: string)
    requires LessEq(a, b) && LessEq(b, c)
    ensures LessEq(a, c)
  {
    if a != [] && a[0] == b[0] && b[0] == c[0] {
      LessEqTransitive(a[1..], b[1..], c[1..]);
    }
  }

  // ----- Rotations -----

  function Rotate(s: seq<string>, k: nat): (r: seq<string>)
    requires k <= |s|
    ensures |r| == |s|
  {
    s[k..] + s[..k]
  }

  ghost predicate IsRotation(s: seq<string>, t: seq<string>) {
    exists k: nat :: k <= |s| && t == Rotate(s, k)
  }

  ghost predicate Distinct(s: seq<string>) {
    forall i, j :: 0 <= i < j < |s| ==> s[i] != s[j]
  }

  /** The index of the first least element: `body.index(min(body))`. */
  function MinIndex(s: seq<string>): (i: nat)
    requires s != []
    ensures i < |s| && forall j :: 0 <= j < |s| ==> LessEq(s[i], s[j])
  {
    if |s| == 1 then
      LessEqTotal(s[0], s[0]);
      0
    else
      var i := 1 + MinIndex(s[1..]);
      LessEqTotal(s[0], s[i]);
      LessEqTotal(s[0], s[0]);
      assert forall j :: 1 <= j < |s| ==> s[j] == s[1..][j - 1] && LessEq(s[i], s[j]);
      if LessEq(s[0], s[i]) then
        assert forall j :: 1 <= j < |s| ==> LessEq(s[0], s[j]) by {
          forall j | 1 <= j < |s| ensures LessEq(s[0], s[j]) { LessEqTransitive(s[0], s[i], s[j]); }
        }
        0
      else i
  }

  /** The rotation that starts at the least element. */
  function Canonical(body: seq<string>): (key: seq<string>)
    requires body != []
    ensures |key| == |body|
  {
    Rotate(body, MinIndex(body))
  }

  lemma RotateElements(s: seq<string>, k: nat)
    requires k <= |s|
    ensures forall x :: x in s <==> x in Rotate(s, k)
  {
    assert s == s[..k] + s[k..];
  }

  lemma RotateBack(s: seq<string>, k: nat)
    requires k <= |s|
    ensures Rotate(Rotate(s, k), |s| - k) == s
  {
    var r := Rotate(s, k);
    assert r[|s| - k..] == s[..k] && r[..|s| - k] == s[k..];
  }

  lemma RotateTwice(s: seq<string>, k: nat, l: nat) returns (m: nat)
    requires k <= |s| && l <= |s|
    ensures m <= |s| && Rotate(Rotate(s, k), l) == Rotate(s, m)
  {
    var r := Rotate(s, k);
    if k + l <= |s| {
      m := k + l;
      assert r[l..] == s[k + l..] + s[..k] && r[..l] == s[k..k + l];
      assert s[..k] + s[k..k + l] == s[..k + l];
      assert Rotate(r, l) == s[k + l..] + (s[..k] + s[k..k + l]);
    } else {
      m := k + l - |s|;
      assert r[l..] == s[m..k] && r[..l] == s[k..] + s[..m];
      assert s[m..k] + s[k..] == s[m..];
      assert Rotate(r, l) == s[m..k] + s[k..] + s[..m];
    }
  }

  lemma RotationSymmetric(s: seq<string>, t: seq<string>)
    requires IsRotation(s, t)
    ensures IsRotation(t, s)
  {
    var k: nat :| k <= |s| && t == Rotate(s, k);
    RotateBack(s, k);
    assert s == Rotate(t, |s| - k);
  }

  lemma RotationTransitive(s: seq<string>, t: seq<string>, u: seq<string>)
    requires IsRotation(s, t) && IsRotation(t, u)
    ensures IsRotation(s, u)
  {
    var k: nat :| k <= |s| && t == Rotate(s, k);
    var l: nat :| l <= |t| && u == Rotate(t, l);
    var m := RotateTwice(s, k, l);
  }

  /** Two rotations of a repetition-free sequence that start alike are equal. */
  lemma SameStart(s: seq<string>, k: nat, l: nat)
    requires Distinct(s) && k < |s| && l < |s| && s[k] == s[l]
    ensures k == l
  {
  }

  /** Canonical keys agree exactly when the rings are rotations of each other. */
  lemma CanonicalDecidesRotation(s: seq<string>, t: seq<string>)
    requires s != [] && t != [] && Distinct(s) && Distinct(t)
    ensures Canonical(s) == Canonical(t) <==> IsRotation(s, t)
  {
    if Canonical(s) == Canonical(t) {
      assert IsRotation(s, Canonical(s)) && IsRotation(t, Canonical(t));
      RotationSymmetric(t, Canonical(t));
      RotationTransitive(s, Canonical(s), t);
    }
    if IsRotation(s, t) {
      CanonicalOfRotation(s, t);
    }
  }

  lemma CanonicalOfRotation(s: seq<string>, t: seq<string>)
    requires s != [] && t != [] && Distinct(s) && IsRotation(s, t)
    ensures Canonical(s) == Canonical(t)
  {
    var k: nat :| k <= |s| && t == Rotate(s, k);
    RotateElements(s, k);
    var i, j := MinIndex(s), MinIndex(t);
    assert s[i] in t && t[j] in s;
    LessEqAntisymmetric(s[i], t[j]);
    var m := RotateTwice(s, k, j);
    assert Canonical(t) == Rotate(s, m) && Canonical(t)[0] == t[j];
    if m < |s| {
      assert Rotate(s, m)[0] == s[m];
      SameStart(s, i, m);
    } else {
      assert Rotate(s, m) == s == Rotate(s, 0);
      SameStart(s, i, 0);
    }
  }

  // ----- Graph -----

  type Adjacency = map<string, seq<Edge>>

  function EdgesFrom(adj: Adjacency, node: string): seq<Edge> {
    if node in adj then adj[node] else []
  }

  ghost predicate WellFormed(adj: Adjacency) {
    forall n, e :: n in adj && e in adj[n] ==> e.seller == n
  }

  datatype Invoice = Invoice(invoiceId: string, supplier: string, customer: string, vat: int)

  predicate IsFlow(inv: Invoice) {
    inv.supplier != "" && inv.customer != "" && inv.supplier != inv.customer
  }

  function EdgeOf(inv: Invoice): Edge {
    Edge(inv.supplier, inv.customer, inv.invoiceId, inv.vat)
  }

  /** The invoices a supplier issued to somebody else, in order of arrival. */
  function Issued(invoices: seq<Invoice>, node: string): seq<Edge> {
    if invoices == [] then []
    else
      var rest, last := invoices[..|invoices| - 1], invoices[|invoices| - 1];
      Issued(rest, node) + if IsFlow(last) && last.supplier == node then [EdgeOf(last)] else []
  }

  lemma {:induction false} IssuedMembers(invoices: seq<Invoice>, node: string, e: Edge)
    ensures e in Issued(invoices, node)
       <==> exists inv :: inv in invoices && inv.supplier != "" && inv.customer != "" && inv.supplier != inv.customer
                          && inv.supplier == node && e == Edge(inv.supplier, inv.customer, inv.invoiceId, inv.vat)
  {
    if invoices != [] {
      var rest, last := invoices[..|invoices| - 1], invoices[|invoices| - 1];
      assert invoices == rest + [last];
      IssuedMembers(rest, node, e);
    }
  }

  class InMemoryGraph {
    var adj: Adjacency
    var nodes: seq<string>

    ghost predicate Valid()
      reads this
    {
      && WellFormed(adj)
      && Distinct(nodes)
      && (forall n :: n in nodes <==> n in adj)
    }

    constructor ()
      ensures Valid() && adj == map[]
    {
      adj, nodes := map[], [];
    }

    method SetDefault(node: string)
      requires Valid()
      modifies this
      ensures Valid() && adj.Keys == old(adj.Keys) + {node}
      ensures forall n :: EdgesFrom(adj, n) == old(EdgesFrom(adj, n))
    {
      if node !in adj {
        adj := adj[node := []];
        nodes := nodes + [node];
      }
    }

    method AddEdge(e: Edge)
      requires Valid()
      modifies this
      ensures Valid()
      ensures adj.Keys == old(adj.Keys) + {e.seller, e.buyer}
      ensures forall n ::
        EdgesFrom(adj, n) == old(EdgesFrom(adj, n)) + if n == e.seller then [e] else []
    {
      SetDefault(e.seller);
      adj := adj[e.seller := adj[e.seller] + [e]];
      SetDefault(e.buyer);
    }
  }

  method BuildGraph(invoices: seq<Invoice>) returns (g: InMemoryGraph)
    ensures fresh(g) && g.Valid()
    ensures forall n :: EdgesFrom(g.adj, n) == Issued(invoices, n)
  {
    g := new InMemoryGraph();
    for i := 0 to |invoices|
      invariant fresh(g) && g.Valid()
      invariant forall n :: EdgesFrom(g.adj, n) == Issued(invoices[..i], n)
    {
      var inv := invoices[i];
      assert invoices[..i + 1][..i] == invoices[..i];
      if IsFlow(inv) {
        g.AddEdge(EdgeOf(inv));
      }
    }
    assert invoices[..|invoices|] == invoices;
  }

  // ----- Rings -----

  function Sellers(es: seq<Edge>): (r: seq<string>)
    ensures |r| == |es| && forall i :: 0 <= i < |es| ==> r[i] == es[i].seller
  {
    seq(|es|, i requires 0 <= i < |es| => es[i].seller)
  }

  function Ids(es: seq<Edge>): (r: seq<string>)
    ensures |r| == |es| && forall i :: 0 <= i < |es| ==> r[i] == es[i].invoiceId
  {
    seq(|es|, i requires 0 <= i < |es| => es[i].invoiceId)
  }

  function Exposure(es: seq<Edge>): int {
    if es == [] then 0 else Exposure(es[..|es| - 1]) + es[|es| - 1].vat
  }

  /** The VAT of the invoices, added up from the first. */
  function TotalVat(es: seq<Edge>): int {
    if es == [] then 0 else es[0].vat + TotalVat(es[1..])
  }

  /** The exposure of one invoice is its VAT, and exposures add up. */
  lemma {:induction false} ExposureAdds(a: seq<Edge>, b: seq<Edge>)
    ensures Exposure(a + b) == Exposure(a) + Exposure(b)
    ensures forall e :: Exposure([e]) == e.vat
    decreases |b|
  {
    if b == [] {
      assert a + b == a;
    } else {
      assert (a + b)[..|a + b| - 1] == a + b[..|b| - 1];
      ExposureAdds(a, b[..|b| - 1]);
    }
    forall e
      ensures Exposure([e]) == e.vat
    {
      assert [e][..0] == [];
    }
  }

  lemma {:induction false} ExposureIsTotal(es: seq<Edge>)
    ensures Exposure(es) == TotalVat(es)
    decreases |es|
  {
    if es != [] {
      assert es == [es[0]] + es[1..];
      ExposureAdds([es[0]], es[1..]);
      ExposureIsTotal(es[1..]);
    }
  }

  /** Invoices that follow one another: each is issued by the buyer of the one before. */
  ghost predicate IsTrail(adj: Adjacency, es: seq<Edge>) {
    && (forall i :: 0 <= i < |es| ==> es[i] in EdgesFrom(adj, es[i].seller))
    && (forall i, j :: 0 <= i && j == i + 1 < |es| ==> es[j].seller == es[i].buyer)
  }

  /** A simple closed walk of 2 to `maxLen` invoices. */
  ghost predicate IsRing(adj: Adjacency, es: seq<Edge>, maxLen: int) {
    && 2 <= |es| <= maxLen
    && IsTrail(adj, es)
    && es[|es| - 1].buyer == es[0].seller
    && Distinct(Sellers(es))
  }

  /** The cycle names the sellers in order and the first again, the invoices in order, and their VAT in all. */
  ghost predicate Tells(c: Cycle, es: seq<Edge>) {
    && es != [] && |c.path| == |es| + 1 && c.path[|es|] == es[0].seller
    && (forall i :: 0 <= i < |es| ==> c.path[i] == es[i].seller)
    && |c.invoiceIds| == |es| && (forall i :: 0 <= i < |es| ==> c.invoiceIds[i] == es[i].invoiceId)
    && c.exposure == TotalVat(es)
  }

  /** The ring of a reported cycle, without the repeated start. */
  function Body(c: Cycle): seq<string> {
    if c.path == [] then [] else c.path[..|c.path| - 1]
  }
}
