/** The bounded depth-first search of services/insights/app/circularity.py:80-105, proved exact: it reports
    the reportable rings, all of them, and each once up to rotation. */
module RingSearch {
  import opened InvoiceRings

  datatype Entry = Entry(key: seq<string>, cycle: Cycle)

  /** The dictionary of cycles by canonical key, in order of insertion. */
  type Found = seq<Entry>

  function Keys(found: Found): set<seq<string>> {
    set e | e in found :: e.key
  }

  /** What the search looks for. */
  datatype Query = Query(adj: Adjacency, maxLen: int, minVat: int)

  ghost predicate Reportable(q: Query, es: seq<Edge>) {
    IsRing(q.adj, es, q.maxLen) && TotalVat(es) >= q.minVat
  }

  /** `c` is the report of some ring with this canonical key. */
  ghost predicate Reports(q: Query, key: seq<string>, c: Cycle) {
    exists es :: Reportable(q, es) && Canonical(Sellers(es)) == key && Tells(c, es)
  }

  /** Every entry reports a ring, and no key is used twice. */
  ghost predicate Sound(q: Query, found: Found) {
    && (forall e :: e in found ==> Reports(q, e.key, e.cycle))
    && (forall i, j :: 0 <= i < j < |found| ==> found[i].key != found[j].key)
  }

  /** The search stands at `node`, having walked `edges` from `start` through the nodes of `path`. */
  ghost predicate Walked(adj: Adjacency, start: string, node: string, path: seq<string>, edges: seq<Edge>) {
    && IsTrail(adj, edges)
    && path == Sellers(edges) + [node]
    && path[0] == start
    && Distinct(path)
    && (edges != [] ==> edges[|edges| - 1].buyer == node)
  }

  /** A walk that continues `edges` from `start`. */
  ghost predicate Continues(edges: seq<Edge>, start: string, es: seq<Edge>) {
    |edges| < |es| && es[..|edges|] == edges && es[0].seller == start
  }

  /** Every reportable ring that continues the walk is found. */
  ghost predicate Covers(q: Query, found: Found, edges: seq<Edge>, start: string) {
    forall es :: Reportable(q, es) && Continues(edges, start, es) ==> Canonical(Sellers(es)) in Keys(found)
  }

  /** Every reportable ring that continues the walk with one of `options` is found. */
  ghost predicate CoversOptions(q: Query, found: Found, edges: seq<Edge>, start: string, options: seq<Edge>) {
    forall es :: Reportable(q, es) && Continues(edges, start, es) && es[|edges|] in options
                 ==> Canonical(Sellers(es)) in Keys(found)
  }

  /** Every reportable ring that continues the walk with `e` is found. */
  ghost predicate CoversEdge(q: Query, found: Found, start: string, path: seq<string>, edges: seq<Edge>, e: Edge) {
    && (e.buyer == start && edges != [] && Reportable(q, edges + [e]) ==>
          Canonical(Sellers(edges + [e])) in Keys(found))
    && (e.buyer !in path && |path| < q.maxLen ==> Covers(q, found, edges + [e], start))
  }

  // ----- One step of the walk -----

  lemma ClosesRing(adj: Adjacency, start: string, node: string, path: seq<string>, edges: seq<Edge>, e: Edge,
                   maxLen: int)
    requires WellFormed(adj) && Walked(adj, start, node, path, edges) && edges != []
    requires e in EdgesFrom(adj, node) && e.buyer == start && |edges| < maxLen
    ensures IsRing(adj, edges + [e], maxLen) && Sellers(edges + [e]) == path
  {
    var all := edges + [e];
    assert Sellers(all) == path;
    ExtendTrail(adj, edges, e);
  }

  lemma ExtendTrail(adj: Adjacency, edges: seq<Edge>, e: Edge)
    requires IsTrail(adj, edges) && e in EdgesFrom(adj, e.seller)
    requires edges != [] ==> edges[|edges| - 1].buyer == e.seller
    ensures IsTrail(adj, edges + [e])
  {
  }

  lemma Extend(adj: Adjacency, start: string, node: string, path: seq<string>, edges: seq<Edge>, e: Edge)
    requires WellFormed(adj) && Walked(adj, start, node, path, edges)
    requires e in EdgesFrom(adj, node) && e.buyer !in path
    ensures Walked(adj, start, e.buyer, path + [e.buyer], edges + [e])
  {
    assert Sellers(edges + [e]) == path;
    ExtendTrail(adj, edges, e);
  }

  /** Where a ring that continues the walk goes next: the edge is one of the node's, and it either closes the
      ring or leaves to a new node with room for one more hop. */
  lemma NextEdge(q: Query, start: string, node: string, path: seq<string>, edges: seq<Edge>, es: seq<Edge>)
    requires WellFormed(q.adj) && Walked(q.adj, start, node, path, edges)
    requires Reportable(q, es) && Continues(edges, start, es)
    ensures |edges| < q.maxLen && es[|edges|] in EdgesFrom(q.adj, node)
    ensures |es| == |edges| + 1 ==> es[|edges|].buyer == start && edges != []
    ensures |es| > |edges| + 1 ==>
      && es[|edges|].buyer != start && es[|edges|].buyer !in path && |path| < q.maxLen
      && Continues(edges + [es[|edges|]], start, es)
  {
    var e := es[|edges|];
    assert e.seller == node by {
      if edges != [] { assert es[|edges| - 1] == edges[|edges| - 1]; }
    }
    forall i | 0 <= i < |path|
      ensures path[i] == Sellers(es)[i]
    {
      if i < |edges| { assert es[i] == es[..|edges|][i]; }
    }
    if |es| > |edges| + 1 {
      assert Sellers(es)[|edges| + 1] == e.buyer;
      assert es[..|edges| + 1] == edges + [e];
    }
  }

  lemma Record(q: Query, found: Found, e: Entry)
    requires Sound(q, found) && Reports(q, e.key, e.cycle) && e.key !in Keys(found)
    ensures Sound(q, found + [e])
  {
    forall x | x in found + [e]
      ensures Reports(q, x.key, x.cycle)
    {
      assert x in found || x == e;
    }
    forall i | 0 <= i < |found|
      ensures found[i].key != e.key
    {
      assert found[i] in found;
    }
  }

  lemma RecordedKey(found: Found, e: Entry)
    ensures e.key in Keys(found + [e])
  {
    assert (found + [e])[|found|] == e;
  }

  lemma KeysGrow(before: Found, after: Found)
    requires before <= after
    ensures Keys(before) <= Keys(after)
  {
    assert forall e :: e in before ==> e in after;
  }

  /** After the edge `out[i]` has been handled, its rings are covered too. */
  lemma CoverStep(q: Query, before: Found, found: Found, start: string, node: string, path: seq<string>,
                  edges: seq<Edge>, out: seq<Edge>, i: nat)
    requires WellFormed(q.adj) && Walked(q.adj, start, node, path, edges) && i < |out|
    requires CoversOptions(q, before, edges, start, out[..i]) && before <= found
    requires CoversEdge(q, found, start, path, edges, out[i])
    ensures CoversOptions(q, found, edges, start, out[..i + 1])
  {
    var e := out[i];
    KeysGrow(before, found);
    assert out[..i + 1] == out[..i] + [e];
    forall es | Reportable(q, es) && Continues(edges, start, es) && es[|edges|] in out[..i + 1]
      ensures Canonical(Sellers(es)) in Keys(found)
    {
      if es[|edges|] !in out[..i] {
        NextEdge(q, start, node, path, edges, es);
        if |es| == |edges| + 1 {
          assert es == edges + [e];
        }
      }
    }
  }

  lemma CoverAll(q: Query, found: Found, start: string, node: string, path: seq<string>, edges: seq<Edge>)
    requires WellFormed(q.adj) && Walked(q.adj, start, node, path, edges)
    requires |edges| >= q.maxLen || CoversOptions(q, found, edges, start, EdgesFrom(q.adj, node))
    ensures Covers(q, found, edges, start)
  {
    forall es | Reportable(q, es) && Continues(edges, start, es)
      ensures Canonical(Sellers(es)) in Keys(found)
    {
      NextEdge(q, start, node, path, edges, es);
    }
  }

  // ----- The search -----

  class Search {
    const q: Query
    var found: Found

    ghost predicate Valid()
      reads this
    {
      && WellFormed(q.adj)
      && Sound(q, found)
    }

    constructor (q: Query)
      requires WellFormed(q.adj)
      ensures Valid() && found == [] && this.q == q
    {
      this.q, found := q, [];
    }

    /** A closing invoice: record the ring unless a rotation of it is known or it is too small. */
    method Close(start: string, node: string, path: seq<string>, edges: seq<Edge>, e: Edge)
      requires Valid() && Walked(q.adj, start, node, path, edges) && edges != []
      requires e in EdgesFrom(q.adj, node) && e.buyer == start && |edges| < q.maxLen
      modifies this
      ensures Valid() && old(found) <= found
      ensures Reportable(q, edges + [e]) ==> Canonical(Sellers(edges + [e])) in Keys(found)
      ensures found == old(found) || (|found| == |old(found)| + 1 && Tells(found[|found| - 1].cycle, edges + [e]))
    {
      var ring := path + [start];
      var body := ring[..|ring| - 1];
      assert body == path;
      var i := MinIndex(body);
      var key := body[i..] + body[..i];
      var vat := Exposure(edges + [e]);
      ExposureIsTotal(edges + [e]);
      ClosesRing(q.adj, start, node, path, edges, e, q.maxLen);
      if vat >= q.minVat && key !in Keys(found) {
        var c := Cycle(ring, Ids(edges + [e]), vat);
        assert Tells(c, edges + [e]) && Reports(q, key, c);
        Record(q, found, Entry(key, c));
        RecordedKey(found, Entry(key, c));
        found := found + [Entry(key, c)];
      }
    }

    /** One invoice out of `node`: it closes the ring, leads on, or is a dead end. */
    method Follow(start: string, node: string, path: seq<string>, edges: seq<Edge>, e: Edge)
      requires Valid() && Walked(q.adj, start, node, path, edges) && |edges| < q.maxLen
      requires e in EdgesFrom(q.adj, node)
      modifies this
      ensures Valid() && old(found) <= found
      ensures CoversEdge(q, found, start, path, edges, e)
      decreases q.maxLen - |edges|, 0
    {
      if e.buyer == start && edges != [] {
        Close(start, node, path, edges, e);
      } else if e.buyer !in path && |path| < q.maxLen {
        Extend(q.adj, start, node, path, edges, e);
        Dfs(start, e.buyer, path + [e.buyer], edges + [e]);
      }
    }

    method Dfs(start: string, node: string, path: seq<string>, edges: seq<Edge>)
      requires Valid() && Walked(q.adj, start, node, path, edges)
      modifies this
      ensures Valid() && old(found) <= found
      ensures Covers(q, found, edges, start)
      decreases q.maxLen - |edges|, 1
    {
      if |edges| >= q.maxLen {
        CoverAll(q, found, start, node, path, edges);
        return;
      }
      var out := EdgesFrom(q.adj, node);
      var i := 0;
      while i < |out|
        invariant 0 <= i <= |out| && Valid() && old(found) <= found
        invariant CoversOptions(q, found, edges, start, out[..i])
      {
        ghost var before := found;
        Follow(start, node, path, edges, out[i]);
        CoverStep(q, before, found, start, node, path, edges, out, i);
        i := i + 1;
      }
      assert out[..i] == out;
      CoverAll(q, found, start, node, path, edges);
    }
  }

  // ----- Reporting -----

  function Cycles(found: Found): (cs: seq<Cycle>)
    ensures |cs| == |found| && forall i :: 0 <= i < |found| ==> cs[i] == found[i].cycle
  {
    seq(|found|, i requires 0 <= i < |found| => found[i].cycle)
  }

  ghost predicate Descending(cs: seq<Cycle>) {
    forall i, j :: 0 <= i < j < |cs| ==> cs[i].exposure >= cs[j].exposure
  }

  /** Insert behind every cycle of at least the same exposure: what a stable sort does. */
  function Insert(cs: seq<Cycle>, c: Cycle): (r: seq<Cycle>)
    requires Descending(cs)
    ensures forall x :: x in r <==> x in cs || x == c
    ensures Descending(r)
  {
    if cs == [] then [c]
    else
      var front, last := cs[..|cs| - 1], cs[|cs| - 1];
      if last.exposure >= c.exposure then cs + [c]
      else
        assert forall x :: x in front ==> x.exposure >= last.exposure;
        var r := Insert(front, c);
        assert forall i :: 0 <= i < |r| ==> r[i] in r;
        r + [last]
  }

  lemma {:induction false} InsertAdds(cs: seq<Cycle>, c: Cycle)
    requires Descending(cs)
    ensures multiset(Insert(cs, c)) == multiset(cs) + multiset{c}
  {
    if cs != [] {
      assert cs == cs[..|cs| - 1] + [cs[|cs| - 1]];
      if cs[|cs| - 1].exposure < c.exposure {
        InsertAdds(cs[..|cs| - 1], c);
      }
    }
  }

  method SortByExposure(cs: seq<Cycle>) returns (r: seq<Cycle>)
    ensures Descending(r) && multiset(r) == multiset(cs)
  {
    r := [];
    for i := 0 to |cs|
      invariant Descending(r) && multiset(r) == multiset(cs[..i])
    {
      assert cs[..i + 1] == cs[..i] + [cs[i]];
      InsertAdds(r, cs[i]);
      r := Insert(r, cs[i]);
    }
    assert cs[..|cs|] == cs;
  }

  ghost predicate OncePerRing(cs: seq<Cycle>) {
    forall i, j :: 0 <= i < j < |cs| ==> !IsRotation(Body(cs[i]), Body(cs[j]))
  }

  lemma ReportBody(q: Query, key: seq<string>, c: Cycle)
    requires Reports(q, key, c)
    ensures Body(c) != [] && Distinct(Body(c)) && Canonical(Body(c)) == key
  {
    var es :| Reportable(q, es) && Canonical(Sellers(es)) == key && Tells(c, es);
    assert Body(c) == Sellers(es);
  }

  lemma Repeated(s: seq<Cycle>, i: nat, j: nat)
    requires i < j < |s| && s[i] == s[j]
    ensures multiset(s)[s[i]] >= 2
  {
    assert s == s[..j] + [s[j]] + s[j + 1..];
    assert s[i] in s[..j];
  }

  lemma AtMostOnce(s: seq<Cycle>, c: Cycle)
    requires forall i, j :: 0 <= i < j < |s| ==> s[i] != s[j]
    ensures multiset(s)[c] <= 1
  {
    if s != [] {
      var front, last := s[..|s| - 1], s[|s| - 1];
      assert s == front + [last];
      AtMostOnce(front, c);
      if c == last {
        assert c !in front;
      }
    }
  }

  lemma EntriesDiffer(q: Query, found: Found, a: nat, b: nat)
    requires Sound(q, found) && a < |found| && b < |found| && a != b
    ensures found[a].cycle != found[b].cycle
    ensures !IsRotation(Body(found[a].cycle), Body(found[b].cycle))
  {
    assert found[a] in found && found[b] in found;
    ReportBody(q, found[a].key, found[a].cycle);
    ReportBody(q, found[b].key, found[b].cycle);
    CanonicalDecidesRotation(Body(found[a].cycle), Body(found[b].cycle));
  }

  /** Sorting keeps each ring reported once. */
  lemma SortedOnce(q: Query, found: Found, r: seq<Cycle>)
    requires Sound(q, found) && multiset(r) == multiset(Cycles(found))
    ensures OncePerRing(r)
  {
    var cs := Cycles(found);
    forall i, j | 0 <= i < j < |cs|
      ensures cs[i] != cs[j]
    {
      EntriesDiffer(q, found, i, j);
    }
    forall i, j | 0 <= i < j < |r|
      ensures !IsRotation(Body(r[i]), Body(r[j]))
    {
      var a := IndexOf(cs, r, i);
      var b := IndexOf(cs, r, j);
      if a == b {
        Repeated(r, i, j);
        AtMostOnce(cs, r[i]);
        assert false;
      }
      EntriesDiffer(q, found, a, b);
    }
  }

  lemma IndexOf(cs: seq<Cycle>, r: seq<Cycle>, i: nat) returns (a: nat)
    requires multiset(r) == multiset(cs) && i < |r|
    ensures a < |cs| && cs[a] == r[i]
  {
    assert r[i] in multiset(r);
    a :| 0 <= a < |cs| && cs[a] == r[i];
  }

  lemma CoversGrow(q: Query, before: Found, after: Found, nodes: seq<string>)
    requires before <= after && forall k :: 0 <= k < |nodes| ==> Covers(q, before, [], nodes[k])
    ensures forall k :: 0 <= k < |nodes| ==> Covers(q, after, [], nodes[k])
  {
    KeysGrow(before, after);
  }

  /** The report is exact: every reported cycle is a reportable ring of the graph with its true invoices and
      exposure, every reportable ring is reported up to rotation, none twice, largest exposure first. */
  method FindCycles(graph: InMemoryGraph, maxLen: int, minVat: int) returns (out: seq<Cycle>)
    requires graph.Valid()
    ensures forall c :: c in out ==>
      exists es :: IsRing(graph.adj, es, maxLen) && TotalVat(es) >= minVat && Tells(c, es)
    ensures forall es :: IsRing(graph.adj, es, maxLen) && TotalVat(es) >= minVat ==>
      exists c :: c in out && IsRotation(Sellers(es), Body(c))
    ensures OncePerRing(out) && Descending(out)
  {
    var q := Query(graph.adj, maxLen, minVat);
    var search := new Search(q);
    var i := 0;
    while i < |graph.nodes|
      invariant 0 <= i <= |graph.nodes| && search.Valid() && search.q == q
      invariant forall k :: 0 <= k < i ==> Covers(q, search.found, [], graph.nodes[k])
    {
      var n := graph.nodes[i];
      ghost var before := search.found;
      search.Dfs(n, n, [n], []);
      CoversGrow(q, before, search.found, graph.nodes[..i]);
      i := i + 1;
    }
    out := SortByExposure(Cycles(search.found));
    SortedOnce(q, search.found, out);
    ReportedIsSound(q, search.found, out);
    ReportedIsComplete(q, search.found, graph.nodes, out);
  }

  lemma ReportedIsSound(q: Query, found: Found, out: seq<Cycle>)
    requires Sound(q, found) && multiset(out) == multiset(Cycles(found))
    ensures forall c :: c in out ==> exists es :: Reportable(q, es) && Tells(c, es)
  {
    forall c | c in out
      ensures exists es :: Reportable(q, es) && Tells(c, es)
    {
      var i :| 0 <= i < |out| && out[i] == c;
      var a := IndexOf(Cycles(found), out, i);
      assert Reports(q, found[a].key, c);
    }
  }

  lemma ReportedIsComplete(q: Query, found: Found, nodes: seq<string>, out: seq<Cycle>)
    requires WellFormed(q.adj) && Sound(q, found) && multiset(out) == multiset(Cycles(found))
    requires forall n :: n in q.adj ==> n in nodes
    requires forall k :: 0 <= k < |nodes| ==> Covers(q, found, [], nodes[k])
    ensures forall es :: Reportable(q, es) ==> exists c :: c in out && IsRotation(Sellers(es), Body(c))
  {
    forall es: seq<Edge> | Reportable(q, es)
      ensures exists c :: c in out && IsRotation(Sellers(es), Body(c))
    {
      var start := es[0].seller;
      assert start in q.adj;
      assert Continues([], start, es);
      var key := Canonical(Sellers(es));
      assert key in Keys(found);
      var i :| 0 <= i < |found| && found[i].key == key;
      var c := found[i].cycle;
      ReportBody(q, key, c);
      var a := IndexOf(out, Cycles(found), i);
      CanonicalDecidesRotation(Sellers(es), Body(c));
    }
  }
}
