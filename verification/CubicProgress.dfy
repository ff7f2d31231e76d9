/** What the loops of the cubic solver rely on, one step at a time. Searching: the
    distances found so far are right, and a search that ends in vain has seen all
    there is. Merging: the nodes of a cycle can be merged pair by pair.
    Propagating: what an activated list, a pushed element and a nested call leave
    to do. And entering a variable or a constraint. */
module CubicProgress {
  import opened Sets
  import opened Cubic
  import opened CubicGraph
  import opened CubicSteps
  import opened CubicRun

  // -------------------------------------------------------------------------
  // Searching
  // -------------------------------------------------------------------------

  // Distances found from source: each but its own has a predecessor one nearer.
  ghost predicate Distances(g: Graph, source: nat, dist: map<nat, nat>) {
    && source in dist && dist[source] == 0
    && (forall x {:trigger x in dist} :: x in dist ==> Live(g, x) && Reaches(g, source, x))
    && (forall x {:trigger dist[x]} :: x in dist && x != source ==> HasNearer(g, dist, x))
  }

  ghost predicate HasNearer(g: Graph, dist: map<nat, nat>, x: nat) {
    x in dist && exists p :: p in dist && dist[p] + 1 == dist[x] && Edge(g, p, x)
  }

  ghost predicate Expanded(g: Graph, dist: map<nat, nat>, x: nat) {
    forall m {:trigger Edge(g, x, m)} :: Edge(g, x, m) ==> m in dist
  }

  lemma {:induction false} ReachesOn(g: Graph, a: nat, b: nat, c: nat, path: seq<nat>)
    requires Walk(g, a, b, path) && Edge(g, b, c)
    ensures Reaches(g, a, c)
    decreases |path|
  {
    if path == [] {
      ReachesSelf(g, c);
      ReachesFrom(g, a, c, c);
    } else {
      ReachesOn(g, path[0], b, c, path[1..]);
      ReachesFrom(g, a, path[0], c);
    }
  }

  lemma {:induction false} ExpandedContains(g: Graph, dist: map<nat, nat>, a: nat, b: nat, path: seq<nat>)
    requires Walk(g, a, b, path) && a in dist
    requires forall x | x in dist :: Expanded(g, dist, x)
    ensures b in dist
    decreases |path|
  {
    if path != [] {
      assert Expanded(g, dist, a);
      ExpandedContains(g, dist, path[0], b, path[1..]);
    }
  }

  lemma NeverFound(g: Graph, source: nat, target: nat, dist: map<nat, nat>)
    requires source in dist && target !in dist
    requires forall x | x in dist :: Expanded(g, dist, x)
    ensures !Reaches(g, source, target)
  {
    forall walk | Walk(g, source, target, walk)
      ensures false
    {
      ExpandedContains(g, dist, source, target, walk);
    }
  }

  lemma LiveNode(g: Graph, size: nat, n: nat)
    requires Shaped(g, size) && Live(g, n)
    ensures n in g.nodes
  {
    var v :| v in g.dag && g.dag[v] == n;
  }

  lemma LiveLinks(g: Graph, size: nat, n: nat)
    requires Shaped(g, size) && Live(g, n) && n in g.nodes
    ensures LinksLive(g, n)
  {
    assert NodeShaped(g, size, n);
  }

  lemma CloserToAll(g: Graph, source: nat, dist0: map<nat, nat>, dist: map<nat, nat>)
    requires Distances(g, source, dist) && dist0.Keys < dist.Keys
    ensures g.dag.Values - dist.Keys < g.dag.Values - dist0.Keys
  {
    var x :| x in dist && x !in dist0;
    assert Live(g, x);
    assert x in g.dag.Values - dist0.Keys;
  }

  // One more node at a distance.
  lemma Discovered(g: Graph, source: nat, dist: map<nat, nat>, node: nat, m: nat)
    requires Distances(g, source, dist) && node in dist && m !in dist && Edge(g, node, m) && Live(g, m)
    ensures Distances(g, source, dist[m := dist[node] + 1])
  {
    hide HasNearer;
    var dist' := dist[m := dist[node] + 1];
    var path :| Walk(g, source, node, path);
    ReachesOn(g, source, node, m, path);
    forall x | x in dist' && x != source
      ensures HasNearer(g, dist', x)
    {
      StillNearer(g, dist, node, m, x);
    }
  }

  lemma StillNearer(g: Graph, dist: map<nat, nat>, node: nat, m: nat, x: nat)
    requires node in dist && m !in dist && Edge(g, node, m) && (x == m || (x in dist && HasNearer(g, dist, x)))
    ensures HasNearer(g, dist[m := dist[node] + 1], x)
  {
    var dist' := dist[m := dist[node] + 1];
    if x == m {
      assert node in dist' && dist'[node] + 1 == dist'[m];
    } else {
      var p :| p in dist && dist[p] + 1 == dist[x] && Edge(g, p, x);
      assert p in dist' && dist'[p] + 1 == dist'[x];
    }
  }

  // The front of the queue has been expanded; the rest keeps waiting.
  lemma Rested(g: Graph, dist0: map<nat, nat>, dist: map<nat, nat>, q: seq<nat>, curr: nat)
    requires dist0.Keys <= dist.Keys && Expanded(g, dist, curr)
    requires q != [] && q[0] == curr
    requires forall x | x in dist :: x in q || Expanded(g, dist0, x)
    ensures forall x | x in dist :: x in q[1..] || Expanded(g, dist, x)
  {
    forall x | x in dist && x !in q[1..]
      ensures Expanded(g, dist, x)
    {
      if x != curr {
        assert q == [curr] + q[1..];
        assert Expanded(g, dist0, x);
      }
    }
  }

  // -------------------------------------------------------------------------
  // What updates keep
  // -------------------------------------------------------------------------

  // No node's elements are ever taken away.
  ghost predicate NodesGrow(g: Graph, g': Graph) {
    g.nodes.Keys == g'.nodes.Keys && forall n {:trigger g'.nodes[n]} :: n in g.nodes ==>
      g.nodes[n].bits <= g'.nodes[n].bits
  }

  // Nothing is lost: no element, no edge, no constraint waiting that does not hold.
  ghost predicate Lasts(g: Graph, g': Graph) {
    NodesGrow(g, g') && Grows(g, g') && Keeps(g, g', [])
  }

  lemma LastsSelf(g: Graph)
    ensures Lasts(g, g) && Settles(g, g, {}) && SameLinks(g, g)
  {
    NothingChanged(g);
  }

  lemma LastsTwice(g: Graph, g1: Graph, g2: Graph)
    requires Lasts(g, g1) && Lasts(g1, g2)
    ensures Lasts(g, g2)
    ensures SameLinks(g, g1) && SameLinks(g1, g2) ==> SameLinks(g, g2)
  {
    Twice(g, g1, g2);
    GrowsTwice(g, g1, g2);
    KeepsTwice(g, g1, g2, []);
  }

  lemma SettlesOn(g: Graph, g1: Graph, g2: Graph)
    requires Lasts(g, g1) && Lasts(g1, g2) && Settles(g, g1, {}) && Settles(g1, g2, {})
    ensures Settles(g, g2, {})
  {
    var none: set<nat> := {};
    SettlesTwice(g, g1, g2, none, none);
    assert none + none == none;
  }

  // v is still at the node, and none of its elements has a constraint waiting.
  ghost predicate Quiet(g: Graph, node: nat, v: nat) {
    v in g.dag && g.dag[v] == node && forall c, p {:trigger Waiting(g, v, c, p)} :: c in Bits(g, v) ==>
      !Waiting(g, v, c, p)
  }

  ghost function Done(g: Graph, v: nat, i: nat): set<nat> {
    set c | c in Bits(g, v) && c < i
  }

  // The lists of the node's elements below i have been emptied, unless it closed.
  ghost predicate PartlyDone(g0: Graph, g: Graph, node: nat, i: nat) {
    forall v {:trigger Closed(g, v)} :: v in ClassVars(g0, node) ==> Closed(g, v) || Unchanged(g0, g, v, Done(g0, v, i))
  }

  lemma NothingChanged(g: Graph)
    ensures NodesGrow(g, g) && SameLinks(g, g) && Evolves(g, g, {})
  {
    EvolvesSelf(g);
  }

  lemma Twice(g0: Graph, g: Graph, g': Graph)
    requires NodesGrow(g0, g) && NodesGrow(g, g')
    ensures NodesGrow(g0, g')
    ensures SameLinks(g0, g) && SameLinks(g, g') ==> SameLinks(g0, g')
  {
    forall n | n in g0.nodes
      ensures g0.nodes[n].bits <= g'.nodes[n].bits
      ensures SameLinks(g0, g) && SameLinks(g, g') ==> g'.nodes[n].sups == g0.nodes[n].sups
    {
      assert g0.nodes[n].bits <= g.nodes[n].bits <= g'.nodes[n].bits;
    }
  }

  lemma MergeNodesGrow(g: Graph, size: nat, n1: nat, n2: nat)
    requires Mergeable(g, size, n1, n2)
    ensures NodesGrow(g, Merged(g, n1, n2))
  {
    hide Redirected, MergedNodes;
  }

  lemma VariableNode(g: Graph, size: nat, v: nat)
    requires Shaped(g, size) && v in g.dag
    ensures g.dag[v] in g.nodes
  {
  }

  lemma HasLists(g: Graph, size: nat, n: nat)
    requires Shaped(g, size) && n in g.nodes
    ensures |g.nodes[n].conds| == size
  {
    assert NodeShaped(g, size, n);
  }

  // -------------------------------------------------------------------------
  // Merging
  // -------------------------------------------------------------------------

  // The updates of a merge, taken together.
  lemma TablesMerged(g: Graph, n1: nat, n2: nat, nodes1: map<nat, Node>, nodes2: map<nat, Node>, nodes3: map<nat, Node>,
      nodes4: map<nat, Node>)
    requires n1 in g.nodes && n2 in g.nodes && n1 != n2 && |g.nodes[n1].conds| == |g.nodes[n2].conds|
    requires nodes1.Keys == nodes2.Keys == nodes3.Keys == nodes4.Keys == g.nodes.Keys
    requires var a, b := g.nodes[n1], g.nodes[n2];
      && nodes1[n1]
        == a.(bits := a.bits + b.bits, conds :=
        seq(|a.conds|, i requires 0 <= i < |a.conds| => a.conds[i] + b.conds[i]))
      && nodes2[n1] == nodes1[n1].(sups := nodes1[n1].sups + (b.sups - {n1}))
      && nodes3[n1] == nodes2[n1].(subs := nodes2[n1].subs + (b.subs - {n1}))
      && nodes4[n1] == nodes3[n1].(sups := nodes3[n1].sups - {n2}, subs := nodes3[n1].subs - {n2})
    requires var b := g.nodes[n2];
      forall x | x in g.nodes && x != n1 ::
        && nodes1[x] == g.nodes[x]
        && nodes2[x] == (if x in b.sups - {n1} then nodes1[x].(subs := nodes1[x].subs - {n2} + {n1}) else nodes1[x])
        && nodes3[x] == (if x in b.subs - {n1} then nodes2[x].(sups := nodes2[x].sups - {n2} + {n1}) else nodes2[x])
        && nodes4[x] == nodes3[x]
    ensures nodes4 == Merged(g, n1, n2).nodes
  {
    hide Redirected, MergedNodes;
    forall x | x in g.nodes
      ensures nodes4[x] == MergedNode(g, n1, n2, x)
    {
      if x != n1 {
        assert nodes1[x] == g.nodes[x];
      }
    }
  }

  lemma MergedFewer(g: Graph, size: nat, n1: nat, n2: nat)
    requires Mergeable(g, size, n1, n2)
    ensures Classes(Merged(g, n1, n2)) < Classes(g)
  {
    hide Redirected, MergedNodes;
    LiveAfter(g, size, n1, n2);
    SubsetIsSmaller(Merged(g, n1, n2).dag.Values, g.dag.Values);
  }

  lemma EndOfPath(g: Graph, owner: map<nat, nat>, given: seq<Constraint>, n: nat, out: set<nat>)
    requires OnCycle(g, owner, given, [n], out)
    ensures out == {n} && Live(g, n) && PathVars(g, [n]) == ClassVars(g, n)
  {
    assert [n][0] == n;
    assert n in [n];
  }

  // Nodes that every solution gives one set.
  ghost predicate SameSets(owner: map<nat, nat>, given: seq<Constraint>, path: seq<nat>) {
    && (forall i {:trigger path[i]} | 0 <= i < |path| :: path[i] in owner)
    && (forall s: Assignment, i, j {:trigger Solves(s, given), path[i], path[j]} ::
      Solves(s, given) && 0 <= i < |path| && 0 <= j < |path| ==>
          s(owner[path[i]]) == s(owner[path[j]]))
  }

  ghost predicate DistinctLive(g: Graph, path: seq<nat>, out: set<nat>) {
    && (forall i, j {:trigger path[i], path[j]} | 0 <= i < j < |path| :: path[i] != path[j])
    && (forall i {:trigger path[i]} | 0 <= i < |path| :: Live(g, path[i]))
    && (forall x {:trigger x in out} :: x in out <==> x in path)
  }

  ghost predicate OnCycle(g: Graph, owner: map<nat, nat>, given: seq<Constraint>, path: seq<nat>, out: set<nat>) {
    DistinctLive(g, path, out) && SameSets(owner, given, path)
  }

  ghost function PathVars(g: Graph, path: seq<nat>): set<nat> {
    set v | v in g.dag && g.dag[v] in path
  }

  lemma EvolvesMore(g: Graph, g': Graph, open: set<nat>, open': set<nat>)
    requires Evolves(g, g', open) && open <= open'
    ensures Evolves(g, g', open')
  {
  }

  lemma EvolvesStep(g0: Graph, g1: Graph, g2: Graph, n1: nat, n2: nat)
    requires Evolves(g0, g1, ClassVars(g1, n1)) && Evolves(g1, g2, ClassVars(g2, n2))
    requires forall v | v in g1.dag && g1.dag[v] == n1 :: v in g2.dag && g2.dag[v] == n2
    ensures Evolves(g0, g2, ClassVars(g2, n2))
  {
    EvolvesTwice(g0, g1, g2, ClassVars(g1, n1), ClassVars(g2, n2));
    assert ClassVars(g1, n1) + ClassVars(g2, n2) == ClassVars(g2, n2);
  }

  lemma PathOnCycle(g: Graph, owner: map<nat, nat>, given: seq<Constraint>, t: nat, n: nat, path: seq<nat>,
      rank: nat -> nat)
    requires Sound(g, owner, given) && owner.Keys == g.nodes.Keys && Ranked(g, rank, {n})
    requires BackPath(g, t, n, path) && Edge(g, n, t)
    ensures OnCycle(g, owner, given, path, set x | x in path) && Ranked(g, rank, set x | x in path)
  {
    CycleSame(g, owner, given, path);
    assert path[0] == n && n in path;
    forall s: Assignment, i, j | Solves(s, given) && 0 <= i < |path| && 0 <= j < |path|
      ensures s(owner[path[i]]) == s(owner[path[j]])
    {
      assert s(owner[path[i]]) == s(owner[path[0]]) == s(owner[path[j]]);
    }
  }

  lemma CanMerge(g: Graph, size: nat, owner: map<nat, nat>, given: seq<Constraint>, path: seq<nat>, out: set<nat>)
    requires Shaped(g, size) && OnCycle(g, owner, given, path, out) && |path| >= 2
    ensures var a, b := path[|path| - 1], path[|path| - 2];
      && Mergeable(g, size, a, b) && a in out && b in out && a in owner && b in owner
      && forall s: Assignment {:trigger Solves(s, given)} :: Solves(s, given) ==> s(owner[a]) == s(owner[b])
  {
    var a, b := path[|path| - 1], path[|path| - 2];
    assert Live(g, a) && Live(g, b) && a in path && b in path;
    LiveNode(g, size, a);
    LiveNode(g, size, b);
    assert NodeShaped(g, size, a) && NodeShaped(g, size, b);
  }

  lemma StillOnCycle(g: Graph, size: nat, owner: map<nat, nat>, given: seq<Constraint>, path: seq<nat>, out: set<nat>)
    requires OnCycle(g, owner, given, path, out) && |path| >= 2
    requires Mergeable(g, size, path[|path| - 1], path[|path| - 2])
    ensures var a, b := path[|path| - 1], path[|path| - 2];
      var g', path' := Merged(g, a, b), path[..|path| - 2] + [a];
      && OnCycle(g', owner, given, path', out - {b})
      && PathVars(g', path') == PathVars(g, path)
      && ClassVars(g, a) + ClassVars(g, b) <= PathVars(g, path)
  {
    hide Merged, Shaped;
    var k := |path|;
    var a, b := path[k - 1], path[k - 2];
    var g', path' := Merged(g, a, b), path[..k - 2] + [a];
    MergedView(g, a, b);
    LiveAfter(g, size, a, b);
    assert forall i | 0 <= i < |path'| :: path'[i] == if i == k - 2 then path[k - 1] else path[i];
    forall x
      ensures x in path' <==> x in path && x != b
    {
      InShorter(path, path', x);
    }
    forall i | 0 <= i < |path'|
      ensures Live(g', path'[i])
    {
      var j := if i == k - 2 then k - 1 else i;
      assert path'[i] == path[j] && Live(g, path[j]);
      assert path[j] != b;
    }
    forall v
      ensures v in PathVars(g', path') <==> v in PathVars(g, path)
    {
      if v in g.dag {
        assert a in path && b in path;
      }
    }
  }

  lemma InShorter(path: seq<nat>, path': seq<nat>, x: nat)
    requires |path| >= 2 && path' == path[..|path| - 2] + [path[|path| - 1]]
    requires forall i, j {:trigger path[i], path[j]} | 0 <= i < j < |path| :: path[i] != path[j]
    ensures x in path' <==> x in path && x != path[|path| - 2]
  {
    var k := |path|;
    if x in path && x != path[k - 2] {
      var i :| 0 <= i < k && path[i] == x;
      var j := if i == k - 1 then k - 2 else i;
      assert path'[j] == x;
    }
    if x in path' {
      var j :| 0 <= j < |path'| && path'[j] == x;
      var i := if j == k - 2 then k - 1 else j;
      assert path[i] == x;
      if i == k - 1 {
        assert path[k - 2] != path[k - 1];
      } else {
        assert path[i] != path[k - 2];
      }
    }
  }

  // -------------------------------------------------------------------------
  // Steps of propagation
  // -------------------------------------------------------------------------

  // A new edge from one class to another: only cycles through its lower end arise.
  lemma EdgeBetween(g: Graph, size: nat, owner: map<nat, nat>, given: seq<Constraint>, u: nat, v: nat, rank: nat -> nat,
      died: map<nat, nat>, clock: nat)
    requires Shaped(g, size) && Sound(g, owner, given) && Ranked(g, rank, {}) && Retired(g, died, clock)
    requires u in g.dag && v in g.dag && g.dag[u] != g.dag[v]
    requires forall s: Assignment {:trigger Solves(s, given)} :: Solves(s, given) ==> s(u) <= s(v)
    ensures g.dag[u] in g.nodes && g.dag[v] in g.nodes && Live(g, g.dag[u])
    ensures var g' := WithEdge(g, g.dag[u], g.dag[v]);
      && Shaped(g', size) && Sound(g', owner, given) && Ranked(g', rank, {g.dag[u]}) && Retired(g', died, clock)
      && NodesGrow(g, g') && Evolves(g, g', ClassVars(g, g.dag[u])) && Connected(g', u, v)
      && Live(g', g.dag[u]) && Classes(g') == Classes(g) && Pending(g') == Pending(g)
  {
    hide Sound, Retired, Evolves, NodeShaped, Connected, Pending;
    var a, b := g.dag[u], g.dag[v];
    assert Live(g, a) && Live(g, b);
    var g' := WithEdge(g, a, b);
    EdgeShaped(g, size, a, b);
    EdgeEvolves(g, size, u, v);
    EdgeSound(g, owner, given, u, v);
    SameListsPending(g, g');
    forall n, m | Edge(g', n, m) && n !in {a} && m !in {a}
      ensures rank(m) < rank(n)
    {
      assert Edge(g, n, m);
    }
    EdgeRetired(g, a, b, died, clock);
  }

  lemma EdgeRetired(g: Graph, a: nat, b: nat, died: map<nat, nat>, clock: nat)
    requires Retired(g, died, clock) && a in g.nodes && b in g.nodes && a != b && Live(g, a) && Live(g, b)
    ensures Retired(WithEdge(g, a, b), died, clock)
  {
    var g' := WithEdge(g, a, b);
    forall n
      ensures n in died <==> n in g'.nodes && !Live(g', n)
    {
      assert n in died <==> n in g.nodes && !Live(g, n);
      assert Live(g', n) <==> Live(g, n);
    }
    forall n, m | n in died && m in g'.nodes[n].sups
      ensures Live(g', m) || (m in died && died[m] > died[n])
    {
      assert n != a;
      assert m in g.nodes[n].sups;
      assert Live(g', m) <==> Live(g, m);
    }
  }

  lemma TogetherConnected(g: Graph, u: nat, v: nat)
    requires Together(g, u, v)
    ensures Connected(g, u, v)
  {
  }

  lemma ActivateEvolves(g0: Graph, g1: Graph, g2: Graph, g3: Graph, a: nat, n: nat, from: nat, to: nat)
    requires Evolves(g0, g1, ClassVars(g0, a)) && Connected(g1, from, to)
    requires g1.dag == g0.dag
    requires Evolves(g1, g2, ClassVars(g2, n)) && forall v | v in g1.dag && g1.dag[v] == a ::
      v in g2.dag && g2.dag[v] == n
    requires Evolves(g2, g3, {}) && forall v | v in ClassVars(g2, n) :: Closed(g3, v)
    ensures Evolves(g0, g3, {}) && Connected(g3, from, to)
  {
    EvolvesTwice(g0, g1, g2, ClassVars(g0, a), ClassVars(g2, n));
    assert ClassVars(g0, a) + ClassVars(g2, n) == ClassVars(g2, n);
    EvolvesClosed(g0, g2, g3, ClassVars(g2, n));
    assert Connected(g2, from, to);
  }

  lemma ActivateLasts(g0: Graph, g1: Graph, g2: Graph, g3: Graph, a: nat, n: nat, from: nat, to: nat, missed: bool)
    requires Evolves(g0, g1, ClassVars(g0, a)) && Connected(g1, from, to) && g1.dag == g0.dag
    requires Evolves(g1, g2, ClassVars(g2, n)) && forall v | v in g1.dag && g1.dag[v] == a ::
      v in g2.dag && g2.dag[v] == n
    requires NodesGrow(g0, g1) && NodesGrow(g1, g2) && Lasts(g2, g3)
    requires !missed ==> Settles(g2, g3, {}) && forall v | v in ClassVars(g2, n) :: Closed(g3, v)
    ensures Lasts(g0, g3) && Connected(g3, from, to)
    ensures !missed ==> Settles(g0, g3, {})
  {
    hide Settles, Closed, ClassVars;
    LastsTwice(g0, g1, g2);
    LastsTwice(g0, g2, g3);
    assert Connected(g2, from, to);
    if !missed {
      ActivateEvolves(g0, g1, g2, g3, a, n, from, to);
    }
  }

  lemma PropagatedAll(g0: Graph, g1: Graph, g2: Graph, node: nat)
    requires Lasts(g0, g1) && Settles(g0, g1, ClassVars(g0, node)) && Lasts(g1, g2) && Settles(g1, g2, {})
    requires forall v | v in ClassVars(g0, node) :: Closed(g1, v) || Quiet(g1, node, v)
    requires forall v {:trigger Quiet(g1, node, v)} :: Quiet(g1, node, v) ==> Closed(g2, v)
    ensures Settles(g0, g2, {})
    ensures forall v | v in ClassVars(g0, node) :: Closed(g2, v)
  {
    hide Settles, Closed, Quiet, Grows, Keeps;
    Propagated(g0, g1, g2, node);
  }

  lemma Propagated(g0: Graph, g1: Graph, g2: Graph, node: nat)
    requires Evolves(g0, g1, ClassVars(g0, node)) && Evolves(g1, g2, {})
    requires forall v | v in ClassVars(g0, node) :: Closed(g1, v) || Quiet(g1, node, v)
    requires forall v {:trigger Quiet(g1, node, v)} :: Quiet(g1, node, v) ==> Closed(g2, v)
    ensures Evolves(g0, g2, {})
    ensures forall v | v in ClassVars(g0, node) :: Closed(g2, v)
  {
    forall v | v in ClassVars(g0, node)
      ensures Closed(g2, v)
    {
      if !Quiet(g1, node, v) && !Closed(g2, v) {
        assert v in g1.dag;
        ClosedStays(g1, g2, v);
      }
    }
    EvolvesClosed(g0, g1, g2, ClassVars(g0, node));
  }

  lemma NothingDoneYet(g: Graph, node: nat)
    ensures PartlyDone(g, g, node, 0) && Settles(g, g, ClassVars(g, node))
  {
    NothingDone(g, node);
    EvolvesSelf(g);
  }

  lemma OneMoreSettled(g0: Graph, g: Graph, g': Graph, node: nat, i: nat)
    requires Lasts(g0, g) && Settles(g0, g, ClassVars(g0, node)) && PartlyDone(g0, g, node, i)
    requires node in g.nodes && i in g.nodes[node].bits
    requires Lasts(g, g') && Settles(g, g', ClassVars(g, node))
    requires forall v | v in ClassVars(g, node) :: Closed(g', v) || Unchanged(g, g', v, {i})
    ensures Settles(g0, g', ClassVars(g0, node)) && PartlyDone(g0, g', node, i + 1)
  {
    hide PartlyDone, Settles, Closed, Unchanged, Grows, Keeps;
    OneMoreDone(g0, g, g', node, i);
  }

  lemma AllSettled(g0: Graph, g: Graph, size: nat, node: nat)
    requires PartlyDone(g0, g, node, size) && Shaped(g0, size) && Lasts(g0, g) && Settles(g0, g, ClassVars(g0, node))
    ensures forall v | v in ClassVars(g0, node) :: Closed(g, v) || Quiet(g, node, v)
  {
    hide PartlyDone, Settles, Closed, Quiet, Grows, Keeps, Shaped;
    AllDone(g0, g, size, node);
  }

  lemma NothingDone(g: Graph, node: nat)
    ensures PartlyDone(g, g, node, 0)
  {
    EvolvesSelf(g);
    forall v | v in ClassVars(g, node)
      ensures Closed(g, v) || Unchanged(g, g, v, Done(g, v, 0))
    {
      assert Done(g, v, 0) == {};
    }
  }

  // Nothing to do for an element the node does not hold.
  lemma NotSet(g0: Graph, g: Graph, node: nat, i: nat)
    requires PartlyDone(g0, g, node, i)
    requires node in g.nodes && i !in g.nodes[node].bits
    ensures PartlyDone(g0, g, node, i + 1)
  {
    forall v | v in ClassVars(g0, node)
      ensures Closed(g, v) || Unchanged(g0, g, v, Done(g0, v, i + 1))
    {
      if !Closed(g, v) {
        assert Unchanged(g0, g, v, Done(g0, v, i));
        assert Bits(g0, v) == Bits(g, v) == g.nodes[node].bits;
        assert Done(g0, v, i + 1) == Done(g0, v, i);
      }
    }
  }

  lemma OneMoreDone(g0: Graph, g: Graph, g': Graph, node: nat, i: nat)
    requires Evolves(g0, g, ClassVars(g0, node)) && PartlyDone(g0, g, node, i)
    requires node in g.nodes && i in g.nodes[node].bits
    requires Grows(g, g') && Keeps(g, g', []) && Settles(g, g', ClassVars(g, node))
    requires forall v | v in ClassVars(g, node) :: Closed(g', v) || Unchanged(g, g', v, {i})
    ensures Evolves(g0, g', ClassVars(g0, node)) && PartlyDone(g0, g', node, i + 1)
  {
    GrowsTwice(g0, g, g');
    KeepsTwice(g0, g, g', []);
    forall v | v in g0.dag
      ensures v !in ClassVars(g0, node) ==> Closed(g', v) || Unchanged(g0, g', v, {})
      ensures v in ClassVars(g0, node) ==> Closed(g', v) || Unchanged(g0, g', v, Done(g0, v, i + 1))
    {
      OneMore(g0, g, g', node, i, v);
    }
  }

  lemma OneMore(g0: Graph, g: Graph, g': Graph, node: nat, i: nat, v: nat)
    requires Evolves(g0, g, ClassVars(g0, node)) && PartlyDone(g0, g, node, i)
    requires node in g.nodes && i in g.nodes[node].bits
    requires Grows(g, g') && Settles(g, g', ClassVars(g, node))
    requires forall v | v in ClassVars(g, node) :: Closed(g', v) || Unchanged(g, g', v, {i})
    requires v in g0.dag
    ensures v !in ClassVars(g0, node) ==> Closed(g', v) || Unchanged(g0, g', v, {})
    ensures v in ClassVars(g0, node) ==> Closed(g', v) || Unchanged(g0, g', v, Done(g0, v, i + 1))
  {
    var none: set<nat> := {};
    assert v in g.dag;
    if Closed(g', v) {
      return;
    }
    if v !in ClassVars(g0, node) && !Closed(g, v) {
      assert Unchanged(g0, g, v, none);
    }
    if v in ClassVars(g, node) {
      if Closed(g, v) {
        ClosedEmptied(g, g', v, i);
      } else if v in ClassVars(g0, node) {
        UnchangedTwice(g0, g, g', v, Done(g0, v, i), {i});
        assert Bits(g0, v) == Bits(g, v) == g.nodes[node].bits;
        assert Done(g0, v, i) + {i} == Done(g0, v, i + 1);
      }
    } else {
      assert Unchanged(g, g', v, {});
      if Closed(g, v) {
        ClosedStays(g, g', v);
      } else {
        assert v !in ClassVars(g0, node);
        UnchangedTwice(g0, g, g', v, none, none);
        assert none + none == none;
      }
    }
  }

  // A closed variable whose list was emptied had an empty list.
  lemma ClosedEmptied(g: Graph, g': Graph, v: nat, i: nat)
    requires Grows(g, g') && Closed(g, v) && Unchanged(g, g', v, {i})
    ensures Closed(g', v)
  {
    forall w | Connected(g', v, w)
      ensures Bits(g', v) <= Bits(g', w)
    {
      var w0 :| Connected(g, v, w0) && Together(g', w0, w);
      assert Bits(g, w0) <= Bits(g', w0);
    }
  }

  lemma AllDone(g0: Graph, g: Graph, size: nat, node: nat)
    requires PartlyDone(g0, g, node, size) && Shaped(g0, size) && Evolves(g0, g, ClassVars(g0, node))
    ensures forall v | v in ClassVars(g0, node) :: Closed(g, v) || Quiet(g, node, v)
  {
    forall v | v in ClassVars(g0, node)
      ensures Closed(g, v) || Quiet(g, node, v)
    {
      if !Closed(g, v) {
        assert Unchanged(g0, g, v, Done(g0, v, size));
        assert NodeShaped(g0, size, node);
        assert Done(g0, v, size) == Bits(g0, v);
      }
    }
  }

  // A list is taken from its node: sound, and its constraints are justified.
  lemma ListTaken(g: Graph, size: nat, owner: map<nat, nat>, given: seq<Constraint>, node: nat, i: nat,
      rank: nat -> nat, died: map<nat, nat>, clock: nat)
    requires Shaped(g, size) && Sound(g, owner, given) && Ranked(g, rank, {}) && Retired(g, died, clock) &&
      owner.Keys == g.nodes.Keys
    requires node in g.nodes && i < |g.nodes[node].conds| && i in g.nodes[node].bits
    ensures var g', list := WithList(g, node, i, []), g.nodes[node].conds[i];
      && Shaped(g', size) && Sound(g', owner, given) && Ranked(g', rank, {}) && Retired(g', died, clock)
      && NodesGrow(g, g') && SameLinks(g, g') && Classes(g') == Classes(g)
      && (if list == [] then |Pending(g')| == |Pending(g)| else |Pending(g')| < |Pending(g)|)
      && (forall p | p in list :: p.0 in g.dag && p.1 in g.dag)
      && (forall p, s: Assignment {:trigger p in list, Solves(s, given)} :: p in list && Solves(s, given) ==>
        s(p.0) <= s(p.1))
  {
    var g', list := WithList(g, node, i, []), g.nodes[node].conds[i];
    assert NodeShaped(g, size, node);
    ListShaped(g, size, node, i, []);
    ListSound(g, owner, given, node, i, []);
    LinksRanked(g, g', rank, {});
    LinksRetired(g, g', died, clock);
    if list == [] {
      assert g'.nodes[node].conds == g.nodes[node].conds;
      SameListsPending(g, g');
    } else {
      EmptiedPending(g, node, i);
    }
    forall p, s: Assignment | p in list && Solves(s, given)
      ensures s(p.0) <= s(p.1)
    {
      assert SoundFor(g, owner, s);
      assert NodeSound(g.nodes[node], s(owner[node]), owner, s);
    }
  }

  lemma StillThereLasts(g: Graph, g': Graph, p: (nat, nat))
    requires Lasts(g, g') && p.0 in g.dag && p.1 in g.dag
    ensures p.0 in g'.dag && p.1 in g'.dag
  {
  }

  // The first j of the list have been taken.
  ghost predicate AllConnected(g: Graph, list: seq<(nat, nat)>, j: nat)
    requires j <= |list|
  {
    forall k {:trigger list[k]} | 0 <= k < j :: Connected(g, list[k].0, list[k].1)
  }

  lemma NoneConnected(g: Graph, list: seq<(nat, nat)>)
    ensures AllConnected(g, list, 0)
  {
  }

  lemma ConnectedStill(g: Graph, g': Graph, list: seq<(nat, nat)>, j: nat)
    requires Lasts(g, g') && j < |list| && AllConnected(g, list, j) && Connected(g', list[j].0, list[j].1)
    ensures AllConnected(g', list, j + 1)
  {
    forall k | 0 <= k < j
      ensures Connected(g', list[k].0, list[k].1)
    {
      assert Connected(g, list[k].0, list[k].1);
    }
  }

  lemma ListActivated(g0: Graph, g1: Graph, g2: Graph, node: nat, i: nat, list: seq<(nat, nat)>)
    requires node in g0.nodes && i < |g0.nodes[node].conds| && list == g0.nodes[node].conds[i]
    requires g1 == WithList(g0, node, i, []) && Evolves(g1, g2, {})
    requires forall k {:trigger list[k]} | 0 <= k < |list| :: Connected(g2, list[k].0, list[k].1)
    ensures Grows(g0, g2) && Keeps(g0, g2, []) && Settles(g0, g2, ClassVars(g0, node))
    ensures forall v | v in ClassVars(g0, node) :: Closed(g2, v) || Unchanged(g0, g2, v, {i})
  {
    assert Grows(g0, g1);
    GrowsTwice(g0, g1, g2);
    assert Keeps(g0, g1, list);
    KeepsTwice(g0, g1, g2, list);
    forall v: nat, c: nat, p: (nat, nat) | Waiting(g0, v, c, p)
      ensures Waiting(g2, v, c, p) || Connected(g2, p.0, p.1)
    {
      if p in list {
        var k :| 0 <= k < |list| && list[k] == p;
        assert Connected(g2, list[k].0, list[k].1);
      }
    }
    forall v | v in g0.dag
      ensures v !in ClassVars(g0, node) ==> Closed(g2, v) || Unchanged(g0, g2, v, {})
      ensures v in ClassVars(g0, node) ==> Closed(g2, v) || Unchanged(g0, g2, v, {i})
    {
      ListFor(g0, g1, g2, node, i, v);
    }
  }

  lemma ListLasts(g0: Graph, g1: Graph, g2: Graph, node: nat, i: nat, list: seq<(nat, nat)>, missed: bool)
    requires node in g0.nodes && i < |g0.nodes[node].conds| && list == g0.nodes[node].conds[i]
    requires g1 == WithList(g0, node, i, []) && NodesGrow(g0, g1) && Lasts(g1, g2)
    requires !missed ==> Settles(g1, g2, {})
    requires AllConnected(g2, list, |list|)
    ensures Lasts(g0, g2)
    ensures !missed ==> Settles(g0, g2, ClassVars(g0, node)) && forall v | v in ClassVars(g0, node) ::
      Closed(g2, v) || Unchanged(g0, g2, v, {i})
  {
    ListKeeps(g0, g1, g2, node, i, list);
    Twice(g0, g1, g2);
    if !missed {
      ListActivated(g0, g1, g2, node, i, list);
    }
  }

  lemma ListKeeps(g0: Graph, g1: Graph, g2: Graph, node: nat, i: nat, list: seq<(nat, nat)>)
    requires node in g0.nodes && i < |g0.nodes[node].conds| && list == g0.nodes[node].conds[i]
    requires g1 == WithList(g0, node, i, []) && Grows(g1, g2) && Keeps(g1, g2, [])
    requires forall k {:trigger list[k]} | 0 <= k < |list| :: Connected(g2, list[k].0, list[k].1)
    ensures Grows(g0, g2) && Keeps(g0, g2, [])
  {
    assert Grows(g0, g1);
    GrowsTwice(g0, g1, g2);
    assert Keeps(g0, g1, list);
    KeepsTwice(g0, g1, g2, list);
    forall v: nat, c: nat, p: (nat, nat) | Waiting(g0, v, c, p)
      ensures Waiting(g2, v, c, p) || Connected(g2, p.0, p.1)
    {
      if p in list {
        var k :| 0 <= k < |list| && list[k] == p;
        assert Connected(g2, list[k].0, list[k].1);
      }
    }
  }

  lemma ListFor(g0: Graph, g1: Graph, g2: Graph, node: nat, i: nat, v: nat)
    requires node in g0.nodes && i < |g0.nodes[node].conds|
    requires g1 == WithList(g0, node, i, []) && Evolves(g1, g2, {}) && v in g0.dag
    ensures v !in ClassVars(g0, node) ==> Closed(g2, v) || Unchanged(g0, g2, v, {})
    ensures v in ClassVars(g0, node) ==> Closed(g2, v) || Unchanged(g0, g2, v, {i})
  {
    var none: set<nat> := {};
    if !Closed(g2, v) {
      assert v in g1.dag && Unchanged(g1, g2, v, {});
      if v in ClassVars(g0, node) {
        ListEmptied(g0, node, i, v);
        UnchangedTwice(g0, g1, g2, v, {i}, none);
        assert {i} + none == {i};
      } else {
        ListElsewhere(g0, node, i, [], v);
        UnchangedTwice(g0, g1, g2, v, none, none);
        assert none + none == none;
      }
    }
  }

  // A superset is closer to the top, or was merged away later.
  lemma BelowNode(g: Graph, size: nat, rank: nat -> nat, died: map<nat, nat>, clock: nat, node: nat, s: nat)
    requires Shaped(g, size) && Ranked(g, rank, {}) && Retired(g, died, clock) && node in g.nodes &&
      s in g.nodes[node].sups
    ensures s in g.nodes
    ensures StageOf(g, s) < StageOf(g, node) ||
      (StageOf(g, s) == StageOf(g, node) && DepthOf(g, rank, died, clock, s) < DepthOf(g, rank, died, clock, node))
  {
    assert NodeShaped(g, size, node);
    if Live(g, node) {
      assert Edge(g, node, s);
    } else {
      assert node in died;
      assert s in died ==> died[s] < clock;
    }
  }

  lemma SamePlace(g: Graph, g': Graph, rank: nat -> nat, died: map<nat, nat>, clock: nat, n: nat)
    requires SameLinks(g, g')
    ensures StageOf(g', n) == StageOf(g, n) && DepthOf(g', rank, died, clock, n) == DepthOf(g, rank, died, clock, n)
  {
  }

  lemma BitsPushed(g: Graph, size: nat, owner: map<nat, nat>, given: seq<Constraint>, node: nat, s: nat,
      rank: nat -> nat, died: map<nat, nat>, clock: nat)
    requires Shaped(g, size) && Sound(g, owner, given) && Ranked(g, rank, {}) && Retired(g, died, clock) &&
      owner.Keys == g.nodes.Keys
    requires node in g.nodes && s in g.nodes && s in g.nodes[node].sups
    ensures var g' := WithBits(g, s, g.nodes[node].bits);
      && Shaped(g', size) && Sound(g', owner, given) && Ranked(g', rank, {}) && Retired(g', died, clock)
      && NodesGrow(g, g') && SameLinks(g, g') && Classes(g') == Classes(g) && Pending(g') == Pending(g)
      && Evolves(g, g', ClassVars(g, s))
  {
    var g', bits := WithBits(g, s, g.nodes[node].bits), g.nodes[node].bits;
    assert NodeShaped(g, size, node);
    BitsEvolve(g, size, s, bits);
    forall a: Assignment | Solves(a, given)
      ensures bits <= a(owner[s])
    {
      assert SoundFor(g, owner, a);
      assert NodeSound(g.nodes[node], a(owner[node]), owner, a);
    }
    BitsSound(g, owner, given, s, bits);
    LinksRanked(g, g', rank, {});
    LinksRetired(g, g', died, clock);
    SameListsPending(g, g');
  }

  lemma PushedLasts(g: Graph, g1: Graph, g2: Graph, node: nat, s: nat, missed: bool)
    requires node in g.nodes && s in g.nodes && g1 == WithBits(g, s, g.nodes[node].bits)
    requires NodesGrow(g, g1) && Evolves(g, g1, ClassVars(g, s)) && Lasts(g1, g2)
    requires !missed ==> Settles(g1, g2, {}) && forall v | v in ClassVars(g1, s) :: Closed(g2, v)
    ensures Lasts(g, g2) && s in g2.nodes && g.nodes[node].bits <= g2.nodes[s].bits
    ensures SameLinks(g, g1) && SameLinks(g1, g2) ==> SameLinks(g, g2)
    ensures !missed ==> Settles(g, g2, {})
  {
    hide Settles, Closed;
    LastsTwice(g, g1, g2);
    assert g1.nodes[s].bits <= g2.nodes[s].bits;
    if !missed {
      assert ClassVars(g1, s) == ClassVars(g, s);
      EvolvesClosed(g, g1, g2, ClassVars(g, s));
    }
  }

  // What stays the same for a loop at node.
  lemma PushedSame(g0: Graph, g: Graph, g': Graph, node: nat)
    requires Lasts(g0, g) && Lasts(g, g') && node in g.nodes
    ensures node in g'.nodes && g'.nodes.Keys == g.nodes.Keys && g.nodes[node].bits <= g'.nodes[node].bits
    ensures Grows(g, g') && NodesGrow(g, g')
  {
  }

  lemma InTable(g: Graph, size: nat, node: nat, s: nat)
    requires Shaped(g, size) && s in Sups(g, node)
    ensures s in g.nodes
  {
    assert NodeShaped(g, size, node);
  }

  lemma AllInTable(g: Graph, size: nat, node: nat)
    requires Shaped(g, size) && node in g.nodes
    ensures Sups(g, node) * g.nodes.Keys == Sups(g, node) == g.nodes[node].sups
  {
    assert NodeShaped(g, size, node);
  }

  // All sets above the node hold the elements it had.
  ghost predicate AllFed(g: Graph, node: nat, want: set<nat>) {
    node in g.nodes && forall m {:trigger m in g.nodes[node].sups} :: m in g.nodes[node].sups ==>
      m in g.nodes && want <= g.nodes[m].bits
  }

  lemma PushedUp(g0: Graph, g: Graph, size: nat, node: nat)
    requires Shaped(g, size) && Settles(g0, g, {}) && Lasts(g0, g) && node in g0.nodes
    requires AllFed(g, node, g0.nodes[node].bits)
    ensures forall v {:trigger Quiet(g0, node, v)} :: Quiet(g0, node, v) ==> Closed(g, v)
  {
    forall v | Quiet(g0, node, v)
      ensures Closed(g, v)
    {
      if !Closed(g, v) {
        assert Unchanged(g0, g, v, {});
        forall w | Connected(g, v, w)
          ensures Bits(g, v) <= Bits(g, w)
        {
          if g.dag[w] != node {
            assert g.dag[w] in g.nodes[node].sups;
          }
        }
        assert Closed(g, v);
      }
    }
  }

  // -------------------------------------------------------------------------
  // A new variable, a new constraint
  // -------------------------------------------------------------------------

  lemma FreshNode(g: Graph, size: nat, owner: map<nat, nat>, given: seq<Constraint>, v: nat, n: nat, rank: nat -> nat,
      died: map<nat, nat>, clock: nat)
    requires Shaped(g, size) && Sound(g, owner, given) && Ranked(g, rank, {}) && Retired(g, died, clock) &&
      owner.Keys == g.nodes.Keys
    requires AllRecorded(g, given) && v !in g.dag && n !in g.nodes
    ensures var g' := WithVariable(g, size, v, n);
      && Shaped(g', size) && Sound(g', owner[n := v], given) && Ranked(g', rank, {}) && Retired(g', died, clock)
      && AllRecorded(g', given) && (AllClosed(g) ==> AllClosed(g'))
  {
    FreshShaped(g, size, v, n);
    FreshRetired(g, size, v, n, rank, died, clock);
    FreshSound(g, size, owner, given, v, n);
    FreshView(g, size, given, v, n);
  }

  lemma FreshLive(g: Graph, size: nat, v: nat, n: nat)
    requires Shaped(g, size) && v !in g.dag && n !in g.nodes
    ensures forall x {:trigger Live(WithVariable(g, size, v, n), x)} :: Live(WithVariable(g, size, v, n), x) <==>
      Live(g, x) || x == n
    ensures !Live(g, n)
  {
    var g' := WithVariable(g, size, v, n);
    forall x
      ensures Live(g', x) <==> Live(g, x) || x == n
    {
      if Live(g, x) {
        var u :| u in g.dag && g.dag[u] == x;
        assert g'.dag[u] == x;
      }
      if x == n {
        assert g'.dag[v] == n;
      } else if Live(g', x) {
        var u :| u in g'.dag && g'.dag[u] == x;
        assert g.dag[u] == x;
      }
    }
  }

  lemma FreshShaped(g: Graph, size: nat, v: nat, n: nat)
    requires Shaped(g, size) && v !in g.dag && n !in g.nodes
    ensures Shaped(WithVariable(g, size, v, n), size)
  {
    var g' := WithVariable(g, size, v, n);
    FreshLive(g, size, v, n);
    forall x | x in g'.nodes
      ensures NodeShaped(g', size, x)
    {
      if x != n {
        assert NodeShaped(g, size, x);
        if Live(g', x) {
          assert LinksLive(g, x);
        }
      }
    }
  }

  lemma FreshRetired(g: Graph, size: nat, v: nat, n: nat, rank: nat -> nat, died: map<nat, nat>, clock: nat)
    requires Shaped(g, size) && Ranked(g, rank, {}) && Retired(g, died, clock) && v !in g.dag && n !in g.nodes
    ensures Ranked(WithVariable(g, size, v, n), rank, {}) && Retired(WithVariable(g, size, v, n), died, clock)
  {
    var g' := WithVariable(g, size, v, n);
    FreshLive(g, size, v, n);
    forall a, b | Edge(g', a, b)
      ensures rank(b) < rank(a)
    {
      assert Live(g', a);
      assert Edge(g, a, b);
    }
    forall x
      ensures x in died <==> x in g'.nodes && !Live(g', x)
    {
      assert Live(g', x) <==> Live(g, x) || x == n;
      assert x in died <==> x in g.nodes && !Live(g, x);
    }
    forall x, m | x in died && m in g'.nodes[x].sups
      ensures Live(g', m) || (m in died && died[m] > died[x])
    {
      assert m in g.nodes[x].sups;
      assert Live(g', m) <==> Live(g, m) || m == n;
    }
  }

  lemma FreshSound(g: Graph, size: nat, owner: map<nat, nat>, given: seq<Constraint>, v: nat, n: nat)
    requires Shaped(g, size) && Sound(g, owner, given) && owner.Keys == g.nodes.Keys && v !in g.dag && n !in g.nodes
    ensures Sound(WithVariable(g, size, v, n), owner[n := v], given)
  {
    var g', owner' := WithVariable(g, size, v, n), owner[n := v];
    forall s: Assignment | Solves(s, given)
      ensures SoundFor(g', owner', s)
    {
      assert SoundFor(g, owner, s);
      forall x | x in g'.nodes
        ensures NodeSound(g'.nodes[x], s(owner'[x]), owner', s)
      {
        if x != n {
          assert NodeSound(g.nodes[x], s(owner[x]), owner, s);
        }
      }
      forall u | u in g'.dag
        ensures g'.dag[u] in owner' && s(u) == s(owner'[g'.dag[u]])
      {
        if u != v {
          assert g.dag[u] in owner;
        }
      }
    }
  }

  lemma FreshView(g: Graph, size: nat, given: seq<Constraint>, v: nat, n: nat)
    requires Shaped(g, size) && AllRecorded(g, given) && v !in g.dag && n !in g.nodes
    ensures var g' := WithVariable(g, size, v, n); AllRecorded(g', given) && (AllClosed(g) ==> AllClosed(g'))
  {
    var g' := WithVariable(g, size, v, n);
    forall u
      ensures u != v ==> NodeOf(g', u) == NodeOf(g, u)
      ensures Bits(g, u) <= Bits(g', u)
    {
      if u in g.dag {
        assert g.dag[u] in g.nodes;
      }
    }
    assert NodeOf(g, v) == Node({}, {}, {}, []);
    forall u, w
      ensures Connected(g, u, w) ==> Connected(g', u, w)
      ensures Connected(g', u, w) ==> Connected(g, u, w) || u == w == v
    {
      if u in g.dag {
        assert g.dag[u] in g.nodes && NodeShaped(g, size, g.dag[u]);
      }
      if w in g.dag {
        assert g.dag[w] in g.nodes;
      }
    }
    forall i | 0 <= i < |given|
      ensures Recorded(g', given[i])
    {
      assert Recorded(g, given[i]);
    }
    forall u | u in g'.dag && AllClosed(g)
      ensures Closed(g', u)
    {
      if u != v {
        assert Closed(g, u);
        forall w | Connected(g', u, w)
          ensures Bits(g', u) <= Bits(g', w)
        {
          assert Connected(g, u, w);
        }
        forall c: nat, p: (nat, nat)
          ensures Waiting(g', u, c, p) ==> Waiting(g, u, c, p)
        {
        }
      }
    }
  }

  lemma MoreGiven(g: Graph, owner: map<nat, nat>, given: seq<Constraint>, c: Constraint)
    requires Sound(g, owner, given)
    ensures Sound(g, owner, given + [c])
  {
    forall s: Assignment | Solves(s, given + [c])
      ensures Solves(s, given)
    {
      forall i | 0 <= i < |given|
        ensures Satisfies(s, given[i])
      {
        assert (given + [c])[i] == given[i];
      }
    }
  }

  lemma ElementAdded(g: Graph, size: nat, owner: map<nat, nat>, given: seq<Constraint>, e: nat, v: nat,
      rank: nat -> nat, died: map<nat, nat>, clock: nat)
    requires Shaped(g, size) && Sound(g, owner, given) && Ranked(g, rank, {}) && Retired(g, died, clock) &&
      owner.Keys == g.nodes.Keys
    requires AllRecorded(g, given) && v in g.dag && e < size
    ensures g.dag[v] in g.nodes
    ensures var g', c := WithBits(g, g.dag[v], {e}), ElementOf(e, v);
      && Shaped(g', size) && Sound(g', owner, given + [c]) && Ranked(g', rank, {}) && Retired(g', died, clock)
      && Evolves(g, g', ClassVars(g, g.dag[v])) && AllRecorded(g', given + [c])
  {
    var n, c := g.dag[v], ElementOf(e, v);
    var g' := WithBits(g, n, {e});
    BitsEvolve(g, size, n, {e});
    MoreGiven(g, owner, given, c);
    LastGiven(given + [c], c);
    forall s: Assignment | Solves(s, given + [c])
      ensures {e} <= s(owner[n])
    {
      assert SoundFor(g, owner, s);
      assert Satisfies(s, c);
    }
    BitsSound(g, owner, given + [c], n, {e});
    assert SameLinks(g, g');
    LinksRanked(g, g', rank, {});
    LinksRetired(g, g', died, clock);
    RecordedMore(g, g', given, c);
  }

  lemma ConditionAdded(g: Graph, size: nat, owner: map<nat, nat>, given: seq<Constraint>, e: nat, inside: nat,
      from: nat, to: nat, rank: nat -> nat, died: map<nat, nat>, clock: nat)
    requires Shaped(g, size) && Sound(g, owner, given) && Ranked(g, rank, {}) && Retired(g, died, clock) &&
      owner.Keys == g.nodes.Keys
    requires AllRecorded(g, given) && inside in g.dag && from in g.dag && to in g.dag && e < size
    ensures g.dag[inside] in g.nodes && |g.nodes[g.dag[inside]].conds| == size
    ensures var n := g.dag[inside];
      var g', c := WithList(g, n, e, g.nodes[n].conds[e] + [(from, to)]), Conditional(e, inside, from, to);
      && Shaped(g', size) && Sound(g', owner, given + [c]) && Ranked(g', rank, {}) && Retired(g', died, clock)
      && Evolves(g, g', ClassVars(g, n)) && AllRecorded(g', given + [c])
  {
    var n, c := g.dag[inside], Conditional(e, inside, from, to);
    HasLists(g, size, n);
    var list := g.nodes[n].conds[e] + [(from, to)];
    var g' := WithList(g, n, e, list);
    assert NodeShaped(g, size, n);
    ListShaped(g, size, n, e, list);
    MoreGiven(g, owner, given, c);
    LastGiven(given + [c], c);
    forall s: Assignment, p | Solves(s, given + [c]) && p in list && e in s(owner[n])
      ensures s(p.0) <= s(p.1)
    {
      assert SoundFor(g, owner, s);
      assert NodeSound(g.nodes[n], s(owner[n]), owner, s);
      assert Satisfies(s, c);
    }
    ListSound(g, owner, given + [c], n, e, list);
    assert SameLinks(g, g');
    LinksRanked(g, g', rank, {});
    LinksRetired(g, g', died, clock);
    ConditionEvolves(g, n, e, list, inside, from, to);
    RecordedMore(g, g', given, c);
  }

  lemma ConditionEvolves(g: Graph, n: nat, e: nat, list: seq<(nat, nat)>, inside: nat, from: nat, to: nat)
    requires n in g.nodes && e < |g.nodes[n].conds| && list == g.nodes[n].conds[e] + [(from, to)]
    requires inside in g.dag && g.dag[inside] == n
    ensures Evolves(g, WithList(g, n, e, list), ClassVars(g, n))
    ensures Waiting(WithList(g, n, e, list), inside, e, (from, to))
  {
    var g' := WithList(g, n, e, list);
    forall v | v in g.dag && v !in ClassVars(g, n)
      ensures Unchanged(g, g', v, {})
    {
      ListElsewhere(g, n, e, list, v);
    }
    assert (from, to) in list;
  }

  lemma LastGiven(given: seq<Constraint>, c: Constraint)
    requires given != [] && given[|given| - 1] == c
    ensures forall s: Assignment {:trigger Solves(s, given)} :: Solves(s, given) ==> Satisfies(s, c)
  {
  }

  lemma SubsetGiven(given: seq<Constraint>, from: nat, to: nat)
    requires given != [] && given[|given| - 1] == Subset(from, to)
    ensures forall s: Assignment {:trigger Solves(s, given)} :: Solves(s, given) ==> s(from) <= s(to)
  {
    LastGiven(given, Subset(from, to));
    forall s: Assignment | Solves(s, given)
      ensures s(from) <= s(to)
    {
      assert Satisfies(s, Subset(from, to));
    }
  }

  // After the update and its propagation everything is recorded, and closed unless
  // something was missed.
  lemma Settled(g: Graph, g1: Graph, g2: Graph, open: set<nat>, given: seq<Constraint>, missed: bool)
    requires Evolves(g, g1, open) && Lasts(g1, g2) && AllRecorded(g1, given)
    requires !missed ==> AllClosed(g) && Settles(g1, g2, {}) && forall v | v in open :: Closed(g2, v)
    ensures AllRecorded(g2, given) && (!missed ==> AllClosed(g2))
  {
    RecordedStays(g1, g2, given);
    if !missed {
      EvolvesClosed(g, g1, g2, open);
      AllClosedStays(g, g2);
    }
  }

  lemma EdgeSettled(g: Graph, g': Graph, given: seq<Constraint>, from: nat, to: nat, missed: bool)
    requires AllRecorded(g, given) && Lasts(g, g') && Connected(g', from, to)
    requires !missed ==> AllClosed(g) && Settles(g, g', {})
    ensures AllRecorded(g', given + [Subset(from, to)]) && (!missed ==> AllClosed(g'))
  {
    RecordedMore(g, g', given, Subset(from, to));
    if !missed {
      AllClosedStays(g, g');
    }
  }

  lemma RecordedMore(g: Graph, g': Graph, given: seq<Constraint>, c: Constraint)
    requires AllRecorded(g, given) && Recorded(g', c) && Grows(g, g') && Keeps(g, g', [])
    ensures AllRecorded(g', given + [c])
  {
    RecordedStays(g, g', given);
    forall i | 0 <= i < |given + [c]|
      ensures Recorded(g', (given + [c])[i])
    {
      if i < |given| {
        assert (given + [c])[i] == given[i];
      }
    }
  }
}
