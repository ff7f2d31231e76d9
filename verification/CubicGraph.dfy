/** The graph of the cubic solver: edges, merging, and cycles. */
module CubicGraph {
  import opened Cubic

  // -------------------------------------------------------------------------
  // Shape
  // -------------------------------------------------------------------------

  ghost predicate NodeShaped(g: Graph, size: nat, n: nat)
    requires n in g.nodes
  {
    var node := g.nodes[n];
    && |node.conds| == size
    && (forall b {:trigger b in node.bits} :: b in node.bits ==> b < size)
    && (forall c, p {:trigger p in node.conds[c]} :: 0 <= c < size && p in node.conds[c] ==>
      p.0 in g.dag && p.1 in g.dag)
    && node.sups <= g.nodes.Keys
    && (Live(g, n) ==> LinksLive(g, n))
  }

  // Edges run between live nodes, are known at both ends, and make no loop.
  ghost predicate LinksLive(g: Graph, n: nat)
    requires n in g.nodes
  {
    && n !in g.nodes[n].sups
    && (forall m {:trigger m in g.nodes[n].sups} :: m in g.nodes[n].sups ==>
      Live(g, m) && m in g.nodes && n in g.nodes[m].subs)
    && (forall m {:trigger m in g.nodes[n].subs} :: m in g.nodes[n].subs ==>
      Live(g, m) && m in g.nodes && n in g.nodes[m].sups)
  }

  ghost predicate Shaped(g: Graph, size: nat) {
    && (forall v {:trigger g.dag[v]} :: v in g.dag ==> g.dag[v] in g.nodes)
    && (forall n {:trigger g.nodes[n]} :: n in g.nodes ==> NodeShaped(g, size, n))
  }

  ghost function ClassVars(g: Graph, n: nat): set<nat> {
    set v | v in g.dag && g.dag[v] == n
  }

  // -------------------------------------------------------------------------
  // An edge
  // -------------------------------------------------------------------------

  function WithEdge(g: Graph, a: nat, b: nat): Graph
    requires a in g.nodes && b in g.nodes && a != b
  {
    g.(nodes :=
      g.nodes[a := g.nodes[a].(sups := g.nodes[a].sups + {b})][b := g.nodes[b].(subs := g.nodes[b].subs + {a})])
  }

  lemma EdgeShaped(g: Graph, size: nat, a: nat, b: nat)
    requires Shaped(g, size) && Live(g, a) && Live(g, b) && a in g.nodes && b in g.nodes && a != b
    ensures Shaped(WithEdge(g, a, b), size)
  {
    var g' := WithEdge(g, a, b);
    forall n | n in g'.nodes
      ensures NodeShaped(g', size, n)
    {
      assert NodeShaped(g, size, n);
      assert g'.nodes[n].conds == g.nodes[n].conds && g'.nodes[n].bits == g.nodes[n].bits;
      if Live(g', n) {
        assert LinksLive(g, n);
        forall m | m in g'.nodes[n].sups
          ensures Live(g', m) && m in g'.nodes && n in g'.nodes[m].subs
        {
          assert m in g.nodes[n].sups || (n == a && m == b);
        }
        forall m | m in g'.nodes[n].subs
          ensures Live(g', m) && m in g'.nodes && n in g'.nodes[m].sups
        {
          assert m in g.nodes[n].subs || (n == b && m == a);
        }
      }
    }
  }

  // The variables at its lower end are open; the rest sees nothing of it.
  lemma EdgeEvolves(g: Graph, size: nat, u: nat, v: nat)
    requires Shaped(g, size) && u in g.dag && v in g.dag && g.dag[u] != g.dag[v]
    ensures var g' := WithEdge(g, g.dag[u], g.dag[v]);
      Evolves(g, g', ClassVars(g, g.dag[u])) && Connected(g', u, v)
  {
    hide Unchanged;
    var g' := WithEdge(g, g.dag[u], g.dag[v]);
    forall w | w in g.dag && g.dag[w] != g.dag[u]
      ensures Unchanged(g, g', w, {})
    {
      EdgeElsewhere(g, size, u, v, w);
    }
  }

  lemma EdgeElsewhere(g: Graph, size: nat, u: nat, v: nat, w: nat)
    requires Shaped(g, size) && u in g.dag && v in g.dag && g.dag[u] != g.dag[v]
    requires w in g.dag && g.dag[w] != g.dag[u]
    ensures Unchanged(g, WithEdge(g, g.dag[u], g.dag[v]), w, {})
  {
    var g' := WithEdge(g, g.dag[u], g.dag[v]);
    forall x | Connected(g', w, x)
      ensures Inherits(g, g', w, x)
    {
      assert Connected(g, w, x) && Together(g', x, x);
    }
  }

  lemma EdgeSound(g: Graph, owner: map<nat, nat>, given: seq<Constraint>, u: nat, v: nat)
    requires Sound(g, owner, given)
    requires u in g.dag && v in g.dag && g.dag[u] != g.dag[v] && g.dag[u] in g.nodes && g.dag[v] in g.nodes
    requires forall s: Assignment :: Solves(s, given) ==> s(u) <= s(v)
    ensures Sound(WithEdge(g, g.dag[u], g.dag[v]), owner, given)
  {
    var g' := WithEdge(g, g.dag[u], g.dag[v]);
    forall s: Assignment | Solves(s, given)
      ensures SoundFor(g', owner, s)
    {
      assert SoundFor(g, owner, s);
      forall n | n in g'.nodes
        ensures NodeSound(g'.nodes[n], s(owner[n]), owner, s)
      {
        assert NodeSound(g.nodes[n], s(owner[n]), owner, s);
      }
    }
  }

  // -------------------------------------------------------------------------
  // Merging n2 into n1
  // -------------------------------------------------------------------------

  function MergedNode(g: Graph, n1: nat, n2: nat, x: nat): Node
    requires n1 in g.nodes && n2 in g.nodes && x in g.nodes && |g.nodes[n1].conds| == |g.nodes[n2].conds|
  {
    var node, a, b := g.nodes[x], g.nodes[n1], g.nodes[n2];
    if x == n1 then
      Node(a.bits + b.bits, (a.sups + (b.sups - {n1})) - {n2}, (a.subs + (b.subs - {n1})) - {n2},
           seq(|a.conds|, i requires 0 <= i < |a.conds| => a.conds[i] + b.conds[i]))
    else
      node.(sups := if x in b.subs then node.sups - {n2} + {n1} else node.sups,
            subs := if x in b.sups then node.subs - {n2} + {n1} else node.subs)
  }

  ghost function Merged(g: Graph, n1: nat, n2: nat): Graph
    requires n1 in g.nodes && n2 in g.nodes && |g.nodes[n1].conds| == |g.nodes[n2].conds|
  {
    Graph(Redirected(g.dag, g.dag.Keys, n1, n2), MergedNodes(g, n1, n2, g.nodes.Keys))
  }

  // Those of the variables vs that pointed to n2 point to n1.
  ghost function Redirected(dag: map<nat, nat>, vs: set<nat>, n1: nat, n2: nat): (r: map<nat, nat>)
    requires vs <= dag.Keys
    ensures r.Keys == vs && forall v | v in vs :: r[v] == if dag[v] == n2 then n1 else dag[v]
  {
    if vs == {} then map[]
    else
      var v :| v in vs;
      Redirected(dag, vs - {v}, n1, n2)[v := if dag[v] == n2 then n1 else dag[v]]
  }

  ghost function MergedNodes(g: Graph, n1: nat, n2: nat, xs: set<nat>): (r: map<nat, Node>)
    requires n1 in g.nodes && n2 in g.nodes && xs <= g.nodes.Keys && |g.nodes[n1].conds| == |g.nodes[n2].conds|
    ensures r.Keys == xs && forall x | x in xs :: r[x] == MergedNode(g, n1, n2, x)
  {
    if xs == {} then map[]
    else
      var x :| x in xs;
      MergedNodes(g, n1, n2, xs - {x})[x := MergedNode(g, n1, n2, x)]
  }

  lemma MergedView(g: Graph, n1: nat, n2: nat)
    requires n1 in g.nodes && n2 in g.nodes && |g.nodes[n1].conds| == |g.nodes[n2].conds|
    ensures var g' := Merged(g, n1, n2);
      && g'.dag.Keys == g.dag.Keys && g'.nodes.Keys == g.nodes.Keys
      && (forall v {:trigger g'.dag[v]} | v in g.dag :: g'.dag[v] == if g.dag[v] == n2 then n1 else g.dag[v])
      && (forall x {:trigger g'.nodes[x]} | x in g.nodes :: g'.nodes[x] == MergedNode(g, n1, n2, x))
  {
    hide MergedNode;
  }

  ghost predicate Mergeable(g: Graph, size: nat, n1: nat, n2: nat) {
    && Shaped(g, size)
    && n1 != n2 && Live(g, n1) && Live(g, n2) && n1 in g.nodes && n2 in g.nodes
    && |g.nodes[n1].conds| == |g.nodes[n2].conds| == size
  }

  lemma LiveAfter(g: Graph, size: nat, n1: nat, n2: nat)
    requires Mergeable(g, size, n1, n2)
    ensures forall x {:trigger Live(Merged(g, n1, n2), x)} :: Live(Merged(g, n1, n2), x) <==> Live(g, x) && x != n2
    ensures Merged(g, n1, n2).dag.Values == g.dag.Values - {n2}
  {
    hide Redirected, MergedNodes;
    var g' := Merged(g, n1, n2);
    forall x
      ensures Live(g', x) <==> Live(g, x) && x != n2
    {
      if Live(g, x) && x != n2 {
        var v :| v in g.dag && g.dag[v] == x;
        assert g'.dag[v] == x;
      }
      if Live(g', x) {
        var v :| v in g'.dag && g'.dag[v] == x;
        if g.dag[v] == n2 {
          assert x == n1;
        } else {
          assert g.dag[v] == x;
        }
      }
    }
    forall x
      ensures x in g'.dag.Values <==> x in g.dag.Values - {n2}
    {
      assert Live(g', x) <==> Live(g, x) && x != n2;
    }
  }

  lemma MergeLinks(g: Graph, size: nat, n1: nat, n2: nat, n: nat)
    requires Mergeable(g, size, n1, n2) && Live(g, n) && n != n2 && n in g.nodes
    ensures LinksLive(Merged(g, n1, n2), n)
  {
    hide Redirected, MergedNodes;
    var g' := Merged(g, n1, n2);
    LiveAfter(g, size, n1, n2);
    assert NodeShaped(g, size, n) && NodeShaped(g, size, n1) && NodeShaped(g, size, n2);
    forall m | m in g'.nodes[n].sups
      ensures Live(g', m) && m in g'.nodes && n in g'.nodes[m].subs
    {
      SupsOf(g, size, n1, n2, n, m);
    }
    forall m | m in g'.nodes[n].subs
      ensures Live(g', m) && m in g'.nodes && n in g'.nodes[m].sups
    {
      SubsOf(g, size, n1, n2, n, m);
    }
  }

  lemma SupsOf(g: Graph, size: nat, n1: nat, n2: nat, n: nat, m: nat)
    requires Mergeable(g, size, n1, n2) && Live(g, n) && n != n2 && n in g.nodes
    requires m in Merged(g, n1, n2).nodes[n].sups
    ensures Live(g, m) && m != n2 && m in g.nodes && n in Merged(g, n1, n2).nodes[m].subs
    ensures n != n1 && m != n1 ==> m in g.nodes[n].sups
    ensures n == n1 ==> m in g.nodes[n1].sups || m in g.nodes[n2].sups
    ensures n != n1 && m == n1 ==> n1 in g.nodes[n].sups || n2 in g.nodes[n].sups
  {
    hide Redirected, MergedNodes;
    assert LinksLive(g, n) && LinksLive(g, n1) && LinksLive(g, n2) by {
      assert NodeShaped(g, size, n) && NodeShaped(g, size, n1) && NodeShaped(g, size, n2);
    }
    if n == n1 {
      assert m in g.nodes[n1].sups || m in g.nodes[n2].sups;
    } else {
      assert m in g.nodes[n].sups || m == n1;
      if m in g.nodes[n].sups {
        assert n in g.nodes[m].subs;
      }
    }
  }

  lemma SubsOf(g: Graph, size: nat, n1: nat, n2: nat, n: nat, m: nat)
    requires Mergeable(g, size, n1, n2) && Live(g, n) && n != n2 && n in g.nodes
    requires m in Merged(g, n1, n2).nodes[n].subs
    ensures Live(g, m) && m != n2 && m in g.nodes && n in Merged(g, n1, n2).nodes[m].sups
  {
    hide Redirected, MergedNodes;
    assert LinksLive(g, n) && LinksLive(g, n1) && LinksLive(g, n2) by {
      assert NodeShaped(g, size, n) && NodeShaped(g, size, n1) && NodeShaped(g, size, n2);
    }
    if n == n1 {
      assert m in g.nodes[n1].subs || m in g.nodes[n2].subs;
    } else {
      assert m in g.nodes[n].subs || m == n1;
      if m in g.nodes[n].subs {
        assert n in g.nodes[m].sups;
      }
    }
  }

  lemma MergedLists(g: Graph, n1: nat, n2: nat, n: nat, c: nat, p: (nat, nat))
    requires n1 in g.nodes && n2 in g.nodes && n in g.nodes && |g.nodes[n1].conds| == |g.nodes[n2].conds|
    requires c < |MergedNode(g, n1, n2, n).conds| && p in MergedNode(g, n1, n2, n).conds[c]
    ensures c < |g.nodes[n].conds| && (p in g.nodes[n].conds[c] || (n == n1 && p in g.nodes[n2].conds[c]))
  {
  }

  lemma MergeShaped(g: Graph, size: nat, n1: nat, n2: nat)
    requires Mergeable(g, size, n1, n2)
    ensures Shaped(Merged(g, n1, n2), size)
  {
    hide Merged, MergedNode, NodeShaped;
    MergedView(g, n1, n2);
    forall n | n in g.nodes
      ensures NodeShaped(Merged(g, n1, n2), size, n)
    {
      MergedNodeShaped(g, size, n1, n2, n);
    }
  }

  lemma MergedNodeShaped(g: Graph, size: nat, n1: nat, n2: nat, n: nat)
    requires Mergeable(g, size, n1, n2) && n in g.nodes && n in Merged(g, n1, n2).nodes
    ensures NodeShaped(Merged(g, n1, n2), size, n)
  {
    hide Merged, LinksLive;
    MergedView(g, n1, n2);
    var g' := Merged(g, n1, n2);
    assert NodeShaped(g, size, n) && NodeShaped(g, size, n1) && NodeShaped(g, size, n2);
    if Live(g', n) {
      MergeLinks(g, size, n1, n2, n);
    }
    forall c, p | 0 <= c < size && p in g'.nodes[n].conds[c]
      ensures p.0 in g'.dag && p.1 in g'.dag
    {
      MergedLists(g, n1, n2, n, c, p);
    }
  }

  // Only the two classes merged see a difference, and they lose nothing.
  lemma MergeEvolves(g: Graph, size: nat, n1: nat, n2: nat)
    requires Mergeable(g, size, n1, n2)
    ensures Evolves(g, Merged(g, n1, n2), ClassVars(g, n1) + ClassVars(g, n2))
  {
    hide Redirected, MergedNodes;
    var g' := Merged(g, n1, n2);
    MergeGrows(g, size, n1, n2);
    forall v: nat, c: nat, p: (nat, nat) | Waiting(g, v, c, p)
      ensures Waiting(g', v, c, p)
    {
      if g.dag[v] == n2 || g.dag[v] == n1 {
        assert g'.nodes[n1].conds[c] == g.nodes[n1].conds[c] + g.nodes[n2].conds[c];
      }
    }
    forall v | v in g.dag && v !in ClassVars(g, n1) + ClassVars(g, n2)
      ensures Unchanged(g, g', v, {})
    {
      MergeElsewhere(g, size, n1, n2, v);
    }
  }

  lemma MergeConnects(g: Graph, size: nat, n1: nat, n2: nat, u: nat, v: nat)
    requires Mergeable(g, size, n1, n2) && Connected(g, u, v)
    ensures Connected(Merged(g, n1, n2), u, v)
  {
    hide Merged;
    MergedView(g, n1, n2);
    if g.dag[u] != g.dag[v] {
      assert NodeShaped(g, size, g.dag[u]) && Live(g, g.dag[u]) && Live(g, g.dag[v]);
      assert g.dag[u] in g.nodes[g.dag[v]].subs;
    }
  }

  lemma MergeGrows(g: Graph, size: nat, n1: nat, n2: nat)
    requires Mergeable(g, size, n1, n2)
    ensures Grows(g, Merged(g, n1, n2))
  {
    hide Merged, Connected;
    MergedView(g, n1, n2);
    var g' := Merged(g, n1, n2);
    forall u, v | Connected(g, u, v)
      ensures Connected(g', u, v)
    {
      MergeConnects(g, size, n1, n2, u, v);
    }
    forall v
      ensures Bits(g, v) <= Bits(g', v)
    {
      if v in g.dag {
        assert NodeOf(g', v) == g'.nodes[g'.dag[v]];
      }
    }
  }

  lemma MergeElsewhere(g: Graph, size: nat, n1: nat, n2: nat, v: nat)
    requires Mergeable(g, size, n1, n2) && v in g.dag && g.dag[v] != n1 && g.dag[v] != n2
    ensures Unchanged(g, Merged(g, n1, n2), v, {})
  {
    hide Redirected, MergedNodes;
    var g', n := Merged(g, n1, n2), g.dag[v];
    assert n in g.nodes && Live(g, n) && NodeShaped(g, size, n);
    forall w | Connected(g', v, w)
      ensures Inherits(g, g', v, w)
    {
      if g'.dag[w] == n {
        assert Connected(g, v, w) && Together(g', w, w);
      } else {
        var m := g'.dag[w];
        SupsOf(g, size, n1, n2, n, m);
        var m0 := if m in g.nodes[n].sups then m else n2;
        assert m0 in g.nodes[n].sups && Live(g, m0);
        var w0 :| w0 in g.dag && g.dag[w0] == m0;
        assert Connected(g, v, w0) && Together(g', w0, w);
      }
    }
  }

  lemma MergeSound(g: Graph, size: nat, owner: map<nat, nat>, given: seq<Constraint>, n1: nat, n2: nat)
    requires Mergeable(g, size, n1, n2) && Sound(g, owner, given)
    requires owner.Keys == g.nodes.Keys
    requires forall s: Assignment :: Solves(s, given) ==> s(owner[n1]) == s(owner[n2])
    ensures Sound(Merged(g, n1, n2), owner, given)
  {
    hide NodeSound, MergedNode, NodeShaped, Redirected, MergedNodes;
    var g' := Merged(g, n1, n2);
    forall s: Assignment | Solves(s, given)
      ensures SoundFor(g', owner, s)
    {
      assert SoundFor(g, owner, s);
      forall n | n in g'.nodes
        ensures NodeSound(g'.nodes[n], s(owner[n]), owner, s)
      {
        MergedNodeSound(g, size, owner, s, n1, n2, n);
      }
      forall v | v in g'.dag
        ensures g'.dag[v] in owner && s(v) == s(owner[g'.dag[v]])
      {
        assert g.dag[v] in owner && s(v) == s(owner[g.dag[v]]);
      }
    }
  }

  lemma MergedNodeSound(g: Graph, size: nat, owner: map<nat, nat>, s: Assignment, n1: nat, n2: nat, n: nat)
    requires Mergeable(g, size, n1, n2) && SoundFor(g, owner, s) && n in g.nodes
    requires s(owner[n1]) == s(owner[n2])
    ensures NodeSound(Merged(g, n1, n2).nodes[n], s(owner[n]), owner, s)
  {
    hide Merged;
    MergedView(g, n1, n2);
    var node := Merged(g, n1, n2).nodes[n];
    assert NodeSound(g.nodes[n], s(owner[n]), owner, s) && NodeSound(g.nodes[n1], s(owner[n1]), owner, s) &&
      NodeSound(g.nodes[n2], s(owner[n2]), owner, s);
    forall m | m in node.sups
      ensures m in owner && s(owner[n]) <= s(owner[m])
    {
      MergedSups(g, size, n1, n2, n, m);
    }
    forall c, p | 0 <= c < |node.conds| && p in node.conds[c] && c in s(owner[n])
      ensures s(p.0) <= s(p.1)
    {
      MergedLists(g, n1, n2, n, c, p);
    }
  }

  lemma MergedSups(g: Graph, size: nat, n1: nat, n2: nat, n: nat, m: nat)
    requires Mergeable(g, size, n1, n2) && n in g.nodes && m in MergedNode(g, n1, n2, n).sups
    ensures m in g.nodes[n].sups || (n == n1 && m in g.nodes[n2].sups) || (m == n1 && n2 in g.nodes[n].sups)
  {
    assert LinksLive(g, n2) by {
      assert NodeShaped(g, size, n2);
    }
  }

  // -------------------------------------------------------------------------
  // Cycles
  // -------------------------------------------------------------------------

  // rank shows that the live graph without the nodes in out has no cycle.
  ghost predicate Ranked(g: Graph, rank: nat -> nat, out: set<nat>) {
    forall n, m {:trigger Edge(g, n, m)} :: Edge(g, n, m) && n !in out && m !in out ==> rank(m) < rank(n)
  }

  ghost predicate Edge(g: Graph, n: nat, m: nat) {
    Live(g, n) && n in g.nodes && m in g.nodes[n].sups
  }

  ghost predicate Walk(g: Graph, a: nat, b: nat, path: seq<nat>)
    decreases |path|
  {
    if path == [] then a == b
    else Edge(g, a, path[0]) && Walk(g, path[0], b, path[1..])
  }

  ghost predicate Reaches(g: Graph, a: nat, b: nat) {
    exists path :: Walk(g, a, b, path)
  }

  lemma ReachesSelf(g: Graph, a: nat)
    ensures Reaches(g, a, a)
  {
    assert Walk(g, a, a, []);
  }

  lemma ReachesFrom(g: Graph, a: nat, m: nat, b: nat)
    requires Edge(g, a, m) && Reaches(g, m, b)
    ensures Reaches(g, a, b)
  {
    var path :| Walk(g, m, b, path);
    assert ([m] + path)[1..] == path;
    assert Walk(g, a, b, [m] + path);
  }

  lemma {:induction false} Bounded(xs: set<nat>, rank: nat -> nat) returns (top: nat)
    ensures forall x | x in xs :: rank(x) <= top
    decreases xs
  {
    if xs == {} {
      top := 0;
    } else {
      var x :| x in xs;
      top := Bounded(xs - {x}, rank);
      top := if rank(x) > top then rank(x) else top;
    }
  }

  // When nothing above n leads back to it, and there is no cycle elsewhere, there
  // is none at all.
  lemma NoCycleLeft(g: Graph, size: nat, n: nat, rank: nat -> nat) returns (rank': nat -> nat)
    requires Shaped(g, size) && Ranked(g, rank, {n}) && Live(g, n)
    requires forall t | Edge(g, n, t) :: !Reaches(g, t, n)
    ensures Ranked(g, rank', {})
  {
    var top := Bounded(g.dag.Values, rank);
    var back: nat -> bool := (x: nat) => Reaches(g, x, n);
    rank' := (x: nat) => if x == n then top + 1 else if back(x) then rank(x) + top + 2 else rank(x);
    forall a, b | Edge(g, a, b)
      ensures rank'(b) < rank'(a)
    {
      assert Live(g, b) by {
        assert NodeShaped(g, size, a);
      }
      if b == n {
        ReachesSelf(g, n);
      }
      if back(b) {
        ReachesFrom(g, a, b, n);
      }
    }
  }

  // A path the way it is found: from the target back to the source.
  ghost predicate BackPath(g: Graph, source: nat, target: nat, path: seq<nat>) {
    && |path| >= 2 && path[0] == target && path[|path| - 1] == source
    && (forall i, j {:trigger path[i], path[j]} | 0 <= i < j < |path| :: path[i] != path[j])
    && (forall i {:trigger path[i]} | 0 <= i < |path| :: Live(g, path[i]))
    && (forall i {:trigger path[i + 1]} | 0 <= i < |path| - 1 :: Edge(g, path[i + 1], path[i]))
  }

  // On a cycle every solution gives all nodes one set.
  lemma {:induction false} CycleEqual(g: Graph, owner: map<nat, nat>, s: Assignment, path: seq<nat>, i: nat)
    requires SoundFor(g, owner, s) && i < |path|
    requires forall k {:trigger path[k + 1]} | 0 <= k < |path| - 1 :: Edge(g, path[k + 1], path[k])
    requires path[0] in g.nodes
    ensures path[i] in owner && s(owner[path[i]]) <= s(owner[path[0]])
    decreases i
  {
    if i > 0 {
      CycleEqual(g, owner, s, path, i - 1);
      var j := i - 1;
      assert Edge(g, path[j + 1], path[j]);
      assert NodeSound(g.nodes[path[i]], s(owner[path[i]]), owner, s);
    }
  }

  lemma {:induction false} CycleAbove(g: Graph, owner: map<nat, nat>, s: Assignment, path: seq<nat>, i: nat)
    requires SoundFor(g, owner, s) && i < |path|
    requires forall k {:trigger path[k + 1]} | 0 <= k < |path| - 1 :: Edge(g, path[k + 1], path[k])
    requires path[0] in g.nodes
    ensures path[i] in owner && path[|path| - 1] in owner && s(owner[path[|path| - 1]]) <= s(owner[path[i]])
    decreases |path| - i
  {
    CycleEqual(g, owner, s, path, i);
    CycleEqual(g, owner, s, path, |path| - 1);
    if i < |path| - 1 {
      CycleAbove(g, owner, s, path, i + 1);
      assert Edge(g, path[i + 1], path[i]);
      assert NodeSound(g.nodes[path[i + 1]], s(owner[path[i + 1]]), owner, s);
    }
  }

  lemma CycleSame(g: Graph, owner: map<nat, nat>, given: seq<Constraint>, path: seq<nat>)
    requires Sound(g, owner, given) && |path| >= 2 && path[0] in g.nodes && owner.Keys == g.nodes.Keys
    requires forall k {:trigger path[k + 1]} | 0 <= k < |path| - 1 :: Edge(g, path[k + 1], path[k])
    requires Edge(g, path[0], path[|path| - 1])
    ensures forall i {:trigger path[i]} | 0 <= i < |path| :: path[i] in owner
    ensures forall s: Assignment, i {:trigger Solves(s, given), path[i]} :: Solves(s, given) && 0 <= i < |path| ==>
      s(owner[path[i]]) == s(owner[path[0]])
  {
    forall i | 0 <= i < |path|
      ensures path[i] in owner
    {
      if i < |path| - 1 {
        assert Edge(g, path[i + 1], path[i]);
      }
      if i > 0 {
        var j := i - 1;
        assert Edge(g, path[j + 1], path[j]);
      }
    }
    forall s: Assignment, i | Solves(s, given) && 0 <= i < |path|
      ensures s(owner[path[i]]) == s(owner[path[0]])
    {
      assert SoundFor(g, owner, s);
      CycleEqual(g, owner, s, path, i);
      CycleAbove(g, owner, s, path, i);
      assert NodeSound(g.nodes[path[0]], s(owner[path[0]]), owner, s);
    }
  }

  // Merging two nodes of out leaves the rest as it was.
  lemma MergeRanked(g: Graph, size: nat, n1: nat, n2: nat, rank: nat -> nat, out: set<nat>)
    requires Mergeable(g, size, n1, n2) && Ranked(g, rank, out) && n1 in out && n2 in out
    ensures Ranked(Merged(g, n1, n2), rank, out - {n2})
  {
    hide Redirected, MergedNodes;
    var g' := Merged(g, n1, n2);
    LiveAfter(g, size, n1, n2);
    forall a, b | Edge(g', a, b) && a !in out - {n2} && b !in out - {n2}
      ensures rank(b) < rank(a)
    {
      assert Live(g', a);
      SupsOf(g, size, n1, n2, a, b);
      assert Edge(g, a, b);
    }
  }

  // -------------------------------------------------------------------------
  // Nodes merged away
  // -------------------------------------------------------------------------

  // They lead only to live nodes and to nodes merged away later.
  ghost predicate Retired(g: Graph, died: map<nat, nat>, clock: nat) {
    && (forall n {:trigger n in died} :: n in died <==> n in g.nodes && !Live(g, n))
    && (forall n {:trigger died[n]} :: n in died ==> died[n] < clock)
    && (forall n, m {:trigger m in g.nodes[n].sups} :: n in died && m in g.nodes[n].sups ==>
      Live(g, m) || (m in died && died[m] > died[n]))
  }

  // What is above a node merged away is live, or was merged away later.
  lemma MergedAbove(g: Graph, size: nat, n1: nat, n2: nat, died: map<nat, nat>, clock: nat, n: nat, m: nat)
    requires Mergeable(g, size, n1, n2) && Retired(g, died, clock) && (n in died || n == n2) && n in g.nodes
    requires m in MergedNode(g, n1, n2, n).sups
    ensures if n == n2 then m != n2 && Live(g, m) else Live(g, m) || (m in died && died[m] > died[n])
  {
    assert LinksLive(g, n2) by {
      assert NodeShaped(g, size, n2);
    }
    assert n != n1;
    if n != n2 {
      assert !Live(g, n);
    }
    assert n !in g.nodes[n2].subs;
    assert m in g.nodes[n].sups;
  }

  lemma MergeRetired(g: Graph, size: nat, n1: nat, n2: nat, died: map<nat, nat>, clock: nat)
    requires Mergeable(g, size, n1, n2) && Retired(g, died, clock)
    ensures Retired(Merged(g, n1, n2), died[n2 := clock], clock + 1)
  {
    hide Merged, MergedNode, Shaped;
    MergedView(g, n1, n2);
    var g', died' := Merged(g, n1, n2), died[n2 := clock];
    LiveAfter(g, size, n1, n2);
    forall n
      ensures n in died' <==> n in g'.nodes && !Live(g', n)
    {
      assert Live(g', n) <==> Live(g, n) && n != n2;
      assert n in died <==> n in g.nodes && !Live(g, n);
    }
    forall n, m | n in died' && m in g'.nodes[n].sups
      ensures Live(g', m) || (m in died' && died'[m] > died'[n])
    {
      assert n in g.nodes;
      MergedAbove(g, size, n1, n2, died, clock, n, m);
      assert Live(g', m) <==> Live(g, m) && m != n2;
    }
  }
}
