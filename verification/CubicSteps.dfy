/** Single updates of the cubic solver's graph: elements arriving at a node, a list
    of waiting constraints growing or being taken off. Each says which variables
    see a difference and keeps the graph well formed and sound. Here too is the
    measure of the solver's recursion: classes merge, waiting constraints become
    fewer, and otherwise propagation moves up the graph, which has no cycle. */
module CubicSteps {
  import opened Sets
  import opened Cubic
  import opened CubicGraph

  // -------------------------------------------------------------------------
  // Elements arrive at a node
  // -------------------------------------------------------------------------

  function WithBits(g: Graph, n: nat, bits: set<nat>): Graph
    requires n in g.nodes
  {
    g.(nodes := g.nodes[n := g.nodes[n].(bits := g.nodes[n].bits + bits)])
  }

  lemma BitsEvolve(g: Graph, size: nat, n: nat, bits: set<nat>)
    requires Shaped(g, size) && n in g.nodes && forall b | b in bits :: b < size
    ensures Shaped(WithBits(g, n, bits), size)
    ensures Evolves(g, WithBits(g, n, bits), ClassVars(g, n))
  {
    var g' := WithBits(g, n, bits);
    forall x | x in g'.nodes
      ensures NodeShaped(g', size, x)
    {
      assert NodeShaped(g, size, x);
      if Live(g', x) {
        assert LinksLive(g, x);
      }
    }
    forall v | v in g.dag && v !in ClassVars(g, n)
      ensures Unchanged(g, g', v, {})
    {
      forall w | Connected(g', v, w)
        ensures Inherits(g, g', v, w)
      {
        assert Connected(g, v, w) && Together(g', w, w);
      }
    }
  }

  lemma BitsSound(g: Graph, owner: map<nat, nat>, given: seq<Constraint>, n: nat, bits: set<nat>)
    requires Sound(g, owner, given) && n in g.nodes && n in owner
    requires forall s: Assignment :: Solves(s, given) ==> bits <= s(owner[n])
    ensures Sound(WithBits(g, n, bits), owner, given)
  {
    var g' := WithBits(g, n, bits);
    forall s: Assignment | Solves(s, given)
      ensures SoundFor(g', owner, s)
    {
      assert SoundFor(g, owner, s);
      forall x | x in g'.nodes
        ensures NodeSound(g'.nodes[x], s(owner[x]), owner, s)
      {
        assert NodeSound(g.nodes[x], s(owner[x]), owner, s);
      }
    }
  }

  // -------------------------------------------------------------------------
  // The lists of conditional constraints
  // -------------------------------------------------------------------------

  function WithList(g: Graph, n: nat, i: nat, list: seq<(nat, nat)>): Graph
    requires n in g.nodes && i < |g.nodes[n].conds|
  {
    g.(nodes := g.nodes[n := g.nodes[n].(conds := g.nodes[n].conds[i := list])])
  }

  lemma ListShaped(g: Graph, size: nat, n: nat, i: nat, list: seq<(nat, nat)>)
    requires Shaped(g, size) && n in g.nodes && i < |g.nodes[n].conds|
    requires forall p | p in list :: p.0 in g.dag && p.1 in g.dag
    ensures Shaped(WithList(g, n, i, list), size)
  {
    var g' := WithList(g, n, i, list);
    forall x | x in g'.nodes
      ensures NodeShaped(g', size, x)
    {
      assert NodeShaped(g, size, x);
      if Live(g', x) {
        assert LinksLive(g, x);
      }
    }
  }

  lemma ListSound(g: Graph, owner: map<nat, nat>, given: seq<Constraint>, n: nat, i: nat, list: seq<(nat, nat)>)
    requires Sound(g, owner, given) && n in g.nodes && i < |g.nodes[n].conds| && n in owner
    requires forall s: Assignment, p {:trigger Solves(s, given), p in list} ::
      Solves(s, given) && p in list && i in s(owner[n]) ==> s(p.0) <= s(p.1)
    ensures Sound(WithList(g, n, i, list), owner, given)
  {
    var g' := WithList(g, n, i, list);
    forall s: Assignment | Solves(s, given)
      ensures SoundFor(g', owner, s)
    {
      assert SoundFor(g, owner, s);
      forall x | x in g'.nodes
        ensures NodeSound(g'.nodes[x], s(owner[x]), owner, s)
      {
        assert NodeSound(g.nodes[x], s(owner[x]), owner, s);
      }
    }
  }

  // Other variables see nothing of it.
  lemma ListElsewhere(g: Graph, n: nat, i: nat, list: seq<(nat, nat)>, v: nat)
    requires n in g.nodes && i < |g.nodes[n].conds| && v in g.dag && g.dag[v] != n
    ensures Unchanged(g, WithList(g, n, i, list), v, {})
  {
    var g' := WithList(g, n, i, list);
    forall w | Connected(g', v, w)
      ensures Inherits(g, g', v, w)
    {
      assert Connected(g, v, w) && Together(g', w, w);
    }
  }

  lemma ListEmptied(g: Graph, n: nat, i: nat, v: nat)
    requires n in g.nodes && i < |g.nodes[n].conds| && v in g.dag && g.dag[v] == n
    ensures Unchanged(g, WithList(g, n, i, []), v, {i})
  {
    var g' := WithList(g, n, i, []);
    forall w | Connected(g', v, w)
      ensures Inherits(g, g', v, w)
    {
      assert Connected(g, v, w) && Together(g', w, w);
    }
  }

  // -------------------------------------------------------------------------
  // The measure: classes merge, or constraints are taken off their lists
  // -------------------------------------------------------------------------

  ghost function Pending(g: Graph): set<(nat, nat, nat)> {
    set n, c: nat, j: nat | n in g.nodes && c < |g.nodes[n].conds| && j < |g.nodes[n].conds[c]| :: (n, c, j)
  }

  ghost function Classes(g: Graph): nat {
    |g.dag.Values|
  }

  ghost predicate Lower(g: Graph, g': Graph) {
    Classes(g') < Classes(g) || (Classes(g') == Classes(g) && |Pending(g')| <= |Pending(g)|)
  }

  ghost predicate Stalled(g: Graph, g': Graph) {
    Classes(g') == Classes(g) && |Pending(g')| == |Pending(g)|
  }

  ghost function StageOf(g: Graph, n: nat): nat {
    if Live(g, n) then 0 else 1
  }

  // How far below the top a live node is, or how long ago a dead one was live.
  ghost function DepthOf(g: Graph, rank: nat -> nat, died: map<nat, nat>, clock: nat, n: nat): nat {
    if Live(g, n) then rank(n) else if n in died && died[n] < clock then clock - died[n] else 0
  }

  // The same nodes and edges, whatever has happened to the elements.
  ghost predicate SameLinks(g: Graph, g': Graph) {
    g'.dag == g.dag && g'.nodes.Keys == g.nodes.Keys && forall n {:trigger g'.nodes[n]} :: n in g.nodes ==>
      g'.nodes[n].sups == g.nodes[n].sups
  }

  ghost predicate SameLists(g: Graph, g': Graph) {
    g'.nodes.Keys == g.nodes.Keys && forall n {:trigger g'.nodes[n]} :: n in g.nodes ==>
      g'.nodes[n].conds == g.nodes[n].conds
  }

  lemma SameListsPending(g: Graph, g': Graph)
    requires SameLists(g, g')
    ensures Pending(g') == Pending(g)
  {
    forall x
      ensures x in Pending(g') <==> x in Pending(g)
    {
    }
  }

  lemma EmptiedPending(g: Graph, n: nat, i: nat)
    requires n in g.nodes && i < |g.nodes[n].conds| && g.nodes[n].conds[i] != []
    ensures |Pending(WithList(g, n, i, []))| < |Pending(g)|
  {
    var g' := WithList(g, n, i, []);
    forall x | x in Pending(g')
      ensures x in Pending(g)
    {
      assert x.0 in g.nodes && x.1 < |g.nodes[x.0].conds| && x.2 < |g.nodes[x.0].conds[x.1]|;
    }
    assert (n, i, 0) in Pending(g) && (n, i, 0) !in Pending(g');
    SubsetIsSmaller(Pending(g'), Pending(g));
  }

  lemma LinksRanked(g: Graph, g': Graph, rank: nat -> nat, out: set<nat>)
    requires Ranked(g, rank, out) && SameLinks(g, g')
    ensures Ranked(g', rank, out)
  {
    forall n, m | Edge(g', n, m) && n !in out && m !in out
      ensures rank(m) < rank(n)
    {
      assert g'.nodes[n].sups == g.nodes[n].sups;
      assert Edge(g, n, m);
    }
  }

  lemma LinksRetired(g: Graph, g': Graph, died: map<nat, nat>, clock: nat)
    requires Retired(g, died, clock) && SameLinks(g, g')
    ensures Retired(g', died, clock)
  {
    forall n
      ensures n in died <==> n in g'.nodes && !Live(g', n)
    {
      assert Live(g', n) <==> Live(g, n);
    }
    forall n, m | n in died && m in g'.nodes[n].sups
      ensures Live(g', m) || (m in died && died[m] > died[n])
    {
      assert g'.nodes[n].sups == g.nodes[n].sups;
      assert Live(g', m) <==> Live(g, m);
    }
  }
}
