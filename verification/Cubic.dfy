/** Subset constraints over sets of elements, and the graph that solves them: what
    each variable sees of the graph, and how that may change. */
module Cubic {

  datatype Constraint =
    | ElementOf(e: nat, v: nat)
    | Subset(from: nat, to: nat)
    | Conditional(e: nat, inside: nat, from: nat, to: nat)

  type Assignment = nat -> set<nat>

  ghost predicate Satisfies(s: Assignment, c: Constraint) {
    match c
    case ElementOf(e, v) => e in s(v)
    case Subset(from, to) => s(from) <= s(to)
    case Conditional(e, inside, from, to) => e in s(inside) ==> s(from) <= s(to)
  }

  ghost predicate Solves(s: Assignment, cs: seq<Constraint>) {
    forall i | 0 <= i < |cs| :: Satisfies(s, cs[i])
  }

  // -------------------------------------------------------------------------
  // The graph
  // -------------------------------------------------------------------------

  // conds[i] holds the subset constraints waiting for element i.
  datatype Node = Node(bits: set<nat>, sups: set<nat>, subs: set<nat>, conds: seq<seq<(nat, nat)>>)

  // Variables of one class share a node. Nodes merged away stay in the table, with
  // no variable pointing to them.
  datatype Graph = Graph(dag: map<nat, nat>, nodes: map<nat, Node>)

  ghost predicate Live(g: Graph, n: nat) {
    n in g.dag.Values
  }

  ghost function NodeOf(g: Graph, v: nat): Node {
    if v in g.dag && g.dag[v] in g.nodes then g.nodes[g.dag[v]] else Node({}, {}, {}, [])
  }

  ghost function Bits(g: Graph, v: nat): set<nat> {
    NodeOf(g, v).bits
  }

  ghost predicate Together(g: Graph, u: nat, v: nat) {
    u in g.dag && v in g.dag && g.dag[u] == g.dag[v]
  }

  // u's set is kept below v's: by one node, or by an edge.
  ghost predicate Connected(g: Graph, u: nat, v: nat) {
    Together(g, u, v) || (u in g.dag && v in g.dag && g.dag[v] in NodeOf(g, u).sups)
  }

  ghost predicate Waiting(g: Graph, v: nat, c: nat, p: (nat, nat)) {
    v in g.dag && c < |NodeOf(g, v).conds| && p in NodeOf(g, v).conds[c]
  }

  // Nothing is left to do at v: its elements have reached every set above, and
  // none of them has a constraint waiting.
  ghost predicate Closed(g: Graph, v: nat) {
    && (forall w {:trigger Connected(g, v, w)} :: Connected(g, v, w) ==> Bits(g, v) <= Bits(g, w))
    && (forall c, p {:trigger Waiting(g, v, c, p)} :: c in Bits(g, v) ==> !Waiting(g, v, c, p))
  }

  // v looks as it did, but for the lists in done, which have been emptied.
  ghost predicate Unchanged(g: Graph, g': Graph, v: nat, done: set<nat>) {
    && v in g.dag && v in g'.dag && g'.dag[v] == g.dag[v]
    && Bits(g', v) == Bits(g, v)
    && (forall c, p {:trigger Waiting(g', v, c, p)} :: Waiting(g', v, c, p) <==> Waiting(g, v, c, p) && c !in done)
    && (forall w {:trigger Connected(g', v, w)} :: Connected(g', v, w) ==> Inherits(g, g', v, w))
  }

  // w is above v because something it is now together with was.
  ghost predicate Inherits(g: Graph, g': Graph, v: nat, w: nat) {
    exists w0 :: Connected(g, v, w0) && Together(g', w0, w)
  }

  ghost predicate Grows(g: Graph, g': Graph) {
    && g'.dag.Keys == g.dag.Keys
    && (forall u, v {:trigger Together(g', u, v)} :: Together(g, u, v) ==> Together(g', u, v))
    && (forall v {:trigger Bits(g', v)} :: Bits(g, v) <= Bits(g', v))
    && (forall u, v {:trigger Connected(g', u, v)} :: Connected(g, u, v) ==> Connected(g', u, v))
  }

  // What was waiting still is, or is now connected, or is among those in hand.
  ghost predicate Keeps(g: Graph, g': Graph, hand: seq<(nat, nat)>) {
    forall v, c, p {:trigger Waiting(g, v, c, p)} :: Waiting(g, v, c, p) ==>
      Waiting(g', v, c, p) || Connected(g', p.0, p.1) || p in hand
  }

  // Every variable but those in open is as it was, or closed.
  ghost predicate Settles(g: Graph, g': Graph, open: set<nat>) {
    forall v {:trigger Closed(g', v)} {:trigger Unchanged(g, g', v, {})} :: v in g.dag && v !in open ==>
      Closed(g', v) || Unchanged(g, g', v, {})
  }

  ghost predicate Evolves(g: Graph, g': Graph, open: set<nat>) {
    Grows(g, g') && Keeps(g, g', []) && Settles(g, g', open)
  }

  lemma EvolvesSelf(g: Graph)
    ensures Evolves(g, g, {})
  {
    forall v, w | Connected(g, v, w)
      ensures Inherits(g, g, v, w)
    {
      assert Together(g, w, w);
    }
  }

  lemma ClosedStays(g: Graph, g': Graph, v: nat)
    requires Grows(g, g') && Closed(g, v) && Unchanged(g, g', v, {})
    ensures Closed(g', v)
  {
    forall w | Connected(g', v, w)
      ensures Bits(g', v) <= Bits(g', w)
    {
      var w0 :| Connected(g, v, w0) && Together(g', w0, w);
      assert Bits(g, w0) <= Bits(g', w0);
    }
  }

  lemma UnchangedTwice(g: Graph, g1: Graph, g2: Graph, v: nat, done1: set<nat>, done2: set<nat>)
    requires Grows(g1, g2) && Unchanged(g, g1, v, done1) && Unchanged(g1, g2, v, done2)
    ensures Unchanged(g, g2, v, done1 + done2)
  {
    forall w | Connected(g2, v, w)
      ensures Inherits(g, g2, v, w)
    {
      var w1 :| Connected(g1, v, w1) && Together(g2, w1, w);
      assert Inherits(g, g1, v, w1);
      var w0 :| Connected(g, v, w0) && Together(g1, w0, w1);
      assert Together(g2, w0, w1);
    }
    forall c, p
      ensures Waiting(g2, v, c, p) <==> Waiting(g, v, c, p) && c !in done1 + done2
    {
      assert Waiting(g2, v, c, p) <==> Waiting(g1, v, c, p) && c !in done2;
    }
  }

  lemma GrowsTwice(g: Graph, g1: Graph, g2: Graph)
    requires Grows(g, g1) && Grows(g1, g2)
    ensures Grows(g, g2)
  {
    forall v
      ensures Bits(g, v) <= Bits(g2, v)
    {
      assert Bits(g, v) <= Bits(g1, v) <= Bits(g2, v);
    }
    forall u, v | Together(g, u, v)
      ensures Together(g2, u, v)
    {
      assert Together(g1, u, v);
    }
    forall u, v | Connected(g, u, v)
      ensures Connected(g2, u, v)
    {
      assert Connected(g1, u, v);
    }
  }

  lemma KeepsTwice(g: Graph, g1: Graph, g2: Graph, hand: seq<(nat, nat)>)
    requires Keeps(g, g1, hand) && Keeps(g1, g2, []) && Grows(g1, g2)
    ensures Keeps(g, g2, hand)
  {
    forall v, c, p | Waiting(g, v, c, p)
      ensures Waiting(g2, v, c, p) || Connected(g2, p.0, p.1) || p in hand
    {
      if Connected(g1, p.0, p.1) {
        assert Connected(g2, p.0, p.1);
      }
    }
  }

  lemma SettlesTwice(g: Graph, g1: Graph, g2: Graph, open: set<nat>, open': set<nat>)
    requires Settles(g, g1, open) && Settles(g1, g2, open') && Grows(g, g1) && Grows(g1, g2)
    ensures Settles(g, g2, open + open')
  {
    forall v | v in g.dag && v !in open + open'
      ensures Closed(g2, v) || Unchanged(g, g2, v, {})
    {
      assert v in g1.dag;
      if !Closed(g2, v) {
        assert Unchanged(g1, g2, v, {});
        if Closed(g1, v) {
          ClosedStays(g1, g2, v);
        } else {
          var none: set<nat> := {};
          UnchangedTwice(g, g1, g2, v, none, none);
          assert none + none == none;
        }
      }
    }
  }

  lemma EvolvesTwice(g: Graph, g1: Graph, g2: Graph, open: set<nat>, open': set<nat>)
    requires Evolves(g, g1, open) && Evolves(g1, g2, open')
    ensures Evolves(g, g2, open + open')
  {
    GrowsTwice(g, g1, g2);
    KeepsTwice(g, g1, g2, []);
    SettlesTwice(g, g1, g2, open, open');
  }

  // The variables left open have been closed since.
  lemma EvolvesClosed(g: Graph, g1: Graph, g2: Graph, open: set<nat>)
    requires Evolves(g, g1, open) && Evolves(g1, g2, {})
    requires forall v | v in open && v in g.dag :: Closed(g2, v)
    ensures Evolves(g, g2, {})
  {
    EvolvesTwice(g, g1, g2, open, {});
  }

  // -------------------------------------------------------------------------
  // Soundness: the graph says no more than the constraints do
  // -------------------------------------------------------------------------

  // owner names, for each node ever made, a variable whose set it stands for.
  ghost predicate SoundFor(g: Graph, owner: map<nat, nat>, s: Assignment) {
    && owner.Keys == g.nodes.Keys
    && (forall v {:trigger g.dag[v]} :: v in g.dag ==> g.dag[v] in owner && s(v) == s(owner[g.dag[v]]))
    && (forall n {:trigger g.nodes[n]} :: n in g.nodes ==> NodeSound(g.nodes[n], s(owner[n]), owner, s))
  }

  ghost predicate NodeSound(node: Node, own: set<nat>, owner: map<nat, nat>, s: Assignment) {
    && node.bits <= own
    && (forall m {:trigger m in node.sups} :: m in node.sups ==> m in owner && own <= s(owner[m]))
    && (forall c, p {:trigger p in node.conds[c]} :: 0 <= c < |node.conds| && p in node.conds[c] && c in own ==>
      s(p.0) <= s(p.1))
  }

  ghost predicate Sound(g: Graph, owner: map<nat, nat>, given: seq<Constraint>) {
    forall s: Assignment {:trigger Solves(s, given)} :: Solves(s, given) ==> SoundFor(g, owner, s)
  }

  // -------------------------------------------------------------------------
  // Completeness: what every constraint has left in the graph
  // -------------------------------------------------------------------------

  ghost predicate Recorded(g: Graph, c: Constraint) {
    match c
    case ElementOf(e, v) => e in Bits(g, v)
    case Subset(from, to) => Connected(g, from, to)
    case Conditional(e, inside, from, to) => Waiting(g, inside, e, (from, to)) || Connected(g, from, to)
  }

  ghost predicate AllRecorded(g: Graph, given: seq<Constraint>) {
    forall i {:trigger given[i]} | 0 <= i < |given| :: Recorded(g, given[i])
  }

  ghost predicate AllClosed(g: Graph) {
    forall v {:trigger Closed(g, v)} :: v in g.dag ==> Closed(g, v)
  }

  lemma RecordedStays(g: Graph, g': Graph, given: seq<Constraint>)
    requires Grows(g, g') && Keeps(g, g', []) && AllRecorded(g, given)
    ensures AllRecorded(g', given)
  {
    forall i | 0 <= i < |given|
      ensures Recorded(g', given[i])
    {
      assert Recorded(g, given[i]);
      match given[i]
      case ElementOf(e, v) => assert Bits(g, v) <= Bits(g', v);
      case Subset(from, to) => assert Connected(g', from, to);
      case Conditional(e, inside, from, to) =>
        if Connected(g, from, to) {
          assert Connected(g', from, to);
        }
    }
  }

  lemma AllClosedStays(g: Graph, g': Graph)
    requires AllClosed(g) && Evolves(g, g', {})
    ensures AllClosed(g')
  {
    forall v | v in g'.dag
      ensures Closed(g', v)
    {
      if !Closed(g', v) {
        ClosedStays(g, g', v);
      }
    }
  }

  ghost function ElementsOf(g: Graph): Assignment {
    (v: nat) => Bits(g, v)
  }

  // The sets at hand are the least solution: they solve every constraint, and are
  // contained in whatever else does.
  lemma LeastSolution(g: Graph, owner: map<nat, nat>, given: seq<Constraint>)
    requires Sound(g, owner, given) && AllRecorded(g, given) && AllClosed(g)
    requires forall v {:trigger g.dag[v]} :: v in g.dag ==> g.dag[v] in g.nodes
    ensures Solves(ElementsOf(g), given)
    ensures forall s: Assignment, v :: Solves(s, given) ==> Bits(g, v) <= s(v)
  {
    NothingTooMuch(g, owner, given);
    forall i | 0 <= i < |given|
      ensures Satisfies(ElementsOf(g), given[i])
    {
      assert Recorded(g, given[i]);
      match given[i]
      case ElementOf(e, v) =>
      case Subset(from, to) => assert Closed(g, from);
      case Conditional(e, inside, from, to) =>
        if e in Bits(g, inside) {
          assert Closed(g, inside);
          assert Closed(g, from);
        }
    }
  }

  // No set is kept below one that lacks an element of it, and no condition that has
  // come true still waits to be enforced.
  ghost predicate NothingLeft(g: Graph) {
    && (forall u, v {:trigger Connected(g, u, v)} :: Connected(g, u, v) ==> Bits(g, u) <= Bits(g, v))
    && (forall v, c, p {:trigger Waiting(g, v, c, p)} ::
          Waiting(g, v, c, p) && c in Bits(g, v) ==> Bits(g, p.0) <= Bits(g, p.1))
  }

  // Whatever happened on the way, the sets at hand solve the constraints exactly
  // when nothing is left.
  lemma SolvedExactly(g: Graph, owner: map<nat, nat>, given: seq<Constraint>)
    requires Sound(g, owner, given) && AllRecorded(g, given)
    requires forall v {:trigger g.dag[v]} :: v in g.dag ==> g.dag[v] in g.nodes
    ensures Solves(ElementsOf(g), given) <==> NothingLeft(g)
  {
    var s := ElementsOf(g);
    if NothingLeft(g) {
      forall i | 0 <= i < |given|
        ensures Satisfies(s, given[i])
      {
        assert Recorded(g, given[i]);
      }
    }
    if Solves(s, given) {
      assert SoundFor(g, owner, s);
      forall u, v | Connected(g, u, v)
        ensures Bits(g, u) <= Bits(g, v)
      {
        assert NodeSound(g.nodes[g.dag[u]], s(owner[g.dag[u]]), owner, s);
        assert s(u) == s(owner[g.dag[u]]) && s(v) == s(owner[g.dag[v]]);
      }
      forall v, c, p | Waiting(g, v, c, p) && c in Bits(g, v)
        ensures Bits(g, p.0) <= Bits(g, p.1)
      {
        assert NodeSound(g.nodes[g.dag[v]], s(owner[g.dag[v]]), owner, s);
        assert s(v) == s(owner[g.dag[v]]) && s(p.0) <= s(p.1);
      }
    }
  }

  lemma NothingTooMuch(g: Graph, owner: map<nat, nat>, given: seq<Constraint>)
    requires Sound(g, owner, given)
    requires forall v {:trigger g.dag[v]} :: v in g.dag ==> g.dag[v] in g.nodes
    ensures forall s: Assignment, v :: Solves(s, given) ==> Bits(g, v) <= s(v)
  {
    forall s: Assignment, v | Solves(s, given)
      ensures Bits(g, v) <= s(v)
    {
      assert SoundFor(g, owner, s);
      if v in g.dag {
        assert NodeSound(g.nodes[g.dag[v]], s(owner[g.dag[v]]), owner, s);
      }
    }
  }
}
