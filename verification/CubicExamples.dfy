/** Three short lists of constraints on which the cubic solver, as written, goes wrong
    for some positions of its nodes, each run from nothing, constraint by constraint:
    a superset passed over, so that the result is no solution; a loop that has to go
    on from an element erased from its set; a walk back that goes round for ever.
    The intermediate graphs are written out, and each is what the run makes of the
    one before. */
module CubicExamples {
  import opened Optional
  import opened Cubic
  import opened CubicGraph
  import opened CubicSteps
  import opened CubicProgress
  import opened CubicRun
  import opened CubicLoops
  import opened CubicRefine

  // -------------------------------------------------------------------------
  // Steps in which nothing happens
  // -------------------------------------------------------------------------

  ghost predicate NoBits(g: Graph) {
    forall n | n in g.nodes :: g.nodes[n].bits == {}
  }

  ghost predicate Falls(g: Graph, rank: nat -> nat) {
    forall n, m {:trigger m in g.nodes[n].sups} :: n in g.nodes && m in g.nodes[n].sups ==> rank(m) < rank(n)
  }

  // Without elements there is nothing to propagate.
  lemma {:induction false} NothingFlows(size: nat, ord: Positions, g: Graph, node: nat, rank: nat -> nat, k: nat)
    requires NoBits(g) && Falls(g, rank) && rank(node) <= k
    ensures PropagateF(size, ord, g, node, k) == Finished(g)
    decreases k, 1
  {
    NothingActive(size, ord, g, node, 0, k);
    NothingPushed(size, ord, g, node, 0, rank, k);
  }

  lemma {:induction false} NothingActive(size: nat, ord: Positions, g: Graph, node: nat, i: nat, k: nat)
    requires i <= size && (node in g.nodes ==> g.nodes[node].bits == {})
    ensures ActivateAllF(size, ord, g, node, i, k) == Finished(g)
    decreases size - i
  {
    if i < size {
      NothingActive(size, ord, g, node, i + 1, k);
    }
  }

  lemma NoBitsToGive(g: Graph, node: nat, s: nat)
    requires NoBits(g) && node in g.nodes && s in g.nodes
    ensures WithBits(g, s, g.nodes[node].bits) == g
  {
    var empty: set<nat> := {};
    assert g.nodes[s].bits + empty == empty;
    assert g.nodes[s := g.nodes[s]] == g.nodes;
  }

  lemma {:induction false} NothingPushed(size: nat, ord: Positions, g: Graph, node: nat, from: nat, rank: nat -> nat,
      k: nat)
    requires NoBits(g) && Falls(g, rank) && rank(node) <= k
    ensures PushUpF(size, ord, g, node, from, k) == Finished(g)
    decreases k, 0, |From(ord, g.nodes.Keys, from)|
  {
    hide PropagateF, PushUpF, Next, WithBits;
    var s := Next(ord, Sups(g, node) * g.nodes.Keys, from);
    if s.None? {
      NothingPushedUp(size, ord, g, node, from, k);
    } else {
      FewerFrom(ord, g.nodes.Keys, from, s.value);
      PushUpRound(size, ord, g, node, from, k);
      NoBitsToGive(g, node, s.value);
      NothingFlows(size, ord, g, s.value, rank, k - 1);
      NothingPushed(size, ord, g, node, ord(s.value) + 1, rank, k);
    }
  }

  // Nothing leads on from a superset, so nothing leads back.
  lemma {:induction false} NoCycleAt(ord: Positions, g: Graph, n: nat, from: nat, k: nat)
    requires forall t | t in Sups(g, n) :: Sups(g, t) == {} && t != n
    ensures CycleF(ord, g, n, from, k) == Finished([])
    decreases |From(ord, Sups(g, n), from)|
  {
    var t := Next(ord, Sups(g, n), from);
    if t.Some? {
      FewerFrom(ord, Sups(g, n), from, t.value);
      NextNone(ord, Sups(g, t.value), 0);
      assert FindPathF(ord, g, t.value, n, k) == Finished([]);
      NoCycleAt(ord, g, n, ord(t.value) + 1, k);
    }
  }

  // A new edge into a graph without elements that closes no cycle is just added.
  lemma {:induction false} JustAnEdge(size: nat, ord: Positions, g: Graph, u: nat, v: nat, g1: Graph, rank: nat -> nat,
      k: nat)
    requires u in g.dag && v in g.dag && g.dag[u] != g.dag[v] && g.dag[u] in g.nodes && g.dag[v] in g.nodes
    requires g1 == WithEdge(g, g.dag[u], g.dag[v]) && NoBits(g1) && Falls(g1, rank)
    requires forall t | t in Sups(g1, g.dag[u]) :: Sups(g1, t) == {} && t != g.dag[u]
    requires rank(g.dag[u]) < k
    ensures ActivateF(size, ord, g, u, v, k) == Finished(g1)
  {
    hide NoBits, Falls, PropagateF, KillCyclesF, WithEdge;
    NothingKilled(ord, g1, g.dag[u], k);
    assert g1.dag == g.dag by {
      EdgeKeepsDag(g, g.dag[u], g.dag[v]);
    }
    NothingFlows(size, ord, g1, g1.dag[u], rank, k - 1);
  }

  lemma EdgeKeepsDag(g: Graph, a: nat, b: nat)
    requires a in g.nodes && b in g.nodes && a != b
    ensures WithEdge(g, a, b).dag == g.dag
  {
  }

  lemma {:induction false} NothingKilled(ord: Positions, g: Graph, n: nat, k: nat)
    requires forall t | t in Sups(g, n) :: Sups(g, t) == {} && t != n
    ensures KillCyclesF(ord, g, n, k) == Finished((g, n))
  {
    NoCycleAt(ord, g, n, 0, k);
  }

  lemma {:induction false} RunOn(size: nat, ord: Positions, cs: seq<Constraint>, c: Constraint, s: State, k: nat)
    requires RunF(size, ord, cs, k) == Finished(s)
    ensures RunF(size, ord, cs + [c], k) == AddF(size, ord, s, c, k)
  {
    assert (cs + [c])[..|cs + [c]| - 1] == cs;
  }

  // -------------------------------------------------------------------------
  // A walk back that goes round for ever
  // -------------------------------------------------------------------------

  const NONE: seq<seq<(nat, nat)>> := []

  // t <= n, t <= u, u <= n, and then n <= t, for t, n, u = 0, 1, 2.
  const ROUND := [Subset(0, 1), Subset(0, 2), Subset(2, 1), Subset(1, 0)]

  const R1 := Graph(map[0 := 0, 1 := 1], map[0 := Node({}, {1}, {}, NONE), 1 := Node({}, {}, {0}, NONE)])
  const R2 := Graph(map[0 := 0, 1 := 1, 2 := 2],
    map[0 := Node({}, {1, 2}, {}, NONE), 1 := Node({}, {}, {0}, NONE), 2 := Node({}, {}, {0}, NONE)])
  const R3 := Graph(map[0 := 0, 1 := 1, 2 := 2],
    map[0 := Node({}, {1, 2}, {}, NONE), 1 := Node({}, {}, {0, 2}, NONE), 2 := Node({}, {1}, {0}, NONE)])
  const R4 := Graph(map[0 := 0, 1 := 1, 2 := 2],
    map[0 := Node({}, {1, 2}, {1}, NONE), 1 := Node({}, {0}, {0, 2}, NONE), 2 := Node({}, {1}, {0}, NONE)])

  const R_RANK: nat -> nat := n => if n == 0 then 2 else if n == 2 then 1 else 0

  lemma FreshAt(size: nat, g: Graph, v: nat, n: nat, g': Graph)
    requires v !in g.dag && n !in g.nodes && n in g'.nodes &&
      g'.nodes[n] == Node({}, {}, {}, seq(size, i requires 0 <= i < size => []))
    requires g'.dag == g.dag[v := n] && g'.nodes.Keys == g.nodes.Keys + {n} && forall x | x in g.nodes ::
      g'.nodes[x] == g.nodes[x]
    ensures WithVar(size, State(g, n), v) == State(g', n + 1)
  {
    assert WithVariable(g, size, v, n).nodes == g'.nodes;
  }

  lemma EdgeIs(g: Graph, a: nat, b: nat, g': Graph)
    requires a in g.nodes && b in g.nodes && a != b && g'.dag == g.dag && g'.nodes.Keys == g.nodes.Keys
    requires g'.nodes[a] == g.nodes[a].(sups := g.nodes[a].sups + {b})
    requires g'.nodes[b] == g.nodes[b].(subs := g.nodes[b].subs + {a})
    requires forall x | x in g.nodes && x != a && x != b :: g'.nodes[x] == g.nodes[x]
    ensures WithEdge(g, a, b) == g'
  {
    assert WithEdge(g, a, b).nodes == g'.nodes;
  }

  // A subset constraint that only adds an edge, once its variables have nodes.
  lemma {:induction false} SubsetAdded(size: nat, ord: Positions, cs: seq<Constraint>, s: State, u: nat, v: nat,
      g: Graph, next: nat, g1: Graph, k: nat)
    requires RunF(size, ord, cs, k) == Finished(s)
    requires WithVar(size, WithVar(size, s, u), v) == State(g, next)
    requires ActivateF(size, ord, g, u, v, k) == Finished(g1)
    ensures RunF(size, ord, cs + [Subset(u, v)], k) == Finished(State(g1, next))
  {
    hide RunF, ActivateF, WithVar;
    RunOn(size, ord, cs, Subset(u, v), s, k);
  }

  const R0A := Graph(map[0 := 0], map[0 := Node({}, {}, {}, NONE)])
  const R0B := Graph(map[0 := 0, 1 := 1], map[0 := Node({}, {}, {}, NONE), 1 := Node({}, {}, {}, NONE)])
  const R1B := Graph(map[0 := 0, 1 := 1, 2 := 2],
    map[0 := Node({}, {1}, {}, NONE), 1 := Node({}, {}, {0}, NONE), 2 := Node({}, {}, {}, NONE)])

  lemma {:induction false} Round1(ord: Positions, k: nat)
    requires k >= 3
    ensures RunF(0, ord, ROUND[..1], k) == Finished(State(R1, 2))
  {
    hide ActivateF, WithEdge, WithVar;
    assert seq(0, i requires 0 <= i < 0 => []) == NONE;
    FreshAt(0, NOTHING.g, 0, 0, R0A);
    FreshAt(0, R0A, 1, 1, R0B);
    EdgeIs(R0B, 0, 1, R1);
    JustAnEdge(0, ord, R0B, 0, 1, R1, R_RANK, k);
    SubsetAdded(0, ord, [], NOTHING, 0, 1, R0B, 2, R1, k);
    assert ROUND[..1] == [] + [Subset(0, 1)];
  }

  lemma {:induction false} Round2(ord: Positions, k: nat)
    requires k >= 3
    ensures RunF(0, ord, ROUND[..2], k) == Finished(State(R2, 3))
  {
    hide ActivateF, WithEdge, WithVariable, RunF, AddF;
    assert seq(0, i requires 0 <= i < 0 => []) == NONE;
    Round1(ord, k);
    FreshAt(0, R1, 2, 2, R1B);
    EdgeIs(R1B, 0, 2, R2);
    JustAnEdge(0, ord, R1B, 0, 2, R2, R_RANK, k);
    SubsetAdded(0, ord, ROUND[..1], State(R1, 2), 0, 2, R1B, 3, R2, k);
    assert ROUND[..2] == ROUND[..1] + [Subset(0, 2)];
  }

  lemma {:induction false} Round3(ord: Positions, k: nat)
    requires k >= 3
    ensures RunF(0, ord, ROUND[..3], k) == Finished(State(R3, 3))
  {
    hide ActivateF, WithEdge, RunF;
    Round2(ord, k);
    EdgeIs(R2, 2, 1, R3);
    JustAnEdge(0, ord, R2, 2, 1, R3, R_RANK, k);
    SubsetAdded(0, ord, ROUND[..2], State(R2, 3), 2, 1, R2, 3, R3, k);
    assert ROUND[..3] == ROUND[..2] + [Subset(2, 1)];
  }

  // From 0 its two supersets are found, in either order; 1 is what was sought.
  lemma {:induction false} RoundSearched(ord: Positions, k: nat)
    requires Injective(ord) && k > 0
    ensures var p := PopulateF(ord, R4, 0, map[0 := 0], [], 0);
      SearchF(ord, R4, 1, p.0, p.1, k) == Finished(map[0 := 0, 1 := 1, 2 := 1])
  {
    var found := map[0 := 0, 1 := 1, 2 := 1];
    var a, b := if ord(1) < ord(2) then 1 else 2, if ord(1) < ord(2) then 2 else 1;
    assert Sups(R4, 0) == {1, 2};
    PopulateTwo(ord, R4, 0, a, b);
    assert map[0 := 0][a := 1][b := 1] == found;
    AllKnown(ord, R4, a, found, [a, b], 0);
  }

  lemma {:induction false} PopulateTwo(ord: Positions, g: Graph, n: nat, a: nat, b: nat)
    requires Injective(ord) && Sups(g, n) == {a, b} && ord(a) < ord(b) && a != n && b != n
    ensures PopulateF(ord, g, n, map[n := 0], [], 0) == (map[n := 0][a := 1][b := 1], [a, b])
  {
    hide PopulateF;
    var xs := {a, b};
    var d0: map<nat, nat> := map[n := 0];
    var d1 := d0[a := 1];
    NextIs(ord, xs, 0, a);
    PopulateStep(ord, g, n, d0, [], 0);
    assert [] + [a] == [a];
    NextIs(ord, xs, ord(a) + 1, b);
    PopulateStep(ord, g, n, d1, [a], ord(a) + 1);
    assert [a] + [b] == [a, b];
    NextNone(ord, xs, ord(b) + 1);
    PopulateStep(ord, g, n, d1[b := 1], [a, b], ord(b) + 1);
  }

  // Looking at a node whose supersets are all known changes nothing.
  lemma {:induction false} AllKnown(ord: Positions, g: Graph, n: nat, dist: map<nat, nat>, q: seq<nat>, from: nat)
    requires n in dist && (forall x | x in q :: x in dist) && Sups(g, n) <= dist.Keys
    ensures PopulateF(ord, g, n, dist, q, from) == (dist, q)
    decreases |From(ord, Sups(g, n), from)|
  {
    var m := Next(ord, Sups(g, n), from);
    PopulateStep(ord, g, n, dist, q, from);
    if m.Some? {
      FewerFrom(ord, Sups(g, n), from, m.value);
      AllKnown(ord, g, n, dist, q, ord(m.value) + 1);
    }
  }

  // The walk starts at 1; when 2 stands before 0, it is the first predecessor known,
  // and no nearer to 0 than 1 is.
  lemma {:induction false} RoundWalked(ord: Positions)
    requires Injective(ord) && ord(2) < ord(0)
    ensures WalkF(ord, R4, map[0 := 0, 1 := 1, 2 := 1], 0, 1) == None
  {
    var dist := map[0 := 0, 1 := 1, 2 := 1];
    assert Subs(R4, 1) * dist.Keys == {0, 2};
    NextIs(ord, {0, 2}, 0, 2);
    assert FirstKnown(ord, R4, dist, 1) == Some(2);
    assert BackStep(ord, R4, dist, 1) == 1;
  }

  // The last constraint closes a cycle; for these positions the solver never comes
  // back from it, however long it is given.
  lemma {:induction false} WalkGoesRound(ord: Positions, k: nat)
    requires Injective(ord) && ord(2) < ord(0) && k >= 3
    ensures RunF(0, ord, ROUND[..3], k).Finished?
    ensures RunF(0, ord, ROUND, k) == Endless
  {
    hide RunF, WithEdge, PopulateF, SearchF, WalkF;
    Round3(ord, k);
    EdgeIs(R3, 1, 0, R4);
    RoundSearched(ord, k);
    RoundWalked(ord);
    assert FindPathF(ord, R4, 0, 1, k) == Endless;
    assert Sups(R4, 1) == {0};
    NextIs(ord, {0}, 0, 0);
    assert CycleF(ord, R4, 1, 0, k) == Endless;
    assert KillCyclesF(ord, R4, 1, k) == Endless;
    assert ActivateF(0, ord, R3, 1, 0, k) == Endless;
    RunOn(0, ord, ROUND[..3], Subset(1, 0), State(R3, 3), k);
    assert ROUND == ROUND[..3] + [Subset(1, 0)];
  }

  // -------------------------------------------------------------------------
  // Two nodes on a cycle, collapsed while a loop runs below them
  // -------------------------------------------------------------------------

  // n and t lie below each other and below nothing else.
  ghost predicate Pair(g: Graph, n: nat, t: nat) {
    && n != t && n in g.nodes && t in g.nodes
    && Sups(g, n) == {t} && Sups(g, t) == {n} && t in Subs(g, n) && n !in Subs(g, n)
  }

  lemma {:induction false} PairSearched(ord: Positions, g: Graph, n: nat, t: nat, k: nat)
    requires Injective(ord) && Pair(g, n, t) && k > 0
    ensures var p := PopulateF(ord, g, t, map[t := 0], [], 0);
      SearchF(ord, g, n, p.0, p.1, k) == Finished(map[t := 0][n := 1])
  {
    hide PopulateF, Injective;
    var d0: map<nat, nat> := map[t := 0];
    var dist := d0[n := 1];
    NextIs(ord, {n}, 0, n);
    PopulateStep(ord, g, t, d0, [], 0);
    assert [] + [n] == [n];
    NextNone(ord, {n}, ord(n) + 1);
    PopulateStep(ord, g, t, dist, [n], ord(n) + 1);
    AllKnown(ord, g, n, dist, [n], 0);
    assert SearchF(ord, g, n, dist, [n], k) == Finished(dist);
  }

  lemma {:induction false} PairWalked(ord: Positions, g: Graph, n: nat, t: nat)
    requires Injective(ord) && Pair(g, n, t)
    ensures WalkF(ord, g, map[t := 0][n := 1], t, n) == Some([n, t])
  {
    var dist := map[t := 0][n := 1];
    assert Subs(g, n) * dist.Keys == {t};
    NextIs(ord, {t}, 0, t);
    assert BackStep(ord, g, dist, n) == t;
    assert WalkF(ord, g, dist, t, t) == Some([t]);
    assert [n] + [t] == [n, t];
  }

  lemma {:induction false} PairFound(ord: Positions, g: Graph, n: nat, t: nat, k: nat)
    requires Injective(ord) && Pair(g, n, t) && k > 0
    ensures FindPathF(ord, g, t, n, k) == Finished([n, t])
  {
    hide PopulateF, SearchF, WalkF, Pair, Injective;
    PairSearched(ord, g, n, t, k);
    PairWalked(ord, g, n, t);
  }

  lemma {:induction false} PairCollapsed(ord: Positions, g: Graph, n: nat, t: nat, g': Graph, k: nat)
    requires Injective(ord) && Pair(g, n, t) && k > 0
    requires |g.nodes[n].conds| == |g.nodes[t].conds| && g' == Merged(g, t, n) && Sups(g', t) == {}
    ensures KillCyclesF(ord, g, n, k) == Finished((g', t))
  {
    hide FindPathF, Merged;
    PairFound(ord, g, n, t, k);
    NextIs(ord, {t}, 0, t);
    assert CycleF(ord, g, n, 0, k) == Finished([n, t]);
    assert [n, t][..0] + [t] == [t];
    assert MergePathF(g', [t]) == g';
    assert MergePathF(g, [n, t]) == g';
    NothingKilled(ord, g', t, k - 1);
  }

  // With one element only, and nothing waiting for it at the node.
  lemma {:induction false} NothingWaits(ord: Positions, g: Graph, node: nat, k: nat)
    requires node in g.nodes && g.nodes[node].conds == [[]]
    ensures ActivateAllF(1, ord, g, node, 0, k) == Finished(g)
  {
    assert g.nodes[node].conds[0 := []] == g.nodes[node].conds;
    assert WithList(g, node, 0, []) == g by {
      assert g.nodes[node := g.nodes[node]] == g.nodes;
    }
    assert ActivatePairsF(1, ord, g, [], k) == Finished(g);
    assert ActivateAllF(1, ord, g, node, 1, k) == Finished(g);
  }

  // One constraint waits for it, which closes a cycle of two.
  lemma {:induction false} OneActivated(ord: Positions, g: Graph, node: nat, u: nat, v: nat, g1: Graph, n: nat, t: nat,
      g2: Graph, k: nat)
    requires Injective(ord) && k > 0
    requires node in g.nodes && g.nodes[node].conds == [[(u, v)]] && 0 in g.nodes[node].bits
    requires u in g.dag && v in g.dag && g.dag[u] == n && g.dag[v] == t && n in g.nodes && t in g.nodes && n != t
    requires g1 == WithEdge(WithList(g, node, 0, []), n, t) && Pair(g1, n, t)
    requires |g1.nodes[n].conds| == |g1.nodes[t].conds| && g2 == Merged(g1, t, n) && Sups(g2, t) == {}
    requires t in g2.nodes && g2.nodes[t].conds == [[]] && g2.dag[u] == t
    ensures ActivateAllF(1, ord, g, node, 0, k) == Finished(g2)
  {
    hide KillCyclesF, Merged, Pair, PropagateF, WithEdge;
    var g0 := WithList(g, node, 0, []);
    PairCollapsed(ord, g1, n, t, g2, k);
    SinkPropagates(ord, g2, t, k - 1);
    assert g0.dag == g.dag && g0.nodes.Keys == g.nodes.Keys;
    assert ActivateF(1, ord, g0, u, v, k) == Finished(g2);
    assert [(u, v)][1..] == [];
    assert ActivatePairsF(1, ord, g2, [], k) == Finished(g2);
    assert ActivatePairsF(1, ord, g0, [(u, v)], k) == Finished(g2);
    assert ActivateAllF(1, ord, g2, node, 1, k) == Finished(g2);
  }

  lemma {:induction false} SinkPropagates(ord: Positions, g: Graph, t: nat, k: nat)
    requires t in g.nodes && g.nodes[t].conds == [[]] && Sups(g, t) == {}
    ensures PropagateF(1, ord, g, t, k) == Finished(g)
  {
    NothingWaits(ord, g, t, k);
    NextNone(ord, {}, 0);
    assert Sups(g, t) * g.nodes.Keys == {};
  }

  const IDLE: seq<seq<(nat, nat)>> := [[]]

  // -------------------------------------------------------------------------
  // The element a loop stands on is erased
  // -------------------------------------------------------------------------

  const ERASING := [Subset(0, 1), Subset(2, 1), Conditional(0, 1, 1, 0), ElementOf(0, 2)]

  const E_DAG := map[0 := 0, 1 := 1, 2 := 2]
  const E0A := Graph(map[0 := 0], map[0 := Node({}, {}, {}, IDLE)])
  const E0B := Graph(map[0 := 0, 1 := 1], map[0 := Node({}, {}, {}, IDLE), 1 := Node({}, {}, {}, IDLE)])
  const E1 := Graph(map[0 := 0, 1 := 1], map[0 := Node({}, {1}, {}, IDLE), 1 := Node({}, {}, {0}, IDLE)])
  const E1B :=
    Graph(E_DAG, map[0 := Node({}, {1}, {}, IDLE), 1 := Node({}, {}, {0}, IDLE), 2 := Node({}, {}, {}, IDLE)])
  const E2 :=
    Graph(E_DAG, map[0 := Node({}, {1}, {}, IDLE), 1 := Node({}, {}, {0, 2}, IDLE), 2 := Node({}, {1}, {}, IDLE)])
  const E3 :=
    Graph(E_DAG, map[0 := Node({}, {1}, {}, IDLE), 1 := Node({}, {}, {0, 2}, [[(1, 0)]]), 2 := Node({}, {1}, {}, IDLE)])
  // The element has come to 2, and then to 1.
  const E4 :=
    Graph(E_DAG, map[0 := Node({}, {1}, {}, IDLE), 1 := Node({}, {}, {0, 2}, [[(1, 0)]]), 2 :=
    Node({0}, {1}, {}, IDLE)])
  const E5 :=
    Graph(E_DAG, map[0 := Node({}, {1}, {}, IDLE), 1 := Node({0}, {}, {0, 2}, [[(1, 0)]]), 2 :=
    Node({0}, {1}, {}, IDLE)])
  // The edge from 1 to 0, and what is left once 1 has been merged into 0.
  const E6 :=
    Graph(E_DAG, map[0 := Node({}, {1}, {1}, IDLE), 1 := Node({0}, {0}, {0, 2}, IDLE), 2 := Node({0}, {1}, {}, IDLE)])
  const E7 := Graph(map[0 := 0, 1 := 0, 2 := 2],
    map[0 := Node({0}, {}, {2}, IDLE), 1 := Node({0}, {0}, {0, 2}, IDLE), 2 := Node({0}, {0}, {}, IDLE)])

  const E_RANK: nat -> nat := n => if n == 1 then 0 else 1

  lemma IdleList()
    ensures seq(1, i requires 0 <= i < 1 => []) == IDLE
  {
  }

  lemma {:induction false} ErasingLinked(ord: Positions, k: nat)
    requires k >= 2
    ensures RunF(1, ord, ERASING[..2], k) == Finished(State(E2, 3))
  {
    hide ActivateF, WithEdge, RunF;
    IdleList();
    ErasingFirst(ord, k);
    FreshAt(1, E1, 2, 2, E1B);
    EdgeIs(E1B, 2, 1, E2);
    JustAnEdge(1, ord, E1B, 2, 1, E2, E_RANK, k);
    SubsetAdded(1, ord, ERASING[..1], State(E1, 2), 2, 1, E1B, 3, E2, k);
    assert ERASING[..2] == ERASING[..1] + [Subset(2, 1)];
  }

  lemma {:induction false} ErasingFirst(ord: Positions, k: nat)
    requires k >= 2
    ensures RunF(1, ord, ERASING[..1], k) == Finished(State(E1, 2))
  {
    hide ActivateF, WithEdge, WithVar;
    IdleList();
    FreshAt(1, NOTHING.g, 0, 0, E0A);
    FreshAt(1, E0A, 1, 1, E0B);
    EdgeIs(E0B, 0, 1, E1);
    JustAnEdge(1, ord, E0B, 0, 1, E1, E_RANK, k);
    SubsetAdded(1, ord, [], NOTHING, 0, 1, E0B, 2, E1, k);
    assert ERASING[..1] == [] + [Subset(0, 1)];
  }

  lemma ListIs(g: Graph, n: nat, list: seq<(nat, nat)>, g': Graph)
    requires n in g.nodes && |g.nodes[n].conds| == 1 && g'.dag == g.dag && g'.nodes.Keys == g.nodes.Keys
    requires g'.nodes[n] == g.nodes[n].(conds := [list]) && forall x | x in g.nodes && x != n ::
      g'.nodes[x] == g.nodes[x]
    ensures WithList(g, n, 0, list) == g'
  {
    assert g.nodes[n].conds[0 := list] == [list];
    assert WithList(g, n, 0, list).nodes == g'.nodes;
  }

  lemma BitsAre(g: Graph, n: nat, bits: set<nat>, g': Graph)
    requires n in g.nodes && g'.dag == g.dag && g'.nodes.Keys == g.nodes.Keys
    requires g'.nodes[n] == g.nodes[n].(bits := g.nodes[n].bits + bits) && forall x | x in g.nodes && x != n ::
      g'.nodes[x] == g.nodes[x]
    ensures WithBits(g, n, bits) == g'
  {
    assert WithBits(g, n, bits).nodes == g'.nodes;
  }

  // A condition whose element has not come to its variable waits.
  lemma {:induction false} ConditionWaits(ord: Positions, cs: seq<Constraint>, g: Graph, next: nat, inside: nat,
      from: nat, to: nat, g1: Graph, rank: nat -> nat, k: nat)
    requires RunF(1, ord, cs, k) == Finished(State(g, next))
    requires inside in g.dag && from in g.dag && to in g.dag && g.dag[inside] in g.nodes
    requires g.nodes[g.dag[inside]].conds == [[]] && g1 == WithList(g, g.dag[inside], 0, [(from, to)])
    requires NoBits(g1) && Falls(g1, rank) && rank(g.dag[inside]) <= k
    ensures RunF(1, ord, cs + [Conditional(0, inside, from, to)], k) == Finished(State(g1, next))
  {
    hide RunF, NoBits, Falls, PropagateF;
    assert [] + [(from, to)] == [(from, to)];
    NothingFlows(1, ord, g1, g.dag[inside], rank, k);
    RunOn(1, ord, cs, Conditional(0, inside, from, to), State(g, next), k);
  }

  lemma {:induction false} ErasingReady(ord: Positions, k: nat)
    requires k >= 2
    ensures RunF(1, ord, ERASING[..3], k) == Finished(State(E3, 3))
  {
    hide RunF, WithList;
    ErasingLinked(ord, k);
    ListIs(E2, 1, [(1, 0)], E3);
    ConditionWaits(ord, ERASING[..2], E2, 3, 1, 1, 0, E3, E_RANK, k);
    assert ERASING[..3] == ERASING[..2] + [Conditional(0, 1, 1, 0)];
  }

  lemma ErasingMerged()
    ensures Merged(E6, 0, 1) == E7
  {
    var empty: seq<(nat, nat)> := [];
    assert empty + empty == empty;
    assert MergedNode(E6, 0, 1, 0).conds == IDLE;
    assert MergedNode(E6, 0, 1, 0) == E7.nodes[0];
    assert MergedNode(E6, 0, 1, 1) == E7.nodes[1];
    assert MergedNode(E6, 0, 1, 2) == E7.nodes[2];
    MergedIs(E6, 0, 1, E7);
  }

  lemma MergedIs(g: Graph, a: nat, b: nat, g': Graph)
    requires CanMergeF(g, a, b) && g'.nodes.Keys == g.nodes.Keys && g'.dag.Keys == g.dag.Keys
    requires forall x | x in g.nodes :: g'.nodes[x] == MergedNode(g, a, b, x)
    requires forall v | v in g.dag :: g'.dag[v] == if g.dag[v] == b then a else g.dag[v]
    ensures Merged(g, a, b) == g'
  {
    hide MergedNode;
    assert Merged(g, a, b).nodes == g'.nodes;
    assert Merged(g, a, b).dag == g'.dag;
  }

  // The call made for 1 merges it into 0.
  lemma {:induction false} ErasingCall(ord: Positions, k: nat)
    requires Injective(ord) && k > 1
    ensures PropagateF(1, ord, E5, 1, k) == Finished(E7)
  {
    hide ActivateAllF, Merged, Injective;
    var taken := WithList(E5, 1, 0, []);
    ErasingTaken(taken);
    EdgeIs(taken, 1, 0, E6);
    ErasingMerged();
    assert Pair(E6, 1, 0);
    OneActivated(ord, E5, 1, 1, 0, E6, 1, 0, E7, k);
    ErasingTail(ord, k);
  }

  lemma ErasingTaken(taken: Graph)
    requires taken == WithList(E5, 1, 0, [])
    ensures taken.dag == E_DAG && taken.nodes.Keys == E5.nodes.Keys
    ensures taken.nodes[0] == E5.nodes[0] && taken.nodes[2] == E5.nodes[2] &&
      taken.nodes[1] == E5.nodes[1].(conds := IDLE)
  {
    assert E5.nodes[1].conds[0 := []] == IDLE;
  }

  // The dead node 1 still passes its elements on to 0.
  lemma {:induction false} ErasingTail(ord: Positions, k: nat)
    requires Injective(ord) && k > 0
    ensures PushUpF(1, ord, E7, 1, 0, k) == Finished(E7)
  {
    hide PropagateF, Injective;
    assert Sups(E7, 1) * E7.nodes.Keys == {0};
    NextIs(ord, {0}, 0, 0);
    BitsAre(E7, 0, {0}, E7);
    SinkPropagates(ord, E7, 0, k - 1);
    NextNone(ord, {0}, ord(0) + 1);
    PushUpRound(1, ord, E7, 1, 0, k);
    PushUpRound(1, ord, E7, 1, ord(0) + 1, k);
  }

  // Whatever the positions: while 2's loop stands on 1, 1 is merged into 0 and so
  // erased from 2's supersets; the loop cannot go on from it.
  lemma {:induction false} CurrentIsErased(ord: Positions, k: nat)
    requires Injective(ord) && k > 2
    ensures RunF(1, ord, ERASING[..3], k).Finished?
    ensures RunF(1, ord, ERASING, k) == Undefined
  {
    hide RunF, PropagateF, Injective;
    ErasingReady(ord, k);
    BitsAre(E3, 2, {0}, E4);
    NothingWaits(ord, E4, 2, k);
    assert Sups(E4, 2) * E4.nodes.Keys == {1};
    NextIs(ord, {1}, 0, 1);
    BitsAre(E4, 1, {0}, E5);
    ErasingCall(ord, k - 1);
    PushUpRound(1, ord, E4, 2, 0, k);
    ThenPushed(1, ord, E4, 2, E4, k);
    RunOn(1, ord, ERASING[..3], ElementOf(0, 2), State(E3, 3), k);
    assert ERASING == ERASING[..3] + [ElementOf(0, 2)];
  }

  lemma {:induction false} ThenPushed(size: nat, ord: Positions, g: Graph, n: nat, g1: Graph, k: nat)
    requires ActivateAllF(size, ord, g, n, 0, k) == Finished(g1)
    ensures PropagateF(size, ord, g, n, k) == PushUpF(size, ord, g1, n, 0, k)
  {
  }

  // -------------------------------------------------------------------------
  // A superset passed over
  // -------------------------------------------------------------------------

  const SKIPPING := [Subset(0, 1), Subset(0, 2), Subset(3, 2), Conditional(0, 1, 2, 3), ElementOf(0, 0)]

  const S_DAG := map[0 := 0, 1 := 1, 2 := 2, 3 := 3]
  const S1B :=
    Graph(E_DAG, map[0 := Node({}, {1}, {}, IDLE), 1 := Node({}, {}, {0}, IDLE), 2 := Node({}, {}, {}, IDLE)])
  const S2 :=
    Graph(E_DAG, map[0 := Node({}, {1, 2}, {}, IDLE), 1 := Node({}, {}, {0}, IDLE), 2 := Node({}, {}, {0}, IDLE)])
  const S2B :=
    Graph(S_DAG, map[0 := Node({}, {1, 2}, {}, IDLE), 1 := Node({}, {}, {0}, IDLE), 2 := Node({}, {}, {0}, IDLE),
    3 := Node({}, {}, {}, IDLE)])
  const S3 :=
    Graph(S_DAG, map[0 := Node({}, {1, 2}, {}, IDLE), 1 := Node({}, {}, {0}, IDLE), 2 := Node({}, {}, {0, 3}, IDLE),
    3 := Node({}, {2}, {}, IDLE)])
  const S4 :=
    Graph(S_DAG, map[0 := Node({}, {1, 2}, {}, IDLE), 1 := Node({}, {}, {0}, [[(2, 3)]]), 2 :=
    Node({}, {}, {0, 3}, IDLE),
    3 := Node({}, {2}, {}, IDLE)])
  // The element has come to 0, and then to 1.
  const S5 :=
    Graph(S_DAG, map[0 := Node({0}, {1, 2}, {}, IDLE), 1 := Node({}, {}, {0}, [[(2, 3)]]), 2 :=
    Node({}, {}, {0, 3}, IDLE),
    3 := Node({}, {2}, {}, IDLE)])
  const S6 :=
    Graph(S_DAG, map[0 := Node({0}, {1, 2}, {}, IDLE), 1 := Node({0}, {}, {0}, [[(2, 3)]]), 2 :=
    Node({}, {}, {0, 3}, IDLE),
    3 := Node({}, {2}, {}, IDLE)])
  // The edge from 2 to 3, and what is left once 2 has been merged into 3.
  const S7 :=
    Graph(S_DAG, map[0 := Node({0}, {1, 2}, {}, IDLE), 1 := Node({0}, {}, {0}, IDLE), 2 := Node({}, {3}, {0, 3}, IDLE),
    3 := Node({}, {2}, {2}, IDLE)])
  const S8 := Graph(map[0 := 0, 1 := 1, 2 := 3, 3 := 3],
    map[0 := Node({0}, {1, 3}, {}, IDLE), 1 := Node({0}, {}, {0}, IDLE), 2 := Node({}, {3}, {0, 3}, IDLE), 3 :=
      Node({}, {}, {0}, IDLE)])

  const S_RANK: nat -> nat := n => if n == 0 || n == 3 then 1 else 0

  lemma {:induction false} SkippingLinked(ord: Positions, k: nat)
    requires k >= 2
    ensures RunF(1, ord, SKIPPING[..3], k) == Finished(State(S3, 4))
  {
    hide ActivateF, WithEdge, RunF;
    IdleList();
    SkippingTwo(ord, k);
    FreshAt(1, S2, 3, 3, S2B);
    EdgeIs(S2B, 3, 2, S3);
    JustAnEdge(1, ord, S2B, 3, 2, S3, S_RANK, k);
    SubsetAdded(1, ord, SKIPPING[..2], State(S2, 3), 3, 2, S2B, 4, S3, k);
    assert SKIPPING[..3] == SKIPPING[..2] + [Subset(3, 2)];
  }

  lemma {:induction false} SkippingTwo(ord: Positions, k: nat)
    requires k >= 2
    ensures RunF(1, ord, SKIPPING[..2], k) == Finished(State(S2, 3))
  {
    hide ActivateF, WithEdge, RunF;
    IdleList();
    ErasingFirst(ord, k);
    assert SKIPPING[..1] == ERASING[..1];
    FreshAt(1, E1, 2, 2, S1B);
    EdgeIs(S1B, 0, 2, S2);
    JustAnEdge(1, ord, S1B, 0, 2, S2, S_RANK, k);
    SubsetAdded(1, ord, SKIPPING[..1], State(E1, 2), 0, 2, S1B, 3, S2, k);
    assert SKIPPING[..2] == SKIPPING[..1] + [Subset(0, 2)];
  }

  lemma {:induction false} SkippingReady(ord: Positions, k: nat)
    requires k >= 2
    ensures RunF(1, ord, SKIPPING[..4], k) == Finished(State(S4, 4))
  {
    hide RunF, WithList;
    SkippingLinked(ord, k);
    ListIs(S3, 1, [(2, 3)], S4);
    ConditionWaits(ord, SKIPPING[..3], S3, 4, 1, 2, 3, S4, S_RANK, k);
    assert SKIPPING[..4] == SKIPPING[..3] + [Conditional(0, 1, 2, 3)];
  }

  lemma SkippingMerged()
    ensures Merged(S7, 3, 2) == S8
  {
    var empty: seq<(nat, nat)> := [];
    assert empty + empty == empty;
    assert MergedNode(S7, 3, 2, 0) == S8.nodes[0];
    assert MergedNode(S7, 3, 2, 1) == S8.nodes[1];
    assert MergedNode(S7, 3, 2, 2) == S8.nodes[2];
    assert MergedNode(S7, 3, 2, 3).conds == IDLE;
    assert MergedNode(S7, 3, 2, 3) == S8.nodes[3];
    MergedIs(S7, 3, 2, S8);
  }

  // The call made for 1 merges 2 into 3.
  lemma {:induction false} SkippingCall(ord: Positions, k: nat)
    requires Injective(ord) && k > 1
    ensures PropagateF(1, ord, S6, 1, k) == Finished(S8)
  {
    hide ActivateAllF, Merged, Injective;
    var taken := WithList(S6, 1, 0, []);
    assert S6.nodes[1].conds[0 := []] == IDLE;
    assert taken.nodes[1] == S6.nodes[1].(conds := IDLE);
    EdgeIs(taken, 2, 3, S7);
    SkippingMerged();
    assert Pair(S7, 2, 3);
    OneActivated(ord, S6, 1, 2, 3, S7, 2, 3, S8, k);
    NextNone(ord, {}, 0);
    assert Sups(S8, 1) * S8.nodes.Keys == {};
    PushUpRound(1, ord, S8, 1, 0, k);
  }

  // When 1 stands first among 0's supersets and 3 before it, the loop does not come
  // back for 3, which takes the place of 2.
  lemma SkippingFirst(ord: Positions)
    requires Injective(ord) && ord(1) < ord(2)
    ensures Next(ord, Sups(S5, 0) * S5.nodes.Keys, 0) == Some(1)
    ensures WithBits(S5, 1, S5.nodes[0].bits) == S6 && 1 in Sups(S8, 0)
  {
    assert Sups(S5, 0) * S5.nodes.Keys == {1, 2};
    NextIs(ord, {1, 2}, 0, 1);
    BitsAre(S5, 1, {0}, S6);
  }

  lemma {:induction false} SkippingLoop(ord: Positions, k: nat)
    requires Injective(ord) && ord(3) < ord(1) < ord(2) && k > 2
    ensures PropagateF(1, ord, S5, 0, k) == Finished(S8)
  {
    hide PropagateF, PushUpF, WithBits, Injective, Next, Sups;
    NothingWaits(ord, S5, 0, k);
    ThenPushed(1, ord, S5, 0, S5, k);
    SkippingFirst(ord);
    SkippingCall(ord, k - 1);
    PushUpRound(1, ord, S5, 0, 0, k);
    SkippingEnds(ord, k);
  }

  lemma {:induction false} SkippingEnds(ord: Positions, k: nat)
    requires Injective(ord) && ord(3) < ord(1)
    ensures PushUpF(1, ord, S8, 0, ord(1) + 1, k) == Finished(S8)
  {
    hide PropagateF, PushUpF, Injective, Next;
    assert Sups(S8, 0) * S8.nodes.Keys == {1, 3};
    NextNone(ord, {1, 3}, ord(1) + 1);
    PushUpRound(1, ord, S8, 0, ord(1) + 1, k);
  }

  // The run comes to its end with sets that do not solve the constraints.
  lemma {:induction false} SupersetIsSkipped(ord: Positions, k: nat)
    requires Injective(ord) && ord(3) < ord(1) < ord(2) && k > 2
    ensures RunF(1, ord, SKIPPING, k) == Finished(State(S8, 4))
    ensures !Solves(ElementsOf(S8), SKIPPING)
  {
    hide RunF, PropagateF, Injective;
    SkippingReady(ord, k);
    BitsAre(S4, 0, {0}, S5);
    SkippingLoop(ord, k);
    RunOn(1, ord, SKIPPING[..4], ElementOf(0, 0), State(S4, 4), k);
    assert SKIPPING == SKIPPING[..4] + [ElementOf(0, 0)];
    assert !Satisfies(ElementsOf(S8), SKIPPING[1]);
  }

  // As the theorem on the loop has it: 3 slipped in behind, without the element.
  lemma {:induction false} SkippingByTheorem(ord: Positions, k: nat)
    requires Injective(ord) && ord(3) < ord(1) < ord(2) && k > 2
    ensures CallsReturn(1, ord, S5, 0, 0, k) && !Erased(1, ord, S5, 0, 0, k)
    ensures Slipped(1, ord, S5, 0, 0, k) == {3} && 3 in Sups(S8, 0) && !Holds(S8, 3, S5.nodes[0].bits)
  {
    hide PropagateF, Injective, PushUpF;
    assert Sups(S5, 0) * S5.nodes.Keys == {1, 2};
    NextIs(ord, {1, 2}, 0, 1);
    BitsAre(S5, 1, {0}, S6);
    SkippingCall(ord, k - 1);
    assert Sups(S8, 0) * S8.nodes.Keys == {1, 3};
    NextNone(ord, {1, 3}, ord(1) + 1);
    assert Slipped(1, ord, S8, 0, ord(1) + 1, k) == {};
    assert (set m | m in Sups(S8, 0) - Sups(S5, 0) && ord(m) <= ord(1)) == {3};
    var none: set<nat> := {};
    assert {3} + none == {3};
  }
}
