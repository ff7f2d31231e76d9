/** What the cubic solver does, step by step, for given positions of the nodes: a
    set of nodes is visited in the order of their positions, as a set of pointers
    is. Fuel bounds the depth of recursion and the rounds of two loops. */
module CubicRun {
  import opened Sets
  import opened Optional
  import opened Cubic
  import opened CubicGraph
  import opened CubicSteps

  // Undefined: a loop has to go on from an element erased from its set. Endless: a
  // loop can make no progress. Spent: more fuel is needed to tell.
  datatype Outcome<+T> = Finished(value: T) | Undefined | Endless | Spent

  type Positions = nat -> nat

  // -------------------------------------------------------------------------
  // A set of nodes in the order of their positions
  // -------------------------------------------------------------------------

  ghost function From(ord: Positions, xs: set<nat>, from: nat): set<nat> {
    set x | x in xs && ord(x) >= from
  }

  ghost predicate IsFirst(ord: Positions, xs: set<nat>, from: nat, x: nat) {
    x in From(ord, xs, from) && forall y {:trigger y in xs} :: y in xs && ord(y) >= from ==> ord(x) <= ord(y)
  }

  lemma {:induction false} FirstExists(ord: Positions, xs: set<nat>, from: nat)
    requires From(ord, xs, from) != {}
    ensures exists x :: IsFirst(ord, xs, from, x)
    decreases xs
  {
    var y :| y in From(ord, xs, from);
    var rest := xs - {y};
    if From(ord, rest, from) == {} {
      assert From(ord, xs, from) == {y} + From(ord, rest, from);
      forall z | z in xs && ord(z) >= from
        ensures z == y
      {
        assert z in From(ord, xs, from);
      }
      assert IsFirst(ord, xs, from, y);
    } else {
      FirstExists(ord, rest, from);
      var x :| IsFirst(ord, rest, from, x);
      var z := if ord(y) < ord(x) then y else x;
      forall w | w in xs && ord(w) >= from
        ensures ord(z) <= ord(w)
      {
        assert w == y || w in rest;
      }
      assert IsFirst(ord, xs, from, z);
    }
  }

  // The first element at position from or later: where an iterator stands next.
  ghost function Next(ord: Positions, xs: set<nat>, from: nat): (r: Option<nat>)
    ensures r.None? <==> From(ord, xs, from) == {}
    ensures r.Some? ==> IsFirst(ord, xs, from, r.value)
  {
    if From(ord, xs, from) == {} then None
    else
      FirstExists(ord, xs, from);
      var x :| IsFirst(ord, xs, from, x);
      Some(x)
  }

  lemma FewerFrom(ord: Positions, xs: set<nat>, from: nat, x: nat)
    requires x in From(ord, xs, from)
    ensures |From(ord, xs, ord(x) + 1)| < |From(ord, xs, from)|
  {
    var a, b := From(ord, xs, ord(x) + 1), From(ord, xs, from);
    assert a <= b - {x};
    assert |b - {x}| == |b| - 1;
    SubsetIsSmaller(a, b - {x});
  }

  ghost function Sups(g: Graph, n: nat): set<nat> {
    if n in g.nodes then g.nodes[n].sups else {}
  }

  ghost function Subs(g: Graph, n: nat): set<nat> {
    if n in g.nodes then g.nodes[n].subs else {}
  }

  // -------------------------------------------------------------------------
  // findPath
  // -------------------------------------------------------------------------

  ghost function PopulateF(ord: Positions, g: Graph, node: nat, dist: map<nat, nat>, q: seq<nat>,
      from: nat): (r: (map<nat, nat>, seq<nat>))
    requires node in dist
    requires forall x | x in q :: x in dist
    ensures dist.Keys <= r.0.Keys && forall x | x in r.1 :: x in r.0
    ensures q <= r.1
    decreases |From(ord, Sups(g, node), from)|
  {
    var m := Next(ord, Sups(g, node), from);
    if m.None? then (dist, q)
    else
      FewerFrom(ord, Sups(g, node), from, m.value);
      if m.value in dist then PopulateF(ord, g, node, dist, q, ord(m.value) + 1)
      else PopulateF(ord, g, node, dist[m.value := dist[node] + 1], q + [m.value], ord(m.value) + 1)
  }

  ghost function SearchF(ord: Positions, g: Graph, target: nat, dist: map<nat, nat>, q: seq<nat>,
      k: nat): Outcome<map<nat, nat>>
    requires forall x | x in q :: x in dist
    decreases k
  {
    if q == [] then Finished(dist)
    else if k == 0 then Spent
    else
      var r := PopulateF(ord, g, q[0], dist, q, 0);
      if target in r.0 then Finished(r.0) else SearchF(ord, g, target, r.0, r.1[1..], k - 1)
  }

  // The first predecessor whose distance is known: the only one a round looks at.
  ghost function FirstKnown(ord: Positions, g: Graph, dist: map<nat, nat>, curr: nat): Option<nat> {
    Next(ord, Subs(g, curr) * dist.Keys, 0)
  }

  // One round of the walk back: it stays where it is when that one is not nearer.
  ghost function BackStep(ord: Positions, g: Graph, dist: map<nat, nat>, curr: nat): nat {
    var n := FirstKnown(ord, g, dist, curr);
    if n.Some? && curr in dist && dist[n.value] + 1 == dist[curr] then n.value else curr
  }

  // The path walked back from curr to the source; None if some round stays put.
  ghost function WalkF(ord: Positions, g: Graph, dist: map<nat, nat>, source: nat, curr: nat): Option<seq<nat>>
    requires curr in dist
    decreases dist[curr]
  {
    var n := BackStep(ord, g, dist, curr);
    if curr == source then Some([curr])
    else if n == curr || n !in dist || dist[n] >= dist[curr] then None
    else
      var rest := WalkF(ord, g, dist, source, n);
      if rest.None? then None else Some([curr] + rest.value)
  }

  // A path from target back to source; empty if there is none.
  ghost function FindPathF(ord: Positions, g: Graph, source: nat, target: nat, k: nat): Outcome<seq<nat>> {
    var start := PopulateF(ord, g, source, map[source := 0], [], 0);
    match SearchF(ord, g, target, start.0, start.1, k)
    case Finished(dist) =>
      if target !in dist then Finished([])
      else
        var path := WalkF(ord, g, dist, source, target);
        if path.None? then Endless else Finished(path.value)
    case Undefined => Undefined
    case Endless => Endless
    case Spent => Spent
  }

  // -------------------------------------------------------------------------
  // killCyclesAt
  // -------------------------------------------------------------------------

  // The first superset from which a path leads back; empty if there is none.
  ghost function CycleF(ord: Positions, g: Graph, n: nat, from: nat, k: nat): Outcome<seq<nat>>
    decreases |From(ord, Sups(g, n), from)|
  {
    var t := Next(ord, Sups(g, n), from);
    if t.None? then Finished([])
    else
      FewerFrom(ord, Sups(g, n), from, t.value);
      var path := FindPathF(ord, g, t.value, n, k);
      if path != Finished([]) then path else CycleF(ord, g, n, ord(t.value) + 1, k)
  }

  ghost predicate CanMergeF(g: Graph, n1: nat, n2: nat) {
    n1 in g.nodes && n2 in g.nodes && |g.nodes[n1].conds| == |g.nodes[n2].conds|
  }

  ghost function MergePathF(g: Graph, path: seq<nat>): (r: Graph)
    ensures r.nodes.Keys == g.nodes.Keys && r.dag.Keys == g.dag.Keys
    decreases |path|
  {
    if |path| <= 1 then g
    else
      var a, b := path[|path| - 1], path[|path| - 2];
      MergePathF(if CanMergeF(g, a, b) then Merged(g, a, b) else g, path[..|path| - 2] + [a])
  }

  ghost function KillCyclesF(ord: Positions, g: Graph, n: nat, k: nat): (r: Outcome<(Graph, nat)>)
    ensures r.Finished? ==> r.value.0.nodes.Keys == g.nodes.Keys && r.value.0.dag.Keys == g.dag.Keys
    decreases k
  {
    match CycleF(ord, g, n, 0, k)
    case Finished(path) =>
      if path == [] then Finished((g, n))
      else if k == 0 then Spent
      else KillCyclesF(ord, MergePathF(g, path), path[|path| - 1], k - 1)
    case Undefined => Undefined
    case Endless => Endless
    case Spent => Spent
  }

  // -------------------------------------------------------------------------
  // propagateNodeChanges
  // -------------------------------------------------------------------------

  ghost function PropagateF(size: nat, ord: Positions, g: Graph, node: nat, k: nat): (r: Outcome<Graph>)
    ensures r.Finished? ==> r.value.nodes.Keys == g.nodes.Keys && r.value.dag.Keys == g.dag.Keys
    decreases k, 5
  {
    var r := ActivateAllF(size, ord, g, node, 0, k);
    if r.Finished? then PushUpF(size, ord, r.value, node, 0, k) else r
  }

  ghost function ActivateAllF(size: nat, ord: Positions, g: Graph, node: nat, i: nat, k: nat): (r: Outcome<Graph>)
    requires i <= size
    ensures r.Finished? ==> r.value.nodes.Keys == g.nodes.Keys && r.value.dag.Keys == g.dag.Keys
    decreases k, 4, size - i
  {
    if i == size then Finished(g)
    else
      var r := if node in g.nodes && i in g.nodes[node].bits then ActivateListF(size, ord, g, node, i, k)
        else Finished(g);
      if r.Finished? then ActivateAllF(size, ord, r.value, node, i + 1, k) else r
  }

  // The list is emptied, and then taken one by one.
  ghost function ActivateListF(size: nat, ord: Positions, g: Graph, node: nat, i: nat, k: nat): (r: Outcome<Graph>)
    requires node in g.nodes
    ensures r.Finished? ==> r.value.nodes.Keys == g.nodes.Keys && r.value.dag.Keys == g.dag.Keys
    decreases k, 3
  {
    if i >= |g.nodes[node].conds| then Finished(g)
    else ActivatePairsF(size, ord, WithList(g, node, i, []), g.nodes[node].conds[i], k)
  }

  ghost function ActivatePairsF(size: nat, ord: Positions, g: Graph, pairs: seq<(nat, nat)>,
      k: nat): (r: Outcome<Graph>)
    ensures r.Finished? ==> r.value.nodes.Keys == g.nodes.Keys && r.value.dag.Keys == g.dag.Keys
    decreases k, 2, |pairs|
  {
    if pairs == [] then Finished(g)
    else
      var r := ActivateF(size, ord, g, pairs[0].0, pairs[0].1, k);
      if r.Finished? then ActivatePairsF(size, ord, r.value, pairs[1..], k) else r
  }

  // A new edge, the cycles it closes, and what then has to be passed on.
  ghost function ActivateF(size: nat, ord: Positions, g: Graph, from: nat, to: nat, k: nat): (r: Outcome<Graph>)
    ensures r.Finished? ==> r.value.nodes.Keys == g.nodes.Keys && r.value.dag.Keys == g.dag.Keys
    decreases k, 1
  {
    if from !in g.dag || to !in g.dag || g.dag[from] == g.dag[to] then Finished(g)
    else if g.dag[from] !in g.nodes || g.dag[to] !in g.nodes then Finished(g)
    else
      match KillCyclesF(ord, WithEdge(g, g.dag[from], g.dag[to]), g.dag[from], k)
      case Finished(r) => if k == 0 then Spent else PropagateF(size, ord, r.0, r.0.dag[from], k - 1)
      case Undefined => Undefined
      case Endless => Endless
      case Spent => Spent
  }

  // The loop over the supersets, from a position on. The iterator moves on from the
  // element it stands on, which must still be there.
  ghost function PushUpF(size: nat, ord: Positions, g: Graph, node: nat, from: nat, k: nat): (r: Outcome<Graph>)
    ensures r.Finished? ==> r.value.nodes.Keys == g.nodes.Keys && r.value.dag.Keys == g.dag.Keys
    decreases k, 4, |From(ord, g.nodes.Keys, from)|
  {
    var s := Next(ord, Sups(g, node) * g.nodes.Keys, from);
    if s.None? then Finished(g)
    else if k == 0 then Spent
    else
      FewerFrom(ord, g.nodes.Keys, from, s.value);
      var r := PropagateF(size, ord, WithBits(g, s.value, g.nodes[node].bits), s.value, k - 1);
      if !r.Finished? then r
      else if s.value !in Sups(r.value, node) then Undefined
      else
        assert r.value.nodes.Keys == g.nodes.Keys;
        PushUpF(size, ord, r.value, node, ord(s.value) + 1, k)
  }

  // -------------------------------------------------------------------------
  // Constraints
  // -------------------------------------------------------------------------

  function WithVariable(g: Graph, size: nat, v: nat, n: nat): Graph {
    Graph(g.dag[v := n], g.nodes[n := Node({}, {}, {}, seq(size, i requires 0 <= i < size => []))])
  }

  // The graph, and the next node to be made.
  datatype State = State(g: Graph, next: nat)

  function WithVar(size: nat, s: State, v: nat): State {
    if v in s.g.dag then s else State(WithVariable(s.g, size, v, s.next), s.next + 1)
  }

  ghost function AddF(size: nat, ord: Positions, s: State, c: Constraint, k: nat): Outcome<State> {
    match c
    case ElementOf(e, v) =>
      var s1 := WithVar(size, s, v);
      if s1.g.dag[v] !in s1.g.nodes then Undefined
      else Made(PropagateF(size, ord, WithBits(s1.g, s1.g.dag[v], {e}), s1.g.dag[v], k), s1.next)
    case Subset(from, to) =>
      var s1 := WithVar(size, WithVar(size, s, from), to);
      Made(ActivateF(size, ord, s1.g, from, to, k), s1.next)
    case Conditional(e, inside, from, to) =>
      var s1 := WithVar(size, WithVar(size, WithVar(size, s, inside), from), to);
      var n := s1.g.dag[inside];
      if n !in s1.g.nodes || e >= |s1.g.nodes[n].conds| then Undefined
      else Made(PropagateF(size, ord, WithList(s1.g, n, e, s1.g.nodes[n].conds[e] + [(from, to)]), n, k), s1.next)
  }

  function Made(r: Outcome<Graph>, next: nat): Outcome<State> {
    match r
    case Finished(g) => Finished(State(g, next))
    case Undefined => Undefined
    case Endless => Endless
    case Spent => Spent
  }

  const NOTHING := State(Graph(map[], map[]), 0)

  // One constraint after the other, from nothing.
  ghost function RunF(size: nat, ord: Positions, cs: seq<Constraint>, k: nat): Outcome<State>
    decreases |cs|
  {
    if cs == [] then Finished(NOTHING)
    else
      var r := RunF(size, ord, cs[..|cs| - 1], k);
      if r.Finished? then AddF(size, ord, r.value, cs[|cs| - 1], k) else r
  }
}
