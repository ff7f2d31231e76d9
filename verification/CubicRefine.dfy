/** What the solver's methods come to, told in terms of the run: for all fuel from
    some cost on, the run has one outcome, and the method ends accordingly. Each
    lemma follows one loop or one call of the solver by one step: where the loop has
    come to, in the run and in the method, at the same cost. The costs add up as the
    calls nest, so that a method's outcome is that of the run for all fuel large
    enough, whether it comes back, breaks or never ends. */
module CubicRefine {
  import opened Optional
  import opened Cubic
  import opened CubicGraph
  import opened CubicSteps
  import opened CubicRun
  import opened CubicProgress
  import opened CubicLoops

  // How a method ends: it returns; it meets an undefined step; it goes on for ever.
  datatype Ending = Returns | Breaks | Hangs

  function Told<T>(end: Ending, value: T): Outcome<T> {
    match end
    case Returns => Finished(value)
    case Breaks => Undefined
    case Hangs => Endless
  }

  function Max(a: nat, b: nat): nat {
    if a < b then b else a
  }

  // What comes before the next element has been seen, once it has been too.
  lemma BeforeNext(ord: Positions, xs: set<nat>, from: nat, x: nat)
    requires Injective(ord) && Next(ord, xs, from) == Some(x)
    ensures forall y | y in xs && ord(y) < ord(x) + 1 :: ord(y) < from || y == x
  {
    forall y | y in xs && ord(y) < ord(x) + 1
      ensures ord(y) < from || y == x
    {
      if ord(y) >= from {
        assert y in From(ord, xs, from);
      }
    }
  }

  lemma BeforeEnd(ord: Positions, xs: set<nat>, from: nat)
    requires Next(ord, xs, from) == None
    ensures forall y | y in xs :: ord(y) < from
  {
    forall y | y in xs
      ensures ord(y) < from
    {
      assert y !in From(ord, xs, from);
    }
  }

  // -------------------------------------------------------------------------
  // Searching
  // -------------------------------------------------------------------------

  lemma {:induction false} PopulateStep(ord: Positions, g: Graph, n: nat, dist: map<nat, nat>, q: seq<nat>, from: nat)
    requires n in dist && forall x | x in q :: x in dist
    ensures var m := Next(ord, Sups(g, n), from);
      PopulateF(ord, g, n, dist, q, from) ==
        if m.None? then (dist, q)
        else if m.value in dist then PopulateF(ord, g, n, dist, q, ord(m.value) + 1)
        else PopulateF(ord, g, n, dist[m.value := dist[n] + 1], q + [m.value], ord(m.value) + 1)
  {
  }

  // The supersets of node before position from have been seen.
  ghost predicate Populating(ord: Positions, g: Graph, source: nat, node: nat, dist0: map<nat, nat>, q0: seq<nat>,
      dist: map<nat, nat>, q: seq<nat>, from: nat) {
    && Distances(g, source, dist) && dist0.Keys <= dist.Keys && node in dist0
    && Queued(dist0, q0) && Queued(dist, q) && q0 <= q
    && (forall x | x in dist :: x in dist0 || x in q)
    && (forall x | x in dist0 :: dist[x] == dist0[x])
    && (forall m | m in Sups(g, node) && ord(m) < from :: m in dist)
    && ((dist == dist0 && q == q0) || dist0.Keys < dist.Keys)
    && PopulateF(ord, g, node, dist0, q0, 0) == PopulateF(ord, g, node, dist, q, from)
  }

  lemma PopulatingStarts(ord: Positions, g: Graph, source: nat, node: nat, dist0: map<nat, nat>, q0: seq<nat>)
    requires Distances(g, source, dist0) && node in dist0 && Queued(dist0, q0)
    ensures Populating(ord, g, source, node, dist0, q0, dist0, q0, 0)
  {
  }

  lemma DistancesLive(g: Graph, source: nat, dist: map<nat, nat>, node: nat)
    requires Distances(g, source, dist) && node in dist
    ensures Live(g, node)
  {
  }

  lemma PopulatingStep(ord: Positions, g: Graph, source: nat, node: nat, dist0: map<nat, nat>, q0: seq<nat>,
      dist: map<nat, nat>, q: seq<nat>, from: nat, m: nat)
    requires Populating(ord, g, source, node, dist0, q0, dist, q, from)
    requires Injective(ord) && Next(ord, Sups(g, node), from) == Some(m) && Edge(g, node, m) && Live(g, m)
    ensures m in dist ==> Populating(ord, g, source, node, dist0, q0, dist, q, ord(m) + 1)
    ensures m !in dist ==>
      Populating(ord, g, source, node, dist0, q0, dist[m := dist[node] + 1], q + [m], ord(m) + 1)
  {
    hide Distances, PopulateF, Injective;
    BeforeNext(ord, Sups(g, node), from, m);
    PopulateStep(ord, g, node, dist, q, from);
    if m !in dist {
      Discovered(g, source, dist, node, m);
      assert m in dist[m := dist[node] + 1].Keys - dist0.Keys;
    }
  }

  lemma {:induction false} PopulatingOver(ord: Positions, g: Graph, source: nat, node: nat, dist0: map<nat, nat>,
      q0: seq<nat>, dist: map<nat, nat>, q: seq<nat>, from: nat)
    requires Populating(ord, g, source, node, dist0, q0, dist, q, from)
    requires Next(ord, Sups(g, node), from) == None
    ensures Distances(g, source, dist) && dist0.Keys <= dist.Keys && Expanded(g, dist, node)
    ensures Queued(dist, q) && q0 <= q
    ensures forall x | x in dist :: x in dist0 || x in q
    ensures (dist == dist0 && q == q0) || dist0.Keys < dist.Keys
    ensures (dist, q) == PopulateF(ord, g, node, dist0, q0, 0)
  {
    hide Distances, PopulateF;
    PopulateStep(ord, g, node, dist, q, from);
    BeforeEnd(ord, Sups(g, node), from);
  }

  // The rest of a walk put behind its beginning.
  function Onto(path: seq<nat>, rest: Option<seq<nat>>): Option<seq<nat>> {
    if rest.None? then None else Some(path + rest.value)
  }

  lemma OntoNothing(rest: Option<seq<nat>>)
    ensures Onto([], rest) == rest
  {
    if rest.Some? {
      assert [] + rest.value == rest.value;
    }
  }

  lemma OntoLonger(path: seq<nat>, curr: nat, rest: Option<seq<nat>>)
    ensures Onto(path, Onto([curr], rest)) == Onto(path + [curr], rest)
  {
    if rest.Some? {
      assert path + ([curr] + rest.value) == path + [curr] + rest.value;
    }
  }

  // Distances are known of live nodes, whose predecessors are known at both ends.
  lemma KnownBelow(g: Graph, size: nat, source: nat, dist: map<nat, nat>, curr: nat)
    requires Shaped(g, size) && Distances(g, source, dist) && curr in dist && curr != source
    ensures curr in g.nodes && forall n | n in g.nodes[curr].subs * dist.Keys :: Edge(g, n, curr)
  {
    DistancesLive(g, source, dist, curr);
    LiveNode(g, size, curr);
    LiveLinks(g, size, curr);
  }

  // The walk back so far.
  ghost predicate WalkedTo(ord: Positions, g: Graph, dist: map<nat, nat>, source: nat, target: nat, path: seq<nat>) {
    && path != [] && path[0] == target && target in dist
    && (forall i {:trigger path[i]} | 0 <= i < |path| :: path[i] in dist && dist[path[i]] + i == dist[target])
    && (forall i {:trigger path[i + 1]} | 0 <= i < |path| - 1 :: Edge(g, path[i + 1], path[i]))
    && WalkF(ord, g, dist, source, target) == Onto(path[..|path| - 1], WalkF(ord, g, dist, source, path[|path| - 1]))
  }

  lemma WalkStarts(ord: Positions, g: Graph, dist: map<nat, nat>, source: nat, target: nat)
    requires target in dist
    ensures WalkedTo(ord, g, dist, source, target, [target])
  {
    hide WalkF;
    OntoNothing(WalkF(ord, g, dist, source, target));
    assert [target][..0] == [];
  }

  lemma {:induction false} WalkStops(ord: Positions, g: Graph, dist: map<nat, nat>, source: nat, target: nat,
      path: seq<nat>)
    requires WalkedTo(ord, g, dist, source, target, path) && path[|path| - 1] != source && path[|path| - 1] in dist
    requires var next := FirstKnown(ord, g, dist, path[|path| - 1]);
      next.None? || dist[next.value] + 1 != dist[path[|path| - 1]]
    ensures WalkF(ord, g, dist, source, target) == None
  {
  }

  lemma {:induction false} WalkGoesOn(ord: Positions, g: Graph, dist: map<nat, nat>, source: nat, target: nat,
      path: seq<nat>, n: nat)
    requires WalkedTo(ord, g, dist, source, target, path) && path[|path| - 1] != source
    requires FirstKnown(ord, g, dist, path[|path| - 1]) == Some(n) && dist[n] + 1 == dist[path[|path| - 1]]
    requires Edge(g, n, path[|path| - 1])
    ensures WalkedTo(ord, g, dist, source, target, path + [n])
  {
    hide Edge;
    var curr, begun := path[|path| - 1], path[..|path| - 1];
    assert (path + [n])[..|path + [n]| - 1] == path == begun + [curr];
    assert WalkF(ord, g, dist, source, curr) == Onto([curr], WalkF(ord, g, dist, source, n));
    OntoLonger(begun, curr, WalkF(ord, g, dist, source, n));
  }

  // At the source the walk is a path back, without a repetition.
  lemma {:induction false} WalkOver(ord: Positions, g: Graph, dist: map<nat, nat>, source: nat, target: nat,
      path: seq<nat>)
    requires WalkedTo(ord, g, dist, source, target, path) && path[|path| - 1] == source && source != target
    requires Distances(g, source, dist)
    ensures WalkF(ord, g, dist, source, target) == Some(path)
    ensures BackPath(g, source, target, path)
  {
    assert path == path[..|path| - 1] + [source];
    forall i | 0 <= i < |path|
      ensures Live(g, path[i])
    {
      DistancesLive(g, source, dist, path[i]);
    }
  }

  ghost predicate Queued(dist: map<nat, nat>, q: seq<nat>) {
    forall x | x in q :: x in dist
  }

  // After some rounds of the search it stands at dist and q.
  ghost predicate Searching(ord: Positions, g: Graph, target: nat, dist0: map<nat, nat>, q0: seq<nat>, rounds: nat,
      dist: map<nat, nat>, q: seq<nat>)
    requires Queued(dist0, q0) && Queued(dist, q)
  {
    forall k: nat {:trigger SearchF(ord, g, target, dist, q, k)} ::
      SearchF(ord, g, target, dist0, q0, k + rounds) == SearchF(ord, g, target, dist, q, k)
  }

  lemma {:induction false} SearchRound(ord: Positions, g: Graph, target: nat, dist0: map<nat, nat>, q0: seq<nat>,
      rounds: nat, dist: map<nat, nat>, q: seq<nat>)
    requires Queued(dist0, q0) && Queued(dist, q) && q != []
    requires Searching(ord, g, target, dist0, q0, rounds, dist, q)
    ensures var r := PopulateF(ord, g, q[0], dist, q, 0);
      if target in r.0 then forall k: nat | k >= rounds + 1 :: SearchF(ord, g, target, dist0, q0, k) == Finished(r.0)
      else Queued(r.0, r.1[1..]) && Searching(ord, g, target, dist0, q0, rounds + 1, r.0, r.1[1..])
  {
    var r := PopulateF(ord, g, q[0], dist, q, 0);
    if target in r.0 {
      forall k: nat | k >= rounds + 1
        ensures SearchF(ord, g, target, dist0, q0, k) == Finished(r.0)
      {
        var j := k - rounds;
        assert SearchF(ord, g, target, dist, q, j) == Finished(r.0);
        assert SearchF(ord, g, target, dist0, q0, j + rounds) == SearchF(ord, g, target, dist, q, j);
      }
    } else {
      forall k: nat
        ensures SearchF(ord, g, target, dist0, q0, k + (rounds + 1)) == SearchF(ord, g, target, r.0, r.1[1..], k)
      {
        var j := k + 1;
        assert SearchF(ord, g, target, dist, q, j) == SearchF(ord, g, target, r.0, r.1[1..], k);
        assert SearchF(ord, g, target, dist0, q0, j + rounds) == SearchF(ord, g, target, dist, q, j);
      }
    }
  }

  lemma {:induction false} SearchOver(ord: Positions, g: Graph, target: nat, dist0: map<nat, nat>, q0: seq<nat>,
      rounds: nat, dist: map<nat, nat>)
    requires Queued(dist0, q0) && Searching(ord, g, target, dist0, q0, rounds, dist, [])
    ensures forall k: nat | k >= rounds :: SearchF(ord, g, target, dist0, q0, k) == Finished(dist)
  {
    forall k: nat | k >= rounds
      ensures SearchF(ord, g, target, dist0, q0, k) == Finished(dist)
    {
      var j := k - rounds;
      assert SearchF(ord, g, target, dist, [], j) == Finished(dist);
      assert SearchF(ord, g, target, dist0, q0, j + rounds) == SearchF(ord, g, target, dist, [], j);
    }
  }

  ghost predicate Finds(ord: Positions, g: Graph, source: nat, target: nat, out: Outcome<seq<nat>>, cost: nat) {
    forall k: nat {:trigger FindPathF(ord, g, source, target, k)} :: k >= cost ==>
      FindPathF(ord, g, source, target, k) == out
  }

  ghost predicate Searched(ord: Positions, g: Graph, source: nat, target: nat, dist: map<nat, nat>, cost: nat) {
    var start := PopulateF(ord, g, source, map[source := 0], [], 0);
    forall k: nat {:trigger SearchF(ord, g, target, start.0, start.1, k)} :: k >= cost ==>
      SearchF(ord, g, target, start.0, start.1, k) == Finished(dist)
  }

  lemma {:induction false} FoundNothing(ord: Positions, g: Graph, source: nat, target: nat, dist: map<nat, nat>,
      cost: nat)
    requires Searched(ord, g, source, target, dist, cost) && target !in dist
    ensures Finds(ord, g, source, target, Finished([]), cost)
  {
  }

  lemma {:induction false} FoundBack(ord: Positions, g: Graph, source: nat, target: nat, dist: map<nat, nat>, cost: nat)
    requires Searched(ord, g, source, target, dist, cost) && target in dist
    ensures var path := WalkF(ord, g, dist, source, target);
      Finds(ord, g, source, target, if path.None? then Endless else Finished(path.value), cost)
  {
  }

  // -------------------------------------------------------------------------
  // Collapsing
  // -------------------------------------------------------------------------

  ghost predicate Cycles(ord: Positions, g: Graph, n: nat, from: nat, out: Outcome<seq<nat>>, cost: nat) {
    forall k: nat {:trigger CycleF(ord, g, n, from, k)} :: k >= cost ==> CycleF(ord, g, n, from, k) == out
  }

  // The search for a cycle at n has come to position from.
  ghost predicate Cycling(ord: Positions, g: Graph, n: nat, from: nat, cost: nat) {
    forall k: nat {:trigger CycleF(ord, g, n, from, k)} :: k >= cost ==>
      CycleF(ord, g, n, 0, k) == CycleF(ord, g, n, from, k)
  }

  lemma {:induction false} CycleOnce(ord: Positions, g: Graph, n: nat, from: nat, k: nat)
    ensures var t := Next(ord, Sups(g, n), from);
      CycleF(ord, g, n, from, k)
      == if t.None? then Finished([])
         else if FindPathF(ord, g, t.value, n, k) != Finished([]) then FindPathF(ord, g, t.value, n, k)
         else CycleF(ord, g, n, ord(t.value) + 1, k)
  {
    hide FindPathF;
  }

  lemma {:induction false} CycleRound(ord: Positions, g: Graph, n: nat, from: nat, t: nat, out: Outcome<seq<nat>>,
      cost: nat, c: nat)
    requires Cycling(ord, g, n, from, cost) && Next(ord, Sups(g, n), from) == Some(t)
    requires Finds(ord, g, t, n, out, c)
    ensures if out == Finished([]) then Cycling(ord, g, n, ord(t) + 1, Max(cost, c))
      else Cycles(ord, g, n, 0, out, Max(cost, c))
  {
    hide CycleF, FindPathF, Next;
    forall k: nat | k >= Max(cost, c)
      ensures CycleF(ord, g, n, 0, k) == if out == Finished([]) then CycleF(ord, g, n, ord(t) + 1, k) else out
    {
      CycleOnce(ord, g, n, from, k);
      assert FindPathF(ord, g, t, n, k) == out;
      assert CycleF(ord, g, n, 0, k) == CycleF(ord, g, n, from, k);
    }
  }

  lemma {:induction false} CycleOver(ord: Positions, g: Graph, n: nat, from: nat, cost: nat)
    requires Cycling(ord, g, n, from, cost) && Next(ord, Sups(g, n), from) == None
    ensures Cycles(ord, g, n, 0, Finished([]), cost)
  {
    hide CycleF, FindPathF, Next;
    forall k: nat | k >= cost
      ensures CycleF(ord, g, n, 0, k) == Finished([])
    {
      CycleOnce(ord, g, n, from, k);
      assert CycleF(ord, g, n, from, k) == Finished([]);
    }
  }

  // The search for a cycle at n, and what it has made sure of.
  ghost predicate NoneBefore(ord: Positions, g: Graph, n: nat, from: nat) {
    forall t {:trigger t in Sups(g, n)} :: t in Sups(g, n) && ord(t) < from ==> !Reaches(g, t, n)
  }

  lemma NoneBeforeNext(ord: Positions, g: Graph, n: nat, from: nat, t: nat)
    requires Injective(ord) && NoneBefore(ord, g, n, from) && Next(ord, Sups(g, n), from) == Some(t) &&
      !Reaches(g, t, n)
    ensures NoneBefore(ord, g, n, ord(t) + 1)
  {
    hide Injective;
    BeforeNext(ord, Sups(g, n), from, t);
  }

  lemma NothingBefore(ord: Positions, g: Graph, n: nat)
    ensures NoneBefore(ord, g, n, 0)
  {
  }

  lemma WayBack(g: Graph, n: nat, t: nat)
    requires Edge(g, n, t) && Reaches(g, t, n)
    ensures !NoWayBack(g, n)
  {
  }

  lemma AtLeastTwo(g: Graph, source: nat, target: nat, path: seq<nat>)
    requires BackPath(g, source, target, path)
    ensures |path| >= 2 && path[0] == target && target in path && path[|path| - 1] == source
  {
  }

  lemma NoneAtAll(ord: Positions, g: Graph, n: nat, from: nat)
    requires NoneBefore(ord, g, n, from) && Next(ord, Sups(g, n), from) == None
    ensures NoWayBack(g, n)
  {
    BeforeEnd(ord, Sups(g, n), from);
    forall t | Edge(g, n, t)
      ensures !Reaches(g, t, n)
    {
      assert t in Sups(g, n);
    }
  }

  // What an iterator over n's supersets stands on.
  lemma SupersetAt(ord: Positions, g: Graph, size: nat, n: nat, from: nat, t: nat)
    requires Shaped(g, size) && Live(g, n) && n in g.nodes && Next(ord, Sups(g, n), from) == Some(t)
    ensures Edge(g, n, t) && Live(g, t) && t in g.nodes && t != n
  {
    LiveLinks(g, size, n);
  }

  lemma StandsOn(ord: Positions, g: Graph, size: nat, n: nat, from: nat, t: nat)
    requires Shaped(g, size) && Next(ord, Sups(g, n), from) == Some(t)
    ensures t in g.nodes && |From(ord, g.nodes.Keys, ord(t) + 1)| < |From(ord, g.nodes.Keys, from)|
  {
    InTable(g, size, n, t);
    FewerFrom(ord, g.nodes.Keys, from, t);
  }

  lemma SupsAre(g: Graph, n: nat)
    requires n in g.nodes
    ensures Sups(g, n) == g.nodes[n].sups
  {
  }

  lemma CycleStarts(ord: Positions, g: Graph, n: nat)
    ensures Cycling(ord, g, n, 0, 0)
  {
  }

  // Nothing that n leads to leads back to it.
  ghost predicate NoWayBack(g: Graph, n: nat) {
    forall t {:trigger Edge(g, n, t)} :: Edge(g, n, t) ==> !Reaches(g, t, n)
  }

  ghost predicate Kills(ord: Positions, g: Graph, n: nat, out: Outcome<(Graph, nat)>, cost: nat) {
    forall k: nat {:trigger KillCyclesF(ord, g, n, k)} :: k >= cost ==> KillCyclesF(ord, g, n, k) == out
  }

  ghost predicate Killing(ord: Positions, g0: Graph, n0: nat, rounds: nat, g: Graph, n: nat, cost: nat) {
    forall k: nat {:trigger KillCyclesF(ord, g, n, k)} :: k >= cost ==>
      KillCyclesF(ord, g0, n0, k + rounds) == KillCyclesF(ord, g, n, k)
  }

  lemma {:induction false} KillRound(ord: Positions, g0: Graph, n0: nat, rounds: nat, g: Graph, n: nat, cost: nat,
      path: seq<nat>, c: nat)
    requires Killing(ord, g0, n0, rounds, g, n, cost) && path != []
    requires Cycles(ord, g, n, 0, Finished(path), c)
    ensures Killing(ord, g0, n0, rounds + 1, MergePathF(g, path), path[|path| - 1], Max(cost, c))
  {
    hide CycleF, MergePathF;
    var g1, n1 := MergePathF(g, path), path[|path| - 1];
    forall k: nat | k >= Max(cost, c)
      ensures KillCyclesF(ord, g0, n0, k + (rounds + 1)) == KillCyclesF(ord, g1, n1, k)
    {
      var j := k + 1;
      assert CycleF(ord, g, n, 0, j) == Finished(path);
      assert KillCyclesF(ord, g, n, j) == KillCyclesF(ord, g1, n1, k);
      assert KillCyclesF(ord, g0, n0, j + rounds) == KillCyclesF(ord, g, n, j);
    }
  }

  lemma {:induction false} KillOver(ord: Positions, g0: Graph, n0: nat, rounds: nat, g: Graph, n: nat, cost: nat,
      out: Outcome<seq<nat>>, c: nat)
    requires Killing(ord, g0, n0, rounds, g, n, cost)
    requires out == Finished([]) || out == Undefined || out == Endless
    requires Cycles(ord, g, n, 0, out, c)
    ensures Kills(ord, g0, n0, if out.Finished? then Finished((g, n)) else if out.Undefined? then Undefined
      else Endless,
                  Max(cost, c) + rounds)
  {
    hide CycleF;
    var all := if out.Finished? then Finished((g, n)) else if out.Undefined? then Undefined else Endless;
    forall k: nat | k >= Max(cost, c) + rounds
      ensures KillCyclesF(ord, g0, n0, k) == all
    {
      var j := k - rounds;
      assert CycleF(ord, g, n, 0, j) == out;
      assert KillCyclesF(ord, g, n, j) == all;
      assert KillCyclesF(ord, g0, n0, j + rounds) == KillCyclesF(ord, g, n, j);
    }
  }

  // -------------------------------------------------------------------------
  // Propagating
  // -------------------------------------------------------------------------

  ghost predicate Propagates(size: nat, ord: Positions, g: Graph, node: nat, out: Outcome<Graph>, cost: nat) {
    forall k: nat {:trigger PropagateF(size, ord, g, node, k)} :: k >= cost ==> PropagateF(size, ord, g, node, k) == out
  }

  // The constraint c makes the state out of s.
  ghost predicate Adds(size: nat, ord: Positions, s: State, c: Constraint, out: Outcome<State>, cost: nat) {
    forall k: nat {:trigger AddF(size, ord, s, c, k)} :: k >= cost ==> AddF(size, ord, s, c, k) == out
  }

  // A condition is put on the list of a variable's node, which is then propagated.
  ghost predicate Conditions(size: nat, ord: Positions, g: Graph, e: nat, inside: nat, from: nat, to: nat,
      out: Outcome<Graph>, cost: nat)
  {
    && inside in g.dag && g.dag[inside] in g.nodes && e < |g.nodes[g.dag[inside]].conds|
    && var n := g.dag[inside];
       Propagates(size, ord, WithList(g, n, e, g.nodes[n].conds[e] + [(from, to)]), n, out, cost)
  }

  ghost predicate ActivatesAll(size: nat, ord: Positions, g: Graph, node: nat, out: Outcome<Graph>, cost: nat) {
    forall k: nat {:trigger ActivateAllF(size, ord, g, node, 0, k)} :: k >= cost ==>
      ActivateAllF(size, ord, g, node, 0, k) == out
  }

  ghost predicate ActivatingAll(size: nat, ord: Positions, g0: Graph, node: nat, g: Graph, i: nat, cost: nat)
    requires i <= size
  {
    forall k: nat {:trigger ActivateAllF(size, ord, g, node, i, k)} :: k >= cost ==>
      ActivateAllF(size, ord, g0, node, 0, k) == ActivateAllF(size, ord, g, node, i, k)
  }

  ghost predicate ActivatesList(size: nat, ord: Positions, g: Graph, node: nat, i: nat, out: Outcome<Graph>, cost: nat)
    requires node in g.nodes
  {
    forall k: nat {:trigger ActivateListF(size, ord, g, node, i, k)} :: k >= cost ==>
      ActivateListF(size, ord, g, node, i, k) == out
  }

  ghost predicate TakesPairs(size: nat, ord: Positions, g: Graph, pairs: seq<(nat, nat)>, out: Outcome<Graph>,
      cost: nat)
  {
    forall k: nat {:trigger ActivatePairsF(size, ord, g, pairs, k)} :: k >= cost ==>
      ActivatePairsF(size, ord, g, pairs, k) == out
  }

  ghost predicate ActivatingPairs(size: nat, ord: Positions, g0: Graph, pairs: seq<(nat, nat)>, g: Graph, j: nat,
      cost: nat)
    requires j <= |pairs|
  {
    forall k: nat {:trigger ActivatePairsF(size, ord, g, pairs[j..], k)} :: k >= cost ==>
      ActivatePairsF(size, ord, g0, pairs, k) == ActivatePairsF(size, ord, g, pairs[j..], k)
  }

  ghost predicate Activates(size: nat, ord: Positions, g: Graph, from: nat, to: nat, out: Outcome<Graph>, cost: nat) {
    forall k: nat {:trigger ActivateF(size, ord, g, from, to, k)} :: k >= cost ==>
      ActivateF(size, ord, g, from, to, k) == out
  }

  ghost predicate PushesUp(size: nat, ord: Positions, g: Graph, node: nat, out: Outcome<Graph>, cost: nat) {
    forall k: nat {:trigger PushUpF(size, ord, g, node, 0, k)} :: k >= cost ==> PushUpF(size, ord, g, node, 0, k) == out
  }

  ghost predicate PushingUp(size: nat, ord: Positions, g0: Graph, node: nat, g: Graph, from: nat, cost: nat) {
    forall k: nat {:trigger PushUpF(size, ord, g, node, from, k)} :: k >= cost ==>
      PushUpF(size, ord, g0, node, 0, k) == PushUpF(size, ord, g, node, from, k)
  }

  lemma {:induction false} PropagateStops(size: nat, ord: Positions, g: Graph, node: nat, out: Outcome<Graph>, c: nat)
    requires ActivatesAll(size, ord, g, node, out, c) && !out.Finished?
    ensures Propagates(size, ord, g, node, out, c)
  {
    hide ActivateAllF;
    forall k: nat | k >= c
      ensures PropagateF(size, ord, g, node, k) == out
    {
      assert ActivateAllF(size, ord, g, node, 0, k) == out;
    }
  }

  lemma {:induction false} PropagateGoesOn(size: nat, ord: Positions, g: Graph, node: nat, g1: Graph,
      out: Outcome<Graph>, c: nat, c': nat)
    requires ActivatesAll(size, ord, g, node, Finished(g1), c) && PushesUp(size, ord, g1, node, out, c')
    ensures Propagates(size, ord, g, node, out, Max(c, c'))
  {
    hide ActivateAllF, PushUpF;
    forall k: nat | k >= Max(c, c')
      ensures PropagateF(size, ord, g, node, k) == out
    {
      assert ActivateAllF(size, ord, g, node, 0, k) == Finished(g1);
      assert PushUpF(size, ord, g1, node, 0, k) == out;
    }
  }

  lemma AllStarts(size: nat, ord: Positions, g: Graph, node: nat)
    ensures ActivatingAll(size, ord, g, node, g, 0, 0)
  {
  }

  lemma PushStarts(size: nat, ord: Positions, g: Graph, node: nat)
    ensures PushingUp(size, ord, g, node, g, 0, 0)
  {
  }

  lemma NoWay(g: Graph, n: nat)
    requires forall t | Edge(g, n, t) :: !Reaches(g, t, n)
    ensures NoWayBack(g, n)
  {
  }

  lemma {:induction false} AllRound(size: nat, ord: Positions, g0: Graph, node: nat, g: Graph, i: nat, cost: nat,
      out: Outcome<Graph>, c: nat)
    requires i < size && ActivatingAll(size, ord, g0, node, g, i, cost) && node in g.nodes
    requires i in g.nodes[node].bits && ActivatesList(size, ord, g, node, i, out, c)
    ensures if out.Finished? then ActivatingAll(size, ord, g0, node, out.value, i + 1, Max(cost, c))
            else ActivatesAll(size, ord, g0, node, out, Max(cost, c))
  {
    hide ActivateListF;
    forall k: nat | k >= Max(cost, c)
      ensures ActivateAllF(size, ord, g0, node, 0, k) ==
        if out.Finished? then ActivateAllF(size, ord, out.value, node, i + 1, k) else out
    {
      assert ActivateListF(size, ord, g, node, i, k) == out;
      assert ActivateAllF(size, ord, g0, node, 0, k) == ActivateAllF(size, ord, g, node, i, k);
    }
  }

  lemma {:induction false} AllSkip(size: nat, ord: Positions, g0: Graph, node: nat, g: Graph, i: nat, cost: nat)
    requires i < size && ActivatingAll(size, ord, g0, node, g, i, cost) && node in g.nodes
    requires i !in g.nodes[node].bits
    ensures ActivatingAll(size, ord, g0, node, g, i + 1, cost)
  {
    forall k: nat | k >= cost
      ensures ActivateAllF(size, ord, g0, node, 0, k) == ActivateAllF(size, ord, g, node, i + 1, k)
    {
      assert ActivateAllF(size, ord, g0, node, 0, k) == ActivateAllF(size, ord, g, node, i, k);
    }
  }

  lemma {:induction false} AllOver(size: nat, ord: Positions, g0: Graph, node: nat, g: Graph, cost: nat)
    requires ActivatingAll(size, ord, g0, node, g, size, cost)
    ensures ActivatesAll(size, ord, g0, node, Finished(g), cost)
  {
    forall k: nat | k >= cost
      ensures ActivateAllF(size, ord, g0, node, 0, k) == Finished(g)
    {
      assert ActivateAllF(size, ord, g0, node, 0, k) == ActivateAllF(size, ord, g, node, size, k);
    }
  }

  lemma {:induction false} PairsRound(size: nat, ord: Positions, g0: Graph, pairs: seq<(nat, nat)>, g: Graph, j: nat,
      cost: nat, out: Outcome<Graph>, c: nat)
    requires j < |pairs| && ActivatingPairs(size, ord, g0, pairs, g, j, cost)
    requires Activates(size, ord, g, pairs[j].0, pairs[j].1, out, c)
    ensures if out.Finished? then ActivatingPairs(size, ord, g0, pairs, out.value, j + 1, Max(cost, c))
            else TakesPairs(size, ord, g0, pairs, out, Max(cost, c))
  {
    hide ActivateF;
    assert pairs[j..][1..] == pairs[j + 1..] && pairs[j..][0] == pairs[j];
    forall k: nat | k >= Max(cost, c)
      ensures ActivatePairsF(size, ord, g0, pairs, k) ==
        if out.Finished? then ActivatePairsF(size, ord, out.value, pairs[j + 1..], k) else out
    {
      assert ActivateF(size, ord, g, pairs[j].0, pairs[j].1, k) == out;
      assert ActivatePairsF(size, ord, g0, pairs, k) == ActivatePairsF(size, ord, g, pairs[j..], k);
    }
  }

  lemma {:induction false} PairsStart(size: nat, ord: Positions, g: Graph, pairs: seq<(nat, nat)>)
    ensures ActivatingPairs(size, ord, g, pairs, g, 0, 0)
  {
    assert pairs[0..] == pairs;
  }

  // The list taken off has been dealt with, whichever way.
  lemma {:induction false} ListOver(size: nat, ord: Positions, g: Graph, node: nat, i: nat, out: Outcome<Graph>,
      cost: nat)
    requires node in g.nodes && i < |g.nodes[node].conds|
    requires TakesPairs(size, ord, WithList(g, node, i, []), g.nodes[node].conds[i], out, cost)
    ensures ActivatesList(size, ord, g, node, i, out, cost)
  {
  }

  lemma {:induction false} PairsOver(size: nat, ord: Positions, g0: Graph, pairs: seq<(nat, nat)>, g: Graph, cost: nat)
    requires ActivatingPairs(size, ord, g0, pairs, g, |pairs|, cost)
    ensures TakesPairs(size, ord, g0, pairs, Finished(g), cost)
  {
    assert pairs[|pairs|..] == [];
    forall k: nat | k >= cost
      ensures ActivatePairsF(size, ord, g0, pairs, k) == Finished(g)
    {
      assert ActivatePairsF(size, ord, g0, pairs, k) == ActivatePairsF(size, ord, g, pairs[|pairs|..], k);
    }
  }

  lemma {:induction false} ActivateNothing(size: nat, ord: Positions, g: Graph, from: nat, to: nat)
    requires from in g.dag && to in g.dag && g.dag[from] == g.dag[to]
    ensures Activates(size, ord, g, from, to, Finished(g), 0)
  {
  }

  ghost predicate Apart(g: Graph, from: nat, to: nat) {
    from in g.dag && to in g.dag && g.dag[from] != g.dag[to] && g.dag[from] in g.nodes && g.dag[to] in g.nodes
  }

  lemma {:induction false} ActivateStops(size: nat, ord: Positions, g: Graph, from: nat, to: nat, end: Ending, c: nat,
      g2: Graph, n: nat)
    requires Apart(g, from, to) && !end.Returns?
    requires Kills(ord, WithEdge(g, g.dag[from], g.dag[to]), g.dag[from], Told(end, (g2, n)), c)
    ensures Activates(size, ord, g, from, to, Told(end, g2), c)
  {
    hide KillCyclesF, WithEdge;
    forall k: nat | k >= c
      ensures ActivateF(size, ord, g, from, to, k) == Told(end, g2)
    {
      assert KillCyclesF(ord, WithEdge(g, g.dag[from], g.dag[to]), g.dag[from], k) == Told(end, (g2, n));
    }
  }

  lemma {:induction false} ActivateGoesOn(size: nat, ord: Positions, g: Graph, from: nat, to: nat, g2: Graph, n: nat,
      out: Outcome<Graph>, c: nat, c': nat)
    requires Apart(g, from, to) && from in g2.dag
    requires Kills(ord, WithEdge(g, g.dag[from], g.dag[to]), g.dag[from], Finished((g2, n)), c)
    requires Propagates(size, ord, g2, g2.dag[from], out, c')
    ensures Activates(size, ord, g, from, to, out, Max(c, c' + 1))
  {
    hide KillCyclesF, PropagateF, WithEdge;
    forall k: nat | k >= Max(c, c' + 1)
      ensures ActivateF(size, ord, g, from, to, k) == out
    {
      var j := k - 1;
      assert KillCyclesF(ord, WithEdge(g, g.dag[from], g.dag[to]), g.dag[from], k) == Finished((g2, n));
      assert PropagateF(size, ord, g2, g2.dag[from], j) == out;
    }
  }

  lemma {:induction false} PushRound(size: nat, ord: Positions, g0: Graph, node: nat, g: Graph, from: nat, cost: nat,
      s: nat, out: Outcome<Graph>, c: nat)
    requires PushingUp(size, ord, g0, node, g, from, cost) && node in g.nodes && s in g.nodes
    requires Next(ord, Sups(g, node) * g.nodes.Keys, from) == Some(s)
    requires Propagates(size, ord, WithBits(g, s, g.nodes[node].bits), s, out, c)
    ensures if !out.Finished? then PushesUp(size, ord, g0, node, out, Max(cost, c + 1))
            else if s !in Sups(out.value, node) then PushesUp(size, ord, g0, node, Undefined, Max(cost, c + 1))
            else PushingUp(size, ord, g0, node, out.value, ord(s) + 1, Max(cost, c + 1))
  {
    hide PropagateF, PushUpF;
    var last := if out.Finished? && s !in Sups(out.value, node) then Undefined else out;
    forall k: nat | k >= Max(cost, c + 1)
      ensures PushUpF(size, ord, g0, node, 0, k) ==
        if last.Finished? then PushUpF(size, ord, out.value, node, ord(s) + 1, k) else last
    {
      var j := k - 1;
      assert PropagateF(size, ord, WithBits(g, s, g.nodes[node].bits), s, j) == out;
      PushUpRound(size, ord, g, node, from, k);
      assert PushUpF(size, ord, g0, node, 0, k) == PushUpF(size, ord, g, node, from, k);
    }
  }

  lemma {:induction false} PushOver(size: nat, ord: Positions, g0: Graph, node: nat, g: Graph, from: nat, cost: nat)
    requires PushingUp(size, ord, g0, node, g, from, cost) && node in g.nodes
    requires Next(ord, Sups(g, node) * g.nodes.Keys, from) == None
    ensures PushesUp(size, ord, g0, node, Finished(g), cost)
  {
    hide PushUpF;
    forall k: nat | k >= cost
      ensures PushUpF(size, ord, g0, node, 0, k) == Finished(g)
    {
      PushUpRound(size, ord, g, node, from, k);
      assert PushUpF(size, ord, g0, node, 0, k) == PushUpF(size, ord, g, node, from, k);
    }
  }

  // -------------------------------------------------------------------------
  // Constraints
  // -------------------------------------------------------------------------

  lemma ElementAdds(size: nat, ord: Positions, s: State, e: nat, v: nat, end: Ending, g: Graph, cost: nat)
    requires var s1 := WithVar(size, s, v);
      s1.g.dag[v] in s1.g.nodes &&
        Propagates(size, ord, WithBits(s1.g, s1.g.dag[v], {e}), s1.g.dag[v], Told(end, g), cost)
    ensures Adds(size, ord, s, ElementOf(e, v), Told(end, State(g, WithVar(size, s, v).next)), cost)
  {
    hide PropagateF, WithVar;
  }

  lemma ConditionAdds(size: nat, ord: Positions, s: State, e: nat, inside: nat, from: nat, to: nat, end: Ending,
      g: Graph, cost: nat)
    requires Conditions(size, ord, WithVar(size, WithVar(size, WithVar(size, s, inside), from), to).g, e, inside, from,
      to, Told(end, g), cost)
    ensures var s1 := WithVar(size, WithVar(size, WithVar(size, s, inside), from), to);
      Adds(size, ord, s, Conditional(e, inside, from, to), Told(end, State(g, s1.next)), cost)
  {
    hide PropagateF, WithVar;
  }

  lemma SubsetAdds(size: nat, ord: Positions, s: State, from: nat, to: nat, end: Ending, g: Graph, cost: nat)
    requires Activates(size, ord, WithVar(size, WithVar(size, s, from), to).g, from, to, Told(end, g), cost)
    ensures var s1 := WithVar(size, WithVar(size, s, from), to);
      Adds(size, ord, s, Subset(from, to), Told(end, State(g, s1.next)), cost)
  {
    hide ActivateF, WithVar;
  }
}
