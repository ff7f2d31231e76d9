/** The cubic solver: constraints enter one by one; elements and new edges are
    propagated, and every cycle is collapsed into one node as it appears. */
module CubicSolver {
  import opened Optional
  import opened Cubic
  import opened CubicGraph
  import opened CubicSteps
  import opened CubicRun
  import opened CubicProgress
  import opened CubicLoops
  import opened CubicLevels
  import opened CubicRefine

  // What the proofs of termination order the nodes by.
  datatype Times = Times(rank: nat -> nat, died: map<nat, nat>, clock: nat)

  class CubicSolver {
    const size: nat
    // Where each node lies in memory: what a set of nodes is ordered by.
    const ord: Positions
    var dagmapping: map<nat, nat>
    var nodes: map<nat, Node>
    var nextNode: nat

    // The constraints so far; a variable each node stands for; when each node was
    // merged away; and an order that shows there is no cycle.
    ghost var given: seq<Constraint>
    ghost var owner: map<nat, nat>
    ghost var died: map<nat, nat>
    ghost var clock: nat
    ghost var rank: nat -> nat

    // Some loop over supersets has ended with one that lacks the elements.
    ghost var missed: bool
    // Levels of the variables, which may or may not fit the constraints.
    ghost const level: nat -> nat

    ghost function G(): Graph
      reads this
    {
      Graph(dagmapping, nodes)
    }

    // What holds all through: a well-formed graph that says nothing too much.
    ghost predicate Based()
      reads this
    {
      && Injective(ord)
      && Shaped(G(), size)
      && owner.Keys == nodes.Keys
      && (forall n {:trigger n in nodes} :: n in nodes ==> n < nextNode)
      && Sound(G(), owner, given)
      && Retired(G(), died, clock)
    }

    ghost predicate Inv()
      reads this
    {
      Based() && Ranked(G(), rank, {})
    }

    // What holds between calls: every constraint has been recorded; and unless a
    // loop has missed something, nothing is left to propagate.
    ghost predicate Valid()
      reads this
    {
      Inv() && AllRecorded(G(), given) && (!missed ==> AllClosed(G()))
    }

    // The levels fit the constraints, and all has gone well so far.
    ghost predicate Calm()
      reads this
    {
      Levels(given, level, size) && StrictLists(G(), level) && !missed
    }

    // The element of a set an iterator comes to from a position on.
    method NextIn(xs: set<nat>, from: nat) returns (r: Option<nat>)
      requires Injective(ord)
      ensures r == Next(ord, xs, from)
    {
      r := None;
      var todo := xs;
      while todo != {}
        invariant todo <= xs
        invariant r.None? ==> forall x | x in xs - todo :: ord(x) < from
        invariant r.Some? ==> r.value in From(ord, xs, from) && forall x | x in xs - todo && ord(x) >= from ::
          ord(r.value) <= ord(x)
        decreases todo
      {
        var x :| x in todo;
        todo := todo - {x};
        if ord(x) >= from && (r.None? || ord(x) < ord(r.value)) {
          r := Some(x);
        }
      }
      if r.Some? {
        NextIs(ord, xs, from, r.value);
      } else {
        NextNone(ord, xs, from);
      }
    }

    // -----------------------------------------------------------------------
    // Finding a path
    // -----------------------------------------------------------------------

    method PopulateDistances(node: nat, dist0: map<nat, nat>, q0: seq<nat>, ghost source: nat)
      returns (dist: map<nat, nat>, q: seq<nat>)
      requires Injective(ord) && Shaped(G(), size) && Distances(G(), source, dist0) && node in dist0 && node in nodes
      requires Queued(dist0, q0)
      ensures Distances(G(), source, dist) && dist0.Keys <= dist.Keys && Expanded(G(), dist, node)
      ensures Queued(dist, q) && q0 <= q
      ensures forall x | x in dist :: x in dist0 || x in q
      ensures (dist == dist0 && q == q0) || dist0.Keys < dist.Keys
      ensures (dist, q) == PopulateF(ord, G(), node, dist0, q0, 0)
    {
      hide Shaped, Populating, PopulateF, Distances, Injective, Expanded, Next, From;
      dist, q := dist0, q0;
      ghost var from: nat := 0;
      PopulatingStarts(ord, G(), source, node, dist0, q0);
      var next := NextIn(nodes[node].sups, 0);
      while next.Some?
        invariant next == Next(ord, Sups(G(), node), from)
        invariant Populating(ord, G(), source, node, dist0, q0, dist, q, from) && node in dist
        decreases |From(ord, nodes[node].sups, from)|
      {
        var m := next.value;
        FewerFrom(ord, nodes[node].sups, from, m);
        DistancesLive(G(), source, dist0, node);
        SupersetAt(ord, G(), size, node, from, m);
        PopulatingStep(ord, G(), source, node, dist0, q0, dist, q, from, m);
        if m !in dist {
          dist := dist[m := dist[node] + 1];
          q := q + [m];
        }
        from := ord(m) + 1;
        next := NextIn(nodes[node].sups, ord(m) + 1);
      }
      PopulatingOver(ord, G(), source, node, dist0, q0, dist, q, from);
    }

    // Nearest first; a path is read off backwards.
    method FindPath(source: nat, target: nat) returns (end: Ending, path: seq<nat>, ghost cost: nat)
      requires Injective(ord) && Shaped(G(), size) && Live(G(), source) && source in nodes && source != target
      ensures !end.Breaks?
      ensures end.Returns? && path == [] ==> !Reaches(G(), source, target)
      ensures end.Returns? && path != [] ==> BackPath(G(), source, target, path)
      ensures end.Hangs? || path != [] ==> Reaches(G(), source, target)
      ensures Finds(ord, G(), source, target, Told(end, path), cost)
    {
      hide Shaped, Reaches, HasNearer;
      var dist: map<nat, nat>;
      dist, cost := Search(source, target);
      if target !in dist {
        NeverFound(G(), source, target, dist);
        FoundNothing(ord, G(), source, target, dist, cost);
        return Returns, [], cost;
      }
      assert Reaches(G(), source, target);
      FoundBack(ord, G(), source, target, dist, cost);
      var arrived;
      arrived, path := WalkBack(source, target, dist);
      end := if arrived then Returns else Hangs;
    }

    method Search(source: nat, target: nat) returns (dist: map<nat, nat>, ghost cost: nat)
      requires Injective(ord) && Shaped(G(), size) && Live(G(), source) && source in nodes && source != target
      ensures Distances(G(), source, dist)
      ensures target !in dist ==> forall x | x in dist :: Expanded(G(), dist, x)
      ensures Searched(ord, G(), source, target, dist, cost)
    {
      hide Shaped, Reaches, HasNearer;
      dist := map[source := 0];
      var q: seq<nat> := [];
      ReachesSelf(G(), source);
      dist, q := PopulateDistances(source, dist, q, source);
      ghost var dist1, q1, rounds := dist, q, 0;
      while q != []
        invariant Distances(G(), source, dist)
        invariant Queued(dist1, q1) && Queued(dist, q)
        invariant forall x | x in dist :: x in q || Expanded(G(), dist, x)
        invariant Searching(ord, G(), target, dist1, q1, rounds, dist, q)
        decreases G().dag.Values - dist.Keys, |q|
      {
        var curr := q[0];
        assert curr in q && curr in dist;
        LiveNode(G(), size, curr);
        SearchRound(ord, G(), target, dist1, q1, rounds, dist, q);
        ghost var dist0 := dist;
        dist, q := PopulateDistances(curr, dist, q, source);
        rounds := rounds + 1;
        if target in dist {
          return dist, rounds;
        }
        Rested(G(), dist0, dist, q, curr);
        if dist0.Keys < dist.Keys {
          CloserToAll(G(), source, dist0, dist);
        }
        q := q[1..];
      }
      SearchOver(ord, G(), target, dist1, q1, rounds, dist);
      cost := rounds;
    }

    // The loop looks at the first predecessor whose distance is known, and never
    // past it: when that one is no nearer it can only go round.
    method WalkBack(source: nat, target: nat, dist: map<nat, nat>) returns (arrived: bool, path: seq<nat>)
      requires Injective(ord) && Shaped(G(), size) && Distances(G(), source, dist) && target in dist && source != target
      ensures arrived ==> BackPath(G(), source, target, path)
      ensures WalkF(ord, G(), dist, source, target) == if arrived then Some(path) else None
    {
      hide Shaped, Edge, Distances, WalkF, Injective, WalkedTo;
      var curr := target;
      path := [target];
      WalkStarts(ord, G(), dist, source, target);
      while curr != source
        invariant path != [] && path[|path| - 1] == curr && curr in dist
        invariant WalkedTo(ord, G(), dist, source, target, path)
        decreases dist[curr]
      {
        KnownBelow(G(), size, source, dist, curr);
        var next := NextIn(nodes[curr].subs * dist.Keys, 0);
        if next.None? || dist[next.value] + 1 != dist[curr] {
          WalkStops(ord, G(), dist, source, target, path);
          return false, path;
        }
        WalkGoesOn(ord, G(), dist, source, target, path, next.value);
        path := path + [next.value];
        curr := next.value;
      }
      WalkOver(ord, G(), dist, source, target, path);
      arrived := true;
    }

    // -----------------------------------------------------------------------
    // Collapsing cycles
    // -----------------------------------------------------------------------

    // Everything of n2 goes to n1, whose neighbours are told.
    method MergeNodes(n1: nat, n2: nat)
      requires Mergeable(G(), size, n1, n2)
      modifies this`dagmapping, this`nodes
      ensures G() == old(Merged(G(), n1, n2))
    {
      assert LinksLive(G(), n1) && LinksLive(G(), n2) by {
        assert NodeShaped(G(), size, n1) && NodeShaped(G(), size, n2);
      }
      MergeTables(n1, n2);
    }

    method MergeTables(n1: nat, n2: nat)
      requires n1 in nodes && n2 in nodes && n1 != n2 && |nodes[n1].conds| == |nodes[n2].conds|
      requires nodes[n2].sups + nodes[n2].subs <= nodes.Keys && n2 !in nodes[n2].sups + nodes[n2].subs
      modifies this`dagmapping, this`nodes
      ensures G() == old(Merged(G(), n1, n2))
    {
      hide MergedNodes;
      ghost var g := G();
      var a, b := nodes[n1], nodes[n2];
      Redirect(n1, n2);
      nodes := nodes[n1 :=
        a.(bits := a.bits + b.bits, conds := seq(|a.conds|, i requires 0 <= i < |a.conds| => a.conds[i] + b.conds[i]))];
      ghost var nodes1 := nodes;
      TellSups(n1, n2, b.sups - {n1});
      ghost var nodes2 := nodes;
      TellSubs(n1, n2, b.subs - {n1});
      ghost var nodes3 := nodes;
      nodes := nodes[n1 := nodes[n1].(sups := nodes[n1].sups - {n2}, subs := nodes[n1].subs - {n2})];
      TablesMerged(g, n1, n2, nodes1, nodes2, nodes3, nodes);
    }

    method Redirect(n1: nat, n2: nat)
      modifies this`dagmapping
      ensures dagmapping == Redirected(old(dagmapping), old(dagmapping.Keys), n1, n2)
    {
      var todo := dagmapping.Keys;
      while todo != {}
        invariant todo <= dagmapping.Keys == old(dagmapping.Keys)
        invariant forall v | v in dagmapping ::
          dagmapping[v] == if old(dagmapping)[v] == n2 && v !in todo then n1 else old(dagmapping)[v]
        decreases todo
      {
        var v :| v in todo;
        todo := todo - {v};
        if dagmapping[v] == n2 {
          dagmapping := dagmapping[v := n1];
        }
      }
    }

    method TellSups(n1: nat, n2: nat, sups: set<nat>)
      requires n1 in nodes && sups <= nodes.Keys && n1 !in sups
      modifies this`nodes
      ensures nodes.Keys == old(nodes.Keys)
      ensures nodes[n1] == old(nodes[n1]).(sups := old(nodes[n1]).sups + sups)
      ensures forall x | x in nodes && x != n1 ::
        nodes[x] == if x in sups then old(nodes)[x].(subs := old(nodes)[x].subs - {n2} + {n1}) else old(nodes)[x]
    {
      var todo := sups;
      while todo != {}
        invariant todo <= sups && nodes.Keys == old(nodes.Keys)
        invariant nodes[n1] == old(nodes[n1]).(sups := old(nodes[n1]).sups + (sups - todo))
        invariant forall x | x in nodes && x != n1 ::
          nodes[x] == if x in sups - todo then old(nodes)[x].(subs := old(nodes)[x].subs - {n2} + {n1})
            else old(nodes)[x]
        decreases todo
      {
        var a :| a in todo;
        todo := todo - {a};
        nodes := nodes[a := nodes[a].(subs := nodes[a].subs - {n2} + {n1})][n1 :=
          nodes[n1].(sups := nodes[n1].sups + {a})];
      }
    }

    method TellSubs(n1: nat, n2: nat, subs: set<nat>)
      requires n1 in nodes && subs <= nodes.Keys && n1 !in subs
      modifies this`nodes
      ensures nodes.Keys == old(nodes.Keys)
      ensures nodes[n1] == old(nodes[n1]).(subs := old(nodes[n1]).subs + subs)
      ensures forall x | x in nodes && x != n1 ::
        nodes[x] == if x in subs then old(nodes)[x].(sups := old(nodes)[x].sups - {n2} + {n1}) else old(nodes)[x]
    {
      var todo := subs;
      while todo != {}
        invariant todo <= subs && nodes.Keys == old(nodes.Keys)
        invariant nodes[n1] == old(nodes[n1]).(subs := old(nodes[n1]).subs + (subs - todo))
        invariant forall x | x in nodes && x != n1 ::
          nodes[x] == if x in subs - todo then old(nodes)[x].(sups := old(nodes)[x].sups - {n2} + {n1})
            else old(nodes)[x]
        decreases todo
      {
        var a :| a in todo;
        todo := todo - {a};
        nodes := nodes[a := nodes[a].(sups := nodes[a].sups - {n2} + {n1})][n1 :=
          nodes[n1].(subs := nodes[n1].subs + {a})];
      }
    }

    // The nodes of a path that closes a cycle become its last, two at a time.
    method MergePath(path0: seq<nat>, ghost out: set<nat>) returns (n: nat)
      requires Based() && Ranked(G(), rank, out) && OnCycle(G(), owner, given, path0, out) && |path0| >= 2
      modifies this`dagmapping, this`nodes, this`died, this`clock
      ensures Based() && Ranked(G(), rank, {n}) && Live(G(), n)
      ensures NodesGrow(old(G()), G()) && Evolves(old(G()), G(), ClassVars(G(), n))
      ensures forall v | v in old(dagmapping) && old(dagmapping)[v] in path0 :: v in dagmapping && dagmapping[v] == n
      ensures Classes(G()) < Classes(old(G()))
      ensures G() == MergePathF(old(G()), path0) && n == path0[|path0| - 1]
    {
      hide Shaped, Sound, Retired, Ranked, OnCycle, Evolves, Merged;
      var path := path0;
      ghost var g0, out' := G(), out;
      ghost var open := PathVars(g0, path0);
      NothingChanged(g0);
      EvolvesMore(g0, g0, {}, open);
      while |path| > 1
        invariant path != [] && Based() && Ranked(G(), rank, out') && OnCycle(G(), owner, given, path, out')
        invariant NodesGrow(g0, G()) && Evolves(g0, G(), open)
        invariant PathVars(G(), path) == open
        invariant |path| == |path0| ==> G() == g0
        invariant MergePathF(g0, path0) == MergePathF(G(), path) && path[|path| - 1] == path0[|path0| - 1]
        invariant |path| < |path0| ==> Classes(G()) < Classes(g0)
        decreases |path|
      {
        var a, b := path[|path| - 1], path[|path| - 2];
        ghost var g := G();
        MergePair(a, b, path, out');
        path := path[..|path| - 2] + [a];
        out' := out' - {b};
        EvolvesTwice(g0, g, G(), open, ClassVars(g, a) + ClassVars(g, b));
        Twice(g0, g, G());
        assert open + (ClassVars(g, a) + ClassVars(g, b)) == open;
      }
      n := path[0];
      assert path == [n];
      EndOfPath(G(), owner, given, n, out');
      forall v | v in g0.dag && g0.dag[v] in path0
        ensures v in dagmapping && dagmapping[v] == n
      {
        assert v in PathVars(g0, path0);
        assert v in ClassVars(G(), n);
      }
    }

    method MergePair(a: nat, b: nat, ghost path: seq<nat>, ghost out: set<nat>)
      requires Based() && Ranked(G(), rank, out) && OnCycle(G(), owner, given, path, out)
      requires |path| >= 2 && a == path[|path| - 1] && b == path[|path| - 2]
      modifies this`dagmapping, this`nodes, this`died, this`clock
      ensures Based() && Ranked(G(), rank, out - {b})
      ensures OnCycle(G(), owner, given, path[..|path| - 2] + [a], out - {b})
      ensures NodesGrow(old(G()), G()) && Evolves(old(G()), G(), ClassVars(old(G()), a) + ClassVars(old(G()), b))
      ensures ClassVars(old(G()), a) + ClassVars(old(G()), b) <= PathVars(old(G()), path)
      ensures PathVars(G(), path[..|path| - 2] + [a]) == PathVars(old(G()), path)
      ensures Classes(G()) < Classes(old(G()))
      ensures CanMergeF(old(G()), a, b) && G() == Merged(old(G()), a, b)
    {
      hide Shaped, Sound, Retired, Ranked, OnCycle, Evolves, MergedNode, NodesGrow, Redirected, MergedNodes;
      ghost var g := G();
      CanMerge(g, size, owner, given, path, out);
      MergeNodes(a, b);
      MergeShaped(g, size, a, b);
      MergeSound(g, size, owner, given, a, b);
      MergeRanked(g, size, a, b, rank, out);
      MergeRetired(g, size, a, b, died, clock);
      MergeEvolves(g, size, a, b);
      MergeNodesGrow(g, size, a, b);
      MergedFewer(g, size, a, b);
      StillOnCycle(g, size, owner, given, path, out);
      died, clock := died[b := clock], clock + 1;
    }

    // All cycles pass through n0; each found is collapsed, until none is left.
    method KillCyclesAt(n0: nat) returns (end: Ending, n: nat, ghost cost: nat)
      requires Based() && Ranked(G(), rank, {n0}) && Live(G(), n0)
      modifies this`dagmapping, this`nodes, this`died, this`clock, this`rank
      ensures !end.Breaks?
      ensures end.Returns? ==> Inv() && Live(G(), n)
      ensures end.Returns? ==> NodesGrow(old(G()), G()) && Evolves(old(G()), G(), ClassVars(G(), n))
      ensures end.Returns? ==> forall v | v in old(dagmapping) && old(dagmapping)[v] == n0 ::
        v in dagmapping && dagmapping[v] == n
      ensures end.Returns? ==> G() == old(G()) || Classes(G()) < Classes(old(G()))
      ensures old(NoWayBack(G(), n0)) ==> end.Returns? && n == n0 && G() == old(G())
      ensures Kills(ord, old(G()), n0, Told(end, (G(), n)), cost)
    {
      hide Shaped, Sound, Retired, Evolves, Reaches;
      n, cost := n0, 0;
      ghost var g0, rounds := G(), 0;
      NothingChanged(g0);
      EvolvesMore(g0, g0, {}, ClassVars(g0, n));
      var collapsed := true;
      while collapsed
        invariant Based() && Ranked(G(), rank, {n}) && Live(G(), n)
        invariant NodesGrow(g0, G()) && Evolves(g0, G(), ClassVars(G(), n))
        invariant forall v | v in g0.dag && g0.dag[v] == n0 :: v in dagmapping && dagmapping[v] == n
        invariant G() == g0 || Classes(G()) < Classes(g0)
        invariant NoWayBack(g0, n0) ==> n == n0 && G() == g0
        invariant collapsed ==> Killing(ord, g0, n0, rounds, G(), n, cost)
        invariant !collapsed ==> NoWayBack(G(), n) && Kills(ord, g0, n0, Finished((G(), n)), cost)
        decreases Classes(G()), if collapsed then 1 else 0
      {
        ghost var g1, n1, path, c := G(), n, [], 0;
        end, n, collapsed, path, c := CollapseOne(n);
        if end.Hangs? {
          KillOver(ord, g0, n0, rounds, g1, n1, cost, Endless, c);
          cost := Max(cost, c) + rounds;
          return;
        }
        if collapsed {
          KillRound(ord, g0, n0, rounds, g1, n1, cost, path, c);
          cost, rounds := Max(cost, c), rounds + 1;
        } else {
          KillOver(ord, g0, n0, rounds, g1, n1, cost, Finished([]), c);
          cost := Max(cost, c) + rounds;
        }
        EvolvesStep(g0, g1, G(), n1, n);
        Twice(g0, g1, G());
      }
      end := Returns;
      rank := NoCycleLeft(G(), size, n, rank);
    }

    // The first cycle found at n, from the first superset that leads back.
    method FindCycle(n: nat) returns (end: Ending, way: seq<nat>, ghost t: nat, ghost cost: nat)
      requires Injective(ord) && Shaped(G(), size) && Live(G(), n)
      ensures !end.Breaks?
      ensures end.Hangs? ==> !NoWayBack(G(), n)
      ensures end.Returns? && way == [] ==> NoWayBack(G(), n)
      ensures end.Returns? && way != [] ==> !NoWayBack(G(), n) && BackPath(G(), t, n, way) && Edge(G(), n, t)
      ensures Cycles(ord, G(), n, 0, Told(end, way), cost)
    {
      hide Shaped, Reaches, Cycles, Cycling, Finds, FindPathF, NoneBefore, NoWayBack, BackPath, Injective, Edge, Next,
        From;
      cost := 0;
      LiveNode(G(), size, n);
      ghost var from: nat := 0;
      CycleStarts(ord, G(), n);
      NothingBefore(ord, G(), n);
      var next := NextIn(nodes[n].sups, 0);
      while next.Some?
        invariant next == Next(ord, Sups(G(), n), from)
        invariant NoneBefore(ord, G(), n, from)
        invariant Cycling(ord, G(), n, from, cost)
        decreases |From(ord, nodes[n].sups, from)|
      {
        var s := next.value;
        FewerFrom(ord, nodes[n].sups, from, s);
        SupersetAt(ord, G(), size, n, from, s);
        ghost var c;
        end, way, c := FindPath(s, n);
        CycleRound(ord, G(), n, from, s, Told(end, way), cost, c);
        cost := Max(cost, c);
        if end.Hangs? || way != [] {
          WayBack(G(), n, s);
          t := s;
          return;
        }
        NoneBeforeNext(ord, G(), n, from, s);
        from := ord(s) + 1;
        next := NextIn(nodes[n].sups, ord(s) + 1);
      }
      CycleOver(ord, G(), n, from, cost);
      NoneAtAll(ord, G(), n, from);
      end, way, t := Returns, [], 0;
    }

    method CollapseOne(n0: nat) returns (end: Ending, n: nat, collapsed: bool, ghost path: seq<nat>, ghost cost: nat)
      requires Based() && Ranked(G(), rank, {n0}) && Live(G(), n0)
      modifies this`dagmapping, this`nodes, this`died, this`clock
      ensures !end.Breaks?
      ensures end.Hangs? ==> !old(NoWayBack(G(), n0)) && Cycles(ord, old(G()), n0, 0, Endless, cost)
      ensures end.Returns? ==> Based() && Ranked(G(), rank, {n}) && Live(G(), n)
      ensures end.Returns? ==> NodesGrow(old(G()), G()) && Evolves(old(G()), G(), ClassVars(G(), n))
      ensures end.Returns? ==> forall v | v in old(dagmapping) && old(dagmapping)[v] == n0 ::
        v in dagmapping && dagmapping[v] == n
      ensures end.Returns? && collapsed ==> Classes(G()) < Classes(old(G())) && !old(NoWayBack(G(), n0))
      ensures end.Returns? && collapsed ==> path != [] && G() == MergePathF(old(G()), path) && n == path[|path| - 1]
      ensures end.Returns? && !collapsed ==> n == n0 && G() == old(G()) && NoWayBack(G(), n) && path == []
      ensures end.Returns? ==> Cycles(ord, old(G()), n0, 0, Finished(path), cost)
    {
      hide Shaped, Sound, Retired, Reaches, OnCycle, Evolves, Cycles, FindPathF, MergePathF, NoWayBack, NodesGrow,
        BackPath, Injective, Ranked;
      var way;
      ghost var t;
      n, collapsed := n0, false;
      end, way, t, cost := FindCycle(n0);
      path := way;
      if end.Returns? && way != [] {
        ghost var out := set x | x in way;
        AtLeastTwo(G(), t, n, way);
        LiveNode(G(), size, n);
        PathOnCycle(G(), owner, given, t, n, way, rank);
        n := MergePath(way, out);
        collapsed := true;
      } else if end.Returns? {
        NothingChanged(G());
        EvolvesMore(G(), G(), {}, ClassVars(G(), n));
      }
    }

    // -----------------------------------------------------------------------
    // Propagating
    // -----------------------------------------------------------------------

    ghost function Stage(n: nat): nat
      reads this
    {
      StageOf(G(), n)
    }

    ghost function Depth(n: nat): nat
      reads this
    {
      DepthOf(G(), rank, died, clock, n)
    }

    // A conditional constraint whose condition has come true, or a subset one.
    method Activate(from: nat, to: nat) returns (end: Ending, ghost cost: nat)
      requires Inv() && from in dagmapping && to in dagmapping
      requires forall s: Assignment {:trigger Solves(s, given)} :: Solves(s, given) ==> s(from) <= s(to)
      modifies this`dagmapping, this`nodes, this`died, this`clock, this`rank, this`missed
      ensures old(missed) ==> missed
      ensures end.Returns? ==> Inv() && Lasts(old(G()), G()) && Connected(G(), from, to) && Lower(old(G()), G())
      ensures end.Returns? && !missed ==> Settles(old(G()), G(), {})
      ensures old(Calm()) ==> !end.Breaks? && (end.Returns? ==> Calm())
      ensures old(Calm()) && level(from) < level(to) ==> end.Returns? && dagmapping == old(dagmapping)
      ensures Activates(size, ord, old(G()), from, to, Told(end, G()), cost)
      decreases Classes(G()), |Pending(G())|, 2, 0, 0
    {
      hide Shaped, Sound, Retired, Ranked, Evolves, Lasts, NodesGrow, Grows, Keeps, Settles, Closed, Connected,
        SameLinks, Levels, StrictLists, Activates, Kills, Propagates, Injective, NoWayBack;
      if dagmapping[from] == dagmapping[to] {
        LastsSelf(G());
        assert Together(G(), from, to);
        TogetherConnected(G(), from, to);
        ActivateNothing(size, ord, G(), from, to);
        return Returns, 0;
      }
      ghost var g0 := G();
      var a, b := dagmapping[from], dagmapping[to];
      EdgeBetween(g0, size, owner, given, from, to, rank, died, clock);
      ghost var calm := Calm();
      if calm {
        StrictAfterEdge(g0, a, b, level);
        if level(from) < level(to) {
          EdgeUpClosesNothing(g0, size, owner, given, level, from, to, rank);
          NoWay(WithEdge(g0, a, b), a);
        }
      }
      nodes := nodes[a := nodes[a].(sups := nodes[a].sups + {b})];
      nodes := nodes[b := nodes[b].(subs := nodes[b].subs + {a})];
      assert G() == WithEdge(g0, a, b);
      ghost var g1, c := G(), 0;
      var n;
      end, n, c := KillCyclesAt(a);
      if end.Hangs? {
        ActivateStops(size, ord, g0, from, to, end, c, G(), n);
        return end, c;
      }
      ghost var g2 := G();
      if calm {
        KilledStrict(ord, g1, a, g2, n, c, level);
      }
      assert dagmapping[from] == n;
      LiveNode(g2, size, n);
      end, cost := Propagate(dagmapping[from]);
      ActivateGoesOn(size, ord, g0, from, to, g2, n, Told(end, G()), c, cost);
      cost := Max(c, cost + 1);
      if end.Returns? {
        ActivateLasts(g0, g1, g2, G(), a, n, from, to, missed);
      }
    }

    // Everything that waits for the node's elements, then its elements to all sets
    // above. The node itself may be merged away on the way.
    method Propagate(node: nat) returns (end: Ending, ghost cost: nat)
      requires Inv() && node in nodes
      modifies this`dagmapping, this`nodes, this`died, this`clock, this`rank, this`missed
      ensures old(missed) ==> missed
      ensures end.Returns? ==> Inv() && Lasts(old(G()), G()) && Lower(old(G()), G())
      ensures end.Returns? && !missed ==> Settles(old(G()), G(), {}) && forall v | v in ClassVars(old(G()), node) ::
        Closed(G(), v)
      ensures end.Returns? && Stalled(old(G()), G()) ==> SameLinks(old(G()), G()) && SameTimes(old(When()))
      ensures old(Calm() && Live(G(), node)) ==> end.Returns? && Calm() && dagmapping == old(dagmapping)
      ensures Propagates(size, ord, old(G()), node, Told(end, G()), cost)
      decreases Classes(G()), |Pending(G())|, Stage(node), Depth(node), 5
    {
      hide Shaped, Sound, Retired, Ranked, Evolves, Lasts, SameLinks, Settles, Closed, Quiet, StageOf, DepthOf, Levels,
        StrictLists, Propagates, ActivatesAll, PushesUp, Injective;
      ghost var g0, c := G(), 0;
      end, c := ActivateAll(node);
      if !end.Returns? {
        PropagateStops(size, ord, g0, node, Told(end, G()), c);
        return end, c;
      }
      ghost var g1 := G();
      if Stalled(g0, g1) {
        SamePlace(g0, g1, rank, died, clock, node);
      }
      end, cost := PushUp(node);
      PropagateGoesOn(size, ord, g0, node, g1, Told(end, G()), c, cost);
      cost := Max(c, cost);
      if end.Returns? {
        LastsTwice(g0, g1, G());
        if !missed {
          PropagatedAll(g0, g1, G(), node);
        }
      }
    }

    method ActivateAll(node: nat) returns (end: Ending, ghost cost: nat)
      requires Inv() && node in nodes
      modifies this`dagmapping, this`nodes, this`died, this`clock, this`rank, this`missed
      ensures old(missed) ==> missed
      ensures end.Returns? ==> Inv() && node in nodes && Lasts(old(G()), G()) && Lower(old(G()), G())
      ensures end.Returns? && !missed ==> Settles(old(G()), G(), ClassVars(old(G()), node))
      ensures end.Returns? && !missed ==> forall v | v in ClassVars(old(G()), node) ::
        Closed(G(), v) || Quiet(G(), node, v)
      ensures end.Returns? && Stalled(old(G()), G()) ==> SameLinks(old(G()), G()) && SameTimes(old(When()))
      ensures old(Calm()) ==> end.Returns? && Calm() && dagmapping == old(dagmapping)
      ensures ActivatesAll(size, ord, old(G()), node, Told(end, G()), cost)
      decreases Classes(G()), |Pending(G())|, Stage(node), Depth(node), 2
    {
      hide Shaped, Sound, Retired, Ranked, Evolves, Lasts, NodesGrow, Grows, Keeps, Settles, Closed, Connected,
        SameLinks, Pending, StageOf, DepthOf, Levels, StrictLists, ActivatesAll, ActivatingAll, ActivatesList,
        Injective, PartlyDone, Quiet;
      ghost var g0, calm := G(), Calm();
      cost := 0;
      LastsSelf(g0);
      NothingDoneYet(g0, node);
      AllStarts(size, ord, g0, node);
      for i := 0 to size
        invariant Inv() && node in nodes
        invariant Lasts(g0, G()) && Lower(g0, G()) && (old(missed) ==> missed)
        invariant !missed ==> Settles(g0, G(), ClassVars(g0, node)) && PartlyDone(g0, G(), node, i)
        invariant Stalled(g0, G()) ==> SameLinks(g0, G()) && SameTimes(old(When()))
        invariant calm ==> Calm() && dagmapping == old(dagmapping)
        invariant ActivatingAll(size, ord, g0, node, G(), i, cost)
      {
        ghost var g, c := G(), 0;
        if Stalled(g0, g) {
          SamePlace(g0, g, rank, died, clock, node);
        }
        if i in nodes[node].bits {
          end, c := ActivateList(node, i);
          AllRound(size, ord, g0, node, g, i, cost, Told(end, G()), c);
          cost := Max(cost, c);
          if !end.Returns? {
            return;
          }
          LastsTwice(g0, g, G());
          if !missed {
            OneMoreSettled(g0, g, G(), node, i);
          }
        } else {
          AllSkip(size, ord, g0, node, g, i, cost);
          if !missed {
            NotSet(g0, g, node, i);
          }
        }
      }
      end := Returns;
      AllOver(size, ord, g0, node, G(), cost);
      if !missed {
        AllSettled(g0, G(), size, node);
      }
    }

    method TakeList(node: nat, i: nat) returns (constraints: seq<(nat, nat)>)
      requires Inv() && node in nodes && i < size && i in nodes[node].bits
      modifies this`nodes
      ensures Inv() && node in nodes
      ensures i < |old(nodes)[node].conds| && constraints == old(nodes)[node].conds[i]
      ensures G() == old(WithList(G(), node, i, []))
      ensures NodesGrow(old(G()), G()) && SameLinks(old(G()), G()) && Classes(G()) == Classes(old(G()))
      ensures if constraints == [] then |Pending(G())| == |Pending(old(G()))| else |Pending(G())| < |Pending(old(G()))|
      ensures forall p | p in constraints :: p.0 in dagmapping && p.1 in dagmapping
      ensures forall p, s: Assignment {:trigger p in constraints, Solves(s, given)} ::
        p in constraints && Solves(s, given) ==> s(p.0) <= s(p.1)
      ensures old(Calm()) ==> Calm() && forall p | p in constraints :: level(p.0) < level(p.1)
    {
      hide Shaped, Sound, Retired, Ranked, NodesGrow, SameLinks, Levels, StrictLists, Injective;
      HasLists(G(), size, node);
      constraints := nodes[node].conds[i];
      ListTaken(G(), size, owner, given, node, i, rank, died, clock);
      if Calm() {
        TakenStrict(G(), node, i, level);
      }
      nodes := nodes[node := nodes[node].(conds := nodes[node].conds[i := []])];
    }

    // The list of one element of the node: emptied first, then taken one by one.
    method ActivateList(node: nat, i: nat) returns (end: Ending, ghost cost: nat)
      requires Inv() && node in nodes && i < size && i in nodes[node].bits
      modifies this`dagmapping, this`nodes, this`died, this`clock, this`rank, this`missed
      ensures old(missed) ==> missed
      ensures end.Returns? ==> Inv() && node in nodes && Lasts(old(G()), G()) && Lower(old(G()), G())
      ensures end.Returns? && !missed ==> Settles(old(G()), G(), ClassVars(old(G()), node))
      ensures end.Returns? && !missed ==> forall v | v in ClassVars(old(G()), node) ::
        Closed(G(), v) || Unchanged(old(G()), G(), v, {i})
      ensures end.Returns? && Stalled(old(G()), G()) ==> SameLinks(old(G()), G()) && SameTimes(old(When()))
      ensures old(Calm()) ==> end.Returns? && Calm() && dagmapping == old(dagmapping)
      ensures ActivatesList(size, ord, old(G()), node, i, Told(end, G()), cost)
      decreases Classes(G()), |Pending(G())|, Stage(node), Depth(node), 1
    {
      hide Shaped, Sound, Retired, Ranked, Evolves, Lasts, NodesGrow, Grows, Keeps, Settles, Closed, Connected,
        SameLinks, Unchanged, Pending, WithList, StageOf, DepthOf, Levels, StrictLists, TakesPairs, ActivatesList,
        Injective;
      ghost var g0 := G();
      var constraints := TakeList(node, i);
      ghost var g1 := G();
      end, cost := ActivatePairs(constraints);
      ListOver(size, ord, g0, node, i, Told(end, G()), cost);
      if end.Returns? {
        ListLasts(g0, g1, G(), node, i, constraints, missed);
      }
    }

    method ActivatePairs(constraints: seq<(nat, nat)>) returns (end: Ending, ghost cost: nat)
      requires Inv() && forall p | p in constraints :: p.0 in dagmapping && p.1 in dagmapping
      requires forall p, s: Assignment {:trigger p in constraints, Solves(s, given)} ::
        p in constraints && Solves(s, given) ==> s(p.0) <= s(p.1)
      modifies this`dagmapping, this`nodes, this`died, this`clock, this`rank, this`missed
      ensures old(missed) ==> missed
      ensures end.Returns? ==> Inv() && Lasts(old(G()), G()) && Lower(old(G()), G())
      ensures end.Returns? && !missed ==> Settles(old(G()), G(), {})
      ensures end.Returns? ==> AllConnected(G(), constraints, |constraints|)
      ensures constraints == [] ==> end.Returns? && G() == old(G()) && SameTimes(old(When()))
      ensures old(Calm()) && (forall p | p in constraints :: level(p.0) < level(p.1)) ==>
        end.Returns? && Calm() && dagmapping == old(dagmapping)
      ensures TakesPairs(size, ord, old(G()), constraints, Told(end, G()), cost)
      decreases Classes(G()), |Pending(G())|, if constraints == [] then 0 else 2, 0, if constraints == [] then 0 else 1
    {
      hide Shaped, Sound, Retired, Ranked, Lasts, Settles, Connected, SameLinks, Pending, Levels, StrictLists,
        ActivatingPairs, Activates, TakesPairs, Injective, AllConnected, Classes, Evolves, NodesGrow, Grows, Keeps;
      ghost var g0, calm := G(), Calm() && forall p | p in constraints :: level(p.0) < level(p.1);
      cost := 0;
      LastsSelf(g0);
      NoneConnected(g0, constraints);
      PairsStart(size, ord, g0, constraints);
      for j := 0 to |constraints|
        invariant Inv() && Lasts(g0, G()) && Lower(g0, G()) && (old(missed) ==> missed)
        invariant !missed ==> Settles(g0, G(), {})
        invariant AllConnected(G(), constraints, j)
        invariant j == 0 ==> G() == g0 && SameTimes(old(When()))
        invariant calm ==> Calm() && dagmapping == old(dagmapping)
        invariant ActivatingPairs(size, ord, g0, constraints, G(), j, cost)
      {
        ghost var g, c := G(), 0;
        var p := constraints[j];
        assert p in constraints;
        StillThereLasts(g0, g, p);
        end, c := Activate(p.0, p.1);
        PairsRound(size, ord, g0, constraints, g, j, cost, Told(end, G()), c);
        cost := Max(cost, c);
        if !end.Returns? {
          return;
        }
        ConnectedStill(g, G(), constraints, j);
        LastsTwice(g0, g, G());
        if !missed {
          SettlesOn(g0, g, G());
        }
      }
      end := Returns;
      PairsOver(size, ord, g0, constraints, G(), cost);
    }

    // The node's elements go to the sets above it, one after the other in the order
    // of their positions, and on from there. What is called may change the set that
    // is being run over.
    method PushUp(node: nat) returns (end: Ending, ghost cost: nat)
      requires Inv() && node in nodes
      modifies this`dagmapping, this`nodes, this`died, this`clock, this`rank, this`missed
      ensures old(missed) ==> missed
      ensures end.Returns? ==> Inv() && Lasts(old(G()), G()) && Lower(old(G()), G())
      ensures end.Returns? && !missed ==> Settles(old(G()), G(), {})
      ensures end.Returns? && !missed ==> forall v {:trigger Quiet(old(G()), node, v)} :: Quiet(old(G()), node, v) ==>
        Closed(G(), v)
      ensures end.Returns? && Stalled(old(G()), G()) ==> SameLinks(old(G()), G()) && SameTimes(old(When()))
      ensures old(Calm() && Live(G(), node)) ==> end.Returns? && Calm() && dagmapping == old(dagmapping)
      ensures PushesUp(size, ord, old(G()), node, Told(end, G()), cost)
      decreases Classes(G()), |Pending(G())|, Stage(node), Depth(node), 4
    {
      hide Shaped, Sound, Retired, Ranked, Lasts, Settles, Closed, SameLinks, Pending, Quiet, StageOf, DepthOf, Levels,
        StrictLists, PushesUp, PushingUp, Injective, Fed, AllFed;
      ghost var g0, calm, want := G(), Calm() && Live(G(), node), nodes[node].bits;
      LastsSelf(g0);
      NothingFed(ord, g0, node, want);
      end, cost := PushAll(node, g0, want, calm);
      missed := missed || !AllFed(G(), node, want);
      if end.Returns? && !missed {
        PushedUp(g0, G(), size, node);
      }
    }

    method PushAll(node: nat, ghost g0: Graph, ghost want: set<nat>, ghost calm: bool)
        returns (end: Ending, ghost cost: nat)
      requires Inv() && G() == g0 && Pushed(g0, node, want) && (calm ==> Feeding(g0, node, 0, want))
      modifies this`dagmapping, this`nodes, this`died, this`clock, this`rank, this`missed
      ensures old(missed) ==> missed
      ensures end.Returns? ==> Inv() && Pushed(g0, node, want)
      ensures end.Returns? && Stalled(g0, G()) ==> SameTimes(old(When()))
      ensures calm ==> end.Returns? && Feeding(g0, node, 0, want) && AllFed(G(), node, want)
      ensures PushesUp(size, ord, g0, node, Told(end, G()), cost)
      decreases Classes(G()), |Pending(G())|, Stage(node), Depth(node), 3
    {
      hide Going, StageOf, DepthOf, Classes, Pending, Pushed, Feeding, Inv, AllFed, PushesUp, From, Next, Injective;
      ghost var was, missed0, from: nat := When(), missed, 0;
      cost, end := 0, Returns;
      LoopBegins(g0, node, want, calm);
      var next := NextIn(nodes[node].sups, 0);
      while end.Returns? && next.Some?
        invariant Going(g0, node, want, from, calm, was, missed0, end, next, cost)
        decreases if end.Returns? then 1 else 0, |From(ord, g0.nodes.Keys, from)|
      {
        GoingMeans(g0, node, want, from, calm, was, missed0, next, cost);
        ghost var at := from;
        from := ord(next.value) + 1;
        end, next, cost := PushNext(node, next.value, g0, want, at, calm, was, missed0, cost);
      }
      LoopEnds(g0, node, want, from, calm, was, missed0, end, next, cost);
    }

    lemma LoopBegins(g0: Graph, node: nat, want: set<nat>, calm: bool)
      requires Inv() && G() == g0 && Pushed(g0, node, want) && (calm ==> Feeding(g0, node, 0, want))
      ensures Injective(ord) && node in nodes
      ensures Going(g0, node, want, 0, calm, When(), missed, Returns, Next(ord, nodes[node].sups, 0), 0)
    {
      hide Shaped, Sound, Retired, Ranked, Lasts, Settles, PushesUp, PushingUp, Fed, Levels, StrictLists, Injective;
      PushStarts(size, ord, g0, node);
      SupsAre(g0, node);
    }

    lemma GoingMeans(g0: Graph, node: nat, want: set<nat>, from: nat, calm: bool, was: Times, missed0: bool,
        next: Option<nat>, cost: nat)
      requires Going(g0, node, want, from, calm, was, missed0, Returns, next, cost) && next.Some?
      ensures Lower(g0, G())
      ensures Stalled(g0, G()) ==>
        Stage(node) == StageOf(g0, node) && Depth(node) == DepthOf(g0, was.rank, was.died, was.clock, node)
      ensures |From(ord, g0.nodes.Keys, ord(next.value) + 1)| < |From(ord, g0.nodes.Keys, from)|
    {
      hide Shaped, Sound, Retired, Ranked, Lasts, Settles, PushesUp, PushingUp, Fed, Levels, StrictLists, StageOf,
        DepthOf;
      StandsOn(ord, G(), size, node, from, next.value);
      if Stalled(g0, G()) {
        SamePlace(g0, G(), was.rank, was.died, was.clock, node);
      }
    }

    lemma LoopEnds(g0: Graph, node: nat, want: set<nat>, from: nat, calm: bool, was: Times, missed0: bool, end: Ending,
        next: Option<nat>, cost: nat)
      requires Going(g0, node, want, from, calm, was, missed0, end, next, cost) && (end.Returns? ==> next.None?)
      ensures missed0 ==> missed
      ensures end.Returns? ==> Inv() && Pushed(g0, node, want) && (Stalled(g0, G()) ==> SameTimes(was))
      ensures calm ==> end.Returns? && Feeding(g0, node, 0, want) && AllFed(G(), node, want)
      ensures PushesUp(size, ord, g0, node, Told(end, G()), cost)
    {
      hide Shaped, Sound, Retired, Ranked, Lasts, Settles, PushesUp, PushingUp, Fed, AllFed, Levels, StrictLists;
      if end.Returns? {
        AllInTable(G(), size, node);
        PushOver(size, ord, g0, node, G(), from, cost);
        if calm {
          AllAreFed(ord, G(), node, from, want);
          NothingFed(ord, G(), node, want);
        }
      }
    }

    ghost function When(): Times
      reads this
    {
      Times(rank, died, clock)
    }

    ghost predicate SameTimes(was: Times)
      reads this
    {
      rank == was.rank && died == was.died && clock == was.clock
    }

    // The loop at node, about to look at its next superset; or how it was left.
    ghost predicate Going(g0: Graph, node: nat, want: set<nat>, from: nat, calm: bool, was: Times, missed0: bool,
        end: Ending, next: Option<nat>, cost: nat)
      reads this
    {
      && (missed0 ==> missed) && (calm ==> end.Returns?)
      && if end.Returns? then
           && Looping(g0, node, want, from, calm) && next == Next(ord, Sups(G(), node), from)
           && (Stalled(g0, G()) ==> SameTimes(was)) && PushingUp(size, ord, g0, node, G(), from, cost)
         else
           PushesUp(size, ord, g0, node, Told(end, G()), cost)
    }

    ghost predicate Looping(g0: Graph, node: nat, want: set<nat>, from: nat, calm: bool)
      reads this
    {
      Inv() && Pushed(g0, node, want) && (calm ==> Feeding(g0, node, from, want))
    }

    // What a loop at node has kept since it began at g0.
    ghost predicate Pushed(g0: Graph, node: nat, want: set<nat>)
      reads this
    {
      && node in nodes && nodes.Keys == g0.nodes.Keys && want <= nodes[node].bits
      && Lasts(g0, G()) && Lower(g0, G()) && (Stalled(g0, G()) ==> SameLinks(g0, G()))
      && (!missed ==> Settles(g0, G(), {}))
    }

    ghost predicate Feeding(g0: Graph, node: nat, from: nat, want: set<nat>)
      reads this
    {
      Calm() && dagmapping == g0.dag && Live(G(), node) && Fed(ord, G(), node, from, want)
    }

    // One superset, and on to the next.
    method PushNext(node: nat, s: nat, ghost g0: Graph, ghost want: set<nat>, ghost from: nat, ghost calm: bool,
        ghost was: Times, ghost missed0: bool, ghost cost0: nat)
      returns (end: Ending, next: Option<nat>, ghost cost: nat)
      requires Going(g0, node, want, from, calm, was, missed0, Returns, Some(s), cost0)
      modifies this`dagmapping, this`nodes, this`died, this`clock, this`rank, this`missed
      ensures Going(g0, node, want, ord(s) + 1, calm, was, missed0, end, next, cost)
      decreases Classes(G()), |Pending(G())|, Stage(node), Depth(node), 2
    {
      hide Inv, Feeding, PushesUp, PushingUp, StageOf, DepthOf, Classes, Pending, Next, Injective, Lasts, Settles,
        SameLinks;
      next := None;
      end, cost := PushOne(node, s, g0, want, from, cost0, calm);
      if end.Returns? {
        LoopingMeans(g0, node, want, ord(s) + 1, calm);
        next := NextIn(nodes[node].sups, ord(s) + 1);
      }
    }

    lemma LoopingMeans(g0: Graph, node: nat, want: set<nat>, from: nat, calm: bool)
      requires Looping(g0, node, want, from, calm)
      ensures Injective(ord) && node in nodes && Sups(G(), node) == nodes[node].sups
    {
    }

    // One round of the loop: it must find the element it stands on still there.
    method PushOne(node: nat, s: nat, ghost g0: Graph, ghost want: set<nat>, ghost from: nat, ghost cost0: nat,
        ghost calm: bool)
      returns (end: Ending, ghost cost: nat)
      requires Looping(g0, node, want, from, calm)
      requires Next(ord, Sups(G(), node), from) == Some(s) && PushingUp(size, ord, g0, node, G(), from, cost0)
      modifies this`dagmapping, this`nodes, this`died, this`clock, this`rank, this`missed
      ensures old(missed) ==> missed
      ensures end.Returns? ==> Looping(g0, node, want, ord(s) + 1, calm)
      ensures end.Returns? ==> Lower(old(G()), G()) && (Stalled(old(G()), G()) ==> SameTimes(old(When())))
      ensures calm ==> end.Returns?
      ensures if end.Returns? then PushingUp(size, ord, g0, node, G(), ord(s) + 1, cost)
              else PushesUp(size, ord, g0, node, Told(end, G()), cost)
      decreases Classes(G()), |Pending(G())|, Stage(node), Depth(node), 1
    {
      hide Shaped, Sound, Retired, Ranked, Lasts, NodesGrow, Settles, Closed, SameLinks, Pending, StageOf, DepthOf,
        Levels, StrictLists, PushesUp, PushingUp, Propagates, Injective, Fed, WithBits, Next, Classes;
      ghost var g, c := G(), 0;
      BelowNode(g, size, rank, died, clock, node, s);
      if calm {
        SupersetAt(ord, g, size, node, from, s);
      }
      AllInTable(g, size, node);
      end, c := PushTo(node, s);
      PushRound(size, ord, g0, node, g, from, cost0, s, Told(end, G()), c);
      cost := Max(cost0, c + 1);
      if !end.Returns? {
        return;
      }
      RoundKeeps(g0, g, node, s, want, from, calm);
      if s !in nodes[node].sups {
        end := Breaks;
      }
    }

    lemma RoundKeeps(g0: Graph, g: Graph, node: nat, s: nat, want: set<nat>, from: nat, calm: bool)
      requires Inv() && Shaped(g, size) && node in g.nodes && g.nodes.Keys == g0.nodes.Keys &&
        want <= g.nodes[node].bits
      requires Lasts(g0, g) && Lower(g0, g) && (Stalled(g0, g) ==> SameLinks(g0, g)) && (!missed ==> Settles(g0, g, {}))
      requires Lasts(g, G()) && Lower(g, G()) && (Stalled(g, G()) ==> SameLinks(g, G())) &&
        (!missed ==> Settles(g, G(), {}))
      requires s in nodes && g.nodes[node].bits <= nodes[s].bits && IsFirst(ord, Sups(g, node), from, s)
      requires calm ==>
        Calm() && g.dag == g0.dag && dagmapping == g.dag && Live(g, node) && Fed(ord, g, node, from, want)
      ensures Looping(g0, node, want, ord(s) + 1, calm) && (calm ==> s in nodes[node].sups)
    {
      hide Shaped, Sound, Retired, Ranked, Lasts, Settles, Closed, SameLinks, Injective, Fed, Levels, StrictLists;
      PushedSame(g0, g, G(), node);
      if calm {
        FedOn(ord, g, G(), size, node, from, s, want);
      }
      LastsTwice(g0, g, G());
      if !missed {
        SettlesOn(g0, g, G());
      }
    }

    method PushTo(node: nat, s: nat) returns (end: Ending, ghost cost: nat)
      requires Inv() && node in nodes && s in nodes[node].sups && s in nodes
      modifies this`dagmapping, this`nodes, this`died, this`clock, this`rank, this`missed
      ensures old(missed) ==> missed
      ensures end.Returns? ==> Inv() && Lasts(old(G()), G()) && Lower(old(G()), G())
      ensures end.Returns? ==> s in nodes && old(nodes)[node].bits <= nodes[s].bits
      ensures end.Returns? && !missed ==> Settles(old(G()), G(), {})
      ensures end.Returns? && Stalled(old(G()), G()) ==> SameLinks(old(G()), G()) && SameTimes(old(When()))
      ensures old(Calm() && Live(G(), s)) ==> end.Returns? && Calm() && dagmapping == old(dagmapping)
      ensures Propagates(size, ord, old(WithBits(G(), s, nodes[node].bits)), s, Told(end, G()), cost)
      decreases Classes(G()), |Pending(G())|, Stage(s), Depth(s), 6
    {
      hide Shaped, Sound, Retired, Ranked, Evolves, Lasts, Grows, Keeps, Settles, Closed, Connected, SameLinks, Levels,
        StrictLists, Propagates, Injective;
      ghost var g := G();
      BitsPushed(g, size, owner, given, node, s, rank, died, clock);
      if Calm() {
        StrictAfterBits(g, s, nodes[node].bits, level);
      }
      nodes := nodes[s := nodes[s].(bits := nodes[s].bits + nodes[node].bits)];
      ghost var g1 := G();
      assert g1 == WithBits(g, s, g.nodes[node].bits);
      end, cost := Propagate(s);
      if end.Returns? {
        PushedLasts(g, g1, G(), node, s, missed);
      }
    }

    // -----------------------------------------------------------------------
    // Constraints
    // -----------------------------------------------------------------------

    constructor (size: nat, ord: Positions, ghost level: nat -> nat)
      requires Injective(ord)
      ensures Valid() && given == [] && !missed
      ensures this.size == size && this.ord == ord && this.level == level && Now() == NOTHING
    {
      this.size, this.ord, this.level, dagmapping, nodes, nextNode := size, ord, level, map[], map[], 0;
      given, owner, died, clock, missed := [], map[], map[], 0, false;
      rank := (n: nat) => 0;
    }

    ghost function Now(): State
      reads this
    {
      State(G(), nextNode)
    }

    // A variable not seen before gets a node of its own.
    method AddEmptyVariableIfNecessary(v: nat)
      requires Valid()
      modifies this`dagmapping, this`nodes, this`nextNode, this`owner
      ensures Valid() && Now() == WithVar(size, old(Now()), v) && dagmapping.Keys == old(dagmapping.Keys) + {v}
      ensures old(Calm()) ==> Calm()
    {
      hide Sound, Retired, Ranked, AllRecorded, AllClosed, NodeShaped, Injective, Levels, StrictLists;
      if v in dagmapping {
        return;
      }
      ghost var g := G();
      var n := nextNode;
      FreshNode(g, size, owner, given, v, n, rank, died, clock);
      if Calm() {
        StrictAfterVariable(g, size, v, n, level);
      }
      dagmapping := dagmapping[v := n];
      nodes := nodes[n := Node({}, {}, {}, seq(size, i requires 0 <= i < size => []))];
      owner := owner[n := v];
      nextNode := nextNode + 1;
      assert G() == WithVariable(g, size, v, n);
    }

    method AddElementofConstraint(e: nat, v: nat) returns (end: Ending, ghost cost: nat)
      requires Valid() && e < size
      modifies this
      ensures given == old(given) + [ElementOf(e, v)] && (old(missed) ==> missed)
      ensures end.Returns? ==> Valid()
      ensures old(Calm()) ==> end.Returns? && Calm()
      ensures Adds(size, ord, old(Now()), ElementOf(e, v), Told(end, Now()), cost)
    {
      hide Valid, Calm, Propagates;
      ghost var s := Now();
      AddEmptyVariableIfNecessary(v);
      end, cost := RecordElement(e, v);
      ElementAdds(size, ord, s, e, v, end, G(), cost);
    }

    method RecordElement(e: nat, v: nat) returns (end: Ending, ghost cost: nat)
      requires Valid() && e < size && v in dagmapping
      modifies this
      ensures given == old(given) + [ElementOf(e, v)] && nextNode == old(nextNode) && (old(missed) ==> missed)
      ensures end.Returns? ==> Valid()
      ensures old(Calm()) ==> end.Returns? && Calm()
      ensures old(dagmapping[v]) in old(nodes)
      ensures Propagates(size, ord, old(WithBits(G(), dagmapping[v], {e})), old(dagmapping[v]), Told(end, G()), cost)
    {
      hide Shaped, Sound, Retired, Ranked, Evolves, AllRecorded, AllClosed, NodesGrow, Closed, Grows, Keeps, Connected,
        Waiting, Satisfies, Injective, Levels, StrictLists, Lasts, Settles, Propagates;
      ghost var g := G();
      var n := dagmapping[v];
      ElementAdded(g, size, owner, given, e, v, rank, died, clock);
      if Calm() {
        LevelsMore(given, ElementOf(e, v), level, size);
        StrictAfterBits(g, n, {e}, level);
      }
      given := given + [ElementOf(e, v)];
      nodes := nodes[n := nodes[n].(bits := nodes[n].bits + {e})];
      ghost var g1 := G();
      assert g1 == WithBits(g, n, {e});
      end, cost := Propagate(n);
      if end.Returns? {
        Settled(g, g1, G(), ClassVars(g, n), given, missed);
      }
    }

    method AddConditionalConstraint(e: nat, inside: nat, from: nat, to: nat) returns (end: Ending, ghost cost: nat)
      requires Valid() && e < size
      modifies this
      ensures given == old(given) + [Conditional(e, inside, from, to)] && (old(missed) ==> missed)
      ensures end.Returns? ==> Valid()
      ensures old(Calm()) && level(from) < level(to) ==> end.Returns? && Calm()
      ensures Adds(size, ord, old(Now()), Conditional(e, inside, from, to), Told(end, Now()), cost)
    {
      hide Valid, Calm, Propagates;
      ghost var s := Now();
      AddEmptyVariableIfNecessary(inside);
      AddEmptyVariableIfNecessary(from);
      AddEmptyVariableIfNecessary(to);
      end, cost := RecordCondition(e, inside, from, to);
      ConditionAdds(size, ord, s, e, inside, from, to, end, G(), cost);
    }

    method RecordCondition(e: nat, inside: nat, from: nat, to: nat) returns (end: Ending, ghost cost: nat)
      requires Valid() && e < size && inside in dagmapping && from in dagmapping && to in dagmapping
      modifies this
      ensures given == old(given) + [Conditional(e, inside, from, to)] && nextNode == old(nextNode) &&
        (old(missed) ==> missed)
      ensures end.Returns? ==> Valid()
      ensures old(Calm()) && level(from) < level(to) ==> end.Returns? && Calm()
      ensures Conditions(size, ord, old(G()), e, inside, from, to, Told(end, G()), cost)
    {
      hide Shaped, Sound, Retired, Ranked, Evolves, AllRecorded, AllClosed, NodesGrow, Closed, Grows, Keeps, Connected,
        Waiting, Satisfies, Injective, Levels, StrictLists, Lasts, Settles, Propagates;
      ghost var g := G();
      var n := dagmapping[inside];
      VariableNode(g, size, inside);
      HasLists(g, size, n);
      var list := nodes[n].conds[e] + [(from, to)];
      ConditionAdded(g, size, owner, given, e, inside, from, to, rank, died, clock);
      if Calm() && level(from) < level(to) {
        LevelsMore(given, Conditional(e, inside, from, to), level, size);
        StrictAfterCondition(g, n, e, from, to, level);
      }
      given := given + [Conditional(e, inside, from, to)];
      nodes := nodes[n := nodes[n].(conds := nodes[n].conds[e := list])];
      ghost var g1 := G();
      assert g1 == WithList(g, n, e, list);
      end, cost := Propagate(n);
      if end.Returns? {
        Settled(g, g1, G(), ClassVars(g, n), given, missed);
      }
    }

    method AddSubseteqConstraint(from: nat, to: nat) returns (end: Ending, ghost cost: nat)
      requires Valid()
      modifies this
      ensures given == old(given) + [Subset(from, to)] && (old(missed) ==> missed)
      ensures end.Returns? ==> Valid()
      ensures old(Calm()) && level(from) <= level(to) ==> !end.Breaks? && (end.Returns? ==> Calm())
      ensures old(Calm()) && level(from) < level(to) ==> end.Returns?
      ensures Adds(size, ord, old(Now()), Subset(from, to), Told(end, Now()), cost)
    {
      hide Valid, Calm, Activates;
      ghost var s := Now();
      AddEmptyVariableIfNecessary(from);
      AddEmptyVariableIfNecessary(to);
      end, cost := RecordSubset(from, to);
      SubsetAdds(size, ord, s, from, to, end, G(), cost);
    }

    method RecordSubset(from: nat, to: nat) returns (end: Ending, ghost cost: nat)
      requires Valid() && from in dagmapping && to in dagmapping
      modifies this
      ensures given == old(given) + [Subset(from, to)] && nextNode == old(nextNode) && (old(missed) ==> missed)
      ensures end.Returns? ==> Valid()
      ensures old(Calm()) && level(from) <= level(to) ==> !end.Breaks? && (end.Returns? ==> Calm())
      ensures old(Calm()) && level(from) < level(to) ==> end.Returns?
      ensures Activates(size, ord, old(G()), from, to, Told(end, G()), cost)
    {
      hide Shaped, Sound, Retired, Ranked, Evolves, AllRecorded, AllClosed, NodesGrow, Closed, Solves, Satisfies,
        Injective, Levels, StrictLists, Lasts, Settles, Activates;
      ghost var g, given0 := G(), given;
      MoreGiven(g, owner, given, Subset(from, to));
      if Calm() && level(from) <= level(to) {
        LevelsMore(given, Subset(from, to), level, size);
      }
      given := given + [Subset(from, to)];
      SubsetGiven(given, from, to);
      end, cost := Activate(from, to);
      if end.Returns? {
        EdgeSettled(g, G(), given0, from, to, missed);
      }
    }

    // The sets at hand, as an assignment.
    ghost function Elements(): Assignment
      reads this
    {
      ElementsOf(G())
    }

    // Part of every solution of the constraints so far; and itself their least
    // solution at v exactly when nothing is left, as it is unless a loop missed
    // something.
    method GetElements(v: nat) returns (out: set<nat>)
      requires Valid()
      ensures out == Elements()(v)
      ensures forall s: Assignment :: Solves(s, given) ==> out <= s(v)
      ensures Solves(Elements(), given) <==> NothingLeft(G())
      ensures !missed ==> Solves(Elements(), given)
    {
      hide Sound, Retired, Ranked, AllRecorded, AllClosed, NodeShaped, Satisfies, Solves;
      NothingTooMuch(G(), owner, given);
      SolvedExactly(G(), owner, given);
      if !missed {
        LeastSolution(G(), owner, given);
      }
      out := {};
      if v in dagmapping {
        out := BitsAt(dagmapping[v]);
      }
    }

    method BitsAt(n: nat) returns (out: set<nat>)
      requires Shaped(G(), size) && n in nodes
      ensures out == nodes[n].bits
    {
      assert NodeShaped(G(), size, n);
      out := {};
      for i := 0 to size
        invariant out == set b | b in nodes[n].bits && b < i
      {
        if i in nodes[n].bits {
          out := out + {i};
        }
      }
    }
  }
}
