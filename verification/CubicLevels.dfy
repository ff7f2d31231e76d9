/** Constraints among levels: when variables can be given levels such that subset
    constraints never lead down and conditional ones always lead up, no conditional
    constraint ever closes a cycle, and then no node is merged while a loop runs. */
module CubicLevels {
  import opened Optional
  import opened Cubic
  import opened CubicGraph
  import opened CubicSteps
  import opened CubicRun
  import opened CubicLoops
  import opened CubicProgress
  import opened CubicRefine

  // What a caller can check of the constraints before giving them.
  predicate Levels(given: seq<Constraint>, level: nat -> nat, size: nat) {
    forall i {:trigger given[i]} | 0 <= i < |given| ::
      match given[i]
      case ElementOf(e, _) => e < size
      case Subset(from, to) => level(from) <= level(to)
      case Conditional(_, _, from, to) => level(from) < level(to)
  }

  // Everything waiting leads up.
  ghost predicate StrictLists(g: Graph, level: nat -> nat) {
    forall n, c, p {:trigger p in g.nodes[n].conds[c]} ::
      n in g.nodes && 0 <= c < |g.nodes[n].conds| && p in g.nodes[n].conds[c] ==> level(p.0) < level(p.1)
  }

  function UpTo(n: nat): (r: set<nat>)
    ensures forall x: nat :: x in r <==> x <= n
  {
    if n == 0 then {0} else UpTo(n - 1) + {n}
  }

  // The higher the level, the larger the set.
  ghost function Heights(level: nat -> nat, size: nat): Assignment {
    (v: nat) => UpTo(size + level(v))
  }

  lemma HigherIsLarger(level: nat -> nat, size: nat, u: nat, v: nat)
    ensures Heights(level, size)(u) <= Heights(level, size)(v) <==> level(u) <= level(v)
  {
    hide UpTo;
    var low, high := UpTo(size + level(u)), UpTo(size + level(v));
    assert Heights(level, size)(u) == low && Heights(level, size)(v) == high;
    assert size + level(u) in low;
  }

  lemma HeightsSolve(given: seq<Constraint>, level: nat -> nat, size: nat)
    requires Levels(given, level, size)
    ensures Solves(Heights(level, size), given)
  {
    hide Heights;
    forall i | 0 <= i < |given|
      ensures Satisfies(Heights(level, size), given[i])
    {
      match given[i]
      case ElementOf(e, v) => ElementsAreLow(level, size, e, v);
      case Subset(from, to) => HigherIsLarger(level, size, from, to);
      case Conditional(e, inside, from, to) => HigherIsLarger(level, size, from, to);
    }
  }

  lemma ElementsAreLow(level: nat -> nat, size: nat, e: nat, v: nat)
    requires e < size
    ensures e in Heights(level, size)(v)
  {
    assert Heights(level, size)(v) == UpTo(size + level(v));
  }

  // The level of the variable that a node stands for.
  ghost function Height(owner: map<nat, nat>, level: nat -> nat, n: nat): nat {
    if n in owner then level(owner[n]) else 0
  }

  lemma NodeHeights(g: Graph, owner: map<nat, nat>, given: seq<Constraint>, level: nat -> nat, size: nat)
    requires Sound(g, owner, given) && Levels(given, level, size)
    ensures forall v {:trigger g.dag[v]} :: v in g.dag ==> Height(owner, level, g.dag[v]) == level(v)
    ensures forall n, m {:trigger Edge(g, n, m)} :: Edge(g, n, m) ==> Height(owner, level, n) <= Height(owner, level, m)
  {
    var s := Heights(level, size);
    HeightsSolve(given, level, size);
    assert SoundFor(g, owner, s);
    forall v | v in g.dag
      ensures Height(owner, level, g.dag[v]) == level(v)
    {
      HigherIsLarger(level, size, v, owner[g.dag[v]]);
      HigherIsLarger(level, size, owner[g.dag[v]], v);
    }
    forall n, m | Edge(g, n, m)
      ensures Height(owner, level, n) <= Height(owner, level, m)
    {
      assert NodeSound(g.nodes[n], s(owner[n]), owner, s);
      HigherIsLarger(level, size, owner[n], owner[m]);
    }
  }

  // A walk in g1 that comes to a never takes the edge up from a to b, the only one
  // that g did not have.
  lemma {:induction false} WalkStaysLevel(g: Graph, g1: Graph, a: nat, b: nat, high: nat -> nat, rank: nat -> nat,
      x: nat, path: seq<nat>)
    requires Walk(g1, x, a, path)
    requires forall n, m {:trigger Edge(g1, n, m)} :: Edge(g1, n, m) ==> high(n) <= high(m)
    requires high(a) < high(b)
    requires forall n, m {:trigger Edge(g1, n, m)} :: Edge(g1, n, m) && !(n == a && m == b) ==> rank(m) < rank(n)
    ensures high(x) <= high(a) && (high(x) == high(a) ==> rank(a) <= rank(x))
    decreases |path|
  {
    if path != [] {
      WalkStaysLevel(g, g1, a, b, high, rank, path[0], path[1..]);
    }
  }

  // An edge up closes no cycle.
  lemma EdgeUpClosesNothing(g: Graph, size: nat, owner: map<nat, nat>, given: seq<Constraint>, level: nat -> nat,
      u: nat, v: nat, rank: nat -> nat)
    requires Shaped(g, size) && Ranked(g, rank, {}) && Levels(given, level, size)
    requires u in g.dag && v in g.dag && g.dag[u] != g.dag[v] && g.dag[u] in g.nodes && g.dag[v] in g.nodes
    requires Sound(WithEdge(g, g.dag[u], g.dag[v]), owner, given)
    requires level(u) < level(v)
    ensures var g1 := WithEdge(g, g.dag[u], g.dag[v]);
      forall t | Edge(g1, g.dag[u], t) :: !Reaches(g1, t, g.dag[u])
  {
    hide Sound, Shaped, Levels;
    var a, b := g.dag[u], g.dag[v];
    var g1 := WithEdge(g, a, b);
    var high: nat -> nat := (n: nat) => Height(owner, level, n);
    NodeHeights(g1, owner, given, level, size);
    assert high(g1.dag[u]) == level(u) && high(g1.dag[v]) == level(v);
    OldEdgesRanked(g, a, b, rank);
    forall t | Edge(g1, a, t) && Reaches(g1, t, a)
      ensures false
    {
      var path :| Walk(g1, t, a, path);
      WalkStaysLevel(g, g1, a, b, high, rank, t, path);
    }
  }

  lemma OldEdgesRanked(g: Graph, a: nat, b: nat, rank: nat -> nat)
    requires a in g.nodes && b in g.nodes && a != b && Ranked(g, rank, {})
    ensures var g1 := WithEdge(g, a, b);
      forall n, m {:trigger Edge(g1, n, m)} :: Edge(g1, n, m) && !(n == a && m == b) ==> rank(m) < rank(n)
  {
    var g1 := WithEdge(g, a, b);
    forall n, m | Edge(g1, n, m) && !(n == a && m == b)
      ensures rank(m) < rank(n)
    {
      assert Edge(g, n, m);
    }
  }

  // -------------------------------------------------------------------------
  // Lists stay strict
  // -------------------------------------------------------------------------

  lemma StrictAfterMerge(g: Graph, n1: nat, n2: nat, level: nat -> nat)
    requires CanMergeF(g, n1, n2) && StrictLists(g, level)
    ensures StrictLists(Merged(g, n1, n2), level)
  {
    hide Redirected, MergedNodes;
    var g' := Merged(g, n1, n2);
    forall n, c, p | n in g'.nodes && 0 <= c < |g'.nodes[n].conds| && p in g'.nodes[n].conds[c]
      ensures level(p.0) < level(p.1)
    {
      assert p in g.nodes[n].conds[c] || p in g.nodes[n2].conds[c];
    }
  }

  lemma {:induction false} StrictAfterPath(g: Graph, path: seq<nat>, level: nat -> nat)
    requires StrictLists(g, level)
    ensures StrictLists(MergePathF(g, path), level)
    decreases |path|
  {
    hide StrictLists, Merged, Redirected, MergedNodes;
    if |path| > 1 {
      var a, b := path[|path| - 1], path[|path| - 2];
      if CanMergeF(g, a, b) {
        StrictAfterMerge(g, a, b, level);
      }
      StrictAfterPath(if CanMergeF(g, a, b) then Merged(g, a, b) else g, path[..|path| - 2] + [a], level);
    }
  }

  lemma {:induction false} StrictAfterKill(ord: Positions, g: Graph, n: nat, level: nat -> nat, k: nat)
    requires StrictLists(g, level)
    ensures var r := KillCyclesF(ord, g, n, k); r.Finished? ==> StrictLists(r.value.0, level)
    decreases k
  {
    hide StrictLists, CycleF, MergePathF;
    var path := CycleF(ord, g, n, 0, k);
    if path.Finished? && path.value != [] && k > 0 {
      StrictAfterPath(g, path.value, level);
      StrictAfterKill(ord, MergePathF(g, path.value), path.value[|path.value| - 1], level, k - 1);
    }
  }

  lemma KilledStrict(ord: Positions, g: Graph, a: nat, g': Graph, n: nat, cost: nat, level: nat -> nat)
    requires StrictLists(g, level) && Kills(ord, g, a, Finished((g', n)), cost)
    ensures StrictLists(g', level)
  {
    hide StrictLists, KillCyclesF;
    StrictAfterKill(ord, g, a, level, cost);
    assert KillCyclesF(ord, g, a, cost) == Finished((g', n));
  }

  lemma TakenStrict(g: Graph, n: nat, i: nat, level: nat -> nat)
    requires StrictLists(g, level) && n in g.nodes && i < |g.nodes[n].conds|
    ensures StrictLists(WithList(g, n, i, []), level)
    ensures forall p | p in g.nodes[n].conds[i] :: level(p.0) < level(p.1)
  {
    StrictAfterList(g, n, i, [], level);
  }

  lemma StrictAfterList(g: Graph, n: nat, i: nat, list: seq<(nat, nat)>, level: nat -> nat)
    requires StrictLists(g, level) && n in g.nodes && i < |g.nodes[n].conds|
    requires forall p | p in list :: level(p.0) < level(p.1)
    ensures StrictLists(WithList(g, n, i, list), level)
  {
  }

  lemma StrictAfterCondition(g: Graph, n: nat, e: nat, from: nat, to: nat, level: nat -> nat)
    requires StrictLists(g, level) && n in g.nodes && e < |g.nodes[n].conds| && level(from) < level(to)
    ensures StrictLists(WithList(g, n, e, g.nodes[n].conds[e] + [(from, to)]), level)
  {
    StrictAfterList(g, n, e, g.nodes[n].conds[e] + [(from, to)], level);
  }

  lemma LevelsMore(given: seq<Constraint>, c: Constraint, level: nat -> nat, size: nat)
    requires Levels(given, level, size) && Levels([c], level, size)
    ensures Levels(given + [c], level, size)
  {
    assert [c][0] == c;
  }

  lemma StrictAfterBits(g: Graph, n: nat, bits: set<nat>, level: nat -> nat)
    requires StrictLists(g, level) && n in g.nodes
    ensures StrictLists(WithBits(g, n, bits), level)
  {
  }

  lemma StrictAfterEdge(g: Graph, a: nat, b: nat, level: nat -> nat)
    requires StrictLists(g, level) && a in g.nodes && b in g.nodes && a != b
    ensures StrictLists(WithEdge(g, a, b), level)
  {
    var g1 := WithEdge(g, a, b);
    forall n, c, p | n in g1.nodes && 0 <= c < |g1.nodes[n].conds| && p in g1.nodes[n].conds[c]
      ensures level(p.0) < level(p.1)
    {
      assert g1.nodes[n].conds == g.nodes[n].conds;
    }
  }

  lemma StrictAfterVariable(g: Graph, size: nat, v: nat, n: nat, level: nat -> nat)
    requires StrictLists(g, level) && n !in g.nodes
    ensures StrictLists(WithVariable(g, size, v, n), level)
  {
    var g1 := WithVariable(g, size, v, n);
    forall x, c, p | x in g1.nodes && 0 <= c < |g1.nodes[x].conds| && p in g1.nodes[x].conds[c]
      ensures level(p.0) < level(p.1)
    {
      assert x != n;
      assert p in g.nodes[x].conds[c];
    }
  }

  // -------------------------------------------------------------------------
  // The loop over supersets when no node is merged
  // -------------------------------------------------------------------------

  // Everything before the position holds the elements.
  ghost predicate Fed(ord: Positions, g: Graph, node: nat, from: nat, want: set<nat>) {
    forall m {:trigger m in Sups(g, node)} :: m in Sups(g, node) && ord(m) < from ==>
      m in g.nodes && want <= g.nodes[m].bits
  }

  lemma NothingFed(ord: Positions, g: Graph, node: nat, want: set<nat>)
    ensures Fed(ord, g, node, 0, want)
  {
  }

  lemma AllAreFed(ord: Positions, g: Graph, node: nat, from: nat, want: set<nat>)
    requires node in g.nodes && Fed(ord, g, node, from, want) && Next(ord, Sups(g, node), from) == None
    ensures AllFed(g, node, want)
  {
    BeforeEnd(ord, Sups(g, node), from);
  }

  // The element the loop stands on is still there, and what has slipped in behind
  // it was given the elements by the call that put it there.
  lemma FedOn(ord: Positions, g: Graph, g': Graph, size: nat, node: nat, from: nat, s: nat, want: set<nat>)
    requires Injective(ord) && Shaped(g, size) && Shaped(g', size) && g'.dag == g.dag
    requires Live(g, node) && node in g.nodes && want <= g.nodes[node].bits && Fed(ord, g, node, from, want)
    requires IsFirst(ord, Sups(g, node), from, s) && NodesGrow(g, g') && s in g'.nodes && want <= g'.nodes[s].bits
    requires Grows(g, g') && Settles(g, g', {})
    ensures s in Sups(g', node) && Fed(ord, g', node, ord(s) + 1, want)
  {
    var v :| v in g.dag && g.dag[v] == node;
    StillAbove(g, g', size, node, s, v);
    forall m | m in Sups(g', node) && ord(m) < ord(s) + 1
      ensures m in g'.nodes && want <= g'.nodes[m].bits
    {
      assert NodeShaped(g', size, node);
      if m in Sups(g, node) {
        if ord(m) >= from {
          assert m in From(ord, Sups(g, node), from);
          assert m == s;
        } else {
          assert g.nodes[m].bits <= g'.nodes[m].bits;
        }
      } else {
        NewIsFed(g, g', size, node, m, v, want);
      }
    }
  }

  lemma StillAbove(g: Graph, g': Graph, size: nat, node: nat, s: nat, v: nat)
    requires Shaped(g, size) && g'.dag == g.dag && Grows(g, g') && v in g.dag && g.dag[v] == node && node in g.nodes
    requires s in Sups(g, node)
    ensures s in Sups(g', node)
  {
    assert Live(g, node) && LinksLive(g, node) by {
      assert NodeShaped(g, size, node);
    }
    var w :| w in g.dag && g.dag[w] == s;
    assert Connected(g, v, w);
    assert Connected(g', v, w);
  }

  lemma NewIsFed(g: Graph, g': Graph, size: nat, node: nat, m: nat, v: nat, want: set<nat>)
    requires Shaped(g, size) && Shaped(g', size) && g'.dag == g.dag && NodesGrow(g, g')
    requires v in g.dag && g.dag[v] == node && node in g.nodes && want <= g.nodes[node].bits
    requires Settles(g, g', {}) && m in Sups(g', node) && m !in Sups(g, node)
    ensures m in g'.nodes && want <= g'.nodes[m].bits
  {
    assert Live(g', node) && LinksLive(g', node) by {
      assert NodeShaped(g', size, node);
    }
    var w :| w in g'.dag && g'.dag[w] == m;
    assert Connected(g', v, w);
    assert Closed(g', v);
    assert Bits(g', v) <= Bits(g', w);
    assert g.nodes[node].bits <= g'.nodes[node].bits;
  }
}
