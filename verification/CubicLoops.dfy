/** The loop over a node's supersets, as written: what it visits while the calls it
    makes change the set it runs over. */
module CubicLoops {
  import opened Optional
  import opened Cubic
  import opened CubicGraph
  import opened CubicSteps
  import opened CubicProgress
  import opened CubicRun

  ghost predicate Injective(ord: Positions) {
    forall x, y {:trigger ord(x), ord(y)} :: ord(x) == ord(y) ==> x == y
  }

  lemma NextIs(ord: Positions, xs: set<nat>, from: nat, x: nat)
    requires Injective(ord) && IsFirst(ord, xs, from, x)
    ensures Next(ord, xs, from) == Some(x)
  {
    var r := Next(ord, xs, from);
    assert x in From(ord, xs, from);
    assert ord(r.value) == ord(x);
  }

  lemma NextNone(ord: Positions, xs: set<nat>, from: nat)
    requires forall x | x in xs :: ord(x) < from
    ensures Next(ord, xs, from) == None
  {
    assert From(ord, xs, from) == {};
  }

  // -------------------------------------------------------------------------
  // No run takes elements away
  // -------------------------------------------------------------------------

  lemma {:induction false} MergePathGrows(g: Graph, path: seq<nat>)
    ensures NodesGrow(g, MergePathF(g, path))
    decreases |path|
  {
    hide Redirected, MergedNodes;
    if |path| > 1 {
      var a, b := path[|path| - 1], path[|path| - 2];
      var g1 := if CanMergeF(g, a, b) then Merged(g, a, b) else g;
      assert NodesGrow(g, g1);
      MergePathGrows(g1, path[..|path| - 2] + [a]);
      Twice(g, g1, MergePathF(g1, path[..|path| - 2] + [a]));
    }
  }

  lemma {:induction false} KillCyclesGrows(ord: Positions, g: Graph, n: nat, k: nat)
    ensures var r := KillCyclesF(ord, g, n, k); r.Finished? ==> NodesGrow(g, r.value.0)
    decreases k
  {
    hide NodesGrow, CycleF, MergePathF;
    SameGrows(g);
    var path := CycleF(ord, g, n, 0, k);
    if path.Finished? && path.value != [] && k > 0 {
      var g1 := MergePathF(g, path.value);
      MergePathGrows(g, path.value);
      KillCyclesGrows(ord, g1, path.value[|path.value| - 1], k - 1);
      var r := KillCyclesF(ord, g1, path.value[|path.value| - 1], k - 1);
      if r.Finished? {
        Twice(g, g1, r.value.0);
      }
    }
  }

  lemma {:induction false} PropagateGrows(size: nat, ord: Positions, g: Graph, node: nat, k: nat)
    ensures var r := PropagateF(size, ord, g, node, k); r.Finished? ==> NodesGrow(g, r.value)
    decreases k, 5
  {
    ActivateAllGrows(size, ord, g, node, 0, k);
    var r := ActivateAllF(size, ord, g, node, 0, k);
    if r.Finished? {
      PushUpGrows(size, ord, r.value, node, 0, k);
      var r' := PushUpF(size, ord, r.value, node, 0, k);
      if r'.Finished? {
        Twice(g, r.value, r'.value);
      }
    }
  }

  lemma {:induction false} ActivateAllGrows(size: nat, ord: Positions, g: Graph, node: nat, i: nat, k: nat)
    requires i <= size
    ensures var r := ActivateAllF(size, ord, g, node, i, k); r.Finished? ==> NodesGrow(g, r.value)
    decreases k, 4, size - i
  {
    if i < size {
      var set_ := node in g.nodes && i in g.nodes[node].bits;
      if set_ {
        ActivateListGrows(size, ord, g, node, i, k);
      }
      var r := if set_ then ActivateListF(size, ord, g, node, i, k) else Finished(g);
      if r.Finished? {
        ActivateAllGrows(size, ord, r.value, node, i + 1, k);
        var r' := ActivateAllF(size, ord, r.value, node, i + 1, k);
        if r'.Finished? {
          Twice(g, r.value, r'.value);
        }
      }
    }
  }

  lemma {:induction false} ActivateListGrows(size: nat, ord: Positions, g: Graph, node: nat, i: nat, k: nat)
    requires node in g.nodes
    ensures var r := ActivateListF(size, ord, g, node, i, k); r.Finished? ==> NodesGrow(g, r.value)
    decreases k, 3
  {
    if i < |g.nodes[node].conds| {
      var g1 := WithList(g, node, i, []);
      assert NodesGrow(g, g1);
      ActivatePairsGrows(size, ord, g1, g.nodes[node].conds[i], k);
      var r := ActivatePairsF(size, ord, g1, g.nodes[node].conds[i], k);
      if r.Finished? {
        Twice(g, g1, r.value);
      }
    }
  }

  lemma {:induction false} ActivatePairsGrows(size: nat, ord: Positions, g: Graph, pairs: seq<(nat, nat)>, k: nat)
    ensures var r := ActivatePairsF(size, ord, g, pairs, k); r.Finished? ==> NodesGrow(g, r.value)
    decreases k, 2, |pairs|
  {
    if pairs != [] {
      ActivateGrows(size, ord, g, pairs[0].0, pairs[0].1, k);
      var r := ActivateF(size, ord, g, pairs[0].0, pairs[0].1, k);
      if r.Finished? {
        ActivatePairsGrows(size, ord, r.value, pairs[1..], k);
        var r' := ActivatePairsF(size, ord, r.value, pairs[1..], k);
        if r'.Finished? {
          Twice(g, r.value, r'.value);
        }
      }
    }
  }

  lemma SameGrows(g: Graph)
    ensures NodesGrow(g, g)
  {
  }

  lemma EdgeGrows(g: Graph, a: nat, b: nat)
    requires a in g.nodes && b in g.nodes && a != b
    ensures NodesGrow(g, WithEdge(g, a, b))
  {
  }

  lemma {:induction false} ActivateGrows(size: nat, ord: Positions, g: Graph, from: nat, to: nat, k: nat)
    ensures var r := ActivateF(size, ord, g, from, to, k); r.Finished? ==> NodesGrow(g, r.value)
    decreases k, 1
  {
    hide NodesGrow, KillCyclesF, PropagateF;
    SameGrows(g);
    if from in g.dag && to in g.dag && g.dag[from] != g.dag[to] && g.dag[from] in g.nodes && g.dag[to] in g.nodes {
      var g1 := WithEdge(g, g.dag[from], g.dag[to]);
      EdgeGrows(g, g.dag[from], g.dag[to]);
      KillCyclesGrows(ord, g1, g.dag[from], k);
      var r := KillCyclesF(ord, g1, g.dag[from], k);
      if r.Finished? && k > 0 {
        var g2 := r.value.0;
        Twice(g, g1, g2);
        PropagateGrows(size, ord, g2, g2.dag[from], k - 1);
        var r' := PropagateF(size, ord, g2, g2.dag[from], k - 1);
        if r'.Finished? {
          Twice(g, g2, r'.value);
        }
      }
    }
  }

  lemma {:induction false} PushUpGrows(size: nat, ord: Positions, g: Graph, node: nat, from: nat, k: nat)
    ensures var r := PushUpF(size, ord, g, node, from, k); r.Finished? ==> NodesGrow(g, r.value)
    decreases k, 4, |From(ord, g.nodes.Keys, from)|
  {
    hide PropagateF, PushUpF, NodesGrow;
    var s := Next(ord, Sups(g, node) * g.nodes.Keys, from);
    if s.Some? && k == 0 {
      PushUpRound(size, ord, g, node, from, k);
    } else if s.None? {
      NothingPushedUp(size, ord, g, node, from, k);
    } else {
      PushUpRound(size, ord, g, node, from, k);
      FewerFrom(ord, g.nodes.Keys, from, s.value);
      PushedGrows(size, ord, g, node, s.value, k - 1);
      var r := PropagateF(size, ord, WithBits(g, s.value, g.nodes[node].bits), s.value, k - 1);
      if r.Finished? && s.value in Sups(r.value, node) {
        PushUpGrows(size, ord, r.value, node, ord(s.value) + 1, k);
        var r' := PushUpF(size, ord, r.value, node, ord(s.value) + 1, k);
        if r'.Finished? {
          Twice(g, r.value, r'.value);
        }
      }
    }
  }

  lemma {:induction false} NothingPushedUp(size: nat, ord: Positions, g: Graph, node: nat, from: nat, k: nat)
    requires Next(ord, Sups(g, node) * g.nodes.Keys, from).None?
    ensures PushUpF(size, ord, g, node, from, k) == Finished(g) && NodesGrow(g, g)
  {
    hide PropagateF;
  }

  lemma {:induction false} PushedGrows(size: nat, ord: Positions, g: Graph, node: nat, s: nat, k: nat)
    requires node in g.nodes && s in g.nodes
    ensures var r := PropagateF(size, ord, WithBits(g, s, g.nodes[node].bits), s, k);
      r.Finished? ==> NodesGrow(g, r.value) && g.nodes[node].bits <= r.value.nodes[s].bits
    decreases k, 6
  {
    var g1 := WithBits(g, s, g.nodes[node].bits);
    assert NodesGrow(g, g1);
    PropagateGrows(size, ord, g1, s, k);
    var r := PropagateF(size, ord, g1, s, k);
    if r.Finished? {
      Twice(g, g1, r.value);
      assert g1.nodes[s].bits <= r.value.nodes[s].bits;
    }
  }

  // -------------------------------------------------------------------------
  // What the loop visits
  // -------------------------------------------------------------------------

  // Some call made by the loop returns with the element the loop stands on erased.
  ghost predicate Erased(size: nat, ord: Positions, g: Graph, node: nat, from: nat, k: nat)
    decreases |From(ord, g.nodes.Keys, from)|
  {
    var s := Next(ord, Sups(g, node) * g.nodes.Keys, from);
    if s.None? || k == 0 then false
    else
      var r := PropagateF(size, ord, WithBits(g, s.value, g.nodes[node].bits), s.value, k - 1);
      if !r.Finished? then false
      else if s.value !in Sups(r.value, node) then true
      else
        FewerFrom(ord, g.nodes.Keys, from, s.value);
        assert r.value.nodes.Keys == g.nodes.Keys;
        Erased(size, ord, r.value, node, ord(s.value) + 1, k)
  }

  // Every call made by the loop comes back.
  ghost predicate CallsReturn(size: nat, ord: Positions, g: Graph, node: nat, from: nat, k: nat)
    decreases |From(ord, g.nodes.Keys, from)|
  {
    var s := Next(ord, Sups(g, node) * g.nodes.Keys, from);
    if s.None? then true
    else if k == 0 then false
    else
      var r := PropagateF(size, ord, WithBits(g, s.value, g.nodes[node].bits), s.value, k - 1);
      if !r.Finished? then false
      else if s.value !in Sups(r.value, node) then true
      else
        FewerFrom(ord, g.nodes.Keys, from, s.value);
        assert r.value.nodes.Keys == g.nodes.Keys;
        CallsReturn(size, ord, r.value, node, ord(s.value) + 1, k)
  }

  // What calls made by the loop put into the set at or before the position it has
  // come to.
  ghost function Slipped(size: nat, ord: Positions, g: Graph, node: nat, from: nat, k: nat): set<nat>
    decreases |From(ord, g.nodes.Keys, from)|
  {
    var s := Next(ord, Sups(g, node) * g.nodes.Keys, from);
    if s.None? || k == 0 then {}
    else
      var r := PropagateF(size, ord, WithBits(g, s.value, g.nodes[node].bits), s.value, k - 1);
      if !r.Finished? || s.value !in Sups(r.value, node) then {}
      else
        FewerFrom(ord, g.nodes.Keys, from, s.value);
        assert r.value.nodes.Keys == g.nodes.Keys;
        (set m | m in Sups(r.value, node) - Sups(g, node) && ord(m) <= ord(s.value))
        + Slipped(size, ord, r.value, node, ord(s.value) + 1, k)
  }

  ghost predicate Holds(g: Graph, m: nat, want: set<nat>) {
    m in g.nodes ==> want <= g.nodes[m].bits
  }

  // Before the position everything holds the elements, or has slipped in.
  ghost predicate Behind(ord: Positions, g: Graph, node: nat, from: nat, want: set<nat>, slipped: set<nat>) {
    forall m {:trigger m in Sups(g, node)} :: m in Sups(g, node) && ord(m) < from ==> Holds(g, m, want) || m in slipped
  }

  // One round of the loop.
  lemma {:induction false} PushUpRound(size: nat, ord: Positions, g: Graph, node: nat, from: nat, k: nat)
    requires node in g.nodes
    ensures var s := Next(ord, Sups(g, node) * g.nodes.Keys, from);
      if s.None? then PushUpF(size, ord, g, node, from, k) == Finished(g)
      else if k == 0 then PushUpF(size, ord, g, node, from, k).Spent?
      else
        var r := PropagateF(size, ord, WithBits(g, s.value, g.nodes[node].bits), s.value, k - 1);
        if !r.Finished? then PushUpF(size, ord, g, node, from, k) == r
        else if s.value !in Sups(r.value, node) then PushUpF(size, ord, g, node, from, k).Undefined?
        else
          PushUpF(size, ord, g, node, from, k) == PushUpF(size, ord, r.value, node, ord(s.value) + 1, k)
  {
    hide PropagateF;
  }

  lemma {:induction false} SlippedRound(size: nat, ord: Positions, g: Graph, node: nat, from: nat, k: nat)
    requires node in g.nodes
    ensures var s := Next(ord, Sups(g, node) * g.nodes.Keys, from);
      s.Some? && k > 0 ==>
      var r := PropagateF(size, ord, WithBits(g, s.value, g.nodes[node].bits), s.value, k - 1);
      r.Finished? && s.value in Sups(r.value, node) ==>
        Slipped(size, ord, g, node, from, k)
        == (set m | m in Sups(r.value, node) - Sups(g, node) && ord(m) <= ord(s.value))
           + Slipped(size, ord, r.value, node, ord(s.value) + 1, k)
  {
    hide PropagateF;
  }

  lemma {:induction false} VisitedOrSlipped(size: nat, ord: Positions, g: Graph, node: nat, from: nat, k: nat,
      want: set<nat>, slipped: set<nat>)
    requires Injective(ord) && node in g.nodes && want <= g.nodes[node].bits
    requires Behind(ord, g, node, from, want, slipped)
    ensures var r := PushUpF(size, ord, g, node, from, k);
      r.Finished? ==> forall m | m in Sups(r.value, node) ::
        Holds(r.value, m, want) || m in slipped + Slipped(size, ord, g, node, from, k)
    decreases |From(ord, g.nodes.Keys, from)|
  {
    hide Behind, Injective, Holds, NodesGrow, PushUpF, PropagateF, Slipped;
    PushUpRound(size, ord, g, node, from, k);
    SlippedRound(size, ord, g, node, from, k);
    var sups := Sups(g, node) * g.nodes.Keys;
    var s := Next(ord, sups, from);
    if s.None? {
      NothingAhead(ord, g, node, from, want, slipped);
    } else if k > 0 {
      FewerFrom(ord, g.nodes.Keys, from, s.value);
      PushedGrows(size, ord, g, node, s.value, k - 1);
      var r := PropagateF(size, ord, WithBits(g, s.value, g.nodes[node].bits), s.value, k - 1);
      if r.Finished? && s.value in Sups(r.value, node) {
        MoreBits(g, r.value, node, want);
        var here := set m | m in Sups(r.value, node) - Sups(g, node) && ord(m) <= ord(s.value);
        var now := slipped + here;
        assert r.value.nodes.Keys == g.nodes.Keys;
        StillBehind(ord, g, r.value, node, from, s.value, want, slipped, now);
        VisitedOrSlipped(size, ord, r.value, node, ord(s.value) + 1, k, want, now);
      }
    }
  }

  lemma MoreBits(g: Graph, g': Graph, n: nat, want: set<nat>)
    requires NodesGrow(g, g') && n in g.nodes && want <= g.nodes[n].bits
    ensures n in g'.nodes && want <= g'.nodes[n].bits
  {
    assert g.nodes[n].bits <= g'.nodes[n].bits;
  }

  lemma NothingAhead(ord: Positions, g: Graph, node: nat, from: nat, want: set<nat>, slipped: set<nat>)
    requires Behind(ord, g, node, from, want, slipped)
    requires Next(ord, Sups(g, node) * g.nodes.Keys, from).None?
    ensures forall m | m in Sups(g, node) :: Holds(g, m, want) || m in slipped
  {
    forall m | m in Sups(g, node)
      ensures Holds(g, m, want) || m in slipped
    {
      assert m !in From(ord, Sups(g, node) * g.nodes.Keys, from);
    }
  }

  lemma StillBehind(ord: Positions, g: Graph, g': Graph, node: nat, from: nat, s: nat, want: set<nat>,
      slipped: set<nat>, now: set<nat>)
    requires Injective(ord) && node in g.nodes && Behind(ord, g, node, from, want, slipped)
    requires IsFirst(ord, Sups(g, node) * g.nodes.Keys, from, s)
    requires NodesGrow(g, g') && s in g'.nodes && want <= g'.nodes[s].bits
    requires now == slipped + set m | m in Sups(g', node) - Sups(g, node) && ord(m) <= ord(s)
    ensures Behind(ord, g', node, ord(s) + 1, want, now)
  {
    forall m | m in Sups(g', node) && ord(m) < ord(s) + 1
      ensures Holds(g', m, want) || m in now
    {
      if m in Sups(g, node) && m in g.nodes {
        if ord(m) >= from {
          assert m in Sups(g, node) * g.nodes.Keys;
          assert m == s;
        } else {
          assert g.nodes[m].bits <= g'.nodes[m].bits;
        }
      }
    }
  }

  // When the loop over the supersets does what it is for. Provided that the calls
  // it makes return, it is well defined if and only if none of them erases the
  // element the loop stands on; and then every superset at its end holds the
  // elements the node had if and only if each that was put in at or before the
  // position it had come to does.
  lemma {:induction false} LoopExactly(size: nat, ord: Positions, g: Graph, node: nat, k: nat)
    requires Injective(ord) && node in g.nodes
    requires CallsReturn(size, ord, g, node, 0, k)
    ensures var r, want := PushUpF(size, ord, g, node, 0, k), g.nodes[node].bits;
      && (if Erased(size, ord, g, node, 0, k) then r.Undefined? else r.Finished?)
      && (r.Finished? ==>
            ((forall m | m in Sups(r.value, node) :: Holds(r.value, m, want)) <==>
             (forall m | m in Sups(r.value, node) * Slipped(size, ord, g, node, 0, k) :: Holds(r.value, m, want))))
  {
    DefinedExactly(size, ord, g, node, 0, k);
    var none: set<nat> := {};
    VisitedOrSlipped(size, ord, g, node, 0, k, g.nodes[node].bits, none);
    assert none + Slipped(size, ord, g, node, 0, k) == Slipped(size, ord, g, node, 0, k);
  }

  lemma {:induction false} DefinedExactly(size: nat, ord: Positions, g: Graph, node: nat, from: nat, k: nat)
    requires CallsReturn(size, ord, g, node, from, k)
    ensures var r := PushUpF(size, ord, g, node, from, k);
      if Erased(size, ord, g, node, from, k) then r.Undefined? else r.Finished?
    decreases |From(ord, g.nodes.Keys, from)|
  {
    hide PropagateF, PushUpF, Next;
    var s := Next(ord, Sups(g, node) * g.nodes.Keys, from);
    if s.None? {
      NothingPushedUp(size, ord, g, node, from, k);
    } else {
      FewerFrom(ord, g.nodes.Keys, from, s.value);
      PushUpRound(size, ord, g, node, from, k);
      var r := PropagateF(size, ord, WithBits(g, s.value, g.nodes[node].bits), s.value, k - 1);
      if s.value in Sups(r.value, node) {
        assert r.value.nodes.Keys == g.nodes.Keys;
        DefinedExactly(size, ord, r.value, node, ord(s.value) + 1, k);
      }
    }
  }
}
