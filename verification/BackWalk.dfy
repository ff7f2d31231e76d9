/** The walk back along a path, which looks at one predecessor a round: when it
    arrives, and when it goes round for ever. */
module BackWalk {
  import opened Optional
  import opened Cubic
  import opened CubicRun

  // The first predecessor known is one nearer to the source.
  ghost predicate FirstKnownIsNearer(ord: Positions, g: Graph, dist: map<nat, nat>, curr: nat) {
    var n := FirstKnown(ord, g, dist, curr);
    n.Some? && curr in dist && dist[n.value] + 1 == dist[curr]
  }

  // From target, first known predecessor after first known predecessor, not past
  // the source.
  ghost predicate Chain(ord: Positions, g: Graph, dist: map<nat, nat>, source: nat, target: nat, path: seq<nat>) {
    && path != [] && path[0] == target
    && forall i, j {:trigger path[i], path[j]} | 0 <= i && j == i + 1 < |path| ::
         path[i] != source && FirstKnown(ord, g, dist, path[i]) == Some(path[j])
  }

  // Where the loop stands after k rounds, had it not stopped at the source.
  ghost function Rounds(ord: Positions, g: Graph, dist: map<nat, nat>, curr: nat, k: nat): nat
    decreases k
  {
    if k == 0 then curr else Rounds(ord, g, dist, BackStep(ord, g, dist, curr), k - 1)
  }

  ghost predicate Arrives(ord: Positions, g: Graph, dist: map<nat, nat>, source: nat, target: nat) {
    exists k: nat :: Rounds(ord, g, dist, target, k) == source
  }

  ghost predicate AlwaysNearer(ord: Positions, g: Graph, dist: map<nat, nat>, source: nat, target: nat) {
    forall path :: Chain(ord, g, dist, source, target, path) && path[|path| - 1] != source ==>
      FirstKnownIsNearer(ord, g, dist, path[|path| - 1])
  }

  lemma {:induction false} WalkedIsNearer(ord: Positions, g: Graph, dist: map<nat, nat>, source: nat, target: nat,
      path: seq<nat>)
    requires target in dist && WalkF(ord, g, dist, source, target).Some?
    requires Chain(ord, g, dist, source, target, path) && path[|path| - 1] != source
    ensures FirstKnownIsNearer(ord, g, dist, path[|path| - 1])
    decreases |path|
  {
    if |path| > 1 {
      var next, rest := path[1], path[1..];
      assert path[0] != source && BackStep(ord, g, dist, target) == next;
      forall i, j | 0 <= i && j == i + 1 < |rest|
        ensures rest[i] != source && FirstKnown(ord, g, dist, rest[i]) == Some(rest[j])
      {
        assert rest[i] == path[i + 1] && rest[j] == path[j + 1];
      }
      WalkedIsNearer(ord, g, dist, source, next, rest);
    }
  }

  lemma Prepended(ord: Positions, g: Graph, dist: map<nat, nat>, source: nat, target: nat, next: nat, path: seq<nat>)
    requires Chain(ord, g, dist, source, next, path) && target != source && FirstKnown(ord, g, dist, target)
      == Some(next)
    ensures Chain(ord, g, dist, source, target, [target] + path)
  {
    hide FirstKnown;
    var longer := [target] + path;
    forall i, j {:trigger longer[i], longer[j]} | 0 <= i && j == i + 1 < |longer|
      ensures longer[i] != source && FirstKnown(ord, g, dist, longer[i]) == Some(longer[j])
    {
      if i > 0 {
        assert longer[i] == path[i - 1] && longer[j] == path[j - 1];
      }
    }
  }

  lemma {:induction false} NearerIsWalked(ord: Positions, g: Graph, dist: map<nat, nat>, source: nat, target: nat)
    requires target in dist && AlwaysNearer(ord, g, dist, source, target)
    ensures WalkF(ord, g, dist, source, target).Some?
    decreases dist[target]
  {
    if target != source {
      assert Chain(ord, g, dist, source, target, [target]);
      var next := FirstKnown(ord, g, dist, target).value;
      forall path | Chain(ord, g, dist, source, next, path) && path[|path| - 1] != source
        ensures FirstKnownIsNearer(ord, g, dist, path[|path| - 1])
      {
        Prepended(ord, g, dist, source, target, next, path);
      }
      NearerIsWalked(ord, g, dist, source, next);
    }
  }

  // A walk that does not arrive stands still, for ever, short of the source.
  lemma {:induction false} Standstill(ord: Positions, g: Graph, dist: map<nat, nat>, curr: nat, k: nat)
    requires BackStep(ord, g, dist, curr) == curr
    ensures Rounds(ord, g, dist, curr, k) == curr
    decreases k
  {
    if k > 0 {
      Standstill(ord, g, dist, curr, k - 1);
    }
  }

  lemma {:induction false} WalkedArrives(ord: Positions, g: Graph, dist: map<nat, nat>, source: nat, curr: nat)
    requires curr in dist
    ensures WalkF(ord, g, dist, source, curr).Some? <==> Arrives(ord, g, dist, source, curr)
    decreases dist[curr]
  {
    var n := BackStep(ord, g, dist, curr);
    if curr == source {
      assert Rounds(ord, g, dist, curr, 0) == source;
    } else if n == curr {
      forall k: nat
        ensures Rounds(ord, g, dist, curr, k) != source
      {
        Standstill(ord, g, dist, curr, k);
      }
    } else {
      WalkedArrives(ord, g, dist, source, n);
      if Arrives(ord, g, dist, source, n) {
        var k: nat :| Rounds(ord, g, dist, n, k) == source;
        assert Rounds(ord, g, dist, curr, k + 1) == source;
      }
      if Arrives(ord, g, dist, source, curr) {
        var k: nat :| Rounds(ord, g, dist, curr, k) == source;
        var j := k - 1;
        assert Rounds(ord, g, dist, n, j) == source;
      }
    }
  }

  // The walk as a whole: after some number of rounds it stands at the source, if
  // and only if at every node on the chain of first known predecessors that one is
  // nearer. Only then does the loop end.
  lemma {:induction false} WalkArrivesExactly(ord: Positions, g: Graph, dist: map<nat, nat>, source: nat, target: nat)
    requires target in dist
    ensures Arrives(ord, g, dist, source, target) <==> AlwaysNearer(ord, g, dist, source, target)
    ensures WalkF(ord, g, dist, source, target).Some? <==> Arrives(ord, g, dist, source, target)
  {
    WalkedArrives(ord, g, dist, source, target);
    if WalkF(ord, g, dist, source, target).Some? {
      forall path | Chain(ord, g, dist, source, target, path) && path[|path| - 1] != source
        ensures FirstKnownIsNearer(ord, g, dist, path[|path| - 1])
      {
        WalkedIsNearer(ord, g, dist, source, target, path);
      }
    }
    if AlwaysNearer(ord, g, dist, source, target) {
      NearerIsWalked(ord, g, dist, source, target);
    }
  }
}
