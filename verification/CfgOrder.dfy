/** What the validator looks for, for a graph under construction: names and ids that
    are new, shapes, edges that lead somewhere, and every block reached, from the entry
    of a statement to its continuation. */
module CfgOrder {
  import opened ControlFlow
  import opened CfgMeaning
  import opened CfgTables

  // -------------------------------------------------------------------------
  // Bodies the validator is meant for: no return but the last statement, and no
  // two arms of a case with one label
  // -------------------------------------------------------------------------

  predicate Tidy(s: Stmt)
    decreases s
  {
    match s
    case Simple(_) => true
    case Return(_) => false
    case If(_, thn, els) => Tidy(thn) && (els.Else? ==> Tidy(els.stmt))
    case While(_, body) => Tidy(body)
    case Case(_, arms) =>
      && (forall i, j | 0 <= i < j < |arms| :: arms[i].tag != arms[j].tag)
      && (forall i | 0 <= i < |arms| :: Tidy(arms[i].body))
    case Nested(ss) => forall i | 0 <= i < |ss| :: Tidy(ss[i])
  }

  predicate TidyOrReturn(s: Stmt) {
    s.Return? || Tidy(s)
  }

  predicate TidyBody(ss: seq<Stmt>) {
    forall i | 0 <= i < KeptCount(ss) :: TidyOrReturn(ss[i])
  }

  predicate EndsInReturn(ss: seq<Stmt>) {
    0 < KeptCount(ss) && ss[KeptCount(ss) - 1].Return?
  }

  // -------------------------------------------------------------------------
  // Blocks in order
  // -------------------------------------------------------------------------

  // Shapes, terminator by terminator.
  predicate Shaped(d: Draft) {
    match d.terminator
    case Branches(_) => |d.successors| == 2 && d.successors[0].kind == TrueBranch && d.successors[1].kind == FalseBranch
    case Loops(_) => |d.successors| == 2 && d.successors[0].kind == TrueBranch && d.successors[1].kind == FalseBranch
    case Cases(_) => d.successors != [] && forall i | 0 <= i < |d.successors| :: d.successors[i].kind.CaseArm?
    case Returns(_) => |d.successors| == 1 && d.successors[0] == Edge(UnresolvedExit, ReturnToExit)
    case FallsThrough => |d.successors| == 1 && d.successors[0].kind == Fallthrough
  }

  predicate NoRepeats<T(==)>(xs: seq<T>) {
    forall i, j | 0 <= i < j < |xs| :: xs[i] != xs[j]
  }

  // A target is a block, or one promised for later.
  predicate Leads(g: Table, open: set<Target>, t: Target) {
    t in open || (t.To? && t.id in g)
  }

  ghost predicate BlockInOrder(g: Table, open: set<Target>, d: Draft) {
    && Shaped(d) && NoRepeats(d.successors)
    && forall e {:trigger Leads(g, open, e.target)} :: e in d.successors && e.kind != ReturnToExit ==>
      Leads(g, open, e.target)
  }

  ghost predicate InOrder(g: Table, open: set<Target>) {
    forall c {:trigger c in g} :: c in g ==> BlockInOrder(g, open, g[c])
  }

  ghost predicate Reaches(g: Table, b: Target, c: nat) {
    exists steps :: Path(g, b, steps, c)
  }

  // Every block g has beyond g0 is reached from b.
  ghost predicate AllReached(g0: Table, g: Table, b: Target) {
    forall c {:trigger c in g} :: c in g && c !in g0 ==> Reaches(g, b, c)
  }

  // Building goes on in order: b is where the new part starts.
  ghost predicate Extends(g0: Table, g: Table, open: set<Target>, b: Target) {
    Holds(g0, g) && InOrder(g, open) && Leads(g, open, b) && AllReached(g0, g, b)
  }

  ghost predicate Ready(g: Table, open: set<Target>, k: Target) {
    InOrder(g, open) && Leads(g, open, k)
  }

  ghost predicate ReadyBefore(g: Table, ss: seq<Stmt>, open: set<Target>, k: Target) {
    InOrder(g, open) && (Leads(g, open, k) || EndsInReturn(ss))
  }

  // A sequence built down to i; a final return is still to come at the very start.
  ghost predicate SoFarInOrder(g0: Table, g: Table, ss: seq<Stmt>, i: nat, open: set<Target>, b: Target) {
    (i == KeptCount(ss) && EndsInReturn(ss)) || Extends(g0, g, open, b)
  }

  // The statements from i on are built; before the first, nothing has changed.
  ghost predicate SequenceBuilt(g0: Table, g: Table, ss: seq<Stmt>, i: nat, b: Target, k: Target, open: set<Target>)
    requires i <= |ss|
  {
    && (if i < KeptCount(ss) then BuiltSequence(g, ss[i..], b, k, UnresolvedExit) else b == k && g == g0)
    && (TidyBody(ss) && ReadyBefore(g0, ss, open, k) ==> SoFarInOrder(g0, g, ss, i, open, b))
  }

  ghost predicate NewBlock(g: Table, g': Table, b: Target) {
    b.To? && b.id !in g && Holds(g, g') && g'.Keys == g.Keys + {b.id}
  }

  lemma LeadsOn(g: Table, g': Table, open: set<Target>, k: Target)
    requires Leads(g, open, k) && Holds(g, g')
    ensures Leads(g', open, k)
  {
  }

  lemma InOrderMore(g: Table, open: set<Target>, b: Target)
    requires InOrder(g, open)
    ensures InOrder(g, open + {b})
  {
    forall c | c in g
      ensures BlockInOrder(g, open + {b}, g[c])
    {
      forall e | e in g[c].successors && e.kind != ReturnToExit
        ensures Leads(g, open + {b}, e.target)
      {
        assert Leads(g, open, e.target);
      }
    }
  }

  // -------------------------------------------------------------------------
  // Reaching
  // -------------------------------------------------------------------------

  lemma {:induction false} PathHolds(g: Table, g': Table, b: Target, steps: seq<nat>, c: nat)
    requires Path(g, b, steps, c) && Holds(g, g')
    ensures Path(g', b, steps, c)
    decreases |steps|
  {
    if steps != [] {
      PathHolds(g, g', g[b.id].successors[steps[0]].target, steps[1..], c);
    }
  }

  lemma {:induction false} PathOn(g: Table, b: Target, steps: seq<nat>, m: nat, more: seq<nat>, c: nat)
    requires Path(g, b, steps, m) && Path(g, To(m), more, c)
    ensures Path(g, b, steps + more, c)
    decreases |steps|
  {
    if steps == [] {
      assert steps + more == more;
    } else {
      PathOn(g, g[b.id].successors[steps[0]].target, steps[1..], m, more, c);
      assert (steps + more)[1..] == steps[1..] + more;
    }
  }

  lemma ReachesHolds(g: Table, g': Table, b: Target, c: nat)
    requires Reaches(g, b, c) && Holds(g, g')
    ensures Reaches(g', b, c)
  {
    var steps :| Path(g, b, steps, c);
    PathHolds(g, g', b, steps, c);
  }

  lemma ReachesOn(g: Table, b: Target, m: Target, c: nat)
    requires m.To? ==> Reaches(g, b, m.id)
    requires Reaches(g, m, c)
    ensures Reaches(g, b, c)
  {
    var more :| Path(g, m, more, c);
    var steps :| Path(g, b, steps, m.id);
    PathOn(g, b, steps, m.id, more, c);
  }

  lemma ReachesVia(g: Table, b: Target, i: nat, c: nat)
    requires b.To? && b.id in g && i < |g[b.id].successors| && Reaches(g, g[b.id].successors[i].target, c)
    ensures Reaches(g, b, c)
  {
    var steps :| Path(g, g[b.id].successors[i].target, steps, c);
    assert ([i] + steps)[1..] == steps;
    assert Path(g, b, [i] + steps, c);
  }

  // What was reached from a successor of b is reached from b.
  lemma AllVia(g0: Table, g1: Table, g: Table, b: Target, i: nat)
    requires b.To? && b.id in g && i < |g[b.id].successors|
    requires AllReached(g0, g1, g[b.id].successors[i].target) && Holds(g1, g)
    ensures forall c {:trigger c in g1} :: c in g1 && c !in g0 ==> Reaches(g, b, c)
  {
    forall c | c in g1 && c !in g0
      ensures Reaches(g, b, c)
    {
      ReachesHolds(g1, g, g[b.id].successors[i].target, c);
      ReachesVia(g, b, i, c);
    }
  }

  lemma ReachesSelf(g: Table, c: nat)
    ensures Reaches(g, To(c), c)
  {
    assert Path(g, To(c), [], c);
  }

  // A statement without returns can be run through: the first arm, no iteration.
  lemma {:induction false} SomeRun(s: Stmt) returns (r: Run)
    requires Tidy(s) && Buildable(s)
    ensures IsRun(s, r, false)
    decreases s
  {
    match s
    case Simple(_) => r := Atom;
    case If(_, thn, els) =>
      r := SomeRun(thn);
      r := Then(r);
    case While(_, _) => r := Leaves;
    case Case(_, arms) =>
      r := SomeRun(arms[0].body);
      r := Picks(0, r);
    case Nested(ss) =>
      NoneReturns(ss);
      r := SomeSequenceRun(ss);
  }

  lemma {:induction false} NoneReturns(ss: seq<Stmt>)
    requires forall i | 0 <= i < |ss| :: !ss[i].Return?
    ensures KeptCount(ss) == |ss|
  {
    if ss != [] {
      NoneReturns(ss[1..]);
    }
  }

  lemma {:induction false} SomeSequenceRun(ss: seq<Stmt>) returns (r: Run)
    requires forall i | 0 <= i < |ss| :: Tidy(ss[i]) && Buildable(ss[i])
    ensures IsSequenceRun(ss, r, false)
    decreases ss
  {
    if ss == [] {
      r := Ends;
    } else {
      var first := SomeRun(ss[0]);
      r := SomeSequenceRun(ss[1..]);
      r := Continues(first, r);
    }
  }

  // So the continuation of a statement is reached from its start.
  lemma {:induction false} EndReached(g: Table, s: Stmt, b: Target, k: Target, x: Target)
    requires Built(g, s, b, k, x) && Tidy(s) && Buildable(s) && k.To?
    ensures Reaches(g, b, k.id)
  {
    var r := SomeRun(s);
    var steps := RunIsPath(g, s, b, k, x, k.id, r, false, [], []);
  }

  // -------------------------------------------------------------------------
  // Each way of building keeps the order
  // -------------------------------------------------------------------------

  // A block promised for later, or just decided on, is added.
  lemma AddBlock(g: Table, g': Table, open: set<Target>, b: nat)
    requires InOrder(g, open) || InOrder(g, open + {To(b)})
    requires Holds(g, g') && g'.Keys == g.Keys + {b} && b !in g
    requires BlockInOrder(g', open, g'[b])
    ensures InOrder(g', open)
  {
    forall c | c in g'
      ensures BlockInOrder(g', open, g'[c])
    {
      if c != b {
        assert c in g && g'[c] == g[c];
        forall e | e in g[c].successors && e.kind != ReturnToExit
          ensures Leads(g', open, e.target)
        {
          assert Leads(g, open, e.target) || Leads(g, open + {To(b)}, e.target);
        }
      }
    }
  }

  // One new block, leading to what was there.
  lemma SingleInOrder(g0: Table, g: Table, g': Table, open: set<Target>, b: Target, k: Target)
    requires InOrder(g, open) && Holds(g0, g) && AllReached(g0, g, k)
    requires NewBlock(g, g', b)
    requires BlockInOrder(g', open, g'[b.id])
    requires g != g0 ==> g'[b.id].successors[0].target == k
    ensures Extends(g0, g', open, b)
  {
    AddBlock(g, g', open, b.id);
    ReachesSelf(g', b.id);
    if g != g0 {
      AllVia(g0, g, g', b, 0);
    }
    forall c | c in g' && c !in g0
      ensures Reaches(g', b, c)
    {
      if c in g {
        assert g != g0;
      }
    }
  }

  lemma AloneInOrder(g: Table, g': Table, open: set<Target>, b: Target, k: Target)
    requires NewBlock(g, g', b) && |g'[b.id].successors| == 1 && Shaped(g'[b.id])
    requires g'[b.id].successors[0] == Edge(UnresolvedExit, ReturnToExit) || g'[b.id].successors[0].target == k
    ensures Ready(g, open, k) ==> Extends(g, g', open, b)
  {
    if Ready(g, open, k) {
      LeadsOn(g, g', open, k);
      SingleInOrder(g, g, g', open, b, k);
    }
  }

  lemma {:induction false} RunInOrder(g0: Table, g: Table, g': Table, ss: seq<Stmt>, i: nat, open: set<Target>,
      b: Target, m: Target, k: Target)
    requires 0 < i <= KeptCount(ss) && SequenceBuilt(g0, g, ss, i, m, k, open) && Holds(g0, g)
    requires TidyBody(ss) && ReadyBefore(g0, ss, open, k)
    requires NewBlock(g, g', b) && Shaped(g'[b.id])
    requires g'[b.id].successors == if ss[i - 1].Return? then [Edge(UnresolvedExit, ReturnToExit)]
      else [Edge(m, Fallthrough)]
    ensures Extends(g0, g', open, b)
  {
    if !ss[i - 1].Return? {
      LeadsOn(g, g', open, m);
    }
    SingleInOrder(g0, g, g', open, b, m);
  }

  lemma IfInOrder(g0: Table, g1: Table, g2: Table, g: Table, open: set<Target>, c: nat, bt: Target, be: Target,
      b: Target)
    requires Extends(g0, g1, open, bt) && Extends(g1, g2, open, be)
    requires NewBlock(g2, g, b)
    requires IsBlock(g, b, [], Branches(c), [Edge(bt, TrueBranch), Edge(be, FalseBranch)])
    ensures Extends(g0, g, open, b)
  {
    AddBlock(g2, g, open, b.id);
    ReachesSelf(g, b.id);
    AllVia(g0, g1, g, b, 0);
    AllVia(g1, g2, g, b, 1);
    forall d | d in g && d !in g0
      ensures Reaches(g, b, d)
    {
      assert d == b.id || d in g1 || d in g2;
    }
  }

  lemma WhileInOrder(g0: Table, g1: Table, g: Table, open: set<Target>, c: nat, bb: Target, k: Target, b: Target)
    requires Extends(g0, g1, open + {b}, bb)
    requires NewBlock(g1, g, b)
    requires IsBlock(g, b, [], Loops(c), [Edge(bb, TrueBranch), Edge(k, FalseBranch)])
    requires Leads(g0, open, k)
    ensures Extends(g0, g, open, b)
  {
    assert BlockInOrder(g, open, g[b.id]);
    AddBlock(g1, g, open, b.id);
    ReachesSelf(g, b.id);
    AllVia(g0, g1, g, b, 0);
    forall d | d in g && d !in g0
      ensures Reaches(g, b, d)
    {
      assert d == b.id || d in g1;
    }
  }

  // A case arm by arm: each new block is reached from one of the arms' entries.
  ghost predicate ArmsInOrder(g0: Table, g: Table, open: set<Target>, edges: seq<Edge>) {
    && Holds(g0, g) && InOrder(g, open)
    && (forall i {:trigger edges[i]} | 0 <= i < |edges| :: Leads(g, open, edges[i].target))
    && (forall c {:trigger c in g} :: c in g && c !in g0 ==> ReachedByOne(g, edges, c))
  }

  ghost predicate ReachedByOne(g: Table, edges: seq<Edge>, c: nat) {
    exists i :: 0 <= i < |edges| && Reaches(g, edges[i].target, c)
  }

  lemma ArmInOrder(g0: Table, g: Table, g': Table, open: set<Target>, edges: seq<Edge>, e: Edge)
    requires ArmsInOrder(g0, g, open, edges) && Extends(g, g', open, e.target)
    ensures ArmsInOrder(g0, g', open, edges + [e])
  {
    var edges' := edges + [e];
    forall c | c in g' && c !in g0
      ensures ReachedByOne(g', edges', c)
    {
      if c in g {
        var i :| 0 <= i < |edges| && Reaches(g, edges[i].target, c);
        ReachesHolds(g, g', edges[i].target, c);
        assert edges'[i] == edges[i];
      } else {
        assert edges'[|edges|] == e;
      }
    }
    forall i | 0 <= i < |edges'|
      ensures Leads(g', open, edges'[i].target)
    {
      if i < |edges| {
        assert Leads(g, open, edges[i].target);
      }
    }
  }

  lemma CaseInOrder(g0: Table, g1: Table, g: Table, open: set<Target>, c: nat, edges: seq<Edge>, b: Target)
    requires ArmsInOrder(g0, g1, open, edges)
    requires NewBlock(g1, g, b)
    requires IsBlock(g, b, [], Cases(c), edges) && edges != []
    requires NoRepeats(edges) && forall i | 0 <= i < |edges| :: edges[i].kind.CaseArm?
    ensures Extends(g0, g, open, b)
  {
    assert BlockInOrder(g, open, g[b.id]) by {
      forall e | e in edges
        ensures Leads(g, open, e.target)
      {
        var i :| 0 <= i < |edges| && edges[i] == e;
        assert Leads(g1, open, edges[i].target);
      }
    }
    AddBlock(g1, g, open, b.id);
    ReachesSelf(g, b.id);
    forall d | d in g && d !in g0
      ensures Reaches(g, b, d)
    {
      if d != b.id {
        assert ReachedByOne(g1, edges, d);
        var i :| 0 <= i < |edges| && Reaches(g1, edges[i].target, d);
        ReachesHolds(g1, g, edges[i].target, d);
        ReachesVia(g, b, i, d);
      }
    }
  }

  // One statement before those already built.
  lemma {:induction false} BeforeInOrder(g0: Table, g1: Table, g: Table, open: set<Target>, s: Stmt, b: Target,
      m: Target)
    requires AllReached(g0, g1, m) && Holds(g0, g1)
    requires Extends(g1, g, open, b)
    requires Built(g, s, b, m, UnresolvedExit) && Tidy(s) && Buildable(s)
    ensures Extends(g0, g, open, b)
  {
    forall c | c in g && c !in g0
      ensures Reaches(g, b, c)
    {
      if c in g1 {
        ReachesHolds(g1, g, m, c);
        if m.To? {
          EndReached(g, s, b, m, UnresolvedExit);
        }
        ReachesOn(g, b, m, c);
      }
    }
  }
}
