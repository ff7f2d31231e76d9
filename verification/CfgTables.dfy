/** Graphs under construction. The drafts are looked up by id in a table; the
    builder only ever adds blocks, and at the end leads the returns to the exit.
    What has been built for a statement stays built under both: when blocks are
    added, and when edges to the exit get their target. Here too is what the
    builder refuses, and how runs of straight-line statements become blocks. */
module CfgTables {
  import opened ControlFlow

  // -------------------------------------------------------------------------
  // The drafts as a table
  // -------------------------------------------------------------------------

  function TableOf(drafts: seq<Draft>): Table {
    if drafts == [] then map[] else TableOf(drafts[..|drafts| - 1])[drafts[|drafts| - 1].id := drafts[|drafts| - 1]]
  }

  lemma {:induction false} TableMore(drafts: seq<Draft>, d: Draft)
    ensures TableOf(drafts + [d]) == TableOf(drafts)[d.id := d]
  {
    assert (drafts + [d])[..|drafts|] == drafts;
  }

  // Edges to x lead to x' instead.
  function Retargeted(e: Edge, x: Target, x': Target): Edge {
    if e.kind == ReturnToExit && e.target == x then e.(target := x') else e
  }

  function Redirected(d: Draft, x: Target, x': Target): Draft {
    d.(successors := seq(|d.successors|, i requires 0 <= i < |d.successors| => Retargeted(d.successors[i], x, x')))
  }

  // g' holds all of g, with returns redirected.
  ghost predicate Carries(g: Table, g': Table, x: Target, x': Target) {
    forall b {:trigger b in g} :: b in g ==> b in g' && g'[b] == Redirected(g[b], x, x')
  }

  ghost predicate Holds(g: Table, g': Table) {
    forall b {:trigger b in g} :: b in g ==> b in g' && g'[b] == g[b]
  }

  ghost predicate Within(g: Table, n: nat) {
    forall b {:trigger b in g} :: b in g ==> 0 < b < n && g[b].id == b
  }

  // The blocks g' has beyond g have ids from n on.
  ghost predicate Beyond(g: Table, g': Table, n: nat) {
    forall b {:trigger b in g'} :: b in g' && b !in g ==> n <= b
  }

  lemma CarriesBlock(g: Table, g': Table, b: Target, statements: seq<nat>, term: Terminator, edges: seq<Edge>,
      x: Target, x': Target)
    requires Carries(g, g', x, x') && IsBlock(g, b, statements, term, edges)
    requires forall e | e in edges :: e.kind != ReturnToExit
    ensures IsBlock(g', b, statements, term, edges)
  {
    assert Redirected(g[b.id], x, x').successors == edges;
  }

  // What is built stays built when the graph grows and when returns get their exit.
  lemma {:induction false} BuiltCarries(g: Table, g': Table, s: Stmt, b: Target, k: Target, x: Target, x': Target)
    requires Built(g, s, b, k, x) && Carries(g, g', x, x')
    ensures Built(g', s, b, k, x')
    decreases s
  {
    match s
    case Simple(id) =>
      CarriesBlock(g, g', b, [id], FallsThrough, [Edge(k, Fallthrough)], x, x');
    case Return(id) =>
      assert Redirected(g[b.id], x, x').successors == [Edge(x', ReturnToExit)];
    case If(c, thn, els) =>
      IfCarries(g, g', s, b, k, x, x');
    case While(c, body) =>
      var bb :| IsBlock(g, b, [], Loops(c), [Edge(bb, TrueBranch), Edge(k, FalseBranch)]) && Built(g, body, bb, b, x);
      CarriesBlock(g, g', b, [], Loops(c), [Edge(bb, TrueBranch), Edge(k, FalseBranch)], x, x');
      BuiltCarries(g, g', body, bb, b, x, x');
    case Case(c, arms) =>
      CaseCarries(g, g', s, b, k, x, x');
    case Nested(ss) =>
      BuiltSequenceCarries(g, g', ss, b, k, x, x');
  }

  lemma {:induction false} IfCarries(g: Table, g': Table, s: Stmt, b: Target, k: Target, x: Target, x': Target)
    requires s.If? && Built(g, s, b, k, x) && Carries(g, g', x, x')
    ensures Built(g', s, b, k, x')
    decreases s, 0
  {
    var bt, be :| IsBlock(g, b, [], Branches(s.cond), [Edge(bt, TrueBranch), Edge(be, FalseBranch)]) &&
      Built(g, s.thn, bt, k, x) && (if s.els.NoElse? then be == k else Built(g, s.els.stmt, be, k, x));
    CarriesBlock(g, g', b, [], Branches(s.cond), [Edge(bt, TrueBranch), Edge(be, FalseBranch)], x, x');
    BuiltCarries(g, g', s.thn, bt, k, x, x');
    if s.els.Else? {
      BuiltCarries(g, g', s.els.stmt, be, k, x, x');
    }
  }

  lemma {:induction false} CaseCarries(g: Table, g': Table, s: Stmt, b: Target, k: Target, x: Target, x': Target)
    requires s.Case? && Built(g, s, b, k, x) && Carries(g, g', x, x')
    ensures Built(g', s, b, k, x')
    decreases s, 0
  {
    var edges: seq<Edge> :| IsBlock(g, b, [], Cases(s.scrutinee), edges) && |edges| == |s.arms| &&
      forall i | 0 <= i < |s.arms| :: edges[i].kind == CaseArm(s.arms[i].tag) &&
        Built(g, s.arms[i].body, edges[i].target, k, x);
    CarriesBlock(g, g', b, [], Cases(s.scrutinee), edges, x, x');
    forall i | 0 <= i < |s.arms|
      ensures Built(g', s.arms[i].body, edges[i].target, k, x')
    {
      BuiltCarries(g, g', s.arms[i].body, edges[i].target, k, x, x');
    }
  }

  lemma {:induction false} BuiltSequenceCarries(g: Table, g': Table, ss: seq<Stmt>, b: Target, k: Target, x: Target,
      x': Target)
    requires BuiltSequence(g, ss, b, k, x) && Carries(g, g', x, x')
    ensures BuiltSequence(g', ss, b, k, x')
    decreases ss
  {
    if ss == [] {
    } else if Compound(ss[0]) {
      var m :| Built(g, ss[0], b, m, x) && BuiltSequence(g, ss[1..], m, k, x);
      BuiltCarries(g, g', ss[0], b, m, x, x');
      BuiltSequenceCarries(g, g', ss[1..], m, k, x, x');
    } else {
      var d := g[b.id];
      if d.terminator.Returns? {
        assert Redirected(d, x, x').successors == [Edge(x', ReturnToExit)];
      } else {
        assert Redirected(d, x, x').successors == d.successors;
        BuiltSequenceCarries(g, g', ss[|d.statements|..], d.successors[0].target, k, x, x');
      }
    }
  }

  lemma HoldsCarries(g: Table, g': Table, x: Target)
    requires Holds(g, g')
    ensures Carries(g, g', x, x)
  {
    forall b | b in g
      ensures g'[b] == Redirected(g[b], x, x)
    {
      assert Redirected(g[b], x, x).successors == g[b].successors;
    }
  }

  // -------------------------------------------------------------------------
  // What the builder refuses: a case with no arms, in what it builds
  // -------------------------------------------------------------------------

  predicate Buildable(s: Stmt)
    decreases s
  {
    match s
    case Simple(_) => true
    case Return(_) => true
    case If(_, thn, els) => Buildable(thn) && (els.Else? ==> Buildable(els.stmt))
    case While(_, body) => Buildable(body)
    case Case(_, arms) => arms != [] && forall i | 0 <= i < |arms| :: Buildable(arms[i].body)
    case Nested(ss) => forall i | 0 <= i < KeptCount(ss) :: Buildable(ss[i])
  }

  // The statements up to the first return.
  function KeptCount(ss: seq<Stmt>): (n: nat)
    ensures n <= |ss|
    ensures forall j | 0 <= j < n - 1 :: !ss[j].Return?
    ensures n < |ss| ==> 0 < n && ss[n - 1].Return?
  {
    if ss == [] then 0 else if ss[0].Return? then 1 else 1 + KeptCount(ss[1..])
  }

  lemma {:induction false} StillBuilt(g: Table, g': Table, s: Stmt, b: Target, k: Target)
    requires Built(g, s, b, k, UnresolvedExit) && Holds(g, g')
    ensures Built(g', s, b, k, UnresolvedExit)
  {
    HoldsCarries(g, g', UnresolvedExit);
    BuiltCarries(g, g', s, b, k, UnresolvedExit, UnresolvedExit);
  }

  // The statements from i on stay built; with none kept from i on, there are none.
  lemma {:induction false} RestBuilt(g: Table, g': Table, ss: seq<Stmt>, i: nat, n: nat, m: Target, k: Target)
    requires 0 < i <= n == KeptCount(ss) && !ss[i - 1].Return?
    requires if i < n then BuiltSequence(g, ss[i..], m, k, UnresolvedExit) else m == k
    requires Holds(g, g')
    ensures BuiltSequence(g', ss[i..], m, k, UnresolvedExit)
  {
    if i < n {
      HoldsCarries(g, g', UnresolvedExit);
      BuiltSequenceCarries(g, g', ss[i..], m, k, UnresolvedExit, UnresolvedExit);
    } else {
      assert ss[i..] == [];
    }
  }

  // The first arms of a case are built, and their edges are known.
  ghost predicate ArmsBuilt(g: Table, arms: seq<Arm>, edges: seq<Edge>, k: Target)
    requires |edges| <= |arms|
  {
    forall j | 0 <= j < |edges| ::
      && edges[j].kind == CaseArm(arms[j].tag)
      && Built(g, arms[j].body, edges[j].target, k, UnresolvedExit)
      && Buildable(arms[j].body)
  }

  lemma ArmsStillBuilt(g: Table, g': Table, arms: seq<Arm>, edges: seq<Edge>, k: Target)
    requires |edges| <= |arms| && ArmsBuilt(g, arms, edges, k) && Holds(g, g')
    ensures ArmsBuilt(g', arms, edges, k)
  {
    forall j | 0 <= j < |edges|
      ensures Built(g', arms[j].body, edges[j].target, k, UnresolvedExit)
    {
      StillBuilt(g, g', arms[j].body, edges[j].target, k);
    }
  }

  lemma {:induction false} ArmBuilt(g: Table, g': Table, arms: seq<Arm>, edges: seq<Edge>, k: Target, b: Target)
    requires |edges| < |arms| && ArmsBuilt(g, arms, edges, k) && Holds(g, g')
    requires var s := arms[|edges|].body; Built(g', s, b, k, UnresolvedExit) && Buildable(s)
    ensures ArmsBuilt(g', arms, edges + [Edge(b, CaseArm(arms[|edges|].tag))], k)
  {
    ArmsStillBuilt(g, g', arms, edges, k);
  }

  // A block of straight-line statements stands for them, up to a return or on to
  // what follows.
  lemma {:induction false} ReturnRunBuilt(g: Table, ss: seq<Stmt>, start: nat, i: nat, ids: seq<nat>, b: Target,
      k: Target)
    requires start < i <= |ss| && ss[i - 1].Return? && |ids| == i - 1 - start
    requires forall j | 0 <= j < |ids| :: ss[start..][j] == Simple(ids[j])
    requires IsBlock(g, b, ids, Returns(ss[i - 1].id), [Edge(UnresolvedExit, ReturnToExit)])
    ensures BuiltSequence(g, ss[start..], b, k, UnresolvedExit)
  {
    assert ss[start..][|ids|] == ss[i - 1];
    assert ss[start..][0] == ss[start];
  }

  lemma {:induction false} FallRunBuilt(g: Table, ss: seq<Stmt>, start: nat, i: nat, ids: seq<nat>, b: Target,
      m: Target, k: Target)
    requires start < i <= |ss| && |ids| == i - start
    requires forall j | 0 <= j < |ids| :: ss[start..][j] == Simple(ids[j])
    requires IsBlock(g, b, ids, FallsThrough, [Edge(m, Fallthrough)])
    requires BuiltSequence(g, ss[i..], m, k, UnresolvedExit)
    ensures BuiltSequence(g, ss[start..], b, k, UnresolvedExit)
  {
    assert ss[start..][|ids|..] == ss[i..];
    assert ss[start..][0] == Simple(ids[0]);
  }
}
