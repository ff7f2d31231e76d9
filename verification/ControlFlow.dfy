/** Structured statements, the graphs built from them, and what each may do. */
module ControlFlow {

  // Statements as the graph builder sees them. Straight-line statements,
  // conditions and arm labels are names; an else branch may be missing.
  datatype Stmt =
    | Simple(id: nat)
    | Return(id: nat)
    | If(cond: nat, thn: Stmt, els: Else)
    | While(cond: nat, body: Stmt)
    | Case(scrutinee: nat, arms: seq<Arm>)
    | Nested(stmts: seq<Stmt>)

  datatype Else = NoElse | Else(stmt: Stmt)

  datatype Arm = Arm(tag: nat, body: Stmt)

  // What is observed of a run.
  datatype Event =
    | Did(id: nat)
    | Returned(id: nat)
    | Tested(cond: nat, outcome: bool)
    | Chose(scrutinee: nat, tag: nat)

  // -------------------------------------------------------------------------
  // Structured execution
  // -------------------------------------------------------------------------

  // One run of a statement, as the tree of the choices made in it.
  datatype Run =
    | Atom
    | Then(sub: Run)
    | Otherwise(sub: Run)
    | Skips
    | Leaves
    | Breaks(sub: Run)
    | Iterates(first: Run, rest: Run)
    | Picks(arm: nat, sub: Run)
    | Ends
    | Stops(sub: Run)
    | Continues(first: Run, rest: Run)

  // r is a run of s; it ends by returning, or normally.
  predicate IsRun(s: Stmt, r: Run, returned: bool)
    decreases r, s
  {
    match s
    case Simple(_) => r.Atom? && !returned
    case Return(_) => r.Atom? && returned
    case If(_, thn, els) =>
      || (r.Then? && IsRun(thn, r.sub, returned))
      || (r.Otherwise? && els.Else? && IsRun(els.stmt, r.sub, returned))
      || (r.Skips? && els.NoElse? && !returned)
    case While(_, body) =>
      || (r.Leaves? && !returned)
      || (r.Breaks? && returned && IsRun(body, r.sub, true))
      || (r.Iterates? && IsRun(body, r.first, false) && IsRun(s, r.rest, returned))
    case Case(_, arms) => r.Picks? && r.arm < |arms| && IsRun(arms[r.arm].body, r.sub, returned)
    case Nested(ss) => IsSequenceRun(ss, r, returned)
  }

  predicate IsSequenceRun(ss: seq<Stmt>, r: Run, returned: bool)
    decreases r, ss
  {
    if ss == [] then
      r.Ends? && !returned
    else
      || (r.Stops? && returned && IsRun(ss[0], r.sub, true))
      || (r.Continues? && IsRun(ss[0], r.first, false) && IsSequenceRun(ss[1..], r.rest, returned))
  }

  // What is observed of it.
  function Trace(s: Stmt, r: Run, returned: bool): seq<Event>
    requires IsRun(s, r, returned)
    decreases r, s
  {
    match s
    case Simple(id) => [Did(id)]
    case Return(id) => [Returned(id)]
    case If(c, thn, els) =>
      if r.Then? then [Tested(c, true)] + Trace(thn, r.sub, returned)
      else if r.Otherwise? then [Tested(c, false)] + Trace(els.stmt, r.sub, returned)
      else [Tested(c, false)]
    case While(c, body) =>
      if r.Leaves? then [Tested(c, false)]
      else if r.Breaks? then [Tested(c, true)] + Trace(body, r.sub, true)
      else [Tested(c, true)] + Trace(body, r.first, false) + Trace(s, r.rest, returned)
    case Case(c, arms) => [Chose(c, arms[r.arm].tag)] + Trace(arms[r.arm].body, r.sub, returned)
    case Nested(ss) => SequenceTrace(ss, r, returned)
  }

  function SequenceTrace(ss: seq<Stmt>, r: Run, returned: bool): seq<Event>
    requires IsSequenceRun(ss, r, returned)
    decreases r, ss
  {
    if ss == [] then []
    else if r.Stops? then Trace(ss[0], r.sub, true)
    else Trace(ss[0], r.first, false) + SequenceTrace(ss[1..], r.rest, returned)
  }

  // -------------------------------------------------------------------------
  // Graphs
  // -------------------------------------------------------------------------

  // Where an edge leads: a block, or the exit before it has an id.
  datatype Target = To(id: nat) | UnresolvedExit

  datatype EdgeKind = Fallthrough | TrueBranch | FalseBranch | CaseArm(tag: nat) | ReturnToExit

  datatype Edge = Edge(target: Target, kind: EdgeKind)

  datatype Terminator = FallsThrough | Branches(cond: nat) | Loops(cond: nat) | Cases(scrutinee: nat)
      | Returns(stmt: nat)

  datatype Name = EntryName | ExitName | Numbered(n: nat)

  datatype Draft = Draft(id: nat, name: Name, statements: seq<nat>, terminator: Terminator, successors: seq<Edge>)

  datatype BasicBlock = BasicBlock(draft: Draft, predecessors: seq<nat>)

  datatype Graph = Graph(blocks: seq<BasicBlock>, entry: nat, exit: nat)

  type Table = map<nat, Draft>

  // The events of one block left along one of its edges.
  function Straight(ids: seq<nat>): (t: seq<Event>)
    ensures |t| == |ids|
  {
    seq(|ids|, i requires 0 <= i < |ids| => Did(ids[i]))
  }

  function Leaving(term: Terminator, kind: EdgeKind): seq<Event> {
    match (term, kind)
    case (Branches(c), TrueBranch) => [Tested(c, true)]
    case (Branches(c), FalseBranch) => [Tested(c, false)]
    case (Loops(c), TrueBranch) => [Tested(c, true)]
    case (Loops(c), FalseBranch) => [Tested(c, false)]
    case (Cases(c), CaseArm(l)) => [Chose(c, l)]
    case (Returns(s), ReturnToExit) => [Returned(s)]
    case _ => []
  }

  // A path, given by the number of the edge taken out of each block on it.
  ghost predicate Path(g: Table, b: Target, steps: seq<nat>, exit: nat)
    decreases |steps|
  {
    if steps == [] then
      b == To(exit)
    else
      && b.To? && b.id in g && steps[0] < |g[b.id].successors|
      && Path(g, g[b.id].successors[steps[0]].target, steps[1..], exit)
  }

  ghost function Label(g: Table, b: Target, steps: seq<nat>, exit: nat): seq<Event>
    requires Path(g, b, steps, exit)
    decreases |steps|
  {
    if steps == [] then
      []
    else
      var d := g[b.id];
      var e := d.successors[steps[0]];
      Straight(d.statements) + Leaving(d.terminator, e.kind) + Label(g, e.target, steps[1..], exit)
  }

  // -------------------------------------------------------------------------
  // What part of a graph stands for a statement: control enters at b, leaves to
  // k when the statement ends normally, and to x when it returns
  // -------------------------------------------------------------------------

  predicate Compound(s: Stmt) {
    !s.Simple? && !s.Return?
  }

  ghost predicate IsBlock(g: Table, b: Target, statements: seq<nat>, term: Terminator, successors: seq<Edge>) {
    && b.To? && b.id in g
    && g[b.id].statements == statements && g[b.id].terminator == term && g[b.id].successors == successors
  }

  ghost predicate Built(g: Table, s: Stmt, b: Target, k: Target, x: Target)
    decreases s
  {
    match s
    case Simple(id) => IsBlock(g, b, [id], FallsThrough, [Edge(k, Fallthrough)])
    case Return(id) => IsBlock(g, b, [], Returns(id), [Edge(x, ReturnToExit)])
    case If(c, thn, els) =>
      exists bt, be :: IsBlock(g, b, [], Branches(c), [Edge(bt, TrueBranch), Edge(be, FalseBranch)]) &&
        Built(g, thn, bt, k, x) && (if els.NoElse? then be == k else Built(g, els.stmt, be, k, x))
    case While(c, body) =>
      exists bb :: IsBlock(g, b, [], Loops(c), [Edge(bb, TrueBranch), Edge(k, FalseBranch)]) && Built(g, body, bb, b, x)
    case Case(c, arms) =>
      arms != [] &&
      exists edges: seq<Edge> ::
        IsBlock(g, b, [], Cases(c), edges) && |edges| == |arms| &&
        forall i | 0 <= i < |arms| :: edges[i].kind == CaseArm(arms[i].tag) &&
          Built(g, arms[i].body, edges[i].target, k, x)
    case Nested(ss) => BuiltSequence(g, ss, b, k, x)
  }

  // A statement that branches is built on its own; straight-line ones are grouped
  // into one block, which a return ends, and nothing after a return is built.
  ghost predicate BuiltSequence(g: Table, ss: seq<Stmt>, b: Target, k: Target, x: Target)
    decreases ss
  {
    if ss == [] then
      b == k
    else if Compound(ss[0]) then
      exists m :: Built(g, ss[0], b, m, x) && BuiltSequence(g, ss[1..], m, k, x)
    else
      BuiltRun(g, ss, b, x) &&
      var d := g[b.id];
      d.terminator.FallsThrough? ==> BuiltSequence(g, ss[|d.statements|..], d.successors[0].target, k, x)
  }

  ghost predicate BuiltRun(g: Table, ss: seq<Stmt>, b: Target, x: Target) {
    && b.To? && b.id in g
    && var d := g[b.id];
    && |d.statements| <= |ss|
    && (forall j | 0 <= j < |d.statements| :: ss[j] == Simple(d.statements[j]))
    && match d.terminator
       case Returns(id) => |d.statements| < |ss| && ss[|d.statements|] == Return(id) &&
         d.successors == [Edge(x, ReturnToExit)]
       case FallsThrough => 0 < |d.statements| && |d.successors| == 1 && d.successors[0].kind == Fallthrough
       case _ => false
  }
}
