/** The backward, continuation-style builder of a function's graph. */
module CfgBuilder {
  import opened ControlFlow
  import opened CfgMeaning
  import opened CfgTables
  import opened CfgOrder
  import opened CfgValidate
  import opened CfgAssembly

  class FunctionCfgBuilder {
    var nextId: nat
    var drafts: seq<Draft>

    // The ids of the drafts are below nextId, and none is the entry's.
    ghost predicate Valid()
      reads this
    {
      0 < nextId && Within(Table(), nextId) && Listed(drafts)
    }

    ghost function Table(): Table
      reads this`drafts
    {
      TableOf(drafts)
    }

    // Building only adds blocks, with ids not handed out before.
    twostate predicate Grown()
      reads this
    {
      && old(nextId) <= nextId
      && Holds(old(Table()), Table())
      && Beyond(old(Table()), Table(), old(nextId))
    }

    constructor ()
      ensures Valid() && nextId == 1 && drafts == []
    {
      nextId, drafts := 1, [];
    }

    method AllocateId() returns (id: nat)
      requires Valid()
      modifies this`nextId
      ensures Valid() && id == old(nextId) && nextId == id + 1
    {
      id := nextId;
      nextId := nextId + 1;
    }

    // Adds the block of an id handed out before.
    method AddDraft(id: nat, statements: seq<nat>, terminator: Terminator, successors: seq<Edge>)
      requires Valid() && 0 < id < nextId && id !in Table()
      modifies this`drafts
      ensures Valid() && Holds(old(Table()), Table()) && Table().Keys == old(Table().Keys) + {id}
      ensures drafts == old(drafts) + [Draft(id, Numbered(id - 1), statements, terminator, successors)]
      ensures IsBlock(Table(), To(id), statements, terminator, successors)
    {
      hide TableOf, Listed;
      var d := Draft(id, Numbered(id - 1), statements, terminator, successors);
      TableMore(drafts, d);
      ListedMore(drafts, d);
      drafts := drafts + [d];
    }

    method CreateBlock(statements: seq<nat>, terminator: Terminator, successors: seq<Edge>) returns (b: Target)
      requires Valid()
      modifies this
      ensures Valid() && Grown()
      ensures IsBlock(Table(), b, statements, terminator, successors)
      ensures NewBlock(old(Table()), Table(), b)
    {
      var id := AllocateId();
      AddDraft(id, statements, terminator, successors);
      b := To(id);
    }

    method BuildStmt(s: Stmt, k: Target, ghost open: set<Target>) returns (ok: bool, b: Target)
      requires Valid()
      modifies this
      ensures Valid() && Grown()
      ensures ok <==> Buildable(s)
      ensures ok ==> Built(Table(), s, b, k, UnresolvedExit)
      ensures ok && TidyOrReturn(s) && Ready(old(Table()), open, k) ==> Extends(old(Table()), Table(), open, b)
      decreases s
    {
      ok, b := true, k;
      match s
      case Simple(id) =>
        b := CreateBlock([id], FallsThrough, [Edge(k, Fallthrough)]);
        AloneInOrder(old(Table()), Table(), open, b, k);
      case Return(id) =>
        b := CreateBlock([], Returns(id), [Edge(UnresolvedExit, ReturnToExit)]);
        AloneInOrder(old(Table()), Table(), open, b, k);
      case If(c, thn, els) =>
        ok, b := BuildIf(s, k, open);
      case While(c, body) =>
        ok, b := BuildWhile(s, k, open);
      case Case(c, arms) =>
        ok, b := BuildCase(s, k, open);
      case Nested(ss) =>
        ok, b := BuildSequence(ss, k, open);
    }

    method BuildIf(s: Stmt, k: Target, ghost open: set<Target>) returns (ok: bool, b: Target)
      requires Valid() && s.If?
      modifies this
      ensures Valid() && Grown()
      ensures ok <==> Buildable(s)
      ensures ok ==> Built(Table(), s, b, k, UnresolvedExit)
      ensures ok && TidyOrReturn(s) && Ready(old(Table()), open, k) ==> Extends(old(Table()), Table(), open, b)
      decreases s, 0
    {
      b := k;
      var thenEntry;
      ok, thenEntry := BuildStmt(s.thn, k, open);
      if !ok {
        return;
      }
      var elseEntry := k;
      ghost var g := Table();
      if s.els.Else? {
        ok, elseEntry := BuildStmt(s.els.stmt, k, open);
        if !ok {
          return;
        }
      }
      ghost var g' := Table();
      b := CreateBlock([], Branches(s.cond), [Edge(thenEntry, TrueBranch), Edge(elseEntry, FalseBranch)]);
      StillBuilt(g, Table(), s.thn, thenEntry, k);
      if s.els.Else? {
        StillBuilt(g', Table(), s.els.stmt, elseEntry, k);
      }
      if Tidy(s) && Ready(old(Table()), open, k) {
        LeadsOn(old(Table()), g, open, k);
        IfInOrder(old(Table()), g, g', Table(), open, s.cond, thenEntry, elseEntry, b);
      }
    }

    // The loop's own id is handed out first, so that the body can come back to it.
    method BuildWhile(s: Stmt, k: Target, ghost open: set<Target>) returns (ok: bool, b: Target)
      requires Valid() && s.While?
      modifies this
      ensures Valid() && Grown()
      ensures ok <==> Buildable(s)
      ensures ok ==> Built(Table(), s, b, k, UnresolvedExit)
      ensures ok && TidyOrReturn(s) && Ready(old(Table()), open, k) ==> Extends(old(Table()), Table(), open, b)
      decreases s, 0
    {
      var whileId := AllocateId();
      b := To(whileId);
      var bodyEntry;
      ok, bodyEntry := BuildStmt(s.body, b, open + {b});
      if !ok {
        return;
      }
      ghost var g := Table();
      AddDraft(whileId, [], Loops(s.cond), [Edge(bodyEntry, TrueBranch), Edge(k, FalseBranch)]);
      StillBuilt(g, Table(), s.body, bodyEntry, b);
      if Tidy(s) && Ready(old(Table()), open, k) {
        InOrderMore(old(Table()), open, b);
        WhileInOrder(old(Table()), g, Table(), open, s.cond, bodyEntry, k, b);
      }
    }

    method BuildCase(s: Stmt, k: Target, ghost open: set<Target>) returns (ok: bool, b: Target)
      requires Valid() && s.Case?
      modifies this
      ensures Valid() && Grown()
      ensures ok <==> Buildable(s)
      ensures ok ==> Built(Table(), s, b, k, UnresolvedExit)
      ensures ok && TidyOrReturn(s) && Ready(old(Table()), open, k) ==> Extends(old(Table()), Table(), open, b)
      decreases s, 0
    {
      ok, b := s.arms != [], k;
      if !ok {
        return;
      }
      var edges: seq<Edge> := [];
      for i := 0 to |s.arms|
        invariant Valid() && Grown() && |edges| == i
        invariant ArmsBuilt(Table(), s.arms, edges, k)
        invariant Tidy(s) && Ready(old(Table()), open, k) ==> ArmsInOrder(old(Table()), Table(), open, edges)
      {
        ghost var g := Table();
        var armEntry;
        ok, armEntry := BuildStmt(s.arms[i].body, k, open);
        if !ok {
          return;
        }
        ArmBuilt(g, Table(), s.arms, edges, k, armEntry);
        if Tidy(s) && Ready(old(Table()), open, k) {
          LeadsOn(old(Table()), g, open, k);
          ArmInOrder(old(Table()), g, Table(), open, edges, Edge(armEntry, CaseArm(s.arms[i].tag)));
        }
        edges := edges + [Edge(armEntry, CaseArm(s.arms[i].tag))];
      }
      ok, b := FinishCase(s, edges, k, open, old(Table()));
    }

    method FinishCase(s: Stmt, edges: seq<Edge>, ghost k: Target, ghost open: set<Target>,
        ghost g0: Table) returns (ok: bool, b: Target)
      requires Valid() && s.Case? && s.arms != [] && |edges| == |s.arms|
      requires ArmsBuilt(Table(), s.arms, edges, k)
      requires Tidy(s) && Ready(g0, open, k) ==> ArmsInOrder(g0, Table(), open, edges)
      modifies this
      ensures Valid() && Grown()
      ensures ok && Buildable(s) && Built(Table(), s, b, k, UnresolvedExit)
      ensures Tidy(s) && Ready(g0, open, k) ==> Extends(g0, Table(), open, b)
    {
      ok := true;
      ghost var g := Table();
      b := CreateBlock([], Cases(s.scrutinee), edges);
      ArmsStillBuilt(g, Table(), s.arms, edges, k);
      if Tidy(s) && Ready(g0, open, k) {
        CaseInOrder(g0, g, Table(), open, s.scrutinee, edges, b);
      }
    }

    // Backwards from the first return, or from the end: straight-line statements
    // are grouped, the others built one by one.
    method BuildSequence(ss: seq<Stmt>, k: Target, ghost open: set<Target>) returns (ok: bool, b: Target)
      requires Valid()
      modifies this
      ensures Valid() && Grown()
      ensures ok <==> Buildable(Nested(ss))
      ensures ok ==> BuiltSequence(Table(), ss, b, k, UnresolvedExit)
      ensures ok && TidyBody(ss) && ReadyBefore(old(Table()), ss, open, k) ==> Extends(old(Table()), Table(), open, b)
      decreases ss
    {
      b, ok := k, true;
      var i := KeptCount(ss);
      while i > 0
        invariant Valid() && Grown() && 0 <= i <= KeptCount(ss)
        invariant forall j | i <= j < KeptCount(ss) :: Buildable(ss[j])
        invariant SequenceBuilt(old(Table()), Table(), ss, i, b, k, open)
      {
        var start := RunStart(ss, i);
        if start < i {
          b := BuildRun(ss, start, i, b, k, open, old(Table()));
          i := start;
        } else {
          ok, b := BuildOne(ss, i, b, k, open, old(Table()));
          if !ok {
            return;
          }
          i := i - 1;
        }
      }
      assert ss[0..] == ss;
    }

    method BuildOne(ss: seq<Stmt>, i: nat, current: Target, ghost k: Target, ghost open: set<Target>,
        ghost g0: Table) returns (ok: bool, b: Target)
      requires Valid() && 0 < i <= KeptCount(ss) && Compound(ss[i - 1])
      requires SequenceBuilt(g0, Table(), ss, i, current, k, open) && Holds(g0, Table())
      modifies this
      ensures Valid() && Grown()
      ensures ok <==> Buildable(ss[i - 1])
      ensures ok ==> SequenceBuilt(g0, Table(), ss, i - 1, b, k, open)
      decreases ss, 0
    {
      ghost var g := Table();
      ok, b := BuildStmt(ss[i - 1], current, open);
      if ok {
        RestBuilt(g, Table(), ss, i, KeptCount(ss), current, k);
        assert ss[i - 1..][1..] == ss[i..];
        if TidyBody(ss) && ReadyBefore(g0, ss, open, k) {
          BeforeInOrder(g0, g, Table(), open, ss[i - 1], b, current);
        }
      }
    }

    // How far back the straight-line statements before i go.
    method RunStart(ss: seq<Stmt>, i: nat) returns (start: nat)
      requires i <= |ss|
      ensures start <= i
      ensures forall j | start <= j < i :: !Compound(ss[j])
      ensures start == 0 || Compound(ss[start - 1])
    {
      start := i;
      while start > 0 && !Compound(ss[start - 1])
        invariant 0 <= start <= i
        invariant forall j | start <= j < i :: !Compound(ss[j])
      {
        start := start - 1;
      }
    }

    method BuildRun(ss: seq<Stmt>, start: nat, i: nat, current: Target, ghost k: Target, ghost open: set<Target>,
        ghost g0: Table) returns (b: Target)
      requires Valid() && start < i <= KeptCount(ss)
      requires forall j | start <= j < i :: !Compound(ss[j])
      requires SequenceBuilt(g0, Table(), ss, i, current, k, open) && Holds(g0, Table())
      modifies this
      ensures Valid() && Grown()
      ensures SequenceBuilt(g0, Table(), ss, start, b, k, open)
      ensures forall j | start <= j < i :: Buildable(ss[j])
    {
      hide Extends, InOrder, AllReached, BuiltSequence;
      ghost var g := Table();
      var last := ss[i - 1];
      if last.Return? {
        var ids := StatementIds(ss, start, i - 1);
        b := CreateBlock(ids, Returns(last.id), [Edge(UnresolvedExit, ReturnToExit)]);
        ReturnRunBuilt(Table(), ss, start, i, ids, b, k);
      } else {
        var ids := StatementIds(ss, start, i);
        b := CreateBlock(ids, FallsThrough, [Edge(current, Fallthrough)]);
        RestBuilt(g, Table(), ss, i, KeptCount(ss), current, k);
        FallRunBuilt(Table(), ss, start, i, ids, b, current, k);
      }
      if TidyBody(ss) && ReadyBefore(g0, ss, open, k) {
        RunInOrder(g0, g, Table(), ss, i, open, b, current, k);
      }
    }

    method StatementIds(ss: seq<Stmt>, start: nat, end: nat) returns (ids: seq<nat>)
      requires start <= end <= |ss|
      requires forall j | start <= j < end :: ss[j].Simple?
      ensures |ids| == end - start
      ensures forall j | 0 <= j < |ids| :: ss[start..][j] == Simple(ids[j])
    {
      ids := [];
      for j := start to end
        invariant |ids| == j - start
        invariant forall h | 0 <= h < |ids| :: ss[start + h] == Simple(ids[h])
      {
        ids := ids + [ss[j].id];
      }
    }

    // A whole function body. It must end in a return; the paths of the graph from
    // entry to exit then carry exactly the traces of the body's runs, and for a
    // tidy body the graph is well formed.
    method Build(stmts: seq<Stmt>) returns (r: Outcome)
      requires Valid() && drafts == []
      modifies this
      ensures r.InternalError? <==> stmts != [] && (!stmts[|stmts| - 1].Return? || !Buildable(Nested(stmts)))
      ensures r.Ok? ==> forall t :: GraphTrace(r.graph, t) <==> BodyTrace(stmts, t)
      ensures r.Ok? && TidyBody(stmts) ==> WellFormed(r.graph)
      ensures r.Ok? ==> Counted(r.graph)
    {
      hide Assembled, BuiltSequence, WellFormed, UniqueIds, Traced, GraphTrace, BodyTrace;
      if stmts == [] {
        r := BuildEmpty();
        return;
      }
      if !stmts[|stmts| - 1].Return? {
        return InternalError;
      }
      assert EndsInReturn(stmts);
      var ok, entryTarget := BuildSequence(stmts, UnresolvedExit, {});
      if !ok {
        return InternalError;
      }
      ghost var t0, ds := Table(), drafts;
      var exitId := AllocateId();
      drafts := drafts + [ExitDraft(exitId)];
      ResolveReturns(exitId);
      var ordered := [EntryDraft(entryTarget)] + drafts;
      Assembling(ds, drafts, entryTarget, exitId);
      var preds := Predecessors(ordered);
      var blocks := seq(|ordered|, i requires 0 <= i < |ordered| => BasicBlock(ordered[i], preds[ordered[i].id]));
      var graph := Graph(blocks, 0, exitId);
      assert Drafts(blocks) == ordered;
      SameTraces(t0, graph, stmts, entryTarget);
      if TidyBody(stmts) {
        AssembledIds(ds, drafts, ordered, entryTarget, exitId, blocks);
        TracedByPreds(ordered, preds, graph);
        GraphWellFormed(t0, graph, stmts, entryTarget);
      }
      r := Ok(graph);
    }

    method BuildEmpty() returns (r: Outcome)
      ensures r.Ok? && WellFormed(r.graph) && Counted(r.graph)
      ensures forall t :: GraphTrace(r.graph, t) <==> BodyTrace([], t)
    {
      var graph := EMPTY_GRAPH;
      EmptyGraphCounted();
      EmptyGraphFits();
      EmptyGraphMeans();
      r := Ok(graph);
    }

    // Returns get the exit they were waiting for.
    method ResolveReturns(exitId: nat)
      modifies this`drafts
      ensures |drafts| == |old(drafts)|
      ensures forall i | 0 <= i < |drafts| :: drafts[i] == Redirected(old(drafts)[i], UnresolvedExit, To(exitId))
    {
      for i := 0 to |drafts|
        invariant |drafts| == |old(drafts)|
        invariant forall j | 0 <= j < i :: drafts[j] == Redirected(old(drafts)[j], UnresolvedExit, To(exitId))
        invariant forall j | i <= j < |drafts| :: drafts[j] == old(drafts)[j]
      {
        var edges := drafts[i].successors;
        for j := 0 to |edges|
          invariant |edges| == |drafts[i].successors|
          invariant forall h | 0 <= h < j :: edges[h] == Retargeted(drafts[i].successors[h], UnresolvedExit, To(exitId))
          invariant forall h | j <= h < |edges| :: edges[h] == drafts[i].successors[h]
        {
          if edges[j].kind == ReturnToExit && edges[j].target == UnresolvedExit {
            edges := edges[j := edges[j].(target := To(exitId))];
          }
        }
        assert edges == Redirected(drafts[i], UnresolvedExit, To(exitId)).successors;
        drafts := drafts[i := drafts[i].(successors := edges)];
      }
    }

    // Each block's predecessors, one for every edge that leads to it.
    static method Predecessors(ordered: seq<Draft>) returns (preds: map<nat, seq<nat>>)
      ensures forall i | 0 <= i < |ordered| :: ordered[i].id in preds
      ensures forall id | id in preds :: preds[id] == AllSources(ordered, id)
      ensures forall id, p {:trigger Recorded(preds, id, p)} :: Recorded(preds, id, p) <==> EdgeFrom(ordered, p, id)
    {
      preds := map[];
      for i := 0 to |ordered|
        invariant forall j | 0 <= j < i :: ordered[j].id in preds
        invariant forall id :: RecordedFor(preds, id) == []
      {
        if ordered[i].id !in preds {
          ghost var preds0 := preds;
          preds := preds[ordered[i].id := []];
          assert forall id :: RecordedFor(preds, id) == RecordedFor(preds0, id);
        }
      }
      for i := 0 to |ordered|
        invariant forall j | 0 <= j < |ordered| :: ordered[j].id in preds
        invariant forall id :: RecordedFor(preds, id) == AllSources(ordered[..i], id)
      {
        preds := RecordEdges(preds, ordered[i]);
        assert ordered[..i + 1][..i] == ordered[..i];
      }
      assert ordered[..|ordered|] == ordered;
      forall id, p
        ensures Recorded(preds, id, p) <==> EdgeFrom(ordered, p, id)
      {
        assert Recorded(preds, id, p) <==> p in RecordedFor(preds, id);
        AllSourcesNamed(ordered, id, p);
      }
    }

    static method RecordEdges(preds0: map<nat, seq<nat>>, d: Draft) returns (preds: map<nat, seq<nat>>)
      ensures preds0.Keys <= preds.Keys
      ensures forall id :: RecordedFor(preds, id) == RecordedFor(preds0, id) + Sources(d.successors, d.id, id)
    {
      preds := preds0;
      for j := 0 to |d.successors|
        invariant preds0.Keys <= preds.Keys
        invariant forall id :: RecordedFor(preds, id) == RecordedFor(preds0, id) + Sources(d.successors[..j], d.id, id)
      {
        ghost var before := preds;
        var target := d.successors[j].target;
        if target.To? {
          preds := preds[target.id := RecordedFor(preds, target.id) + [d.id]];
        }
        forall id
          ensures RecordedFor(preds, id) == RecordedFor(preds0, id) + Sources(d.successors[..j + 1], d.id, id)
        {
          SourcesNext(d.successors, j, d.id, id);
          assert RecordedFor(before, id) == RecordedFor(preds0, id) + Sources(d.successors[..j], d.id, id);
        }
      }
      assert d.successors[..|d.successors|] == d.successors;
    }
  }

  // Building a function's graph and checking it, as is done for every function.
  method BuildForFunction(stmts: seq<Stmt>) returns (r: Outcome)
    ensures r.Ok? ==> WellFormed(r.graph) && forall t :: GraphTrace(r.graph, t) <==> BodyTrace(stmts, t)
    ensures TidyBody(stmts) && Buildable(Nested(stmts)) && (stmts == [] || stmts[|stmts| - 1].Return?) ==> r.Ok?
  {
    var builder := new FunctionCfgBuilder();
    r := builder.Build(stmts);
    if r.Ok? {
      var valid := Validate(r.graph);
      if !valid {
        r := InternalError;
      }
    }
  }
}
