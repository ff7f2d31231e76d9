/** The finished graph: entry in front, exit at the end, returns led to the exit. */
module CfgAssembly {
  import opened ControlFlow
  import opened CfgMeaning
  import opened CfgTables
  import opened CfgOrder
  import opened CfgValidate

  datatype Outcome = Ok(graph: Graph) | InternalError

  function EntryDraft(b: Target): Draft {
    Draft(0, EntryName, [], FallsThrough, [Edge(b, Fallthrough)])
  }

  function ExitDraft(exit: nat): Draft {
    Draft(exit, ExitName, [], FallsThrough, [])
  }

  // The complete traces of a graph and of a body.
  ghost predicate GraphTrace(g: Graph, t: seq<Event>) {
    exists steps :: Walks(TableOf(Drafts(g.blocks)), To(g.entry), steps, g.exit, t)
  }

  ghost predicate BodyTrace(ss: seq<Stmt>, t: seq<Event>) {
    var returned := ss != [];
    exists r :: Shows(ss, r, returned, t)
  }

  predicate Shows(ss: seq<Stmt>, r: Run, returned: bool, t: seq<Event>) {
    IsSequenceRun(ss, r, returned) && SequenceTrace(ss, r, returned) == t
  }

  // -------------------------------------------------------------------------
  // Tables of the drafts
  // -------------------------------------------------------------------------

  // Drafts as the builder lists them: each id once, with the name it gives.
  ghost predicate Listed(ds: seq<Draft>) {
    && (forall i, j | 0 <= i < j < |ds| :: ds[i].id != ds[j].id)
    && (forall i | 0 <= i < |ds| :: 0 < ds[i].id && ds[i].name == Numbered(ds[i].id - 1))
  }

  lemma {:induction false} ListedMore(ds: seq<Draft>, d: Draft)
    requires Listed(ds) && d.id !in TableOf(ds) && 0 < d.id && d.name == Numbered(d.id - 1)
    ensures Listed(ds + [d])
  {
    forall i | 0 <= i < |ds|
      ensures ds[i].id != d.id
    {
      TableFinds(ds, i);
    }
  }

  lemma {:induction false} TableFront(d: Draft, ds: seq<Draft>)
    requires d.id !in TableOf(ds)
    ensures TableOf([d] + ds) == TableOf(ds)[d.id := d]
  {
    if ds == [] {
      assert [d] + ds == [d];
      assert TableOf([]) == map[];
      assert [d][..0] == [];
    } else {
      var n := |ds| - 1;
      assert ([d] + ds)[..|[d] + ds| - 1] == [d] + ds[..n];
      TableFront(d, ds[..n]);
    }
  }

  lemma {:induction false} TableRedirected(ds: seq<Draft>, ds': seq<Draft>, x: Target, x': Target)
    requires |ds| == |ds'| && forall i | 0 <= i < |ds| :: ds'[i] == Redirected(ds[i], x, x')
    ensures TableOf(ds').Keys == TableOf(ds).Keys
    ensures Carries(TableOf(ds), TableOf(ds'), x, x')
  {
    if ds != [] {
      TableRedirected(ds[..|ds| - 1], ds'[..|ds| - 1], x, x');
    }
  }

  // The table of the finished graph.
  ghost predicate Assembled(t0: Table, t: Table, b: Target, exit: nat) {
    && t.Keys == t0.Keys + {0, exit} && 0 !in t0 && exit !in t0 && exit != 0
    && t[0] == EntryDraft(b) && t[exit] == ExitDraft(exit)
    && Carries(t0, t, UnresolvedExit, To(exit))
  }

  lemma {:induction false} Assembling(ds: seq<Draft>, ds': seq<Draft>, b: Target, exit: nat)
    requires Listed(ds) && 0 !in TableOf(ds) && exit !in TableOf(ds) && exit != 0
    requires |ds'| == |ds| + 1 && forall i | 0 <= i < |ds'| ::
      ds'[i] == Redirected((ds + [ExitDraft(exit)])[i], UnresolvedExit, To(exit))
    ensures Assembled(TableOf(ds), TableOf([EntryDraft(b)] + ds'), b, exit)
  {
    assert (ds + [ExitDraft(exit)])[..|ds|] == ds;
    TableRedirected(ds + [ExitDraft(exit)], ds', UnresolvedExit, To(exit));
    TableFront(EntryDraft(b), ds');
    assert Redirected(ExitDraft(exit), UnresolvedExit, To(exit)).successors == [];
    var t0, t1, t := TableOf(ds + [ExitDraft(exit)]), TableOf(ds'), TableOf([EntryDraft(b)] + ds');
    forall c | c in TableOf(ds)
      ensures c in t && t[c] == Redirected(TableOf(ds)[c], UnresolvedExit, To(exit))
    {
      assert c in t0 && c in t1;
    }
    assert exit in t0 && exit in t1;
  }

  // -------------------------------------------------------------------------
  // The meaning of the finished graph
  // -------------------------------------------------------------------------

  lemma BodyIsGraph(t0: Table, t: Table, ss: seq<Stmt>, b: Target, exit: nat, r: Run)
    returns (steps: seq<nat>)
    requires Assembled(t0, t, b, exit) && BuiltSequence(t0, ss, b, UnresolvedExit, UnresolvedExit)
    requires IsSequenceRun(ss, r, true)
    ensures Walks(t, To(0), steps, exit, SequenceTrace(ss, r, true))
  {
    BuiltSequenceCarries(t0, t, ss, b, UnresolvedExit, UnresolvedExit, To(exit));
    steps := SequenceRunIsPath(t, ss, b, UnresolvedExit, To(exit), exit, r, true, [], []);
    Step(t, To(0), 0, steps, exit, SequenceTrace(ss, r, true));
    steps := [0] + steps;
  }

  lemma GraphIsBody(t0: Table, t: Table, ss: seq<Stmt>, b: Target, exit: nat, steps: seq<nat>)
    returns (r: Run)
    requires Assembled(t0, t, b, exit) && BuiltSequence(t0, ss, b, UnresolvedExit, UnresolvedExit)
    requires Path(t, To(0), steps, exit)
    ensures IsSequenceRun(ss, r, true) && SequenceTrace(ss, r, true) == Label(t, To(0), steps, exit)
  {
    BuiltSequenceCarries(t0, t, ss, b, UnresolvedExit, UnresolvedExit, To(exit));
    FirstStep(t, To(0), steps, exit);
    assert t[0].successors == [Edge(b, Fallthrough)];
    var returned, rest;
    r, returned, rest := PathIsSequence(t, ss, b, UnresolvedExit, exit, steps[1..]);
    assert Path(t, UnresolvedExit, rest, exit) ==> false;
  }

  lemma {:induction false} SameTraces(t0: Table, g: Graph, ss: seq<Stmt>, b: Target)
    requires Assembled(t0, TableOf(Drafts(g.blocks)), b, g.exit) && g.entry == 0 && ss != []
    requires BuiltSequence(t0, ss, b, UnresolvedExit, UnresolvedExit)
    ensures forall t :: GraphTrace(g, t) <==> BodyTrace(ss, t)
  {
    var table := TableOf(Drafts(g.blocks));
    forall t
      ensures GraphTrace(g, t) <==> BodyTrace(ss, t)
    {
      if GraphTrace(g, t) {
        var steps :| Walks(table, To(0), steps, g.exit, t);
        var r := GraphIsBody(t0, table, ss, b, g.exit, steps);
        assert Shows(ss, r, true, t);
      }
      if BodyTrace(ss, t) {
        var r :| Shows(ss, r, true, t);
        var steps := BodyIsGraph(t0, table, ss, b, g.exit, r);
      }
    }
  }

  // -------------------------------------------------------------------------
  // The finished graph is well formed
  // -------------------------------------------------------------------------

  lemma {:induction false} SomeReturningRun(ss: seq<Stmt>) returns (r: Run)
    requires TidyBody(ss) && EndsInReturn(ss) && Buildable(Nested(ss))
    ensures IsSequenceRun(ss, r, true)
    decreases ss
  {
    if ss[0].Return? {
      r := Stops(Atom);
    } else {
      assert KeptCount(ss) == 1 + KeptCount(ss[1..]);
      var first := SomeRun(ss[0]);
      forall i | 0 <= i < KeptCount(ss[1..])
        ensures TidyOrReturn(ss[1..][i]) && Buildable(ss[1..][i])
      {
        assert ss[1..][i] == ss[i + 1];
      }
      r := SomeReturningRun(ss[1..]);
      r := Continues(first, r);
    }
  }

  // Everything is reached from the entry, the exit too.
  lemma {:induction false} AllFromEntry(t0: Table, t: Table, ss: seq<Stmt>, b: Target, exit: nat)
    requires Assembled(t0, t, b, exit) && BuiltSequence(t0, ss, b, UnresolvedExit, UnresolvedExit)
    requires Extends(map[], t0, {}, b)
    requires TidyBody(ss) && EndsInReturn(ss) && Buildable(Nested(ss))
    ensures forall c | c in t :: Reaches(t, To(0), c)
  {
    var r := SomeReturningRun(ss);
    var steps := BodyIsGraph(t0, t, ss, b, exit, r);
    assert Reaches(t, To(0), exit);
    ReachesSelf(t, 0);
    forall c | c in t0
      ensures Reaches(t, To(0), c)
    {
      var more :| Path(t0, b, more, c);
      PathCarries(t0, t, b, more, c, exit);
      assert Reaches(t, b, c);
      ReachesVia(t, To(0), 0, c);
    }
  }

  lemma {:induction false} PathCarries(g: Table, g': Table, b: Target, steps: seq<nat>, c: nat, exit: nat)
    requires Path(g, b, steps, c) && Carries(g, g', UnresolvedExit, To(exit))
    ensures Path(g', b, steps, c)
    decreases |steps|
  {
    if steps != [] {
      PathCarries(g, g', g[b.id].successors[steps[0]].target, steps[1..], c, exit);
    }
  }

  // The predecessors recorded are those with an edge.
  ghost predicate Traced(g: Graph) {
    forall i, p {:trigger p in g.blocks[i].predecessors} | 0 <= i < |g.blocks| ::
      p in g.blocks[i].predecessors <==> Justified(g.blocks, p, g.blocks[i].draft.id)
  }

  lemma Reordered(t0: Table, t: Table, b: Target, exit: nat, c: nat)
    requires Assembled(t0, t, b, exit) && InOrder(t0, {}) && Leads(t0, {}, b) && c in t
    ensures NoRepeats(t[c].successors) && FitsTerminator(t[c], exit)
    ensures forall e | e in t[c].successors :: e.target.To? && e.target.id in t && e.target.id != 0
  {
    if c == 0 || c == exit {
    } else {
      var d := t0[c];
      assert BlockInOrder(t0, {}, d);
      forall e | e in d.successors && e.kind != ReturnToExit
        ensures e.target.To? && e.target.id in t && e.target.id != 0
      {
        assert Leads(t0, {}, e.target);
      }
      match d.terminator
      case Returns(_) =>
        assert t[c].successors == [Edge(To(exit), ReturnToExit)];
      case Branches(_) =>
        assert t[c].successors == d.successors == [d.successors[0], d.successors[1]];
        TwoKinds(d.successors);
      case Loops(_) =>
        assert t[c].successors == d.successors == [d.successors[0], d.successors[1]];
        TwoKinds(d.successors);
      case Cases(_) =>
        assert t[c].successors == d.successors;
      case FallsThrough =>
        assert t[c].successors == d.successors;
    }
  }

  lemma {:induction false} TwoKinds(es: seq<Edge>)
    requires |es| == 2 && es[0].kind == TrueBranch && es[1].kind == FalseBranch
    ensures CountKind(es, TrueBranch) == 1 && CountKind(es, FalseBranch) == 1
  {
    assert es[..1] == [es[0]] && es[..1][..0] == [];
    assert CountKind(es[..1], TrueBranch) == 1 && CountKind(es[..1], FalseBranch) == 0;
  }

  lemma {:induction false} GraphWellFormed(t0: Table, g: Graph, ss: seq<Stmt>, b: Target)
    requires Assembled(t0, TableOf(Drafts(g.blocks)), b, g.exit) && g.entry == 0
    requires UniqueIds(g.blocks) && Traced(g)
    requires BuiltSequence(t0, ss, b, UnresolvedExit, UnresolvedExit) && Extends(map[], t0, {}, b)
    requires TidyBody(ss) && EndsInReturn(ss) && Buildable(Nested(ss))
    ensures WellFormed(g)
  {
    var t := TableOf(Drafts(g.blocks));
    AllFromEntry(t0, t, ss, b, g.exit);
    InTable(g, 0);
    InTable(g, g.exit);
    forall i | 0 <= i < |g.blocks|
      ensures BlockFits(g.blocks, g.blocks[i], g.exit)
      ensures Reaches(t, To(0), g.blocks[i].draft.id)
      ensures g.blocks[i].draft.id == 0 ==> g.blocks[i].predecessors == []
      ensures g.blocks[i].draft.id == g.exit ==> g.blocks[i].draft.successors == []
    {
      TableFinds(Drafts(g.blocks), i);
      BlockWellFormed(t0, g, b, i);
    }
  }

  lemma InTable(g: Graph, id: nat)
    requires id in TableOf(Drafts(g.blocks))
    ensures exists i ::
      0 <= i < |g.blocks| && g.blocks[i].draft.id == id && TableOf(Drafts(g.blocks))[id] == g.blocks[i].draft
  {
    TableOnly(Drafts(g.blocks), id);
    var i :| 0 <= i < |g.blocks| && Drafts(g.blocks)[i].id == id && TableOf(Drafts(g.blocks))[id]
      == Drafts(g.blocks)[i];
    assert g.blocks[i].draft.id == id;
  }

  lemma BlockWellFormed(t0: Table, g: Graph, b: Target, i: nat)
    requires Assembled(t0, TableOf(Drafts(g.blocks)), b, g.exit) && g.entry == 0
    requires UniqueIds(g.blocks) && Traced(g)
    requires InOrder(t0, {}) && Leads(t0, {}, b)
    requires i < |g.blocks|
    ensures BlockFits(g.blocks, g.blocks[i], g.exit)
    ensures g.blocks[i].draft.id == 0 ==> g.blocks[i].predecessors == []
  {
    var t := TableOf(Drafts(g.blocks));
    var d := g.blocks[i].draft;
    TableFinds(Drafts(g.blocks), i);
    Reordered(t0, t, b, g.exit, d.id);
    forall h | 0 <= h < |d.successors|
      ensures Mirrored(g.blocks, d, d.successors[h])
    {
      var e := d.successors[h];
      assert e in t[d.id].successors;
      InTable(g, e.target.id);
      var j :| 0 <= j < |g.blocks| && g.blocks[j].draft.id == e.target.id;
      assert HasEdgeTo(d, e.target.id);
      assert Justified(g.blocks, d.id, e.target.id);
      assert d.id in g.blocks[j].predecessors;
    }
    forall h | 0 <= h < |g.blocks[i].predecessors|
      ensures Justified(g.blocks, g.blocks[i].predecessors[h], d.id)
    {
      assert g.blocks[i].predecessors[h] in g.blocks[i].predecessors;
    }
    if d.id == 0 && g.blocks[i].predecessors != [] {
      var p := g.blocks[i].predecessors[0];
      assert p in g.blocks[i].predecessors;
      NothingToEntry(t0, g, b, p);
    }
  }

  lemma NothingToEntry(t0: Table, g: Graph, b: Target, p: nat)
    requires Assembled(t0, TableOf(Drafts(g.blocks)), b, g.exit)
    requires UniqueIds(g.blocks) && InOrder(t0, {}) && Leads(t0, {}, b)
    ensures !Justified(g.blocks, p, 0)
  {
    forall j | 0 <= j < |g.blocks| && g.blocks[j].draft.id == p
      ensures !HasEdgeTo(g.blocks[j].draft, 0)
    {
      TableFinds(Drafts(g.blocks), j);
      Reordered(t0, TableOf(Drafts(g.blocks)), b, g.exit, p);
    }
  }

  // -------------------------------------------------------------------------
  // Predecessors
  // -------------------------------------------------------------------------

  ghost predicate Recorded(preds: map<nat, seq<nat>>, id: nat, p: nat) {
    id in preds && p in preds[id]
  }

  ghost predicate LeadsTo(es: seq<Edge>, id: nat) {
    exists e :: e in es && e.target == To(id)
  }

  ghost predicate EdgeFrom(ordered: seq<Draft>, p: nat, id: nat) {
    exists i :: 0 <= i < |ordered| && ordered[i].id == p && HasEdgeTo(ordered[i], id)
  }

  // p, once for each of its edges that leads to id.
  function Sources(es: seq<Edge>, p: nat, id: nat): seq<nat> {
    if es == [] then []
    else
      var last := |es| - 1;
      Sources(es[..last], p, id) + (if es[last].target == To(id) then [p] else [])
  }

  // The block at the near end of each edge to id, in the order of the blocks.
  function AllSources(ordered: seq<Draft>, id: nat): seq<nat> {
    if ordered == [] then []
    else
      var last := |ordered| - 1;
      AllSources(ordered[..last], id) + Sources(ordered[last].successors, ordered[last].id, id)
  }

  function RecordedFor(preds: map<nat, seq<nat>>, id: nat): seq<nat> {
    if id in preds then preds[id] else []
  }

  lemma {:induction false} SourcesNext(es: seq<Edge>, j: nat, p: nat, id: nat)
    requires j < |es|
    ensures Sources(es[..j + 1], p, id) == Sources(es[..j], p, id) + if es[j].target == To(id) then [p] else []
  {
    assert es[..j + 1][..j] == es[..j];
  }

  lemma {:induction false} SourcesNamed(es: seq<Edge>, p: nat, id: nat, q: nat)
    ensures q in Sources(es, p, id) <==> q == p && LeadsTo(es, id)
    decreases |es|
  {
    if es != [] {
      var last := |es| - 1;
      SourcesNamed(es[..last], p, id, q);
      assert es == es[..last] + [es[last]];
    }
  }

  lemma {:induction false} AllSourcesNamed(ordered: seq<Draft>, id: nat, q: nat)
    ensures q in AllSources(ordered, id) <==> EdgeFrom(ordered, q, id)
    decreases |ordered|
  {
    if ordered != [] {
      var last := |ordered| - 1;
      AllSourcesNamed(ordered[..last], id, q);
      SourcesNamed(ordered[last].successors, ordered[last].id, id, q);
      assert LeadsTo(ordered[last].successors, id) <==> HasEdgeTo(ordered[last], id);
      EdgeFromNext(ordered, last, q, id);
      assert ordered[..last + 1] == ordered;
    }
  }

  lemma EdgeFromNext(ordered: seq<Draft>, i: nat, p: nat, id: nat)
    requires i < |ordered|
    ensures EdgeFrom(ordered[..i + 1], p, id) <==>
      EdgeFrom(ordered[..i], p, id) || (p == ordered[i].id && HasEdgeTo(ordered[i], id))
  {
    assert ordered[..i + 1][i] == ordered[i];
    assert forall j | 0 <= j < i :: ordered[..i + 1][j] == ordered[..i][j];
  }

  // A block names its predecessors once for each edge.
  ghost predicate Counted(g: Graph) {
    forall i | 0 <= i < |g.blocks| :: g.blocks[i].predecessors == AllSources(Drafts(g.blocks), g.blocks[i].draft.id)
  }

  lemma TracedByPreds(ordered: seq<Draft>, preds: map<nat, seq<nat>>, g: Graph)
    requires Drafts(g.blocks) == ordered
    requires forall i | 0 <= i < |ordered| :: ordered[i].id in preds && g.blocks[i].predecessors == preds[ordered[i].id]
    requires forall id, p {:trigger Recorded(preds, id, p)} :: Recorded(preds, id, p) <==> EdgeFrom(ordered, p, id)
    ensures Traced(g)
  {
    forall i, p | 0 <= i < |g.blocks|
      ensures p in g.blocks[i].predecessors <==> Justified(g.blocks, p, g.blocks[i].draft.id)
    {
      var id := g.blocks[i].draft.id;
      assert ordered[i].id == id;
      assert Recorded(preds, id, p) <==> EdgeFrom(ordered, p, id);
      if j :| 0 <= j < |ordered| && ordered[j].id == p && HasEdgeTo(ordered[j], id) {
        assert g.blocks[j].draft == ordered[j];
      }
      if Justified(g.blocks, p, id) {
        var j :| 0 <= j < |g.blocks| && g.blocks[j].draft.id == p && HasEdgeTo(g.blocks[j].draft, id);
        assert ordered[j] == g.blocks[j].draft;
      }
    }
  }

  lemma {:induction false} AssembledIds(ds: seq<Draft>, ds': seq<Draft>, ordered: seq<Draft>, b: Target, exit: nat,
      blocks: seq<BasicBlock>)
    requires Listed(ds) && exit !in TableOf(ds) && exit != 0
    requires |ds'| == |ds| + 1 && forall i | 0 <= i < |ds'| ::
      ds'[i] == Redirected((ds + [ExitDraft(exit)])[i], UnresolvedExit, To(exit))
    requires ordered == [EntryDraft(b)] + ds' && Drafts(blocks) == ordered
    ensures UniqueIds(blocks)
  {
    forall i | 0 <= i < |ds|
      ensures ds[i].id != exit
    {
      TableFinds(ds, i);
    }
    forall i | 0 <= i < |blocks|
      ensures i == 0 ==> blocks[i].draft.id == 0 && blocks[i].draft.name == EntryName
      ensures 0 < i < |blocks| - 1 ==> blocks[i].draft.id == ds[i - 1].id && blocks[i].draft.name == ds[i - 1].name
      ensures i == |blocks| - 1 ==> blocks[i].draft.id == exit && blocks[i].draft.name == ExitName
    {
      assert blocks[i].draft == ordered[i];
    }
  }

  // -------------------------------------------------------------------------
  // The graph of an empty body
  // -------------------------------------------------------------------------

  const EMPTY_GRAPH := Graph([BasicBlock(EntryDraft(To(1)), []), BasicBlock(ExitDraft(1), [0])], 0, 1)

  lemma EmptyTable()
    ensures Drafts(EMPTY_GRAPH.blocks) == [EntryDraft(To(1)), ExitDraft(1)]
    ensures TableOf(Drafts(EMPTY_GRAPH.blocks)) == map[0 := EntryDraft(To(1)), 1 := ExitDraft(1)]
  {
    var ds := [EntryDraft(To(1)), ExitDraft(1)];
    assert Drafts(EMPTY_GRAPH.blocks) == ds;
    assert ds[..1] == [EntryDraft(To(1))] && ds[..1][..0] == [];
    assert TableOf(ds[..1]) == map[0 := EntryDraft(To(1))];
  }

  lemma EmptyGraphFits()
    ensures WellFormed(EMPTY_GRAPH)
  {
    EmptyTable();
    var g := EMPTY_GRAPH;
    var table := TableOf(Drafts(g.blocks));
    ReachesSelf(table, 0);
    ReachesSelf(table, 1);
    ReachesVia(table, To(0), 0, 1);
    assert HasEdgeTo(g.blocks[0].draft, 1) by {
      assert g.blocks[0].draft.successors[0].target == To(1);
    }
    assert Justified(g.blocks, 0, 1) by {
      assert g.blocks[0].draft.id == 0;
    }
    assert Mirrored(g.blocks, g.blocks[0].draft, g.blocks[0].draft.successors[0]) by {
      assert g.blocks[1].draft.id == 1;
    }
    assert BlockFits(g.blocks, g.blocks[0], 1) && BlockFits(g.blocks, g.blocks[1], 1);
  }

  lemma EmptyGraphMeans()
    ensures forall t :: GraphTrace(EMPTY_GRAPH, t) <==> BodyTrace([], t)
  {
    EmptyTable();
    var table := TableOf(Drafts(EMPTY_GRAPH.blocks));
    assert Walks(table, To(1), [], 1, []);
    Step(table, To(0), 0, [], 1, []);
    forall t
      ensures GraphTrace(EMPTY_GRAPH, t) <==> BodyTrace([], t)
    {
      if steps :| Walks(table, To(0), steps, 1, t) {
        FirstStep(table, To(0), steps, 1);
        EndsThere(table, steps[1..], 1);
        assert Shows([], Ends, false, t);
      }
      if BodyTrace([], t) {
        assert Walks(table, To(0), [0] + [], 1, t);
      }
    }
  }

  lemma {:induction false} EmptySources(id: nat)
    ensures AllSources([EntryDraft(To(1)), ExitDraft(1)], id) == if id == 1 then [0] else []
  {
    var entry, exit := EntryDraft(To(1)), ExitDraft(1);
    var es := entry.successors;
    assert |es| == 1 && es[0].target == To(1) && es[..0] == [] && exit.successors == [];
    assert Sources(es, 0, id) == (if id == 1 then [0] else []) && Sources(exit.successors, 1, id) == [];
    assert [entry][..0] == [] && [entry, exit][..1] == [entry];
    assert AllSources([entry], id) == Sources(es, 0, id);
  }

  lemma EmptyGraphCounted()
    ensures Counted(EMPTY_GRAPH)
  {
    hide AllSources;
    assert Drafts(EMPTY_GRAPH.blocks) == [EntryDraft(To(1)), ExitDraft(1)];
    EmptySources(0);
    EmptySources(1);
  }
}
