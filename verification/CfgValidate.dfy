/** The validator of finished graphs, against what it is meant to check. */
module CfgValidate {
  import opened Sets
  import opened ControlFlow
  import opened CfgTables
  import opened CfgOrder

  function Drafts(blocks: seq<BasicBlock>): (ds: seq<Draft>)
    ensures |ds| == |blocks|
  {
    seq(|blocks|, i requires 0 <= i < |blocks| => blocks[i].draft)
  }

  predicate HasEdgeTo(d: Draft, id: nat) {
    exists e :: e in d.successors && e.target == To(id)
  }

  // -------------------------------------------------------------------------
  // What makes a graph well formed
  // -------------------------------------------------------------------------

  predicate UniqueIds(blocks: seq<BasicBlock>) {
    && (forall i, j | 0 <= i < j < |blocks| :: blocks[i].draft.id != blocks[j].draft.id)
    && (forall i, j | 0 <= i < j < |blocks| :: blocks[i].draft.name != blocks[j].draft.name)
  }

  predicate HasId(blocks: seq<BasicBlock>, id: nat) {
    exists i :: 0 <= i < |blocks| && blocks[i].draft.id == id
  }

  // Every edge has a block at its end, which knows where the edge comes from.
  predicate Mirrored(blocks: seq<BasicBlock>, d: Draft, e: Edge) {
    exists j :: 0 <= j < |blocks| && e.target == To(blocks[j].draft.id) && d.id in blocks[j].predecessors
  }

  // Every predecessor is a block with an edge here.
  predicate Justified(blocks: seq<BasicBlock>, p: nat, id: nat) {
    exists j :: 0 <= j < |blocks| && blocks[j].draft.id == p && HasEdgeTo(blocks[j].draft, id)
  }

  function CountKind(es: seq<Edge>, kind: EdgeKind): nat {
    if es == [] then 0 else CountKind(es[..|es| - 1], kind) + if es[|es| - 1].kind == kind then 1 else 0
  }

  predicate FitsTerminator(d: Draft, exit: nat) {
    match d.terminator
    case Branches(_) => CountKind(d.successors, TrueBranch) == 1 && CountKind(d.successors, FalseBranch) == 1
    case Loops(_) => CountKind(d.successors, TrueBranch) == 1 && CountKind(d.successors, FalseBranch) == 1
    case Returns(_) => d.successors == [Edge(To(exit), ReturnToExit)]
    case Cases(_) => d.successors != [] && forall i | 0 <= i < |d.successors| :: d.successors[i].kind.CaseArm?
    case FallsThrough => true
  }

  predicate BlockFits(blocks: seq<BasicBlock>, b: BasicBlock, exit: nat) {
    && NoRepeats(b.draft.successors)
    && (forall i | 0 <= i < |b.draft.successors| :: Mirrored(blocks, b.draft, b.draft.successors[i]))
    && (forall i | 0 <= i < |b.predecessors| :: Justified(blocks, b.predecessors[i], b.draft.id))
    && FitsTerminator(b.draft, exit)
  }

  predicate EndsFit(g: Graph) {
    forall i | 0 <= i < |g.blocks| ::
      && (g.blocks[i].draft.id == g.entry ==> g.blocks[i].predecessors == [])
      && (g.blocks[i].draft.id == g.exit ==> g.blocks[i].draft.successors == [])
  }

  ghost predicate WellFormed(g: Graph) {
    && g.blocks != []
    && UniqueIds(g.blocks)
    && HasId(g.blocks, g.entry) && HasId(g.blocks, g.exit)
    && EndsFit(g)
    && (forall i | 0 <= i < |g.blocks| :: BlockFits(g.blocks, g.blocks[i], g.exit))
    && (forall i | 0 <= i < |g.blocks| :: Reaches(TableOf(Drafts(g.blocks)), To(g.entry), g.blocks[i].draft.id))
  }

  // -------------------------------------------------------------------------
  // The validator
  // -------------------------------------------------------------------------

  type ById = map<nat, BasicBlock>

  // The index of blocks by id, for blocks with unique ids.
  ghost predicate Indexes(byId: ById, blocks: seq<BasicBlock>) {
    && (forall i {:trigger blocks[i]} | 0 <= i < |blocks| ::
      blocks[i].draft.id in byId && byId[blocks[i].draft.id] == blocks[i])
    && (forall id {:trigger id in byId} :: id in byId ==> byId[id].draft.id == id && byId[id] in blocks)
  }

  method Validate(g: Graph) returns (ok: bool)
    ensures ok <==> WellFormed(g)
  {
    if g.blocks == [] {
      return false;
    }
    hide Indexes, UniqueIds, BlockFits, EndsFit, HasId, Reaches;
    var byId;
    ok, byId := IndexBlocks(g.blocks);
    if !ok {
      return;
    }
    IdsIndexed(g.blocks, byId);
    if g.entry !in byId || g.exit !in byId {
      return false;
    }
    ok := CheckEnds(g, byId);
    if !ok {
      return;
    }
    for i := 0 to |g.blocks|
      invariant forall j | 0 <= j < i :: BlockFits(g.blocks, g.blocks[j], g.exit)
    {
      ok := CheckBlock(g.blocks, byId, g.blocks[i], g.exit);
      if !ok {
        return;
      }
    }
    ok := CheckReachable(g, byId);
  }

  lemma IdsIndexed(blocks: seq<BasicBlock>, byId: ById)
    requires Indexes(byId, blocks)
    ensures forall id {:trigger id in byId} {:trigger HasId(blocks, id)} :: id in byId <==> HasId(blocks, id)
  {
    forall id | id in byId
      ensures HasId(blocks, id)
    {
      var i :| 0 <= i < |blocks| && blocks[i] == byId[id];
    }
  }

  method CheckEnds(g: Graph, byId: ById) returns (ok: bool)
    requires Indexes(byId, g.blocks) && UniqueIds(g.blocks)
    requires g.entry in byId && g.exit in byId
    ensures ok <==> EndsFit(g)
  {
    ok := byId[g.entry].predecessors == [] && byId[g.exit].draft.successors == [];
    if !ok {
      var i :| 0 <= i < |g.blocks| && g.blocks[i] == if byId[g.entry].predecessors != [] then byId[g.entry]
        else byId[g.exit];
      assert !EndsFit(g);
    }
  }

  method IndexBlocks(blocks: seq<BasicBlock>) returns (ok: bool, byId: ById)
    ensures ok <==> UniqueIds(blocks)
    ensures ok ==> Indexes(byId, blocks)
  {
    byId := map[];
    var names: set<Name> := {};
    for i := 0 to |blocks|
      invariant UniqueIds(blocks[..i]) && Indexes(byId, blocks[..i])
      invariant names == set j | 0 <= j < i :: blocks[j].draft.name
    {
      var b := blocks[i];
      if b.draft.id in byId {
        var j :| 0 <= j < i && blocks[j] == byId[b.draft.id];
        SameIdOrName(blocks, j, i);
        return false, byId;
      }
      if b.draft.name in names {
        var j :| 0 <= j < i && blocks[j].draft.name == b.draft.name;
        SameIdOrName(blocks, j, i);
        return false, byId;
      }
      NextIndexed(blocks, i, byId);
      byId := byId[b.draft.id := b];
      names := names + {b.draft.name};
    }
    assert blocks[..|blocks|] == blocks;
    ok := true;
  }

  lemma SameIdOrName(blocks: seq<BasicBlock>, j: nat, i: nat)
    requires j < i < |blocks|
    requires blocks[j].draft.id == blocks[i].draft.id || blocks[j].draft.name == blocks[i].draft.name
    ensures !UniqueIds(blocks)
  {
  }

  lemma NextIndexed(blocks: seq<BasicBlock>, i: nat, byId: ById)
    requires i < |blocks| && UniqueIds(blocks[..i]) && Indexes(byId, blocks[..i])
    requires blocks[i].draft.id !in byId && forall j | 0 <= j < i :: blocks[j].draft.name != blocks[i].draft.name
    ensures UniqueIds(blocks[..i + 1]) && Indexes(byId[blocks[i].draft.id := blocks[i]], blocks[..i + 1])
  {
    assert blocks[..i + 1] == blocks[..i] + [blocks[i]];
  }

  method CheckBlock(blocks: seq<BasicBlock>, byId: ById, b: BasicBlock, exit: nat) returns (ok: bool)
    requires Indexes(byId, blocks)
    ensures ok <==> BlockFits(blocks, b, exit)
  {
    var uniqueEdges: set<Edge> := {};
    for i := 0 to |b.draft.successors|
      invariant uniqueEdges == set j | 0 <= j < i :: b.draft.successors[j]
      invariant NoRepeats(b.draft.successors[..i])
      invariant forall j | 0 <= j < i :: Mirrored(blocks, b.draft, b.draft.successors[j])
    {
      var e := b.draft.successors[i];
      var mirrored := CheckMirrored(blocks, byId, b.draft, e);
      if !mirrored {
        return false;
      }
      if e in uniqueEdges {
        assert !NoRepeats(b.draft.successors);
        return false;
      }
      uniqueEdges := uniqueEdges + {e};
    }
    assert b.draft.successors[..|b.draft.successors|] == b.draft.successors;
    for i := 0 to |b.predecessors|
      invariant forall j | 0 <= j < i :: Justified(blocks, b.predecessors[j], b.draft.id)
    {
      var justified := CheckJustified(blocks, byId, b.predecessors[i], b.draft.id);
      if !justified {
        return false;
      }
    }
    ok := CheckTerminator(b.draft, exit);
  }

  method CheckMirrored(blocks: seq<BasicBlock>, byId: ById, d: Draft, e: Edge) returns (ok: bool)
    requires Indexes(byId, blocks)
    ensures ok <==> Mirrored(blocks, d, e)
  {
    if e.target == UnresolvedExit || e.target.id !in byId {
      return false;
    }
    var target := byId[e.target.id];
    ok := false;
    for j := 0 to |target.predecessors|
      invariant !ok && forall h | 0 <= h < j :: target.predecessors[h] != d.id
    {
      if target.predecessors[j] == d.id {
        var h :| 0 <= h < |blocks| && blocks[h] == target;
        return true;
      }
    }
    assert d.id !in target.predecessors;
  }

  method CheckJustified(blocks: seq<BasicBlock>, byId: ById, p: nat, id: nat) returns (ok: bool)
    requires Indexes(byId, blocks)
    ensures ok <==> Justified(blocks, p, id)
  {
    if p !in byId {
      return false;
    }
    var d := byId[p].draft;
    ok := false;
    for j := 0 to |d.successors|
      invariant !ok && forall h | 0 <= h < j :: d.successors[h].target != To(id)
    {
      if d.successors[j].target == To(id) {
        var h :| 0 <= h < |blocks| && blocks[h] == byId[p];
        assert HasEdgeTo(blocks[h].draft, id);
        return true;
      }
    }
    assert !HasEdgeTo(d, id);
  }

  method CheckTerminator(d: Draft, exit: nat) returns (ok: bool)
    ensures ok <==> FitsTerminator(d, exit)
  {
    match d.terminator
    case Branches(_) =>
      ok := CheckBranches(d.successors);
    case Loops(_) =>
      ok := CheckBranches(d.successors);
    case Returns(_) =>
      ok := |d.successors| == 1 && d.successors[0].kind == ReturnToExit && d.successors[0].target == To(exit);
    case Cases(_) =>
      if d.successors == [] {
        return false;
      }
      for i := 0 to |d.successors|
        invariant forall j | 0 <= j < i :: d.successors[j].kind.CaseArm?
      {
        if !d.successors[i].kind.CaseArm? {
          return false;
        }
      }
      ok := true;
    case FallsThrough =>
      ok := true;
  }

  method CheckBranches(es: seq<Edge>) returns (ok: bool)
    ensures ok <==> CountKind(es, TrueBranch) == 1 && CountKind(es, FalseBranch) == 1
  {
    var trueCount, falseCount := 0, 0;
    for i := 0 to |es|
      invariant trueCount == CountKind(es[..i], TrueBranch) && falseCount == CountKind(es[..i], FalseBranch)
    {
      assert es[..i + 1][..i] == es[..i];
      if es[i].kind == TrueBranch {
        trueCount := trueCount + 1;
      }
      if es[i].kind == FalseBranch {
        falseCount := falseCount + 1;
      }
    }
    assert es[..|es|] == es;
    ok := trueCount == 1 && falseCount == 1;
  }

  // -------------------------------------------------------------------------
  // Reachability by a worklist
  // -------------------------------------------------------------------------

  lemma {:induction false} TableFinds(ds: seq<Draft>, i: nat)
    requires i < |ds| && forall j, h | 0 <= j < h < |ds| :: ds[j].id != ds[h].id
    ensures ds[i].id in TableOf(ds) && TableOf(ds)[ds[i].id] == ds[i]
  {
    if i < |ds| - 1 {
      TableFinds(ds[..|ds| - 1], i);
    }
  }

  lemma {:induction false} TableOnly(ds: seq<Draft>, id: nat)
    requires id in TableOf(ds)
    ensures exists i :: 0 <= i < |ds| && ds[i].id == id && TableOf(ds)[id] == ds[i]
  {
    if ds[|ds| - 1].id != id {
      TableOnly(ds[..|ds| - 1], id);
      var i :| 0 <= i < |ds| - 1 && ds[..|ds| - 1][i].id == id && TableOf(ds)[id] == ds[..|ds| - 1][i];
      assert ds[i].id == id && TableOf(ds)[id] == ds[i];
    }
  }

  // The successors of a block have been found, or the block is waiting.
  ghost predicate Explored(t: Table, visited: set<nat>, c: nat) {
    c in t && forall e {:trigger e in t[c].successors} :: e in t[c].successors ==>
      e.target.To? && e.target.id in visited
  }

  ghost predicate TargetsIn(es: seq<Edge>, visited: set<nat>) {
    forall e | e in es :: e.target.To? && e.target.id in visited
  }

  // The block just visited has been explored, and those before still are.
  lemma NowExplored(t: Table, visited0: set<nat>, visited: set<nat>, work: seq<nat>, id: nat)
    requires id in t && visited0 <= visited && TargetsIn(t[id].successors, visited)
    requires forall v | v in visited :: v == id || v in work || (v in visited0 && Explored(t, visited0, v))
    ensures forall v | v in visited :: v in work || Explored(t, visited, v)
  {
  }

  lemma {:induction false} ClosedContains(t: Table, visited: set<nat>, b: Target, steps: seq<nat>, c: nat)
    requires Path(t, b, steps, c) && b.To? && b.id in visited
    requires forall v | v in visited :: Explored(t, visited, v)
    ensures c in visited
    decreases |steps|
  {
    if steps != [] {
      assert Explored(t, visited, b.id);
      assert t[b.id].successors[steps[0]] in t[b.id].successors;
      ClosedContains(t, visited, t[b.id].successors[steps[0]].target, steps[1..], c);
    }
  }

  lemma ReachesNext(t: Table, b: Target, c: nat, i: nat, next: nat)
    requires Reaches(t, b, c) && c in t && i < |t[c].successors| && t[c].successors[i].target == To(next)
    ensures Reaches(t, b, next)
  {
    ReachesSelf(t, next);
    ReachesVia(t, To(c), i, next);
    ReachesOn(t, b, To(c), next);
  }

  function Count(blocks: seq<BasicBlock>): set<nat> {
    set i | 0 <= i < |blocks| :: blocks[i].draft.id
  }

  lemma {:induction false} AsManyIds(blocks: seq<BasicBlock>)
    requires forall i, j | 0 <= i < j < |blocks| :: blocks[i].draft.id != blocks[j].draft.id
    ensures |Count(blocks)| == |blocks|
  {
    if blocks != [] {
      var n := |blocks| - 1;
      AsManyIds(blocks[..n]);
      assert Count(blocks) == Count(blocks[..n]) + {blocks[n].draft.id};
    }
  }

  // The index agrees with the table, and edges stay inside it.
  ghost predicate Agrees(t: Table, byId: ById) {
    forall id {:trigger id in byId} :: id in byId ==>
      id in t && t[id] == byId[id].draft && StaysInside(byId, t[id])
  }

  ghost predicate StaysInside(byId: ById, d: Draft) {
    forall e {:trigger e in d.successors} :: e in d.successors ==> e.target.To? && e.target.id in byId
  }

  method CheckReachable(g: Graph, byId: ById) returns (ok: bool)
    requires Indexes(byId, g.blocks) && UniqueIds(g.blocks) && g.entry in byId
    requires forall i | 0 <= i < |g.blocks| :: BlockFits(g.blocks, g.blocks[i], g.exit)
    ensures ok <==> forall i | 0 <= i < |g.blocks| ::
      Reaches(TableOf(Drafts(g.blocks)), To(g.entry), g.blocks[i].draft.id)
  {
    ghost var t := TableOf(Drafts(g.blocks));
    IndexIsTable(g.blocks, byId);
    var visited := Explore(byId, g.entry, t);
    AsManyIds(g.blocks);
    SameKeys(g.blocks, byId);
    if visited != byId.Keys {
      SubsetIsSmaller(visited, byId.Keys);
      var id :| id in byId && id !in visited;
      var i :| 0 <= i < |g.blocks| && g.blocks[i] == byId[id];
      assert !Reaches(t, To(g.entry), g.blocks[i].draft.id);
    }
    ok := |visited| == |g.blocks|;
  }

  lemma SameKeys(blocks: seq<BasicBlock>, byId: ById)
    requires Indexes(byId, blocks)
    ensures Count(blocks) == byId.Keys
  {
    forall id | id in byId
      ensures id in Count(blocks)
    {
      var i :| 0 <= i < |blocks| && blocks[i] == byId[id];
    }
  }

  method Explore(byId: ById, entry: nat, ghost t: Table) returns (visited: set<nat>)
    requires entry in byId && Agrees(t, byId)
    ensures visited <= byId.Keys
    ensures forall v {:trigger v in visited} :: v in visited <==> Reaches(t, To(entry), v)
  {
    visited := {entry};
    var work := [entry];
    ReachesSelf(t, entry);
    while work != []
      invariant entry in visited && visited <= byId.Keys
      invariant forall v | v in work :: v in visited
      invariant forall v {:trigger v in visited} | v in visited :: Reaches(t, To(entry), v)
      invariant forall v {:trigger v in visited} | v in visited :: v in work || Explored(t, visited, v)
      decreases |byId.Keys - visited|, |work|
    {
      var id := work[0];
      visited, work := Visit(byId[id].draft.successors, byId, visited, work[1..], t, entry, id);
    }
    forall v | Reaches(t, To(entry), v)
      ensures v in visited
    {
      var steps :| Path(t, To(entry), steps, v);
      ClosedContains(t, visited, To(entry), steps, v);
    }
  }

  lemma IndexIsTable(blocks: seq<BasicBlock>, byId: ById)
    requires Indexes(byId, blocks) && UniqueIds(blocks)
    requires forall i | 0 <= i < |blocks| :: forall j | 0 <= j < |blocks[i].draft.successors| ::
      Mirrored(blocks, blocks[i].draft, blocks[i].draft.successors[j])
    ensures Agrees(TableOf(Drafts(blocks)), byId)
  {
    forall id | id in byId
      ensures var t := TableOf(Drafts(blocks)); id in t && t[id] == byId[id].draft && StaysInside(byId, t[id])
    {
      var i :| 0 <= i < |blocks| && blocks[i] == byId[id];
      TableFinds(Drafts(blocks), i);
      forall e | e in blocks[i].draft.successors
        ensures e.target.To? && e.target.id in byId
      {
        var j :| 0 <= j < |blocks[i].draft.successors| && blocks[i].draft.successors[j] == e;
        assert Mirrored(blocks, blocks[i].draft, blocks[i].draft.successors[j]);
      }
    }
  }

  // The inner loop: each successor not seen before is put in the queue.
  method Visit(es: seq<Edge>, byId: ById, visited0: set<nat>, work0: seq<nat>, ghost t: Table, ghost entry: nat,
      ghost id: nat) returns (visited: set<nat>, work: seq<nat>)
    requires id in t && t[id].successors == es && Reaches(t, To(entry), id)
    requires forall e | e in es :: e.target.To? && e.target.id in byId
    requires id in visited0 && visited0 <= byId.Keys
    requires forall v | v in work0 :: v in visited0
    requires forall v | v in visited0 :: Reaches(t, To(entry), v)
    requires forall v | v in visited0 :: v == id || v in work0 || Explored(t, visited0, v)
    ensures visited0 <= visited <= byId.Keys
    ensures forall v | v in work :: v in visited
    ensures forall v | v in visited :: Reaches(t, To(entry), v)
    ensures forall v | v in visited :: v in work || Explored(t, visited, v)
    ensures (visited == visited0 && work == work0) || |byId.Keys - visited| < |byId.Keys - visited0|
  {
    hide Reaches, Explored;
    visited, work := visited0, work0;
    for i := 0 to |es|
      invariant visited0 <= visited <= byId.Keys
      invariant forall v | v in work :: v in visited
      invariant forall v | v in work0 :: v in work
      invariant forall v | v in visited :: Reaches(t, To(entry), v)
      invariant forall v | v in visited :: v == id || v in work || (v in visited0 && Explored(t, visited0, v))
      invariant TargetsIn(es[..i], visited)
      invariant visited == visited0 ==> work == work0
    {
      var next := es[i].target.id;
      assert es[i] in es && es[..i + 1] == es[..i] + [es[i]];
      if next !in visited {
        ReachesNext(t, To(entry), id, i, next);
        visited := visited + {next};
        work := work + [next];
      }
    }
    assert es[..|es|] == es;
    NowExplored(t, visited0, visited, work, id);
    if visited != visited0 {
      SubsetIsSmaller(byId.Keys - visited, byId.Keys - visited0);
    }
  }
}
