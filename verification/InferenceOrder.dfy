/** The order in which functions are inferred: callees first, and only functions that
    neither are recursive nor call recursive ones. */
module InferenceOrder {

  // vertices without repetition, and whom each calls.
  datatype CallGraph = CallGraph(vertices: seq<nat>, callees: map<nat, seq<nat>>)

  predicate IsGraph(cg: CallGraph) {
    && (forall i, j | 0 <= i < j < |cg.vertices| :: cg.vertices[i] != cg.vertices[j])
    && (forall f | f in cg.vertices :: f in cg.callees && forall c | c in cg.callees[f] :: c in cg.vertices)
  }

  predicate CallsDirectly(cg: CallGraph, f: nat, g: nat) {
    f in cg.vertices && f in cg.callees && g in cg.callees[f]
  }

  // A chain of one call or more; between holds the functions on the way.
  ghost predicate Chain(cg: CallGraph, f: nat, g: nat, between: seq<nat>)
    decreases |between|
  {
    if between == [] then CallsDirectly(cg, f, g)
    else CallsDirectly(cg, f, between[0]) && Chain(cg, between[0], g, between[1..])
  }

  ghost predicate CallsIndirectly(cg: CallGraph, f: nat, g: nat) {
    exists between :: Chain(cg, f, g, between)
  }

  ghost predicate Recursive(cg: CallGraph, f: nat) {
    CallsIndirectly(cg, f, f)
  }

  // f is on no cycle of calls and reaches none.
  ghost predicate Plain(cg: CallGraph, f: nat) {
    !Recursive(cg, f) && forall r :: CallsIndirectly(cg, f, r) ==> !Recursive(cg, r)
  }

  lemma DirectIsIndirect(cg: CallGraph, f: nat, g: nat)
    requires CallsDirectly(cg, f, g)
    ensures CallsIndirectly(cg, f, g)
  {
    assert Chain(cg, f, g, []);
  }

  lemma {:induction false} ChainJoins(cg: CallGraph, f: nat, g: nat, h: nat, fg: seq<nat>, gh: seq<nat>)
    requires Chain(cg, f, g, fg) && Chain(cg, g, h, gh)
    ensures CallsIndirectly(cg, f, h)
    decreases |fg|
  {
    if fg == [] {
      assert ([g] + gh)[1..] == gh;
      assert Chain(cg, f, h, [g] + gh);
    } else {
      ChainJoins(cg, fg[0], g, h, fg[1..], gh);
      var rest :| Chain(cg, fg[0], h, rest);
      assert ([fg[0]] + rest)[1..] == rest;
      assert Chain(cg, f, h, [fg[0]] + rest);
    }
  }

  lemma IndirectJoins(cg: CallGraph, f: nat, g: nat, h: nat)
    requires CallsIndirectly(cg, f, g) && CallsIndirectly(cg, g, h)
    ensures CallsIndirectly(cg, f, h)
  {
    var fg :| Chain(cg, f, g, fg);
    var gh :| Chain(cg, g, h, gh);
    ChainJoins(cg, f, g, h, fg, gh);
  }

  // A plain function calls only plain functions.
  lemma PlainCallees(cg: CallGraph, f: nat, c: nat)
    requires Plain(cg, f) && CallsDirectly(cg, f, c)
    ensures Plain(cg, c)
  {
    DirectIsIndirect(cg, f, c);
    forall r | CallsIndirectly(cg, c, r)
      ensures !Recursive(cg, r)
    {
      IndirectJoins(cg, f, c, r);
    }
  }

  // -------------------------------------------------------------------------
  // Is there a chain of calls?
  // -------------------------------------------------------------------------

  // x has been explored in vain: it does not call g, and whom it calls was visited.
  ghost predicate InVain(cg: CallGraph, g: nat, visited: set<nat>, x: nat) {
    forall c :: CallsDirectly(cg, x, c) ==> c != g && c in visited
  }

  method MayIndirectlyCallHelper(cg: CallGraph, f: nat, g: nat, visited0: set<nat>)
      returns (found: bool, visited: set<nat>)
    requires IsGraph(cg) && f in cg.vertices && visited0 <= set v | v in cg.vertices
    ensures visited0 <= visited <= set v | v in cg.vertices
    ensures found ==> CallsIndirectly(cg, f, g)
    ensures !found ==> f in visited
    ensures !found ==>
      forall x {:trigger InVain(cg, g, visited, x)} :: x in visited && x !in visited0 ==> InVain(cg, g, visited, x)
    decreases (set v | v in cg.vertices) - visited0
  {
    visited := visited0;
    if f in visited {
      return false, visited;
    }
    visited := visited + {f};
    var callees := cg.callees[f];
    for i := 0 to |callees|
      invariant visited0 + {f} <= visited <= set v | v in cg.vertices
      invariant forall j | 0 <= j < i :: callees[j] != g && callees[j] in visited
      invariant forall x {:trigger InVain(cg, g, visited, x)} :: x in visited && x !in visited0 && x != f ==>
        InVain(cg, g, visited, x)
    {
      var c := callees[i];
      assert CallsDirectly(cg, f, c);
      DirectIsIndirect(cg, f, c);
      if c == g {
        return true, visited;
      }
      ghost var before := visited;
      found, visited := MayIndirectlyCallHelper(cg, c, g, visited);
      if found {
        IndirectJoins(cg, f, c, g);
        return;
      }
      forall x | x in before && x !in visited0 && x != f
        ensures InVain(cg, g, visited, x)
      {
        assert InVain(cg, g, before, x);
      }
    }
    found := false;
  }

  lemma {:induction false} NoChain(cg: CallGraph, f: nat, g: nat, visited: set<nat>, between: seq<nat>)
    requires f in visited && forall x | x in visited :: InVain(cg, g, visited, x)
    ensures !Chain(cg, f, g, between)
    decreases |between|
  {
    assert InVain(cg, g, visited, f);
    if between != [] && CallsDirectly(cg, f, between[0]) {
      NoChain(cg, between[0], g, visited, between[1..]);
    }
  }

  method MayIndirectlyCall(cg: CallGraph, f: nat, g: nat) returns (found: bool)
    requires IsGraph(cg) && f in cg.vertices
    ensures found <==> CallsIndirectly(cg, f, g)
  {
    var visited;
    found, visited := MayIndirectlyCallHelper(cg, f, g, {});
    if !found {
      forall between
        ensures !Chain(cg, f, g, between)
      {
        NoChain(cg, f, g, visited, between);
      }
    }
  }

  method RecursiveFuncs(cg: CallGraph) returns (rs: seq<nat>)
    requires IsGraph(cg)
    ensures forall f :: f in rs <==> f in cg.vertices && Recursive(cg, f)
  {
    rs := [];
    for i := 0 to |cg.vertices|
      invariant forall f :: f in rs <==> f in cg.vertices[..i] && Recursive(cg, f)
    {
      var f := cg.vertices[i];
      assert cg.vertices[..i + 1] == cg.vertices[..i] + [f];
      var found := MayIndirectlyCall(cg, f, f);
      if found {
        rs := rs + [f];
      }
    }
    assert cg.vertices[..|cg.vertices|] == cg.vertices;
  }

  lemma {:induction false} ChainEnds(cg: CallGraph, f: nat, g: nat, between: seq<nat>)
    requires IsGraph(cg) && Chain(cg, f, g, between)
    ensures f in cg.vertices && g in cg.vertices
    decreases |between|
  {
    if between != [] {
      ChainEnds(cg, between[0], g, between[1..]);
    }
  }

  // Whether f is, or calls, one of the recursive functions.
  method Filtered(cg: CallGraph, f: nat, rs: seq<nat>) returns (filter: bool)
    requires IsGraph(cg) && f in cg.vertices
    requires forall r :: r in rs <==> r in cg.vertices && Recursive(cg, r)
    ensures filter <==> !Plain(cg, f)
  {
    filter := false;
    for i := 0 to |rs|
      invariant !filter
      invariant forall j | 0 <= j < i :: f != rs[j] && !CallsIndirectly(cg, f, rs[j])
    {
      assert rs[i] in rs;
      if f == rs[i] {
        filter := true;
      } else {
        filter := MayIndirectlyCall(cg, f, rs[i]);
      }
      if filter {
        return;
      }
    }
    forall r | r in rs
      ensures !CallsIndirectly(cg, f, r)
    {
      var j :| 0 <= j < |rs| && rs[j] == r;
    }
    forall r | CallsIndirectly(cg, f, r)
      ensures !Recursive(cg, r)
    {
      var between :| Chain(cg, f, r, between);
      ChainEnds(cg, f, r, between);
    }
  }

  // -------------------------------------------------------------------------
  // Sorting
  // -------------------------------------------------------------------------

  predicate NoRepeats(s: seq<nat>) {
    forall i, j | 0 <= i < j < |s| :: s[i] != s[j]
  }

  // Everyone a listed function calls is listed before it.
  ghost predicate CalleesFirst(cg: CallGraph, s: seq<nat>) {
    forall i, c {:trigger CallsDirectly(cg, s[i], c)} | 0 <= i < |s| && CallsDirectly(cg, s[i], c) :: c in s[..i]
  }

  class TopoSorter {
    const cg: CallGraph
    var sorted: seq<nat>
    var unmarked: seq<nat>

    // Each function is still unmarked, or being visited, or sorted.
    ghost predicate Progress(funcs: set<nat>, active: set<nat>)
      reads this
    {
      && IsGraph(cg)
      && (forall f | f in funcs :: f in cg.vertices && Plain(cg, f))
      && (forall f, c | f in funcs && CallsDirectly(cg, f, c) :: c in funcs)
      && NoRepeats(sorted) && NoRepeats(unmarked) && CalleesFirst(cg, sorted)
      && (forall f {:trigger f in sorted} {:trigger f in unmarked} :: f in unmarked || f in sorted || f in active <==>
        f in funcs)
      && (forall f {:trigger f in sorted} :: f in sorted ==> f !in unmarked && f !in active)
      && (forall f {:trigger f in active} :: f in active ==> f !in unmarked)
    }

    constructor (cg: CallGraph)
      ensures this.cg == cg && sorted == [] && unmarked == []
    {
      this.cg, sorted, unmarked := cg, [], [];
    }

    method Unmark(f: nat)
      requires f in unmarked && NoRepeats(unmarked)
      modifies this`unmarked
      ensures NoRepeats(unmarked) && |unmarked| < |old(unmarked)|
      ensures forall x :: x in unmarked <==> x in old(unmarked) && x != f
    {
      var position := 0;
      while unmarked[position] != f
        invariant position < |unmarked| && f in unmarked[position..]
        decreases |unmarked| - position
      {
        assert unmarked[position..] == [unmarked[position]] + unmarked[position + 1..];
        position := position + 1;
      }
      ghost var before := unmarked;
      unmarked := unmarked[..position] + unmarked[position + 1..];
      assert before == before[..position] + [f] + before[position + 1..];
      forall x
        ensures x in unmarked <==> x in before && x != f
      {
        if x in before && x != f {
          var k :| 0 <= k < |before| && before[k] == x;
          assert unmarked[if k < position then k else k - 1] == x;
        }
      }
    }

    // Depth first; active holds the visits under way, all of which lead to f.
    method TopoVisit(f: nat, ghost funcs: set<nat>, ghost active: set<nat>)
      requires Progress(funcs, active) && f in funcs
      requires forall a | a in active :: CallsIndirectly(cg, a, f)
      modifies this`sorted, this`unmarked
      ensures Progress(funcs, active) && f in sorted
      ensures old(sorted) <= sorted
      ensures |unmarked| <= |old(unmarked)|
      ensures f in old(unmarked) ==> |unmarked| < |old(unmarked)|
      decreases |unmarked|
    {
      if f !in unmarked {
        assert f !in active by {
          assert Plain(cg, f);
        }
        return;
      }
      Unmark(f);
      ghost var visiting := active + {f};
      var callees := cg.callees[f];
      for i := 0 to |callees|
        invariant Progress(funcs, visiting)
        invariant old(sorted) <= sorted && |unmarked| < |old(unmarked)|
        invariant forall j | 0 <= j < i :: callees[j] in sorted
      {
        var c := callees[i];
        assert CallsDirectly(cg, f, c);
        DirectIsIndirect(cg, f, c);
        forall a | a in visiting
          ensures CallsIndirectly(cg, a, c)
        {
          if a != f {
            IndirectJoins(cg, a, f, c);
          }
        }
        ghost var sorted0 := sorted;
        TopoVisit(c, funcs, visiting);
        assert forall j | 0 <= j < i :: callees[j] in sorted0;
      }
      SortedMore(cg, sorted, f);
      sorted := sorted + [f];
    }

    method TopoSort(funcs: seq<nat>) returns (order: seq<nat>)
      requires IsGraph(cg) && NoRepeats(funcs)
      requires forall f | f in funcs :: f in cg.vertices && Plain(cg, f)
      requires forall f, c | f in funcs && CallsDirectly(cg, f, c) :: c in funcs
      modifies this
      ensures NoRepeats(order) && CalleesFirst(cg, order)
      ensures forall f :: f in order <==> f in funcs
    {
      sorted, unmarked := [], funcs;
      ghost var all := set f | f in funcs;
      while unmarked != []
        invariant Progress(all, {})
        decreases |unmarked|
      {
        var f := unmarked[|unmarked| - 1];
        assert f in unmarked;
        TopoVisit(f, all, {});
      }
      order := sorted;
    }
  }

  lemma SortedMore(cg: CallGraph, s: seq<nat>, f: nat)
    requires NoRepeats(s) && CalleesFirst(cg, s) && f !in s
    requires forall c | CallsDirectly(cg, f, c) :: c in s
    ensures NoRepeats(s + [f]) && CalleesFirst(cg, s + [f])
  {
    var s' := s + [f];
    forall i, c | 0 <= i < |s'| && CallsDirectly(cg, s'[i], c)
      ensures c in s'[..i]
    {
      if i < |s| {
        assert s'[i] == s[i] && s'[..i] == s[..i];
      } else {
        assert s'[..i] == s;
      }
    }
  }

  // Exactly the functions that neither are on a cycle of calls nor reach one, each
  // once, and every callee before its callers.
  method TopoSortNonRecursive(cg: CallGraph) returns (order: seq<nat>)
    requires IsGraph(cg)
    ensures NoRepeats(order) && CalleesFirst(cg, order)
    ensures forall f :: f in order <==> f in cg.vertices && Plain(cg, f)
  {
    var rs := RecursiveFuncs(cg);
    var plain: seq<nat> := [];
    for i := 0 to |cg.vertices|
      invariant forall f :: f in plain <==> f in cg.vertices[..i] && Plain(cg, f)
      invariant NoRepeats(plain)
    {
      var f := cg.vertices[i];
      assert cg.vertices[..i + 1] == cg.vertices[..i] + [f];
      var filter := Filtered(cg, f, rs);
      if !filter {
        plain := plain + [f];
      }
    }
    assert cg.vertices[..|cg.vertices|] == cg.vertices;
    forall f, c | f in plain && CallsDirectly(cg, f, c)
      ensures c in plain
    {
      PlainCallees(cg, f, c);
    }
    var sorter := new TopoSorter(cg);
    order := sorter.TopoSort(plain);
  }
}
