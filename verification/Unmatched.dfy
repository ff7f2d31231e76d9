/** A match none of whose arms matches, in the code as generated. */
module Unmatched {
  import opened Optional
  import opened Syntax
  import opened Heap
  import opened Moves
  import opened Static
  import opened Facts
  import opened Machine
  import opened Ownership
  import opened Running
  import opened Steps
  import opened Matching
  import opened Safety
  import opened Roots
  import opened Watching

  // Trying the arms changes nothing, and control reaches the merge.
  lemma {:induction false} NoArmRuns(w: World, arms: List<Arm>, owner: Name, byValue: bool, sc: Scope, st: StateMap,
      s: State, v: Value, fuel: nat)
    requires w.watch && s.frames != []
    requires TypedArms(w.p, w.tys, arms, owner, byValue, sc)
    requires AnalyzeArms(w.p, w.tys, arms, byValue, st).Some?
    requires Tree(w.p.ctors, s.heap, v, TSum(owner))
    requires !SomeArm(arms, ShapeOf(s.heap, v))
    ensures var code := AnalyzeArms(w.p, w.tys, arms, byValue, st).value.1;
      && ExecArms(Real(w), code, byValue, v.a, s, fuel) == Done((), s)
      && ExecArms(w, code, byValue, v.a, s, fuel) == Strays(NoArm)
    decreases arms
  {
    if arms.Cons? {
      var box := s.heap[v.a];
      assert TypedArm(w.p, w.tys, arms.head, owner, byValue, sc);
      if arms.head.tag == box.tag {
        TestsDecide(w.p, s.heap, box.fields, arms.head.pats, w.p.ctors[box.tag].params, v.a);
      }
      NoArmRuns(w, arms.tail, owner, byValue, sc, st, s, v, fuel);
    }
  }

  // The cells of a consumed value but its box; a borrowed match owns none.
  ghost function Left(h: Memory, v: Value, byValue: bool): set<nat> {
    if byValue && v.PtrV? then Cells(h, v) - {v.a} else {}
  }

  // The payloads a consumed box held when it was freed.
  ghost function LeftBehind(h: Memory, v: Value, byValue: bool): set<Value> {
    if byValue && v.PtrV? && v.a in h && h[v.a].Box? then Pointers(h[v.a].fields) else {}
  }

  ghost function Held(f: Frame, own: set<Name>): set<Value> {
    set x | x in own && x in f :: f[x]
  }

  // The variables own hold, each one of its own and of its type, exactly the
  // pointers that the variables before held and those left behind.
  ghost predicate Repossessed(w: World, own: set<Name>, before: set<Name>, s: State, left: set<Value>)
    requires s.frames != []
  {
    var f := Top(s);
    && (forall x | x in own :: x in f && IsOwnVar(w.tys, x) && RootTyped(w.p.ctors, s.heap, f[x], w.tys[x]))
    && (forall x, y | x in own && y in own && x != y :: f[x] != f[y])
    && Held(f, own) == Held(f, before) + left
  }

  // What the variables own hold, as a family.
  lemma {:induction false} OwnersAreFamily(cs: map<Name, Ctor>, tys: map<Name, Ty>, h: Memory, f: Frame, own: set<Name>,
      others: set<nat>)
    requires Owns(cs, tys, h, f, own, others)
    ensures Family(cs, h, Held(f, own)) && AllCells(h, Held(f, own)) == CellsOwned(h, f, own)
    ensures forall x, y | x in own && y in own && x != y :: f[x] != f[y]
    ensures forall x | x in own :: RootTyped(cs, h, f[x], tys[x])
  {
    forall x, y | x in own && y in own && x != y
      ensures f[x] != f[y]
    {
      assert f[x].a in Cells(h, f[x]) && f[y].a in Cells(h, f[y]);
    }
    assert forall x | x in own :: f[x] in Held(f, own);
  }

  lemma {:induction false} FamilyOwns(cs: map<Name, Ctor>, tys: map<Name, Ty>, h: Memory, f: Frame, own: set<Name>,
      others: set<nat>)
    requires Family(cs, h, Held(f, own)) && h.Keys == others + AllCells(h, Held(f, own)) &&
      others !! AllCells(h, Held(f, own))
    requires forall x | x in own :: x in f && IsOwnVar(tys, x) && RootTyped(cs, h, f[x], tys[x])
    requires forall x, y | x in own && y in own && x != y :: f[x] != f[y]
    ensures Owns(cs, tys, h, f, own, others)
  {
    forall x | x in own
      ensures Tree(cs, h, f[x], tys[x]) && f[x] in Held(f, own)
    {
      assert f[x] in Held(f, own);
      RootDecides(cs, h, f[x], tys[x]);
    }
    assert CellsOwned(h, f, own) == AllCells(h, Held(f, own));
  }

  lemma {:induction false} FamilyJoin(cs: map<Name, Ctor>, h: Memory, us: set<Value>, vs: set<Value>)
    requires Family(cs, h, us) && Family(cs, h, vs) && AllCells(h, us) !! AllCells(h, vs)
    ensures Family(cs, h, us + vs) && AllCells(h, us + vs) == AllCells(h, us) + AllCells(h, vs)
  {
    forall u, v | u in us + vs && v in us + vs && u != v
      ensures Cells(h, u) !! Cells(h, v)
    {
      assert u in us ==> Cells(h, u) <= AllCells(h, us);
      assert u in vs ==> Cells(h, u) <= AllCells(h, vs);
      assert v in us ==> Cells(h, v) <= AllCells(h, us);
      assert v in vs ==> Cells(h, v) <= AllCells(h, vs);
    }
  }

  // The cells of the owners before and of the family left are owned by the
  // variables own exactly when these have taken all of them over.
  lemma {:induction false} TakenOverExactly(w: World, sc: Scope, before: set<Name>, own: set<Name>, s: State,
      lent: set<nat>, flight: set<nat>, left: set<Value>)
    requires Inv(w, sc, before, s, lent, flight + AllCells(s.heap, left))
    requires Family(w.p.ctors, s.heap, left) && AllCells(s.heap, left) !! lent + flight
    ensures Inv(w, sc, own, s, lent, flight) <==> Repossessed(w, own, before, s, left)
  {
    hide Copies;
    var cs, h, f := w.p.ctors, s.heap, Top(s);
    OwnersAreFamily(cs, w.tys, h, f, before, lent + (flight + AllCells(h, left)));
    FamilyJoin(cs, h, Held(f, before), left);
    if Inv(w, sc, own, s, lent, flight) {
      OwnersAreFamily(cs, w.tys, h, f, own, lent + flight);
      assert AllCells(h, Held(f, own)) == AllCells(h, Held(f, before) + left);
      SameRoots(cs, h, Held(f, own), Held(f, before) + left);
    }
    if Repossessed(w, own, before, s, left) {
      FamilyOwns(cs, w.tys, h, f, own, lent + flight);
      NoOwnerIsAlias(w, sc, own, s, lent, flight);
    }
  }

  lemma NoOwnerIsAlias(w: World, sc: Scope, own: set<Name>, s: State, lent: set<nat>, flight: set<nat>)
    requires s.frames != [] && Copies(w, sc, s, lent)
    requires Owns(w.p.ctors, w.tys, s.heap, Top(s), own, lent + flight)
    ensures own <= sc.names && own !! sc.aliases
  {
    forall x | x in own
      ensures x !in sc.aliases
    {
      assert Top(s)[x].a in Cells(s.heap, Top(s)[x]) && Cells(s.heap, Top(s)[x]) <= CellsOwned(s.heap, Top(s), own);
    }
  }

  // No variable but an owner still holds the address of a live cell.
  predicate NoStale(s: State, names: set<Name>)
    requires s.frames != []
  {
    forall x | x in names && x in Top(s) :: Top(s)[x].PtrV? ==> Top(s)[x].a !in s.heap
  }

  lemma {:induction false} FreshOwnersExactly(w: World, sc: Scope, before: set<Name>, own: set<Name>, s: State,
      lent: set<nat>, flight: set<nat>, left: set<Value>)
    requires Inv(w, sc, before, s, lent, flight + AllCells(s.heap, left))
    requires Family(w.p.ctors, s.heap, left) && AllCells(s.heap, left) !! lent + flight
    requires NoStale(s, own - before)
    ensures Inv(w, sc, own, s, lent, flight) <==> own == before && left == {}
  {
    hide Copies;
    var h, f := s.heap, Top(s);
    if Inv(w, sc, own, s, lent, flight) {
      assert own <= before by {
        forall x | x in own
          ensures x in before
        {
          assert Tree(w.p.ctors, h, f[x], w.tys[x]);
        }
      }
      forall x | x in before
        ensures x in own
      {
        assert f[x].a in Cells(h, f[x]) && f[x].a in CellsOwned(h, f, before);
        assert f[x].a in CellsOwned(h, f, own);
        var y :| y in own && y in f && f[x].a in Cells(h, f[y]);
        assert x == y;
      }
      assert own == before;
      assert AllCells(h, left) == {};
      NoCellsNoValues(w.p.ctors, h, left);
    }
    assert left == {} ==> flight + AllCells(h, left) == flight;
  }

  // Its payloads are what a consumed value leaves behind when its box is freed.
  lemma {:induction false} LeftIsFamily(w: World, s: State, v: Value, owner: Name, byValue: bool)
    requires Tree(w.p.ctors, s.heap, v, TSum(owner))
    ensures var h, left := if byValue then Release(v, s).heap else s.heap, LeftBehind(s.heap, v, byValue);
      Family(w.p.ctors, h, left) && AllCells(h, left) == Left(s.heap, v, byValue)
  {
    if byValue {
      var h, fields, params := Release(v, s).heap, s.heap[v.a].fields, w.p.ctors[s.heap[v.a].tag].params;
      CellsOfLive(s.heap, fields, v.a);
      ForestFrame(w.p.ctors, s.heap, h, fields, params, v.a);
      PayloadsAreFamily(w.p.ctors, h, fields, params, v.a);
    }
  }

  // What a case that no arm takes does: the scrutinee is evaluated, its box is
  // freed if it is consumed, the variables own that owned before the arms, and
  // the payloads of a consumed value are live and held by nobody.
  lemma {:induction false} UnmatchedRuns(w: World, e: Expr, arms: List<Arm>, sc: Scope, st: StateMap, d: set<Name>,
      s: State, lent: set<nat>, flight: set<nat>, fuel: nat)
    requires Ready(w, sc, st, d, s, lent, flight)
    requires WfStmt(w.p, w.tys, Case(e, arms), sc, d)
    requires AnalyzeStmt(w.p, w.tys, Case(e, arms), st).Some?
    requires var v := Eval(w, e, s, fuel); v.Done? && !SomeArm(arms, ShapeOf(v.s.heap, v.value))
    ensures var code, v := AnalyzeStmt(w.p, w.tys, Case(e, arms), st).value.code, Eval(w, e, s, fuel);
      var r, byValue := Exec(Real(w), code, s, fuel), Consuming(e);
      && r.Done? && r.s == (if byValue then Release(v.value, v.s) else v.s)
      && Inv(w, sc, OwnedIn(Take(w.p, w.tys, e, st).value), r.s, lent, flight + Left(v.s.heap, v.value, byValue))
      && Left(v.s.heap, v.value, byValue) !! lent + flight
      && Stable(s, r.s, |s.frames| - 1, lent + flight)
  {
    hide Owns, Copies, Lends;
    var byValue := Consuming(e);
    var owner := TypeOf(w.p, w.tys, sc, e, if byValue then Taken else Place).value.name;
    var st1, v := Take(w.p, w.tys, e, st).value, Eval(w, e, s, fuel);
    ScrutineeSafe(w, e, owner, sc, st, d, s, lent, flight, fuel);
    EvalFollows(w, e, s, fuel);
    NoArmRuns(w, arms, owner, byValue, sc, st1, v.s, v.value, fuel);
    Merged(w, sc, OwnedIn(st1), s, v.s, lent, flight, v.value, owner, byValue);
  }

  // From the scrutinee straight to the merge.
  lemma {:induction false} Merged(w: World, sc: Scope, own: set<Name>, s: State, s1: State, lent: set<nat>,
      flight: set<nat>, v: Value, owner: Name, byValue: bool)
    requires s.frames != [] && Stable(s, s1, |s.frames| - 1, lent + flight)
    requires Scrutinised(w, sc, own, s1, lent, flight, v, owner, byValue)
    ensures var s2 := if byValue then Release(v, s1) else s1;
      && Inv(w, sc, own, s2, lent, flight + Left(s1.heap, v, byValue))
      && Left(s1.heap, v, byValue) !! lent + flight
      && Stable(s, s2, |s.frames| - 1, lent + flight)
  {
    hide Owns, Copies, Lends;
    var left := Left(s1.heap, v, byValue);
    CellsLive(s1.heap, v);
    if byValue {
      assert flight + Cells(s1.heap, v) == (flight + left) + {v.a};
      FreeInFlight(w, sc, own, s1, lent, flight + left, v.a);
      StableTrans(s, s1, Release(v, s1), |s.frames| - 1, lent + flight);
    } else {
      assert flight + left == flight;
    }
  }

  // When a case keeps what the analysis says of the owners after it, however it
  // went: if and only if some arm matched, or the variables said to own have by
  // chance taken over all that was held before the arms and all that was left.
  lemma {:induction false} CaseKeepsOwnersExactly(w: World, e: Expr, arms: List<Arm>, sc: Scope, st: StateMap,
      d: set<Name>, s: State, lent: set<nat>, flight: set<nat>, fuel: nat)
    requires Ready(w, sc, st, d, s, lent, flight)
    requires WfStmt(w.p, w.tys, Case(e, arms), sc, d)
    requires AnalyzeStmt(w.p, w.tys, Case(e, arms), st).Some?
    requires Eval(w, e, s, fuel).Done?
    requires var code, v := AnalyzeStmt(w.p, w.tys, Case(e, arms), st).value.code, Eval(w, e, s, fuel);
      SomeArm(arms, ShapeOf(v.s.heap, v.value)) ==> Exec(w, code, s, fuel).Done?
    ensures var a, v := AnalyzeStmt(w.p, w.tys, Case(e, arms), st).value, Eval(w, e, s, fuel);
      var r, before := Exec(Real(w), a.code, s, fuel), OwnedIn(Take(w.p, w.tys, e, st).value);
      var left := LeftBehind(v.s.heap, v.value, Consuming(e));
      && r.Done?
      && (Ran(w, sc, OwnedIn(a.st), s, r.s, lent, flight) <==>
          SomeArm(arms, ShapeOf(v.s.heap, v.value)) || Repossessed(w, OwnedIn(a.st), before, r.s, left))
      && (NoStale(r.s, OwnedIn(a.st) - before) ==>
          (Ran(w, sc, OwnedIn(a.st), s, r.s, lent, flight) <==>
           SomeArm(arms, ShapeOf(v.s.heap, v.value)) || (OwnedIn(a.st) == before && left == {})))
  {
    hide Owns, Copies, Lends, Exec, Eval, SomeArm, ShapeOf, Repossessed, NoStale, LeftBehind;
    var a, v := AnalyzeStmt(w.p, w.tys, Case(e, arms), st).value, Eval(w, e, s, fuel);
    if SomeArm(arms, ShapeOf(v.s.heap, v.value)) {
      CaseSafe(w, e, arms, sc, st, d, s, lent, flight, fuel);
      ExecFollows(w, a.code, s, fuel);
    } else {
      var before, left := OwnedIn(Take(w.p, w.tys, e, st).value), LeftBehind(v.s.heap, v.value, Consuming(e));
      var owner := TypeOf(w.p, w.tys, sc, e, if Consuming(e) then Taken else Place).value.name;
      UnmatchedRuns(w, e, arms, sc, st, d, s, lent, flight, fuel);
      ScrutineeSafe(w, e, owner, sc, st, d, s, lent, flight, fuel);
      LeftIsFamily(w, v.s, v.value, owner, Consuming(e));
      var r := Exec(Real(w), a.code, s, fuel);
      TakenOverExactly(w, sc, before, OwnedIn(a.st), r.s, lent, flight, left);
      if NoStale(r.s, OwnedIn(a.st) - before) {
        FreshOwnersExactly(w, sc, before, OwnedIn(a.st), r.s, lent, flight, left);
      }
    }
  }
}
