/** A consuming arm that binds an owner twice, in the code as generated. */
module Repeats {
  import opened Optional
  import opened Syntax
  import opened Heap
  import opened Moves
  import opened Static
  import opened Facts
  import opened Machine
  import opened Ownership
  import opened Running
  import opened Steps
  import opened Frames
  import opened Matching
  import opened Arms
  import opened Safety
  import opened Watching

  // Destroying frees; it never allocates.
  lemma {:induction false} DestroyShrinks(cs: map<Name, Ctor>, h: Memory, v: Value, ty: Ty, fuel: nat)
    ensures var r := DestroyValue(cs, h, v, ty, fuel);
      r.Freed? ==> r.h.Keys <= h.Keys && (IsOwn(ty) ==> v.PtrV? && v.a !in r.h)
    decreases fuel, 1
  {
    if ty.TSum? && fuel > 0 && v.PtrV? && v.a in h && h[v.a].Box? {
      var box := h[v.a];
      DestroyPayloadsShrink(cs, h, v.a, box.fields, if box.tag in cs then cs[box.tag].params else Nil, fuel - 1);
    }
  }

  lemma {:induction false} DestroyPayloadsShrink(cs: map<Name, Ctor>, h: Memory, box: nat, vs: List<Value>,
      tys: List<Ty>, fuel: nat)
    ensures var r := DestroyPayloads(cs, h, box, vs, tys, fuel); r.Freed? ==> r.h.Keys <= h.Keys
    decreases fuel, 2, vs
  {
    if vs.Cons? && tys.Cons? {
      if !IsOwn(tys.head) {
        DestroyPayloadsShrink(cs, h, box, vs.tail, tys.tail, fuel);
      } else {
        DestroyShrinks(cs, h, vs.head, tys.head, fuel);
        var r := DestroyValue(cs, h, vs.head, tys.head, fuel);
        if r.Freed? {
          DestroyPayloadsShrink(cs, r.h, box, vs.tail, tys.tail, fuel);
        }
      }
    }
  }

  // x holds the address of a freed cell.
  predicate Gone(s: State, x: Name)
    requires s.frames != []
  {
    x in Top(s) && Top(s)[x].PtrV? && Top(s)[x].a !in s.heap
  }

  lemma GoneFails(w: World, x: Name, s: State)
    requires s.frames != [] && IsOwnVar(w.tys, x) && Gone(s, x)
    ensures !DestroyVar(w, x, s).Done?
  {
    DestroyShrinks(w.p.ctors, s.heap, Top(s)[x], w.tys[x], s.next);
  }

  lemma {:induction false} GoneNeverDone(w: World, xs: List<Name>, x: Name, s: State)
    requires s.frames != [] && x in Elems(xs) && IsOwnVar(w.tys, x) && Gone(s, x)
    ensures !DestroyVars(w, xs, s).Done?
    decreases xs
  {
    var y := xs.head;
    var r := DestroyVar(w, y, s);
    GoneFails(w, x, s);
    if r.Done? {
      DestroyShrinks(w.p.ctors, s.heap, Top(s)[y], w.tys[y], s.next);
      GoneNeverDone(w, xs.tail, x, r.s);
    }
  }

  // Destroys of which two name one owner never run to their end.
  lemma {:induction false} TwiceNeverDone(w: World, xs: List<Name>, s: State)
    requires s.frames != [] && !Distinct(xs)
    requires forall x | x in Elems(xs) :: IsOwnVar(w.tys, x)
    ensures !DestroyVars(w, xs, s).Done?
    decreases xs
  {
    var r := DestroyVar(w, xs.head, s);
    if r.Done? {
      DestroyShrinks(w.p.ctors, s.heap, Top(s)[xs.head], w.tys[xs.head], s.next);
      if xs.head in Elems(xs.tail) {
        GoneNeverDone(w, xs.tail, xs.head, r.s);
      } else {
        TwiceNeverDone(w, xs.tail, r.s);
      }
    }
  }

  lemma {:induction false} LeftTwice(bs: List<Binder>, st: StateMap)
    ensures Repeated(Names(Leftover(bs, st))) == Repeated(Names(bs)) * OwnedIn(st)
    decreases bs
  {
    if bs.Cons? {
      LeftoverIs(bs.tail, st);
      LeftTwice(bs.tail, st);
    }
  }

  // The arm's body as generated: what was analysed, then the destroys.
  lemma {:induction false} BodyThenDestroys(w: World, arm: Arm, byValue: bool, st: StateMap, s: State, fuel: nat)
    requires w.watch && s.frames != [] && AnalyzeArm(w.p, w.tys, arm, byValue, st).Some?
    requires TypedAs(w.tys, ArmOwned(arm, byValue))
    requires var a := AnalyzeStmt(w.p, w.tys, arm.body, SetOwned(st, ArmBinders(arm, byValue))).value;
      Exec(w, a.code, s, fuel).Done?
    ensures var a, code := AnalyzeStmt(w.p, w.tys, arm.body, SetOwned(st, ArmBinders(arm, byValue))).value,
        AnalyzeArm(w.p, w.tys, arm, byValue, st).value.code.body;
      var end, left := Exec(w, a.code, s, fuel).s, Names(Leftover(ArmOwned(arm, byValue), a.st));
      Exec(Real(w), code, s, fuel) == DestroyVars(w, left, end) == Exec(w, code, s, fuel)
  {
    var bs := ArmBinders(arm, byValue);
    var a := AnalyzeStmt(w.p, w.tys, arm.body, SetOwned(st, bs)).value;
    var left, end := Leftover(ArmOwned(arm, byValue), a.st), Exec(w, a.code, s, fuel).s;
    LeftoverIs(ArmOwned(arm, byValue), a.st);
    ExecFollows(w, a.code, s, fuel);
    DestroyStatements(w, left, end, fuel);
    DestroyStatements(Real(w), left, end, fuel);
    DestroyVarsSame(w, Names(left), end);
    assert Exec(w, a.code, s, fuel).value == ();
    assert ExecAll(Real(w), Cons(a.code, Destroys(left)), s, fuel) == ExecAll(Real(w), Destroys(left), end, fuel);
  }

  // The owners when the arm is over, whatever the analysis says.
  function Kept(arm: Arm, out: StateMap, st: StateMap): set<Name> {
    var bs := ArmOwners(arm, true);
    (OwnedIn(out) - bs) + (OwnedIn(st) * bs)
  }

  // When a consuming arm that was selected accounts for every cell it was given:
  // if and only if no owner is bound twice. If one is, and the arm's body leaves
  // it owned, the arm's destroys never run to their end; if the body moves it on,
  // the payload bound first is held by nobody; and in both cases the analysis
  // goes on as if the binder owned after the arm.
  lemma {:induction false} RepeatedBinderExactly(w: World, arm: Arm, owner: Name, sc: Scope, st: StateMap, d: set<Name>,
      s: State, lent: set<nat>, flight: set<nat>, v: Value, fuel: nat) returns (lost: set<nat>)
    requires Scrutinised(w, sc, OwnedIn(st), s, lent, flight, v, owner, true)
    requires d <= st.Keys
    requires WfArm(w.p, w.tys, arm, owner, true, sc, d)
    requires AnalyzeArm(w.p, w.tys, arm, true, st).Some? && AllUsedAsBound(w.tys, arm.pats)
    requires s.heap[v.a].tag == arm.tag && AllMatch(arm.pats, ShapesOf(s.heap, s.heap[v.a].fields, v.a))
    requires var b :=
      BindPats(w.p.ctors, s.heap, Top(s), v.a, s.heap[v.a].fields, arm.pats, w.p.ctors[arm.tag].params, true, s.next);
      b.Bound? &&
      var a := AnalyzeStmt(w.p, w.tys, arm.body, SetOwned(st, ArmBinders(arm, true))).value;
      Exec(w, a.code, WithTop(s.(heap := b.h), b.f), fuel).Done?
    ensures lost !! lent + flight + {v.a} && (lost == {} <==> Linear(arm, true))
    ensures var b :=
      BindPats(w.p.ctors, s.heap, Top(s), v.a, s.heap[v.a].fields, arm.pats, w.p.ctors[arm.tag].params, true, s.next);
      var bs, a := ArmBinders(arm, true), AnalyzeArm(w.p, w.tys, arm, true, st).value;
      var out := AnalyzeStmt(w.p, w.tys, arm.body, SetOwned(st, bs)).value.st;
      var r := Exec(Real(w), a.code.body, WithTop(s.(heap := b.h), b.f), fuel);
      && OwnedIn(a.st) == Kept(arm, out, st) + Repeated(bs)
      && (Repeated(bs) * OwnedIn(out) != {} ==> !r.Done?)
      && (r.Done? ==>
        Inv(w, sc, Kept(arm, out, st), WithTop(r.s, Unshadow(Top(r.s), BindersOf(arm.pats), Top(s))),
                          lent, flight + {v.a} + lost))
  {
    hide Owns, Copies, Lends, Stable, Accepted, Exec, AssignedStmt, BindPats, ArmScope, Linear;
    var b := BindPats(w.p.ctors, s.heap, Top(s), v.a, s.heap[v.a].fields, arm.pats, w.p.ctors[arm.tag].params, true,
      s.next);
    var bs, hid := ArmBinders(arm, true), Hidden(s, OwnedIn(st), arm);
    AllOwnersAsUsed(w.tys, arm.pats);
    var out, s1 := AnalyzeStmt(w.p, w.tys, arm.body, SetOwned(st, bs)).value.st, WithTop(s.(heap := b.h), b.f);
    lost := EnterByValue(w, sc, OwnedIn(st), s, lent, flight, v, arm);
    RestoredState(out, bs, st);
    LeftTwice(ArmOwned(arm, true), out);
    BodyThenDestroys(w, arm, true, st, s1, fuel);
    var left, end := Names(Leftover(ArmOwned(arm, true), out)),
      Exec(w, AnalyzeStmt(w.p, w.tys, arm.body, SetOwned(st, bs)).value.code, s1, fuel).s;
    DistinctRepeatsNone(left);
    if Distinct(left) {
      EnteredState(st, bs);
      BodySafe(w, arm, true, sc, st, d + ArmOwners(arm, true), s1, lent, flight + {v.a} + hid + lost, fuel);
      var r := Exec(Real(w), AnalyzeArm(w.p, w.tys, arm, true, st).value.code.body, s1, fuel);
      if r.Done? {
        LeaveWithLost(w, arm, sc, st, out, s, s1, r.s, lent, flight, v, lost);
      }
    } else {
      LeftoverIs(ArmOwned(arm, true), out);
      OwnSetIs(w.tys, BindersOf(arm.pats));
      TwiceNeverDone(w, left, end);
    }
  }

  lemma {:induction false} LeaveWithLost(w: World, arm: Arm, sc: Scope, st: StateMap, out: StateMap, s: State,
      s1: State, s2: State, lent: set<nat>, flight: set<nat>, v: Value, lost: set<nat>)
    requires ArmFits(w, arm, true, sc)
    requires v.PtrV? && v.a in Cells(s.heap, v)
    requires Inv(w, sc, OwnedIn(st), s, lent, flight + Cells(s.heap, v)) && Cells(s.heap, v) !! lent + flight
    requires lost !! lent + flight + {v.a} + Hidden(s, OwnedIn(st), arm)
    requires Stable(s, s1, |s.frames| - 1, lent + (flight + {v.a} + Hidden(s, OwnedIn(st), arm) + lost))
    requires Ran(w, ArmScope(arm, true, sc), OwnedIn(out) - ArmOwners(arm, true), s1,
      s2,
                 lent, flight + {v.a} + Hidden(s, OwnedIn(st), arm) + lost)
    ensures Inv(w, sc, Kept(arm, out, st), WithTop(s2, Unshadow(Top(s2), BindersOf(arm.pats), Top(s))),
                lent, flight + {v.a} + lost)
  {
    hide Copies, CellsOwned, AnalyzeStmt, EvalExpr, OwnedIn, Elems;
    var bs, sc1 := BindersOf(arm.pats), ArmScope(arm, true, sc);
    var own2, hid := OwnedIn(out) - ArmOwners(arm, true), Hidden(s, OwnedIn(st), arm);
    BindersTyped(w, arm.pats, w.p.ctors[arm.tag].params);
    InvMove(w, sc, OwnedIn(st), s, lent, flight + Cells(s.heap, v), OwnedIn(st) * Elems(bs));
    OwnSetIs(w.tys, bs);
    AllOwnersAsUsed(w.tys, arm.pats);
    assert own2 !! Elems(bs);
    assert OwnedIn(st) * Elems(bs) == OwnedIn(st) * ArmOwners(arm, true);
    StableTrans(s, s1, s2, |s.frames| - 1, lent + (flight + {v.a} + hid));
    LeaveArm(w, sc, sc1, OwnedIn(st), own2, s, s2, lent, flight + Cells(s.heap, v), flight + {v.a}, lost, bs);
  }
}
