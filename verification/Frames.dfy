/** The two ends of a function. A call binds its formals in a fresh frame, in
    which the owned formals own exactly what was passed by value and the rest is
    zero or lent; and at the exit, once the result has been evaluated, the
    destroys take the owners that are left one by one, each freeing what it owns
    and nothing else, so that the frame can be popped with nothing lost. */
module Frames {
  import opened Optional
  import opened Syntax
  import opened Heap
  import opened Moves
  import opened Static
  import opened Machine
  import opened Ownership
  import opened Running
  import opened Steps
  import opened Calls

  // The formals, in order, hold the values passed.
  ghost predicate Holds(f: Frame, formals: List<Name>, vs: List<Value>) {
    match formals
    case Nil => vs.Nil?
    case Cons(x, t) => vs.Cons? && x in f && f[x] == vs.head && Holds(f, t, vs.tail)
  }

  lemma {:induction false} BindHolds(formals: List<Name>, vs: List<Value>, f: Frame, cs: map<Name, Ctor>, s: State,
      ts: List<Ty>, lent: set<nat>, bound: nat, tys: map<Name, Ty>)
    requires Distinct(formals)
    requires ts == FormalTys(formals, tys)
    requires Passed(cs, s, vs, ts, lent, bound)
    ensures Bind(formals, vs, f).Some?
    ensures var f' := Bind(formals, vs, f).value;
      && f'.Keys == f.Keys + Elems(formals)
      && Holds(f', formals, vs)
      && (forall x | x in f && x !in Elems(formals) :: f'[x] == f[x])
    decreases formals
  {
    match formals
    case Nil =>
    case Cons(x, t) =>
      BindHolds(t, vs.tail, f[x := vs.head], cs, s, ts.tail, lent, bound, tys);
  }

  ghost function OwnedFormals(tys: map<Name, Ty>, formals: List<Name>): set<Name> {
    set x | x in Elems(formals) && IsOwnVar(tys, x)
  }

  // The owned formals own exactly what was passed by value.
  lemma {:induction false} FormalsOwn(cs: map<Name, Ctor>, tys: map<Name, Ty>, s: State, f: Frame, formals: List<Name>,
      vs: List<Value>, lent: set<nat>, bound: nat)
    requires Distinct(formals) && Elems(formals) <= tys.Keys
    requires Holds(f, formals, vs)
    requires Passed(cs, s, vs, FormalTys(formals, tys), lent, bound)
    ensures CellsOwned(s.heap, f, OwnedFormals(tys, formals)) == CellsOf(s.heap, vs, bound)
    ensures Owns(cs, tys, s.heap, f, OwnedFormals(tys, formals), s.heap.Keys - CellsOf(s.heap, vs, bound))
    decreases formals
  {
    match formals
    case Nil =>
    case Cons(x, t) =>
      var v := vs.head;
      var own := OwnedFormals(tys, t);
      var rest := CellsOf(s.heap, vs.tail, bound);
      FormalsOwn(cs, tys, s, f, t, vs.tail, lent, bound);
      CellsLive(s.heap, v);
      CellsOfLive(s.heap, vs.tail, bound);
      if IsOwn(tys[x]) {
        assert OwnedFormals(tys, formals) == own + {x};
        assert f[x := v] == f;
        assert s.heap.Keys - rest == s.heap.Keys - (Cells(s.heap, v) + rest) + Cells(s.heap, v);
        OwnsReceive(cs, tys, s.heap, f, own, s.heap.Keys - (Cells(s.heap, v) + rest), x, v);
      } else {
        assert OwnedFormals(tys, formals) == own;
        assert Cells(s.heap, v) == {};
      }
  }

  lemma {:induction false} FormalsCopy(cs: map<Name, Ctor>, tys: map<Name, Ty>, s: State, f: Frame, formals: List<Name>,
      vs: List<Value>, lent: set<nat>, bound: nat)
    requires Elems(formals) <= tys.Keys
    requires Holds(f, formals, vs)
    requires Passed(cs, s, vs, FormalTys(formals, tys), lent, bound)
    ensures forall x | x in Elems(formals) ::
      (x in f && (tys[x].TInt? ==> f[x].IntV?) &&
       (tys[x].TBorrow? ==> Lends(cs, s, |s.frames|, f[x], tys[x].referent, lent)))
    decreases formals
  {
    match formals
    case Nil =>
    case Cons(_, t) => FormalsCopy(cs, tys, s, f, t, vs.tail, lent, bound);
  }

  lemma {:induction false} EnterCall(w: World, fun: Fun, s: State, vs: List<Value>, lent: set<nat>)
    requires Accepted(w.p) && WfFun(w.p, fun)
    requires CallReady(w.p.ctors, s, vs, FormalTys(fun.formals, fun.tys), lent)
    ensures var zeros := Zeros(fun.locals);
      && Bind(fun.formals, vs, zeros).Some?
      && Inv(w.(tys := fun.tys), FunScope(fun), OwnedIn(Entry(fun)),
             s.(frames := s.frames + [Bind(fun.formals, vs, zeros).value]), lent, {})
  {
    hide Owns, Copies, Lends, Cells, Tree;
    var zeros: Frame := Zeros(fun.locals);
    var ts := FormalTys(fun.formals, fun.tys);
    BindHolds(fun.formals, vs, zeros, w.p.ctors, s, ts, lent, s.next, fun.tys);
    var f := Bind(fun.formals, vs, zeros).value;
    FormalsOwn(w.p.ctors, fun.tys, s, f, fun.formals, vs, lent, s.next);
    EnterCopies(w, fun, s, vs, lent, f);
    assert OwnedIn(Entry(fun)) == OwnedFormals(fun.tys, fun.formals);
    assert s.heap.Keys - CellsOf(s.heap, vs, s.next) == lent + {};
  }

  lemma {:induction false} EnterCopies(w: World, fun: Fun, s: State, vs: List<Value>, lent: set<nat>, f: Frame)
    requires WfFun(w.p, fun)
    requires CallReady(w.p.ctors, s, vs, FormalTys(fun.formals, fun.tys), lent)
    requires Holds(f, fun.formals, vs) && f.Keys == fun.locals + Elems(fun.formals)
    requires forall x | x in fun.locals :: f[x].IntV?
    ensures Copies(w.(tys := fun.tys), FunScope(fun), s.(frames := s.frames + [f]), lent)
  {
    hide Owns, Cells, Tree;
    var s' := s.(frames := s.frames + [f]);
    FormalsCopy(w.p.ctors, fun.tys, s, f, fun.formals, vs, lent, s.next);
    forall x | x in f && fun.tys[x].TBorrow?
      ensures Lends(w.p.ctors, s', |s'.frames| - 1, f[x], fun.tys[x].referent, lent)
    {
      assert x in Elems(fun.formals);
      assert s'.frames[f[x].depth] == s.frames[f[x].depth];
    }
  }

  // -------------------------------------------------------------------------
  // Destroys
  // -------------------------------------------------------------------------

  lemma DestroyOwner(w: World, sc: Scope, own: set<Name>, s: State, lent: set<nat>, flight: set<nat>, x: Name)
    requires Inv(w, sc, own, s, lent, flight)
    requires x in own
    ensures var r := DestroyVar(w, x, s);
      && !r.Fault? && !r.Halt? && !r.Strays? && !r.Spent?
      && (r.Done? ==>
            && Inv(w, sc, own - {x}, r.s, lent, flight)
            && r.s.frames == s.frames
            && Stable(s, r.s, |s.frames|, lent + flight))
  {
    var v := Top(s)[x];
    DestroyFreesFootprint(w.p.ctors, s.heap, v, w.tys[x], s.next);
    InvMove(w, sc, own, s, lent, flight, {x});
    CellsOwnedOne(s.heap, Top(s), x);
    var r := DestroyVar(w, x, s);
    if r.Done? {
      CellsLive(s.heap, v);
      InvCarry(w, sc, own - {x}, s, lent, flight + Cells(s.heap, v), r.s, flight);
    }
  }

  lemma {:induction false} DestroyOwners(w: World, sc: Scope, own: set<Name>, s: State, lent: set<nat>,
      flight: set<nat>, xs: List<Name>)
    requires Inv(w, sc, own, s, lent, flight)
    requires Distinct(xs) && Elems(xs) <= own
    ensures var r := DestroyVars(w, xs, s);
      && !r.Fault? && !r.Halt? && !r.Strays? && !r.Spent?
      && (r.Done? ==>
            && Inv(w, sc, own - Elems(xs), r.s, lent, flight)
            && r.s.frames == s.frames
            && Stable(s, r.s, |s.frames|, lent + flight))
    decreases xs
  {
    match xs
    case Nil =>
      assert own - Elems(xs) == own;
    case Cons(x, t) =>
      DestroyOwner(w, sc, own, s, lent, flight, x);
      var r := DestroyVar(w, x, s);
      if r.Done? {
        DestroyOwners(w, sc, own - {x}, r.s, lent, flight, t);
        var r' := DestroyVars(w, t, r.s);
        if r'.Done? {
          StableTrans(s, r.s, r'.s, |s.frames|, lent + flight);
          assert own - {x} - Elems(t) == own - Elems(xs);
        }
      }
  }

  // The destroys inserted as statements are the same destroys, when the binders
  // have the types of their uses.
  lemma {:induction false} DestroyStatements(w: World, bs: List<Binder>, s: State, fuel: nat)
    requires s.frames != [] && TypedAs(w.tys, bs)
    ensures ExecAll(w, Destroys(bs), s, fuel) == DestroyVars(w, Names(bs), s)
    decreases bs
  {
    match bs
    case Nil =>
    case Cons(b, t) =>
      var r := DestroyVar(w, b.x, s);
      assert Exec(w, Destroy(b.x, b.ty), s, fuel) == r;
      if r.Done? {
        DestroyStatements(w, t, r.s, fuel);
      }
  }
}
