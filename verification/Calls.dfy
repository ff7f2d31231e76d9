/** Looking at a value in place, passing actuals, entering and leaving a call.
    Values already computed wait untouched while the next actual is evaluated;
    everything the caller still owns, borrows or holds is lent to the callee; and
    when the call returns, what the caller had is as it was, and the value
    returned shares no cell with it. */
module Calls {
  import opened Optional
  import opened Syntax
  import opened Heap
  import opened Moves
  import opened Static
  import opened Facts
  import opened Machine
  import opened Ownership
  import opened Running
  import opened Steps

  // A borrow that is dereferenced can only be a formal.
  lemma {:induction false} BorrowIsFormal(w: World, sc: Scope, e: Expr, pos: Pos)
    requires Setting(w)
    requires TypeOf(w.p, w.tys, sc, e, pos).Some? && TypeOf(w.p, w.tys, sc, e, pos).value.TBorrow?
    requires !pos.Argument?
    ensures e.Var? && !w.tys[e.x].referent.TBorrow?
    decreases e
  {
    if e.Deref? {
      BorrowIsFormal(w, sc, e.ptr, Place);
    } else if e.Call? {
      ReturnsNoBorrow(w, e.f);
    }
  }

  lemma ReturnsNoBorrow(w: World, f: Name)
    requires Setting(w) && f in w.p.funs
    ensures !w.p.funs[f].retTy.TBorrow?
  {
    assert FunAccepted(w.p, f);
  }

  // Under `*` a variable or a dereference is looked at where it is.
  lemma {:induction false} Look(w: World, sc: Scope, own: set<Name>, q: Expr, s: State, lent: set<nat>,
      flight: set<nat>, fuel: nat)
    requires Setting(w)
    requires Inv(w, sc, own, s, lent, flight)
    requires q.Var? || q.Deref?
    requires var ty := TypeOf(w.p, w.tys, sc, q, Place); ty.Some? && !ty.value.TInt?
    requires q.Var? && IsOwnVar(w.tys, q.x) && q.x !in sc.aliases ==> q.x in own
    ensures var r, ty := Eval(w, q, s, fuel), TypeOf(w.p, w.tys, sc, q, Place).value;
      && r.Done? && r.s == s
      && (ty.TBorrow? ==> Lends(w.p.ctors, s, |s.frames| - 1, r.value, ty.referent, lent))
      && (!ty.TBorrow? ==> Tree(w.p.ctors, s.heap, r.value, ty))
      && (!ty.TBorrow? ==> Cells(s.heap, r.value) <= lent || (q.Var? && q.x in own && r.value == Top(s)[q.x]))
  {
    if q.Deref? {
      BorrowIsFormal(w, sc, q.ptr, Place);
    }
  }

  lemma ArgLendsStable(w: World, sc: Scope, kept: set<Name>, s: State, s': State, v: Value, ty: Ty, lent: set<nat>)
    requires s.frames != []
    requires ArgLends(w, sc, kept, s, v, ty, lent)
    requires Stable(s, s', |s.frames|, lent)
    ensures ArgLends(w, sc, kept, s', v, ty, lent)
  {
    if Lends(w.p.ctors, s, |s.frames| - 1, v, ty, lent) {
      LendsStable(w.p.ctors, s, s', |s.frames| - 1, v, ty, lent);
    }
  }

  // The values already computed wait, untouched, while the next one is.
  lemma {:induction false} NextOperand(w: World, sc: Scope, own: set<Name>, own1: set<Name>, own2: set<Name>,
      held: set<Name>, s: State, s1: State, s2: State, lent: set<nat>, flight: set<nat>, v: Value, ty: Ty,
      vs: List<Value>, ts: List<Ty>)
    requires Inv(w, sc, own, s, lent, flight)
    requires own2 <= own1 <= own && own1 * held == own2 * held
    requires Evaluated(w, sc, own1, held, s, s1, lent, flight, v, ty)
    requires EvaluatedAll(w, sc, own2, held, s1, s2, lent, flight + Cells(s1.heap, v), vs, ts)
    ensures EvaluatedAll(w, sc, own2, held, s, s2, lent, flight, Cons(v, vs), Cons(ty, ts))
  {
    hide Owns, Copies, Lends, Tree;
    var c := Cells(s1.heap, v);
    var rest := CellsOf(s2.heap, vs, s2.next);
    StableChain(w, sc, own, own1, own2, s, s1, s2, lent, flight,
                lent + (flight + c) + CellsOwned(s1.heap, Top(s1), own2));
    Waits(w, sc, own1, held, s, s1, s2, lent, flight, v, ty);
    assert CellsOf(s2.heap, Cons(v, vs), s2.next) == c + rest;
    assert flight + (c + rest) == flight + c + rest;
  }

  lemma {:induction false} Waits(w: World, sc: Scope, own: set<Name>, held: set<Name>, s: State, s1: State, s2: State,
      lent: set<nat>, flight: set<nat>, v: Value, ty: Ty)
    requires Evaluated(w, sc, own, held, s, s1, lent, flight, v, ty)
    requires Stable(s1, s2, |s1.frames|, lent + (flight + Cells(s1.heap, v)))
    ensures s2.frames != []
    ensures Cells(s2.heap, v) == Cells(s1.heap, v)
    ensures v.PtrV? ==> v.a < s2.next
    ensures if ty.TBorrow? then ArgLends(w, sc, own * held, s2, v, ty.referent, lent)
            else Tree(w.p.ctors, s2.heap, v, ty)
  {
    if ty.TBorrow? {
      assert Stable(s1, s2, |s1.frames|, lent);
      ArgLendsStable(w, sc, own * held, s1, s2, v, ty.referent, lent);
    } else {
      TreeFrame(w.p.ctors, s1.heap, s2.heap, v, ty);
      CellsLive(s1.heap, v);
      if v.PtrV? {
        assert v.a in s1.heap;
      }
    }
  }

  // What a callee is handed.
  ghost predicate Passed(cs: map<Name, Ctor>, s: State, vs: List<Value>, ts: List<Ty>, lent: set<nat>, bound: nat) {
    match vs
    case Nil => ts.Nil?
    case Cons(v, t) =>
      && ts.Cons?
      && (v.PtrV? ==> v.a < bound)
      && (if ts.head.TBorrow? then Lends(cs, s, |s.frames|, v, ts.head.referent, lent)
          else Tree(cs, s.heap, v, ts.head))
      && Cells(s.heap, v) !! CellsOf(s.heap, t, bound)
      && Passed(cs, s, t, ts.tail, lent, bound)
  }

  ghost predicate CallReady(cs: map<Name, Ctor>, s: State, vs: List<Value>, ts: List<Ty>, lent: set<nat>) {
    && Passed(cs, s, vs, ts, lent, s.next)
    && lent !! CellsOf(s.heap, vs, s.next)
    && s.heap.Keys == lent + CellsOf(s.heap, vs, s.next)
    && (forall a | a in s.heap :: a < s.next)
  }

  // Everything the caller still owns, borrows or holds is lent to the callee.
  lemma Passes(w: World, sc: Scope, own: set<Name>, held: set<Name>, s: State, s1: State, lent: set<nat>,
      flight: set<nat>, vs: List<Value>, ts: List<Ty>)
    requires EvaluatedAll(w, sc, own, held, s, s1, lent, flight, vs, ts)
    ensures CallReady(w.p.ctors, s1, vs, ts, lent + flight + CellsOwned(s1.heap, Top(s1), own))
  {
    var rest := CellsOf(s1.heap, vs, s1.next);
    var all := lent + flight + CellsOwned(s1.heap, Top(s1), own);
    PassesEach(w, sc, own, own * held, s1, lent, flight + rest, all, vs, ts, s1.next);
    assert lent + (flight + rest) + CellsOwned(s1.heap, Top(s1), own) == all + rest;
  }

  lemma {:induction false} PassesEach(w: World, sc: Scope, own: set<Name>, kept: set<Name>, s: State, lent: set<nat>,
      flight: set<nat>, all: set<nat>, vs: List<Value>, ts: List<Ty>, bound: nat)
    requires Inv(w, sc, own, s, lent, flight)
    requires kept <= own
    requires lent + CellsOwned(s.heap, Top(s), own) <= all
    requires ArgsOk(w, sc, kept, s, vs, ts, lent, bound)
    ensures Passed(w.p.ctors, s, vs, ts, all, bound)
    decreases vs
  {
    if vs.Cons? {
      PassesEach(w, sc, own, kept, s, lent, flight, all, vs.tail, ts.tail, bound);
      var v := vs.head;
      if ts.head.TBorrow? && !Lends(w.p.ctors, s, |s.frames| - 1, v, ts.head.referent, lent) {
        var u := Top(s)[v.x];
        assert Cells(s.heap, u) <= all by {
          if v.x in own {
            assert Cells(s.heap, u) <= CellsOwned(s.heap, Top(s), own);
          }
        }
        assert Lends(w.p.ctors, s, |s.frames|, v, ts.head.referent, all);
      }
    }
  }

  // What a call that returns has done: it freed or returned all it was given.
  ghost predicate Returned(cs: map<Name, Ctor>, s: State, s': State, lent: set<nat>, v: Value, ty: Ty) {
    && Tree(cs, s'.heap, v, ty)
    && lent !! Cells(s'.heap, v)
    && s'.heap.Keys == lent + Cells(s'.heap, v)
    && (forall a | a in s'.heap :: a < s'.next)
    && Stable(s, s', |s.frames|, lent)
  }

  lemma Resume(w: World, sc: Scope, own0: set<Name>, own: set<Name>, held: set<Name>, s: State, s1: State, s2: State,
      lent: set<nat>, flight: set<nat>, vs: List<Value>, ts: List<Ty>, v: Value, ty: Ty)
    requires Inv(w, sc, own0, s, lent, flight) && own <= own0
    requires EvaluatedAll(w, sc, own, held, s, s1, lent, flight, vs, ts)
    requires Returned(w.p.ctors, s1, s2, lent + flight + CellsOwned(s1.heap, Top(s1), own), v, ty)
    requires !ty.TBorrow?
    ensures Evaluated(w, sc, own, held, s, s2, lent, flight, v, ty)
  {
    var c := Cells(s2.heap, v);
    var mine := CellsOwned(s1.heap, Top(s1), own);
    assert lent + flight + mine + c == lent + (flight + c) + mine;
    InvCarry(w, sc, own, s1, lent, flight + CellsOf(s1.heap, vs, s1.next), s2, flight + c);
    StableChain(w, sc, own0, own, own, s, s1, s2, lent, flight, lent + flight + mine);
  }
}
