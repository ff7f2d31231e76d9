/** Heap safety and leak freedom of accepted programs, for every input, every
    branch taken, every number of iterations and every depth of calls. */
module Safety {
  import opened Optional
  import opened Syntax
  import opened Heap
  import opened Moves
  import opened Static
  import opened Facts
  import opened Machine
  import opened Ownership
  import opened Running
  import opened Steps
  import opened Calls
  import opened Frames
  import opened Matching
  import opened Arms

  // An operand list is taken the way its types require.
  ghost predicate Covers(takes: List<bool>, ts: List<Ty>) {
    match ts
    case Nil => true
    case Cons(t, rest) =>
      (IsOwn(t) ==> takes.Cons? && takes.head) && Covers(if takes.Cons? then takes.tail else Nil, rest)
  }

  lemma {:induction false} FlagsCover(ts: List<Ty>)
    ensures Covers(OwnFlags(ts), ts)
    decreases ts
  {
    if ts.Cons? {
      FlagsCover(ts.tail);
    }
  }

  lemma {:induction false} AllTakenCovers(p: Program, tys: map<Name, Ty>, sc: Scope, es: List<Expr>, ts: List<Ty>)
    requires TypedAll(p, tys, sc, es, ts, Taken)
    ensures Covers(AllTaken(es), ts)
    decreases es
  {
    if es.Cons? {
      AllTakenCovers(p, tys, sc, es.tail, ts.tail);
    }
  }

  // What is known before an expression is evaluated.
  ghost predicate Ready(w: World, sc: Scope, st: StateMap, d: set<Name>, s: State, lent: set<nat>, flight: set<nat>) {
    && Setting(w)
    && Inv(w, sc, OwnedIn(st), s, lent, flight)
    && d <= st.Keys
  }

  // No fault, and where care was taken no straying either.
  predicate Fine<T>(r: Run<T>, careful: bool) {
    !r.Fault? && (careful ==> !r.Strays?)
  }

  lemma {:induction false} EvalSafe(w: World, e: Expr, pos: Pos, sc: Scope, st: StateMap, held: set<Name>, d: set<Name>,
      s: State, lent: set<nat>, flight: set<nat>, fuel: nat)
    requires Ready(w, sc, st, d, s, lent, flight)
    requires !pos.Place? && TypeOf(w.p, w.tys, sc, e, pos).Some?
    requires pos.Argument? ==> Borrowed(e) <= held
    requires Assigned(w.tys, sc, d, e)
    requires EvalExpr(w.p, w.tys, e, st, held).Some?
    requires !(e.Var? && IsOwnVar(w.tys, e.x))
    ensures var r := Eval(w, e, s, fuel);
      && Fine(r, Careful(w.p))
      && (r.Done? ==> Evaluated(w, sc, OwnedIn(EvalExpr(w.p, w.tys, e, st, held).value), held, s, r.s, lent, flight,
                                r.value, TypeOf(w.p, w.tys, sc, e, pos).value))
    decreases fuel, 0, e, 1
  {
    hide Owns, Copies, Lends;
    EvalMovesExactly(w.p, w.tys, e, st, held);
    match e
    case Num(n) => Unchanged(w, sc, OwnedIn(st), held, s, s, lent, flight, n);
    case Input =>
      var r := Eval(w, e, s, fuel);
      Unchanged(w, sc, OwnedIn(st), held, s, r.s, lent, flight, r.value.n);
    case Var(x) => NameSafe(w, e, pos, sc, st, held, d, s, lent, flight, fuel);
    case Borrow(x) => NameSafe(w, e, pos, sc, st, held, d, s, lent, flight, fuel);
    case Bin(_, _, _) => BinSafe(w, e, sc, st, held, d, s, lent, flight, fuel);
    case Alloc(_) => AllocSafe(w, e, sc, st, held, d, s, lent, flight, fuel);
    case New(_, _) => NewSafe(w, e, sc, st, held, d, s, lent, flight, fuel);
    case Call(f, args) => CallExprSafe(w, e, pos, sc, st, held, d, s, lent, flight, fuel);
    case Deref(q) => DerefSafe(w, e, pos, sc, st, held, d, s, lent, flight, fuel);
  }

  lemma {:induction false} AllocSafe(w: World, e: Expr, sc: Scope, st: StateMap, held: set<Name>, d: set<Name>,
      s: State, lent: set<nat>, flight: set<nat>, fuel: nat)
    requires Ready(w, sc, st, d, s, lent, flight)
    requires e.Alloc? && TypeOf(w.p, w.tys, sc, e, Taken).Some?
    requires Assigned(w.tys, sc, d, e)
    requires EvalExpr(w.p, w.tys, e, st, held).Some?
    ensures var r := Eval(w, e, s, fuel);
      && Fine(r, Careful(w.p))
      && (r.Done? ==> Evaluated(w, sc, OwnedIn(EvalExpr(w.p, w.tys, e, st, held).value), held, s, r.s, lent, flight,
                                r.value, TypeOf(w.p, w.tys, sc, e, Taken).value))
    decreases fuel, 0, e, 0
  {
    hide Owns, Copies, Lends, Careful;
    EvalSafe(w, e.init, Taken, sc, st, held, d, s, lent, flight, fuel);
    var a := Eval(w, e.init, s, fuel);
    if a.Done? {
      NewCell(w, sc, OwnedIn(EvalExpr(w.p, w.tys, e.init, st, held).value), held, s, a.s, lent, flight, a.value);
    }
  }

  lemma {:induction false} NewSafe(w: World, e: Expr, sc: Scope, st: StateMap, held: set<Name>, d: set<Name>,
      s: State, lent: set<nat>, flight: set<nat>, fuel: nat)
    requires Ready(w, sc, st, d, s, lent, flight)
    requires e.New? && TypeOf(w.p, w.tys, sc, e, Taken).Some?
    requires Assigned(w.tys, sc, d, e)
    requires EvalExpr(w.p, w.tys, e, st, held).Some?
    ensures var r := Eval(w, e, s, fuel);
      && Fine(r, Careful(w.p))
      && (r.Done? ==> Evaluated(w, sc, OwnedIn(EvalExpr(w.p, w.tys, e, st, held).value), held, s, r.s, lent, flight,
                                r.value, TypeOf(w.p, w.tys, sc, e, Taken).value))
    decreases fuel, 0, e, 0
  {
    hide Owns, Copies, Lends, Evaluated, EvaluatedAll, Careful;
    var ts := w.p.ctors[e.tag].params;
    AllTakenCovers(w.p, w.tys, sc, e.args, ts);
    OperandsSafe(w, e.args, AllTaken(e.args), ts, Taken, sc, st, held, d, s, lent, flight, fuel);
    var a := EvalAll(w, e.args, s, fuel);
    if a.Done? {
      NewBox(w, sc, OwnedIn(EvalExpr(w.p, w.tys, e, st, held).value), held, s, a.s, lent, flight, a.value, e.tag);
    }
  }

  lemma {:induction false} BinSafe(w: World, e: Expr, sc: Scope, st: StateMap, held: set<Name>, d: set<Name>, s: State,
      lent: set<nat>, flight: set<nat>, fuel: nat)
    requires Ready(w, sc, st, d, s, lent, flight)
    requires e.Bin? && TypeOf(w.p, w.tys, sc, e, Taken).Some?
    requires Assigned(w.tys, sc, d, e)
    requires EvalExpr(w.p, w.tys, e, st, held).Some?
    ensures var r := Eval(w, e, s, fuel);
      && Fine(r, Careful(w.p))
      && (r.Done? ==>
        Evaluated(w, sc, OwnedIn(EvalExpr(w.p, w.tys, e, st, held).value), held, s, r.s, lent, flight, r.value, TInt))
    decreases fuel, 0, e, 0
  {
    hide Owns, Copies, Lends;
    var l, r := e.left, e.right;
    EvalMovesExactly(w.p, w.tys, l, st, held);
    var st1 := EvalExpr(w.p, w.tys, l, st, held).value;
    EvalSafe(w, l, Taken, sc, st, held, d, s, lent, flight, fuel);
    var a := Eval(w, l, s, fuel);
    if a.Done? {
      assert flight + Cells(a.s.heap, a.value) == flight;
      EvalSafe(w, r, Taken, sc, st1, held, d, a.s, lent, flight, fuel);
      var b := Eval(w, r, a.s, fuel);
      if b.Done? && Arith(e.op, a.value.n, b.value.n).Some? {
        EvalMovesExactly(w.p, w.tys, r, st1, held);
        var st2 := EvalExpr(w.p, w.tys, r, st1, held).value;
        ThenInt(w, sc, OwnedIn(st), OwnedIn(st1), OwnedIn(st2), held, s, a.s, b.s, lent, flight, a.value, b.value,
                Arith(e.op, a.value.n, b.value.n).value);
      }
    }
  }

  // A name that is not taken: an integer, a borrowed formal passed on, or `&x`.
  lemma {:induction false} NameSafe(w: World, e: Expr, pos: Pos, sc: Scope, st: StateMap, held: set<Name>, d: set<Name>,
      s: State, lent: set<nat>, flight: set<nat>, fuel: nat)
    requires Ready(w, sc, st, d, s, lent, flight)
    requires e.Var? || e.Borrow?
    requires !pos.Place? && TypeOf(w.p, w.tys, sc, e, pos).Some?
    requires pos.Argument? ==> Borrowed(e) <= held
    requires Assigned(w.tys, sc, d, e)
    requires EvalExpr(w.p, w.tys, e, st, held).Some?
    requires !(e.Var? && IsOwnVar(w.tys, e.x))
    ensures var r := Eval(w, e, s, fuel);
      && Fine(r, Careful(w.p))
      && (r.Done? ==>
        Evaluated(w, sc, OwnedIn(st), held, s, r.s, lent, flight, r.value, TypeOf(w.p, w.tys, sc, e, pos).value))
  {
    var r := Eval(w, e, s, fuel);
    assert r.Done? && !r.value.PtrV?;
    assert flight + Cells(s.heap, r.value) == flight;
    CellsOwnedLive(s.heap, Top(s), OwnedIn(st));
  }

  lemma {:induction false} CallExprSafe(w: World, e: Expr, pos: Pos, sc: Scope, st: StateMap, held: set<Name>,
      d: set<Name>, s: State, lent: set<nat>, flight: set<nat>, fuel: nat)
    requires Ready(w, sc, st, d, s, lent, flight)
    requires e.Call?
    requires TypeOf(w.p, w.tys, sc, e, pos).Some?
    requires Assigned(w.tys, sc, d, e)
    requires EvalExpr(w.p, w.tys, e, st, held).Some?
    ensures var r := Eval(w, e, s, fuel);
      && Fine(r, Careful(w.p))
      && (r.Done? ==> Evaluated(w, sc, OwnedIn(EvalExpr(w.p, w.tys, e, st, held).value), held, s, r.s, lent, flight,
                                r.value, TypeOf(w.p, w.tys, sc, e, pos).value))
    decreases fuel, 0, e, 0
  {
    hide Owns, Copies, Lends;
    var f, args := e.f, e.actuals;
    var ts := FormalTys(w.p.funs[f].formals, w.p.funs[f].tys);
    var held1 := held + BorrowedIn(args);
    FlagsCover(ts);
    OperandsSafe(w, args, Consumes(w.p, f), ts, Argument, sc, st, held1, d, s, lent, flight, fuel);
    OperandsMoveExactly(w.p, w.tys, args, Consumes(w.p, f), st, held1);
    var a := EvalAll(w, args, s, fuel);
    if a.Done? && fuel > 0 {
      var own := OwnedIn(EvalOperands(w.p, w.tys, args, Consumes(w.p, f), st, held1).value);
      CalleeSafe(w, sc, OwnedIn(st), own, held1, s, a.s, lent, flight, f, a.value, fuel - 1);
      var r := Invoke(w, f, a.value, a.s, fuel - 1);
      ReturnsNoBorrow(w, f);
      assert r.Done? ==> Evaluated(w, sc, own, held, s, r.s, lent, flight, r.value, w.p.funs[f].retTy);
    }
  }

  // The actuals are ready: enter the callee, and come back.
  lemma {:induction false} CalleeSafe(w: World, sc: Scope, own0: set<Name>, own: set<Name>, held: set<Name>, s: State,
      s1: State, lent: set<nat>, flight: set<nat>, f: Name, vs: List<Value>, fuel: nat)
    requires Setting(w) && f in w.p.funs
    requires Inv(w, sc, own0, s, lent, flight) && own <= own0
    requires EvaluatedAll(w, sc, own, held, s, s1, lent, flight, vs, FormalTys(w.p.funs[f].formals, w.p.funs[f].tys))
    ensures var r := Invoke(w, f, vs, s1, fuel);
      && Fine(r, Careful(w.p))
      && (r.Done? ==> Evaluated(w, sc, own, held, s, r.s, lent, flight, r.value, w.p.funs[f].retTy))
    decreases fuel, 2
  {
    var ts := FormalTys(w.p.funs[f].formals, w.p.funs[f].tys);
    ReturnsNoBorrow(w, f);
    Passes(w, sc, own, held, s, s1, lent, flight, vs, ts);
    InvokeSafe(w, f, vs, s1, lent + flight + CellsOwned(s1.heap, Top(s1), own), fuel);
    var r := Invoke(w, f, vs, s1, fuel);
    if r.Done? {
      Resume(w, sc, own0, own, held, s, s1, r.s, lent, flight, vs, ts, r.value, w.p.funs[f].retTy);
    }
  }

  lemma {:induction false} DerefSafe(w: World, e: Expr, pos: Pos, sc: Scope, st: StateMap, held: set<Name>,
      d: set<Name>, s: State, lent: set<nat>, flight: set<nat>, fuel: nat)
    requires Ready(w, sc, st, d, s, lent, flight)
    requires e.Deref? && !pos.Place?
    requires TypeOf(w.p, w.tys, sc, e, pos).Some?
    requires Assigned(w.tys, sc, d, e)
    requires EvalExpr(w.p, w.tys, e, st, held).Some?
    ensures var r := Eval(w, e, s, fuel);
      && Fine(r, Careful(w.p))
      && (r.Done? ==> Evaluated(w, sc, OwnedIn(EvalExpr(w.p, w.tys, e, st, held).value), held, s, r.s, lent, flight,
                                r.value, TypeOf(w.p, w.tys, sc, e, pos).value))
    decreases fuel, 0, e, 0
  {
    hide Owns, Copies, Cells, Stable, Accepted, Careful, AnalyzeStmt, Exec, Invoke;
    var q := e.ptr;
    var st1 := EvalExpr(w.p, w.tys, q, st, held).value;
    EvalMovesExactly(w.p, w.tys, q, st, held);
    if q.Var? || q.Deref? {
      Look(w, sc, OwnedIn(st), q, s, lent, flight, fuel);
      PlaceMovesNothing(w, sc, q, st, held);
      var r := Eval(w, e, s, fuel);
      var ty := TypeOf(w.p, w.tys, sc, q, Place).value;
      if ty.TBorrow? {
        BorrowIsFormal(w, sc, q, Place);
      }
      Unchanged(w, sc, OwnedIn(st), held, s, s, lent, flight, r.value.n);
    } else {
      assert q.Call? || q.Alloc?;
      if q.Call? {
        ReturnsNoBorrow(w, q.f);
        CallExprSafe(w, q, Place, sc, st, held, d, s, lent, flight, fuel);
      } else {
        EvalSafe(w, q, Taken, sc, st, held, d, s, lent, flight, fuel);
      }
      var a := Eval(w, q, s, fuel);
      if a.Done? {
        FreeTemporary(w, sc, OwnedIn(st), OwnedIn(st1), held, s, a.s, lent, flight, a.value);
      }
    }
  }

  // Looking at a place moves nothing.
  lemma {:induction false} PlaceMovesNothing(w: World, sc: Scope, q: Expr, st: StateMap, held: set<Name>)
    requires Setting(w)
    requires q.Var? || q.Deref?
    requires var ty := TypeOf(w.p, w.tys, sc, q, Place); ty.Some? && !ty.value.TInt?
    requires EvalExpr(w.p, w.tys, q, st, held).Some?
    ensures EvalExpr(w.p, w.tys, q, st, held) == Some(st)
  {
    if q.Deref? {
      BorrowIsFormal(w, sc, q.ptr, Place);
    }
  }

  lemma {:induction false} OperandsSafe(w: World, es: List<Expr>, takes: List<bool>, ts: List<Ty>, pos: Pos, sc: Scope,
      st: StateMap, held: set<Name>, d: set<Name>, s: State, lent: set<nat>, flight: set<nat>, fuel: nat)
    requires Ready(w, sc, st, d, s, lent, flight)
    requires !pos.Place? && TypedAll(w.p, w.tys, sc, es, ts, pos)
    requires Covers(takes, ts)
    requires pos.Argument? ==> BorrowedIn(es) <= held
    requires AssignedAll(w.tys, sc, d, es)
    requires EvalOperands(w.p, w.tys, es, takes, st, held).Some?
    ensures var r := EvalAll(w, es, s, fuel);
      && Fine(r, Careful(w.p))
      && (r.Done? ==>
        EvaluatedAll(w, sc, OwnedIn(EvalOperands(w.p, w.tys, es, takes, st, held).value), held, s, r.s, lent, flight,
                                   r.value, ts))
    decreases fuel, 0, es, 0
  {
    hide Copies, Lends, Tree, Setting, Careful, AnalyzeStmt, AnalyzeStmts, Eval, EvalExpr, Evaluated;
    match es
    case Nil =>
      assert flight + CellsOf(s.heap, Nil, s.next) == flight;
      CellsOwnedLive(s.heap, Top(s), OwnedIn(st));
    case Cons(e, t) =>
      var taken := takes.Cons? && takes.head;
      var rest := if takes.Cons? then takes.tail else Nil;
      var st1 := OperandState(w.p, w.tys, e, taken, st, held).value;
      var st2 := EvalOperands(w.p, w.tys, t, rest, st1, held).value;
      OperandSafe(w, e, taken, ts.head, pos, sc, st, held, d, s, lent, flight, fuel);
      var a := Eval(w, e, s, fuel);
      if a.Done? {
        assert Ready(w, sc, st1, d, a.s, lent, flight + Cells(a.s.heap, a.value));
        OperandsSafe(w, t, rest, ts.tail, pos, sc, st1, held, d, a.s, lent, flight + Cells(a.s.heap, a.value), fuel);
        HeldKept(w, t, rest, st1, held);
        var b := EvalAll(w, t, a.s, fuel);
        if b.Done? {
          NextOperand(w, sc, OwnedIn(st), OwnedIn(st1), OwnedIn(st2), held, s, a.s, b.s, lent, flight,
                      a.value, ts.head, b.value, ts.tail);
        }
      }
  }

  lemma {:induction false} HeldKept(w: World, es: List<Expr>, takes: List<bool>, st: StateMap, held: set<Name>)
    requires EvalOperands(w.p, w.tys, es, takes, st, held).Some?
    ensures var st' := EvalOperands(w.p, w.tys, es, takes, st, held).value;
      OwnedIn(st') <= OwnedIn(st) && OwnedIn(st) * held == OwnedIn(st') * held
  {
    OperandsMoveExactly(w.p, w.tys, es, takes, st, held);
  }

  lemma {:induction false} OperandSafe(w: World, e: Expr, taken: bool, ty: Ty, pos: Pos, sc: Scope, st: StateMap,
      held: set<Name>, d: set<Name>, s: State, lent: set<nat>, flight: set<nat>, fuel: nat)
    requires Ready(w, sc, st, d, s, lent, flight)
    requires !pos.Place? && TypeOf(w.p, w.tys, sc, e, pos) == Some(ty)
    requires IsOwn(ty) ==> taken
    requires pos.Argument? ==> Borrowed(e) <= held
    requires Assigned(w.tys, sc, d, e)
    requires OperandState(w.p, w.tys, e, taken, st, held).Some?
    ensures var r, st1 := Eval(w, e, s, fuel), OperandState(w.p, w.tys, e, taken, st, held).value;
      && Fine(r, Careful(w.p))
      && st.Keys <= st1.Keys && OwnedIn(st1) <= OwnedIn(st)
      && (r.Done? ==> Evaluated(w, sc, OwnedIn(st1), held, s, r.s, lent, flight, r.value, ty))
    decreases fuel, 0, e, 2
  {
    if e.Var? && IsOwnVar(w.tys, e.x) {
      assert OwnedIn(st[e.x := Moved]) == OwnedIn(st) - {e.x};
      TakeOwner(w, sc, OwnedIn(st), held, s, lent, flight, e.x);
    } else {
      EvalMovesExactly(w.p, w.tys, e, st, held);
      EvalSafe(w, e, pos, sc, st, held, d, s, lent, flight, fuel);
    }
  }

  // Right-hand sides, returned values and by-value scrutinees.
  lemma {:induction false} TakeSafe(w: World, e: Expr, sc: Scope, st: StateMap, d: set<Name>, s: State, lent: set<nat>,
      flight: set<nat>, fuel: nat)
    requires Ready(w, sc, st, d, s, lent, flight)
    requires TypeOf(w.p, w.tys, sc, e, Taken).Some?
    requires Assigned(w.tys, sc, d, e)
    requires Take(w.p, w.tys, e, st).Some?
    ensures var r := Eval(w, e, s, fuel);
      && Fine(r, Careful(w.p))
      && (r.Done? ==> Evaluated(w, sc, OwnedIn(Take(w.p, w.tys, e, st).value), {}, s, r.s, lent, flight,
                                r.value, TypeOf(w.p, w.tys, sc, e, Taken).value))
    decreases fuel, 0, e, 3
  {
    OperandSafe(w, e, true, TypeOf(w.p, w.tys, sc, e, Taken).value, Taken, sc, st, {}, d, s, lent, flight, fuel);
  }

  // -------------------------------------------------------------------------
  // Statements
  // -------------------------------------------------------------------------

  // A statement has run: these variables own now, and callers are undisturbed.
  ghost predicate Ran(w: World, sc: Scope, own: set<Name>, s: State, s': State, lent: set<nat>, flight: set<nat>) {
    s.frames != [] && Inv(w, sc, own, s', lent, flight) && Stable(s, s', |s.frames| - 1, lent + flight)
  }

  lemma RanThen(w: World, sc: Scope, own: set<Name>, s: State, s1: State, s2: State, lent: set<nat>, flight: set<nat>)
    requires s.frames != [] && s1.frames != []
    requires Stable(s, s1, |s.frames| - 1, lent + flight)
    requires Ran(w, sc, own, s1, s2, lent, flight)
    ensures Ran(w, sc, own, s, s2, lent, flight)
  {
    StableTrans(s, s1, s2, |s.frames| - 1, lent + flight);
  }

  lemma AssignSafe(w: World, sc: Scope, own: set<Name>, s: State, s1: State, lent: set<nat>, flight: set<nat>, x: Name,
      v: Value)
    requires s.frames != []
    requires x in sc.names && x !in sc.aliases && x in w.tys && !w.tys[x].TBorrow?
    requires Evaluated(w, sc, own, {}, s, s1, lent, flight, v, w.tys[x])
    requires IsOwn(w.tys[x]) ==> x !in own
    ensures Ran(w, sc, if IsOwn(w.tys[x]) then own + {x} else own, s, WithTop(s1, Top(s1)[x := v]), lent, flight)
  {
    hide Copies, Lends, CellsOwned;
    var f: Frame := Top(s1)[x := v];
    var s2 := WithTop(s1, f);
    assert lent + (flight + Cells(s1.heap, v)) == lent + flight + Cells(s1.heap, v);
    if IsOwn(w.tys[x]) {
      OwnsReceive(w.p.ctors, w.tys, s1.heap, Top(s1), own, lent + flight, x, v);
    } else {
      assert lent + flight + Cells(s1.heap, v) == lent + flight;
      assert forall y | y in own :: IsOwnVar(w.tys, y);
      OwnsCarry(w.p.ctors, w.tys, s1.heap, Top(s1), own, lent + flight, s1.heap, f, lent + flight);
    }
    CopiesAssign(w, sc, s1, lent, x, v);
    assert Stable(s, s1, |s.frames| - 1, lent + flight);
    StablePop(s, s1, s2, lent + flight);
  }

  lemma CopiesAssign(w: World, sc: Scope, s: State, lent: set<nat>, x: Name, v: Value)
    requires s.frames != [] && Copies(w, sc, s, lent)
    requires x in sc.names && x !in sc.aliases && x in w.tys && !w.tys[x].TBorrow?
    requires w.tys[x].TInt? ==> v.IntV?
    ensures Copies(w, sc, WithTop(s, Top(s)[x := v]), lent)
  {
    var s2 := WithTop(s, Top(s)[x := v]);
    forall y | y in sc.names && w.tys[y].TBorrow?
      ensures Lends(w.p.ctors, s2, |s.frames| - 1, Top(s2)[y], w.tys[y].referent, lent)
    {
      var u := Top(s)[y];
      assert Lends(w.p.ctors, s, |s.frames| - 1, u, w.tys[y].referent, lent);
      assert s2.frames[u.depth] == s.frames[u.depth];
    }
  }

  // Storing an integer, in a live cell or in a slot that lends one.
  lemma StoreSafe(w: World, sc: Scope, own: set<Name>, s: State, lent: set<nat>, flight: set<nat>, q: Value, n: int)
    requires Inv(w, sc, own, s, lent, flight)
    requires (q.PtrV? && q.a in s.heap && s.heap[q.a].IntCell?) || Lends(w.p.ctors, s, |s.frames| - 1, q, TInt, lent)
    ensures var r := WriteThrough(q, IntV(n), s);
      r.Some? && Inv(w, sc, own, r.value, lent, flight) && Stable(s, r.value, |s.frames|, s.heap.Keys)
  {
    var s1 := WriteThrough(q, IntV(n), s).value;
    CellsOwnedLive(s.heap, Top(s), own);
    forall i | 0 <= i < |s.frames|
      ensures Quiet(s.frames[i], s1.frames[i])
    {
    }
    assert SameShape(s.heap, s1.heap, s.heap.Keys);
    InvCarry(w, sc, own, s, lent, flight, s1, flight);
  }

  lemma {:induction false} WriteSafe(w: World, c: Stmt, sc: Scope, st: StateMap, d: set<Name>, s: State, lent: set<nat>,
      flight: set<nat>, fuel: nat)
    requires Ready(w, sc, st, d, s, lent, flight)
    requires c.Write? && WfStmt(w.p, w.tys, c, sc, d)
    requires AnalyzeStmt(w.p, w.tys, c, st).Some?
    ensures var r := Exec(w, c, s, fuel);
      Fine(r, Careful(w.p) && CarefulStmt(w.p, w.tys, c)) &&
        (r.Done? ==> Ran(w, sc, OwnedIn(AnalyzeStmt(w.p, w.tys, c, st).value.st), s, r.s, lent, flight))
    decreases fuel, 0, c, 1
  {
    var q, rhs := c.target, c.rhs;
    if q.Var? || q.Deref? {
      WriteInPlace(w, q, rhs, sc, st, d, s, lent, flight, fuel);
    } else {
      WriteTemporary(w, q, rhs, sc, st, d, s, lent, flight, fuel);
    }
  }

  // Where a store through a place goes: a lent slot, or a live cell that is lent
  // or belongs to the owner named.
  ghost predicate Target(w: World, own: set<Name>, s: State, lent: set<nat>, q: Expr, a: Value)
    requires s.frames != []
  {
    || Lends(w.p.ctors, s, |s.frames| - 1, a, TInt, lent)
    || (a.PtrV? && a.a in lent && a.a in s.heap && s.heap[a.a].IntCell?)
    || (a.PtrV? && q.Var? && q.x in own && q.x in w.tys && w.tys[q.x] == TOwn && q.x in Top(s) && Top(s)[q.x] == a)
  }

  lemma {:induction false} WriteInPlace(w: World, q: Expr, rhs: Expr, sc: Scope, st: StateMap, d: set<Name>, s: State,
      lent: set<nat>, flight: set<nat>, fuel: nat)
    requires Ready(w, sc, st, d, s, lent, flight)
    requires q.Var? || q.Deref?
    requires WfStmt(w.p, w.tys, Write(q, rhs), sc, d)
    requires AnalyzeStmt(w.p, w.tys, Write(q, rhs), st).Some?
    ensures var r := Exec(w, Write(q, rhs), s, fuel);
      Fine(r, Careful(w.p) && CarefulStmt(w.p, w.tys, Write(q, rhs))) &&
        (r.Done? ==> Ran(w, sc, OwnedIn(AnalyzeStmt(w.p, w.tys, Write(q, rhs), st).value.st), s, r.s, lent, flight))
    decreases fuel, 0, Write(q, rhs), 0
  {
    hide Owns, Copies, Lends, Eval, Ran;
    PlaceMovesNothing(w, sc, q, st, {});
    TakeSafe(w, rhs, sc, st, d, s, lent, flight, fuel);
    var own := OwnedIn(Take(w.p, w.tys, rhs, st).value);
    var v := Eval(w, rhs, s, fuel);
    if MovesTarget(w, q, rhs) {
      TargetMoved(w, q.x, rhs, sc, st, d, s, lent, flight, fuel);
    } else {
      PlaceIsTarget(w, q, rhs, sc, st, d, s, lent, flight, fuel);
      if v.Done? {
        StoreInPlace(w, sc, own, s, v.s, lent, flight, q, Eval(w, q, s, fuel).value, v.value);
      }
    }
  }

  // The target's address was read before the right-hand side moved its owner: when
  // the value is ready the cell is gone.
  lemma {:induction false} TargetMoved(w: World, x: Name, rhs: Expr, sc: Scope, st: StateMap, d: set<Name>, s: State,
      lent: set<nat>, flight: set<nat>, fuel: nat)
    requires Ready(w, sc, st, d, s, lent, flight)
    requires WfStmt(w.p, w.tys, Write(Var(x), rhs), sc, d)
    requires AnalyzeStmt(w.p, w.tys, Write(Var(x), rhs), st).Some?
    requires x in MovedBy(w.p, w.tys, rhs)
    requires var v := Eval(w, rhs, s, fuel);
      v.Done? ==> Evaluated(w, sc, OwnedIn(Take(w.p, w.tys, rhs, st).value), {}, s, v.s, lent, flight, v.value, TInt)
    ensures var q, v := Eval(w, Var(x), s, fuel), Eval(w, rhs, s, fuel);
      q.Done? && q.s == s && (v.Done? ==> WriteThrough(q.value, v.value, v.s).None?)
  {
    TakeMovesExactly(w.p, w.tys, rhs, st);
    EvalMovesExactly(w.p, w.tys, rhs, st, {});
    MovesNoAlias(w.p, w.tys, sc, rhs, Taken);
    var v := Eval(w, rhs, s, fuel);
    assert x in OwnedIn(st);
    if v.Done? {
      MovedIsFreed(w, sc, OwnedIn(st), OwnedIn(Take(w.p, w.tys, rhs, st).value), s, v.s, lent, flight, x, v.value);
      assert Top(s)[x].a in Cells(s.heap, Top(s)[x]);
    }
  }

  // A cell moved by an expression that leaves an integer behind is gone.
  lemma MovedIsFreed(w: World, sc: Scope, own0: set<Name>, own: set<Name>, s: State, s1: State, lent: set<nat>,
      flight: set<nat>, x: Name, v: Value)
    requires Inv(w, sc, own0, s, lent, flight) && own <= own0
    requires Evaluated(w, sc, own, {}, s, s1, lent, flight, v, TInt)
    requires x in own0 - own
    ensures Cells(s.heap, Top(s)[x]) !! s1.heap.Keys
  {
    OwnedKept(w, sc, own0, own, s, s1, lent, flight);
    assert flight + Cells(s1.heap, v) == flight;
    assert Cells(s.heap, Top(s)[x]) !! CellsOwned(s.heap, Top(s), own);
    assert Cells(s.heap, Top(s)[x]) <= CellsOwned(s.heap, Top(s), own0);
  }

  // The owner a target is read through is one the right-hand side does not move.
  lemma {:induction false} PlaceIsTarget(w: World, q: Expr, rhs: Expr, sc: Scope, st: StateMap, d: set<Name>, s: State,
      lent: set<nat>, flight: set<nat>, fuel: nat)
    requires Ready(w, sc, st, d, s, lent, flight)
    requires q.Var? || q.Deref?
    requires WfStmt(w.p, w.tys, Write(q, rhs), sc, d) && !MovesTarget(w, q, rhs)
    requires EvalExpr(w.p, w.tys, q, st, {}) == Some(st)
    requires Take(w.p, w.tys, rhs, st).Some?
    ensures var r := Eval(w, q, s, fuel);
      r.Done? && r.s == s && Target(w, OwnedIn(Take(w.p, w.tys, rhs, st).value), s, lent, q, r.value)
  {
    Look(w, sc, OwnedIn(st), q, s, lent, flight, fuel);
    TakeMovesExactly(w.p, w.tys, rhs, st);
    var a := Eval(w, q, s, fuel).value;
    if a.PtrV? {
      assert a.a in Cells(s.heap, a);
    }
  }

  lemma TargetKept(w: World, sc: Scope, own: set<Name>, s: State, s1: State, lent: set<nat>, flight: set<nat>, q: Expr,
      a: Value, v: Value)
    requires Evaluated(w, sc, own, {}, s, s1, lent, flight, v, TInt)
    requires Target(w, own, s, lent, q, a)
    ensures (a.PtrV? && a.a in s1.heap && s1.heap[a.a].IntCell?) || Lends(w.p.ctors, s1, |s.frames| - 1, a, TInt, lent)
  {
    if Lends(w.p.ctors, s, |s.frames| - 1, a, TInt, lent) {
      LendsStable(w.p.ctors, s, s1, |s.frames| - 1, a, TInt, lent);
    } else if !(a.a in lent) {
      assert Quiet(Top(s), Top(s1));
      assert Tree(w.p.ctors, s1.heap, Top(s1)[q.x], TOwn);
    }
  }

  // The place written is still there when the value is ready.
  lemma StoreInPlace(w: World, sc: Scope, own: set<Name>, s: State, s1: State, lent: set<nat>, flight: set<nat>,
      q: Expr, a: Value, v: Value)
    requires Evaluated(w, sc, own, {}, s, s1, lent, flight, v, TInt)
    requires Target(w, own, s, lent, q, a)
    ensures var r := WriteThrough(a, v, s1); r.Some? && Ran(w, sc, own, s, r.value, lent, flight)
  {
    hide Owns, Copies, Lends;
    TargetKept(w, sc, own, s, s1, lent, flight, q, a, v);
    assert flight + Cells(s1.heap, v) == flight;
    StoreSafe(w, sc, own, s1, lent, flight, a, v.n);
    var s2 := WriteThrough(a, v, s1).value;
    assert Stable(s1, s2, |s.frames| - 1, lent + flight);
    StableTrans(s, s1, s2, |s.frames| - 1, lent + flight);
  }

  lemma {:induction false} WriteTemporary(w: World, q: Expr, rhs: Expr, sc: Scope, st: StateMap, d: set<Name>, s: State,
      lent: set<nat>, flight: set<nat>, fuel: nat)
    requires Ready(w, sc, st, d, s, lent, flight)
    requires !q.Var? && !q.Deref?
    requires WfStmt(w.p, w.tys, Write(q, rhs), sc, d)
    requires AnalyzeStmt(w.p, w.tys, Write(q, rhs), st).Some?
    ensures var r := Exec(w, Write(q, rhs), s, fuel);
      Fine(r, Careful(w.p)) &&
        (r.Done? ==> Ran(w, sc, OwnedIn(AnalyzeStmt(w.p, w.tys, Write(q, rhs), st).value.st), s, r.s, lent, flight))
    decreases fuel, 0, Write(q, rhs), 0
  {
    hide Owns, Copies, Lends, Setting, Tree, Stable, Eval, EvalExpr, Take;
    assert q.Call? || q.Alloc?;
    if q.Call? {
      ReturnsNoBorrow(w, q.f);
    }
    EvalMovesExactly(w.p, w.tys, q, st, {});
    var st1 := EvalExpr(w.p, w.tys, q, st, {}).value;
    EvalSafe(w, q, Taken, sc, st, {}, d, s, lent, flight, fuel);
    var a := Eval(w, q, s, fuel);
    if a.Done? {
      TemporaryTakes(w, rhs, sc, st1, d, s, a.s, lent, flight, fuel, a.value);
    }
  }

  lemma {:induction false} TemporaryTakes(w: World, rhs: Expr, sc: Scope, st: StateMap, d: set<Name>, s: State,
      s1: State, lent: set<nat>, flight: set<nat>, fuel: nat, a: Value)
    requires Evaluated(w, sc, OwnedIn(st), {}, s, s1, lent, flight, a, TOwn)
    requires Ready(w, sc, st, d, s1, lent, flight + Cells(s1.heap, a))
    requires TypeOf(w.p, w.tys, sc, rhs, Taken) == Some(TInt)
    requires Assigned(w.tys, sc, d, rhs) && Take(w.p, w.tys, rhs, st).Some?
    ensures var v := Eval(w, rhs, s1, fuel);
      Fine(v, Careful(w.p)) && (v.Done? ==>
        var r := WriteThrough(a, v.value, v.s);
        r.Some? && Ran(w, sc, OwnedIn(Take(w.p, w.tys, rhs, st).value), s, Release(a, r.value), lent, flight))
    decreases fuel, 0, rhs, 4
  {
    TakeSafe(w, rhs, sc, st, d, s1, lent, flight + Cells(s1.heap, a), fuel);
    TakeMovesExactly(w.p, w.tys, rhs, st);
    var v := Eval(w, rhs, s1, fuel);
    if v.Done? {
      StoreTemporary(w, sc, OwnedIn(st), OwnedIn(Take(w.p, w.tys, rhs, st).value), s, s1, v.s, lent, flight, a,
        v.value);
    }
  }

  // The temporary outlives the right-hand side, takes the value, and is freed.
  lemma {:induction false} StoreTemporary(w: World, sc: Scope, own1: set<Name>, own: set<Name>, s: State, s1: State,
      s2: State, lent: set<nat>, flight: set<nat>, a: Value, v: Value)
    requires Evaluated(w, sc, own1, {}, s, s1, lent, flight, a, TOwn)
    requires Evaluated(w, sc, own, {}, s1, s2, lent, flight + Cells(s1.heap, a), v, TInt)
    ensures var r := WriteThrough(a, v, s2); r.Some? && Ran(w, sc, own, s, Release(a, r.value), lent, flight)
  {
    hide Owns, Copies, Lends;
    var p, n, zs := a.a, |s.frames| - 1, lent + flight;
    assert Cells(s1.heap, a) == {p};
    assert flight + {p} + Cells(s2.heap, v) == flight + {p};
    StoreSafe(w, sc, own, s2, lent, flight + {p}, a, v.n);
    var s3 := WriteThrough(a, v, s2).value;
    FreeInFlight(w, sc, own, s3, lent, flight, p);
    StableTrans(s, s1, s2, n, zs);
    assert Stable(s2, s3, n, zs);
    StableTrans(s, s2, s3, n, zs);
    StableTrans(s, s3, Release(a, s3), n, zs);
  }

  lemma {:induction false} AssignStmtSafe(w: World, c: Stmt, sc: Scope, st: StateMap, d: set<Name>, s: State,
      lent: set<nat>, flight: set<nat>, fuel: nat)
    requires Ready(w, sc, st, d, s, lent, flight)
    requires c.Assign? && WfStmt(w.p, w.tys, c, sc, d)
    requires AnalyzeStmt(w.p, w.tys, c, st).Some?
    ensures var r, out := Exec(w, AnalyzeStmt(w.p, w.tys, c, st).value.code, s, fuel),
      AnalyzeStmt(w.p, w.tys, c, st).value.st;
      Fine(r, Careful(w.p)) && (r.Done? ==> Ran(w, sc, OwnedIn(out), s, r.s, lent, flight))
    decreases fuel, 0, c, 0
  {
    hide Owns, Lends;
    var x, rhs := c.x, c.rhs;
    TakeSafe(w, rhs, sc, st, d, s, lent, flight, fuel);
    var v := Eval(w, rhs, s, fuel);
    if v.Done? {
      AssignSafe(w, sc, OwnedIn(Take(w.p, w.tys, rhs, st).value), s, v.s, lent, flight, x, v.value);
      OwnedUpdate(Take(w.p, w.tys, rhs, st).value, x);
    }
  }

  lemma {:induction false} ExecSafe(w: World, c: Stmt, sc: Scope, st: StateMap, d: set<Name>, s: State, lent: set<nat>,
      flight: set<nat>, fuel: nat)
    requires Ready(w, sc, st, d, s, lent, flight)
    requires WfStmt(w.p, w.tys, c, sc, d)
    requires AnalyzeStmt(w.p, w.tys, c, st).Some?
    ensures var r, out := Exec(w, AnalyzeStmt(w.p, w.tys, c, st).value.code, s, fuel),
      AnalyzeStmt(w.p, w.tys, c, st).value.st;
      Fine(r, Careful(w.p) && CarefulStmt(w.p, w.tys, c)) &&
        (r.Done? ==> Ran(w, sc, OwnedIn(out), s, r.s, lent, flight))
    decreases fuel, 0, c, 2
  {
    hide Owns, Copies, Lends;
    match c
    case Assign(_, _) => AssignStmtSafe(w, c, sc, st, d, s, lent, flight, fuel);
    case Write(_, _) => WriteSafe(w, c, sc, st, d, s, lent, flight, fuel);
    case Block(cs) => ExecAllSafe(w, cs, sc, st, d, s, lent, flight, fuel);
    case If(e, t, f) => IfSafe(w, e, t, f, sc, st, d, s, lent, flight, fuel);
    case While(e, b) => WhileSafe(w, e, b, sc, st, d, s, lent, flight, fuel);
    case Output(e) =>
      CondSafe(w, e, sc, st, d, s, lent, flight, fuel);
      var v := Eval(w, e, s, fuel);
      if v.Done? {
        Printed(w, sc, OwnedIn(EvalExpr(w.p, w.tys, e, st, {}).value), s, v.s, lent, flight, v.value.n);
      }
    case Error(e) => CondSafe(w, e, sc, st, d, s, lent, flight, fuel);
    case Case(e, arms) => CaseSafe(w, e, arms, sc, st, d, s, lent, flight, fuel);
  }

  lemma OwnedUpdate(st: StateMap, x: Name)
    ensures OwnedIn(st[x := Owned]) == OwnedIn(st) + {x}
  {
  }

  // Printing touches no variable and no cell.
  lemma Printed(w: World, sc: Scope, own: set<Name>, s: State, s1: State, lent: set<nat>, flight: set<nat>, n: int)
    requires Ran(w, sc, own, s, s1, lent, flight)
    ensures Ran(w, sc, own, s, s1.(printed := s1.printed + [n]), lent, flight)
  {
    hide Lends, Owns, Copies, Tree, Cells, CellsOwned;
    var s2 := s1.(printed := s1.printed + [n]);
    assert Top(s2) == Top(s1);
    assert Stable(s1, s2, |s1.frames|, lent);
    CopiesStable(w, sc, s1, s2, lent);
  }

  // An integer operand of a statement.
  lemma {:induction false} CondSafe(w: World, e: Expr, sc: Scope, st: StateMap, d: set<Name>, s: State, lent: set<nat>,
      flight: set<nat>, fuel: nat)
    requires Ready(w, sc, st, d, s, lent, flight)
    requires TypeOf(w.p, w.tys, sc, e, Taken) == Some(TInt) && Assigned(w.tys, sc, d, e)
    requires EvalExpr(w.p, w.tys, e, st, {}).Some?
    ensures var r, st1 := Eval(w, e, s, fuel), EvalExpr(w.p, w.tys, e, st, {}).value;
      && Fine(r, Careful(w.p))
      && (r.Done? ==>
        r.value.IntV? && Ready(w, sc, st1, d, r.s, lent, flight) && Ran(w, sc, OwnedIn(st1), s, r.s, lent, flight))
    decreases fuel, 0, e, 3
  {
    hide Owns, Copies, Lends;
    EvalMovesExactly(w.p, w.tys, e, st, {});
    EvalSafe(w, e, Taken, sc, st, {}, d, s, lent, flight, fuel);
    var r := Eval(w, e, s, fuel);
    if r.Done? {
      assert flight + Cells(r.s.heap, r.value) == flight;
    }
  }

  lemma {:induction false} IfAnalyzed(p: Program, tys: map<Name, Ty>, e: Expr, t: Stmt, f: Stmt, st: StateMap)
    requires AnalyzeStmt(p, tys, If(e, t, f), st).Some?
    ensures EvalExpr(p, tys, e, st, {}).Some?
    ensures var st1 := EvalExpr(p, tys, e, st, {}).value;
      && AnalyzeStmt(p, tys, t, st1).Some? && AnalyzeStmt(p, tys, f, st1).Some?
      && var a1, a2 := AnalyzeStmt(p, tys, t, st1).value, AnalyzeStmt(p, tys, f, st1).value;
         var a := AnalyzeStmt(p, tys, If(e, t, f), st).value;
         OwnedIn(a.st) == OwnedIn(a1.st) == OwnedIn(a2.st) && a.code == If(e, a1.code, a2.code)
  {
    var st1 := EvalExpr(p, tys, e, st, {}).value;
    var a1, a2 := AnalyzeStmt(p, tys, t, st1).value, AnalyzeStmt(p, tys, f, st1).value;
    JoinKeys([a1.st, a2.st]);
    assert a2.st in [a1.st, a2.st];
  }

  lemma {:induction false} IfRuns(w: World, e: Expr, t: Stmt, f: Stmt, s: State, fuel: nat)
    requires s.frames != []
    ensures var v := Eval(w, e, s, fuel);
      Exec(w, If(e, t, f), s, fuel)
      == if !v.Done? then Failed(v) else if !v.value.IntV? then Fault
         else Exec(w, if v.value.n != 0 then t else f, v.s, fuel)
  {
  }

  lemma {:induction false} WhileAnalyzed(p: Program, tys: map<Name, Ty>, e: Expr, b: Stmt, st: StateMap)
    requires AnalyzeStmt(p, tys, While(e, b), st).Some?
    ensures EvalExpr(p, tys, e, st, {}) == Some(st) && AnalyzeStmt(p, tys, b, st).Some?
    ensures var a := AnalyzeStmt(p, tys, b, st).value;
      OwnedIn(a.st) == OwnedIn(st) && AnalyzeStmt(p, tys, While(e, b), st).value == Checked(st, While(e, a.code))
  {
  }

  lemma {:induction false} WhileRuns(w: World, e: Expr, b: Stmt, s: State, fuel: nat)
    requires s.frames != []
    ensures var v := Eval(w, e, s, fuel);
      Exec(w, While(e, b), s, fuel)
      == if !v.Done? then Failed(v) else if !v.value.IntV? then Fault
         else if v.value.n == 0 then Done((), v.s)
         else
           var r := Exec(w, b, v.s, fuel);
           if !r.Done? then r else if fuel == 0 then Spent else Exec(w, While(e, b), r.s, fuel - 1)
  {
  }

  lemma {:induction false} IfSafe(w: World, e: Expr, t: Stmt, f: Stmt, sc: Scope, st: StateMap, d: set<Name>, s: State,
      lent: set<nat>, flight: set<nat>, fuel: nat)
    requires Ready(w, sc, st, d, s, lent, flight)
    requires WfStmt(w.p, w.tys, If(e, t, f), sc, d)
    requires AnalyzeStmt(w.p, w.tys, If(e, t, f), st).Some?
    ensures var a := AnalyzeStmt(w.p, w.tys, If(e, t, f), st).value;
      var r := Exec(w, a.code, s, fuel);
      Fine(r, Careful(w.p) && CarefulStmt(w.p, w.tys, If(e, t, f))) &&
        (r.Done? ==> Ran(w, sc, OwnedIn(a.st), s, r.s, lent, flight))
    decreases fuel, 0, If(e, t, f), 0
  {
    hide Owns, Copies, Lends, Stable, Setting, AnalyzeStmt, Exec, Eval, EvalExpr;
    IfAnalyzed(w.p, w.tys, e, t, f, st);
    var st1 := EvalExpr(w.p, w.tys, e, st, {}).value;
    var a1, a2 := AnalyzeStmt(w.p, w.tys, t, st1).value, AnalyzeStmt(w.p, w.tys, f, st1).value;
    IfRuns(w, e, a1.code, a2.code, s, fuel);
    CondSafe(w, e, sc, st, d, s, lent, flight, fuel);
    var v := Eval(w, e, s, fuel);
    if v.Done? {
      ExecSafe(w, t, sc, st1, d, v.s, lent, flight, fuel);
      ExecSafe(w, f, sc, st1, d, v.s, lent, flight, fuel);
      var r := Exec(w, if v.value.n != 0 then a1.code else a2.code, v.s, fuel);
      if r.Done? {
        RanThen(w, sc, OwnedIn(a1.st), s, v.s, r.s, lent, flight);
      }
    }
  }

  lemma {:induction false} WhileSafe(w: World, e: Expr, b: Stmt, sc: Scope, st: StateMap, d: set<Name>, s: State,
      lent: set<nat>, flight: set<nat>, fuel: nat)
    requires Ready(w, sc, st, d, s, lent, flight)
    requires WfStmt(w.p, w.tys, While(e, b), sc, d)
    requires AnalyzeStmt(w.p, w.tys, While(e, b), st).Some?
    ensures var a := AnalyzeStmt(w.p, w.tys, While(e, b), st).value;
      var r := Exec(w, a.code, s, fuel);
      Fine(r, Careful(w.p) && CarefulStmt(w.p, w.tys, While(e, b))) &&
        (r.Done? ==> Ran(w, sc, OwnedIn(a.st), s, r.s, lent, flight))
    decreases fuel, 0, While(e, b), 0
  {
    hide Owns, Copies, Lends, Stable, Setting, AnalyzeStmt, Exec, Eval, EvalExpr;
    WhileAnalyzed(w.p, w.tys, e, b, st);
    var a := AnalyzeStmt(w.p, w.tys, b, st).value;
    WhileRuns(w, e, a.code, s, fuel);
    CondSafe(w, e, sc, st, d, s, lent, flight, fuel);
    var v := Eval(w, e, s, fuel);
    if v.Done? && v.value.n != 0 {
      ExecSafe(w, b, sc, st, d, v.s, lent, flight, fuel);
      var r := Exec(w, a.code, v.s, fuel);
      if r.Done? && fuel > 0 {
        // The body ends as it began: the same variables own.
        assert Ready(w, sc, st, d, r.s, lent, flight);
        RanThen(w, sc, OwnedIn(st), s, v.s, r.s, lent, flight);
        WhileSafe(w, e, b, sc, st, d, r.s, lent, flight, fuel - 1);
        var r' := Exec(w, While(e, a.code), r.s, fuel - 1);
        if r'.Done? {
          RanThen(w, sc, OwnedIn(st), s, r.s, r'.s, lent, flight);
        }
      }
    }
  }

  lemma {:induction false} ExecAllSafe(w: World, cs: List<Stmt>, sc: Scope, st: StateMap, d: set<Name>, s: State,
      lent: set<nat>, flight: set<nat>, fuel: nat)
    requires Ready(w, sc, st, d, s, lent, flight)
    requires WfStmts(w.p, w.tys, cs, sc, d)
    requires AnalyzeStmts(w.p, w.tys, cs, st).Some?
    ensures var r, out := ExecAll(w, AnalyzeStmts(w.p, w.tys, cs, st).value.code, s, fuel),
      AnalyzeStmts(w.p, w.tys, cs, st).value.st;
      Fine(r, Careful(w.p) && CarefulStmts(w.p, w.tys, cs)) &&
        (r.Done? ==> Ran(w, sc, OwnedIn(out), s, r.s, lent, flight))
    decreases fuel, 0, cs, 0
  {
    match cs
    case Nil =>
    case Cons(c, t) =>
      var a := AnalyzeStmt(w.p, w.tys, c, st).value;
      ExecSafe(w, c, sc, st, d, s, lent, flight, fuel);
      AssignedAreTracked(w.p, w.tys, c, sc, d, st);
      var r := Exec(w, a.code, s, fuel);
      if r.Done? {
        ExecAllSafe(w, t, sc, a.st, AssignedAfter(w.tys, c, d), r.s, lent, flight, fuel);
        var r' := ExecAll(w, AnalyzeStmts(w.p, w.tys, t, a.st).value.code, r.s, fuel);
        if r'.Done? {
          RanThen(w, sc, OwnedIn(AnalyzeStmts(w.p, w.tys, t, a.st).value.st), s, r.s, r'.s, lent, flight);
        }
      }
  }

  // -------------------------------------------------------------------------
  // Matches
  // -------------------------------------------------------------------------

  // A value about to be matched: owned by the match, or behind a borrow.
  ghost predicate Scrutinised(w: World, sc: Scope, own: set<Name>, s: State, lent: set<nat>, flight: set<nat>, v: Value,
      owner: Name, byValue: bool) {
    && Setting(w)
    && s.frames != []
    && Tree(w.p.ctors, s.heap, v, TSum(owner))
    && (if byValue then Inv(w, sc, own, s, lent, flight + Cells(s.heap, v)) && Cells(s.heap, v) !! lent + flight
        else Inv(w, sc, own, s, lent, flight) && Cells(s.heap, v) <= lent)
  }

  // During an arm a consumed box is still there, to be freed at the merge.
  function Shell(v: Value, byValue: bool): set<nat> {
    if byValue && v.PtrV? then {v.a} else {}
  }

  lemma {:induction false} LeftoverIs(bs: List<Binder>, st: StateMap)
    ensures Elems(Names(Leftover(bs, st))) == Elems(Names(bs)) * OwnedIn(st)
    ensures Distinct(Names(bs)) ==> Distinct(Names(Leftover(bs, st)))
    ensures Elems(Leftover(bs, st)) <= Elems(bs)
    decreases bs
  {
    if bs.Cons? {
      LeftoverIs(bs.tail, st);
    }
  }

  // The arm's body, then a destroy for each owned binder it left owned.
  lemma {:induction false} BodySafe(w: World, arm: Arm, byValue: bool, sc: Scope, st: StateMap, d: set<Name>, s1: State,
      lent: set<nat>, flight: set<nat>, fuel: nat)
    requires var bs, sc1 := ArmBinders(arm, byValue), ArmScope(arm, byValue, sc);
      && Ready(w, sc1, SetOwned(st, bs), d, s1, lent, flight)
      && WfStmt(w.p, w.tys, arm.body, sc1, d)
    requires AnalyzeArm(w.p, w.tys, arm, byValue, st).Some? && TypedAs(w.tys, ArmOwned(arm, byValue))
    requires var bs := ArmBinders(arm, byValue);
      Distinct(Names(Leftover(ArmOwned(arm, byValue), AnalyzeStmt(w.p, w.tys, arm.body, SetOwned(st, bs)).value.st)))
    ensures var bs := ArmBinders(arm, byValue);
      var out := AnalyzeStmt(w.p, w.tys, arm.body, SetOwned(st, bs)).value.st;
      var r := Exec(w, AnalyzeArm(w.p, w.tys, arm, byValue, st).value.code.body, s1, fuel);
      && Fine(r, Careful(w.p) && CarefulStmt(w.p, w.tys, arm.body))
      && (r.Done? ==> Ran(w, ArmScope(arm, byValue, sc), OwnedIn(out) - Elems(bs), s1, r.s, lent, flight))
    decreases fuel, 0, arm.body, 3
  {
    hide Owns, Copies, Lends;
    var bs, sc1 := ArmBinders(arm, byValue), ArmScope(arm, byValue, sc);
    var a := AnalyzeStmt(w.p, w.tys, arm.body, SetOwned(st, bs)).value;
    LeftoverIs(ArmOwned(arm, byValue), a.st);
    ExecSafe(w, arm.body, sc1, SetOwned(st, bs), d, s1, lent, flight, fuel);
    var left, r := Leftover(ArmOwned(arm, byValue), a.st), Exec(w, a.code, s1, fuel);
    if left.Nil? {
      assert OwnedIn(a.st) - Elems(bs) == OwnedIn(a.st);
    } else if r.Done? {
      DestroyStatements(w, left, r.s, fuel);
      DestroyOwners(w, sc1, OwnedIn(a.st), r.s, lent, flight, Names(left));
      var r' := DestroyVars(w, Names(left), r.s);
      assert OwnedIn(a.st) - Elems(Names(left)) == OwnedIn(a.st) - Elems(bs);
      if r'.Done? {
        RanThen(w, sc1, OwnedIn(a.st) - Elems(bs), s1, r.s, r'.s, lent, flight);
      }
    }
  }

  lemma BinderSets(w: World, sc1: Scope, arm: Arm, byValue: bool, st: StateMap, out: StateMap, own2: set<Name>,
      s2: State, lent: set<nat>, flight: set<nat>)
    requires Linear(arm, byValue) && AllUsedAsBound(w.tys, arm.pats)
    requires own2 == OwnedIn(out) - Elems(ArmBinders(arm, byValue))
    requires Inv(w, sc1, own2, s2, lent, flight)
    requires forall x | x in OwnedIn(st) :: IsOwnVar(w.tys, x)
    requires !byValue ==>
      OwnSet(w.tys, BindersOf(arm.pats)) !! OwnedIn(st) && OwnSet(w.tys, BindersOf(arm.pats)) <= sc1.aliases
    ensures own2 !! Elems(BindersOf(arm.pats))
    ensures OwnedIn(Restore(out, ArmBinders(arm, byValue), st)) == own2 + OwnedIn(st)
      * Elems(BindersOf(arm.pats))
  {
    var bs := BindersOf(arm.pats);
    OwnSetIs(w.tys, bs);
    AllOwnersAsUsed(w.tys, arm.pats);
    RestoredState(out, ArmBinders(arm, byValue), st);
    DistinctRepeatsNone(ArmBinders(arm, byValue));
    assert forall x | x in own2 :: IsOwnVar(w.tys, x);
  }

  lemma {:induction false} ArmSafe(w: World, arm: Arm, owner: Name, byValue: bool, sc: Scope, st: StateMap,
      d: set<Name>, s: State, lent: set<nat>, flight: set<nat>, v: Value, fuel: nat)
    requires Scrutinised(w, sc, OwnedIn(st), s, lent, flight, v, owner, byValue)
    requires d <= st.Keys
    requires WfArm(w.p, w.tys, arm, owner, byValue, sc, d)
    requires AnalyzeArm(w.p, w.tys, arm, byValue, st).Some?
    requires AllUsedAsBound(w.tys, arm.pats) && Linear(arm, byValue)
    requires s.heap[v.a].tag == arm.tag && AllMatch(arm.pats, ShapesOf(s.heap, s.heap[v.a].fields, v.a))
    ensures var a := AnalyzeArm(w.p, w.tys, arm, byValue, st).value;
      var b := BindPats(w.p.ctors, s.heap, Top(s), v.a, s.heap[v.a].fields, arm.pats, w.p.ctors[arm.tag].params,
        byValue, s.next);
      && b.Bound?
      && var r := Exec(w, a.code.body, WithTop(s.(heap := b.h), b.f), fuel);
         && Fine(r, Careful(w.p) && CarefulStmt(w.p, w.tys, arm.body))
         && (r.Done? ==> Ran(w, sc, OwnedIn(a.st), s, WithTop(r.s, Unshadow(Top(r.s), BindersOf(arm.pats), Top(s))),
                             lent, flight + Shell(v, byValue)))
    decreases fuel, 0, arm, 0
  {
    hide Copies, Lends, WfArm, AnalyzeArm, AllMatch, ShapesOf, BindPats, Exec, Unshadow, Setting, Cells;
    if byValue {
      ArmByValueSafe(w, arm, owner, sc, st, d, s, lent, flight, v, fuel);
    } else {
      ArmBorrowedSafe(w, arm, owner, sc, st, d, s, lent, flight, v, fuel);
    }
  }

  lemma {:induction false} ArmByValueSafe(w: World, arm: Arm, owner: Name, sc: Scope, st: StateMap, d: set<Name>,
      s: State, lent: set<nat>, flight: set<nat>, v: Value, fuel: nat)
    requires Scrutinised(w, sc, OwnedIn(st), s, lent, flight, v, owner, true)
    requires d <= st.Keys
    requires WfArm(w.p, w.tys, arm, owner, true, sc, d)
    requires AnalyzeArm(w.p, w.tys, arm, true, st).Some?
    requires AllUsedAsBound(w.tys, arm.pats) && Linear(arm, true)
    requires s.heap[v.a].tag == arm.tag && AllMatch(arm.pats, ShapesOf(s.heap, s.heap[v.a].fields, v.a))
    ensures var a := AnalyzeArm(w.p, w.tys, arm, true, st).value;
      var b := BindPats(w.p.ctors, s.heap, Top(s), v.a, s.heap[v.a].fields, arm.pats, w.p.ctors[arm.tag].params, true,
        s.next);
      && b.Bound?
      && var r := Exec(w, a.code.body, WithTop(s.(heap := b.h), b.f), fuel);
         && Fine(r, Careful(w.p) && CarefulStmt(w.p, w.tys, arm.body))
         && (r.Done? ==> Ran(w, sc, OwnedIn(a.st), s, WithTop(r.s, Unshadow(Top(r.s), BindersOf(arm.pats), Top(s))),
                             lent, flight + {v.a}))
    decreases fuel, 0, arm.body, 4
  {
    var bs := BindersOf(arm.pats);
    var b := BindPats(w.p.ctors, s.heap, Top(s), v.a, s.heap[v.a].fields, arm.pats, w.p.ctors[arm.tag].params, true,
      s.next);
    var lost := EnterByValue(w, sc, OwnedIn(st), s, lent, flight, v, arm);
    var s1 := WithTop(s.(heap := b.h), b.f);
    var hid := Hidden(s, OwnedIn(st), arm);
    assert flight + {v.a} + hid + lost == flight + {v.a} + hid;
    AllOwnersAsUsed(w.tys, arm.pats);
    EnteredState(st, ArmBinders(arm, true));
    LeftoverIs(ArmOwned(arm, true), AnalyzeStmt(w.p, w.tys, arm.body, SetOwned(st, ArmBinders(arm, true))).value.st);
    BodySafe(w, arm, true, sc, st, d + ArmOwners(arm, true), s1, lent, flight + {v.a} + hid, fuel);
    var r := Exec(w, AnalyzeArm(w.p, w.tys, arm, true, st).value.code.body, s1, fuel);
    if r.Done? {
      var out := AnalyzeStmt(w.p, w.tys, arm.body, SetOwned(st, ArmBinders(arm, true))).value.st;
      LeaveByValue(w, arm, sc, st, out, s, s1, r.s, lent, flight, v);
    }
  }

  lemma {:induction false} LeaveByValue(w: World, arm: Arm, sc: Scope, st: StateMap, out: StateMap, s: State, s1: State,
      s2: State, lent: set<nat>, flight: set<nat>, v: Value)
    requires ArmFits(w, arm, true, sc) && Linear(arm, true)
    requires v.PtrV? && v.a in Cells(s.heap, v)
    requires Inv(w, sc, OwnedIn(st), s, lent, flight + Cells(s.heap, v)) && Cells(s.heap, v) !! lent + flight
    requires Stable(s, s1, |s.frames| - 1, lent + (flight + {v.a} + Hidden(s, OwnedIn(st), arm)))
    requires Ran(w, ArmScope(arm, true, sc), OwnedIn(out) - Elems(ArmBinders(arm, true)), s1,
      s2,
                 lent, flight + {v.a} + Hidden(s, OwnedIn(st), arm))
    ensures Ran(w, sc, OwnedIn(Restore(out, ArmBinders(arm, true), st)), s,
                WithTop(s2, Unshadow(Top(s2), BindersOf(arm.pats), Top(s))), lent, flight + {v.a})
  {
    var bs, sc1 := BindersOf(arm.pats), ArmScope(arm, true, sc);
    var own2, hid := OwnedIn(out) - Elems(ArmBinders(arm, true)), Hidden(s, OwnedIn(st), arm);
    BindersTyped(w, arm.pats, w.p.ctors[arm.tag].params);
    InvMove(w, sc, OwnedIn(st), s, lent, flight + Cells(s.heap, v), OwnedIn(st) * Elems(bs));
    BinderSets(w, sc1, arm, true, st, out, own2, s2, lent, flight + {v.a} + hid);
    StableTrans(s, s1, s2, |s.frames| - 1, lent + (flight + {v.a} + hid));
    assert flight + {v.a} + hid + {} == flight + {v.a} + hid && flight + {v.a} + {} == flight + {v.a};
    LeaveArm(w, sc, sc1, OwnedIn(st), own2, s, s2, lent, flight + Cells(s.heap, v), flight + {v.a}, {}, bs);
  }

  lemma {:induction false} ArmBorrowedSafe(w: World, arm: Arm, owner: Name, sc: Scope, st: StateMap, d: set<Name>,
      s: State, lent: set<nat>, flight: set<nat>, v: Value, fuel: nat)
    requires Scrutinised(w, sc, OwnedIn(st), s, lent, flight, v, owner, false)
    requires d <= st.Keys
    requires WfArm(w.p, w.tys, arm, owner, false, sc, d)
    requires AnalyzeArm(w.p, w.tys, arm, false, st).Some?
    requires AllUsedAsBound(w.tys, arm.pats) && Linear(arm, false)
    requires s.heap[v.a].tag == arm.tag && AllMatch(arm.pats, ShapesOf(s.heap, s.heap[v.a].fields, v.a))
    ensures var a := AnalyzeArm(w.p, w.tys, arm, false, st).value;
      var b := BindPats(w.p.ctors, s.heap, Top(s), v.a, s.heap[v.a].fields, arm.pats, w.p.ctors[arm.tag].params, false,
        s.next);
      && b.Bound?
      && var r := Exec(w, a.code.body, WithTop(s.(heap := b.h), b.f), fuel);
         && Fine(r, Careful(w.p) && CarefulStmt(w.p, w.tys, arm.body))
         && (r.Done? ==> Ran(w, sc, OwnedIn(a.st), s, WithTop(r.s, Unshadow(Top(r.s), BindersOf(arm.pats), Top(s))),
                             lent, flight))
    decreases fuel, 0, arm.body, 4
  {
    hide Owns, Copies, Lends;
    var bs := BindersOf(arm.pats);
    AllOwnersAsUsed(w.tys, arm.pats);
    EnterBorrowed(w, sc, OwnedIn(st), s, lent, flight, v, arm);
    var b := BindPats(w.p.ctors, s.heap, Top(s), v.a, s.heap[v.a].fields, arm.pats, w.p.ctors[arm.tag].params, false,
      s.next);
    var s1 := WithTop(s, b.f);
    assert s1 == WithTop(s.(heap := b.h), b.f);
    assert SetOwned(st, Nil) == st;
    assert d + ArmOwners(arm, false) == d;
    BodySafe(w, arm, false, sc, st, d, s1, lent, flight, fuel);
    var r := Exec(w, AnalyzeArm(w.p, w.tys, arm, false, st).value.code.body, s1, fuel);
    if r.Done? {
      LeaveBorrowed(w, arm, sc, st, AnalyzeStmt(w.p, w.tys, arm.body, st).value.st, s, s1, r.s, lent, flight);
    }
  }

  lemma LeaveBorrowed(w: World, arm: Arm, sc: Scope, st: StateMap, out: StateMap, s: State, s1: State, s2: State,
      lent: set<nat>, flight: set<nat>)
    requires ArmFits(w, arm, false, sc) && Linear(arm, false)
    requires Inv(w, sc, OwnedIn(st), s, lent, flight)
    requires Stable(s, s1, |s.frames| - 1, lent + flight)
    requires OwnedIn(st) !! Elems(BindersOf(arm.pats))
    requires Ran(w, ArmScope(arm, false, sc), OwnedIn(out) - {}, s1, s2, lent, flight)
    ensures Ran(w, sc, OwnedIn(Restore(out, Nil, st)), s, WithTop(s2, Unshadow(Top(s2), BindersOf(arm.pats), Top(s))),
      lent, flight)
  {
    var bs, sc1 := BindersOf(arm.pats), ArmScope(arm, false, sc);
    BindersTyped(w, arm.pats, w.p.ctors[arm.tag].params);
    OwnSetIs(w.tys, bs);
    AllOwnersAsUsed(w.tys, arm.pats);
    assert OwnedIn(out) - {} == OwnedIn(out) - Elems(ArmBinders(arm, false));
    BinderSets(w, sc1, arm, false, st, out, OwnedIn(out) - {}, s2, lent, flight);
    StableTrans(s, s1, s2, |s.frames| - 1, lent + flight);
    assert OwnedIn(st) * Elems(bs) == {};
    assert CellsOwned(s.heap, Top(s), OwnedIn(st) * Elems(bs)) == {};
    assert flight + {} == flight && flight + {} + {} == flight;
    LeaveArm(w, sc, sc1, OwnedIn(st), OwnedIn(out) - {}, s, s2, lent, flight, flight, {}, bs);
  }

  lemma {:induction false} ArmsAnalyzed(p: Program, tys: map<Name, Ty>, arms: List<Arm>, byValue: bool, st: StateMap)
    requires arms.Cons? && AnalyzeArms(p, tys, arms, byValue, st).Some?
    ensures AnalyzeArm(p, tys, arms.head, byValue, st).Some? && AnalyzeArms(p, tys, arms.tail, byValue, st).Some?
    ensures var a, rest := AnalyzeArm(p, tys, arms.head, byValue, st).value,
        AnalyzeArms(p, tys, arms.tail, byValue, st).value;
      && a.code.tag == arms.head.tag && a.code.pats == arms.head.pats
      && AnalyzeArms(p, tys, arms, byValue, st).value == ([a.st] + rest.0, Cons(a.code, rest.1))
  {
  }

  lemma {:induction false} NoArmsAnalyzed(p: Program, tys: map<Name, Ty>, byValue: bool, st: StateMap)
    ensures AnalyzeArms(p, tys, Nil, byValue, st) == Some(([], Nil))
  {
  }

  lemma {:induction false} NoArmsLeft(w: World, byValue: bool, box: nat, s: State, fuel: nat)
    requires s.frames != [] && box in s.heap && s.heap[box].Box?
    ensures ExecArms(w, Nil, byValue, box, s, fuel) == if w.watch then Strays(NoArm) else Done((), s)
  {
  }

  // What trying one arm comes to.
  lemma {:induction false} FirstArm(w: World, arm: Arm, t: List<Arm>, byValue: bool, box: nat, s: State, fuel: nat)
    requires s.frames != [] && box in s.heap && s.heap[box].Box?
    ensures var r, tests := ExecArms(w, Cons(arm, t), byValue, box, s, fuel),
        TestPats(s.heap, s.heap[box].fields, arm.pats);
      && (arm.tag != s.heap[box].tag || tests == Some(false) ==> r == ExecArms(w, t, byValue, box, s, fuel))
      && (arm.tag == s.heap[box].tag && tests == Some(true) ==>
            if w.watch && !AllUsedAsBound(w.tys, arm.pats) then r == Strays(RetypedBinder)
            else if w.watch && !Linear(arm, byValue) then r == Strays(RepeatedBinder)
            else
              var params := if arm.tag in w.p.ctors then w.p.ctors[arm.tag].params else Nil;
              var b := BindPats(w.p.ctors, s.heap, Top(s), box, s.heap[box].fields, arm.pats, params, byValue, s.next);
              && (b.BindSpent? ==> r.Spent?)
              && (b.Bound? ==>
                    var body := Exec(w, arm.body, WithTop(s.(heap := b.h), b.f), fuel);
                    r == if !body.Done? then body
                         else Done((), WithTop(body.s, Unshadow(Top(body.s), BindersOf(arm.pats), Top(s))))))
  {
    hide Exec, BindPats, TestPats, Unshadow;
  }

  // The arms in order: the first that matches is run, if there is one. All arms
  // end with the same owners, own.
  lemma {:induction false} ArmsSafe(w: World, arms: List<Arm>, owner: Name, byValue: bool, sc: Scope, st: StateMap,
      d: set<Name>, s: State, lent: set<nat>, flight: set<nat>, v: Value, own: set<Name>, fuel: nat)
    requires Scrutinised(w, sc, OwnedIn(st), s, lent, flight, v, owner, byValue)
    requires d <= st.Keys
    requires WfArms(w.p, w.tys, arms, owner, byValue, sc, d)
    requires AnalyzeArms(w.p, w.tys, arms, byValue, st).Some?
    requires forall b | b in AnalyzeArms(w.p, w.tys, arms, byValue, st).value.0 :: OwnedIn(b) == own
    ensures var r := ExecArms(w, AnalyzeArms(w.p, w.tys, arms, byValue, st).value.1, byValue, v.a, s, fuel);
      Fine(r, Careful(w.p) && CarefulArms(w.p, w.tys, arms, byValue) && SomeArm(arms, ShapeOf(s.heap, v))) &&
        (r.Done? ==> Ran(w, sc, own, s, r.s, lent, flight + Shell(v, byValue)))
    decreases fuel, 0, arms, 0
  {
    hide Inv, Accepted, Stable, AnalyzeArms, AnalyzeArm, ExecArms;
    if arms.Nil? {
      NoArmsLeft(w, byValue, v.a, s, fuel);
      assert AnalyzeArms(w.p, w.tys, Nil, byValue, st) == Some(([], Nil)) by {
        NoArmsAnalyzed(w.p, w.tys, byValue, st);
      }
    } else {
      var arm, t := arms.head, arms.tail;
      var box := s.heap[v.a];
      ArmsAnalyzed(w.p, w.tys, arms, byValue, st);
      var a := AnalyzeArm(w.p, w.tys, arm, byValue, st).value;
      var rest := AnalyzeArms(w.p, w.tys, t, byValue, st).value;
      FirstArm(w, a.code, rest.1, byValue, v.a, s, fuel);
      assert forall b | b in rest.0 :: b in [a.st] + rest.0;
      assert TypedArm(w.p, w.tys, arm, owner, byValue, sc);
      if arm.tag == box.tag {
        TestsDecide(w.p, s.heap, box.fields, arm.pats, w.p.ctors[arm.tag].params, v.a);
      }
      if arm.tag == box.tag && AllMatch(arm.pats, ShapesOf(s.heap, box.fields, v.a)) {
        assert a.st in [a.st] + rest.0;
        if AllUsedAsBound(w.tys, arm.pats) && Linear(arm, byValue) {
          ArmSafe(w, arm, owner, byValue, sc, st, d, s, lent, flight, v, fuel);
        }
      } else {
        ArmsSafe(w, t, owner, byValue, sc, st, d, s, lent, flight, v, own, fuel);
      }
    }
  }

  lemma {:induction false} CaseSafe(w: World, e: Expr, arms: List<Arm>, sc: Scope, st: StateMap, d: set<Name>, s: State,
      lent: set<nat>, flight: set<nat>, fuel: nat)
    requires Ready(w, sc, st, d, s, lent, flight)
    requires WfStmt(w.p, w.tys, Case(e, arms), sc, d)
    requires AnalyzeStmt(w.p, w.tys, Case(e, arms), st).Some?
    ensures var a := AnalyzeStmt(w.p, w.tys, Case(e, arms), st).value;
      var r := Exec(w, a.code, s, fuel);
      Fine(r, Careful(w.p) && CarefulStmt(w.p, w.tys, Case(e, arms))) &&
        (r.Done? ==> Ran(w, sc, OwnedIn(a.st), s, r.s, lent, flight))
    decreases fuel, 0, Case(e, arms), 0
  {
    var byValue := Consuming(e);
    var owner := TypeOf(w.p, w.tys, sc, e, if byValue then Taken else Place).value.name;
    var st1 := Take(w.p, w.tys, e, st).value;
    var branches := AnalyzeArms(w.p, w.tys, arms, byValue, st1).value;
    JoinKeys(branches.0);
    ScrutineeSafe(w, e, owner, sc, st, d, s, lent, flight, fuel);
    assert TypedArms(w.p, w.tys, arms, owner, byValue, sc);
    assert TypedArm(w.p, w.tys, arms.head, owner, byValue, sc);
    var v := Eval(w, e, s, fuel);
    if v.Done? {
      ShapeTyped(w.p.ctors, v.s.heap, v.value, TSum(owner));
      ArmsSafe(w, arms, owner, byValue, sc, st1, d, v.s, lent, flight, v.value, OwnedIn(branches.0[0]), fuel);
      var r := ExecArms(w, branches.1, byValue, v.value.a, v.s, fuel);
      if r.Done? {
        BoxReleased(w, sc, OwnedIn(branches.0[0]), s, v.s, r.s, lent, flight, v.value, byValue);
      }
    }
  }

  lemma {:induction false} ScrutineeSafe(w: World, e: Expr, owner: Name, sc: Scope, st: StateMap, d: set<Name>,
      s: State, lent: set<nat>, flight: set<nat>, fuel: nat)
    requires Ready(w, sc, st, d, s, lent, flight)
    requires TypeOf(w.p, w.tys, sc, e, if Consuming(e) then Taken else Place) == Some(TSum(owner))
    requires Assigned(w.tys, sc, d, e)
    requires Take(w.p, w.tys, e, st).Some?
    ensures var r, st1 := Eval(w, e, s, fuel), Take(w.p, w.tys, e, st).value;
      && Fine(r, Careful(w.p))
      && d <= st1.Keys
      && (r.Done? ==>
            && Scrutinised(w, sc, OwnedIn(st1), r.s, lent, flight, r.value, owner, Consuming(e))
            && Stable(s, r.s, |s.frames| - 1, lent + flight))
    decreases fuel, 0, e, 4
  {
    TakeMovesExactly(w.p, w.tys, e, st);
    if Consuming(e) {
      TakeSafe(w, e, sc, st, d, s, lent, flight, fuel);
    } else {
      PlaceMovesNothing(w, sc, e, st, {});
      Look(w, sc, OwnedIn(st), e, s, lent, flight, fuel);
    }
  }

  // At the merge a consumed box is freed.
  lemma BoxReleased(w: World, sc: Scope, own: set<Name>, s: State, s1: State, s2: State, lent: set<nat>,
      flight: set<nat>, v: Value, byValue: bool)
    requires s.frames != [] && v.PtrV?
    requires Stable(s, s1, |s.frames| - 1, lent + flight)
    requires Ran(w, sc, own, s1, s2, lent, flight + Shell(v, byValue))
    requires byValue ==> v.a !in lent + flight
    ensures byValue ==> v.a in s2.heap
    ensures Ran(w, sc, own, s, if byValue then Release(v, s2) else s2, lent, flight)
  {
    var n, zs := |s.frames| - 1, lent + flight;
    StableTrans(s, s1, s2, n, zs);
    if byValue {
      FreeInFlight(w, sc, own, s2, lent, flight, v.a);
      StableTrans(s, s2, Release(v, s2), n, zs);
    } else {
      assert flight + Shell(v, byValue) == flight;
    }
  }

  // -------------------------------------------------------------------------
  // Calls
  // -------------------------------------------------------------------------

  // A call to an accepted function given whole values and live borrows returns,
  // if it returns, having freed or handed back everything it was given.
  lemma {:induction false} InvokeSafe(w: World, f: Name, vs: List<Value>, s: State, lent: set<nat>, fuel: nat)
    requires Setting(w)
    requires f in w.p.funs
    requires CallReady(w.p.ctors, s, vs, FormalTys(w.p.funs[f].formals, w.p.funs[f].tys), lent)
    ensures var r := Invoke(w, f, vs, s, fuel);
      && Fine(r, Careful(w.p))
      && (r.Done? ==> Returned(w.p.ctors, s, r.s, lent, r.value, w.p.funs[f].retTy))
    decreases fuel, 1, 1
  {
    hide Owns, Copies, Lends, Inv, Tree, Cells;
    assert FunAccepted(w.p, f);
    var fun := w.p.funs[f];
    EnterCall(w, fun, s, vs, lent);
    var frame := Bind(fun.formals, vs, Zeros(fun.locals)).value;
    RunBodySafe(w.(tys := fun.tys), fun, s, s.(frames := s.frames + [frame]), lent, fuel);
  }

  lemma {:induction false} RunBodySafe(w: World, fun: Fun, s: State, s0: State, lent: set<nat>, fuel: nat)
    requires Setting(w) && w.tys == fun.tys && WfFun(w.p, fun)
    requires AnalyzeFunction(w.p, fun).Some?
    requires |s0.frames| == |s.frames| + 1 && s0.frames[..|s.frames|] == s.frames && s0.heap == s.heap &&
      s0.next == s.next
    requires Inv(w, FunScope(fun), OwnedIn(Entry(fun)), s0, lent, {})
    ensures var r := RunBody(w, fun, AnalyzeFunction(w.p, fun).value, s0, fuel);
      && Fine(r, Careful(w.p) && CarefulStmts(w.p, fun.tys, fun.body))
      && (r.Done? ==> Returned(w.p.ctors, s, r.s.(frames := r.s.frames[..|r.s.frames| - 1]), lent, r.value, fun.retTy))
    decreases fuel, 1, 0
  {
    hide Owns, Copies, Lends, Stable, Cells, AnalyzeStmts, Take, ExecAll, Eval, DestroyVars;
    var code := AnalyzeFunction(w.p, fun).value;
    var sc := FunScope(fun);
    var st := AnalyzeStmts(w.p, fun.tys, fun.body, Entry(fun)).value.st;
    var d := AssignedAfterAll(fun.tys, fun.body, Entry(fun).Keys);
    StatementsSafe(w, fun.body, sc, Entry(fun), s0, lent, fuel);
    var r := ExecAll(w, code.body, s0, fuel);
    if r.Done? {
      TakeSafe(w, fun.ret, sc, st, d, r.s, lent, {}, fuel);
      var v := Eval(w, fun.ret, r.s, fuel);
      if v.Done? {
        LeaveSafe(w, sc, OwnedIn(Take(w.p, fun.tys, fun.ret, st).value), s, s0, r.s, v.s, lent, v.value, fun.retTy,
          code.exits);
      }
    }
  }

  lemma {:induction false} StatementsSafe(w: World, body: List<Stmt>, sc: Scope, st: StateMap, s: State, lent: set<nat>,
      fuel: nat)
    requires Setting(w)
    requires Inv(w, sc, OwnedIn(st), s, lent, {})
    requires WfStmts(w.p, w.tys, body, sc, st.Keys)
    requires AnalyzeStmts(w.p, w.tys, body, st).Some?
    ensures var a := AnalyzeStmts(w.p, w.tys, body, st).value;
      var r := ExecAll(w, a.code, s, fuel);
      && Fine(r, Careful(w.p) && CarefulStmts(w.p, w.tys, body))
      && (r.Done? ==>
            && Ready(w, sc, a.st, AssignedAfterAll(w.tys, body, st.Keys), r.s, lent, {})
            && Stable(s, r.s, |s.frames| - 1, lent))
    decreases fuel, 0, body, 1
  {
    ExecAllSafe(w, body, sc, st, st.Keys, s, lent, {}, fuel);
    AllAssignedAreTracked(w.p, w.tys, body, sc, st.Keys, st);
    assert lent + {} == lent;
  }

  // The exit destroys free every variable still owned; the frame goes away.
  lemma {:induction false} LeaveSafe(w: World, sc: Scope, own: set<Name>, s: State, s0: State, s1: State, s2: State,
      lent: set<nat>, v: Value, ty: Ty, exits: List<Name>)
    requires |s0.frames| == |s.frames| + 1 && s0.frames[..|s.frames|] == s.frames && s0.heap == s.heap &&
      s0.next == s.next
    requires |s1.frames| == |s0.frames| && Stable(s0, s1, |s.frames|, lent)
    requires Evaluated(w, sc, own, {}, s1, s2, lent, {}, v, ty) && !ty.TBorrow?
    requires Elems(exits) == own && Distinct(exits)
    ensures var r := DestroyVars(w, exits, s2);
      && !r.Fault? && !r.Halt? && !r.Strays? && !r.Spent?
      && (r.Done? ==> Returned(w.p.ctors, s, r.s.(frames := r.s.frames[..|r.s.frames| - 1]), lent, v, ty))
  {
    hide Owns, Copies, Lends;
    DestroyOwners(w, sc, own, s2, lent, {} + Cells(s2.heap, v), exits);
    var r := DestroyVars(w, exits, s2);
    if r.Done? {
      var s3 := r.s;
      AllDestroyed(w, sc, own - Elems(exits), s2, s3, lent, v, ty);
      assert Stable(s1, s2, |s.frames|, lent) && Stable(s2, s3, |s.frames|, lent);
      StableTrans(s0, s1, s2, |s.frames|, lent);
      StableTrans(s0, s2, s3, |s.frames|, lent);
      FramePopped(s, s0, s3, lent);
    }
  }

  lemma {:induction false} AllDestroyed(w: World, sc: Scope, own: set<Name>, s2: State, s3: State, lent: set<nat>,
      v: Value, ty: Ty)
    requires Tree(w.p.ctors, s2.heap, v, ty) && lent !! Cells(s2.heap, v)
    requires Inv(w, sc, own, s3, lent, {} + Cells(s2.heap, v)) && own == {}
    requires SameShape(s2.heap, s3.heap, lent + ({} + Cells(s2.heap, v)))
    ensures Tree(w.p.ctors, s3.heap, v, ty) && Cells(s3.heap, v) == Cells(s2.heap, v)
    ensures s3.heap.Keys == lent + Cells(s3.heap, v)
    ensures forall a | a in s3.heap :: a < s3.next
  {
    TreeFrame(w.p.ctors, s2.heap, s3.heap, v, ty);
    assert CellsOwned(s3.heap, Top(s3), own) == {};
  }

  lemma FramePopped(s: State, s0: State, s3: State, lent: set<nat>)
    requires |s0.frames| == |s.frames| + 1 && s0.frames[..|s.frames|] == s.frames && s0.heap == s.heap &&
      s0.next == s.next
    requires Stable(s0, s3, |s.frames|, lent)
    ensures Stable(s, s3.(frames := s3.frames[..|s3.frames| - 1]), |s.frames|, lent)
  {
    var s4 := s3.(frames := s3.frames[..|s3.frames| - 1]);
    forall i | 0 <= i < |s.frames|
      ensures Quiet(s.frames[i], s4.frames[i])
    {
      assert s0.frames[i] == s.frames[i] && s4.frames[i] == s3.frames[i];
      assert Quiet(s0.frames[i], s3.frames[i]);
    }
  }
}
