/** Facts about the analysis alone: what an accepted expression moves, what a call
    in progress keeps, and that definitely assigned owners stay tracked. */
module Facts {
  import opened Optional
  import opened Syntax
  import opened Moves
  import opened Static

  // An accepted expression changes the state by exactly the owners it moves, and
  // moves none of the owners the calls in progress have borrowed.
  lemma {:induction false} EvalMovesExactly(p: Program, tys: map<Name, Ty>, e: Expr, st: StateMap, held: set<Name>)
    requires EvalExpr(p, tys, e, st, held).Some?
    ensures var st' := EvalExpr(p, tys, e, st, held).value;
      && OwnedIn(st') == OwnedIn(st) - MovedBy(p, tys, e)
      && st'.Keys == st.Keys + MovedBy(p, tys, e)
      && MovedBy(p, tys, e) !! held
      && (forall x | x in MovedBy(p, tys, e) :: !IsMoved(st, x))
      && (forall x | x in st' :: st'[x] == if x in MovedBy(p, tys, e) then Moved else st[x])
    decreases e, 1
  {
    match e
    case Num(_) =>
    case Input =>
    case Var(_) =>
    case Borrow(_) =>
    case Bin(_, l, r) =>
      EvalMovesExactly(p, tys, l, st, held);
      EvalMovesExactly(p, tys, r, EvalExpr(p, tys, l, st, held).value, held);
    case Alloc(i) => EvalMovesExactly(p, tys, i, st, held);
    case Deref(q) => EvalMovesExactly(p, tys, q, st, held);
    case New(_, args) => OperandsMoveExactly(p, tys, args, AllTaken(args), st, held);
    case Call(f, args) => OperandsMoveExactly(p, tys, args, Consumes(p, f), st, held + BorrowedIn(args));
  }

  lemma {:induction false} OperandsMoveExactly(p: Program, tys: map<Name, Ty>, es: List<Expr>, takes: List<bool>,
      st: StateMap, held: set<Name>)
    requires EvalOperands(p, tys, es, takes, st, held).Some?
    ensures var st' := EvalOperands(p, tys, es, takes, st, held).value;
      && OwnedIn(st') == OwnedIn(st) - MovedByAll(p, tys, es, takes)
      && st'.Keys == st.Keys + MovedByAll(p, tys, es, takes)
      && MovedByAll(p, tys, es, takes) !! held
      && (forall x | x in MovedByAll(p, tys, es, takes) :: !IsMoved(st, x))
      && (forall x | x in st' :: st'[x] == if x in MovedByAll(p, tys, es, takes) then Moved else st[x])
    decreases es, 0
  {
    match es
    case Nil =>
    case Cons(e, t) =>
      var st1 := OperandState(p, tys, e, takes.Cons? && takes.head, st, held);
      if takes.Cons? && takes.head && e.Var? && IsOwnVar(tys, e.x) {
      } else {
        EvalMovesExactly(p, tys, e, st, held);
      }
      OperandsMoveExactly(p, tys, t, if takes.Cons? then takes.tail else Nil, st1.value, held);
  }

  // The state after one operand.
  function OperandState(p: Program, tys: map<Name, Ty>, e: Expr, taken: bool, st: StateMap,
      held: set<Name>): Option<StateMap> {
    if taken && e.Var? && IsOwnVar(tys, e.x) then Consume(e.x, st, held)
    else EvalExpr(p, tys, e, st, held)
  }

  // What an expression moves are owners in scope, and no aliases.
  lemma {:induction false} MovesNoAlias(p: Program, tys: map<Name, Ty>, sc: Scope, e: Expr, pos: Pos)
    requires TypeOf(p, tys, sc, e, pos).Some?
    ensures forall x | x in MovedBy(p, tys, e) :: x in sc.names - sc.aliases && IsOwnVar(tys, x)
    decreases e, 1
  {
    match e
    case Num(_) =>
    case Input =>
    case Var(_) =>
    case Borrow(_) =>
    case Bin(_, l, r) =>
      MovesNoAlias(p, tys, sc, l, Taken);
      MovesNoAlias(p, tys, sc, r, Taken);
    case Alloc(i) => MovesNoAlias(p, tys, sc, i, Taken);
    case Deref(q) => MovesNoAlias(p, tys, sc, q, Place);
    case New(tag, args) => AllMoveNoAlias(p, tys, sc, args, AllTaken(args), p.ctors[tag].params, Taken);
    case Call(f, args) =>
      AllMoveNoAlias(p, tys, sc, args, Consumes(p, f), FormalTys(p.funs[f].formals, p.funs[f].tys), Argument);
  }

  lemma {:induction false} AllMoveNoAlias(p: Program, tys: map<Name, Ty>, sc: Scope, es: List<Expr>, takes: List<bool>,
      ts: List<Ty>, pos: Pos)
    requires !pos.Place? && TypedAll(p, tys, sc, es, ts, pos)
    ensures forall x | x in MovedByAll(p, tys, es, takes) :: x in sc.names - sc.aliases && IsOwnVar(tys, x)
    decreases es, 0
  {
    if es.Cons? {
      MovesNoAlias(p, tys, sc, es.head, pos);
      AllMoveNoAlias(p, tys, sc, es.tail, if takes.Cons? then takes.tail else Nil, ts.tail, pos);
    }
  }

  // The owners that taking an expression moves.
  function TakenBy(p: Program, tys: map<Name, Ty>, e: Expr): set<Name> {
    if e.Var? && IsOwnVar(tys, e.x) then {e.x} else MovedBy(p, tys, e)
  }

  lemma TakeMovesExactly(p: Program, tys: map<Name, Ty>, e: Expr, st: StateMap)
    requires Take(p, tys, e, st).Some?
    ensures var st' := Take(p, tys, e, st).value;
      && OwnedIn(st') == OwnedIn(st) - TakenBy(p, tys, e)
      && st'.Keys == st.Keys + TakenBy(p, tys, e)
  {
    if !(e.Var? && IsOwnVar(tys, e.x)) {
      EvalMovesExactly(p, tys, e, st, {});
    }
  }

  // Call-bounded borrows: whatever the nesting of calls and whatever the order
  // its actuals are evaluated in, no actual of a call moves an owner that one of
  // them borrows, so every lent owner is still owned when the callee is entered.
  lemma {:induction false} CallKeepsLentOwners(p: Program, tys: map<Name, Ty>, f: Name, args: List<Expr>, st: StateMap,
      held: set<Name>)
    requires EvalExpr(p, tys, Call(f, args), st, held).Some?
    ensures MovedBy(p, tys, Call(f, args)) !! BorrowedIn(args) + held
    ensures OwnedIn(EvalExpr(p, tys, Call(f, args), st, held).value) * (BorrowedIn(args) + held)
         == OwnedIn(st) * (BorrowedIn(args) + held)
  {
    OperandsMoveExactly(p, tys, args, Consumes(p, f), st, held + BorrowedIn(args));
  }

  lemma {:induction false} JoinKeys(branches: seq<StateMap>)
    requires branches != [] && Join(branches).Some?
    ensures Join(branches).value.Keys == KeysOf(branches)
    ensures OwnedIn(Join(branches).value) == OwnedIn(branches[0])
    ensures forall b | b in branches :: OwnedIn(b) == OwnedIn(branches[0])
  {
    assert branches[0].Keys <= KeysOf(branches);
  }

  lemma {:induction false} RestoredKeys(st: StateMap, bs: List<Name>, before: StateMap)
    ensures Restore(st, bs, before).Keys == (st.Keys - Elems(bs)) + (before.Keys * Elems(bs)) + Repeated(bs)
    decreases bs
  {
    if bs.Cons? {
      var x := bs.head;
      RestoredKeys(if x in before then st[x := before[x]] else st - {x}, bs.tail, before[x := Owned]);
    }
  }

  // Putting the saved entries back restores what they were, except that a name
  // bound twice saved its own binder last, and so stays owned.
  lemma {:induction false} RestoredState(st: StateMap, bs: List<Name>, before: StateMap)
    ensures Restore(st, bs, before).Keys == (st.Keys - Elems(bs)) + (before.Keys * Elems(bs)) + Repeated(bs)
    ensures OwnedIn(Restore(st, bs, before)) == (OwnedIn(st) - Elems(bs)) + (OwnedIn(before) * Elems(bs)) + Repeated(bs)
    decreases bs
  {
    RestoredKeys(st, bs, before);
    if bs.Cons? {
      var x := bs.head;
      var st1 := if x in before then st[x := before[x]] else st - {x};
      RestoredState(st1, bs.tail, before[x := Owned]);
      assert OwnedIn(st1) - {x} == OwnedIn(st) - {x};
      assert x in OwnedIn(st1) <==> x in OwnedIn(before);
      assert OwnedIn(before[x := Owned]) == OwnedIn(before) + {x};
    }
  }

  lemma {:induction false} EnteredState(st: StateMap, bs: List<Name>)
    ensures SetOwned(st, bs).Keys == st.Keys + Elems(bs)
    ensures OwnedIn(SetOwned(st, bs)) == OwnedIn(st) + Elems(bs)
    decreases bs
  {
    if bs.Cons? {
      EnteredState(st[bs.head := Owned], bs.tail);
      assert OwnedIn(st[bs.head := Owned]) == OwnedIn(st) + {bs.head};
    }
  }

  // Owners assigned on every path have an entry in the analysis state.
  lemma {:induction false} AssignedAreTracked(p: Program, tys: map<Name, Ty>, s: Stmt, sc: Scope, d: set<Name>,
      st: StateMap)
    requires WfStmt(p, tys, s, sc, d)
    requires d <= st.Keys
    requires AnalyzeStmt(p, tys, s, st).Some?
    ensures AssignedAfter(tys, s, d) <= AnalyzeStmt(p, tys, s, st).value.st.Keys
    decreases s, 1
  {
    match s
    case Assign(x, rhs) => TakeMovesExactly(p, tys, rhs, st);
    case Write(target, rhs) =>
      EvalMovesExactly(p, tys, target, st, {});
      TakeMovesExactly(p, tys, rhs, EvalExpr(p, tys, target, st, {}).value);
    case Block(ss) => AllAssignedAreTracked(p, tys, ss, sc, d, st);
    case If(c, t, e) =>
      EvalMovesExactly(p, tys, c, st, {});
      var st1 := EvalExpr(p, tys, c, st, {}).value;
      AssignedAreTracked(p, tys, t, sc, d, st1);
      AssignedAreTracked(p, tys, e, sc, d, st1);
      var b1, b2 := AnalyzeStmt(p, tys, t, st1).value.st, AnalyzeStmt(p, tys, e, st1).value.st;
      JoinKeys([b1, b2]);
      assert KeysOf([b1, b2]) == b1.Keys + KeysOf([b2]);
    case While(_, _) =>
    case Output(e) => EvalMovesExactly(p, tys, e, st, {});
    case Error(e) => EvalMovesExactly(p, tys, e, st, {});
    case Case(e, arms) =>
      TakeMovesExactly(p, tys, e, st);
      var st1 := Take(p, tys, e, st).value;
      var ty := TypeOf(p, tys, sc, e, if Consuming(e) then Taken else Place);
      ArmsAssignedAreTracked(p, tys, arms, ty.value.name, Consuming(e), sc, d, st1);
      JoinKeys(AnalyzeArms(p, tys, arms, Consuming(e), st1).value.0);
    case Destroy(_, _) =>
  }

  lemma {:induction false} AllAssignedAreTracked(p: Program, tys: map<Name, Ty>, ss: List<Stmt>, sc: Scope,
      d: set<Name>, st: StateMap)
    requires WfStmts(p, tys, ss, sc, d)
    requires d <= st.Keys
    requires AnalyzeStmts(p, tys, ss, st).Some?
    ensures AssignedAfterAll(tys, ss, d) <= AnalyzeStmts(p, tys, ss, st).value.st.Keys
    decreases ss, 0
  {
    match ss
    case Nil =>
    case Cons(s, t) =>
      AssignedAreTracked(p, tys, s, sc, d, st);
      AllAssignedAreTracked(p, tys, t, sc, AssignedAfter(tys, s, d), AnalyzeStmt(p, tys, s, st).value.st);
  }

  lemma {:induction false} ArmAssignedAreTracked(p: Program, tys: map<Name, Ty>, arm: Arm, owner: Name, byValue: bool,
      sc: Scope, d: set<Name>, st: StateMap)
    requires WfArm(p, tys, arm, owner, byValue, sc, d)
    requires d <= st.Keys
    requires AnalyzeArm(p, tys, arm, byValue, st).Some?
    ensures AssignedAfterArm(tys, arm, byValue, d) <= AnalyzeArm(p, tys, arm, byValue, st).value.st.Keys
    decreases arm, 0
  {
    var binders := ArmBinders(arm, byValue);
    var st1 := SetOwned(st, binders);
    EnteredState(st, binders);
    AssignedAreTracked(p, tys, arm.body, ArmScope(arm, byValue, sc), d + ArmOwners(arm, byValue), st1);
    RestoredState(AnalyzeStmt(p, tys, arm.body, st1).value.st, binders, st);
  }

  lemma {:induction false} ArmsAssignedAreTracked(p: Program, tys: map<Name, Ty>, arms: List<Arm>, owner: Name,
      byValue: bool, sc: Scope, d: set<Name>, st: StateMap)
    requires WfArms(p, tys, arms, owner, byValue, sc, d)
    requires arms.Cons?
    requires d <= st.Keys
    requires AnalyzeArms(p, tys, arms, byValue, st).Some?
    ensures AssignedAfterArms(tys, arms, byValue, d) <= KeysOf(AnalyzeArms(p, tys, arms, byValue, st).value.0)
    decreases arms, 0
  {
    ArmAssignedAreTracked(p, tys, arms.head, owner, byValue, sc, d, st);
    if arms.tail.Cons? {
      ArmsAssignedAreTracked(p, tys, arms.tail, owner, byValue, sc, d, st);
    }
  }
}
