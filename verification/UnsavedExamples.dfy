/** Two more accepted programs that bind one name at two types. In the first every
    arm is handed what the analysis takes it to have, and the failure comes when one
    ends: its binder is an integer, so the name is not saved, but its body assigns
    a new cell to the name; the arm around it then destroys its own binder of that
    name, which was consumed before, and nobody holds the new cell. In the second a
    borrowed match binds a box and its body writes to it as to a cell. The theorems
    on retyped binders apply to both. */
module UnsavedExamples {
  import opened Optional
  import opened Syntax
  import opened Heap
  import opened Moves
  import opened Static
  import opened Facts
  import opened Machine
  import opened Ownership
  import opened Running
  import opened Matching
  import opened Arms
  import opened Safety
  import opened Roots
  import opened Unmatched
  import opened Retyped
  import opened Counterexamples
  import opened StrayExamples
  import opened RetypedExamples

  // -------------------------------------------------------------------------
  // A name that is not saved
  // -------------------------------------------------------------------------

  function Paired(f: Fun): Program {
    Program(CELLS, map[MAIN := f, CONSUME := CONSUME_FUN])
  }

  lemma PairedAccepted(f: Fun)
    requires WfFun(Paired(f), f) && AnalyzeFunction(Paired(f), f).Some?
    ensures Accepted(Paired(f))
  {
    hide WfFun, AnalyzeFunction;
    var p := Paired(f);
    ConsumeTyped(p);
    ConsumeCode(p);
    assert p.funs[MAIN] == f && p.funs[CONSUME] == CONSUME_FUN;
    assert FunAccepted(p, MAIN) && FunAccepted(p, CONSUME);
  }

  const RENEW := Assign(Y, Alloc(Num(5)))
  const ARM_NUMBER := Arm(NUMBER, One(PVar(Y, TInt)), RENEW)
  const CASE_NUMBER := Case(New(NUMBER, One(Num(7))), One(ARM_NUMBER))
  const SPEND := Assign(R, Consumed(Y))
  const ARM_CELL := Arm(CELL, One(PVar(Y, TOwn)), Block(Cons(SPEND, One(CASE_NUMBER))))
  const CASE_CELL := Case(New(CELL, One(Alloc(Num(1)))), One(ARM_CELL))
  const ARM_LAST := Arm(CELL, One(PVar(Y, TOwn)), Block(Nil))
  const CASE_LAST := Case(New(CELL, One(Alloc(Num(2)))), One(ARM_LAST))

  // main() { var r;
  //   case Cell(alloc 1) of { Cell(y) -> { r = consume(y); case Number(7) of { Number(y) -> y = alloc 5 } } }
  //   case Cell(alloc 2) of { Cell(y) -> {} }
  //   return 0; }
  const UNSAVED := Fun(Nil, {R}, map[Y := TOwn, R := TInt], Cons(CASE_CELL, One(CASE_LAST)), Num(0), TInt)

  const Y_BOUND := Binder(Y, TOwn)

  // The arms that own, as generated: each leaves its binder to be destroyed.
  function Destroying(arm: Arm): Arm {
    arm.(body := Block(Cons(arm.body, One(Destroy(Y, TOwn)))))
  }

  const CASE_CELL_CODE := CASE_CELL.(arms := One(Destroying(ARM_CELL)))
  const CASE_LAST_CODE := CASE_LAST.(arms := One(Destroying(ARM_LAST)))

  lemma BindersHere()
    ensures ArmOwned(ARM_NUMBER, true) == Nil && ArmBinders(ARM_NUMBER, true) == Nil
    ensures ArmOwned(ARM_CELL, true) == One(Y_BOUND) == ArmOwned(ARM_LAST, true)
    ensures ArmBinders(ARM_CELL, true) == One(Y) == ArmBinders(ARM_LAST, true)
    ensures BindersOf(ARM_NUMBER.pats) == One(Y) == BindersOf(ARM_CELL.pats) == BindersOf(ARM_LAST.pats)
  {
  }

  lemma {:induction false} MadeAnalyzed(st: StateMap)
    ensures var p, tys := Paired(UNSAVED), UNSAVED.tys;
      && Take(p, tys, CASE_NUMBER.scrutinee, st) == Some(st)
      && Take(p, tys, CASE_CELL.scrutinee, st) == Some(st) == Take(p, tys, CASE_LAST.scrutinee, st)
  {
    var p, tys := Paired(UNSAVED), UNSAVED.tys;
    assert forall k | k in {1, 2} :: EvalOperands(p, tys, One(Alloc(Num(k))), One(true), st, {}) == Some(st);
    assert EvalOperands(p, tys, One(Num(7)), One(true), st, {}) == Some(st);
  }

  lemma SpendAnalyzed()
    ensures AnalyzeStmt(Paired(UNSAVED), UNSAVED.tys, SPEND, Y_OWNED) == Some(Checked(Y_MOVED, SPEND))
  {
    hide EvalExpr;
    ConsumedMoves();
  }

  lemma ConsumedMoves()
    ensures EvalExpr(Paired(UNSAVED), UNSAVED.tys, Consumed(Y), Y_OWNED, {}) == Some(Y_MOVED)
  {
    var p, tys := Paired(UNSAVED), UNSAVED.tys;
    assert BorrowedIn(One(Var(Y))) == {};
    assert Consumes(p, CONSUME) == One(true) by {
      assert FormalTys(CONSUME_FUN.formals, CONSUME_FUN.tys) == One(TOwn);
    }
    assert EvalOperands(p, tys, One(Var(Y)), One(true), Y_OWNED, {}) == Some(Y_MOVED) by {
      assert Y_OWNED[Y := Moved] == Y_MOVED;
    }
  }

  // The name of an integer binder becomes an owner, and stays one.
  lemma ArmNumberAnalyzed()
    ensures AnalyzeStmt(Paired(UNSAVED), UNSAVED.tys, RENEW, Y_MOVED) == Some(Checked(Y_OWNED, RENEW))
    ensures AnalyzeArm(Paired(UNSAVED), UNSAVED.tys, ARM_NUMBER, true, Y_MOVED) == Some(Checked(Y_OWNED, ARM_NUMBER))
  {
    BindersHere();
    assert Y_MOVED[Y := Owned] == Y_OWNED;
    assert OwnedIn(Y_MOVED) == {};
  }

  // An arm that starts with y and ends with y owned destroys it.
  lemma {:induction false} OwnerLeft(arm: Arm)
    requires ArmOwned(arm, true) == One(Y_BOUND)
    requires AnalyzeStmt(Paired(UNSAVED), UNSAVED.tys, arm.body, Y_OWNED) == Some(Checked(Y_OWNED, arm.body))
    ensures AnalyzeArm(Paired(UNSAVED), UNSAVED.tys, arm, true, NO_STATE) == Some(Checked(NO_STATE, Destroying(arm)))
  {
    hide AnalyzeStmt;
    assert ArmBinders(arm, true) == One(Y);
    assert SetOwned(NO_STATE, One(Y)) == Y_OWNED && SavedBy(NO_STATE, One(Y)) == One(Saved(Y, None));
    assert Y_OWNED - {Y} == NO_STATE && PutBack(NO_STATE, Nil) == NO_STATE;
    assert PutBack(Y_OWNED, One(Saved(Y, None))) == NO_STATE;
    assert Leftover(One(Y_BOUND), Y_OWNED) == One(Y_BOUND);
    assert Destroys(Nil) == Nil && Destroys(One(Y_BOUND)) == One(Destroy(Y, TOwn));
  }

  lemma CasesAnalyzed()
    ensures var p, tys := Paired(UNSAVED), UNSAVED.tys;
      && AnalyzeStmt(p, tys, CASE_CELL, NO_STATE) == Some(Checked(NO_STATE, CASE_CELL_CODE))
      && AnalyzeStmt(p, tys, CASE_LAST, NO_STATE) == Some(Checked(NO_STATE, CASE_LAST_CODE))
  {
    hide AnalyzeArm, AnalyzeStmt, Take, Destroying;
    var p, tys := Paired(UNSAVED), UNSAVED.tys;
    BindersHere();
    MadeAnalyzed(Y_MOVED);
    MadeAnalyzed(NO_STATE);
    ArmNumberAnalyzed();
    OneArmAnalyzed(p, tys, CASE_NUMBER.scrutinee, ARM_NUMBER, ARM_NUMBER, Y_MOVED, Y_MOVED, Y_OWNED);
    ArmBodiesAnalyzed();
    OwnerLeft(ARM_CELL);
    OwnerLeft(ARM_LAST);
    OneArmAnalyzed(p, tys, CASE_CELL.scrutinee, ARM_CELL, Destroying(ARM_CELL), NO_STATE, NO_STATE, NO_STATE);
    OneArmAnalyzed(p, tys, CASE_LAST.scrutinee, ARM_LAST, Destroying(ARM_LAST), NO_STATE, NO_STATE, NO_STATE);
  }

  lemma ArmBodiesAnalyzed()
    requires AnalyzeStmt(Paired(UNSAVED), UNSAVED.tys, CASE_NUMBER, Y_MOVED) == Some(Checked(Y_OWNED, CASE_NUMBER))
    ensures var p, tys := Paired(UNSAVED), UNSAVED.tys;
      && AnalyzeStmt(p, tys, ARM_CELL.body, Y_OWNED) == Some(Checked(Y_OWNED, ARM_CELL.body))
      && AnalyzeStmt(p, tys, ARM_LAST.body, Y_OWNED) == Some(Checked(Y_OWNED, ARM_LAST.body))
  {
    var p, tys := Paired(UNSAVED), UNSAVED.tys;
    SpendAnalyzed();
    assert AnalyzeStmts(p, tys, Nil, Y_OWNED) == Some(Checked(Y_OWNED, Nil));
    ThenAnalyzed(p, tys, CASE_NUMBER, Nil, Y_MOVED, Y_OWNED, Y_OWNED);
    ThenAnalyzed(p, tys, SPEND, One(CASE_NUMBER), Y_OWNED, Y_MOVED, Y_OWNED);
  }

  lemma UnsavedAnalyzed()
    ensures AnalyzeFunction(Paired(UNSAVED), UNSAVED) == Some(Code(Cons(CASE_CELL_CODE, One(CASE_LAST_CODE)), Nil))
  {
    hide AnalyzeStmt;
    var p, tys := Paired(UNSAVED), UNSAVED.tys;
    assert Entry(UNSAVED) == NO_STATE;
    CasesAnalyzed();
    assert AnalyzeStmts(p, tys, Nil, NO_STATE) == Some(Checked(NO_STATE, Nil));
    assert AnalyzeStmts(p, tys, One(CASE_LAST), NO_STATE) == Some(Checked(NO_STATE, One(CASE_LAST_CODE)));
    assert OwnedIn(NO_STATE) == {} && Sorted({}) == Nil;
  }

  const INSIDE := Scope({R, Y}, {})

  lemma {:induction false} ScopesHere()
    ensures FunScope(UNSAVED) == Scope({R}, {}) && Entry(UNSAVED).Keys == {}
    ensures ArmScope(ARM_CELL, true, Scope({R}, {})) == INSIDE == ArmScope(ARM_LAST, true, Scope({R}, {}))
    ensures ArmScope(ARM_NUMBER, true, INSIDE) == INSIDE
    ensures {} + ArmOwners(ARM_CELL, true) == {Y} == {} + ArmOwners(ARM_LAST, true)
    ensures {Y} + ArmOwners(ARM_NUMBER, true) == {Y}
    ensures var p := Paired(UNSAVED); PatsTyped(p, ARM_NUMBER.pats, One(TInt)) && PatsTyped(p, ARM_CELL.pats, One(TOwn))
  {
    BindersHere();
  }

  lemma ArmNumberWf()
    ensures WfArm(Paired(UNSAVED), UNSAVED.tys, ARM_NUMBER, F, true, INSIDE, {Y})
    ensures WfStmt(Paired(UNSAVED), UNSAVED.tys, CASE_NUMBER, INSIDE, {Y})
    ensures !CarefulStmt(Paired(UNSAVED), UNSAVED.tys, CASE_NUMBER)
  {
    hide Exhaustive, ArmScope, ArmOwners, PatsTyped;
    var p, tys := Paired(UNSAVED), UNSAVED.tys;
    ScopesHere();
    assert TypedAll(p, tys, INSIDE, One(Num(7)), One(TInt), Taken) && AssignedAll(tys, INSIDE, {Y}, One(Num(7)));
    assert TypedArms(p, tys, One(ARM_NUMBER), F, true, INSIDE) by {
      assert TypedArm(p, tys, ARM_NUMBER, F, true, INSIDE);
    }
    assert AssignedArms(tys, One(ARM_NUMBER), true, INSIDE, {Y}) by {
      assert AssignedArm(tys, ARM_NUMBER, true, INSIDE, {Y});
    }
    assert !AllUsedAsBound(tys, ARM_NUMBER.pats);
  }

  lemma SpendWf()
    ensures WfStmt(Paired(UNSAVED), UNSAVED.tys, SPEND, INSIDE, {Y})
    ensures AssignedAfter(UNSAVED.tys, SPEND, {Y}) == {Y}
  {
    var p, tys := Paired(UNSAVED), UNSAVED.tys;
    assert TypedAll(p, tys, INSIDE, One(Var(Y)), FormalTys(CONSUME_FUN.formals, CONSUME_FUN.tys), Argument);
    assert AssignedAll(tys, INSIDE, {Y}, One(Var(Y)));
  }

  lemma ArmBodiesWf()
    ensures var p, tys := Paired(UNSAVED), UNSAVED.tys;
      && WfStmt(p, tys, ARM_CELL.body, INSIDE, {Y}) && !CarefulStmt(p, tys, ARM_CELL.body)
      && WfStmt(p, tys, ARM_LAST.body, INSIDE, {Y})
  {
    hide TypedStmt, AssignedStmt, CarefulStmt, WfStmts;
    var p, tys := Paired(UNSAVED), UNSAVED.tys;
    SpendWf();
    ArmNumberWf();
    NothingWf(p, tys, INSIDE, {Y}, CASE_NUMBER);
    ThenWf(p, tys, SPEND, One(CASE_NUMBER), INSIDE, {Y}, {Y});
    BlockWf(p, tys, Cons(SPEND, One(CASE_NUMBER)), INSIDE, {Y});
    BlockWf(p, tys, Nil, INSIDE, {Y});
  }

  lemma {:induction false} BlockWf(p: Program, tys: map<Name, Ty>, cs: List<Stmt>, sc: Scope, d: set<Name>)
    ensures WfStmts(p, tys, cs, sc, d) || cs.Nil? ==> WfStmt(p, tys, Block(cs), sc, d)
    ensures !CarefulStmts(p, tys, cs) ==> !CarefulStmt(p, tys, Block(cs))
  {
  }

  // A case with one arm on a cell just boxed.
  lemma {:induction false} CellCaseWf(arm: Arm, k: int)
    requires arm == ARM_CELL || arm == ARM_LAST
    ensures var c, p, tys := Case(New(CELL, One(Alloc(Num(k)))), One(arm)), Paired(UNSAVED), UNSAVED.tys;
      WfStmt(p, tys, c, Scope({R}, {}), {}) && (arm == ARM_CELL ==> !CarefulStmt(p, tys, c))
  {
    hide TypedStmt, AssignedStmt, Exhaustive, PatsTyped, ArmScope, ArmOwners;
    var p, tys, sc := Paired(UNSAVED), UNSAVED.tys, Scope({R}, {});
    var c := Case(New(CELL, One(Alloc(Num(k)))), One(arm));
    ScopesHere();
    ArmBodiesWf();
    assert TypedArm(p, tys, arm, G, true, sc) && TypedArms(p, tys, One(arm), G, true, sc);
    assert AssignedArm(tys, arm, true, sc, {}) && AssignedArms(tys, One(arm), true, sc, {});
    CellCaseFits(p, tys, sc, arm, k);
  }

  lemma {:induction false} CellCaseFits(p: Program, tys: map<Name, Ty>, sc: Scope, arm: Arm, k: int)
    requires p.ctors == CELLS && TypedArms(p, tys, One(arm), G, true, sc) && AssignedArms(tys, One(arm), true, sc, {})
    ensures var c := Case(New(CELL, One(Alloc(Num(k)))), One(arm));
      WfStmt(p, tys, c, sc, {}) && (!CarefulStmt(p, tys, arm.body) ==> !CarefulStmt(p, tys, c))
  {
    hide TypedArms, AssignedArms, Exhaustive;
    assert TypeOf(p, tys, sc, Num(k), Taken) == Some(TInt) && TypeOf(p, tys, sc, Alloc(Num(k)), Taken) == Some(TOwn);
    assert Assigned(tys, sc, {}, Num(k)) && Assigned(tys, sc, {}, Alloc(Num(k)));
    assert TypedAll(p, tys, sc, Nil, Nil, Taken) && AssignedAll(tys, sc, {}, Nil);
    assert TypedAll(p, tys, sc, One(Alloc(Num(k))), One(TOwn), Taken) && AssignedAll(tys, sc, {}, One(Alloc(Num(k))));
  }

  lemma UnsavedAccepted()
    ensures Accepted(Paired(UNSAVED)) && !Careful(Paired(UNSAVED))
  {
    hide AnalyzeFunction, TypedStmt, AssignedStmt, CarefulStmt, Accepted, AssignedAfter;
    var p, tys, sc := Paired(UNSAVED), UNSAVED.tys, Scope({R}, {});
    ScopesHere();
    UnsavedAnalyzed();
    CellCaseWf(ARM_CELL, 1);
    CellCaseWf(ARM_LAST, 2);
    NothingWf(p, tys, sc, {}, CASE_LAST);
    AfterCell();
    ThenWf(p, tys, CASE_CELL, One(CASE_LAST), sc, {}, {});
    assert WfFun(p, UNSAVED);
    PairedAccepted(UNSAVED);
    assert p.funs[MAIN] == UNSAVED && !CarefulStmts(p, tys, UNSAVED.body);
  }

  lemma AfterCell()
    ensures AssignedAfter(UNSAVED.tys, CASE_CELL, {}) == {}
  {
    var tys := UNSAVED.tys;
    BindersHere();
    var bs := ArmOwners(ARM_CELL, true);
    assert bs == {Y} && Repeated(One(Y)) == {};
    assert AssignedAfterArm(tys, ARM_NUMBER, true, {Y}) == {Y};
    assert AssignedAfter(tys, CASE_NUMBER, {Y}) == {Y};
    assert AssignedAfter(tys, ARM_CELL.body, {} + bs) == {Y};
  }

  const BOXED_CELL: Memory := map[0 := IntCell(1), 1 := Box(CELL, One(PtrV(0)))]
  const SHELL: Memory := map[1 := Box(CELL, One(PtrV(0)))]
  const BOXED_NUMBER: Memory := map[1 := Box(CELL, One(PtrV(0))), 2 := Box(NUMBER, One(IntV(7)))]
  const RENEWED: Memory := map[1 := Box(CELL, One(PtrV(0))), 2 := Box(NUMBER, One(IntV(7))), 3 := IntCell(5)]
  const STRANDED: Memory := map[1 := Box(CELL, One(PtrV(0))), 3 := IntCell(5)]

  const SPENT: Frame := map[R := IntV(1), Y := PtrV(0)]

  // y = alloc 5 in the inner arm: y was the integer 7.
  lemma {:induction false} RenewRuns(w: World, fuel: nat)
    ensures Exec(w, RENEW, At([], map[R := IntV(1), Y := IntV(7)], BOXED_NUMBER, 3), fuel)
      == Done((), At([], map[R := IntV(1), Y := PtrV(3)], RENEWED, 4))
  {
    var f: Frame := map[R := IntV(1), Y := IntV(7)];
    AllocAssigned(w, Y, 5, [], f, BOXED_NUMBER, 3, fuel);
    assert f[Y := PtrV(3)] == map[R := IntV(1), Y := PtrV(3)] && BOXED_NUMBER[3 := IntCell(5)] == RENEWED;
  }

  lemma NumberBinds()
    ensures TestPats(BOXED_NUMBER, One(IntV(7)), ARM_NUMBER.pats) == Some(true)
    ensures BindPats(CELLS, BOXED_NUMBER, SPENT, 2, One(IntV(7)), ARM_NUMBER.pats, One(TInt), true, 3)
      == Bound(BOXED_NUMBER, map[R := IntV(1), Y := IntV(7)])
    ensures Unshadow(map[R := IntV(1), Y := PtrV(3)], BindersOf(ARM_NUMBER.pats), SPENT) == SPENT
  {
    var f1: Frame := map[R := IntV(1), Y := PtrV(3)];
    BindersHere();
    assert SPENT[Y := IntV(7)] == map[R := IntV(1), Y := IntV(7)] && f1[Y := PtrV(0)] == SPENT;
  }

  lemma {:induction false} ArmNumberTaken(w: World, fuel: nat)
    requires w.p.ctors == CELLS && !w.watch
    ensures ExecArms(w, One(ARM_NUMBER), true, 2, At([], SPENT, BOXED_NUMBER, 3), fuel)
      == Done((), At([], SPENT, RENEWED, 4))
  {
    hide Exec, BindPats, TestPats, Unshadow, ExecArms;
    var s, end := At([], SPENT, BOXED_NUMBER, 3), At([], map[R := IntV(1), Y := PtrV(3)], RENEWED, 4);
    FirstArm(w, ARM_NUMBER, Nil, true, 2, s, fuel);
    NumberBinds();
    RenewRuns(w, fuel);
    assert WithTop(s, map[R := IntV(1), Y := IntV(7)]) == At([], map[R := IntV(1), Y := IntV(7)], BOXED_NUMBER, 3);
    assert WithTop(end, SPENT) == At([], SPENT, RENEWED, 4);
  }

  lemma {:induction false} CaseNumberRuns(w: World, fuel: nat)
    requires w.p.ctors == CELLS && !w.watch
    ensures Exec(w, CASE_NUMBER, At([], SPENT, SHELL, 2), fuel) == Done((), At([], SPENT, STRANDED, 4))
  {
    hide ExecArms;
    var s := At([], SPENT, SHELL, 2);
    assert Eval(w, Num(7), s, fuel) == Done(IntV(7), s) && EvalAll(w, Nil, s, fuel) == Done(Nil, s);
    assert EvalAll(w, One(Num(7)), s, fuel) == Done(One(IntV(7)), s);
    assert SHELL[2 := Box(NUMBER, One(IntV(7)))] == BOXED_NUMBER;
    assert Eval(w, CASE_NUMBER.scrutinee, s, fuel) == Done(PtrV(2), At([], SPENT, BOXED_NUMBER, 3));
    ArmNumberTaken(w, fuel);
    assert RENEWED - {2} == STRANDED;
  }

  lemma {:induction false} SpendRuns(w: World, fuel: nat)
    requires CONSUME in w.p.funs && w.p.funs[CONSUME] == CONSUME_FUN && fuel > 0
    ensures Exec(w, SPEND, At([], map[R := IntV(0), Y := PtrV(0)], BOXED_CELL, 2), fuel)
      == Done((), At([], SPENT, SHELL, 2))
  {
    hide Exec, Eval;
    var f: Frame := map[R := IntV(0), Y := PtrV(0)];
    ConsumedAssigned(w, [], f, BOXED_CELL, 2, 0, fuel);
    assert f[R := IntV(1)] == SPENT && BOXED_CELL - {0} == SHELL;
  }

  // The outer arm's body runs to its end; its cell is gone and the new one stranded.
  lemma {:induction false} ArmCellRuns(w: World, fuel: nat)
    requires w == World(Paired(UNSAVED), UNSAVED.tys, NO_INPUT, false) && fuel > 0
    ensures Exec(w, ARM_CELL.body, At([], map[R := IntV(0), Y := PtrV(0)], BOXED_CELL, 2), fuel)
      == Done((), At([], SPENT, STRANDED, 4))
  {
    hide Exec, ExecAll, Eval;
    var f: Frame := map[R := IntV(0), Y := PtrV(0)];
    SpendRuns(w, fuel);
    CaseNumberRuns(w, fuel);
    ExecFirst(w, SPEND, One(CASE_NUMBER), At([], f, BOXED_CELL, 2), At([], SPENT, SHELL, 2), fuel);
    ExecFirst(w, CASE_NUMBER, Nil, At([], SPENT, SHELL, 2), At([], SPENT, STRANDED, 4), fuel);
    BlockRuns(w, Cons(SPEND, One(CASE_NUMBER)), At([], f, BOXED_CELL, 2), fuel);
    ExecNone(w, At([], SPENT, STRANDED, 4), fuel);
  }

  lemma {:induction false} BlockRuns(w: World, cs: List<Stmt>, s: State, fuel: nat)
    requires s.frames != []
    ensures Exec(w, Block(cs), s, fuel) == ExecAll(w, cs, s, fuel)
  {
  }

  lemma {:induction false} ArmCellTaken(w: World, s: State, fuel: nat)
    requires w == World(Paired(UNSAVED), UNSAVED.tys, NO_INPUT, false) && fuel > 0
    requires s == At([], map[R := IntV(0)], BOXED_CELL, 2)
    ensures ExecArms(w, CASE_CELL_CODE.arms, true, 1, s, fuel).Fault?
  {
    hide Exec;
    var f: Frame := map[R := IntV(0)];
    var s1, end := At([], map[R := IntV(0), Y := PtrV(0)], BOXED_CELL, 2), At([], SPENT, STRANDED, 4);
    assert f[Y := PtrV(0)] == map[R := IntV(0), Y := PtrV(0)];
    assert TestPats(s.heap, One(PtrV(0)), One(PVar(Y, TOwn))) == Some(true);
    assert BindPats(CELLS, s.heap, f, 1, One(PtrV(0)), One(PVar(Y, TOwn)), One(TOwn), true, s.next)
      == Bound(s.heap, map[R := IntV(0), Y := PtrV(0)]);
    assert WithTop(s, map[R := IntV(0), Y := PtrV(0)]) == s1;
    ArmCellRuns(w, fuel);
    DestroyFaults(w, end, fuel);
    BlockRuns(w, Cons(ARM_CELL.body, One(Destroy(Y, TOwn))), s1, fuel);
    ExecFirst(w, ARM_CELL.body, One(Destroy(Y, TOwn)), s1, end, fuel);
  }

  lemma {:induction false} DestroyFaults(w: World, s: State, fuel: nat)
    requires s == At([], SPENT, STRANDED, 4)
    ensures ExecAll(w, One(Destroy(Y, TOwn)), s, fuel).Fault?
  {
    assert Exec(w, Destroy(Y, TOwn), s, fuel).Fault?;
  }

  lemma {:induction false} CaseCellFaults(w: World, fuel: nat)
    requires w == World(Paired(UNSAVED), UNSAVED.tys, NO_INPUT, false) && fuel > 0
    ensures Exec(w, CASE_CELL_CODE, At([], map[R := IntV(0)], map[], 0), fuel).Fault?
  {
    var f: Frame := map[R := IntV(0)];
    var s0, s := At([], f, map[], 0), At([], f, BOXED_CELL, 2);
    var a := Eval(w, Alloc(Num(1)), s0, fuel);
    assert Eval(w, Num(1), s0, fuel) == Done(IntV(1), s0);
    assert a == Done(PtrV(0), s0.(heap := map[0 := IntCell(1)], next := 1)) by {
      assert map[][0 := IntCell(1)] == map[0 := IntCell(1)];
    }
    assert EvalAll(w, One(Alloc(Num(1))), s0, fuel) == Done(One(PtrV(0)), a.s);
    assert a.s.heap[1 := Box(CELL, One(PtrV(0)))] == BOXED_CELL;
    assert Eval(w, CASE_CELL.scrutinee, s0, fuel) == Done(PtrV(1), s);
    ArmCellTaken(w, s, fuel);
    CaseFaults(w, CASE_CELL.scrutinee, CASE_CELL_CODE.arms, s0, 1, s, fuel);
  }

  // Accepted, with every owner assigned before it is named; y is destroyed twice
  // and the cell made last is nobody's.
  lemma UnsavedFaults()
    ensures Accepted(Paired(UNSAVED)) && !Careful(Paired(UNSAVED))
    ensures Invoke(World(Paired(UNSAVED), map[], NO_INPUT, false), MAIN, Nil, START, 1).Fault?
  {
    hide Exec, AnalyzeFunction, Accepted, Careful;
    UnsavedAccepted();
    UnsavedAnalyzed();
    var f: Frame := map[R := IntV(0)];
    assert Zeros(UNSAVED.locals) == f;
    assert START.frames + [f] == At([], f, map[], 0).frames;
    var w := World(Paired(UNSAVED), UNSAVED.tys, NO_INPUT, false);
    CaseCellFaults(w, 1);
    assert ExecAll(w, Cons(CASE_CELL_CODE, One(CASE_LAST_CODE)), At([], f, map[], 0), 1).Fault?;
    assert Bind(Nil, Nil, f) == Some(f);
  }

  const UNSAVED_WORLD := World(Paired(UNSAVED), UNSAVED.tys, NO_INPUT, true)

  lemma NumberWhole()
    ensures Tree(CELLS, BOXED_NUMBER, PtrV(2), TSum(F)) && Cells(BOXED_NUMBER, PtrV(2)) == {2}
    ensures ShapesOf(BOXED_NUMBER, One(IntV(7)), 2) == One(Atom)
  {
    assert CellsOf(BOXED_NUMBER, Nil, 2) == {} && CellsOf(BOXED_NUMBER, One(IntV(7)), 2) == {};
    assert Forest(CELLS, BOXED_NUMBER, Nil, Nil, 2) && Forest(CELLS, BOXED_NUMBER, One(IntV(7)), One(TInt), 2);
  }

  lemma NumberInv(w: World, s: State)
    requires w.tys == map[Y := TOwn, R := TInt] && s == At([], SPENT, BOXED_NUMBER, 3)
    ensures Inv(w, INSIDE, {}, s, {}, {1, 2})
  {
    hide Tree, Cells, CellsOwned, Lends;
    NothingOwned(BOXED_NUMBER, SPENT);
    assert {} + {1, 2} == {1, 2};
  }

  lemma NothingOwned(h: Memory, f: Frame)
    ensures CellsOwned(h, f, {}) == {}
  {
  }

  lemma UnsavedSetting()
    ensures Setting(UNSAVED_WORLD)
  {
    hide Accepted, Careful;
    UnsavedAccepted();
  }

  // The inner arm is selected: the outer box is in flight, y owns nothing.
  lemma NumberSelected(s: State)
    requires s == At([], SPENT, BOXED_NUMBER, 3)
    ensures Scrutinised(UNSAVED_WORLD, INSIDE, {}, s, {}, {1}, PtrV(2), F, true)
  {
    hide Setting, Inv, Tree, Cells;
    UnsavedSetting();
    NumberWhole();
    NumberInv(UNSAVED_WORLD, s);
    assert {1} + {2} == {1, 2};
  }

  lemma NumberFits()
    ensures OwnersUsedAsBound(UNSAVED.tys, ARM_NUMBER.pats, {}) && Unsaved(ARM_NUMBER, Y_OWNED) == {Y}
    ensures Distinct(BindersOf(ARM_NUMBER.pats)) && AllMatch(ARM_NUMBER.pats, One(Atom))
    ensures OwnedIn(Y_MOVED) == {} && OwnedIn(Y_OWNED) == {Y} && Y_MOVED.Keys == {Y}
  {
    BindersHere();
    assert AllRedeclared(UNSAVED.tys, ARM_NUMBER.pats)[Y] == TInt;
    assert Owning(ARM_NUMBER.pats) == {} && OwnedIn(Y_OWNED) == {Y};
  }

  // Its payload is bound, and its body runs to its end.
  lemma {:induction false} NumberHanded(w: World)
    requires w.p.ctors == CELLS
    ensures NUMBER in CELLS && CELLS[NUMBER].params == One(TInt) && BOXED_NUMBER[2] == Box(NUMBER, One(IntV(7)))
    ensures BindPats(CELLS, BOXED_NUMBER, SPENT, 2, One(IntV(7)), ARM_NUMBER.pats, One(TInt), true, 3)
      == Bound(BOXED_NUMBER, map[R := IntV(1), Y := IntV(7)])
    ensures var s, s1 := At([], SPENT, BOXED_NUMBER, 3), At([], map[R := IntV(1), Y := IntV(7)], BOXED_NUMBER, 3);
      && WithTop(s.(heap := BOXED_NUMBER), map[R := IntV(1), Y := IntV(7)]) == s1
      && Exec(w, RENEW, s1, 0).Done?
      && Exec(Real(w), RENEW, s1, 0) == Done((), At([], map[R := IntV(1), Y := PtrV(3)], RENEWED, 4))
  {
    hide Exec, BindPats;
    NumberBinds();
    RenewRuns(w, 0);
    RenewRuns(Real(w), 0);
  }

  // What the theorem on the end of such an arm says of the inner one.
  lemma NumberEnds()
    ensures LeftAs(UNSAVED_WORLD, ARM_NUMBER, INSIDE, {Y}, {Y}, At([], SPENT, BOXED_NUMBER, 3),
      At([], map[R := IntV(1), Y := PtrV(3)], RENEWED, 4), {}, {1, 2})
  {
    hide Scrutinised, Exec, BindPats, Unshadow, AnalyzeStmt, AnalyzeArm, WfArm, ShapesOf, LeftAs, OwnersUsedAsBound,
      Unsaved, BindersOf, AllMatch, OwnedIn, Distinct, Tree, OwnedBindersOf, TestPats, WfStmt, CarefulStmt, WithTop;
    var s := At([], SPENT, BOXED_NUMBER, 3);
    NumberSelected(s);
    NumberWhole();
    ArmNumberWf();
    ArmNumberAnalyzed();
    BindersHere();
    NumberHanded(UNSAVED_WORLD);
    NumberFits();
    RetypedEndsExactly(UNSAVED_WORLD, ARM_NUMBER, F, true, INSIDE, Y_MOVED, {Y}, s, {}, {1}, PtrV(2), 0);
    assert {1} + {2} == {1, 2};
  }

  lemma {:induction false} RenewedLeft(w: World, s: State, s2: State, s3: State)
    requires s == At([], SPENT, BOXED_NUMBER, 3) && s3 == At([], SPENT, RENEWED, 4)
    requires s2 == At([], map[R := IntV(1), Y := PtrV(3)], RENEWED, 4)
    requires LeftAs(w, ARM_NUMBER, INSIDE, {Y}, {Y}, s, s2, {}, {1, 2})
    ensures Inv(w, INSIDE, {}, s3, {}, {1, 2, 3}) && !Ran(w, INSIDE, {Y}, s, s3, {}, {1, 2})
  {
    hide Inv, Ran, Repossessed, BindPats, Unshadow, Stable, Tree, TestPats;
    NumberBinds();
    assert WithTop(s2, SPENT) == s3;
    assert CellsOwned(RENEWED, Top(s2), {Y}) == {3} by {
      assert Cells(RENEWED, PtrV(3)) == {3};
    }
    assert {1, 2} + {3} == {1, 2, 3} && {Y} - {Y} == {};
    assert NoStale(s3, {Y});
  }

  // It was handed what it should be, and the plan does not fit when it ends: y is
  // planned to own, nothing does, and the cell 3 is held by nobody.
  lemma UnsavedByTheorem()
    ensures OwnersUsedAsBound(UNSAVED.tys, ARM_NUMBER.pats, {})
    ensures var s, s3 := At([], SPENT, BOXED_NUMBER, 3), At([], SPENT, RENEWED, 4);
      && Inv(UNSAVED_WORLD, INSIDE, {}, s3, {}, {1, 2, 3})
      && !Ran(UNSAVED_WORLD, INSIDE, {Y}, s, s3, {}, {1, 2})
  {
    hide Inv, Ran, LeftAs, OwnersUsedAsBound, Unsaved, AllMatch;
    NumberFits();
    NumberEnds();
    RenewedLeft(UNSAVED_WORLD, At([], SPENT, BOXED_NUMBER, 3),
      At([], map[R := IntV(1), Y := PtrV(3)], RENEWED, 4), At([], SPENT, RENEWED, 4));
  }

  // -------------------------------------------------------------------------
  // A box written to as a cell
  // -------------------------------------------------------------------------

  const POKE := Write(Var(X), Num(9))
  const PEEK_M := Arm(M, One(PVar(X, TSum(V))), POKE)
  const PEEK_L := Arm(L, One(PVar(X, TOwn)), Block(Nil))
  const PEEK := Case(Deref(Var(Q)), Cons(PEEK_M, One(PEEK_L)))

  // look(q) { case *q of { M(x) -> *x = 9; L(x) -> {} } return 0; }
  const POKED := Fun(One(Q), {}, map[Q := TBorrow(TSum(D)), X := TOwn], One(PEEK), Num(0), TInt)

  const WITHIN := Scope({Q}, {})

  lemma PeekBinders()
    ensures BindersOf(PEEK_M.pats) == One(X) == BindersOf(PEEK_L.pats)
    ensures Owning(PEEK_M.pats) == {X} == Owning(PEEK_L.pats)
    ensures ArmScope(PEEK_M, false, WITHIN) == Scope({Q, X}, {X}) == ArmScope(PEEK_L, false, WITHIN)
    ensures ArmBinders(PEEK_M, false) == Nil == ArmBinders(PEEK_L, false)
    ensures ArmOwners(PEEK_M, false) == {} == ArmOwners(PEEK_L, false)
  {
  }

  lemma PeekArmsAnalyzed()
    ensures AnalyzeArm(Alone(POKED), POKED.tys, PEEK_M, false, NO_STATE) == Some(Checked(NO_STATE, PEEK_M))
    ensures AnalyzeArm(Alone(POKED), POKED.tys, PEEK_L, false, NO_STATE) == Some(Checked(NO_STATE, PEEK_L))
  {
    var p, tys := Alone(POKED), POKED.tys;
    PeekBinders();
    assert AnalyzeStmt(p, tys, POKE, NO_STATE) == Some(Checked(NO_STATE, POKE));
    assert AnalyzeStmt(p, tys, Block(Nil), NO_STATE) == Some(Checked(NO_STATE, Block(Nil)));
  }

  lemma PokedAnalyzed()
    ensures AnalyzeFunction(Alone(POKED), POKED) == Some(Code(One(PEEK), Nil))
  {
    hide AnalyzeArm;
    var p, tys := Alone(POKED), POKED.tys;
    assert Elems(One(Q)) == {Q};
    assert Entry(POKED) == NO_STATE;
    PeekArmsAnalyzed();
    TwoArmsAnalyzed(p, tys, Deref(Var(Q)), PEEK_M, PEEK_L, PEEK_M, PEEK_L, NO_STATE, NO_STATE, NO_STATE, NO_STATE,
      NO_STATE);
    assert OwnedIn(NO_STATE) == {} && Sorted({}) == Nil;
  }

  lemma PeekArmsWf()
    ensures WfArm(Alone(POKED), POKED.tys, PEEK_M, D, false, WITHIN, {})
    ensures WfArm(Alone(POKED), POKED.tys, PEEK_L, D, false, WITHIN, {})
  {
    var p := Alone(POKED);
    PeekBinders();
    var none: set<Name> := {};
    assert none + {} == none;
    assert PatsTyped(p, PEEK_M.pats, One(TSum(V))) && PatsTyped(p, PEEK_L.pats, One(TOwn));
  }

  lemma PeekWf()
    ensures WfStmt(Alone(POKED), POKED.tys, PEEK, WITHIN, {}) && !CarefulStmt(Alone(POKED), POKED.tys, PEEK)
  {
    hide TypedArm, AssignedArm, Exhaustive;
    var p, tys := Alone(POKED), POKED.tys;
    PeekArmsWf();
    assert TypeOf(p, tys, WITHIN, Deref(Var(Q)), Place) == Some(TSum(D));
    assert TypedArms(p, tys, One(PEEK_L), D, false, WITHIN);
    assert AssignedArms(tys, One(PEEK_L), false, WITHIN, {});
    assert !AllUsedAsBound(tys, PEEK_M.pats);
  }

  lemma PokedAccepted()
    ensures Accepted(Alone(POKED)) && !Careful(Alone(POKED))
  {
    hide AnalyzeFunction, TypedStmt, AssignedStmt, CarefulStmt, Accepted;
    var p, tys := Alone(POKED), POKED.tys;
    assert Elems(One(Q)) == {Q};
    assert FunScope(POKED) == WITHIN && Entry(POKED).Keys == {};
    PokedAnalyzed();
    PeekWf();
    OneTyped(p, tys, WITHIN, {}, PEEK);
    assert TypeOf(p, tys, WITHIN, Num(0), Taken) == Some(TInt) && WfFun(p, POKED);
    AloneAccepted(POKED);
    assert p.funs[MAIN] == POKED && !CarefulStmts(p, tys, POKED.body);
  }

  const LENT_BOX: Memory := map[0 := IntCell(5), 1 := IntCell(6), 2 := Box(PAIR, Cons(PtrV(0), One(PtrV(1)))),
                                3 := Box(M, One(PtrV(2)))]

  // The caller lends M(Pair(alloc 5, alloc 6)).
  const BOX_LENDER := State([map[X := PtrV(3)]], LENT_BOX, 4, 0, [])

  const LOOKING: Frame := map[Q := SlotV(0, X)]
  const LOOKING_IN: Frame := map[Q := SlotV(0, X), X := PtrV(2)]

  lemma PeekMBinds()
    ensures TestPats(LENT_BOX, One(PtrV(2)), PEEK_M.pats) == Some(true)
    ensures BindPats(CELLS, LENT_BOX, LOOKING, 3, One(PtrV(2)), PEEK_M.pats, One(TSum(V)), false, 4)
      == Bound(LENT_BOX, LOOKING_IN)
  {
    assert LOOKING[X := PtrV(2)] == LOOKING_IN;
  }

  lemma {:induction false} PeekFaults(w: World, fuel: nat)
    requires w == World(Alone(POKED), POKED.tys, NO_INPUT, false)
    ensures Exec(w, PEEK, At(BOX_LENDER.frames, LOOKING, LENT_BOX, 4), fuel).Fault?
  {
    var s, s1 := At(BOX_LENDER.frames, LOOKING, LENT_BOX, 4), At(BOX_LENDER.frames, LOOKING_IN, LENT_BOX, 4);
    assert s.frames[0] == BOX_LENDER.frames[0];
    assert Eval(w, Deref(Var(Q)), s, fuel) == Done(PtrV(3), s);
    PeekMBinds();
    assert WithTop(s, LOOKING_IN) == s1;
    assert Exec(w, POKE, s1, fuel).Fault? by {
      assert Eval(w, Var(X), s1, fuel) == Done(PtrV(2), s1) && Eval(w, Num(9), s1, fuel) == Done(IntV(9), s1);
    }
    CaseFaults(w, Deref(Var(Q)), PEEK.arms, s, 3, s, fuel);
  }

  // Accepted, with every owner assigned before it is named; the body of a borrowed
  // match stores an integer into a box.
  lemma PokedFaults()
    ensures Accepted(Alone(POKED)) && !Careful(Alone(POKED))
    ensures Invoke(World(Alone(POKED), map[], NO_INPUT, false), MAIN, One(SlotV(0, X)), BOX_LENDER, 0).Fault?
  {
    hide Exec, AnalyzeFunction, Accepted, Careful;
    PokedAccepted();
    PokedAnalyzed();
    assert Zeros(POKED.locals)[Q := SlotV(0, X)] == LOOKING;
    assert Bind(One(Q), One(SlotV(0, X)), Zeros(POKED.locals)) == Some(LOOKING);
    var w, s := World(Alone(POKED), POKED.tys, NO_INPUT, false), At(BOX_LENDER.frames, LOOKING, LENT_BOX, 4);
    assert BOX_LENDER.(frames := BOX_LENDER.frames + [LOOKING]) == s;
    PeekFaults(w, 0);
    assert ExecAll(w, One(PEEK), s, 0).Fault?;
  }

  const POKED_WORLD := World(Alone(POKED), POKED.tys, NO_INPUT, true)

  lemma LentWhole()
    ensures Tree(CELLS, LENT_BOX, PtrV(3), TSum(D)) && Cells(LENT_BOX, PtrV(3)) == {0, 1, 2, 3}
    ensures ShapesOf(LENT_BOX, One(PtrV(2)), 3) == One(ShapeOf(LENT_BOX, PtrV(2)))
  {
    assert Cells(LENT_BOX, PtrV(0)) == {0} && Cells(LENT_BOX, PtrV(1)) == {1};
    assert CellsOf(LENT_BOX, Nil, 2) == {} == CellsOf(LENT_BOX, Nil, 3);
    assert CellsOf(LENT_BOX, One(PtrV(1)), 2) == {1} && CellsOf(LENT_BOX, LENT_BOX[2].fields, 2) == {0, 1};
    assert Forest(CELLS, LENT_BOX, Nil, Nil, 2) && Forest(CELLS, LENT_BOX, One(PtrV(1)), One(TOwn), 2);
    assert Forest(CELLS, LENT_BOX, LENT_BOX[2].fields, Cons(TOwn, One(TOwn)), 2);
    assert Tree(CELLS, LENT_BOX, PtrV(2), TSum(V)) && Cells(LENT_BOX, PtrV(2)) == {0, 1, 2};
    assert CellsOf(LENT_BOX, One(PtrV(2)), 3) == {0, 1, 2};
    assert Forest(CELLS, LENT_BOX, Nil, Nil, 3) && Forest(CELLS, LENT_BOX, One(PtrV(2)), One(TSum(V)), 3);
    assert ShapesOf(LENT_BOX, Nil, 3) == Nil;
  }

  lemma LookerCopies(s: State)
    requires s == At(BOX_LENDER.frames, LOOKING, LENT_BOX, 4)
    ensures Copies(POKED_WORLD, WITHIN, s, {0, 1, 2, 3})
  {
    hide Tree, Cells;
    LentWhole();
    assert s.frames[0] == BOX_LENDER.frames[0] && s.frames[1] == LOOKING;
  }

  lemma LentInv(s: State)
    requires s == At(BOX_LENDER.frames, LOOKING, LENT_BOX, 4)
    ensures Inv(POKED_WORLD, WITHIN, {}, s, {0, 1, 2, 3}, {})
  {
    hide Tree, Cells, Copies, CellsOwned;
    LookerCopies(s);
    NothingOwned(LENT_BOX, LOOKING);
  }

  lemma PokedSetting()
    ensures Setting(POKED_WORLD)
  {
    hide Accepted, Careful;
    PokedAccepted();
  }

  lemma LentSelected(s: State)
    requires s == At(BOX_LENDER.frames, LOOKING, LENT_BOX, 4)
    ensures Scrutinised(POKED_WORLD, WITHIN, {}, s, {0, 1, 2, 3}, {}, PtrV(3), D, false)
  {
    hide Setting, Inv, Tree, Cells;
    PokedSetting();
    LentWhole();
    LentInv(s);
  }

  lemma NoneHidden(s: State, arm: Arm)
    requires s.frames != []
    ensures Hidden(s, {}, arm) == {}
  {
    assert {} * Elems(BindersOf(arm.pats)) == {};
  }

  lemma PeekMFits()
    ensures !OwnersUsedAsBound(POKED.tys, PEEK_M.pats, {}) && Distinct(BindersOf(PEEK_M.pats))
    ensures forall sh :: AllMatch(PEEK_M.pats, One(sh))
  {
    PeekBinders();
    assert X in Elems(BindersOf(PEEK_M.pats)) && AllRedeclared(POKED.tys, PEEK_M.pats)[X] == TSum(V);
  }

  // The theorem on retyped binders says so of the arm.
  lemma PokedByTheorem()
    ensures !Handed(POKED_WORLD, PEEK_M, false, WITHIN, {}, At(BOX_LENDER.frames, LOOKING_IN, LENT_BOX, 4),
      {0, 1, 2, 3}, {})
  {
    hide Scrutinised, Handed, BindPats, Tree, AllRedeclared, ShapesOf, ShapeOf, Elems, WfArm, Hidden, Stable, AllMatch;
    var s := At(BOX_LENDER.frames, LOOKING, LENT_BOX, 4);
    LentWhole();
    LentSelected(s);
    NoneHidden(s, PEEK_M);
    PeekMBinds();
    PeekMFits();
    PeekArmsWf();
    RetypedExactly(POKED_WORLD, PEEK_M, D, false, WITHIN, {}, s, {0, 1, 2, 3}, {}, PtrV(3));
    var none: set<nat> := {};
    assert none + none + none == none;
    assert WithTop(s.(heap := LENT_BOX), LOOKING_IN) == At(BOX_LENDER.frames, LOOKING_IN, LENT_BOX, 4);
  }
}
