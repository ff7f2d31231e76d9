/** Accepted programs two of whose arms bind one name at different types. Uses of the
    name have the type of its last declaration, in whichever arm they stand. In the
    first program an arm is handed a cell and takes it apart as a box; it is accepted
    and assigns before it names. In the second an arm is handed an integer and passes
    it on as an owner, and the integer is freed as an address at the exit; the name
    never owns there, so definite assignment turns it away, but no pass does. The
    theorem on such arms applies to the first. */
module RetypedExamples {
  import opened Optional
  import opened Syntax
  import opened Heap
  import opened Moves
  import opened Static
  import opened Machine
  import opened Ownership
  import opened Running
  import opened Matching
  import opened Arms
  import opened Safety
  import opened Retyped
  import opened Counterexamples
  import opened StrayExamples

  // type D = L(own&int) | M(v); type V = Pair(own&int, own&int); type E = I(int) | O(own&int);
  // type F = Number(int); type G = Cell(own&int)
  const D: Name := 30
  const E: Name := 31
  const L: Name := 32
  const M: Name := 33
  const IS: Name := 34
  const OS: Name := 35
  const F: Name := 36
  const G: Name := 37
  const NUMBER: Name := 38
  const CELL: Name := 39

  const CELLS := map[L := Ctor(D, One(TOwn)), M := Ctor(D, One(TSum(V))), PAIR := Ctor(V, Cons(TOwn, One(TOwn))),
                     IS := Ctor(E, One(TInt)), OS := Ctor(E, One(TOwn)), NUMBER := Ctor(F, One(TInt)),
                     CELL := Ctor(G, One(TOwn))]

  function Alone(f: Fun): Program {
    Program(CELLS, map[MAIN := f])
  }

  lemma AloneAccepted(f: Fun)
    requires WfFun(Alone(f), f) && AnalyzeFunction(Alone(f), f).Some?
    ensures Accepted(Alone(f))
  {
    hide WfFun, AnalyzeFunction;
    assert Alone(f).funs[MAIN] == f && FunAccepted(Alone(f), MAIN);
  }

  // -------------------------------------------------------------------------
  // A cell taken apart as a box
  // -------------------------------------------------------------------------

  const ANY_PAIR := Arm(PAIR, Cons(PWild, One(PWild)), Block(Nil))
  const APART := Case(Var(X), One(ANY_PAIR))
  const ARM_L := Arm(L, One(PVar(X, TOwn)), APART)
  const ARM_M := Arm(M, One(PVar(X, TSum(V))), Block(Nil))
  const CASE_L := Case(New(L, One(Alloc(Num(0)))), Cons(ARM_L, One(ARM_M)))

  // main() { case L(alloc 0) of { L(x) -> case x of { Pair(_, _) -> {} } M(x) -> {} } return 0; }
  const RETYPED := Fun(Nil, {}, map[X := TSum(V)], One(CASE_L), Num(0), TInt)

  // As generated: only the second arm leaves its binder to be destroyed.
  const ARM_M_CODE := ARM_M.(body := Block(Cons(Block(Nil), One(Destroy(X, TSum(V))))))
  const CASE_L_CODE := CASE_L.(arms := Cons(ARM_L, One(ARM_M_CODE)))

  const NO_STATE: StateMap := map[]

  lemma OwnedHere()
    ensures ArmOwned(ARM_L, true) == One(Binder(X, TOwn)) && ArmBinders(ARM_L, true) == One(X)
    ensures ArmOwned(ARM_M, true) == One(Binder(X, TSum(V))) && ArmBinders(ARM_M, true) == One(X)
    ensures ArmOwned(ANY_PAIR, true) == Nil && BindersOf(ANY_PAIR.pats) == Nil
    ensures BindersOf(ARM_L.pats) == One(X) == BindersOf(ARM_M.pats)
  {
    assert OwnedBindersOf(One(PWild)) == Nil && BindersOf(One(PWild)) == Nil;
  }

  lemma ApartAnalyzed()
    ensures AnalyzeStmt(Alone(RETYPED), RETYPED.tys, APART, X_OWNED) == Some(Checked(X_MOVED, APART))
  {
    var p, tys := Alone(RETYPED), RETYPED.tys;
    OwnedHere();
    assert X_OWNED[X := Moved] == X_MOVED;
    assert AnalyzeStmt(p, tys, Block(Nil), X_MOVED) == Some(Checked(X_MOVED, Block(Nil)));
    assert AnalyzeArm(p, tys, ANY_PAIR, true, X_MOVED) == Some(Checked(X_MOVED, ANY_PAIR));
    OneArmAnalyzed(p, tys, Var(X), ANY_PAIR, ANY_PAIR, X_OWNED, X_MOVED, X_MOVED);
  }

  lemma ArmLAnalyzed()
    ensures AnalyzeArm(Alone(RETYPED), RETYPED.tys, ARM_L, true, NO_STATE) == Some(Checked(NO_STATE, ARM_L))
  {
    hide AnalyzeStmt;
    OwnedHere();
    ApartAnalyzed();
    assert SetOwned(NO_STATE, One(X)) == X_OWNED && SavedBy(NO_STATE, One(X)) == One(Saved(X, None));
    assert X_MOVED - {X} == NO_STATE && PutBack(NO_STATE, Nil) == NO_STATE;
    assert PutBack(X_MOVED, One(Saved(X, None))) == NO_STATE;
    assert Leftover(One(Binder(X, TOwn)), X_MOVED) == Nil;
  }

  lemma ArmMAnalyzed()
    ensures AnalyzeArm(Alone(RETYPED), RETYPED.tys, ARM_M, true, NO_STATE) == Some(Checked(NO_STATE, ARM_M_CODE))
  {
    var b := Binder(X, TSum(V));
    OwnedHere();
    assert SetOwned(NO_STATE, One(X)) == X_OWNED && SavedBy(NO_STATE, One(X)) == One(Saved(X, None));
    assert X_OWNED - {X} == NO_STATE && PutBack(NO_STATE, Nil) == NO_STATE;
    assert PutBack(X_OWNED, One(Saved(X, None))) == NO_STATE;
    assert AnalyzeStmt(Alone(RETYPED), RETYPED.tys, Block(Nil), X_OWNED) == Some(Checked(X_OWNED, Block(Nil)));
    assert Leftover(One(b), X_OWNED) == One(b) && Destroys(Nil) == Nil && Destroys(One(b)) == One(Destroy(X, TSum(V)));
  }

  lemma {:induction false} TwoArms(p: Program, tys: map<Name, Ty>, a: Arm, b: Arm, ca: Arm, cb: Arm, byValue: bool,
      st: StateMap, sa: StateMap, sb: StateMap)
    requires AnalyzeArm(p, tys, a, byValue, st) == Some(Checked(sa, ca))
    requires AnalyzeArm(p, tys, b, byValue, st) == Some(Checked(sb, cb))
    ensures AnalyzeArms(p, tys, Cons(a, One(b)), byValue, st) == Some(([sa, sb], Cons(ca, One(cb))))
  {
    hide AnalyzeArm, AnalyzeStmt;
    assert AnalyzeArms(p, tys, Nil, byValue, st) == Some(([], Nil));
    assert [sb] + [] == [sb] && AnalyzeArms(p, tys, One(b), byValue, st) == Some(([sb], One(cb)));
    assert [sa] + [sb] == [sa, sb];
  }

  lemma {:induction false} TwoJoined(sa: StateMap, sb: StateMap, out: StateMap)
    requires OwnedIn(sa) == OwnedIn(sb) == OwnedIn(out) && sa.Keys + sb.Keys == out.Keys
    ensures Join([sa, sb]) == Some(out)
  {
    var branches := [sa, sb];
    assert branches[1..] == [sb] && [sb][1..] == [];
    assert KeysOf([]) == {} && KeysOf([sb]) == sb.Keys + {} && KeysOf(branches) == sa.Keys + KeysOf([sb]);
    assert KeysOf(branches) == out.Keys;
    assert forall s | s in branches :: s == sa || s == sb;
    assert Join(branches).value == out;
  }

  // Two arms that end with the same state.
  lemma {:induction false} TwoArmsAnalyzed(p: Program, tys: map<Name, Ty>, e: Expr, a: Arm, b: Arm, ca: Arm, cb: Arm,
      st: StateMap, st1: StateMap, sa: StateMap, sb: StateMap, out: StateMap)
    requires Take(p, tys, e, st) == Some(st1)
    requires AnalyzeArm(p, tys, a, Consuming(e), st1) == Some(Checked(sa, ca))
    requires AnalyzeArm(p, tys, b, Consuming(e), st1) == Some(Checked(sb, cb))
    requires OwnedIn(sa) == OwnedIn(sb) == OwnedIn(out) && sa.Keys + sb.Keys == out.Keys
    ensures AnalyzeStmt(p, tys, Case(e, Cons(a, One(b))), st) == Some(Checked(out, Case(e, Cons(ca, One(cb)))))
  {
    hide AnalyzeArm, Take, Join;
    TwoArms(p, tys, a, b, ca, cb, Consuming(e), st1, sa, sb);
    TwoJoined(sa, sb, out);
  }

  lemma RetypedAnalyzed()
    ensures AnalyzeFunction(Alone(RETYPED), RETYPED) == Some(Code(One(CASE_L_CODE), Nil))
  {
    hide AnalyzeArm;
    var p, tys := Alone(RETYPED), RETYPED.tys;
    assert Entry(RETYPED) == NO_STATE;
    assert EvalOperands(p, tys, One(Alloc(Num(0))), One(true), NO_STATE, {}) == Some(NO_STATE);
    ArmLAnalyzed();
    ArmMAnalyzed();
    TwoArmsAnalyzed(p, tys, CASE_L.scrutinee, ARM_L, ARM_M, ARM_L, ARM_M_CODE, NO_STATE, NO_STATE, NO_STATE, NO_STATE,
      NO_STATE);
    assert OwnedIn(NO_STATE) == {} && Sorted({}) == Nil;
  }

  lemma ApartWf()
    ensures WfStmt(Alone(RETYPED), RETYPED.tys, APART, Scope({X}, {}), {X})
  {
    var p, tys, sc := Alone(RETYPED), RETYPED.tys, Scope({X}, {});
    OwnedHere();
    assert ArmScope(ANY_PAIR, true, sc) == sc && {X} + ArmOwners(ANY_PAIR, true) == {X};
    assert PatsTyped(p, One(PWild), One(TOwn)) && PatsTyped(p, ANY_PAIR.pats, Cons(TOwn, One(TOwn)));
    assert TypedArm(p, tys, ANY_PAIR, V, true, sc) && TypedArms(p, tys, One(ANY_PAIR), V, true, sc);
    assert AssignedArm(tys, ANY_PAIR, true, sc, {X}) && AssignedArms(tys, One(ANY_PAIR), true, sc, {X});
  }

  lemma ArmsTyped()
    ensures TypedArm(Alone(RETYPED), RETYPED.tys, ARM_L, D, true, Scope({}, {}))
    ensures TypedArm(Alone(RETYPED), RETYPED.tys, ARM_M, D, true, Scope({}, {}))
  {
    var p, tys, sc := Alone(RETYPED), RETYPED.tys, Scope({}, {});
    OwnedHere();
    ApartWf();
    assert ArmScope(ARM_L, true, sc) == Scope({X}, {}) == ArmScope(ARM_M, true, sc);
    assert PatsTyped(p, ARM_L.pats, One(TOwn)) && PatsTyped(p, ARM_M.pats, One(TSum(V)));
  }

  lemma CaseLTyped()
    ensures TypedStmt(Alone(RETYPED), RETYPED.tys, CASE_L, Scope({}, {}))
  {
    hide TypedArm;
    var p, tys, sc := Alone(RETYPED), RETYPED.tys, Scope({}, {});
    ArmsTyped();
    assert TypedAll(p, tys, sc, One(Alloc(Num(0))), One(TOwn), Taken);
    assert TypedArms(p, tys, One(ARM_M), D, true, sc) && TypedArms(p, tys, Cons(ARM_L, One(ARM_M)), D, true, sc);
  }

  lemma CaseLWf()
    ensures WfStmt(Alone(RETYPED), RETYPED.tys, CASE_L, Scope({}, {}), {})
    ensures !CarefulStmt(Alone(RETYPED), RETYPED.tys, CASE_L)
  {
    hide Exhaustive, TypedStmt;
    var p, tys, sc := Alone(RETYPED), RETYPED.tys, Scope({}, {});
    OwnedHere();
    ApartWf();
    CaseLTyped();
    assert AssignedAll(tys, sc, {}, One(Alloc(Num(0))));
    assert ArmScope(ARM_L, true, sc) == Scope({X}, {}) == ArmScope(ARM_M, true, sc);
    assert {} + ArmOwners(ARM_L, true) == {X} == {} + ArmOwners(ARM_M, true);
    assert AssignedArm(tys, ARM_M, true, sc, {}) && AssignedArms(tys, One(ARM_M), true, sc, {});
    assert AssignedArm(tys, ARM_L, true, sc, {}) && AssignedArms(tys, Cons(ARM_L, One(ARM_M)), true, sc, {});
    assert !AllUsedAsBound(tys, ARM_L.pats);
  }

  lemma {:induction false} OneTyped(p: Program, tys: map<Name, Ty>, sc: Scope, d: set<Name>, c: Stmt)
    ensures WfStmts(p, tys, One(c), sc, d) <==> WfStmt(p, tys, c, sc, d)
    ensures CarefulStmts(p, tys, One(c)) <==> CarefulStmt(p, tys, c)
    ensures TypedStmts(p, tys, One(c), sc) <==> TypedStmt(p, tys, c, sc)
  {
    hide TypedStmt, AssignedStmt, CarefulStmt;
    assert TypedStmts(p, tys, Nil, sc) && AssignedStmts(tys, Nil, sc, AssignedAfter(tys, c, d));
    assert CarefulStmts(p, tys, Nil);
  }

  lemma RetypedAccepted()
    ensures Accepted(Alone(RETYPED)) && !Careful(Alone(RETYPED))
  {
    hide AnalyzeFunction, TypedStmt, AssignedStmt, CarefulStmt, Accepted;
    var p, tys, sc := Alone(RETYPED), RETYPED.tys, Scope({}, {});
    assert FunScope(RETYPED) == sc && Entry(RETYPED).Keys == {};
    RetypedAnalyzed();
    CaseLWf();
    OneTyped(p, tys, sc, {}, CASE_L);
    assert TypeOf(p, tys, sc, Num(0), Taken) == Some(TInt) && WfFun(p, RETYPED);
    AloneAccepted(RETYPED);
    assert p.funs[MAIN] == RETYPED && !CarefulStmts(p, tys, RETYPED.body);
  }

  const BOXED: Memory := map[0 := IntCell(0), 1 := Box(L, One(PtrV(0)))]

  // The cell has no tag.
  lemma {:induction false} ApartFaults(w: World, fuel: nat)
    ensures Exec(w, APART, At([], map[X := PtrV(0)], BOXED, 2), fuel).Fault?
  {
    assert Eval(w, Var(X), At([], map[X := PtrV(0)], BOXED, 2), fuel).Done?;
  }

  lemma {:induction false} CaseLFaults(w: World, fuel: nat)
    requires w == World(Alone(RETYPED), RETYPED.tys, NO_INPUT, false)
    ensures Exec(w, CASE_L_CODE, At([], map[], map[], 0), fuel).Fault?
  {
    var s0, f: Frame := At([], map[], map[], 0), map[];
    var s := At([], f, BOXED, 2);
    var a := Eval(w, Alloc(Num(0)), s0, fuel);
    assert Eval(w, Num(0), s0, fuel) == Done(IntV(0), s0);
    assert a == Done(PtrV(0), s0.(heap := map[0 := IntCell(0)], next := 1)) by {
      assert map[][0 := IntCell(0)] == map[0 := IntCell(0)];
    }
    assert EvalAll(w, One(Alloc(Num(0))), s0, fuel) == Done(One(PtrV(0)), a.s);
    assert a.s.heap[1 := Box(L, One(PtrV(0)))] == BOXED;
    assert Eval(w, CASE_L.scrutinee, s0, fuel) == Done(PtrV(1), s);
    ArmLTaken(w, s, fuel);
    CaseFaults(w, CASE_L.scrutinee, CASE_L_CODE.arms, s0, 1, s, fuel);
  }

  lemma {:induction false} ArmLTaken(w: World, s: State, fuel: nat)
    requires w == World(Alone(RETYPED), RETYPED.tys, NO_INPUT, false) && s == At([], map[], BOXED, 2)
    ensures ExecArms(w, CASE_L_CODE.arms, true, 1, s, fuel).Fault?
  {
    hide Exec;
    var f: Frame := map[];
    assert f[X := PtrV(0)] == map[X := PtrV(0)];
    assert TestPats(s.heap, One(PtrV(0)), One(PVar(X, TOwn))) == Some(true);
    assert BindPats(CELLS, s.heap, f, 1, One(PtrV(0)), One(PVar(X, TOwn)), One(TOwn), true, s.next)
      == Bound(s.heap, map[X := PtrV(0)]);
    assert WithTop(s, map[X := PtrV(0)]) == At([], map[X := PtrV(0)], BOXED, 2);
    ApartFaults(w, fuel);
  }

  // Accepted, with every owner assigned before it is named; the run takes a cell
  // for a box.
  lemma RetypedFaults()
    ensures Accepted(Alone(RETYPED)) && !Careful(Alone(RETYPED))
    ensures Invoke(World(Alone(RETYPED), map[], NO_INPUT, false), MAIN, Nil, START, 0).Fault?
  {
    hide Exec, AnalyzeFunction, Accepted, Careful;
    RetypedAccepted();
    RetypedAnalyzed();
    var none: Frame := map[];
    assert Zeros(RETYPED.locals) == none;
    assert START.frames + [none] == At([], map[], map[], 0).frames;
    var w := World(Alone(RETYPED), RETYPED.tys, NO_INPUT, false);
    CaseLFaults(w, 0);
    assert ExecAll(w, One(CASE_L_CODE), At([], map[], map[], 0), 0).Fault?;
    assert Bind(Nil, Nil, none) == Some(none);
  }

  const RETYPED_WORLD := World(Alone(RETYPED), RETYPED.tys, NO_INPUT, true)

  lemma BoxedReady(s: State)
    requires s == At([], map[], BOXED, 2)
    ensures Scrutinised(RETYPED_WORLD, Scope({}, {}), {}, s, {}, {}, PtrV(1), D, true) && Hidden(s, {}, ARM_L) == {}
  {
    hide Accepted, Careful;
    RetypedAccepted();
    BoxedWhole();
    assert CellsOwned(BOXED, Top(s), {}) == {} && {} + {0, 1} == {0, 1};
    assert {} * Elems(BindersOf(ARM_L.pats)) == {};
  }

  lemma ArmLBinds()
    ensures BindPats(CELLS, BOXED, map[], 1, One(PtrV(0)), ARM_L.pats, One(TOwn), true, 2)
      == Bound(BOXED, map[X := PtrV(0)])
    ensures !OwnersUsedAsBound(RETYPED.tys, ARM_L.pats, {}) && Distinct(BindersOf(ARM_L.pats))
    ensures PatsTyped(Alone(RETYPED), ARM_L.pats, One(TOwn)) && AllMatch(ARM_L.pats, One(Atom))
  {
    var f: Frame := map[];
    assert f[X := PtrV(0)] == map[X := PtrV(0)];
    OwnedHere();
    assert X in Elems(BindersOf(ARM_L.pats)) && AllRedeclared(RETYPED.tys, ARM_L.pats)[X] == TOwn;
  }

  // The theorem on retyped binders says so of the arm: what it is handed is not
  // what its uses take it for.
  lemma RetypedByTheorem()
    ensures !Handed(RETYPED_WORLD, ARM_L, true, Scope({}, {}), {}, At([], map[X := PtrV(0)], BOXED, 2), {}, {1})
  {
    hide Scrutinised, Handed, BindPats, Tree, AllRedeclared, ShapesOf, Elems, TypedArm, Hidden, Stable;
    var s := At([], map[], BOXED, 2);
    BoxedWhole();
    BoxedReady(s);
    ArmLBinds();
    ArmsTyped();
    RetypedExactly(RETYPED_WORLD, ARM_L, D, true, Scope({}, {}), {}, s, {}, {}, PtrV(1));
    assert {} + {1} + {} == {1};
    assert WithTop(s.(heap := BOXED), map[X := PtrV(0)]) == At([], map[X := PtrV(0)], BOXED, 2);
  }

  lemma BoxedWhole()
    ensures Tree(CELLS, BOXED, PtrV(1), TSum(D)) && Cells(BOXED, PtrV(1)) == {0, 1}
    ensures ShapesOf(BOXED, One(PtrV(0)), 1) == One(Atom)
  {
    assert Cells(BOXED, PtrV(0)) == {0} && CellsOf(BOXED, Nil, 1) == {};
    assert CellsOf(BOXED, One(PtrV(0)), 1) == {0};
    assert Forest(CELLS, BOXED, Nil, Nil, 1) && Tree(CELLS, BOXED, PtrV(0), TOwn);
    assert Forest(CELLS, BOXED, One(PtrV(0)), One(TOwn), 1);
  }

  // -------------------------------------------------------------------------
  // An integer freed as an address
  // -------------------------------------------------------------------------

  const KEEP := Assign(Y, New(OS, One(Var(X))))
  const ARM_I := Arm(IS, One(PVar(X, TInt)), KEEP)
  const ARM_O := Arm(OS, One(PVar(X, TOwn)), KEEP)
  const CASE_I := Case(New(IS, One(Num(7))), Cons(ARM_I, One(ARM_O)))

  // main() { var y; case I(7) of { I(x) -> y = O(x); O(x) -> y = O(x) } return 0; }
  const MISTAKEN := Fun(Nil, {Y}, map[X := TOwn, Y := TSum(E)], One(CASE_I), Num(0), TInt)

  const BOTH: StateMap := map[X := Moved, Y := Owned]

  lemma MistakenBinders()
    ensures ArmOwned(ARM_I, true) == Nil && ArmBinders(ARM_I, true) == Nil
    ensures ArmOwned(ARM_O, true) == One(Binder(X, TOwn)) && ArmBinders(ARM_O, true) == One(X)
    ensures BindersOf(ARM_I.pats) == One(X) == BindersOf(ARM_O.pats)
  {
  }

  lemma {:induction false} KeepAnalyzed(st: StateMap)
    requires st == NO_STATE || st == X_OWNED
    ensures AnalyzeStmt(Alone(MISTAKEN), MISTAKEN.tys, KEEP, st) == Some(Checked(BOTH, KEEP))
  {
    var p, tys := Alone(MISTAKEN), MISTAKEN.tys;
    assert st[X := Moved] == X_MOVED && X_MOVED[Y := Owned] == BOTH;
    assert EvalOperands(p, tys, Nil, Nil, X_MOVED, {}) == Some(X_MOVED);
    assert EvalOperands(p, tys, One(Var(X)), One(true), st, {}) == Some(X_MOVED);
    assert Y !in OwnedIn(X_MOVED);
  }

  // x is no owner of the first arm, so its use there is of an absent name.
  lemma ArmsKeep()
    ensures var p, tys := Alone(MISTAKEN), MISTAKEN.tys;
      && AnalyzeArm(p, tys, ARM_I, true, NO_STATE) == Some(Checked(BOTH, ARM_I))
      && AnalyzeArm(p, tys, ARM_O, true, NO_STATE) == Some(Checked(Y_OWNED, ARM_O))
  {
    hide AnalyzeStmt;
    MistakenBinders();
    KeepAnalyzed(NO_STATE);
    KeepAnalyzed(X_OWNED);
    assert SetOwned(NO_STATE, One(X)) == X_OWNED && SavedBy(NO_STATE, One(X)) == One(Saved(X, None));
    assert BOTH - {X} == Y_OWNED && PutBack(Y_OWNED, Nil) == Y_OWNED;
    assert PutBack(BOTH, One(Saved(X, None))) == Y_OWNED;
    assert Leftover(Nil, BOTH) == Nil && Leftover(One(Binder(X, TOwn)), BOTH) == Nil;
    assert SavedBy(NO_STATE, Nil) == Nil && PutBack(BOTH, Nil) == BOTH;
  }

  lemma MistakenAnalyzed()
    ensures AnalyzeFunction(Alone(MISTAKEN), MISTAKEN) == Some(Code(One(CASE_I), One(Y)))
  {
    hide AnalyzeArm;
    var p, tys := Alone(MISTAKEN), MISTAKEN.tys;
    assert Entry(MISTAKEN) == NO_STATE;
    assert EvalOperands(p, tys, One(Num(7)), One(true), NO_STATE, {}) == Some(NO_STATE);
    ArmsKeep();
    assert OwnedIn(BOTH) == {Y} == OwnedIn(Y_OWNED);
    TwoArmsAnalyzed(p, tys, CASE_I.scrutinee, ARM_I, ARM_O, ARM_I, ARM_O, NO_STATE, NO_STATE, BOTH, Y_OWNED, BOTH);
    SortedOne(Y);
  }

  lemma {:induction false} KeepTyped(arm: Arm)
    requires arm == ARM_I || arm == ARM_O
    ensures TypedArm(Alone(MISTAKEN), MISTAKEN.tys, arm, E, true, Scope({Y}, {}))
  {
    var p, tys, sc := Alone(MISTAKEN), MISTAKEN.tys, Scope({X, Y}, {});
    MistakenBinders();
    assert ArmScope(arm, true, Scope({Y}, {})) == sc;
    assert PatsTyped(p, ARM_I.pats, One(TInt)) && PatsTyped(p, ARM_O.pats, One(TOwn));
    assert TypedAll(p, tys, sc, One(Var(X)), One(TOwn), Taken);
  }

  lemma MistakenTyped()
    ensures TypedFun(Alone(MISTAKEN), MISTAKEN)
  {
    hide TypedArm;
    var p, tys, sc := Alone(MISTAKEN), MISTAKEN.tys, Scope({Y}, {});
    KeepTyped(ARM_I);
    KeepTyped(ARM_O);
    assert FunScope(MISTAKEN) == sc;
    assert TypedAll(p, tys, sc, One(Num(7)), One(TInt), Taken);
    assert TypedArms(p, tys, One(ARM_O), E, true, sc) && TypedArms(p, tys, CASE_I.arms, E, true, sc);
    assert TypedStmts(p, tys, One(CASE_I), sc) by {
      assert TypedStmt(p, tys, CASE_I, sc);
    }
  }

  lemma MistakenUnassigned()
    ensures !AssignedFun(MISTAKEN)
  {
    var tys, sc := MISTAKEN.tys, Scope({Y}, {});
    MistakenBinders();
    assert FunScope(MISTAKEN) == sc && Entry(MISTAKEN).Keys == {};
    assert ArmScope(ARM_I, true, sc) == Scope({X, Y}, {}) && {} + ArmOwners(ARM_I, true) == {};
    assert !AssignedAll(tys, Scope({X, Y}, {}), {}, One(Var(X)));
    assert !AssignedArms(tys, CASE_I.arms, true, sc, {});
    assert !AssignedStmts(tys, One(CASE_I), sc, {});
  }

  const SEVEN: Memory := map[0 := Box(IS, One(IntV(7)))]
  const SEVEN_KEPT: Memory := map[0 := Box(IS, One(IntV(7))), 1 := Box(OS, One(IntV(7)))]

  lemma {:induction false} KeepRuns(w: World, fuel: nat)
    ensures Exec(w, KEEP, At([], map[X := IntV(7), Y := IntV(0)], SEVEN, 1), fuel)
      == Done((), At([], map[X := IntV(7), Y := PtrV(1)], SEVEN_KEPT, 2))
  {
    var f: Frame := map[X := IntV(7), Y := IntV(0)];
    var s := At([], f, SEVEN, 1);
    assert Eval(w, Var(X), s, fuel) == Done(IntV(7), s);
    assert EvalAll(w, Nil, s, fuel) == Done(Nil, s);
    assert EvalAll(w, One(Var(X)), s, fuel) == Done(One(IntV(7)), s);
    assert SEVEN[1 := Box(OS, One(IntV(7)))] == SEVEN_KEPT;
    AssignAt(w, Y, New(OS, One(Var(X))), [], f, SEVEN, 1, PtrV(1), SEVEN_KEPT, 2, fuel);
    assert f[Y := PtrV(1)] == map[X := IntV(7), Y := PtrV(1)];
  }

  lemma {:induction false} ArmIBinds(s: State)
    requires s == At([], map[Y := IntV(0)], SEVEN, 1)
    ensures TestPats(SEVEN, One(IntV(7)), ARM_I.pats) == Some(true)
    ensures BindPats(CELLS, SEVEN, Top(s), 0, One(IntV(7)), ARM_I.pats, One(TInt), true, s.next)
      == Bound(SEVEN, map[X := IntV(7), Y := IntV(0)])
    ensures Unshadow(map[X := IntV(7), Y := PtrV(1)], BindersOf(ARM_I.pats), Top(s)) == map[Y := PtrV(1)]
  {
    var f, f1: Frame := map[Y := IntV(0)], map[X := IntV(7), Y := PtrV(1)];
    MistakenBinders();
    assert f[X := IntV(7)] == map[X := IntV(7), Y := IntV(0)] && f1 - {X} == map[Y := PtrV(1)];
  }

  lemma {:induction false} ArmITaken(w: World, s: State, fuel: nat)
    requires w == World(Alone(MISTAKEN), MISTAKEN.tys, NO_INPUT, false) && s == At([], map[Y := IntV(0)], SEVEN, 1)
    ensures ExecArms(w, CASE_I.arms, true, 0, s, fuel) == Done((), At([], map[Y := PtrV(1)], SEVEN_KEPT, 2))
  {
    hide Exec, BindPats, TestPats, Unshadow;
    MistakenBinders();
    ArmIBinds(s);
    KeepRuns(w, fuel);
    assert WithTop(s, map[X := IntV(7), Y := IntV(0)]) == At([], map[X := IntV(7), Y := IntV(0)], SEVEN, 1);
    var end := At([], map[X := IntV(7), Y := PtrV(1)], SEVEN_KEPT, 2);
    assert WithTop(end, map[Y := PtrV(1)]) == At([], map[Y := PtrV(1)], SEVEN_KEPT, 2);
  }

  lemma {:induction false} SevenMade(w: World, fuel: nat)
    ensures Eval(w, CASE_I.scrutinee, At([], map[Y := IntV(0)], map[], 0), fuel)
      == Done(PtrV(0), At([], map[Y := IntV(0)], SEVEN, 1))
  {
    var s0 := At([], map[Y := IntV(0)], map[], 0);
    assert Eval(w, Num(7), s0, fuel) == Done(IntV(7), s0) && EvalAll(w, Nil, s0, fuel) == Done(Nil, s0);
    assert EvalAll(w, One(Num(7)), s0, fuel) == Done(One(IntV(7)), s0);
    assert map[][0 := Box(IS, One(IntV(7)))] == SEVEN;
  }

  lemma {:induction false} CaseIRuns(w: World, fuel: nat)
    requires w == World(Alone(MISTAKEN), MISTAKEN.tys, NO_INPUT, false)
    ensures Exec(w, CASE_I, At([], map[Y := IntV(0)], map[], 0), fuel)
      == Done((), At([], map[Y := PtrV(1)], map[1 := Box(OS, One(IntV(7)))], 2))
  {
    hide ExecArms, Eval;
    var s0 := At([], map[Y := IntV(0)], map[], 0);
    SevenMade(w, fuel);
    ArmITaken(w, At([], map[Y := IntV(0)], SEVEN, 1), fuel);
    assert SEVEN_KEPT - {0} == map[1 := Box(OS, One(IntV(7)))];
  }

  // The payload of what y holds is no address.
  lemma {:induction false} ExitFaults(w: World, s: State)
    requires w == World(Alone(MISTAKEN), MISTAKEN.tys, NO_INPUT, false)
    requires s == At([], map[Y := PtrV(1)], map[1 := Box(OS, One(IntV(7)))], 2)
    ensures DestroyVars(w, One(Y), s).Fault?
  {
    assert DestroyValue(CELLS, s.heap, IntV(7), TOwn, 1).BadFree?;
    assert DestroyPayloads(CELLS, s.heap, 1, One(IntV(7)), One(TOwn), 1).BadFree?;
  }

  // Every pass accepts it, and y's payload is freed at the exit though it is 7.
  lemma IntegerFreed()
    ensures TypedFun(Alone(MISTAKEN), MISTAKEN) && !AssignedFun(MISTAKEN)
    ensures AnalyzeFunction(Alone(MISTAKEN), MISTAKEN).Some?
    ensures Invoke(World(Alone(MISTAKEN), map[], NO_INPUT, false), MAIN, Nil, START, 0).Fault?
  {
    hide Exec, AnalyzeFunction, TypedFun, AssignedFun;
    MistakenTyped();
    MistakenUnassigned();
    MistakenAnalyzed();
    var f: Frame := map[Y := IntV(0)];
    assert Zeros(MISTAKEN.locals) == f;
    var s0, s1 := At([], f, map[], 0), At([], map[Y := PtrV(1)], map[1 := Box(OS, One(IntV(7)))], 2);
    assert START.frames + [f] == s0.frames;
    var w := World(Alone(MISTAKEN), MISTAKEN.tys, NO_INPUT, false);
    CaseIRuns(w, 0);
    assert ExecAll(w, One(CASE_I), s0, 0) == Done((), s1);
    assert Eval(w, Num(0), s1, 0) == Done(IntV(0), s1);
    ExitFaults(w, s1);
    assert RunBody(w, MISTAKEN, Code(One(CASE_I), One(Y)), s0, 0).Fault?;
    assert Bind(Nil, Nil, f) == Some(f);
  }
}
