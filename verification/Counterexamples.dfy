/** Two programs that MoveAnalysis accepts and whose generated code goes wrong, each
    with its run step by step: a store through a pointer that the right-hand side
    has just moved, and a read after a loop that moved what it assigned. The first
    also shows the theorem on writes at work: everything that it asks for holds of
    the program, just before the write, and it says that the write faults. */
module Counterexamples {
  import opened Optional
  import opened Syntax
  import opened Heap
  import opened Moves
  import opened Static
  import opened Machine
  import opened Ownership
  import opened Running
  import opened Safety
  import opened Theorems
  import opened Paths
  import opened DefiniteAssignment

  function One<T>(x: T): List<T> {
    Cons(x, Nil)
  }

  const MAIN: Name := 0
  const CONSUME: Name := 1
  const P: Name := 2
  const X: Name := 3
  const I: Name := 4
  const R: Name := 5

  const START := State([], map[], 0, 0, [])

  const NO_INPUT: nat -> int := n => 0

  // consume(p) { return *p; }
  const CONSUME_FUN := Fun(One(P), {}, map[P := TOwn], Nil, Deref(Var(P)), TInt)

  function WithMain(main: Fun): Program {
    Program(map[], map[MAIN := main, CONSUME := CONSUME_FUN])
  }

  function Consumed(x: Name): Expr {
    Call(CONSUME, One(Var(x)))
  }

  lemma ConsumeCode(p: Program)
    ensures AnalyzeFunction(p, CONSUME_FUN) == Some(Code(Nil, One(P)))
  {
    assert Elems(One(P)) == {P};
    assert Entry(CONSUME_FUN) == map[P := Owned];
    assert OwnedIn(map[P := Owned]) == {P};
    SortedOne(P);
  }

  lemma SortedOne(x: Name)
    ensures Sorted({x}) == One(x)
  {
    var m := Least({x});
    assert m == x && {x} - {m} == {};
    assert Sorted({}) == Nil;
  }

  // Running consume on an owning reference frees its cell.
  lemma {:induction false} ConsumeRuns(w: World, s: State, a: nat, fuel: nat)
    requires CONSUME in w.p.funs && w.p.funs[CONSUME] == CONSUME_FUN
    requires a in s.heap && s.heap[a].IntCell?
    ensures Invoke(w, CONSUME, One(PtrV(a)), s, fuel) == Done(IntV(s.heap[a].n), s.(heap := s.heap - {a}))
  {
    var w1 := w.(tys := CONSUME_FUN.tys);
    ConsumeCode(w.p);
    var zeros: Frame := Zeros(CONSUME_FUN.locals);
    assert zeros == map[];
    var frame: Frame := map[P := PtrV(a)];
    assert Bind(One(P), One(PtrV(a)), zeros) == Some(frame);
    var s1 := s.(frames := s.frames + [frame]);
    assert Eval(w1, Deref(Var(P)), s1, fuel) == Done(IntV(s.heap[a].n), s1);
    var s2 := s1.(heap := s.heap - {a});
    assert DestroyVar(w1, P, s1) == Done((), s2);
    assert DestroyVars(w1, One(P), s1) == Done((), s2);
    assert ExecAll(w1, Nil, s1, fuel) == Done((), s1);
    assert RunBody(w1, CONSUME_FUN, Code(Nil, One(P)), s1, fuel) == Done(IntV(s.heap[a].n), s2);
    assert s2.frames[..|s2.frames| - 1] == s.frames;
  }

  // main() { var x; x = alloc 5; *x = consume(x); return 0; }
  const WRITE_MAIN := Fun(Nil, {X}, map[X := TOwn],
    Cons(Assign(X, Alloc(Num(5))), One(Write(Var(X), Consumed(X)))), Num(0), TInt)

  lemma ConsumeTakes(main: Fun)
    ensures Consumes(WithMain(main), CONSUME) == One(true)
  {
    assert FormalTys(CONSUME_FUN.formals, CONSUME_FUN.tys) == One(TOwn);
  }

  lemma WriteAccepted()
    ensures AnalyzeStmt(WithMain(WRITE_MAIN), WRITE_MAIN.tys, Write(Var(X), Consumed(X)), map[X := Owned])
         == Some(Checked(map[X := Moved], Write(Var(X), Consumed(X))))
  {
    var p, tys := WithMain(WRITE_MAIN), WRITE_MAIN.tys;
    var owned: StateMap := map[X := Owned];
    var moved: StateMap := map[X := Moved];
    ConsumeTakes(WRITE_MAIN);
    assert owned[X := Moved] == moved;
    assert BorrowedIn(One(Var(X))) == {};
    assert EvalOperands(p, tys, One(Var(X)), One(true), owned, {}) == Some(moved);
  }

  lemma WriteMainAccepted()
    ensures AnalyzeFunction(WithMain(WRITE_MAIN), WRITE_MAIN) == Some(Code(WRITE_MAIN.body, Nil))
  {
    var p, tys := WithMain(WRITE_MAIN), WRITE_MAIN.tys;
    var s1, s2 := WRITE_MAIN.body.head, WRITE_MAIN.body.tail.head;
    var owned: StateMap := map[X := Owned];
    var moved: StateMap := map[X := Moved];
    assert Entry(WRITE_MAIN) == map[];
    assert AnalyzeStmt(p, tys, s1, map[]) == Some(Checked(owned, s1));
    WriteAccepted();
    assert AnalyzeStmts(p, tys, One(s2), owned) == Some(Checked(moved, One(s2)));
    assert OwnedIn(moved) == {};
    assert Sorted({}) == Nil;
  }

  lemma ConsumeTyped(p: Program)
    ensures WfFun(p, CONSUME_FUN)
  {
    assert Entry(CONSUME_FUN) == map[P := Owned];
    assert FunScope(CONSUME_FUN) == Scope({P}, {});
  }

  lemma {:induction false} WriteMainFaults(w: World, s: State)
    requires w == World(WithMain(WRITE_MAIN), WRITE_MAIN.tys, NO_INPUT, false)
    requires s == START.(frames := [map[X := IntV(0)]])
    ensures ExecAll(w, WRITE_MAIN.body, s, 1).Fault?
  {
    hide Invoke, Exec;
    var s1 := State([map[X := PtrV(0)]], map[0 := IntCell(5)], 1, 0, []);
    CellMade(w, s);
    ConsumedWrite(w, s1);
    ExecFirst(w, WRITE_MAIN.body.head, WRITE_MAIN.body.tail, s, s1, 1);
  }

  lemma {:induction false} CellMade(w: World, s: State)
    requires s == START.(frames := [map[X := IntV(0)]])
    ensures Exec(w, WRITE_MAIN.body.head, s, 1) == Done((), State([map[X := PtrV(0)]], map[0 := IntCell(5)], 1, 0, []))
  {
    var s1 := State([map[X := PtrV(0)]], map[0 := IntCell(5)], 1, 0, []);
    var a := Eval(w, Alloc(Num(5)), s, 1);
    assert map[X := IntV(0)][X := PtrV(0)] == map[X := PtrV(0)];
    assert a.s.frames[..0] + [map[X := PtrV(0)]] == s1.frames;
    assert WithTop(a.s, Top(a.s)[X := PtrV(0)]) == s1;
  }

  lemma {:induction false} ConsumedWrite(w: World, s: State)
    requires w == World(WithMain(WRITE_MAIN), WRITE_MAIN.tys, NO_INPUT, false)
    requires s == State([map[X := PtrV(0)]], map[0 := IntCell(5)], 1, 0, [])
    ensures Exec(w, WRITE_MAIN.body.tail.head, s, 1).Fault?
  {
    hide Invoke;
    assert EvalAll(w, One(Var(X)), s, 1) == Done(One(PtrV(0)), s);
    ConsumeRuns(w, s, 0, 0);
  }

  lemma WriteMainInvoked()
    ensures Invoke(World(WithMain(WRITE_MAIN), map[], NO_INPUT, false), MAIN, Nil, START, 1).Fault?
  {
    WriteMainAccepted();
    var zeros: Frame := Zeros(WRITE_MAIN.locals);
    assert zeros == map[X := IntV(0)];
    var s := START.(frames := [zeros]);
    assert START.frames + [zeros] == s.frames;
    WriteMainFaults(World(WithMain(WRITE_MAIN), WRITE_MAIN.tys, NO_INPUT, false), s);
    assert Bind(Nil, Nil, zeros) == Some(zeros);
  }

  lemma WriteTyped()
    ensures WfStmt(WithMain(WRITE_MAIN), WRITE_MAIN.tys, WRITE_MAIN.body.tail.head, Scope({X}, {}), {X})
    ensures !CarefulStmt(WithMain(WRITE_MAIN), WRITE_MAIN.tys, WRITE_MAIN.body.tail.head)
  {
    var p, tys, sc := WithMain(WRITE_MAIN), WRITE_MAIN.tys, Scope({X}, {});
    ConsumeTakes(WRITE_MAIN);
    assert TypedAll(p, tys, sc, One(Var(X)), FormalTys(CONSUME_FUN.formals, CONSUME_FUN.tys), Argument);
    assert Assigned(tys, sc, {X}, Consumed(X)) by {
      assert AssignedAll(tys, sc, {X}, One(Var(X)));
    }
  }

  lemma WriteMainTyped()
    ensures Accepted(WithMain(WRITE_MAIN)) && !Careful(WithMain(WRITE_MAIN))
    ensures WfStmts(WithMain(WRITE_MAIN), WRITE_MAIN.tys, WRITE_MAIN.body, FunScope(WRITE_MAIN), {})
  {
    var p, tys, sc := WithMain(WRITE_MAIN), WRITE_MAIN.tys, FunScope(WRITE_MAIN);
    assert sc == Scope({X}, {}) && Entry(WRITE_MAIN).Keys == {};
    ConsumeTyped(WithMain(WRITE_MAIN));
    ConsumeCode(p);
    WriteMainAccepted();
    WriteTyped();
    var write := WRITE_MAIN.body.tail.head;
    assert TypedStmts(p, tys, One(write), sc) && AssignedStmts(tys, One(write), sc, {X});
    assert AssignedAfter(tys, WRITE_MAIN.body.head, {}) == {X};
    assert FunAccepted(p, MAIN) && FunAccepted(p, CONSUME);
    assert !CarefulStmts(p, tys, One(write));
    assert p.funs[MAIN] == WRITE_MAIN;
  }

  const WRITE_WORLD := World(WithMain(WRITE_MAIN), WRITE_MAIN.tys, NO_INPUT, true)

  const BEFORE_WRITE := State([map[X := PtrV(0)]], map[0 := IntCell(5)], 1, 0, [])

  // The theorem on writes applies to the program that contains the write.
  lemma WriteMainReady()
    ensures Ready(WRITE_WORLD, FunScope(WRITE_MAIN), map[X := Owned], {X}, BEFORE_WRITE, {}, {})
  {
    var s := BEFORE_WRITE;
    WriteMainTyped();
    assert FunScope(WRITE_MAIN) == Scope({X}, {});
    assert OwnedIn(map[X := Owned]) == {X};
    CellsOwnedOne(s.heap, Top(s), X);
    assert Cells(s.heap, PtrV(0)) == {0};
  }

  lemma WriteMoves()
    ensures MovesTarget(WRITE_WORLD, Var(X), Consumed(X))
    ensures WfStmt(WRITE_WORLD.p, WRITE_WORLD.tys, Write(Var(X), Consumed(X)), FunScope(WRITE_MAIN), {X})
  {
    ConsumeTakes(WRITE_MAIN);
    WriteMainTyped();
    assert AssignedAfter(WRITE_MAIN.tys, WRITE_MAIN.body.head, {}) == {X};
    assert WfStmts(WRITE_WORLD.p, WRITE_MAIN.tys, WRITE_MAIN.body.tail, FunScope(WRITE_MAIN), {X});
  }

  lemma WriteMainFaultsByTheorem()
    ensures Exec(Real(WRITE_WORLD), Write(Var(X), Consumed(X)), BEFORE_WRITE, 1).Fault?
  {
    hide Exec, AnalyzeStmt, Ready, Accepted, WfStmt, MovesTarget, Invoke;
    var w, s, rhs := WRITE_WORLD, BEFORE_WRITE, Consumed(X);
    WriteMainReady();
    WriteAccepted();
    WriteMoves();
    assert EvalAll(w, One(Var(X)), s, 1) == Done(One(PtrV(0)), s);
    ConsumeRuns(w, s, 0, 0);
    WriteFaultsExactly(w, Var(X), rhs, FunScope(WRITE_MAIN), map[X := Owned], {X}, s, {}, {}, 1);
  }

  // The program is accepted, and assigns before it names; it frees the cell and
  // then stores into it. Watched, it strays there.
  lemma WriteAfterFree()
    ensures var p := WithMain(WRITE_MAIN);
      && Accepted(p) && !Careful(p)
      && Invoke(World(p, map[], NO_INPUT, false), MAIN, Nil, START, 1).Fault?
      && Invoke(World(p, map[], NO_INPUT, true), MAIN, Nil, START, 1).Strays?
  {
    hide Invoke, AnalyzeFunction;
    WriteMainTyped();
    WriteMainInvoked();
    assert Real(World(WithMain(WRITE_MAIN), map[], NO_INPUT, true))
      == World(WithMain(WRITE_MAIN), map[], NO_INPUT, false);
    assert FormalTys(WRITE_MAIN.formals, WRITE_MAIN.tys) == Nil;
    ProgramSafe(WithMain(WRITE_MAIN), MAIN, Nil, NO_INPUT, 1);
  }

  // main() { var x, r, i; i = 1; while (i) { x = alloc 5; r = consume(x); i = i - 1; }
  //          r = *x; return r; }
  const LOOP_BODY := Block(Cons(Assign(X, Alloc(Num(5))), Cons(Assign(R, Consumed(X)),
    One(Assign(I, Bin(Sub, Var(I), Num(1)))))))

  const LOOP_MAIN := Fun(Nil, {X, R, I}, map[X := TOwn, R := TInt, I := TInt],
    Cons(Assign(I, Num(1)), Cons(While(Var(I), LOOP_BODY), One(Assign(R, Deref(Var(X)))))), Var(R), TInt)

  lemma LoopMainAccepted()
    ensures AnalyzeFunction(WithMain(LOOP_MAIN), LOOP_MAIN) == Some(Code(LOOP_MAIN.body, Nil))
  {
    var p, tys := WithMain(LOOP_MAIN), LOOP_MAIN.tys;
    var st: StateMap := map[];
    assert Entry(LOOP_MAIN) == st;
    var loop, last := LOOP_MAIN.body.tail.head, LOOP_MAIN.body.tail.tail.head;
    LoopAccepted();
    assert AnalyzeStmt(p, tys, last, st) == Some(Checked(st, last));
    assert AnalyzeStmts(p, tys, One(last), st) == Some(Checked(st, One(last)));
    assert AnalyzeStmts(p, tys, LOOP_MAIN.body.tail, st) == Some(Checked(st, LOOP_MAIN.body.tail));
    assert Sorted({}) == Nil;
  }

  lemma LoopAccepted()
    ensures var loop := LOOP_MAIN.body.tail.head;
      AnalyzeStmt(WithMain(LOOP_MAIN), LOOP_MAIN.tys, loop, map[]) == Some(Checked(map[], loop))
  {
    LoopBodyAccepted();
    var st: StateMap := map[];
    assert OwnedIn(map[X := Moved]) == OwnedIn(st) == {};
  }

  lemma LoopBodyAccepted()
    ensures AnalyzeStmt(WithMain(LOOP_MAIN), LOOP_MAIN.tys, LOOP_BODY, map[])
      == Some(Checked(map[X := Moved], LOOP_BODY))
  {
    var p, tys := WithMain(LOOP_MAIN), LOOP_MAIN.tys;
    var owned: StateMap := map[X := Owned];
    var moved: StateMap := map[X := Moved];
    var s1, s2, s3 := LOOP_BODY.stmts.head, LOOP_BODY.stmts.tail.head, LOOP_BODY.stmts.tail.tail.head;
    ConsumeTakes(LOOP_MAIN);
    assert AnalyzeStmt(p, tys, s1, map[]) == Some(Checked(owned, s1));
    assert BorrowedIn(One(Var(X))) == {};
    assert owned[X := Moved] == moved;
    assert EvalOperands(p, tys, One(Var(X)), One(true), owned, {}) == Some(moved);
    assert AnalyzeStmt(p, tys, s2, owned) == Some(Checked(moved, s2));
    assert AnalyzeStmt(p, tys, s3, moved) == Some(Checked(moved, s3));
    assert AnalyzeStmts(p, tys, One(s3), moved) == Some(Checked(moved, One(s3)));
  }

  function LoopFrame(x: Value, r: int, i: int): Frame {
    map[X := x, R := IntV(r), I := IntV(i)]
  }

  function LoopState(x: Value, r: int, i: int, next: nat, live: Memory): State {
    State([LoopFrame(x, r, i)], live, next, 0, [])
  }

  lemma {:induction false} AssignStep(w: World, x: Name, e: Expr, s: State, v: Value, s1: State, s2: State, fuel: nat)
    requires |s.frames| == 1 && |s1.frames| == 1 && x in s1.frames[0]
    requires Eval(w, e, s, fuel) == Done(v, s1)
    requires s2 == s1.(frames := [s1.frames[0][x := v]])
    ensures Exec(w, Assign(x, e), s, fuel) == Done((), s2)
  {
    assert s1.frames[..0] + [s1.frames[0][x := v]] == s2.frames;
  }

  const LOOP_WORLD := World(WithMain(LOOP_MAIN), LOOP_MAIN.tys, NO_INPUT, false)

  lemma LoopAllocates()
    ensures Exec(LOOP_WORLD, Assign(X, Alloc(Num(5))), LoopState(IntV(0), 0, 1, 0, map[]), 1)
         == Done((), LoopState(PtrV(0), 0, 1, 1, map[0 := IntCell(5)]))
  {
    var t0, t1 := LoopState(IntV(0), 0, 1, 0, map[]), LoopState(PtrV(0), 0, 1, 1, map[0 := IntCell(5)]);
    var a := Eval(LOOP_WORLD, Alloc(Num(5)), t0, 1);
    assert a.s.frames[0][X := PtrV(0)] == t1.frames[0];
    AssignStep(LOOP_WORLD, X, Alloc(Num(5)), t0, PtrV(0), a.s, t1, 1);
  }

  lemma LoopConsumes()
    ensures Exec(LOOP_WORLD, Assign(R, Consumed(X)), LoopState(PtrV(0), 0, 1, 1, map[0 := IntCell(5)]), 1)
         == Done((), LoopState(PtrV(0), 5, 1, 1, map[]))
  {
    hide Exec, Invoke;
    var t1, t2 := LoopState(PtrV(0), 0, 1, 1, map[0 := IntCell(5)]), LoopState(PtrV(0), 5, 1, 1, map[]);
    assert EvalAll(LOOP_WORLD, One(Var(X)), t1, 1) == Done(One(PtrV(0)), t1);
    ConsumeRuns(LOOP_WORLD, t1, 0, 0);
    var t1' := t1.(heap := t1.heap - {0});
    assert t1'.heap == map[];
    assert t1'.frames[0][R := IntV(5)] == t2.frames[0];
    AssignStep(LOOP_WORLD, R, Consumed(X), t1, IntV(5), t1', t2, 1);
  }

  lemma LoopCounts()
    ensures Exec(LOOP_WORLD, Assign(I, Bin(Sub, Var(I), Num(1))), LoopState(PtrV(0), 5, 1, 1, map[]), 1)
         == Done((), LoopState(PtrV(0), 5, 0, 1, map[]))
  {
    var t2, t3 := LoopState(PtrV(0), 5, 1, 1, map[]), LoopState(PtrV(0), 5, 0, 1, map[]);
    assert t2.frames[0][I := IntV(0)] == t3.frames[0];
    AssignStep(LOOP_WORLD, I, Bin(Sub, Var(I), Num(1)), t2, IntV(0), t2, t3, 1);
  }

  // One iteration allocates, frees, and leaves x pointing at what was freed.
  lemma LoopBodyRuns()
    ensures Exec(LOOP_WORLD, LOOP_BODY, LoopState(IntV(0), 0, 1, 0, map[]), 1)
      == Done((), LoopState(PtrV(0), 5, 0, 1, map[]))
  {
    var s2, s3 := LOOP_BODY.stmts.tail.head, LOOP_BODY.stmts.tail.tail.head;
    var t1 := LoopState(PtrV(0), 0, 1, 1, map[0 := IntCell(5)]);
    var t2, t3 := LoopState(PtrV(0), 5, 1, 1, map[]), LoopState(PtrV(0), 5, 0, 1, map[]);
    LoopAllocates();
    LoopConsumes();
    LoopCounts();
    assert ExecAll(LOOP_WORLD, One(s3), t2, 1) == Done((), t3);
    assert ExecAll(LOOP_WORLD, Cons(s2, One(s3)), t1, 1) == Done((), t3);
  }

  lemma LoopRuns()
    ensures Exec(LOOP_WORLD, While(Var(I), LOOP_BODY), LoopState(IntV(0), 0, 1, 0, map[]), 1)
         == Done((), LoopState(PtrV(0), 5, 0, 1, map[]))
  {
    var t0, t3 := LoopState(IntV(0), 0, 1, 0, map[]), LoopState(PtrV(0), 5, 0, 1, map[]);
    LoopBodyRuns();
    assert Eval(LOOP_WORLD, Var(I), t3, 0) == Done(IntV(0), t3);
    assert Exec(LOOP_WORLD, While(Var(I), LOOP_BODY), t3, 0) == Done((), t3);
    assert Eval(LOOP_WORLD, Var(I), t0, 1) == Done(IntV(1), t0);
  }

  lemma {:induction false} LoopReadsFreed(fuel: nat)
    ensures Exec(LOOP_WORLD, Assign(R, Deref(Var(X))), LoopState(PtrV(0), 5, 0, 1, map[]), fuel).Fault?
  {
    var t3 := LoopState(PtrV(0), 5, 0, 1, map[]);
    assert Eval(LOOP_WORLD, Var(X), t3, fuel) == Done(PtrV(0), t3);
  }

  lemma {:induction false} ExecFirst(w: World, c: Stmt, t: List<Stmt>, s: State, s1: State, fuel: nat)
    requires s.frames != [] && Exec(w, c, s, fuel) == Done((), s1)
    ensures s1.frames != [] && ExecAll(w, Cons(c, t), s, fuel) == ExecAll(w, t, s1, fuel)
  {
  }

  lemma LoopMainFaults()
    ensures ExecAll(LOOP_WORLD, LOOP_MAIN.body, LoopState(IntV(0), 0, 0, 0, map[]), 1).Fault?
  {
    var s := LoopState(IntV(0), 0, 0, 0, map[]);
    var t0, t3 := LoopState(IntV(0), 0, 1, 0, map[]), LoopState(PtrV(0), 5, 0, 1, map[]);
    assert s.frames[0][I := IntV(1)] == t0.frames[0];
    AssignStep(LOOP_WORLD, I, Num(1), s, IntV(1), s, t0, 1);
    LoopRuns();
    LoopReadsFreed(1);
    var last := One(Assign(R, Deref(Var(X))));
    assert ExecAll(LOOP_WORLD, last, t3, 1).Fault?;
    ExecFirst(LOOP_WORLD, While(Var(I), LOOP_BODY), last, t0, t3, 1);
    ExecFirst(LOOP_WORLD, Assign(I, Num(1)), Cons(While(Var(I), LOOP_BODY), last), s, t0, 1);
  }

  lemma LoopMainInvoked()
    ensures Invoke(World(WithMain(LOOP_MAIN), map[], NO_INPUT, false), MAIN, Nil, START, 1).Fault?
  {
    LoopMainAccepted();
    var zeros: Frame := Zeros(LOOP_MAIN.locals);
    var s := LoopState(IntV(0), 0, 0, 0, map[]);
    assert zeros == LoopFrame(IntV(0), 0, 0);
    assert START.frames + [zeros] == s.frames;
    LoopMainFaults();
    assert Bind(Nil, Nil, zeros) == Some(zeros);
  }

  lemma LoopMainUnassigned()
    ensures !AssignedFun(LOOP_MAIN)
  {
    var tys, sc := LOOP_MAIN.tys, FunScope(LOOP_MAIN);
    var s1, s2, s3 := LOOP_MAIN.body.head, LOOP_MAIN.body.tail.head, LOOP_MAIN.body.tail.tail.head;
    assert Entry(LOOP_MAIN).Keys == {};
    assert AssignedAfter(tys, s1, {}) == {} == AssignedAfter(tys, s2, {});
    assert !Assigned(tys, sc, {}, Deref(Var(X)));
    assert !AssignedStmts(tys, One(s3), sc, {});
    assert !AssignedStmts(tys, Cons(s2, One(s3)), sc, {});
  }

  lemma {:induction false} ThenTyped(p: Program, tys: map<Name, Ty>, sc: Scope, c: Stmt, t: List<Stmt>)
    requires TypedStmt(p, tys, c, sc) && TypedStmts(p, tys, t, sc)
    ensures TypedStmts(p, tys, Cons(c, t), sc)
  {
  }

  lemma {:induction false} NoneTyped(p: Program, tys: map<Name, Ty>, sc: Scope)
    ensures TypedStmts(p, tys, Nil, sc)
  {
  }

  lemma LoopBodyTyped()
    ensures TypedStmt(WithMain(LOOP_MAIN), LOOP_MAIN.tys, LOOP_BODY, Scope({X, R, I}, {}))
  {
    hide TypedStmts;
    var p, tys, sc := WithMain(LOOP_MAIN), LOOP_MAIN.tys, Scope({X, R, I}, {});
    var b := LOOP_BODY.stmts;
    assert TypedAll(p, tys, sc, One(Var(X)), FormalTys(CONSUME_FUN.formals, CONSUME_FUN.tys), Argument);
    NoneTyped(p, tys, sc);
    ThenTyped(p, tys, sc, b.tail.tail.head, Nil);
    ThenTyped(p, tys, sc, b.tail.head, b.tail.tail);
    ThenTyped(p, tys, sc, b.head, b.tail);
  }

  lemma LoopMainTyped()
    ensures TypedFun(WithMain(LOOP_MAIN), LOOP_MAIN)
  {
    hide TypedStmts;
    var p, tys, sc := WithMain(LOOP_MAIN), LOOP_MAIN.tys, FunScope(LOOP_MAIN);
    var b := LOOP_MAIN.body;
    assert sc == Scope({X, R, I}, {});
    LoopBodyTyped();
    assert TypeOf(p, tys, sc, Deref(Var(X)), Taken) == Some(TInt);
    NoneTyped(p, tys, sc);
    ThenTyped(p, tys, sc, b.tail.tail.head, Nil);
    ThenTyped(p, tys, sc, b.tail.head, b.tail.tail);
    ThenTyped(p, tys, sc, b.head, b.tail);
  }

  // Accepted, though x is read after a loop that may have moved it or never run:
  // after one iteration the read is of freed memory. Only definite assignment
  // turns it away, and, as the theorem on it says, some way through main names x
  // where it does not own.
  lemma UseAfterLoop()
    ensures var p := WithMain(LOOP_MAIN);
      && WfFun(p, CONSUME_FUN) && AnalyzeFunction(p, CONSUME_FUN).Some?
      && TypedFun(p, LOOP_MAIN) && AnalyzeFunction(p, LOOP_MAIN).Some?
      && !AssignedFun(LOOP_MAIN) && (exists ways :: !OwnersOnRun(p, LOOP_MAIN, ways))
      && Invoke(World(p, map[], NO_INPUT, false), MAIN, Nil, START, 1).Fault?
  {
    hide Invoke, AnalyzeFunction, TypedFun, AssignedFun, OwnersOnRun;
    ConsumeCode(WithMain(LOOP_MAIN));
    ConsumeTyped(WithMain(LOOP_MAIN));
    LoopMainAccepted();
    LoopMainInvoked();
    LoopMainUnassigned();
    LoopMainTyped();
    AssignedExactly(WithMain(LOOP_MAIN), LOOP_MAIN);
  }
}
