/** Accepted programs whose matches go wrong, each with its run step by step. One
    whose match no arm takes leaks a payload; one frees a cell twice, because the
    destroys planned after the match are those of the arm that did not run; the
    same happens to a match on a borrow, with nothing leaked. One plans destroys
    for other owners than there are and yet frees everything once, because a
    variable whose value was moved still holds the address: so the owners planned
    need not be those that own for a case to come out right. The last binds one
    owner twice and destroys it twice. */
module StrayExamples {
  import opened Optional
  import opened Syntax
  import opened Heap
  import opened Moves
  import opened Static
  import opened Machine
  import opened Ownership
  import opened Running
  import opened Matching
  import opened Safety
  import opened Roots
  import opened Unmatched
  import opened Counterexamples

  // type T = Wrap(u); type U = A | B; type V = Pair(own&int, own&int) ; type W = Single(own&int)
  const T: Name := 10
  const U: Name := 11
  const V: Name := 15
  const W: Name := 16
  const WRAP: Name := 12
  const A: Name := 13
  const B: Name := 14
  const PAIR: Name := 17
  const SINGLE: Name := 18

  const CTORS := map[WRAP := Ctor(T, One(TSum(U))), A := Ctor(U, Nil), B := Ctor(U, Nil),
                     PAIR := Ctor(V, Cons(TOwn, One(TOwn))), SINGLE := Ctor(W, One(TOwn))]

  const Y: Name := 6
  const Q: Name := 7
  const Z: Name := 9

  function Solo(f: Fun): Program {
    Program(CTORS, map[MAIN := f, CONSUME := CONSUME_FUN])
  }

  lemma SoloAccepted(f: Fun)
    requires WfFun(Solo(f), f) && AnalyzeFunction(Solo(f), f).Some?
    ensures Accepted(Solo(f))
  {
    hide WfFun, AnalyzeFunction;
    var p := Solo(f);
    ConsumeTyped(p);
    ConsumeCode(p);
    assert p.funs[MAIN] == f && p.funs[CONSUME] == CONSUME_FUN;
    assert FunAccepted(p, MAIN) && FunAccepted(p, CONSUME);
  }

  // One activation on top of the others.
  function At(outer: seq<Frame>, f: Frame, h: Memory, next: nat): State {
    State(outer + [f], h, next, 0, [])
  }

  lemma {:induction false} AssignAt(w: World, x: Name, e: Expr, outer: seq<Frame>, f: Frame, h: Memory, n: nat,
      v: Value, h': Memory, n': nat, fuel: nat)
    requires x in f && Eval(w, e, At(outer, f, h, n), fuel) == Done(v, At(outer, f, h', n'))
    ensures Exec(w, Assign(x, e), At(outer, f, h, n), fuel) == Done((), At(outer, f[x := v], h', n'))
  {
    assert WithTop(At(outer, f, h', n'), f[x := v]).frames == outer + [f[x := v]];
  }

  // Wrap(B) behind the addresses a and a + 1.
  predicate HasWrapB(h: Memory, a: nat) {
    && a in h && h[a] == Box(B, Nil)
    && a + 1 in h && h[a + 1] == Box(WRAP, One(PtrV(a)))
  }

  const WRAP_B := New(WRAP, One(New(B, Nil)))

  lemma {:induction false} WrapBMade(w: World, s: State, fuel: nat)
    requires s.frames != []
    ensures Eval(w, WRAP_B, s, fuel) == Done(PtrV(s.next + 1),
      s.(heap := s.heap[s.next := Box(B, Nil)][s.next + 1 := Box(WRAP, One(PtrV(s.next)))], next := s.next + 2))
  {
    assert EvalAll(w, Nil, s, fuel) == Done(Nil, s);
    var a := Eval(w, New(B, Nil), s, fuel);
    assert a == Done(PtrV(s.next), s.(heap := s.heap[s.next := Box(B, Nil)], next := s.next + 1));
    assert EvalAll(w, One(New(B, Nil)), s, fuel) == Done(One(PtrV(s.next)), a.s);
  }

  function OnlyA(body: Stmt): List<Arm> {
    One(Arm(WRAP, One(PCtor(A, Nil)), body))
  }

  // Wrap(B) does not match Wrap(A).
  lemma {:induction false} NoArmTaken(w: World, body: Stmt, consuming: bool, s: State, a: nat, fuel: nat)
    requires !w.watch && s.frames != [] && HasWrapB(s.heap, a)
    ensures ExecArms(w, OnlyA(body), consuming, a + 1, s, fuel) == Done((), s)
  {
    assert TestPats(s.heap, One(PtrV(a)), One(PCtor(A, Nil))) == Some(false);
  }

  // The analysis of a case with the arm Wrap(A) only: the arm's owners.
  lemma {:induction false} OnlyAAnalyzed(p: Program, tys: map<Name, Ty>, e: Expr, body: Stmt, st: StateMap,
      st1: StateMap, out: StateMap)
    requires Take(p, tys, e, st) == Some(st1)
    requires AnalyzeStmt(p, tys, body, st1) == Some(Checked(out, body))
    ensures AnalyzeStmt(p, tys, Case(e, OnlyA(body)), st) == Some(Checked(out, Case(e, OnlyA(body))))
  {
    hide AnalyzeStmt, Take;
    var arm := OnlyA(body).head;
    assert ArmBinders(arm, Consuming(e)) == Nil;
    OneArmAnalyzed(p, tys, e, arm, arm, st, st1, out);
  }

  // Any accepted case on a value without a matching arm: no shape of Wrap(A).
  lemma {:induction false} ShapeOfWrapB(h: Memory, a: nat)
    requires HasWrapB(h, a)
    ensures ShapeOf(h, PtrV(a + 1)) == Con(WRAP, One(Con(B, Nil)))
    ensures forall body: Stmt :: !SomeArm(OnlyA(body), Con(WRAP, One(Con(B, Nil))))
  {
    assert ShapesOf(h, Nil, a) == Nil && ShapeOf(h, PtrV(a)) == Con(B, Nil);
    assert ShapesOf(h, One(PtrV(a)), a + 1) == One(Con(B, Nil));
    forall body: Stmt
      ensures !SomeArm(OnlyA(body), Con(WRAP, One(Con(B, Nil))))
    {
      assert !AllMatch(One(PCtor(A, Nil)), One(Con(B, Nil)));
      assert !SomeArm(Nil, Con(WRAP, One(Con(B, Nil))));
    }
  }

  lemma {:induction false} WrapBAssigned(w: World, outer: seq<Frame>, f: Frame, h: Memory, n: nat, fuel: nat)
    requires X in f
    ensures Exec(w, Assign(X, WRAP_B), At(outer, f, h, n), fuel)
         == Done((), At(outer, f[X := PtrV(n + 1)], h[n := Box(B, Nil)][n + 1 := Box(WRAP, One(PtrV(n)))], n + 2))
  {
    WrapBMade(w, At(outer, f, h, n), fuel);
    AssignAt(w, X, WRAP_B, outer, f, h, n, PtrV(n + 1), h[n := Box(B, Nil)][n + 1 := Box(WRAP, One(PtrV(n)))], n + 2,
      fuel);
  }

  lemma {:induction false} AllocAssigned(w: World, x: Name, k: int, outer: seq<Frame>, f: Frame, h: Memory, n: nat,
      fuel: nat)
    requires x in f
    ensures Exec(w, Assign(x, Alloc(Num(k))), At(outer, f, h, n), fuel)
         == Done((), At(outer, f[x := PtrV(n)], h[n := IntCell(k)], n + 1))
  {
    AssignAt(w, x, Alloc(Num(k)), outer, f, h, n, PtrV(n), h[n := IntCell(k)], n + 1, fuel);
  }

  lemma {:induction false} ConsumedAssigned(w: World, outer: seq<Frame>, f: Frame, h: Memory, n: nat, a: nat, fuel: nat)
    requires CONSUME in w.p.funs && w.p.funs[CONSUME] == CONSUME_FUN && fuel > 0
    requires R in f && Y in f && f[Y] == PtrV(a) && a in h && h[a].IntCell?
    ensures Exec(w, Assign(R, Consumed(Y)), At(outer, f, h, n), fuel)
         == Done((), At(outer, f[R := IntV(h[a].n)], h - {a}, n))
  {
    var s := At(outer, f, h, n);
    assert EvalAll(w, One(Var(Y)), s, fuel) == Done(One(PtrV(a)), s);
    ConsumeRuns(w, s, a, fuel - 1);
    AssignAt(w, R, Consumed(Y), outer, f, h, n, IntV(h[a].n), h - {a}, n, fuel);
  }

  // -------------------------------------------------------------------------
  // A payload leaked
  // -------------------------------------------------------------------------

  // main() { var x; x = Wrap(B); case x of { Wrap(A) -> {} } return 0; }
  const LEAK := Fun(Nil, {X}, map[X := TSum(T)],
    Cons(Assign(X, WRAP_B), One(Case(Var(X), OnlyA(Block(Nil))))), Num(0), TInt)

  lemma {:induction false} WrapBTyped(f: Fun, sc: Scope, d: set<Name>)
    ensures TypeOf(Solo(f), f.tys, sc, WRAP_B, Taken) == Some(TSum(T)) && Assigned(f.tys, sc, d, WRAP_B)
    ensures EvalExpr(Solo(f), f.tys, WRAP_B, map[], {}) == Some(map[])
  {
    assert TypedAll(Solo(f), f.tys, sc, Nil, Nil, Taken);
    assert TypeOf(Solo(f), f.tys, sc, New(B, Nil), Taken) == Some(TSum(U));
    assert TypedAll(Solo(f), f.tys, sc, One(New(B, Nil)), One(TSum(U)), Taken);
    assert AssignedAll(f.tys, sc, d, One(New(B, Nil)));
    assert EvalOperands(Solo(f), f.tys, One(New(B, Nil)), One(true), map[], {}) == Some(map[]);
  }

  lemma {:induction false} OnlyATyped(f: Fun, body: Stmt, byValue: bool, sc: Scope)
    requires TypedStmt(Solo(f), f.tys, body, sc)
    ensures TypedArms(Solo(f), f.tys, OnlyA(body), T, byValue, sc)
  {
    var arm := OnlyA(body).head;
    assert ArmScope(arm, byValue, sc) == sc by {
      assert BindersOf(arm.pats) == Nil;
    }
    assert PatsTyped(Solo(f), arm.pats, One(TSum(U)));
    assert TypedArm(Solo(f), f.tys, arm, T, byValue, sc);
  }

  lemma {:induction false} OnlyAAssigned(f: Fun, body: Stmt, byValue: bool, sc: Scope, d: set<Name>)
    requires AssignedStmt(f.tys, body, sc, d)
    ensures AssignedArms(f.tys, OnlyA(body), byValue, sc, d)
    ensures AssignedAfterArms(f.tys, OnlyA(body), byValue, d) == AssignedAfter(f.tys, body, d)
  {
    var arm := OnlyA(body).head;
    assert BindersOf(arm.pats) == Nil && ArmScope(arm, byValue, sc) == sc;
    assert d + ArmOwners(arm, byValue) == d;
    assert AssignedArm(f.tys, arm, byValue, sc, d);
  }

  lemma OnlyANotExhaustive(f: Fun, body: Stmt)
    ensures !Exhaustive(Solo(f).ctors, OnlyA(body), T)
  {
    var sh := Con(WRAP, One(Con(B, Nil)));
    assert HaveTypes(CTORS, Nil, Nil);
    assert HasType(CTORS, Con(B, Nil), TSum(U));
    assert HaveTypes(CTORS, One(Con(B, Nil)), One(TSum(U)));
    assert HasType(CTORS, sh, TSum(T));
    assert !AllMatch(One(PCtor(A, Nil)), One(Con(B, Nil)));
    assert !SomeArm(Nil, sh);
  }

  lemma LeakAnalyzed()
    ensures AnalyzeFunction(Solo(LEAK), LEAK) == Some(Code(LEAK.body, Nil))
  {
    var p, tys := Solo(LEAK), LEAK.tys;
    var s1, s2 := LEAK.body.head, LEAK.body.tail.head;
    var owned: StateMap := map[X := Owned];
    var moved: StateMap := map[X := Moved];
    assert Entry(LEAK) == map[];
    WrapBTyped(LEAK, FunScope(LEAK), {});
    assert AnalyzeStmt(p, tys, s1, map[]) == Some(Checked(owned, s1));
    assert owned[X := Moved] == moved;
    assert AnalyzeStmt(p, tys, Block(Nil), moved) == Some(Checked(moved, Block(Nil)));
    OnlyAAnalyzed(p, tys, Var(X), Block(Nil), owned, moved, moved);
    assert AnalyzeStmts(p, tys, One(s2), owned) == Some(Checked(moved, One(s2)));
    assert OwnedIn(moved) == {};
    assert Sorted({}) == Nil;
  }

  lemma LeakAccepted()
    ensures Accepted(Solo(LEAK)) && !Careful(Solo(LEAK))
    ensures WfStmt(Solo(LEAK), LEAK.tys, LEAK.body.tail.head, FunScope(LEAK), {X})
  {
    hide AnalyzeFunction, Accepted, CarefulStmts, WfStmts, AnalyzeStmts, Exhaustive;
    var p, tys, sc := Solo(LEAK), LEAK.tys, FunScope(LEAK);
    var t := LEAK.body.tail;
    assert sc == Scope({X}, {}) && Entry(LEAK).Keys == {};
    LeakAnalyzed();
    WrapBTyped(LEAK, sc, {});
    OnlyATyped(LEAK, Block(Nil), true, sc);
    OnlyAAssigned(LEAK, Block(Nil), true, sc, {X});
    OnlyANotExhaustive(LEAK, Block(Nil));
    NothingWf(p, tys, sc, {X}, t.head);
    ThenWf(p, tys, LEAK.body.head, t, sc, {}, {X});
    BodyWf(LEAK);
  }

  lemma {:induction false} ExecNone(w: World, s: State, fuel: nat)
    requires s.frames != []
    ensures ExecAll(w, Nil, s, fuel) == Done((), s)
  {
  }

  lemma {:induction false} LeakRuns(w: World, f: Frame)
    requires w == World(Solo(LEAK), LEAK.tys, NO_INPUT, false) && X in f
    ensures ExecAll(w, LEAK.body, At([], f, map[], 0), 0) == Done((), At([], f[X := PtrV(1)], map[0 := Box(B, Nil)], 2))
  {
    hide Exec, Eval, ExecAll;
    var h: Memory := map[][0 := Box(B, Nil)][1 := Box(WRAP, One(PtrV(0)))];
    var f1 := f[X := PtrV(1)];
    var case0 := LEAK.body.tail.head;
    WrapBAssigned(w, [], f, map[], 0, 0);
    ExecFirst(w, LEAK.body.head, One(case0), At([], f, map[], 0), At([], f1, h, 2), 0);
    UnmatchedRun(w, Block(Nil), f1, h, 0, 2, 0);
    ExecFirst(w, case0, Nil, At([], f1, h, 2), At([], f1, h - {1}, 2), 0);
    ExecNone(w, At([], f1, h - {1}, 2), 0);
    assert h - {1} == map[0 := Box(B, Nil)];
  }

  // Accepted, and complete on outer constructors, but no arm matches Wrap(B):
  // main returns 0 with the payload still live.
  lemma UnmatchedLeak()
    ensures Accepted(Solo(LEAK)) && !Careful(Solo(LEAK))
    ensures Invoke(World(Solo(LEAK), map[], NO_INPUT, false), MAIN, Nil, START, 0)
         == Done(IntV(0), State([], map[0 := Box(B, Nil)], 2, 0, []))
  {
    LeakAccepted();
    LeakAnalyzed();
    var zeros: Frame := Zeros(LEAK.locals);
    assert START.frames + [zeros] == At([], zeros, map[], 0).frames;
    LeakRuns(World(Solo(LEAK), LEAK.tys, NO_INPUT, false), zeros);
    assert Bind(Nil, Nil, zeros) == Some(zeros);
  }

  const BEFORE_CASE := State([map[X := PtrV(1)]], map[0 := Box(B, Nil), 1 := Box(WRAP, One(PtrV(0)))], 2, 0, [])

  const LEAK_WORLD := World(Solo(LEAK), LEAK.tys, NO_INPUT, true)

  lemma {:induction false} WrapBWhole(h: Memory)
    requires h == BEFORE_CASE.heap
    ensures Tree(CTORS, h, PtrV(1), TSum(T)) && Cells(h, PtrV(1)) == {0, 1}
  {
    assert CellsOf(h, Nil, 0) == {} && CellsOf(h, Nil, 1) == {} && Cells(h, PtrV(0)) == {0};
    assert CellsOf(h, One(PtrV(0)), 1) == {0};
    assert Forest(CTORS, h, Nil, Nil, 0) && Forest(CTORS, h, Nil, Nil, 1);
    assert Tree(CTORS, h, PtrV(0), TSum(U));
    assert Forest(CTORS, h, One(PtrV(0)), One(TSum(U)), 1);
  }

  lemma LeakReady()
    ensures Ready(LEAK_WORLD, FunScope(LEAK), map[X := Owned], {X}, BEFORE_CASE, {}, {})
  {
    hide Accepted, Careful, WfStmt, Tree, Cells;
    var s := BEFORE_CASE;
    LeakAccepted();
    assert FunScope(LEAK) == Scope({X}, {});
    assert OwnedIn(map[X := Owned]) == {X};
    CellsOwnedOne(s.heap, Top(s), X);
    WrapBWhole(s.heap);
  }

  lemma LeakCaseAnalyzed()
    ensures AnalyzeStmt(Solo(LEAK), LEAK.tys, LEAK.body.tail.head, map[X := Owned])
         == Some(Checked(map[X := Moved], LEAK.body.tail.head))
    ensures Take(Solo(LEAK), LEAK.tys, Var(X), map[X := Owned]) == Some(map[X := Moved])
  {
    var owned: StateMap := map[X := Owned];
    var moved: StateMap := map[X := Moved];
    assert owned[X := Moved] == moved;
    assert AnalyzeStmt(Solo(LEAK), LEAK.tys, Block(Nil), moved) == Some(Checked(moved, Block(Nil)));
    OnlyAAnalyzed(Solo(LEAK), LEAK.tys, Var(X), Block(Nil), owned, moved, moved);
  }

  // The theorem on cases applies to the program that contains the case, and says
  // that the owners after it are not all that is live.
  lemma LeakByTheorem()
    ensures var c := LEAK.body.tail.head;
      var r := Exec(Real(LEAK_WORLD), c, BEFORE_CASE, 0);
      r.Done? && !Ran(LEAK_WORLD, FunScope(LEAK), {}, BEFORE_CASE, r.s, {}, {})
  {
    hide Ready, Accepted, Careful, WfStmt, AnalyzeStmt, Take, Exec, ExecArms, Ran, Repossessed, SomeArm, ShapeOf;
    var w, s := LEAK_WORLD, BEFORE_CASE;
    LeakReady();
    LeakAccepted();
    LeakCaseAnalyzed();
    ShapeOfWrapB(s.heap, 0);
    var none: set<Name> := {};
    assert OwnedIn(map[X := Moved]) == none;
    assert Eval(w, Var(X), s, 0) == Done(PtrV(1), s);
    CaseKeepsOwnersExactly(w, Var(X), OnlyA(Block(Nil)), FunScope(LEAK), map[X := Owned], {X}, s, {}, {}, 0);
    assert PtrV(0) in LeftBehind(s.heap, PtrV(1), true);
  }

  // -------------------------------------------------------------------------
  // A cell freed twice
  // -------------------------------------------------------------------------

  const Y_AGAIN := Assign(Y, Alloc(Num(6)))

  // main() { var x, y, r; y = alloc 5; r = consume(y); x = Wrap(B);
  //          case x of { Wrap(A) -> y = alloc 6 } return 0; }
  const TWICE := Fun(Nil, {X, Y, R}, map[X := TSum(T), Y := TOwn, R := TInt],
    Cons(Assign(Y, Alloc(Num(5))), Cons(Assign(R, Consumed(Y)), Cons(Assign(X, WRAP_B),
      One(Case(Var(X), OnlyA(Y_AGAIN)))))), Num(0), TInt)

  const Y_OWNED: StateMap := map[Y := Owned]
  const Y_MOVED: StateMap := map[Y := Moved]

  lemma FirstTwoAnalyzed(f: Fun)
    requires Y in f.tys && f.tys[Y] == TOwn && R in f.tys && f.tys[R] == TInt
    ensures AnalyzeStmt(Solo(f), f.tys, Assign(Y, Alloc(Num(5))), map[])
      == Some(Checked(Y_OWNED, Assign(Y, Alloc(Num(5)))))
    ensures AnalyzeStmt(Solo(f), f.tys, Assign(R, Consumed(Y)), Y_OWNED)
      == Some(Checked(Y_MOVED, Assign(R, Consumed(Y))))
  {
    var p, tys := Solo(f), f.tys;
    assert BorrowedIn(One(Var(Y))) == {};
    assert FormalTys(CONSUME_FUN.formals, CONSUME_FUN.tys) == One(TOwn);
    assert Consumes(p, CONSUME) == One(true);
    assert Y_OWNED[Y := Moved] == Y_MOVED;
    assert EvalOperands(p, tys, One(Var(Y)), One(true), Y_OWNED, {}) == Some(Y_MOVED);
  }

  lemma TwiceCaseAnalyzed()
    ensures var c := Case(Var(X), OnlyA(Y_AGAIN));
      AnalyzeStmt(Solo(TWICE), TWICE.tys, c, map[Y := Moved, X := Owned])
        == Some(Checked(map[Y := Owned, X := Moved], c))
  {
    var before: StateMap := map[Y := Moved, X := Owned];
    var moved: StateMap := map[Y := Moved, X := Moved];
    var out: StateMap := map[Y := Owned, X := Moved];
    assert before[X := Moved] == moved && moved[Y := Owned] == out;
    assert AnalyzeStmt(Solo(TWICE), TWICE.tys, Y_AGAIN, moved) == Some(Checked(out, Y_AGAIN));
    OnlyAAnalyzed(Solo(TWICE), TWICE.tys, Var(X), Y_AGAIN, before, moved, out);
  }

  // One statement, then the rest: analysed, well formed, careful.
  lemma {:induction false} ThenAnalyzed(p: Program, tys: map<Name, Ty>, c: Stmt, t: List<Stmt>, st: StateMap,
      st1: StateMap, out: StateMap)
    requires AnalyzeStmt(p, tys, c, st) == Some(Checked(st1, c))
    requires AnalyzeStmts(p, tys, t, st1) == Some(Checked(out, t))
    ensures AnalyzeStmts(p, tys, Cons(c, t), st) == Some(Checked(out, Cons(c, t)))
  {
  }

  lemma {:induction false} ThenWf(p: Program, tys: map<Name, Ty>, c: Stmt, t: List<Stmt>, sc: Scope, d: set<Name>,
      d1: set<Name>)
    requires WfStmt(p, tys, c, sc, d) && AssignedAfter(tys, c, d) == d1 && WfStmts(p, tys, t, sc, d1)
    ensures WfStmts(p, tys, Cons(c, t), sc, d)
    ensures !CarefulStmts(p, tys, t) ==> !CarefulStmts(p, tys, Cons(c, t))
  {
  }

  lemma TwiceMade()
    ensures AnalyzeStmt(Solo(TWICE), TWICE.tys, Assign(X, WRAP_B), Y_MOVED)
         == Some(Checked(map[Y := Moved, X := Owned], Assign(X, WRAP_B)))
  {
    WrapBMovesNothing(Solo(TWICE), TWICE.tys, Y_MOVED);
    assert Y_MOVED[X := Owned] == map[Y := Moved, X := Owned];
  }

  lemma TwiceAnalyzed()
    ensures AnalyzeFunction(Solo(TWICE), TWICE) == Some(Code(TWICE.body, One(Y)))
  {
    hide AnalyzeStmt;
    var p, tys, t := Solo(TWICE), TWICE.tys, TWICE.body.tail;
    var out: StateMap := map[Y := Owned, X := Moved];
    assert Entry(TWICE) == map[];
    FirstTwoAnalyzed(TWICE);
    TwiceMade();
    TwiceCaseAnalyzed();
    assert AnalyzeStmts(p, tys, Nil, out) == Some(Checked(out, Nil));
    ThenAnalyzed(p, tys, t.tail.tail.head, Nil, map[Y := Moved, X := Owned], out, out);
    ThenAnalyzed(p, tys, t.tail.head, t.tail.tail, Y_MOVED, map[Y := Moved, X := Owned], out);
    ThenAnalyzed(p, tys, t.head, t.tail, Y_OWNED, Y_MOVED, out);
    ThenAnalyzed(p, tys, TWICE.body.head, t, map[], Y_OWNED, out);
    assert OwnedIn(out) == {Y};
    SortedOne(Y);
  }

  lemma {:induction false} WrapBMovesNothing(p: Program, tys: map<Name, Ty>, st: StateMap)
    ensures EvalExpr(p, tys, WRAP_B, st, {}) == Some(st)
  {
    assert EvalOperands(p, tys, One(New(B, Nil)), One(true), st, {}) == Some(st);
  }

  lemma TwiceCaseWf()
    ensures WfStmt(Solo(TWICE), TWICE.tys, Case(Var(X), OnlyA(Y_AGAIN)), Scope({X, Y, R}, {}), {X, Y})
    ensures !CarefulStmt(Solo(TWICE), TWICE.tys, Case(Var(X), OnlyA(Y_AGAIN)))
  {
    hide Exhaustive;
    OnlyATyped(TWICE, Y_AGAIN, true, Scope({X, Y, R}, {}));
    OnlyAAssigned(TWICE, Y_AGAIN, true, Scope({X, Y, R}, {}), {X, Y});
    OnlyANotExhaustive(TWICE, Y_AGAIN);
  }

  lemma TwiceAccepted()
    ensures Accepted(Solo(TWICE)) && !Careful(Solo(TWICE))
  {
    hide AnalyzeFunction, Accepted, CarefulStmts, CarefulStmt, WfStmts, AnalyzeStmts, TypedAll, AssignedAll, TypedArms,
      AssignedArms;
    var p, tys, sc := Solo(TWICE), TWICE.tys, FunScope(TWICE);
    var t := TWICE.body.tail;
    assert sc == Scope({X, Y, R}, {}) && Entry(TWICE).Keys == {};
    TwiceAnalyzed();
    WrapBTyped(TWICE, sc, {Y});
    ConsumedTyped(TWICE, sc, {Y});
    TwiceCaseWf();
    NothingWf(p, tys, sc, {X, Y}, t.tail.tail.head);
    ThenWf(p, tys, t.tail.head, t.tail.tail, sc, {Y}, {X, Y});
    ThenWf(p, tys, t.head, t.tail, sc, {Y}, {Y});
    ThenWf(p, tys, TWICE.body.head, t, sc, {}, {Y});
    BodyWf(TWICE);
  }

  lemma {:induction false} NothingWf(p: Program, tys: map<Name, Ty>, sc: Scope, d: set<Name>, c: Stmt)
    requires WfStmt(p, tys, c, sc, d)
    ensures WfStmts(p, tys, One(c), sc, d)
    ensures !CarefulStmt(p, tys, c) ==> !CarefulStmts(p, tys, One(c))
  {
  }

  lemma BodyWf(f: Fun)
    requires Distinct(f.formals) && Elems(f.formals) !! f.locals && Elems(f.formals) + f.locals <= f.tys.Keys
    requires forall x | x in f.locals :: !f.tys[x].TBorrow?
    requires forall x | x in f.tys :: f.tys[x].TBorrow? ==> !f.tys[x].referent.TBorrow?
    requires f.ret == Num(0) && f.retTy == TInt
    requires WfStmts(Solo(f), f.tys, f.body, FunScope(f), Entry(f).Keys)
    requires AnalyzeFunction(Solo(f), f).Some? && !CarefulStmts(Solo(f), f.tys, f.body)
    ensures Accepted(Solo(f)) && !Careful(Solo(f))
  {
    hide AnalyzeFunction, Accepted, CarefulStmts, TypedStmts, AssignedStmts;
    SoloAccepted(f);
    assert Solo(f).funs[MAIN] == f;
  }

  lemma {:induction false} ConsumedTyped(f: Fun, sc: Scope, d: set<Name>)
    requires Y in sc.names && Y !in sc.aliases && Y in f.tys && f.tys[Y] == TOwn && Y in d
    ensures TypeOf(Solo(f), f.tys, sc, Consumed(Y), Taken) == Some(TInt) && Assigned(f.tys, sc, d, Consumed(Y))
  {
    assert TypedAll(Solo(f), f.tys, sc, One(Var(Y)), FormalTys(CONSUME_FUN.formals, CONSUME_FUN.tys), Argument);
    assert AssignedAll(f.tys, sc, d, One(Var(Y)));
  }

  // y = alloc 5; r = consume(y): y still holds the address of the cell freed.
  lemma {:induction false} FirstTwoRun(w: World, rest: List<Stmt>, outer: seq<Frame>, f: Frame, h: Memory, n: nat,
      fuel: nat)
    requires CONSUME in w.p.funs && w.p.funs[CONSUME] == CONSUME_FUN && fuel > 0
    requires Y in f && R in f && n !in h
    ensures ExecAll(w, Cons(Assign(Y, Alloc(Num(5))), Cons(Assign(R, Consumed(Y)), rest)), At(outer, f, h, n), fuel)
         == ExecAll(w, rest, At(outer, f[Y := PtrV(n)][R := IntV(5)], h, n + 1), fuel)
  {
    AllocAssigned(w, Y, 5, outer, f, h, n, fuel);
    ConsumedAssigned(w, outer, f[Y := PtrV(n)], h[n := IntCell(5)], n + 1, n, fuel);
    assert h[n := IntCell(5)] - {n} == h;
    ExecFirst(w, Assign(R, Consumed(Y)), rest, At(outer, f[Y := PtrV(n)], h[n := IntCell(5)], n + 1),
              At(outer, f[Y := PtrV(n)][R := IntV(5)], h, n + 1), fuel);
    ExecFirst(w, Assign(Y, Alloc(Num(5))), Cons(Assign(R, Consumed(Y)), rest), At(outer, f, h, n),
              At(outer, f[Y := PtrV(n)], h[n := IntCell(5)], n + 1), fuel);
  }

  lemma {:induction false} UnmatchedRun(w: World, body: Stmt, f: Frame, h: Memory, a: nat, n: nat, fuel: nat)
    requires !w.watch && X in f && f[X] == PtrV(a + 1) && HasWrapB(h, a)
    ensures Exec(w, Case(Var(X), OnlyA(body)), At([], f, h, n), fuel) == Done((), At([], f, h - {a + 1}, n))
  {
    NoArmTaken(w, body, true, At([], f, h, n), a, fuel);
  }

  lemma {:induction false} TwiceRuns(w: World, f: Frame)
    requires w == World(Solo(TWICE), TWICE.tys, NO_INPUT, false) && f.Keys == {X, Y, R}
    ensures RunBody(w, TWICE, Code(TWICE.body, One(Y)), At([], f, map[], 0), 1).Fault?
  {
    hide Exec, Eval;
    var t := TWICE.body.tail.tail;
    var f1 := f[Y := PtrV(0)][R := IntV(5)];
    var f2 := f1[X := PtrV(2)];
    var h: Memory := map[][1 := Box(B, Nil)][2 := Box(WRAP, One(PtrV(1)))];
    FirstTwoRun(w, t, [], f, map[], 0, 1);
    WrapBAssigned(w, [], f1, map[], 1, 1);
    ExecFirst(w, t.head, t.tail, At([], f1, map[], 1), At([], f2, h, 3), 1);
    UnmatchedRun(w, Y_AGAIN, f2, h, 1, 3, 1);
    ExecFirst(w, t.tail.head, Nil, At([], f2, h, 3), At([], f2, h - {2}, 3), 1);
    var end := At([], f2, h - {2}, 3);
    assert ExecAll(w, TWICE.body, At([], f, map[], 0), 1) == Done((), end);
    DanglingFaults(w, TWICE, TWICE.body, At([], f, map[], 0), end, Y, 1);
  }

  // A function that returns 0 with a destroy planned of a variable whose cell is gone.
  lemma {:induction false} DanglingFaults(w: World, fun: Fun, body: List<Stmt>, s0: State, s: State, x: Name, fuel: nat)
    requires s0.frames != [] && ExecAll(w, body, s0, fuel) == Done((), s)
    requires s.frames != [] && x in Top(s) && x in w.tys && w.tys[x] == TOwn
    requires Top(s)[x].PtrV? && Top(s)[x].a !in s.heap
    requires fun.ret == Num(0)
    ensures RunBody(w, fun, Code(body, One(x)), s0, fuel).Fault?
  {
    assert DestroyVars(w, One(x), s).Fault?;
    assert Eval(w, fun.ret, s, fuel) == Done(IntV(0), s);
  }

  // Accepted; the destroy planned at the exit is the one the arm would have needed,
  // and y, which the arm did not assign, is freed a second time.
  lemma UnmatchedFreesTwice()
    ensures Accepted(Solo(TWICE)) && !Careful(Solo(TWICE))
    ensures Invoke(World(Solo(TWICE), map[], NO_INPUT, false), MAIN, Nil, START, 1).Fault?
  {
    hide RunBody, AnalyzeFunction, Accepted, Careful;
    TwiceAccepted();
    TwiceAnalyzed();
    var zeros: Frame := Zeros(TWICE.locals);
    assert START.frames + [zeros] == At([], zeros, map[], 0).frames;
    TwiceRuns(World(Solo(TWICE), TWICE.tys, NO_INPUT, false), zeros);
    assert Bind(Nil, Nil, zeros) == Some(zeros);
  }

  // -------------------------------------------------------------------------
  // Matches on a borrow
  // -------------------------------------------------------------------------

  // look(q) { var y, r; y = alloc 5; r = consume(y); case *q of { Wrap(A) -> y = alloc 6 } return 0; }
  const LOOK_TWICE := Fun(One(Q), {Y, R}, map[Q := TBorrow(TSum(T)), Y := TOwn, R := TInt],
    Cons(Assign(Y, Alloc(Num(5))), Cons(Assign(R, Consumed(Y)), One(Case(Deref(Var(Q)), OnlyA(Y_AGAIN))))), Num(0),
      TInt)

  const Y_FROM_Z := Assign(Y, Var(Z))

  // stale(q) { var y, z; y = alloc 5; z = y; case *q of { Wrap(A) -> y = z } return 0; }
  const STALE := Fun(One(Q), {Y, Z}, map[Q := TBorrow(TSum(T)), Y := TOwn, Z := TOwn],
    Cons(Assign(Y, Alloc(Num(5))), Cons(Assign(Z, Var(Y)), One(Case(Deref(Var(Q)), OnlyA(Y_FROM_Z))))), Num(0), TInt)

  // The caller lends Wrap(B).
  const LENDER := State([map[X := PtrV(1)]], map[0 := Box(B, Nil), 1 := Box(WRAP, One(PtrV(0)))], 2, 0, [])

  lemma LookCaseWf(f: Fun, body: Stmt, locals: set<Name>, d: set<Name>)
    requires Q in f.tys && f.tys[Q] == TBorrow(TSum(T))
    requires WfStmt(Solo(f), f.tys, body, Scope({Q} + locals, {}), d)
    ensures WfStmt(Solo(f), f.tys, Case(Deref(Var(Q)), OnlyA(body)), Scope({Q} + locals, {}), d)
    ensures !CarefulStmt(Solo(f), f.tys, Case(Deref(Var(Q)), OnlyA(body)))
  {
    hide Exhaustive;
    var sc := Scope({Q} + locals, {});
    assert TypeOf(Solo(f), f.tys, sc, Deref(Var(Q)), Place) == Some(TSum(T));
    OnlyATyped(f, body, false, sc);
    OnlyAAssigned(f, body, false, sc, d);
    OnlyANotExhaustive(f, body);
  }

  lemma LookEntry(f: Fun)
    requires f.formals == One(Q) && Q in f.tys && f.tys[Q] == TBorrow(TSum(T))
    ensures Entry(f) == map[] && Entry(f).Keys == {} && FunScope(f) == Scope({Q} + f.locals, {})
  {
    assert Elems(One(Q)) == {Q};
  }

  lemma LookTwiceCaseAnalyzed()
    ensures var c := Case(Deref(Var(Q)), OnlyA(Y_AGAIN));
      AnalyzeStmt(Solo(LOOK_TWICE), LOOK_TWICE.tys, c, Y_MOVED) == Some(Checked(Y_OWNED, c))
  {
    var p, tys := Solo(LOOK_TWICE), LOOK_TWICE.tys;
    assert Y_MOVED[Y := Owned] == Y_OWNED;
    assert AnalyzeStmt(p, tys, Y_AGAIN, Y_MOVED) == Some(Checked(Y_OWNED, Y_AGAIN));
    OnlyAAnalyzed(p, tys, Deref(Var(Q)), Y_AGAIN, Y_MOVED, Y_MOVED, Y_OWNED);
  }

  lemma LookTwiceAnalyzed()
    ensures AnalyzeFunction(Solo(LOOK_TWICE), LOOK_TWICE) == Some(Code(LOOK_TWICE.body, One(Y)))
  {
    hide AnalyzeStmt;
    var f := LOOK_TWICE;
    var p, tys, t := Solo(f), f.tys, f.body.tail;
    LookEntry(f);
    FirstTwoAnalyzed(f);
    LookTwiceCaseAnalyzed();
    assert AnalyzeStmts(p, tys, Nil, Y_OWNED) == Some(Checked(Y_OWNED, Nil));
    ThenAnalyzed(p, tys, t.tail.head, Nil, Y_MOVED, Y_OWNED, Y_OWNED);
    ThenAnalyzed(p, tys, t.head, t.tail, Y_OWNED, Y_MOVED, Y_OWNED);
    ThenAnalyzed(p, tys, f.body.head, t, map[], Y_OWNED, Y_OWNED);
    assert OwnedIn(Y_OWNED) == {Y};
    SortedOne(Y);
  }

  lemma FirstWf(f: Fun, sc: Scope)
    requires Y in f.tys && f.tys[Y] == TOwn && Y in sc.names && sc.aliases == {}
    ensures WfStmt(Solo(f), f.tys, Assign(Y, Alloc(Num(5))), sc, {})
    ensures AssignedAfter(f.tys, Assign(Y, Alloc(Num(5))), {}) == {Y}
  {
  }

  lemma LookTwiceAccepted()
    ensures Accepted(Solo(LOOK_TWICE)) && !Careful(Solo(LOOK_TWICE))
  {
    hide AnalyzeFunction, Accepted, CarefulStmts, WfStmts, AnalyzeStmts, CarefulStmt, TypeOf, Assigned;
    var f, sc := LOOK_TWICE, Scope({Q} + {Y, R}, {});
    var p, t := Solo(f), f.body.tail;
    LookTwiceAnalyzed();
    LookEntry(f);
    ConsumedTyped(f, sc, {Y});
    YAgainWf(f, sc, {Y});
    LookCaseWf(f, Y_AGAIN, {Y, R}, {Y});
    NothingWf(p, f.tys, sc, {Y}, t.tail.head);
    ThenWf(p, f.tys, t.head, t.tail, sc, {Y}, {Y});
    FirstWf(f, sc);
    ThenWf(p, f.tys, f.body.head, t, sc, {}, {Y});
    BodyWf(f);
  }

  lemma YAgainWf(f: Fun, sc: Scope, d: set<Name>)
    requires Y in f.tys && f.tys[Y] == TOwn && Y in sc.names && sc.aliases == {}
    ensures WfStmt(Solo(f), f.tys, Y_AGAIN, sc, d)
  {
  }

  const STALE_MID: StateMap := map[Y := Moved, Z := Owned]
  const STALE_OUT: StateMap := map[Y := Owned, Z := Moved]

  lemma StaleStepsAnalyzed()
    ensures var p, tys, t := Solo(STALE), STALE.tys, STALE.body.tail;
      && AnalyzeStmt(p, tys, STALE.body.head, map[]) == Some(Checked(Y_OWNED, STALE.body.head))
      && AnalyzeStmt(p, tys, t.head, Y_OWNED) == Some(Checked(STALE_MID, t.head))
  {
    assert Y_OWNED[Y := Moved][Z := Owned] == STALE_MID;
  }

  lemma StaleCaseAnalyzed()
    ensures var c := Case(Deref(Var(Q)), OnlyA(Y_FROM_Z));
      AnalyzeStmt(Solo(STALE), STALE.tys, c, STALE_MID) == Some(Checked(STALE_OUT, c))
  {
    var p, tys := Solo(STALE), STALE.tys;
    assert STALE_MID[Z := Moved][Y := Owned] == STALE_OUT;
    assert AnalyzeStmt(p, tys, Y_FROM_Z, STALE_MID) == Some(Checked(STALE_OUT, Y_FROM_Z));
    OnlyAAnalyzed(p, tys, Deref(Var(Q)), Y_FROM_Z, STALE_MID, STALE_MID, STALE_OUT);
  }

  lemma StaleAnalyzed()
    ensures AnalyzeFunction(Solo(STALE), STALE) == Some(Code(STALE.body, One(Y)))
  {
    hide AnalyzeStmt;
    var f := STALE;
    var p, tys, t := Solo(f), f.tys, f.body.tail;
    LookEntry(f);
    StaleStepsAnalyzed();
    StaleCaseAnalyzed();
    assert AnalyzeStmts(p, tys, Nil, STALE_OUT) == Some(Checked(STALE_OUT, Nil));
    ThenAnalyzed(p, tys, t.tail.head, Nil, STALE_MID, STALE_OUT, STALE_OUT);
    ThenAnalyzed(p, tys, t.head, t.tail, Y_OWNED, STALE_MID, STALE_OUT);
    ThenAnalyzed(p, tys, f.body.head, t, map[], Y_OWNED, STALE_OUT);
    assert OwnedIn(STALE_OUT) == {Y};
    SortedOne(Y);
  }

  lemma StaleStepsWf()
    ensures var sc := Scope({Q} + {Y, Z}, {});
      && WfStmt(Solo(STALE), STALE.tys, Assign(Z, Var(Y)), sc, {Y})
      && WfStmt(Solo(STALE), STALE.tys, Y_FROM_Z, sc, {Y, Z})
      && AssignedAfter(STALE.tys, Assign(Z, Var(Y)), {Y}) == {Y, Z}
  {
  }

  lemma StaleAccepted()
    ensures Accepted(Solo(STALE)) && !Careful(Solo(STALE))
  {
    hide AnalyzeFunction, Accepted, CarefulStmts, WfStmts, AnalyzeStmts, CarefulStmt, TypeOf, Assigned, WfStmt;
    var f, sc := STALE, Scope({Q} + {Y, Z}, {});
    var p, t := Solo(f), f.body.tail;
    StaleAnalyzed();
    LookEntry(f);
    StaleStepsWf();
    LookCaseWf(f, Y_FROM_Z, {Y, Z}, {Y, Z});
    NothingWf(p, f.tys, sc, {Y, Z}, t.tail.head);
    ThenWf(p, f.tys, t.head, t.tail, sc, {Y}, {Y, Z});
    FirstWf(f, sc);
    ThenWf(p, f.tys, f.body.head, t, sc, {}, {Y});
    BodyWf(f);
  }

  lemma {:induction false} BorrowUnmatched(w: World, body: Stmt, f: Frame, h: Memory, n: nat, fuel: nat)
    requires !w.watch && Q in f && f[Q] == SlotV(0, X) && HasWrapB(h, 0)
    ensures Exec(w, Case(Deref(Var(Q)), OnlyA(body)), At(LENDER.frames, f, h, n), fuel)
      == Done((), At(LENDER.frames, f, h, n))
  {
    var s := At(LENDER.frames, f, h, n);
    assert s.frames[0] == LENDER.frames[0];
    assert Eval(w, Deref(Var(Q)), s, fuel) == Done(PtrV(1), s);
    NoArmTaken(w, body, false, s, 0, fuel);
  }

  lemma {:induction false} LookTwiceRuns(w: World, f: Frame)
    requires w == World(Solo(LOOK_TWICE), LOOK_TWICE.tys, NO_INPUT, false)
    requires f.Keys == {Q, Y, R} && f[Q] == SlotV(0, X)
    ensures RunBody(w, LOOK_TWICE, Code(LOOK_TWICE.body, One(Y)), At(LENDER.frames, f, LENDER.heap, 2), 1).Fault?
  {
    hide Exec, Eval;
    var t := LOOK_TWICE.body.tail.tail;
    var f1, h := f[Y := PtrV(2)][R := IntV(5)], LENDER.heap;
    FirstTwoRun(w, t, LENDER.frames, f, h, 2, 1);
    BorrowUnmatched(w, Y_AGAIN, f1, h, 3, 1);
    var end := At(LENDER.frames, f1, h, 3);
    ExecFirst(w, t.head, Nil, end, end, 1);
    assert ExecAll(w, LOOK_TWICE.body, At(LENDER.frames, f, h, 2), 1) == Done((), end);
    DanglingFaults(w, LOOK_TWICE, LOOK_TWICE.body, At(LENDER.frames, f, h, 2), end, Y, 1);
  }

  // A match on a borrow that no arm takes: nothing leaks, and y is freed twice.
  lemma BorrowedMatchFreesTwice()
    ensures Accepted(Solo(LOOK_TWICE)) && !Careful(Solo(LOOK_TWICE))
    ensures Invoke(World(Solo(LOOK_TWICE), map[], NO_INPUT, false), MAIN, One(SlotV(0, X)), LENDER, 1).Fault?
  {
    hide RunBody, AnalyzeFunction, Accepted, Careful;
    LookTwiceAccepted();
    LookTwiceAnalyzed();
    var f := Zeros(LOOK_TWICE.locals)[Q := SlotV(0, X)];
    assert Bind(One(Q), One(SlotV(0, X)), Zeros(LOOK_TWICE.locals)) == Some(f);
    LookTwiceRuns(World(Solo(LOOK_TWICE), LOOK_TWICE.tys, NO_INPUT, false), f);
  }

  lemma {:induction false} StaleRuns(w: World, f: Frame)
    requires w == World(Solo(STALE), STALE.tys, NO_INPUT, false)
    requires f.Keys == {Q, Y, Z} && f[Q] == SlotV(0, X)
    ensures var r := RunBody(w, STALE, Code(STALE.body, One(Y)), At(LENDER.frames, f, LENDER.heap, 2), 0);
      r == Done(IntV(0), At(LENDER.frames, f[Y := PtrV(2)][Z := PtrV(2)], LENDER.heap, 3))
  {
    hide Exec, Eval;
    var t, outer := STALE.body.tail, LENDER.frames;
    var f1, f2 := f[Y := PtrV(2)], f[Y := PtrV(2)][Z := PtrV(2)];
    var h := LENDER.heap[2 := IntCell(5)];
    AllocAssigned(w, Y, 5, outer, f, LENDER.heap, 2, 0);
    ZeroReturned(w, Y, At(outer, f1, h, 3));
    AssignAt(w, Z, Var(Y), outer, f1, h, 3, PtrV(2), h, 3, 0);
    BorrowUnmatched(w, Y_FROM_Z, f2, h, 3, 0);
    var end := At(outer, f2, h, 3);
    ExecFirst(w, t.tail.head, Nil, end, end, 0);
    ExecFirst(w, t.head, t.tail, At(outer, f1, h, 3), end, 0);
    ExecFirst(w, STALE.body.head, t, At(outer, f, LENDER.heap, 2), At(outer, f1, h, 3), 0);
    assert ExecAll(w, STALE.body, At(outer, f, LENDER.heap, 2), 0) == Done((), end);
    ZeroReturned(w, Y, end);
    assert h - {2} == LENDER.heap;
    var last := At(outer, f2, LENDER.heap, 3);
    assert DestroyVar(w, Y, end) == Done((), last);
    assert DestroyVars(w, One(Y), end) == Done((), last);
  }

  lemma {:induction false} ZeroReturned(w: World, x: Name, s: State)
    requires s.frames != [] && x in Top(s)
    ensures Eval(w, Num(0), s, 0) == Done(IntV(0), s)
    ensures Eval(w, Var(x), s, 0) == Done(Top(s)[x], s)
  {
  }

  // No arm takes Wrap(B), and the owner planned is not the owner there is; but y
  // still holds the address it gave to z, so its destroy frees the right cell: the
  // call returns with the heap as it found it.
  lemma StaleNameSaves()
    ensures Accepted(Solo(STALE)) && !Careful(Solo(STALE))
    ensures var r := Invoke(World(Solo(STALE), map[], NO_INPUT, false), MAIN, One(SlotV(0, X)), LENDER, 0);
      r == Done(IntV(0), LENDER.(next := 3))
  {
    hide RunBody, AnalyzeFunction, Accepted, Careful;
    StaleAccepted();
    StaleAnalyzed();
    var f := Zeros(STALE.locals)[Q := SlotV(0, X)];
    assert Bind(One(Q), One(SlotV(0, X)), Zeros(STALE.locals)) == Some(f);
    StaleRuns(World(Solo(STALE), STALE.tys, NO_INPUT, false), f);
    var r := RunBody(World(Solo(STALE), STALE.tys, NO_INPUT, false), STALE, Code(STALE.body, One(Y)),
                     At(LENDER.frames, f, LENDER.heap, 2), 0);
    assert r.s.frames[..|r.s.frames| - 1] == LENDER.frames;
  }

  // -------------------------------------------------------------------------
  // One owner bound twice
  // -------------------------------------------------------------------------

  const INNER := Arm(PAIR, Cons(PVar(X, TOwn), One(PVar(X, TOwn))), Block(Nil))
  const INNER_CASE := Case(New(PAIR, Cons(Var(X), One(Alloc(Num(7))))), One(INNER))
  const OUTER := Arm(SINGLE, One(PVar(X, TOwn)), INNER_CASE)
  const OUTER_CASE := Case(New(SINGLE, One(Alloc(Num(5)))), One(OUTER))

  // main() { case Single(alloc 5) of { Single(x) -> case Pair(x, alloc 7) of { Pair(x, x) -> {} } } return 0; }
  const BOUND_TWICE := Fun(Nil, {}, map[X := TOwn], One(OUTER_CASE), Num(0), TInt)

  // The arms as generated, with their destroys.
  const INNER_CODE := INNER.(body := Block(Cons(Block(Nil), Cons(Destroy(X, TOwn), One(Destroy(X, TOwn))))))
  const OUTER_CODE := OUTER.(body := Block(Cons(Case(INNER_CASE.scrutinee, One(INNER_CODE)), One(Destroy(X, TOwn)))))

  const X_OWNED: StateMap := map[X := Owned]
  const X_MOVED: StateMap := map[X := Moved]

  lemma {:induction false} OneArmAnalyzed(p: Program, tys: map<Name, Ty>, e: Expr, arm: Arm, code: Arm, st: StateMap,
      st1: StateMap, out: StateMap)
    requires Take(p, tys, e, st) == Some(st1)
    requires AnalyzeArm(p, tys, arm, Consuming(e), st1) == Some(Checked(out, code))
    ensures AnalyzeStmt(p, tys, Case(e, One(arm)), st) == Some(Checked(out, Case(e, One(code))))
  {
    assert [out] + [] == [out] && [out][1..] == [];
    assert AnalyzeArms(p, tys, Nil, Consuming(e), st1) == Some(([], Nil));
    assert AnalyzeArms(p, tys, One(arm), Consuming(e), st1) == Some(([out], One(code)));
    assert KeysOf([out]) == out.Keys;
    assert Join([out]).Some? && Join([out]).value == out by {
      assert forall b | b in [out] :: b == out;
    }
  }

  lemma InnerAnalyzed()
    ensures var p, tys := Solo(BOUND_TWICE), BOUND_TWICE.tys;
      AnalyzeArm(p, tys, INNER, true, X_MOVED) == Some(Checked(X_OWNED, INNER_CODE))
  {
    var p, tys, bs := Solo(BOUND_TWICE), BOUND_TWICE.tys, Cons(X, One(X));
    XTwice();
    assert X_MOVED[X := Owned] == X_OWNED == X_OWNED[X := Owned];
    assert SetOwned(X_MOVED, bs) == X_OWNED;
    assert SavedBy(X_MOVED, bs) == Cons(Saved(X, Some(Moved)), One(Saved(X, Some(Owned))));
    assert X_OWNED[X := Moved][X := Owned] == X_OWNED;
    assert Restore(X_OWNED, bs, X_MOVED) == X_OWNED;
    assert AnalyzeStmt(p, tys, Block(Nil), X_OWNED) == Some(Checked(X_OWNED, Block(Nil)));
    assert Leftover(One(X_BOUND), X_OWNED) == One(X_BOUND);
    assert Leftover(Cons(X_BOUND, One(X_BOUND)), X_OWNED) == Cons(X_BOUND, One(X_BOUND));
    assert Destroys(One(X_BOUND)) == One(Destroy(X, TOwn));
  }

  const X_BOUND := Binder(X, TOwn)

  lemma XTwice()
    ensures BindersOf(INNER.pats) == Cons(X, One(X)) == ArmBinders(INNER, true)
    ensures ArmOwned(INNER, true) == Cons(X_BOUND, One(X_BOUND))
  {
    assert BindersOf(One(PVar(X, TOwn))) == One(X) == Names(One(X_BOUND));
    assert OwnedBindersOf(One(PVar(X, TOwn))) == One(X_BOUND);
  }

  lemma OuterAnalyzed()
    ensures var p, tys := Solo(BOUND_TWICE), BOUND_TWICE.tys;
      AnalyzeArm(p, tys, OUTER, true, map[]) == Some(Checked(map[], OUTER_CODE))
  {
    hide AnalyzeStmt;
    var p, tys, bs := Solo(BOUND_TWICE), BOUND_TWICE.tys, One(X);
    var none: StateMap := map[];
    assert ArmOwned(OUTER, true) == One(X_BOUND) && ArmBinders(OUTER, true) == bs;
    assert SetOwned(none, bs) == X_OWNED && SavedBy(none, bs) == One(Saved(X, None));
    assert X_OWNED - {X} == none && Restore(X_OWNED, bs, none) == none;
    assert Leftover(One(X_BOUND), X_OWNED) == One(X_BOUND);
    assert Destroys(Nil) == Nil && Destroys(One(X_BOUND)) == One(Destroy(X, TOwn));
    PairTaken();
    InnerAnalyzed();
    OneArmAnalyzed(p, tys, INNER_CASE.scrutinee, INNER, INNER_CODE, X_OWNED, X_MOVED, X_OWNED);
  }

  lemma PairTaken()
    ensures Take(Solo(BOUND_TWICE), BOUND_TWICE.tys, INNER_CASE.scrutinee, X_OWNED) == Some(X_MOVED)
  {
    var p, tys := Solo(BOUND_TWICE), BOUND_TWICE.tys;
    assert X_OWNED[X := Moved] == X_MOVED;
    assert EvalOperands(p, tys, One(Alloc(Num(7))), One(true), X_MOVED, {}) == Some(X_MOVED);
  }

  lemma BoundTwiceAnalyzed()
    ensures AnalyzeFunction(Solo(BOUND_TWICE), BOUND_TWICE)
      == Some(Code(One(Case(OUTER_CASE.scrutinee, One(OUTER_CODE))), Nil))
  {
    hide AnalyzeArm;
    var p, tys := Solo(BOUND_TWICE), BOUND_TWICE.tys;
    var none: StateMap := map[];
    assert Entry(BOUND_TWICE) == none;
    OuterAnalyzed();
    assert EvalOperands(p, tys, One(Alloc(Num(5))), One(true), none, {}) == Some(none);
    OneArmAnalyzed(p, tys, OUTER_CASE.scrutinee, OUTER, OUTER_CODE, none, none, none);
    assert OwnedIn(none) == {} && Sorted({}) == Nil;
  }

  lemma InnerArmTyped()
    ensures TypedArm(Solo(BOUND_TWICE), BOUND_TWICE.tys, INNER, V, true, Scope({X}, {}))
  {
    assert PatsTyped(Solo(BOUND_TWICE), One(PVar(X, TOwn)), One(TOwn));
    XTwice();
  }

  lemma InnerTyped()
    ensures TypedStmt(Solo(BOUND_TWICE), BOUND_TWICE.tys, INNER_CASE, Scope({X}, {}))
  {
    hide TypedArm;
    var p, tys, sc := Solo(BOUND_TWICE), BOUND_TWICE.tys, Scope({X}, {});
    InnerArmTyped();
    assert TypedAll(p, tys, sc, One(Alloc(Num(7))), One(TOwn), Taken);
    assert TypedAll(p, tys, sc, Cons(Var(X), One(Alloc(Num(7)))), Cons(TOwn, One(TOwn)), Taken);
    assert TypedArms(p, tys, One(INNER), V, true, sc);
  }

  lemma InnerWf()
    ensures WfStmt(Solo(BOUND_TWICE), BOUND_TWICE.tys, INNER_CASE, Scope({X}, {}), {X})
    ensures !Linear(INNER, true)
  {
    hide TypedStmt;
    var tys, sc := BOUND_TWICE.tys, Scope({X}, {});
    InnerTyped();
    assert AssignedAll(tys, sc, {X}, Cons(Var(X), One(Alloc(Num(7)))));
    XTwice();
    assert AssignedArms(tys, One(INNER), true, sc, {X});
  }

  lemma OuterScope()
    ensures BindersOf(OUTER.pats) == One(X) && ArmBinders(OUTER, true) == One(X)
    ensures ArmScope(OUTER, true, Scope({}, {})) == Scope({X}, {}) && ArmOwners(OUTER, true) == {X}
    ensures PatsTyped(Solo(BOUND_TWICE), OUTER.pats, One(TOwn))
  {
  }

  lemma OuterWf()
    ensures WfStmt(Solo(BOUND_TWICE), BOUND_TWICE.tys, OUTER_CASE, Scope({}, {}), {})
  {
    hide Linear, ArmScope, ArmOwners, PatsTyped, BindersOf;
    var p, tys, sc := Solo(BOUND_TWICE), BOUND_TWICE.tys, Scope({}, {});
    InnerWf();
    OuterScope();
    assert TypedAll(p, tys, sc, One(Alloc(Num(5))), One(TOwn), Taken);
    assert AssignedAll(tys, sc, {}, One(Alloc(Num(5))));
    assert TypedArms(p, tys, One(OUTER), W, true, sc) by {
      assert OwnedBindersOf(OUTER.pats) == One(X_BOUND);
      assert TypedArm(p, tys, OUTER, W, true, sc);
    }
    assert AssignedArms(tys, One(OUTER), true, sc, {}) by {
      assert {} + {X} == {X};
      assert AssignedArm(tys, OUTER, true, sc, {});
    }
  }

  lemma BoundTwiceAccepted()
    ensures Accepted(Solo(BOUND_TWICE)) && !Careful(Solo(BOUND_TWICE))
  {
    hide AnalyzeFunction, Accepted, WfStmt, Linear, Exhaustive;
    var p, tys, sc := Solo(BOUND_TWICE), BOUND_TWICE.tys, FunScope(BOUND_TWICE);
    assert sc == Scope({}, {}) && Entry(BOUND_TWICE).Keys == {};
    BoundTwiceAnalyzed();
    OuterWf();
    InnerWf();
    assert !CarefulStmt(p, tys, INNER_CASE);
    assert !CarefulStmt(p, tys, OUTER_CASE);
    NothingWf(p, tys, sc, {}, OUTER_CASE);
    BodyWf(BOUND_TWICE);
  }

  const ONE_FRAME: State := At([], map[X := PtrV(0)], map[0 := IntCell(5), 1 := Box(SINGLE, One(PtrV(0)))], 2)

  const BOTH_BOUND: State := At([], map[X := PtrV(2)],
    map[0 := IntCell(5), 1 := Box(SINGLE, One(PtrV(0))), 2 := IntCell(7), 3 := Box(PAIR, Cons(PtrV(0), One(PtrV(2))))],
      4)

  // The second destroy of x meets a freed cell.
  lemma {:induction false} InnerBodyFaults(w: World, fuel: nat)
    requires w == World(Solo(BOUND_TWICE), BOUND_TWICE.tys, NO_INPUT, false)
    ensures Exec(w, INNER_CODE.body, BOTH_BOUND, fuel).Fault?
  {
    var s := BOTH_BOUND;
    var s1 := s.(heap := s.heap - {2});
    assert DestroyVar(w, X, s) == Done((), s1);
    assert DestroyVar(w, X, s1).Fault?;
    assert Exec(w, Destroy(X, TOwn), s, fuel) == Done((), s1) && Exec(w, Destroy(X, TOwn), s1, fuel).Fault?;
    assert ExecAll(w, One(Destroy(X, TOwn)), s1, fuel).Fault?;
    assert ExecAll(w, Cons(Destroy(X, TOwn), One(Destroy(X, TOwn))), s, fuel).Fault?;
    assert Exec(w, Block(Nil), s, fuel) == Done((), s);
  }

  lemma {:induction false} PairMade(w: World, fuel: nat)
    requires w == World(Solo(BOUND_TWICE), BOUND_TWICE.tys, NO_INPUT, false)
    ensures Eval(w, INNER_CASE.scrutinee, ONE_FRAME, fuel)
         == Done(PtrV(3), ONE_FRAME.(heap := BOTH_BOUND.heap, next := 4))
  {
    var s := ONE_FRAME;
    var a := Eval(w, Alloc(Num(7)), s, fuel);
    assert Eval(w, Num(7), s, fuel) == Done(IntV(7), s);
    assert a == Done(PtrV(2), s.(heap := s.heap[2 := IntCell(7)], next := 3));
    assert EvalAll(w, One(Alloc(Num(7))), s, fuel) == Done(One(PtrV(2)), a.s);
    assert Eval(w, Var(X), s, fuel) == Done(PtrV(0), s);
    assert EvalAll(w, Cons(Var(X), One(Alloc(Num(7)))), s, fuel) == Done(Cons(PtrV(0), One(PtrV(2))), a.s);
    assert a.s.heap[3 := Box(PAIR, Cons(PtrV(0), One(PtrV(2))))] == BOTH_BOUND.heap;
  }

  lemma {:induction false} InnerFaults(w: World, fuel: nat)
    requires w == World(Solo(BOUND_TWICE), BOUND_TWICE.tys, NO_INPUT, false)
    ensures Exec(w, Case(INNER_CASE.scrutinee, One(INNER_CODE)), ONE_FRAME, fuel).Fault?
  {
    hide Exec;
    var s := ONE_FRAME.(heap := BOTH_BOUND.heap, next := 4);
    PairMade(w, fuel);
    InnerBinds(s.heap, Top(s));
    InnerBodyFaults(w, fuel);
    assert WithTop(s, map[X := PtrV(2)]) == BOTH_BOUND;
    assert ExecArms(w, One(INNER_CODE), true, 3, s, fuel).Fault?;
    CaseFaults(w, INNER_CASE.scrutinee, One(INNER_CODE), ONE_FRAME, 3, s, fuel);
  }

  lemma {:induction false} InnerBinds(h: Memory, f: Frame)
    requires h == BOTH_BOUND.heap && f.Keys == {X}
    ensures TestPats(h, h[3].fields, INNER.pats) == Some(true)
    ensures BindPats(CTORS, h, f, 3, h[3].fields, INNER.pats, Cons(TOwn, One(TOwn)), true, 4)
      == Bound(h, map[X := PtrV(2)])
  {
    var f1 := f[X := PtrV(0)];
    assert f1[X := PtrV(2)] == map[X := PtrV(2)];
    assert TestPats(h, One(PtrV(2)), One(PVar(X, TOwn))) == Some(true);
    assert BindPats(CTORS, h, f1, 3, One(PtrV(2)), One(PVar(X, TOwn)), One(TOwn), true, 4)
      == Bound(h, map[X := PtrV(2)]);
  }

  lemma {:induction false} CaseFaults(w: World, e: Expr, arms: List<Arm>, s: State, a: nat, s1: State, fuel: nat)
    requires s.frames != [] && Eval(w, e, s, fuel) == Done(PtrV(a), s1)
    requires a in s1.heap && s1.heap[a].Box? && ExecArms(w, arms, Consuming(e), a, s1, fuel).Fault?
    ensures Exec(w, Case(e, arms), s, fuel).Fault?
  {
  }

  lemma {:induction false} OuterFaults(w: World, fuel: nat)
    requires w == World(Solo(BOUND_TWICE), BOUND_TWICE.tys, NO_INPUT, false)
    ensures Exec(w, Case(OUTER_CASE.scrutinee, One(OUTER_CODE)), At([], map[], map[], 0), fuel).Fault?
  {
    hide Exec;
    var s0 := At([], map[], map[], 0);
    var s := s0.(heap := ONE_FRAME.heap, next := 2);
    var a := Eval(w, Alloc(Num(5)), s0, fuel);
    assert Eval(w, Num(5), s0, fuel) == Done(IntV(5), s0);
    assert map[][0 := IntCell(5)] == map[0 := IntCell(5)];
    assert a == Done(PtrV(0), s0.(heap := map[0 := IntCell(5)], next := 1));
    assert EvalAll(w, One(Alloc(Num(5))), s0, fuel) == Done(One(PtrV(0)), a.s);
    assert a.s.heap[1 := Box(SINGLE, One(PtrV(0)))] == ONE_FRAME.heap;
    assert Eval(w, OUTER_CASE.scrutinee, s0, fuel) == Done(PtrV(1), s);
    OuterBinds(w, s, fuel);
    CaseFaults(w, OUTER_CASE.scrutinee, One(OUTER_CODE), s0, 1, s, fuel);
  }

  lemma {:induction false} OuterBinds(w: World, s: State, fuel: nat)
    requires w == World(Solo(BOUND_TWICE), BOUND_TWICE.tys, NO_INPUT, false)
    requires s == At([], map[], ONE_FRAME.heap, 2)
    ensures ExecArms(w, One(OUTER_CODE), true, 1, s, fuel).Fault?
  {
    var f: Frame := map[];
    assert f[X := PtrV(0)] == map[X := PtrV(0)];
    assert TestPats(s.heap, One(PtrV(0)), One(PVar(X, TOwn))) == Some(true);
    assert BindPats(CTORS, s.heap, f, 1, One(PtrV(0)), One(PVar(X, TOwn)), One(TOwn), true, s.next)
      == Bound(s.heap, map[X := PtrV(0)]);
    assert WithTop(s, map[X := PtrV(0)]) == ONE_FRAME;
    InnerFaults(w, fuel);
    assert Exec(w, OUTER_CODE.body, ONE_FRAME, fuel).Fault?;
  }

  // Accepted, and taken apart without any test failing; x is destroyed twice.
  lemma BoundTwiceFaults()
    ensures Accepted(Solo(BOUND_TWICE)) && !Careful(Solo(BOUND_TWICE))
    ensures Invoke(World(Solo(BOUND_TWICE), map[], NO_INPUT, false), MAIN, Nil, START, 0).Fault?
  {
    hide Exec, AnalyzeFunction, Accepted, Careful;
    BoundTwiceAccepted();
    BoundTwiceAnalyzed();
    var none: Frame := map[];
    assert Zeros(BOUND_TWICE.locals) == none;
    assert START.frames + [none] == At([], map[], map[], 0).frames;
    var w := World(Solo(BOUND_TWICE), BOUND_TWICE.tys, NO_INPUT, false);
    OuterFaults(w, 0);
    assert ExecAll(w, One(Case(OUTER_CASE.scrutinee, One(OUTER_CODE))), At([], map[], map[], 0), 0).Fault?;
    assert Bind(Nil, Nil, none) == Some(none);
  }
}
