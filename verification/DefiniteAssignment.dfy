/** What definite assignment asks for, path by path: that on every way through an
    accepted function each owner named owns when it is named. */
module DefiniteAssignment {
  import opened Optional
  import opened Syntax
  import opened Moves
  import opened Static
  import opened Facts
  import opened Paths

  // Every owner an expression names owns at that point, the moves made inside the
  // expression included.
  predicate NamesOwners(p: Program, tys: map<Name, Ty>, sc: Scope, e: Expr, own: set<Name>)
    decreases e, 1
  {
    match e
    case Num(_) => true
    case Input => true
    case Var(x) => IsOwnVar(tys, x) && x !in sc.aliases ==> x in own
    case Borrow(x) => IsOwnVar(tys, x) && x !in sc.aliases ==> x in own
    case Bin(_, l, r) => NamesOwners(p, tys, sc, l, own) && NamesOwners(p, tys, sc, r, own - MovedBy(p, tys, l))
    case Alloc(i) => NamesOwners(p, tys, sc, i, own)
    case Deref(q) => NamesOwners(p, tys, sc, q, own)
    case New(_, args) => AllNameOwners(p, tys, sc, args, AllTaken(args), own)
    case Call(f, args) => AllNameOwners(p, tys, sc, args, Consumes(p, f), own)
  }

  predicate AllNameOwners(p: Program, tys: map<Name, Ty>, sc: Scope, es: List<Expr>, takes: List<bool>, own: set<Name>)
    decreases es, 0
  {
    match es
    case Nil => true
    case Cons(e, t) =>
      var moved := if takes.Cons? && takes.head then TakenBy(p, tys, e) else MovedBy(p, tys, e);
      && NamesOwners(p, tys, sc, e, own)
      && AllNameOwners(p, tys, sc, t, if takes.Cons? then takes.tail else Nil, own - moved)
  }

  // Along one way through a statement.
  predicate OwnersOnWay(p: Program, tys: map<Name, Ty>, s: Stmt, sc: Scope, way: Path, own: set<Name>)
    decreases s, 1
  {
    match s
    case Assign(_, rhs) => NamesOwners(p, tys, sc, rhs, own)
    case Write(target, rhs) =>
      NamesOwners(p, tys, sc, target, own) && NamesOwners(p, tys, sc, rhs, own - MovedBy(p, tys, target))
    case Block(ss) => OwnersOnWays(p, tys, ss, sc, way.subs, own)
    case If(c, t, e) =>
      && NamesOwners(p, tys, sc, c, own)
      && OwnersOnWay(p, tys, if way.choice == 0 then t else e, sc, First(way.subs), own - MovedBy(p, tys, c))
    case While(c, b) => OwnersInLoop(p, tys, c, b, sc, way.subs, own)
    case Output(e) => NamesOwners(p, tys, sc, e, own)
    case Error(e) => NamesOwners(p, tys, sc, e, own)
    case Case(e, arms) =>
      && NamesOwners(p, tys, sc, e, own)
      && (arms.Cons? ==>
            OwnersInArm(p, tys, arms, Consuming(e), sc, way.choice, First(way.subs), own - TakenBy(p, tys, e)))
    case Destroy(_, _) => true
  }

  predicate OwnersOnWays(p: Program, tys: map<Name, Ty>, ss: List<Stmt>, sc: Scope, ways: List<Path>, own: set<Name>)
    decreases ss, 0
  {
    match ss
    case Nil => true
    case Cons(s, t) =>
      && OwnersOnWay(p, tys, s, sc, First(ways), own)
      && OwnersOnWays(p, tys, t, sc, Rest(ways), Follow(p, tys, s, First(ways), own))
  }

  predicate OwnersInLoop(p: Program, tys: map<Name, Ty>, c: Expr, b: Stmt, sc: Scope, ways: List<Path>, own: set<Name>)
    decreases b, 2, ways
  {
    var own1 := own - MovedBy(p, tys, c);
    && NamesOwners(p, tys, sc, c, own)
    && match ways
       case Nil => true
       case Cons(way, t) =>
         && OwnersOnWay(p, tys, b, sc, way, own1)
         && OwnersInLoop(p, tys, c, b, sc, t, Follow(p, tys, b, way, own1))
  }

  predicate OwnersInArm(p: Program, tys: map<Name, Ty>, arms: List<Arm>, byValue: bool, sc: Scope, choice: nat,
      way: Path, own: set<Name>)
    requires arms.Cons?
    decreases arms, 0
  {
    if choice > 0 && arms.tail.Cons? then OwnersInArm(p, tys, arms.tail, byValue, sc, choice - 1, way, own)
    else
      var arm := arms.head;
      OwnersOnWay(p, tys, arm.body, ArmScope(arm, byValue, sc), way, own + ArmOwners(arm, byValue))
  }

  // Along one way through a function, from its entry to its returned value.
  predicate OwnersOnRun(p: Program, f: Fun, ways: List<Path>) {
    var own := OwnedIn(Entry(f));
    && OwnersOnWays(p, f.tys, f.body, FunScope(f), ways, own)
    && NamesOwners(p, f.tys, FunScope(f), f.ret, FollowAll(p, f.tys, f.body, ways, own))
  }

  // -------------------------------------------------------------------------
  // Expressions
  // -------------------------------------------------------------------------

  // What is assigned and accepted owns.
  lemma {:induction false} AssignedNamesOwners(p: Program, tys: map<Name, Ty>, sc: Scope, e: Expr, d: set<Name>,
      st: StateMap, held: set<Name>)
    requires Assigned(tys, sc, d, e) && d <= st.Keys
    requires EvalExpr(p, tys, e, st, held).Some?
    ensures NamesOwners(p, tys, sc, e, OwnedIn(st))
    decreases e, 1
  {
    match e
    case Num(_) =>
    case Input =>
    case Var(_) =>
    case Borrow(_) =>
    case Bin(_, l, r) =>
      EvalMovesExactly(p, tys, l, st, held);
      AssignedNamesOwners(p, tys, sc, l, d, st, held);
      AssignedNamesOwners(p, tys, sc, r, d, EvalExpr(p, tys, l, st, held).value, held);
    case Alloc(i) => AssignedNamesOwners(p, tys, sc, i, d, st, held);
    case Deref(q) => AssignedNamesOwners(p, tys, sc, q, d, st, held);
    case New(_, args) => AssignedAllNameOwners(p, tys, sc, args, AllTaken(args), d, st, held);
    case Call(f, args) => AssignedAllNameOwners(p, tys, sc, args, Consumes(p, f), d, st, held + BorrowedIn(args));
  }

  lemma {:induction false} AssignedAllNameOwners(p: Program, tys: map<Name, Ty>, sc: Scope, es: List<Expr>,
      takes: List<bool>, d: set<Name>, st: StateMap, held: set<Name>)
    requires AssignedAll(tys, sc, d, es) && d <= st.Keys
    requires EvalOperands(p, tys, es, takes, st, held).Some?
    ensures AllNameOwners(p, tys, sc, es, takes, OwnedIn(st))
    decreases es, 0
  {
    if es.Cons? {
      var e, taken := es.head, takes.Cons? && takes.head;
      var st1 := OperandState(p, tys, e, taken, st, held).value;
      if taken && e.Var? && IsOwnVar(tys, e.x) {
        assert OwnedIn(st1) == OwnedIn(st) - {e.x};
      } else {
        EvalMovesExactly(p, tys, e, st, held);
        AssignedNamesOwners(p, tys, sc, e, d, st, held);
      }
      AssignedAllNameOwners(p, tys, sc, es.tail, if takes.Cons? then takes.tail else Nil, d, st1, held);
    }
  }

  lemma {:induction false} AssignedTakesOwners(p: Program, tys: map<Name, Ty>, sc: Scope, e: Expr, d: set<Name>,
      st: StateMap)
    requires Assigned(tys, sc, d, e) && d <= st.Keys
    requires Take(p, tys, e, st).Some?
    ensures NamesOwners(p, tys, sc, e, OwnedIn(st))
  {
    if !(e.Var? && IsOwnVar(tys, e.x)) {
      AssignedNamesOwners(p, tys, sc, e, d, st, {});
    }
  }

  // What owns has been assigned.
  lemma {:induction false} OwnersNamedAreAssigned(p: Program, tys: map<Name, Ty>, sc: Scope, e: Expr, own: set<Name>,
      d: set<Name>)
    requires NamesOwners(p, tys, sc, e, own) && own <= d
    ensures Assigned(tys, sc, d, e)
    decreases e, 1
  {
    match e
    case Num(_) =>
    case Input =>
    case Var(_) =>
    case Borrow(_) =>
    case Bin(_, l, r) =>
      OwnersNamedAreAssigned(p, tys, sc, l, own, d);
      OwnersNamedAreAssigned(p, tys, sc, r, own - MovedBy(p, tys, l), d);
    case Alloc(i) => OwnersNamedAreAssigned(p, tys, sc, i, own, d);
    case Deref(q) => OwnersNamedAreAssigned(p, tys, sc, q, own, d);
    case New(_, args) => AllOwnersNamedAreAssigned(p, tys, sc, args, AllTaken(args), own, d);
    case Call(f, args) => AllOwnersNamedAreAssigned(p, tys, sc, args, Consumes(p, f), own, d);
  }

  lemma {:induction false} AllOwnersNamedAreAssigned(p: Program, tys: map<Name, Ty>, sc: Scope, es: List<Expr>,
      takes: List<bool>, own: set<Name>, d: set<Name>)
    requires AllNameOwners(p, tys, sc, es, takes, own) && own <= d
    ensures AssignedAll(tys, sc, d, es)
    decreases es, 0
  {
    if es.Cons? {
      var e := es.head;
      var moved := if takes.Cons? && takes.head then TakenBy(p, tys, e) else MovedBy(p, tys, e);
      OwnersNamedAreAssigned(p, tys, sc, e, own, d);
      AllOwnersNamedAreAssigned(p, tys, sc, es.tail, if takes.Cons? then takes.tail else Nil, own - moved, d);
    }
  }

  // -------------------------------------------------------------------------
  // Assigned first, then owned on every way
  // -------------------------------------------------------------------------

  lemma {:induction false} AssignedOwnOnWay(p: Program, tys: map<Name, Ty>, s: Stmt, sc: Scope, d: set<Name>,
      st: StateMap, way: Path)
    requires WfStmt(p, tys, s, sc, d) && d <= st.Keys
    requires AnalyzeStmt(p, tys, s, st).Some?
    ensures OwnersOnWay(p, tys, s, sc, way, OwnedIn(st))
    decreases s, 1
  {
    match s
    case Assign(_, rhs) => AssignedTakesOwners(p, tys, sc, rhs, d, st);
    case Write(target, rhs) =>
      AssignedNamesOwners(p, tys, sc, target, d, st, {});
      EvalMovesExactly(p, tys, target, st, {});
      AssignedTakesOwners(p, tys, sc, rhs, d, EvalExpr(p, tys, target, st, {}).value);
    case Block(ss) => AssignedOwnOnWays(p, tys, ss, sc, d, st, way.subs);
    case If(c, t, e) =>
      var st1 := EvalExpr(p, tys, c, st, {}).value;
      EvalMovesExactly(p, tys, c, st, {});
      AssignedNamesOwners(p, tys, sc, c, d, st, {});
      AssignedOwnOnWay(p, tys, if way.choice == 0 then t else e, sc, d, st1, First(way.subs));
    case While(c, b) => AssignedOwnInLoop(p, tys, c, b, sc, d, st, way.subs);
    case Output(e) => AssignedNamesOwners(p, tys, sc, e, d, st, {});
    case Error(e) => AssignedNamesOwners(p, tys, sc, e, d, st, {});
    case Case(e, arms) =>
      var ty := TypeOf(p, tys, sc, e, if Consuming(e) then Taken else Place).value;
      TakeMovesExactly(p, tys, e, st);
      AssignedTakesOwners(p, tys, sc, e, d, st);
      AssignedOwnInArm(p, tys, arms, ty.name, Consuming(e), sc, d, Take(p, tys, e, st).value, way.choice,
        First(way.subs));
  }

  lemma {:induction false} AssignedOwnOnWays(p: Program, tys: map<Name, Ty>, ss: List<Stmt>, sc: Scope, d: set<Name>,
      st: StateMap, ways: List<Path>)
    requires WfStmts(p, tys, ss, sc, d) && d <= st.Keys
    requires AnalyzeStmts(p, tys, ss, st).Some?
    ensures OwnersOnWays(p, tys, ss, sc, ways, OwnedIn(st))
    decreases ss, 0
  {
    match ss
    case Nil =>
    case Cons(s, t) =>
      AssignedOwnOnWay(p, tys, s, sc, d, st, First(ways));
      EveryPathAgrees(p, tys, s, First(ways), st);
      AssignedAreTracked(p, tys, s, sc, d, st);
      AssignedOwnOnWays(p, tys, t, sc, AssignedAfter(tys, s, d), AnalyzeStmt(p, tys, s, st).value.st, Rest(ways));
  }

  lemma {:induction false} AssignedOwnInLoop(p: Program, tys: map<Name, Ty>, c: Expr, b: Stmt, sc: Scope, d: set<Name>,
      st: StateMap, ways: List<Path>)
    requires Assigned(tys, sc, d, c) && WfStmt(p, tys, b, sc, d) && d <= st.Keys
    requires EvalExpr(p, tys, c, st, {}) == Some(st)
    requires AnalyzeStmt(p, tys, b, st).Some? && OwnedIn(AnalyzeStmt(p, tys, b, st).value.st) == OwnedIn(st)
    ensures OwnersInLoop(p, tys, c, b, sc, ways, OwnedIn(st))
    decreases b, 2, ways
  {
    EvalMovesExactly(p, tys, c, st, {});
    AssignedNamesOwners(p, tys, sc, c, d, st, {});
    if ways.Cons? {
      AssignedOwnOnWay(p, tys, b, sc, d, st, ways.head);
      EveryPathAgrees(p, tys, b, ways.head, st);
      AssignedOwnInLoop(p, tys, c, b, sc, d, st, ways.tail);
    }
  }

  lemma {:induction false} AssignedOwnInArm(p: Program, tys: map<Name, Ty>, arms: List<Arm>, owner: Name, byValue: bool,
      sc: Scope, d: set<Name>, st: StateMap, choice: nat, way: Path)
    requires arms.Cons? && WfArms(p, tys, arms, owner, byValue, sc, d) && d <= st.Keys
    requires AnalyzeArms(p, tys, arms, byValue, st).Some?
    ensures OwnersInArm(p, tys, arms, byValue, sc, choice, way, OwnedIn(st))
    decreases arms, 0
  {
    if choice > 0 && arms.tail.Cons? {
      AssignedOwnInArm(p, tys, arms.tail, owner, byValue, sc, d, st, choice - 1, way);
    } else {
      var arm, bs := arms.head, ArmBinders(arms.head, byValue);
      assert WfArm(p, tys, arm, owner, byValue, sc, d);
      EnteredState(st, bs);
      AssignedOwnOnWay(p, tys, arm.body, ArmScope(arm, byValue, sc), d + ArmOwners(arm, byValue),
        SetOwned(st, bs), way);
    }
  }

  // -------------------------------------------------------------------------
  // Owned on every way, then assigned
  // -------------------------------------------------------------------------

  // Owners have been assigned, and stay so.
  lemma {:induction false} OwnersAreAssigned(p: Program, tys: map<Name, Ty>, s: Stmt, d: set<Name>, st: StateMap)
    requires OwnedIn(st) <= d
    requires AnalyzeStmt(p, tys, s, st).Some?
    ensures OwnedIn(AnalyzeStmt(p, tys, s, st).value.st) <= AssignedAfter(tys, s, d)
    decreases s, 1
  {
    match s
    case Assign(x, rhs) => TargetIsAssigned(p, tys, x, rhs, d, st);
    case Write(target, rhs) =>
      EvalMovesExactly(p, tys, target, st, {});
      TakeMovesExactly(p, tys, rhs, EvalExpr(p, tys, target, st, {}).value);
    case Block(ss) => AllOwnersAreAssigned(p, tys, ss, d, st);
    case If(c, t, e) =>
      EvalMovesExactly(p, tys, c, st, {});
      var st1 := EvalExpr(p, tys, c, st, {}).value;
      OwnersAreAssigned(p, tys, t, d, st1);
      OwnersAreAssigned(p, tys, e, d, st1);
      var b1, b2 := AnalyzeStmt(p, tys, t, st1).value.st, AnalyzeStmt(p, tys, e, st1).value.st;
      JoinKeys([b1, b2]);
      assert b2 in [b1, b2];
    case While(_, _) =>
    case Output(e) => EvalMovesExactly(p, tys, e, st, {});
    case Error(e) => EvalMovesExactly(p, tys, e, st, {});
    case Case(e, arms) =>
      TakeMovesExactly(p, tys, e, st);
      if arms.Cons? {
        var st1 := Take(p, tys, e, st).value;
        var branches := AnalyzeArms(p, tys, arms, Consuming(e), st1).value.0;
        JoinKeys(branches);
        ArmsOwnersAreAssigned(p, tys, arms, Consuming(e), d, st1, OwnedIn(branches[0]));
      }
    case Destroy(_, _) =>
  }

  lemma {:induction false} TargetIsAssigned(p: Program, tys: map<Name, Ty>, x: Name, rhs: Expr, d: set<Name>,
      st: StateMap)
    requires OwnedIn(st) <= d
    requires AnalyzeStmt(p, tys, Assign(x, rhs), st).Some?
    ensures OwnedIn(AnalyzeStmt(p, tys, Assign(x, rhs), st).value.st) <= AssignedAfter(tys, Assign(x, rhs), d)
  {
    TakeMovesExactly(p, tys, rhs, st);
    var st1 := Take(p, tys, rhs, st).value;
    assert OwnedIn(st1) <= d;
    forall y | y in OwnedIn(AnalyzeStmt(p, tys, Assign(x, rhs), st).value.st)
      ensures y in AssignedAfter(tys, Assign(x, rhs), d)
    {
      assert y in OwnedIn(st1) || y == x;
    }
  }

  lemma {:induction false} AllOwnersAreAssigned(p: Program, tys: map<Name, Ty>, ss: List<Stmt>, d: set<Name>,
      st: StateMap)
    requires OwnedIn(st) <= d
    requires AnalyzeStmts(p, tys, ss, st).Some?
    ensures OwnedIn(AnalyzeStmts(p, tys, ss, st).value.st) <= AssignedAfterAll(tys, ss, d)
    decreases ss, 0
  {
    match ss
    case Nil =>
    case Cons(s, t) =>
      OwnersAreAssigned(p, tys, s, d, st);
      AllOwnersAreAssigned(p, tys, t, AssignedAfter(tys, s, d), AnalyzeStmt(p, tys, s, st).value.st);
  }

  lemma {:induction false} ArmsOwnersAreAssigned(p: Program, tys: map<Name, Ty>, arms: List<Arm>, byValue: bool,
      d: set<Name>, st: StateMap, own: set<Name>)
    requires arms.Cons? && OwnedIn(st) <= d
    requires AnalyzeArms(p, tys, arms, byValue, st).Some?
    requires forall b | b in AnalyzeArms(p, tys, arms, byValue, st).value.0 :: OwnedIn(b) == own
    ensures own <= AssignedAfterArms(tys, arms, byValue, d)
    decreases arms, 0
  {
    var arm := arms.head;
    var a := AnalyzeArm(p, tys, arm, byValue, st).value;
    var rest := AnalyzeArms(p, tys, arms.tail, byValue, st).value.0;
    assert AnalyzeArms(p, tys, arms, byValue, st).value.0 == [a.st] + rest;
    assert a.st in [a.st] + rest;
    var bs := ArmBinders(arm, byValue);
    EnteredState(st, bs);
    OwnersAreAssigned(p, tys, arm.body, d + ArmOwners(arm, byValue), SetOwned(st, bs));
    RestoredState(AnalyzeStmt(p, tys, arm.body, SetOwned(st, bs)).value.st, bs, st);
    if arms.tail.Cons? {
      assert forall b | b in rest :: b in [a.st] + rest;
      ArmsOwnersAreAssigned(p, tys, arms.tail, byValue, d, st, own);
    }
  }

  ghost predicate Always(p: Program, tys: map<Name, Ty>, s: Stmt, sc: Scope, own: set<Name>) {
    forall way :: OwnersOnWay(p, tys, s, sc, way, own)
  }

  ghost predicate AlwaysAll(p: Program, tys: map<Name, Ty>, ss: List<Stmt>, sc: Scope, own: set<Name>) {
    forall ways :: OwnersOnWays(p, tys, ss, sc, ways, own)
  }

  ghost predicate AlwaysInArms(p: Program, tys: map<Name, Ty>, arms: List<Arm>, byValue: bool, sc: Scope,
      own: set<Name>)
    requires arms.Cons?
  {
    forall choice: nat, way :: OwnersInArm(p, tys, arms, byValue, sc, choice, way, own)
  }

  lemma {:induction false} OwnedIsAssigned(p: Program, tys: map<Name, Ty>, s: Stmt, sc: Scope, d: set<Name>,
      st: StateMap)
    requires OwnedIn(st) <= d
    requires AnalyzeStmt(p, tys, s, st).Some?
    requires Always(p, tys, s, sc, OwnedIn(st))
    ensures AssignedStmt(tys, s, sc, d)
    decreases s, 1
  {
    var own, straight := OwnedIn(st), Path(0, Nil);
    assert OwnersOnWay(p, tys, s, sc, straight, own);
    match s
    case Assign(_, rhs) => OwnersNamedAreAssigned(p, tys, sc, rhs, own, d);
    case Write(target, rhs) =>
      OwnersNamedAreAssigned(p, tys, sc, target, own, d);
      OwnersNamedAreAssigned(p, tys, sc, rhs, own - MovedBy(p, tys, target), d);
    case Block(ss) =>
      forall ways
        ensures OwnersOnWays(p, tys, ss, sc, ways, own)
      {
        assert OwnersOnWay(p, tys, s, sc, Path(0, ways), own);
      }
      AllOwnedIsAssigned(p, tys, ss, sc, d, st);
    case If(c, t, e) => OwnedIsAssignedIf(p, tys, c, t, e, sc, d, st);
    case While(c, b) => OwnedIsAssignedWhile(p, tys, c, b, sc, d, st);
    case Output(e) => OwnersNamedAreAssigned(p, tys, sc, e, own, d);
    case Error(e) => OwnersNamedAreAssigned(p, tys, sc, e, own, d);
    case Case(e, arms) =>
      OwnersNamedAreAssigned(p, tys, sc, e, own, d);
      TakeMovesExactly(p, tys, e, st);
      if arms.Cons? {
        forall choice: nat, way
          ensures OwnersInArm(p, tys, arms, Consuming(e), sc, choice, way, own - TakenBy(p, tys, e))
        {
          assert OwnersOnWay(p, tys, s, sc, Path(choice, Cons(way, Nil)), own);
        }
        ArmsOwnedIsAssigned(p, tys, arms, Consuming(e), sc, d, Take(p, tys, e, st).value);
      }
    case Destroy(_, _) =>
  }

  lemma {:induction false} OwnedIsAssignedIf(p: Program, tys: map<Name, Ty>, c: Expr, t: Stmt, e: Stmt, sc: Scope,
      d: set<Name>, st: StateMap)
    requires OwnedIn(st) <= d
    requires AnalyzeStmt(p, tys, If(c, t, e), st).Some?
    requires Always(p, tys, If(c, t, e), sc, OwnedIn(st))
    ensures AssignedStmt(tys, If(c, t, e), sc, d)
    decreases If(c, t, e), 0
  {
    var own, st1 := OwnedIn(st), EvalExpr(p, tys, c, st, {}).value;
    assert OwnersOnWay(p, tys, If(c, t, e), sc, Path(0, Nil), own);
    EvalMovesExactly(p, tys, c, st, {});
    OwnersNamedAreAssigned(p, tys, sc, c, own, d);
    forall way
      ensures OwnersOnWay(p, tys, t, sc, way, OwnedIn(st1)) && OwnersOnWay(p, tys, e, sc, way, OwnedIn(st1))
    {
      assert OwnersOnWay(p, tys, If(c, t, e), sc, Path(0, Cons(way, Nil)), own);
      assert OwnersOnWay(p, tys, If(c, t, e), sc, Path(1, Cons(way, Nil)), own);
    }
    OwnedIsAssigned(p, tys, t, sc, d, st1);
    OwnedIsAssigned(p, tys, e, sc, d, st1);
  }

  lemma {:induction false} OwnedIsAssignedWhile(p: Program, tys: map<Name, Ty>, c: Expr, b: Stmt, sc: Scope,
      d: set<Name>, st: StateMap)
    requires OwnedIn(st) <= d
    requires AnalyzeStmt(p, tys, While(c, b), st).Some?
    requires Always(p, tys, While(c, b), sc, OwnedIn(st))
    ensures AssignedStmt(tys, While(c, b), sc, d)
    decreases While(c, b), 0
  {
    var own := OwnedIn(st);
    assert OwnersOnWay(p, tys, While(c, b), sc, Path(0, Nil), own);
    assert OwnersInLoop(p, tys, c, b, sc, Nil, own);
    EvalMovesExactly(p, tys, c, st, {});
    OwnersNamedAreAssigned(p, tys, sc, c, own, d);
    forall way
      ensures OwnersOnWay(p, tys, b, sc, way, own)
    {
      assert OwnersOnWay(p, tys, While(c, b), sc, Path(0, Cons(way, Nil)), own);
      assert OwnersInLoop(p, tys, c, b, sc, Cons(way, Nil), own);
    }
    OwnedIsAssigned(p, tys, b, sc, d, st);
  }

  lemma {:induction false} AllOwnedIsAssigned(p: Program, tys: map<Name, Ty>, ss: List<Stmt>, sc: Scope, d: set<Name>,
      st: StateMap)
    requires OwnedIn(st) <= d
    requires AnalyzeStmts(p, tys, ss, st).Some?
    requires AlwaysAll(p, tys, ss, sc, OwnedIn(st))
    ensures AssignedStmts(tys, ss, sc, d)
    decreases ss, 0
  {
    match ss
    case Nil =>
    case Cons(s, t) =>
      var own, st1 := OwnedIn(st), AnalyzeStmt(p, tys, s, st).value.st;
      forall way
        ensures OwnersOnWay(p, tys, s, sc, way, own)
      {
        assert OwnersOnWays(p, tys, ss, sc, Cons(way, Nil), own);
      }
      forall ways
        ensures OwnersOnWays(p, tys, t, sc, ways, OwnedIn(st1))
      {
        assert OwnersOnWays(p, tys, ss, sc, Cons(Path(0, Nil), ways), own);
        EveryPathAgrees(p, tys, s, Path(0, Nil), st);
      }
      OwnedIsAssigned(p, tys, s, sc, d, st);
      OwnersAreAssigned(p, tys, s, d, st);
      AllOwnedIsAssigned(p, tys, t, sc, AssignedAfter(tys, s, d), st1);
  }

  lemma {:induction false} ArmsOwnedIsAssigned(p: Program, tys: map<Name, Ty>, arms: List<Arm>, byValue: bool,
      sc: Scope, d: set<Name>, st: StateMap)
    requires arms.Cons? && OwnedIn(st) <= d
    requires AnalyzeArms(p, tys, arms, byValue, st).Some?
    requires AlwaysInArms(p, tys, arms, byValue, sc, OwnedIn(st))
    ensures AssignedArms(tys, arms, byValue, sc, d)
    decreases arms, 0
  {
    var arm, own, bs := arms.head, OwnedIn(st), ArmBinders(arms.head, byValue);
    EnteredState(st, bs);
    forall way
      ensures OwnersOnWay(p, tys, arm.body, ArmScope(arm, byValue, sc), way, OwnedIn(SetOwned(st, bs)))
    {
      assert OwnersInArm(p, tys, arms, byValue, sc, 0, way, own);
    }
    OwnedIsAssigned(p, tys, arm.body, ArmScope(arm, byValue, sc), d + ArmOwners(arm, byValue),
      SetOwned(st, bs));
    if arms.tail.Cons? {
      forall choice: nat, way
        ensures OwnersInArm(p, tys, arms.tail, byValue, sc, choice, way, own)
      {
        assert OwnersInArm(p, tys, arms, byValue, sc, choice + 1, way, own);
      }
      ArmsOwnedIsAssigned(p, tys, arms.tail, byValue, sc, d, st);
    }
  }

  // Definite assignment is exact: an accepted function meets it if and only if on
  // every way through it, whatever branches and iterations it takes, each owner
  // named owns at that point.
  lemma {:induction false} AssignedExactly(p: Program, f: Fun)
    requires TypedFun(p, f)
    requires AnalyzeFunction(p, f).Some?
    ensures AssignedFun(f) <==> forall ways :: OwnersOnRun(p, f, ways)
  {
    var st, sc := Entry(f), FunScope(f);
    var d, out := st.Keys, AnalyzeStmts(p, f.tys, f.body, st).value.st;
    assert OwnedIn(st) == d;
    if AssignedFun(f) {
      forall ways
        ensures OwnersOnRun(p, f, ways)
      {
        AssignedOwnOnWays(p, f.tys, f.body, sc, d, st, ways);
        AllAssignedAreTracked(p, f.tys, f.body, sc, d, st);
        EveryPathAgreesAll(p, f.tys, f.body, ways, st);
        AssignedTakesOwners(p, f.tys, sc, f.ret, AssignedAfterAll(f.tys, f.body, d), out);
      }
    }
    if forall ways :: OwnersOnRun(p, f, ways) {
      forall ways
        ensures OwnersOnWays(p, f.tys, f.body, sc, ways, OwnedIn(st))
      {
        assert OwnersOnRun(p, f, ways);
      }
      AllOwnedIsAssigned(p, f.tys, f.body, sc, d, st);
      AllOwnersAreAssigned(p, f.tys, f.body, d, st);
      assert OwnersOnRun(p, f, Nil);
      EveryPathAgreesAll(p, f.tys, f.body, Nil, st);
      OwnersNamedAreAssigned(p, f.tys, sc, f.ret, OwnedIn(out), AssignedAfterAll(f.tys, f.body, d));
    }
  }
}
