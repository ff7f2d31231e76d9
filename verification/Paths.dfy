/** Path independence: which variables own after an accepted statement does not
    depend on the branches taken or on how often its loops ran. */
module Paths {
  import opened Optional
  import opened Syntax
  import opened Moves
  import opened Static
  import opened Facts

  // One way through a statement. At a branch, choice picks the arm; subs are the
  // ways through its parts: one per statement of a block, one per iteration of a
  // loop, one for the branch taken. Every way through is such a tree.
  datatype Path = Path(choice: nat, subs: List<Path>)

  function First(subs: List<Path>): Path {
    if subs.Cons? then subs.head else Path(0, Nil)
  }

  function Rest(subs: List<Path>): List<Path> {
    if subs.Cons? then subs.tail else Nil
  }

  // What moving and assigning do to the owners, with no checks and no joins.
  function Follow(p: Program, tys: map<Name, Ty>, s: Stmt, way: Path, own: set<Name>): set<Name>
    decreases s, 1
  {
    match s
    case Assign(x, rhs) =>
      var left := own - TakenBy(p, tys, rhs);
      if !IsOwnVar(tys, x) then left else if rhs.Borrow? then left - {x} else left + {x}
    case Write(target, rhs) => own - MovedBy(p, tys, target) - TakenBy(p, tys, rhs)
    case Block(ss) => FollowAll(p, tys, ss, way.subs, own)
    case If(c, t, e) =>
      Follow(p, tys, if way.choice == 0 then t else e, First(way.subs), own - MovedBy(p, tys, c))
    case While(c, b) => FollowLoop(p, tys, c, b, way.subs, own)
    case Output(e) => own - MovedBy(p, tys, e)
    case Error(e) => own - MovedBy(p, tys, e)
    case Case(e, arms) =>
      var left := own - TakenBy(p, tys, e);
      if arms.Nil? then left else FollowArm(p, tys, arms, way.choice, First(way.subs), Consuming(e), left)
    case Destroy(_, _) => own
  }

  function FollowAll(p: Program, tys: map<Name, Ty>, ss: List<Stmt>, ways: List<Path>, own: set<Name>): set<Name>
    decreases ss, 0
  {
    match ss
    case Nil => own
    case Cons(s, t) => FollowAll(p, tys, t, Rest(ways), Follow(p, tys, s, First(ways), own))
  }

  // The condition is evaluated once more than the body.
  function FollowLoop(p: Program, tys: map<Name, Ty>, c: Expr, b: Stmt, ways: List<Path>, own: set<Name>): set<Name>
    decreases b, 2, ways
  {
    var own1 := own - MovedBy(p, tys, c);
    match ways
    case Nil => own1
    case Cons(way, t) => FollowLoop(p, tys, c, b, t, Follow(p, tys, b, way, own1))
  }

  // Choices past the last arm take it. Binders own for the length of the arm, and
  // so on after it when bound twice: what the second hid is the first.
  function FollowArm(p: Program, tys: map<Name, Ty>, arms: List<Arm>, choice: nat, way: Path, byValue: bool,
      own: set<Name>): set<Name>
    requires arms.Cons?
    decreases arms, 0
  {
    if choice > 0 && arms.tail.Cons? then FollowArm(p, tys, arms.tail, choice - 1, way, byValue, own)
    else
      var bs := ArmOwners(arms.head, byValue);
      (Follow(p, tys, arms.head.body, way, own + bs) - bs) + (own * bs) + Repeated(ArmBinders(arms.head, byValue))
  }

  // Exactness of the Owned set: every way through an accepted statement ends with
  // the same owners, those the analysis says, so one static destruction plan is
  // right for every run and every iteration.
  lemma {:induction false} EveryPathAgrees(p: Program, tys: map<Name, Ty>, s: Stmt, way: Path, st: StateMap)
    requires AnalyzeStmt(p, tys, s, st).Some?
    ensures Follow(p, tys, s, way, OwnedIn(st)) == OwnedIn(AnalyzeStmt(p, tys, s, st).value.st)
    decreases s, 1
  {
    match s
    case Assign(x, rhs) =>
      TakeMovesExactly(p, tys, rhs, st);
      var st1 := Take(p, tys, rhs, st).value;
      assert OwnedIn(st1[x := Owned]) == OwnedIn(st1) + {x};
      assert OwnedIn(st1 - {x}) == OwnedIn(st1) - {x};
    case Write(target, rhs) =>
      EvalMovesExactly(p, tys, target, st, {});
      TakeMovesExactly(p, tys, rhs, EvalExpr(p, tys, target, st, {}).value);
    case Block(ss) => EveryPathAgreesAll(p, tys, ss, way.subs, st);
    case If(c, t, e) =>
      EvalMovesExactly(p, tys, c, st, {});
      var st1 := EvalExpr(p, tys, c, st, {}).value;
      var b1, b2 := AnalyzeStmt(p, tys, t, st1).value.st, AnalyzeStmt(p, tys, e, st1).value.st;
      EveryPathAgrees(p, tys, t, First(way.subs), st1);
      EveryPathAgrees(p, tys, e, First(way.subs), st1);
      JoinKeys([b1, b2]);
      assert b2 in [b1, b2];
    case While(c, b) =>
      EvalMovesExactly(p, tys, c, st, {});
      EveryLoopAgrees(p, tys, c, b, way.subs, st);
    case Output(e) => EvalMovesExactly(p, tys, e, st, {});
    case Error(e) => EvalMovesExactly(p, tys, e, st, {});
    case Case(e, arms) =>
      TakeMovesExactly(p, tys, e, st);
      if arms.Cons? {
        var st1 := Take(p, tys, e, st).value;
        var branches := AnalyzeArms(p, tys, arms, Consuming(e), st1).value.0;
        JoinKeys(branches);
        EveryArmAgrees(p, tys, arms, way.choice, First(way.subs), Consuming(e), st1, OwnedIn(branches[0]));
      }
    case Destroy(_, _) =>
  }

  lemma {:induction false} EveryPathAgreesAll(p: Program, tys: map<Name, Ty>, ss: List<Stmt>, ways: List<Path>,
      st: StateMap)
    requires AnalyzeStmts(p, tys, ss, st).Some?
    ensures FollowAll(p, tys, ss, ways, OwnedIn(st)) == OwnedIn(AnalyzeStmts(p, tys, ss, st).value.st)
    decreases ss, 0
  {
    match ss
    case Nil =>
    case Cons(s, t) =>
      EveryPathAgrees(p, tys, s, First(ways), st);
      EveryPathAgreesAll(p, tys, t, Rest(ways), AnalyzeStmt(p, tys, s, st).value.st);
  }

  lemma {:induction false} EveryLoopAgrees(p: Program, tys: map<Name, Ty>, c: Expr, b: Stmt, ways: List<Path>,
      st: StateMap)
    requires EvalExpr(p, tys, c, st, {}) == Some(st)
    requires AnalyzeStmt(p, tys, b, st).Some?
    requires OwnedIn(AnalyzeStmt(p, tys, b, st).value.st) == OwnedIn(st)
    ensures FollowLoop(p, tys, c, b, ways, OwnedIn(st)) == OwnedIn(st)
    decreases b, 2, ways
  {
    EvalMovesExactly(p, tys, c, st, {});
    if ways.Cons? {
      EveryPathAgrees(p, tys, b, ways.head, st);
      EveryLoopAgrees(p, tys, c, b, ways.tail, st);
    }
  }

  lemma {:induction false} ThroughArm(p: Program, tys: map<Name, Ty>, arm: Arm, way: Path, byValue: bool, st: StateMap)
    requires AnalyzeArm(p, tys, arm, byValue, st).Some?
    ensures var bs := ArmOwners(arm, byValue);
      (Follow(p, tys, arm.body, way, OwnedIn(st) + bs) - bs) + (OwnedIn(st) * bs) + Repeated(ArmBinders(arm, byValue))
        == OwnedIn(AnalyzeArm(p, tys, arm, byValue, st).value.st)
    decreases arm, 0
  {
    var bs := ArmBinders(arm, byValue);
    EnteredState(st, bs);
    EveryPathAgrees(p, tys, arm.body, way, SetOwned(st, bs));
    RestoredState(AnalyzeStmt(p, tys, arm.body, SetOwned(st, bs)).value.st, bs, st);
  }

  lemma {:induction false} EveryArmAgrees(p: Program, tys: map<Name, Ty>, arms: List<Arm>, choice: nat, way: Path,
      byValue: bool, st: StateMap, own: set<Name>)
    requires arms.Cons? && AnalyzeArms(p, tys, arms, byValue, st).Some?
    requires forall b | b in AnalyzeArms(p, tys, arms, byValue, st).value.0 :: OwnedIn(b) == own
    ensures FollowArm(p, tys, arms, choice, way, byValue, OwnedIn(st)) == own
    decreases arms, 0
  {
    var arm := arms.head;
    var a := AnalyzeArm(p, tys, arm, byValue, st).value;
    var rest := AnalyzeArms(p, tys, arms.tail, byValue, st).value.0;
    assert AnalyzeArms(p, tys, arms, byValue, st).value.0 == [a.st] + rest;
    if choice > 0 && arms.tail.Cons? {
      assert forall b | b in rest :: b in [a.st] + rest;
      EveryArmAgrees(p, tys, arms.tail, choice - 1, way, byValue, st, own);
    } else {
      ThroughArm(p, tys, arm, way, byValue, st);
      assert a.st in [a.st] + rest;
    }
  }

  // All ways through s, from the same owners, end with the same owners.
  ghost predicate Agree(p: Program, tys: map<Name, Ty>, s: Stmt, own: set<Name>) {
    forall w1, w2 :: Follow(p, tys, s, w1, own) == Follow(p, tys, s, w2, own)
  }

  lemma {:induction false} AcceptedAgrees(p: Program, tys: map<Name, Ty>, s: Stmt, st: StateMap)
    requires AnalyzeStmt(p, tys, s, st).Some?
    ensures Agree(p, tys, s, OwnedIn(st))
  {
    forall w1, w2
      ensures Follow(p, tys, s, w1, OwnedIn(st)) == Follow(p, tys, s, w2, OwnedIn(st))
    {
      EveryPathAgrees(p, tys, s, w1, st);
      EveryPathAgrees(p, tys, s, w2, st);
    }
  }

  // The checker asks for no more than that: once the parts of a branch or a loop
  // are accepted, the whole is accepted exactly when all ways through it agree.
  lemma {:induction false} BranchAcceptedExactly(p: Program, tys: map<Name, Ty>, c: Expr, t: Stmt, e: Stmt,
      st: StateMap)
    requires EvalExpr(p, tys, c, st, {}).Some?
    requires AnalyzeStmt(p, tys, t, EvalExpr(p, tys, c, st, {}).value).Some?
    requires AnalyzeStmt(p, tys, e, EvalExpr(p, tys, c, st, {}).value).Some?
    ensures AnalyzeStmt(p, tys, If(c, t, e), st).Some? <==> Agree(p, tys, If(c, t, e), OwnedIn(st))
  {
    var s := If(c, t, e);
    if AnalyzeStmt(p, tys, s, st).Some? {
      AcceptedAgrees(p, tys, s, st);
    } else {
      var st1 := EvalExpr(p, tys, c, st, {}).value;
      var b1, b2 := AnalyzeStmt(p, tys, t, st1).value.st, AnalyzeStmt(p, tys, e, st1).value.st;
      EvalMovesExactly(p, tys, c, st, {});
      EveryPathAgrees(p, tys, t, First(Nil), st1);
      EveryPathAgrees(p, tys, e, First(Nil), st1);
      JoinsTwo(b1, b2);
      assert Follow(p, tys, s, Path(0, Nil), OwnedIn(st)) != Follow(p, tys, s, Path(1, Nil), OwnedIn(st));
    }
  }

  lemma JoinsTwo(b1: StateMap, b2: StateMap)
    ensures Join([b1, b2]).Some? <==> OwnedIn(b1) == OwnedIn(b2)
  {
    assert b1 in [b1, b2] && b2 in [b1, b2];
    assert forall b | b in [b1, b2] :: b == b1 || b == b2;
  }

  lemma {:induction false} LoopAcceptedExactly(p: Program, tys: map<Name, Ty>, c: Expr, b: Stmt, st: StateMap)
    requires EvalExpr(p, tys, c, st, {}) == Some(st)
    requires AnalyzeStmt(p, tys, b, st).Some?
    ensures AnalyzeStmt(p, tys, While(c, b), st).Some? <==> Agree(p, tys, While(c, b), OwnedIn(st))
  {
    var s := While(c, b);
    if AnalyzeStmt(p, tys, s, st).Some? {
      AcceptedAgrees(p, tys, s, st);
    } else {
      var none, once := Path(0, Nil), Path(0, Cons(Path(0, Nil), Nil));
      var out := AnalyzeStmt(p, tys, b, st).value.st;
      StableConditionMovesNothing(p, tys, c, st);
      assert OwnedIn(st) - MovedBy(p, tys, c) == OwnedIn(st);
      EveryPathAgrees(p, tys, b, Path(0, Nil), st);
      assert FollowLoop(p, tys, c, b, Nil, OwnedIn(out)) == OwnedIn(out);
      assert Follow(p, tys, s, none, OwnedIn(st)) != Follow(p, tys, s, once, OwnedIn(st));
    }
  }

  // A condition that leaves the state as it is moves nothing at all.
  lemma {:induction false} StableConditionMovesNothing(p: Program, tys: map<Name, Ty>, c: Expr, st: StateMap)
    requires EvalExpr(p, tys, c, st, {}) == Some(st)
    ensures MovedBy(p, tys, c) == {}
  {
    EvalMovesExactly(p, tys, c, st, {});
    assert forall x | x in MovedBy(p, tys, c) :: IsMoved(st, x);
  }

  lemma {:induction false} CaseAcceptedExactly(p: Program, tys: map<Name, Ty>, e: Expr, arms: List<Arm>, st: StateMap)
    requires Take(p, tys, e, st).Some? && arms.Cons?
    requires AnalyzeArms(p, tys, arms, Consuming(e), Take(p, tys, e, st).value).Some?
    ensures AnalyzeStmt(p, tys, Case(e, arms), st).Some? <==> Agree(p, tys, Case(e, arms), OwnedIn(st))
  {
    var s, st1 := Case(e, arms), Take(p, tys, e, st).value;
    var branches := AnalyzeArms(p, tys, arms, Consuming(e), st1).value.0;
    if AnalyzeStmt(p, tys, s, st).Some? {
      AcceptedAgrees(p, tys, s, st);
    } else {
      TakeMovesExactly(p, tys, e, st);
      var b :| b in branches && OwnedIn(b) != OwnedIn(branches[0]);
      var k :| 0 <= k < |branches| && branches[k] == b;
      ArmReached(p, tys, arms, 0, Path(0, Nil), Consuming(e), st1);
      ArmReached(p, tys, arms, k, Path(0, Nil), Consuming(e), st1);
      assert First(Nil) == Path(0, Nil);
      assert Follow(p, tys, s, Path(0, Nil), OwnedIn(st)) != Follow(p, tys, s, Path(k, Nil), OwnedIn(st));
    }
  }

  // Choosing an arm ends with the owners of that arm.
  lemma {:induction false} ArmReached(p: Program, tys: map<Name, Ty>, arms: List<Arm>, k: nat, way: Path, byValue: bool,
      st: StateMap)
    requires arms.Cons? && AnalyzeArms(p, tys, arms, byValue, st).Some?
    requires k < |AnalyzeArms(p, tys, arms, byValue, st).value.0|
    ensures FollowArm(p, tys, arms, k, way, byValue, OwnedIn(st))
      == OwnedIn(AnalyzeArms(p, tys, arms, byValue, st).value.0[k])
    decreases arms, 0
  {
    var rest := AnalyzeArms(p, tys, arms.tail, byValue, st).value.0;
    ThroughArm(p, tys, arms.head, way, byValue, st);
    if k > 0 {
      assert arms.tail.Cons?;
      ArmReached(p, tys, arms.tail, k - 1, way, byValue, st);
    }
  }
}
