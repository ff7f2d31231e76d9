/** What the passes before MoveAnalysis establish about a function (types, borrow
    positions, pattern arities), and what no pass establishes: that owners are
    assigned before they are named, which safety needs, and the care that keeps a
    run from straying (write targets left alone, some arm for every value, no
    owner bound twice, no name bound at two types). */
module Static {
  import opened Optional
  import opened Syntax
  import opened Moves

  // Names in scope, and among them the binders of a borrowed match that name an
  // owned payload: BorrowChecker's aliases.
  datatype Scope = Scope(names: set<Name>, aliases: set<Name>)

  // The position an expression is evaluated in: its value is taken, it is a
  // call's actual, or it is only looked at (under `*`, or as `case *` scrutinee).
  datatype Pos = Taken | Argument | Place

  // The type of an expression, if it is typed and every borrow, alias and
  // dereference in it stands where BorrowChecker allows it.
  function TypeOf(p: Program, tys: map<Name, Ty>, sc: Scope, e: Expr, pos: Pos): Option<Ty>
    decreases e, 1
  {
    match e
    case Num(_) => Some(TInt)
    case Input => Some(TInt)
    case Var(x) =>
      if x !in sc.names || x !in tys then None
      else if !pos.Place? && x in sc.aliases then None
      else if pos.Taken? && tys[x].TBorrow? then None
      else Some(tys[x])
    case Bin(_, l, r) =>
      if TypeOf(p, tys, sc, l, Taken) == Some(TInt) && TypeOf(p, tys, sc, r, Taken) == Some(TInt)
      then Some(TInt) else None
    case Alloc(i) => if TypeOf(p, tys, sc, i, Taken) == Some(TInt) then Some(TOwn) else None
    case New(tag, args) =>
      if tag in p.ctors && TypedAll(p, tys, sc, args, p.ctors[tag].params, Taken)
      then Some(TSum(p.ctors[tag].owner)) else None
    case Call(f, args) =>
      if f in p.funs && TypedAll(p, tys, sc, args, FormalTys(p.funs[f].formals, p.funs[f].tys), Argument)
      then Some(p.funs[f].retTy) else None
    case Deref(q) =>
      (match TypeOf(p, tys, sc, q, Place)
       case Some(TOwn) => Some(TInt)
       case Some(TBorrow(t)) => if pos.Place? || !IsOwn(t) then Some(t) else None
       case _ => None)
    case Borrow(x) =>
      if pos.Argument? && x in sc.names && x in tys && !tys[x].TBorrow? then Some(TBorrow(tys[x])) else None
  }

  predicate TypedAll(p: Program, tys: map<Name, Ty>, sc: Scope, es: List<Expr>, ts: List<Ty>, pos: Pos)
    decreases es, 0
  {
    match es
    case Nil => ts.Nil?
    case Cons(e, t) =>
      ts.Cons? && TypeOf(p, tys, sc, e, pos) == Some(ts.head) && TypedAll(p, tys, sc, t, ts.tail, pos)
  }

  // Every owner an expression names has been assigned: it is in done.
  predicate Assigned(tys: map<Name, Ty>, sc: Scope, done: set<Name>, e: Expr)
    decreases e, 1
  {
    match e
    case Num(_) => true
    case Input => true
    case Var(x) => IsOwnVar(tys, x) && x !in sc.aliases ==> x in done
    case Borrow(x) => IsOwnVar(tys, x) && x !in sc.aliases ==> x in done
    case Bin(_, l, r) => Assigned(tys, sc, done, l) && Assigned(tys, sc, done, r)
    case Alloc(i) => Assigned(tys, sc, done, i)
    case Deref(q) => Assigned(tys, sc, done, q)
    case New(_, args) => AssignedAll(tys, sc, done, args)
    case Call(_, args) => AssignedAll(tys, sc, done, args)
  }

  predicate AssignedAll(tys: map<Name, Ty>, sc: Scope, done: set<Name>, es: List<Expr>)
    decreases es, 0
  {
    match es
    case Nil => true
    case Cons(e, t) => Assigned(tys, sc, done, e) && AssignedAll(tys, sc, done, t)
  }

  // -------------------------------------------------------------------------
  // Patterns
  // -------------------------------------------------------------------------

  predicate PatTyped(p: Program, q: Pat, ty: Ty)
    decreases q, 1
  {
    match q
    case PVar(_, t) => t == ty
    case PWild => true
    case PCtor(tag, subs) =>
      tag in p.ctors && ty == TSum(p.ctors[tag].owner) && PatsTyped(p, subs, p.ctors[tag].params)
  }

  predicate PatsTyped(p: Program, qs: List<Pat>, ts: List<Ty>)
    decreases qs, 0
  {
    match qs
    case Nil => ts.Nil?
    case Cons(q, t) => ts.Cons? && PatTyped(p, q, ts.head) && PatsTyped(p, t, ts.tail)
  }

  // What matching can see of a value: its constructors, and nothing of the rest.
  datatype Shape = Atom | Con(tag: Name, subs: List<Shape>)

  predicate HasType(cs: map<Name, Ctor>, sh: Shape, ty: Ty)
    decreases sh, 1
  {
    match sh
    case Atom => !ty.TSum?
    case Con(tag, subs) => tag in cs && ty == TSum(cs[tag].owner) && HaveTypes(cs, subs, cs[tag].params)
  }

  predicate HaveTypes(cs: map<Name, Ctor>, shs: List<Shape>, ts: List<Ty>)
    decreases shs, 0
  {
    match shs
    case Nil => ts.Nil?
    case Cons(sh, t) => ts.Cons? && HasType(cs, sh, ts.head) && HaveTypes(cs, t, ts.tail)
  }

  predicate Matches(q: Pat, sh: Shape)
    decreases q, 1
  {
    match q
    case PVar(_, _) => true
    case PWild => true
    case PCtor(tag, subs) => sh.Con? && sh.tag == tag && AllMatch(subs, sh.subs)
  }

  predicate AllMatch(qs: List<Pat>, shs: List<Shape>)
    decreases qs, 0
  {
    match qs
    case Nil => true
    case Cons(q, t) => shs.Cons? && Matches(q, shs.head) && AllMatch(t, shs.tail)
  }

  predicate SomeArm(arms: List<Arm>, sh: Shape) {
    match arms
    case Nil => false
    case Cons(arm, t) => (sh.Con? && arm.tag == sh.tag && AllMatch(arm.pats, sh.subs)) || SomeArm(t, sh)
  }

  // Whatever value of the sum type is matched, some arm takes it.
  ghost predicate Exhaustive(cs: map<Name, Ctor>, arms: List<Arm>, owner: Name) {
    forall sh | HasType(cs, sh, TSum(owner)) :: SomeArm(arms, sh)
  }

  // -------------------------------------------------------------------------
  // Statements
  // -------------------------------------------------------------------------

  // The owners certainly assigned after a statement, from those before it.
  function AssignedAfter(tys: map<Name, Ty>, s: Stmt, d: set<Name>): set<Name>
    decreases s, 1
  {
    match s
    case Assign(x, _) => if IsOwnVar(tys, x) then d + {x} else d
    case Write(_, _) => d
    case Block(ss) => AssignedAfterAll(tys, ss, d)
    case If(_, t, e) => AssignedAfter(tys, t, d) * AssignedAfter(tys, e, d)
    case While(_, _) => d
    case Output(_) => d
    case Error(_) => d
    case Case(e, arms) => if arms.Nil? then d else AssignedAfterArms(tys, arms, Consuming(e), d)
    case Destroy(_, _) => d
  }

  function AssignedAfterAll(tys: map<Name, Ty>, ss: List<Stmt>, d: set<Name>): set<Name>
    decreases ss, 0
  {
    match ss
    case Nil => d
    case Cons(s, t) => AssignedAfterAll(tys, t, AssignedAfter(tys, s, d))
  }

  function ArmOwners(arm: Arm, byValue: bool): set<Name> {
    Elems(ArmBinders(arm, byValue))
  }

  function AssignedAfterArm(tys: map<Name, Ty>, arm: Arm, byValue: bool, d: set<Name>): set<Name>
    decreases arm, 0
  {
    var bs := ArmOwners(arm, byValue);
    (AssignedAfter(tys, arm.body, d + bs) - bs) + (d * bs) + Repeated(ArmBinders(arm, byValue))
  }

  function AssignedAfterArms(tys: map<Name, Ty>, arms: List<Arm>, byValue: bool, d: set<Name>): set<Name>
    requires arms.Cons?
    decreases arms, 0
  {
    var first := AssignedAfterArm(tys, arms.head, byValue, d);
    if arms.tail.Nil? then first else first * AssignedAfterArms(tys, arms.tail, byValue, d)
  }

  // The scope of an arm's body. A binder hides any alias of the same name; an
  // owned binder of a borrowed match is an alias itself.
  function ArmScope(arm: Arm, byValue: bool, sc: Scope): Scope {
    var bs := Elems(BindersOf(arm.pats));
    var own := Elems(Names(OwnedBindersOf(arm.pats)));
    Scope(sc.names + bs, (sc.aliases - bs) + if byValue then {} else own)
  }

  // What the passes before it make sure of.
  predicate TypedStmt(p: Program, tys: map<Name, Ty>, s: Stmt, sc: Scope)
    decreases s, 1
  {
    match s
    case Assign(x, rhs) =>
      && x in sc.names && x !in sc.aliases && x in tys && !tys[x].TBorrow?
      && TypeOf(p, tys, sc, rhs, Taken) == Some(tys[x])
    case Write(target, rhs) =>
      && TypeOf(p, tys, sc, target, Place) in {Some(TOwn), Some(TBorrow(TInt))}
      && TypeOf(p, tys, sc, rhs, Taken) == Some(TInt)
    case Block(ss) => TypedStmts(p, tys, ss, sc)
    case If(c, t, e) =>
      TypeOf(p, tys, sc, c, Taken) == Some(TInt) && TypedStmt(p, tys, t, sc) && TypedStmt(p, tys, e, sc)
    case While(c, b) => TypeOf(p, tys, sc, c, Taken) == Some(TInt) && TypedStmt(p, tys, b, sc)
    case Output(e) => TypeOf(p, tys, sc, e, Taken) == Some(TInt)
    case Error(e) => TypeOf(p, tys, sc, e, Taken) == Some(TInt)
    case Case(e, arms) =>
      var ty := TypeOf(p, tys, sc, e, if Consuming(e) then Taken else Place);
      && ty.Some? && ty.value.TSum?
      && arms.Cons?
      && TypedArms(p, tys, arms, ty.value.name, Consuming(e), sc)
    case Destroy(_, _) => false
  }

  predicate TypedStmts(p: Program, tys: map<Name, Ty>, ss: List<Stmt>, sc: Scope)
    decreases ss, 0
  {
    match ss
    case Nil => true
    case Cons(s, t) => TypedStmt(p, tys, s, sc) && TypedStmts(p, tys, t, sc)
  }

  predicate TypedArm(p: Program, tys: map<Name, Ty>, arm: Arm, owner: Name, byValue: bool, sc: Scope)
    decreases arm, 0
  {
    && arm.tag in p.ctors && p.ctors[arm.tag].owner == owner
    && PatsTyped(p, arm.pats, p.ctors[arm.tag].params)
    && (!byValue ==> Elems(Names(OwnedBindersOf(arm.pats))) !! sc.names)
    && TypedStmt(p, tys, arm.body, ArmScope(arm, byValue, sc))
  }

  predicate TypedArms(p: Program, tys: map<Name, Ty>, arms: List<Arm>, owner: Name, byValue: bool, sc: Scope)
    decreases arms, 0
  {
    match arms
    case Nil => true
    case Cons(arm, t) => TypedArm(p, tys, arm, owner, byValue, sc) && TypedArms(p, tys, t, owner, byValue, sc)
  }

  // Definite assignment: every owner named has been assigned whichever way the
  // statement was reached. No pass makes sure of it.
  predicate AssignedStmt(tys: map<Name, Ty>, s: Stmt, sc: Scope, d: set<Name>)
    decreases s, 1
  {
    match s
    case Assign(_, rhs) => Assigned(tys, sc, d, rhs)
    case Write(target, rhs) => Assigned(tys, sc, d, target) && Assigned(tys, sc, d, rhs)
    case Block(ss) => AssignedStmts(tys, ss, sc, d)
    case If(c, t, e) => Assigned(tys, sc, d, c) && AssignedStmt(tys, t, sc, d) && AssignedStmt(tys, e, sc, d)
    case While(c, b) => Assigned(tys, sc, d, c) && AssignedStmt(tys, b, sc, d)
    case Output(e) => Assigned(tys, sc, d, e)
    case Error(e) => Assigned(tys, sc, d, e)
    case Case(e, arms) => Assigned(tys, sc, d, e) && AssignedArms(tys, arms, Consuming(e), sc, d)
    case Destroy(_, _) => true
  }

  predicate AssignedStmts(tys: map<Name, Ty>, ss: List<Stmt>, sc: Scope, d: set<Name>)
    decreases ss, 0
  {
    match ss
    case Nil => true
    case Cons(s, t) => AssignedStmt(tys, s, sc, d) && AssignedStmts(tys, t, sc, AssignedAfter(tys, s, d))
  }

  predicate AssignedArm(tys: map<Name, Ty>, arm: Arm, byValue: bool, sc: Scope, d: set<Name>)
    decreases arm, 0
  {
    AssignedStmt(tys, arm.body, ArmScope(arm, byValue, sc), d + ArmOwners(arm, byValue))
  }

  predicate AssignedArms(tys: map<Name, Ty>, arms: List<Arm>, byValue: bool, sc: Scope, d: set<Name>)
    decreases arms, 0
  {
    match arms
    case Nil => true
    case Cons(arm, t) => AssignedArm(tys, arm, byValue, sc, d) && AssignedArms(tys, t, byValue, sc, d)
  }

  predicate WfStmt(p: Program, tys: map<Name, Ty>, s: Stmt, sc: Scope, d: set<Name>) {
    TypedStmt(p, tys, s, sc) && AssignedStmt(tys, s, sc, d)
  }

  predicate WfStmts(p: Program, tys: map<Name, Ty>, ss: List<Stmt>, sc: Scope, d: set<Name>) {
    TypedStmts(p, tys, ss, sc) && AssignedStmts(tys, ss, sc, d)
  }

  predicate WfArm(p: Program, tys: map<Name, Ty>, arm: Arm, owner: Name, byValue: bool, sc: Scope, d: set<Name>) {
    TypedArm(p, tys, arm, owner, byValue, sc) && AssignedArm(tys, arm, byValue, sc, d)
  }

  predicate WfArms(p: Program, tys: map<Name, Ty>, arms: List<Arm>, owner: Name, byValue: bool, sc: Scope,
      d: set<Name>) {
    TypedArms(p, tys, arms, owner, byValue, sc) && AssignedArms(tys, arms, byValue, sc, d)
  }

  predicate Unborrowed(ts: List<Ty>) {
    match ts
    case Nil => true
    case Cons(t, rest) => !t.TBorrow? && Unborrowed(rest)
  }

  function FunScope(f: Fun): Scope {
    Scope(Elems(f.formals) + f.locals, {})
  }

  predicate TypedFun(p: Program, f: Fun) {
    var sc := FunScope(f);
    && Distinct(f.formals) && Elems(f.formals) !! f.locals
    && sc.names <= f.tys.Keys
    && (forall x | x in f.locals :: !f.tys[x].TBorrow?)
    && (forall x | x in f.tys :: f.tys[x].TBorrow? ==> !f.tys[x].referent.TBorrow?)
    && !f.retTy.TBorrow?
    && TypedStmts(p, f.tys, f.body, sc)
    && TypeOf(p, f.tys, sc, f.ret, Taken) == Some(f.retTy)
  }

  predicate AssignedFun(f: Fun) {
    var sc, d := FunScope(f), Entry(f).Keys;
    && AssignedStmts(f.tys, f.body, sc, d)
    && Assigned(f.tys, sc, AssignedAfterAll(f.tys, f.body, d), f.ret)
  }

  predicate WfFun(p: Program, f: Fun) {
    TypedFun(p, f) && AssignedFun(f)
  }

  // A program every pass accepts and that assigns owners before naming them.
  predicate Accepted(p: Program) {
    && (forall c | c in p.ctors :: Unborrowed(p.ctors[c].params))
    && (forall f {:trigger FunAccepted(p, f)} :: f in p.funs ==> FunAccepted(p, f))
  }

  predicate FunAccepted(p: Program, f: Name)
    requires f in p.funs
  {
    WfFun(p, p.funs[f]) && AnalyzeFunction(p, p.funs[f]).Some?
  }

  // -------------------------------------------------------------------------
  // Care that no pass takes
  // -------------------------------------------------------------------------

  function OwnerOf(cs: map<Name, Ctor>, arms: List<Arm>): Name {
    if arms.Cons? && arms.head.tag in cs then cs[arms.head.tag].owner else 0
  }

  ghost predicate CarefulStmt(p: Program, tys: map<Name, Ty>, s: Stmt)
    decreases s, 1
  {
    match s
    case Assign(_, _) => true
    case Write(target, rhs) => target.Var? ==> target.x !in MovedBy(p, tys, rhs)
    case Block(ss) => CarefulStmts(p, tys, ss)
    case If(_, t, e) => CarefulStmt(p, tys, t) && CarefulStmt(p, tys, e)
    case While(_, b) => CarefulStmt(p, tys, b)
    case Output(_) => true
    case Error(_) => true
    case Case(e, arms) => Exhaustive(p.ctors, arms, OwnerOf(p.ctors, arms)) && CarefulArms(p, tys, arms, Consuming(e))
    case Destroy(_, _) => true
  }

  ghost predicate CarefulStmts(p: Program, tys: map<Name, Ty>, ss: List<Stmt>)
    decreases ss, 0
  {
    match ss
    case Nil => true
    case Cons(s, t) => CarefulStmt(p, tys, s) && CarefulStmts(p, tys, t)
  }

  ghost predicate CarefulArms(p: Program, tys: map<Name, Ty>, arms: List<Arm>, byValue: bool)
    decreases arms, 0
  {
    match arms
    case Nil => true
    case Cons(arm, t) =>
      && AllUsedAsBound(tys, arm.pats) && Linear(arm, byValue)
      && CarefulStmt(p, tys, arm.body) && CarefulArms(p, tys, t, byValue)
  }

  ghost predicate Careful(p: Program) {
    forall f | f in p.funs :: CarefulStmts(p, p.funs[f].tys, p.funs[f].body)
  }
}
