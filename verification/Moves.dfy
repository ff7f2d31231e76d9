/** What MoveAnalysis computes: the transfer functions on the ownership state of
    a function's Own variables. None stands for the exception it throws. The plan
    it builds is applied here as DestructionPass applies it: the statement
    returned has a destroy for every owned binder still owned at its arm's end. */
module Moves {
  import opened Optional
  import opened Syntax

  datatype Ownership = Owned | Moved

  // A variable absent from the map has never been assigned.
  type StateMap = map<Name, Ownership>

  function OwnedIn(st: StateMap): set<Name> {
    set x | x in st && st[x] == Owned
  }

  predicate IsMoved(st: StateMap, x: Name) {
    x in st && st[x] == Moved
  }

  // consumeVar: held are the owners borrowed by the calls in progress.
  function Consume(x: Name, st: StateMap, held: set<Name>): Option<StateMap> {
    if IsMoved(st, x) || x in held then None else Some(st[x := Moved])
  }

  // collectBorrowedOwners: the owners borrowed anywhere inside an expression.
  function Borrowed(e: Expr): set<Name> {
    match e
    case Num(_) => {}
    case Input => {}
    case Var(_) => {}
    case Bin(_, l, r) => Borrowed(l) + Borrowed(r)
    case Alloc(i) => Borrowed(i)
    case New(_, args) => BorrowedIn(args)
    case Call(_, args) => BorrowedIn(args)
    case Deref(p) => Borrowed(p)
    case Borrow(x) => {x}
  }

  function BorrowedIn(es: List<Expr>): set<Name> {
    match es
    case Nil => {}
    case Cons(e, t) => Borrowed(e) + BorrowedIn(t)
  }

  // The consumes vector of a call effect: an owned actual meets an owned formal.
  function Consumes(p: Program, f: Name): List<bool> {
    if f in p.funs then OwnFlags(FormalTys(p.funs[f].formals, p.funs[f].tys)) else Nil
  }

  function OwnFlags(tys: List<Ty>): List<bool> {
    match tys
    case Nil => Nil
    case Cons(ty, t) => Cons(IsOwn(ty), OwnFlags(t))
  }

  // A constructor takes every payload it is given.
  function AllTaken<T>(es: List<T>): List<bool> {
    match es
    case Nil => Nil
    case Cons(_, t) => Cons(true, AllTaken(t))
  }

  function EvalExpr(p: Program, tys: map<Name, Ty>, e: Expr, st: StateMap, held: set<Name>): Option<StateMap>
    decreases e, 1
  {
    match e
    case Num(_) => Some(st)
    case Input => Some(st)
    case Var(x) => if IsOwnVar(tys, x) && IsMoved(st, x) then None else Some(st)
    case Borrow(x) => if IsOwnVar(tys, x) && IsMoved(st, x) then None else Some(st)
    case Bin(_, l, r) =>
      var st1 := EvalExpr(p, tys, l, st, held);
      if st1.None? then None else EvalExpr(p, tys, r, st1.value, held)
    case Alloc(i) => EvalExpr(p, tys, i, st, held)
    case Deref(q) => EvalExpr(p, tys, q, st, held)
    case New(_, args) => EvalOperands(p, tys, args, AllTaken(args), st, held)
    case Call(f, args) => EvalOperands(p, tys, args, Consumes(p, f), st, held + BorrowedIn(args))
  }

  // Operands in order. A variable that owns is moved by an operand that takes it.
  function EvalOperands(p: Program, tys: map<Name, Ty>, es: List<Expr>, takes: List<bool>, st: StateMap,
      held: set<Name>): Option<StateMap>
    decreases es, 0
  {
    match es
    case Nil => Some(st)
    case Cons(e, t) =>
      var taken := takes.Cons? && takes.head;
      var st1 :=
        if taken && e.Var? && IsOwnVar(tys, e.x) then Consume(e.x, st, held)
        else EvalExpr(p, tys, e, st, held);
      if st1.None? then None
      else EvalOperands(p, tys, t, if takes.Cons? then takes.tail else Nil, st1.value, held)
  }

  // The owners an expression moves when it is evaluated.
  function MovedBy(p: Program, tys: map<Name, Ty>, e: Expr): set<Name>
    decreases e, 1
  {
    match e
    case Num(_) => {}
    case Input => {}
    case Var(_) => {}
    case Borrow(_) => {}
    case Bin(_, l, r) => MovedBy(p, tys, l) + MovedBy(p, tys, r)
    case Alloc(i) => MovedBy(p, tys, i)
    case Deref(q) => MovedBy(p, tys, q)
    case New(_, args) => MovedByAll(p, tys, args, AllTaken(args))
    case Call(f, args) => MovedByAll(p, tys, args, Consumes(p, f))
  }

  function MovedByAll(p: Program, tys: map<Name, Ty>, es: List<Expr>, takes: List<bool>): set<Name>
    decreases es, 0
  {
    match es
    case Nil => {}
    case Cons(e, t) =>
      (if takes.Cons? && takes.head && e.Var? && IsOwnVar(tys, e.x) then {e.x} else MovedBy(p, tys, e))
      + MovedByAll(p, tys, t, if takes.Cons? then takes.tail else Nil)
  }

  // An expression whose value is taken whole: a right-hand side, a returned
  // value, a scrutinee. Naming an owner moves it.
  function Take(p: Program, tys: map<Name, Ty>, e: Expr, st: StateMap): Option<StateMap> {
    if e.Var? && IsOwnVar(tys, e.x) then Consume(e.x, st, {})
    else EvalExpr(p, tys, e, st, {})
  }

  // joinStates: Owned on one branch only is a disagreement; Moved on some and
  // never assigned on the others is Moved.
  function KeysOf(branches: seq<StateMap>): set<Name> {
    if branches == [] then {} else branches[0].Keys + KeysOf(branches[1..])
  }

  function Join(branches: seq<StateMap>): Option<StateMap>
    requires branches != []
  {
    if forall b | b in branches :: OwnedIn(b) == OwnedIn(branches[0]) then
      Some(Joined(KeysOf(branches), OwnedIn(branches[0])))
    else None
  }

  function Joined(xs: set<Name>, owned: set<Name>): (st: StateMap)
    ensures st.Keys == xs && forall x | x in xs :: st[x] == if x in owned then Owned else Moved
  {
    if xs == {} then map[]
    else
      var m := Least(xs);
      Joined(xs - {m}, owned)[m := if m in owned then Owned else Moved]
  }

  function OwnBinders(tys: map<Name, Ty>, bs: List<Name>): List<Name> {
    match bs
    case Nil => Nil
    case Cons(x, t) => if IsOwnVar(tys, x) then Cons(x, OwnBinders(tys, t)) else OwnBinders(tys, t)
  }

  // Still Owned at the end, in binder order.
  function Leftover(bs: List<Binder>, st: StateMap): List<Binder> {
    match bs
    case Nil => Nil
    case Cons(b, t) => if b.x in st && st[b.x] == Owned then Cons(b, Leftover(t, st)) else Leftover(t, st)
  }

  function Destroys(bs: List<Binder>): List<Stmt> {
    match bs
    case Nil => Nil
    case Cons(b, t) => Cons(Destroy(b.x, b.ty), Destroys(t))
  }

  // The binders that own for the length of their arm.
  function ArmOwned(arm: Arm, byValue: bool): List<Binder> {
    if byValue then OwnedBindersOf(arm.pats) else Nil
  }

  function ArmBinders(arm: Arm, byValue: bool): List<Name> {
    Names(ArmOwned(arm, byValue))
  }

  // They differ.
  predicate Linear(arm: Arm, byValue: bool) {
    Distinct(ArmBinders(arm, byValue))
  }

  // Each binder in turn saves the entry of its name and replaces it.
  datatype Saved = Saved(x: Name, was: Option<Ownership>)

  function SavedBy(st: StateMap, bs: List<Name>): List<Saved>
    decreases bs
  {
    match bs
    case Nil => Nil
    case Cons(x, t) => Cons(Saved(x, if x in st then Some(st[x]) else None), SavedBy(st[x := Owned], t))
  }

  function SetOwned(st: StateMap, bs: List<Name>): StateMap
    decreases bs
  {
    match bs
    case Nil => st
    case Cons(x, t) => SetOwned(st[x := Owned], t)
  }

  // The entries saved are put back in the order they were saved in.
  function PutBack(st: StateMap, saved: List<Saved>): StateMap
    decreases saved
  {
    match saved
    case Nil => st
    case Cons(e, t) => PutBack(if e.was.Some? then st[e.x := e.was.value] else st - {e.x}, t)
  }

  function Restore(st: StateMap, bs: List<Name>, before: StateMap): StateMap {
    PutBack(st, SavedBy(before, bs))
  }

  datatype Checked<+T> = Checked(st: StateMap, code: T)

  // A match is by value, and consumes its scrutinee, unless it reads `case *p`.
  predicate Consuming(scrutinee: Expr) {
    !scrutinee.Deref?
  }

  function AnalyzeStmt(p: Program, tys: map<Name, Ty>, s: Stmt, st: StateMap): Option<Checked<Stmt>>
    decreases s, 1
  {
    match s
    case Assign(x, rhs) =>
      var st1 := Take(p, tys, rhs, st);
      if st1.None? then None
      else if !IsOwnVar(tys, x) then Some(Checked(st1.value, s))
      else if rhs.Borrow? then Some(Checked(st1.value - {x}, s))
      else if x in OwnedIn(st1.value) then None
      else Some(Checked(st1.value[x := Owned], s))
    case Write(target, rhs) =>
      var st1 := EvalExpr(p, tys, target, st, {});
      if st1.None? then None
      else
        var st2 := Take(p, tys, rhs, st1.value);
        if st2.None? then None else Some(Checked(st2.value, s))
    case Block(ss) =>
      var r := AnalyzeStmts(p, tys, ss, st);
      if r.None? then None else Some(Checked(r.value.st, Block(r.value.code)))
    case If(c, t, e) =>
      var st1 := EvalExpr(p, tys, c, st, {});
      if st1.None? then None
      else
        var r1 := AnalyzeStmt(p, tys, t, st1.value);
        var r2 := AnalyzeStmt(p, tys, e, st1.value);
        if r1.None? || r2.None? then None
        else
          var j := Join([r1.value.st, r2.value.st]);
          if j.None? then None else Some(Checked(j.value, If(c, r1.value.code, r2.value.code)))
    case While(c, b) =>
      if EvalExpr(p, tys, c, st, {}) != Some(st) then None
      else
        var r := AnalyzeStmt(p, tys, b, st);
        if r.None? || OwnedIn(r.value.st) != OwnedIn(st) then None
        else Some(Checked(st, While(c, r.value.code)))
    case Output(e) =>
      var st1 := EvalExpr(p, tys, e, st, {});
      if st1.None? then None else Some(Checked(st1.value, s))
    case Error(e) =>
      var st1 := EvalExpr(p, tys, e, st, {});
      if st1.None? then None else Some(Checked(st1.value, s))
    case Case(e, arms) =>
      var st1 := Take(p, tys, e, st);
      if st1.None? then None
      else
        var r := AnalyzeArms(p, tys, arms, Consuming(e), st1.value);
        if r.None? then None
        else if arms.Nil? then Some(Checked(st1.value, s))
        else
          var j := Join(r.value.0);
          if j.None? then None else Some(Checked(j.value, Case(e, r.value.1)))
    case Destroy(_, _) => Some(Checked(st, s))
  }

  function AnalyzeStmts(p: Program, tys: map<Name, Ty>, ss: List<Stmt>, st: StateMap): Option<Checked<List<Stmt>>>
    decreases ss, 0
  {
    match ss
    case Nil => Some(Checked(st, Nil))
    case Cons(s, t) =>
      var r := AnalyzeStmt(p, tys, s, st);
      if r.None? then None
      else
        var rest := AnalyzeStmts(p, tys, t, r.value.st);
        if rest.None? then None
        else Some(Checked(rest.value.st, Cons(r.value.code, rest.value.code)))
  }

  // Owned binders of a by-value match are owners for the length of their arm.
  function AnalyzeArm(p: Program, tys: map<Name, Ty>, arm: Arm, byValue: bool, st: StateMap): Option<Checked<Arm>>
    decreases arm, 0
  {
    var binders := ArmBinders(arm, byValue);
    var r := AnalyzeStmt(p, tys, arm.body, SetOwned(st, binders));
    if r.None? then None
    else
      var left := Leftover(ArmOwned(arm, byValue), r.value.st);
      var body := if left.Nil? then r.value.code else Block(Cons(r.value.code, Destroys(left)));
      Some(Checked(Restore(r.value.st, binders, st), arm.(body := body)))
  }

  function AnalyzeArms(p: Program, tys: map<Name, Ty>, arms: List<Arm>, byValue: bool,
      st: StateMap): Option<(seq<StateMap>, List<Arm>)>
    decreases arms, 0
  {
    match arms
    case Nil => Some(([], Nil))
    case Cons(arm, t) =>
      var r := AnalyzeArm(p, tys, arm, byValue, st);
      if r.None? then None
      else
        var rest := AnalyzeArms(p, tys, t, byValue, st);
        if rest.None? then None
        else Some(([r.value.st] + rest.value.0, Cons(r.value.code, rest.value.1)))
  }

  // An owned formal was moved in by the caller: the callee starts out owning it.
  function Entry(f: Fun): StateMap {
    FormalsOwned(f.tys, f.formals, map[])
  }

  function FormalsOwned(tys: map<Name, Ty>, xs: List<Name>, st: StateMap): (r: StateMap)
    ensures r.Keys == st.Keys + set x | x in Elems(xs) && IsOwnVar(tys, x)
    ensures forall x | x in r :: r[x] == if x in Elems(xs) && IsOwnVar(tys, x) then Owned else st[x]
  {
    match xs
    case Nil => st
    case Cons(x, t) => FormalsOwned(tys, t, if IsOwnVar(tys, x) then st[x := Owned] else st)
  }

  // The destroys at a function's exit, in name order.
  function Sorted(xs: set<Name>): (r: List<Name>)
    ensures Elems(r) == xs && Distinct(r)
    ensures forall x | r.Cons? && x in xs :: r.head <= x
  {
    if xs == {} then Nil
    else
      var m := Least(xs);
      Cons(m, Sorted(xs - {m}))
  }

  predicate IsLeast(m: Name, xs: set<Name>) {
    m in xs && forall x {:trigger x in xs} :: x in xs ==> m <= x
  }

  function Least(xs: set<Name>): (m: Name)
    requires xs != {}
    ensures IsLeast(m, xs)
  {
    LeastExists(xs);
    var m :| IsLeast(m, xs);
    m
  }

  lemma {:induction false} LeastExists(xs: set<Name>)
    requires xs != {}
    ensures exists m :: IsLeast(m, xs)
    decreases xs
  {
    var y :| y in xs;
    var rest := xs - {y};
    if rest == {} {
      assert xs == {y};
      assert IsLeast(y, xs);
    } else {
      LeastExists(rest);
      var m :| IsLeast(m, rest);
      var k := if m < y then m else y;
      forall x | x in xs
        ensures k <= x
      {
        assert x == y || x in rest;
      }
      assert IsLeast(k, xs);
    }
  }

  // What code generation emits for a body: its statements, the returned
  // expression, then the destroys, which run once that expression is evaluated.
  datatype Code = Code(body: List<Stmt>, exits: List<Name>)

  function AnalyzeFunction(p: Program, f: Fun): Option<Code> {
    var r := AnalyzeStmts(p, f.tys, f.body, Entry(f));
    if r.None? then None
    else
      var st := Take(p, f.tys, f.ret, r.value.st);
      if st.None? then None
      else Some(Code(r.value.code, Sorted(OwnedIn(st.value))))
  }
}
