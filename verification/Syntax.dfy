/** The TOP fragment the model covers: abstract syntax, types and declarations. */
module Syntax {

  // Names are interned: the order of the numbers is the order of the names.
  type Name = nat

  datatype List<+T> = Nil | Cons(head: T, tail: List<T>)

  // Solved types. An owning reference holds a Copy payload, here always an int.
  datatype Ty = TInt | TOwn | TSum(name: Name) | TBorrow(referent: Ty)

  // OwnershipClassifier::classifyType, Own rather than Copy.
  predicate IsOwn(t: Ty) {
    t.TOwn? || t.TSum?
  }

  datatype Op = Add | Sub | Mul | Div | Gt | Eq | Neq

  datatype Expr =
    | Num(n: int)
    | Input
    | Var(x: Name)
    | Bin(op: Op, left: Expr, right: Expr)
    | Alloc(init: Expr)
    | New(tag: Name, args: List<Expr>)
    | Call(f: Name, actuals: List<Expr>)
    | Deref(ptr: Expr)
    | Borrow(owner: Name)

  // A variable in a pattern is a declaration of its own, with the type of the
  // payload it stands for.
  datatype Pat = PVar(x: Name, ty: Ty) | PWild | PCtor(tag: Name, subs: List<Pat>)

  // A missing else branch is an empty block. Destroy is never written in a
  // source program: only the destruction pass inserts it.
  datatype Stmt =
    | Assign(x: Name, rhs: Expr)
    | Write(target: Expr, rhs: Expr)
    | Block(stmts: List<Stmt>)
    | If(cond: Expr, thn: Stmt, els: Stmt)
    | While(cond: Expr, body: Stmt)
    | Output(arg: Expr)
    | Error(arg: Expr)
    | Case(scrutinee: Expr, arms: List<Arm>)
    | Destroy(x: Name, ty: Ty)

  datatype Arm = Arm(tag: Name, pats: List<Pat>, body: Stmt)

  datatype Ctor = Ctor(owner: Name, params: List<Ty>)

  // The symbol table holds one declaration per name in a function, the last one
  // made, and tys has its type. Uses of a name have that type, whichever arm's
  // binder they mean.
  datatype Fun = Fun(formals: List<Name>, locals: set<Name>, tys: map<Name, Ty>,
                     body: List<Stmt>, ret: Expr, retTy: Ty)

  datatype Program = Program(ctors: map<Name, Ctor>, funs: map<Name, Fun>)

  function Elems<T>(xs: List<T>): set<T> {
    match xs
    case Nil => {}
    case Cons(x, t) => {x} + Elems(t)
  }

  predicate Distinct<T(==)>(xs: List<T>) {
    match xs
    case Nil => true
    case Cons(x, t) => x !in Elems(t) && Distinct(t)
  }

  // The elements that occur more than once.
  function Repeated<T(==)>(xs: List<T>): set<T> {
    match xs
    case Nil => {}
    case Cons(x, t) => (if x in Elems(t) then {x} else {}) + Repeated(t)
  }

  lemma {:induction false} DistinctRepeatsNone<T>(xs: List<T>)
    ensures Distinct(xs) <==> Repeated(xs) == {}
    ensures Repeated(xs) <= Elems(xs)
    decreases xs
  {
    if xs.Cons? {
      DistinctRepeatsNone(xs.tail);
    }
  }

  function Length<T>(xs: List<T>): nat {
    match xs
    case Nil => 0
    case Cons(_, t) => 1 + Length(t)
  }

  function Append<T>(xs: List<T>, ys: List<T>): List<T> {
    match xs
    case Nil => ys
    case Cons(x, t) => Cons(x, Append(t, ys))
  }

  function ToList<T>(xs: seq<T>): List<T> {
    if xs == [] then Nil else Cons(xs[0], ToList(xs[1..]))
  }

  lemma {:induction false} AppendLast<T>(xs: seq<T>, x: T, ys: List<T>)
    ensures Append(ToList(xs + [x]), ys) == Append(ToList(xs), Cons(x, ys))
    decreases xs
  {
    if xs == [] {
      assert ([] + [x])[1..] == [];
    } else {
      assert (xs + [x])[1..] == xs[1..] + [x];
      AppendLast(xs[1..], x, ys);
    }
  }

  lemma {:induction false} AppendNil<T>(xs: List<T>)
    ensures Append(xs, Nil) == xs
    decreases xs
  {
    if xs.Cons? {
      AppendNil(xs.tail);
    }
  }

  predicate IsOwnVar(tys: map<Name, Ty>, x: Name) {
    x in tys && IsOwn(tys[x])
  }

  // The variables a list of patterns binds, left to right (ASTCaseArm::collectBindings).
  function Binders(p: Pat): List<Name> {
    match p
    case PVar(x, _) => Cons(x, Nil)
    case PWild => Nil
    case PCtor(_, subs) => BindersOf(subs)
  }

  function BindersOf(ps: List<Pat>): List<Name> {
    match ps
    case Nil => Nil
    case Cons(p, t) => Append(Binders(p), BindersOf(t))
  }

  // The binders of Own type, by the type of the binder itself.
  datatype Binder = Binder(x: Name, ty: Ty)

  function OwnedBinders(p: Pat): List<Binder> {
    match p
    case PVar(x, ty) => if IsOwn(ty) then Cons(Binder(x, ty), Nil) else Nil
    case PWild => Nil
    case PCtor(_, subs) => OwnedBindersOf(subs)
  }

  function OwnedBindersOf(ps: List<Pat>): List<Binder> {
    match ps
    case Nil => Nil
    case Cons(p, t) => Append(OwnedBinders(p), OwnedBindersOf(t))
  }

  function Names(bs: List<Binder>): List<Name> {
    match bs
    case Nil => Nil
    case Cons(b, t) => Cons(b.x, Names(t))
  }

  predicate TypedAs(tys: map<Name, Ty>, bs: List<Binder>) {
    forall b | b in Elems(bs) :: b.x in tys && tys[b.x] == b.ty
  }

  // Every binder has the type that the uses of its name have.
  predicate UsedAsBound(tys: map<Name, Ty>, p: Pat) {
    match p
    case PVar(x, ty) => x in tys && tys[x] == ty
    case PWild => true
    case PCtor(_, subs) => AllUsedAsBound(tys, subs)
  }

  predicate AllUsedAsBound(tys: map<Name, Ty>, ps: List<Pat>) {
    match ps
    case Nil => true
    case Cons(p, t) => UsedAsBound(tys, p) && AllUsedAsBound(tys, t)
  }

  function FormalTys(formals: List<Name>, tys: map<Name, Ty>): List<Ty> {
    match formals
    case Nil => Nil
    case Cons(x, t) => Cons(if x in tys then tys[x] else TInt, FormalTys(t, tys))
  }
}
