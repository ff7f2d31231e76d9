/** A watched run and the run of the generated code: the same up to the first
    step that no pass guards. */
module Watching {
  import opened Optional
  import opened Syntax
  import opened Heap
  import opened Moves
  import opened Machine

  // Unless the watched run strays the two are equal; where it strays because a
  // target was moved, the real one stores into a freed cell.
  ghost predicate Follows<T>(watched: Run<T>, actual: Run<T>) {
    && (!watched.Strays? ==> actual == watched)
    && (watched == Strays(MovedTarget) ==> actual.Fault?)
  }

  lemma {:induction false} EvalFollows(w: World, e: Expr, s: State, fuel: nat)
    requires w.watch && s.frames != []
    ensures Follows(Eval(w, e, s, fuel), Eval(Real(w), e, s, fuel))
    decreases fuel, 0, e, 1
  {
    match e
    case Num(_) =>
    case Input =>
    case Var(_) =>
    case Borrow(_) =>
    case Bin(_, l, r) =>
      EvalFollows(w, l, s, fuel);
      var a := Eval(w, l, s, fuel);
      if a.Done? {
        EvalFollows(w, r, a.s, fuel);
      }
    case Alloc(i) => EvalFollows(w, i, s, fuel);
    case New(_, args) => EvalAllFollows(w, args, s, fuel);
    case Call(f, args) =>
      EvalAllFollows(w, args, s, fuel);
      var a := EvalAll(w, args, s, fuel);
      if a.Done? && fuel > 0 {
        InvokeFollows(w, f, a.value, a.s, fuel - 1);
      }
    case Deref(q) => EvalFollows(w, q, s, fuel);
  }

  lemma {:induction false} EvalAllFollows(w: World, es: List<Expr>, s: State, fuel: nat)
    requires w.watch && s.frames != []
    ensures Follows(EvalAll(w, es, s, fuel), EvalAll(Real(w), es, s, fuel))
    decreases fuel, 0, es, 0
  {
    match es
    case Nil =>
    case Cons(e, t) =>
      EvalFollows(w, e, s, fuel);
      var a := Eval(w, e, s, fuel);
      if a.Done? {
        EvalAllFollows(w, t, a.s, fuel);
      }
  }

  lemma {:induction false} InvokeFollows(w: World, f: Name, vs: List<Value>, s: State, fuel: nat)
    requires w.watch
    ensures Follows(Invoke(w, f, vs, s, fuel), Invoke(Real(w), f, vs, s, fuel))
    decreases fuel, 2
  {
    if f in w.p.funs {
      var fun := w.p.funs[f];
      var code := AnalyzeFunction(w.p, fun);
      var frame := Bind(fun.formals, vs, Zeros(fun.locals));
      if code.Some? && frame.Some? {
        RunBodyFollows(w.(tys := fun.tys), fun, code.value, s.(frames := s.frames + [frame.value]), fuel);
      }
    }
  }

  lemma {:induction false} RunBodyFollows(w: World, fun: Fun, code: Code, s: State, fuel: nat)
    requires w.watch && s.frames != []
    ensures Follows(RunBody(w, fun, code, s, fuel), RunBody(Real(w), fun, code, s, fuel))
    decreases fuel, 1
  {
    ExecAllFollows(w, code.body, s, fuel);
    var r := ExecAll(w, code.body, s, fuel);
    if r.Done? {
      EvalFollows(w, fun.ret, r.s, fuel);
      var v := Eval(w, fun.ret, r.s, fuel);
      if v.Done? {
        DestroyVarsSame(w, code.exits, v.s);
      }
    }
  }

  // Destroys are not watched.
  lemma {:induction false} DestroyVarsSame(w: World, xs: List<Name>, s: State)
    requires s.frames != []
    ensures DestroyVars(Real(w), xs, s) == DestroyVars(w, xs, s)
    ensures !DestroyVars(w, xs, s).Strays?
    decreases xs
  {
    if xs.Cons? {
      var r := DestroyVar(w, xs.head, s);
      assert DestroyVar(Real(w), xs.head, s) == r && !r.Strays?;
      if r.Done? {
        DestroyVarsSame(w, xs.tail, r.s);
      }
    }
  }

  lemma {:induction false} ExecFollows(w: World, c: Stmt, s: State, fuel: nat)
    requires w.watch && s.frames != []
    ensures Follows(Exec(w, c, s, fuel), Exec(Real(w), c, s, fuel))
    decreases fuel, 0, c, 1
  {
    match c
    case Assign(_, rhs) => EvalFollows(w, rhs, s, fuel);
    case Write(target, rhs) =>
      EvalFollows(w, target, s, fuel);
      var q := Eval(w, target, s, fuel);
      if q.Done? {
        EvalFollows(w, rhs, q.s, fuel);
      }
    case Block(cs) => ExecAllFollows(w, cs, s, fuel);
    case If(e, t, f) =>
      EvalFollows(w, e, s, fuel);
      var v := Eval(w, e, s, fuel);
      if v.Done? {
        ExecFollows(w, t, v.s, fuel);
        ExecFollows(w, f, v.s, fuel);
      }
    case While(e, b) =>
      EvalFollows(w, e, s, fuel);
      var v := Eval(w, e, s, fuel);
      if v.Done? {
        ExecFollows(w, b, v.s, fuel);
        var r := Exec(w, b, v.s, fuel);
        if r.Done? && fuel > 0 {
          ExecFollows(w, c, r.s, fuel - 1);
        }
      }
    case Output(e) => EvalFollows(w, e, s, fuel);
    case Error(e) => EvalFollows(w, e, s, fuel);
    case Case(e, arms) =>
      EvalFollows(w, e, s, fuel);
      var v := Eval(w, e, s, fuel);
      if v.Done? && v.value.PtrV? && v.value.a in v.s.heap && v.s.heap[v.value.a].Box? {
        ExecArmsFollows(w, arms, Consuming(e), v.value.a, v.s, fuel);
      }
    case Destroy(x, _) => DestroyVarsSame(w, Cons(x, Nil), s);
  }

  lemma {:induction false} ExecAllFollows(w: World, cs: List<Stmt>, s: State, fuel: nat)
    requires w.watch && s.frames != []
    ensures Follows(ExecAll(w, cs, s, fuel), ExecAll(Real(w), cs, s, fuel))
    decreases fuel, 0, cs, 0
  {
    match cs
    case Nil =>
    case Cons(c, t) =>
      ExecFollows(w, c, s, fuel);
      var r := Exec(w, c, s, fuel);
      if r.Done? {
        ExecAllFollows(w, t, r.s, fuel);
      }
  }

  lemma {:induction false} ExecArmsFollows(w: World, arms: List<Arm>, consuming: bool, box: nat, s: State, fuel: nat)
    requires w.watch && s.frames != []
    requires box in s.heap && s.heap[box].Box?
    ensures Follows(ExecArms(w, arms, consuming, box, s, fuel), ExecArms(Real(w), arms, consuming, box, s, fuel))
    decreases fuel, 0, arms, 0
  {
    if arms.Cons? {
      var arm := arms.head;
      var params := if arm.tag in w.p.ctors then w.p.ctors[arm.tag].params else Nil;
      var b := BindPats(w.p.ctors, s.heap, Top(s), box, s.heap[box].fields, arm.pats, params, consuming, s.next);
      ExecArmsFollows(w, arms.tail, consuming, box, s, fuel);
      if b.Bound? {
        ExecFollows(w, arm.body, WithTop(s.(heap := b.h), b.f), fuel);
      }
    }
  }
}
