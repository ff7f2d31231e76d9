/** The step budget of a run only decides whether it ends: a run that ends ends the
    same with any larger budget. */
module Budget {
  import opened Optional
  import opened Syntax
  import opened Heap
  import opened Moves
  import opened Machine

  // Unless the budget was spent, the outcome stays.
  ghost predicate Lasts<T>(r: Run<T>, r': Run<T>) {
    !r.Spent? ==> r' == r
  }

  lemma {:induction false} EvalLasts(w: World, e: Expr, s: State, fuel: nat, more: nat)
    requires s.frames != [] && fuel <= more
    ensures Lasts(Eval(w, e, s, fuel), Eval(w, e, s, more))
    decreases fuel, 0, e, 1
  {
    match e
    case Num(_) =>
    case Input =>
    case Var(_) =>
    case Borrow(_) =>
    case Bin(_, l, r) =>
      EvalLasts(w, l, s, fuel, more);
      var a := Eval(w, l, s, fuel);
      if a.Done? {
        EvalLasts(w, r, a.s, fuel, more);
      }
    case Alloc(i) => EvalLasts(w, i, s, fuel, more);
    case New(_, args) => EvalAllLasts(w, args, s, fuel, more);
    case Call(f, args) =>
      EvalAllLasts(w, args, s, fuel, more);
      var a := EvalAll(w, args, s, fuel);
      if a.Done? && fuel > 0 {
        InvokeLasts(w, f, a.value, a.s, fuel - 1, more - 1);
      }
    case Deref(q) => EvalLasts(w, q, s, fuel, more);
  }

  lemma {:induction false} EvalAllLasts(w: World, es: List<Expr>, s: State, fuel: nat, more: nat)
    requires s.frames != [] && fuel <= more
    ensures Lasts(EvalAll(w, es, s, fuel), EvalAll(w, es, s, more))
    decreases fuel, 0, es, 0
  {
    match es
    case Nil =>
    case Cons(e, t) =>
      EvalLasts(w, e, s, fuel, more);
      var a := Eval(w, e, s, fuel);
      if a.Done? {
        EvalAllLasts(w, t, a.s, fuel, more);
      }
  }

  lemma {:induction false} InvokeLasts(w: World, f: Name, vs: List<Value>, s: State, fuel: nat, more: nat)
    requires fuel <= more
    ensures Lasts(Invoke(w, f, vs, s, fuel), Invoke(w, f, vs, s, more))
    decreases fuel, 2
  {
    if f in w.p.funs {
      var fun := w.p.funs[f];
      var code := AnalyzeFunction(w.p, fun);
      var frame := Bind(fun.formals, vs, Zeros(fun.locals));
      if code.Some? && frame.Some? {
        RunBodyLasts(w.(tys := fun.tys), fun, code.value, s.(frames := s.frames + [frame.value]), fuel, more);
      }
    }
  }

  lemma {:induction false} RunBodyLasts(w: World, fun: Fun, code: Code, s: State, fuel: nat, more: nat)
    requires s.frames != [] && fuel <= more
    ensures Lasts(RunBody(w, fun, code, s, fuel), RunBody(w, fun, code, s, more))
    decreases fuel, 1
  {
    ExecAllLasts(w, code.body, s, fuel, more);
    var r := ExecAll(w, code.body, s, fuel);
    if r.Done? {
      EvalLasts(w, fun.ret, r.s, fuel, more);
    }
  }

  lemma {:induction false} ExecLasts(w: World, c: Stmt, s: State, fuel: nat, more: nat)
    requires s.frames != [] && fuel <= more
    ensures Lasts(Exec(w, c, s, fuel), Exec(w, c, s, more))
    decreases fuel, 0, c, 1
  {
    match c
    case Assign(_, rhs) => EvalLasts(w, rhs, s, fuel, more);
    case Write(target, rhs) =>
      EvalLasts(w, target, s, fuel, more);
      var q := Eval(w, target, s, fuel);
      if q.Done? {
        EvalLasts(w, rhs, q.s, fuel, more);
      }
    case Block(cs) => ExecAllLasts(w, cs, s, fuel, more);
    case If(e, t, f) =>
      EvalLasts(w, e, s, fuel, more);
      var v := Eval(w, e, s, fuel);
      if v.Done? {
        ExecLasts(w, t, v.s, fuel, more);
        ExecLasts(w, f, v.s, fuel, more);
      }
    case While(e, b) =>
      EvalLasts(w, e, s, fuel, more);
      var v := Eval(w, e, s, fuel);
      if v.Done? {
        ExecLasts(w, b, v.s, fuel, more);
        var r := Exec(w, b, v.s, fuel);
        if r.Done? && fuel > 0 {
          ExecLasts(w, c, r.s, fuel - 1, more - 1);
        }
      }
    case Output(e) => EvalLasts(w, e, s, fuel, more);
    case Error(e) => EvalLasts(w, e, s, fuel, more);
    case Case(e, arms) =>
      EvalLasts(w, e, s, fuel, more);
      var v := Eval(w, e, s, fuel);
      if v.Done? && v.value.PtrV? && v.value.a in v.s.heap && v.s.heap[v.value.a].Box? {
        ExecArmsLasts(w, arms, Consuming(e), v.value.a, v.s, fuel, more);
      }
    case Destroy(_, _) =>
  }

  lemma {:induction false} ExecAllLasts(w: World, cs: List<Stmt>, s: State, fuel: nat, more: nat)
    requires s.frames != [] && fuel <= more
    ensures Lasts(ExecAll(w, cs, s, fuel), ExecAll(w, cs, s, more))
    decreases fuel, 0, cs, 0
  {
    match cs
    case Nil =>
    case Cons(c, t) =>
      ExecLasts(w, c, s, fuel, more);
      var r := Exec(w, c, s, fuel);
      if r.Done? {
        ExecAllLasts(w, t, r.s, fuel, more);
      }
  }

  lemma {:induction false} ExecArmsLasts(w: World, arms: List<Arm>, consuming: bool, box: nat, s: State, fuel: nat,
      more: nat)
    requires s.frames != [] && fuel <= more
    requires box in s.heap && s.heap[box].Box?
    ensures Lasts(ExecArms(w, arms, consuming, box, s, fuel), ExecArms(w, arms, consuming, box, s, more))
    decreases fuel, 0, arms, 0
  {
    if arms.Cons? {
      var arm := arms.head;
      var params := if arm.tag in w.p.ctors then w.p.ctors[arm.tag].params else Nil;
      var b := BindPats(w.p.ctors, s.heap, Top(s), box, s.heap[box].fields, arm.pats, params, consuming, s.next);
      ExecArmsLasts(w, arms.tail, consuming, box, s, fuel, more);
      if b.Bound? {
        ExecLasts(w, arm.body, WithTop(s.(heap := b.h), b.f), fuel, more);
      }
    }
  }
}
