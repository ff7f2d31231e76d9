/** What generated code does when it runs: CodeGenVisitor's loads, stores,
    allocations, frees and branches, in the order it emits them. */
module Machine {
  import opened Optional
  import opened Syntax
  import opened Heap
  import opened Moves

  // next is the next address to hand out; drawn counts the inputs consumed, and
  // printed is the output so far.
  datatype State = State(frames: seq<Frame>, heap: Memory, next: nat, drawn: nat, printed: seq<int>)

  // Fault: a step touched a dead cell, or a word that is not what it must be.
  // Halt: `error` and its argument, or a division the runtime reports, after what
  // was printed. Spent: the run goes on. Strays: a watched run has come to a step
  // that no pass guards.
  datatype Run<+T> = Done(value: T, s: State) | Fault | Halt(printed: seq<int>, error: Option<int>) | Spent |
    Strays(why: Stray)

  // A store through an owner that its right-hand side moved; a match that no arm
  // takes; an arm about to bind one owner twice, or to bind a name at another type
  // than its uses have.
  datatype Stray = MovedTarget | NoArm | RepeatedBinder | RetypedBinder

  // The program as the compiler sees it, the function being run and its inputs.
  // A watched run stops where it strays; generated code, of course, goes on.
  datatype World = World(p: Program, tys: map<Name, Ty>, input: nat -> int, watch: bool)

  function Real(w: World): World {
    w.(watch := false)
  }

  function Top(s: State): Frame
    requires s.frames != []
  {
    s.frames[|s.frames| - 1]
  }

  function WithTop(s: State, f: Frame): State
    requires s.frames != []
  {
    s.(frames := s.frames[..|s.frames| - 1] + [f])
  }

  // 64-bit two's complement.
  function Wrap(n: int): int {
    (n + 0x8000_0000_0000_0000) % 0x1_0000_0000_0000_0000 - 0x8000_0000_0000_0000
  }

  // emitCheckedDivision: sdiv truncates towards zero.
  function Truncate(a: int, b: int): int
    requires b != 0
  {
    if a >= 0 then a / b else -((-a) / b)
  }

  function Arith(op: Op, a: int, b: int): Option<int> {
    match op
    case Add => Some(Wrap(a + b))
    case Sub => Some(Wrap(a - b))
    case Mul => Some(Wrap(a * b))
    case Div =>
      if b == 0 || (a == -0x8000_0000_0000_0000 && b == -1) then None
      else Some(Truncate(a, b))
    case Gt => Some(if a > b then 1 else 0)
    case Eq => Some(if a == b then 1 else 0)
    case Neq => Some(if a != b then 1 else 0)
  }

  // MoveAnalysis::noteUnboundReference: an owning reference made by a call or an
  // alloc and dereferenced at once is freed right after the read or write.
  predicate UnboundReference(p: Program, e: Expr) {
    e.Alloc? || (e.Call? && e.f in p.funs && IsOwn(p.funs[e.f].retTy))
  }

  function Allocate(s: State, c: Cell): Run<Value> {
    Done(PtrV(s.next), s.(heap := s.heap[s.next := c], next := s.next + 1))
  }

  function Eval(w: World, e: Expr, s: State, fuel: nat): Run<Value>
    requires s.frames != []
    ensures var r := Eval(w, e, s, fuel); (r.Done? ==> |r.s.frames| == |s.frames|) && (r.Strays? ==> w.watch)
    decreases fuel, 0, e, 1
  {
    match e
    case Num(n) => Done(IntV(n), s)
    case Input => Done(IntV(Wrap(w.input(s.drawn))), s.(drawn := s.drawn + 1))
    case Var(x) => if x in Top(s) then Done(Top(s)[x], s) else Fault
    case Borrow(x) => if x in Top(s) then Done(SlotV(|s.frames| - 1, x), s) else Fault
    case Bin(op, l, r) =>
      var a := Eval(w, l, s, fuel);
      if !a.Done? then a
      else
        var b := Eval(w, r, a.s, fuel);
        if !b.Done? then b
        else if !a.value.IntV? || !b.value.IntV? then Fault
        else
          var n := Arith(op, a.value.n, b.value.n);
          if n.None? then Halt(b.s.printed, None) else Done(IntV(n.value), b.s)
    case Alloc(i) =>
      var a := Eval(w, i, s, fuel);
      if !a.Done? then a
      else if !a.value.IntV? then Fault
      else Allocate(a.s, IntCell(a.value.n))
    case New(tag, args) =>
      var a := EvalAll(w, args, s, fuel);
      if !a.Done? then Failed(a) else Allocate(a.s, Box(tag, a.value))
    case Call(f, args) =>
      var a := EvalAll(w, args, s, fuel);
      if !a.Done? then Failed(a)
      else if fuel == 0 then Spent
      else Invoke(w, f, a.value, a.s, fuel - 1)
    case Deref(q) =>
      var a := Eval(w, q, s, fuel);
      if !a.Done? then a
      else
        var v := ReadThrough(a.value, a.s);
        if v.None? then Fault
        else Done(v.value, if UnboundReference(w.p, q) then Release(a.value, a.s) else a.s)
  }

  function Failed<T, U>(r: Run<T>): Run<U>
    requires !r.Done?
  {
    match r
    case Fault => Fault
    case Halt(printed, error) => Halt(printed, error)
    case Spent => Spent
    case Strays(why) => Strays(why)
  }

  // `*v` as a load: from a live cell, or from a stack slot.
  function ReadThrough(v: Value, s: State): Option<Value> {
    match v
    case IntV(_) => None
    case PtrV(a) => if a in s.heap && s.heap[a].IntCell? then Some(IntV(s.heap[a].n)) else None
    case SlotV(d, x) => if d < |s.frames| && x in s.frames[d] then Some(s.frames[d][x]) else None
  }

  // `*v = u` as a store.
  function WriteThrough(v: Value, u: Value, s: State): Option<State> {
    match v
    case IntV(_) => None
    case PtrV(a) =>
      if a in s.heap && s.heap[a].IntCell? && u.IntV? then Some(s.(heap := s.heap[a := IntCell(u.n)]))
      else None
    case SlotV(d, x) =>
      if d < |s.frames| && x in s.frames[d] then
        var f: Frame := s.frames[d][x := u];
        Some(s.(frames := s.frames[d := f]))
      else None
  }

  function Release(v: Value, s: State): State {
    if v.PtrV? then s.(heap := s.heap - {v.a}) else s
  }

  function EvalAll(w: World, es: List<Expr>, s: State, fuel: nat): Run<List<Value>>
    requires s.frames != []
    ensures var r := EvalAll(w, es, s, fuel); (r.Done? ==> |r.s.frames| == |s.frames|) && (r.Strays? ==> w.watch)
    decreases fuel, 0, es, 0
  {
    match es
    case Nil => Done(Nil, s)
    case Cons(e, t) =>
      var a := Eval(w, e, s, fuel);
      if !a.Done? then Failed(a)
      else
        var b := EvalAll(w, t, a.s, fuel);
        if !b.Done? then b else Done(Cons(a.value, b.value), b.s)
  }

  function Bind<V>(formals: List<Name>, vs: List<V>, f: map<Name, V>): Option<map<Name, V>> {
    match formals
    case Nil => if vs.Nil? then Some(f) else None
    case Cons(x, t) => if vs.Nil? then None else Bind(t, vs.tail, f[x := vs.head])
  }

  function Zeros(xs: set<Name>): (f: Frame)
    ensures f.Keys == xs && forall x | x in xs :: f[x] == IntV(0)
  {
    if xs == {} then map[]
    else
      var m := Least(xs);
      Zeros(xs - {m})[m := IntV(0)]
  }

  // The body runs in a fresh frame whose locals hold zero. The returned value is
  // computed before the exit destroys, and outlives the frame.
  function Invoke(w: World, f: Name, vs: List<Value>, s: State, fuel: nat): Run<Value>
    ensures var r := Invoke(w, f, vs, s, fuel); (r.Done? ==> |r.s.frames| == |s.frames|) && (r.Strays? ==> w.watch)
    decreases fuel, 2
  {
    if f !in w.p.funs then Fault
    else
      var fun := w.p.funs[f];
      var code := AnalyzeFunction(w.p, fun);
      var frame := Bind(fun.formals, vs, Zeros(fun.locals));
      if code.None? || frame.None? then Fault
      else
        var r := RunBody(w.(tys := fun.tys), fun, code.value, s.(frames := s.frames + [frame.value]), fuel);
        if !r.Done? then r else Done(r.value, r.s.(frames := r.s.frames[..|r.s.frames| - 1]))
  }

  function RunBody(w: World, fun: Fun, code: Code, s: State, fuel: nat): Run<Value>
    requires s.frames != []
    ensures var r := RunBody(w, fun, code, s, fuel); (r.Done? ==> |r.s.frames| == |s.frames|) && (r.Strays? ==> w.watch)
    decreases fuel, 1
  {
    var r := ExecAll(w, code.body, s, fuel);
    if !r.Done? then Failed(r)
    else
      var v := Eval(w, fun.ret, r.s, fuel);
      if !v.Done? then v
      else
        var d := DestroyVars(w, code.exits, v.s);
        if !d.Done? then Failed(d) else Done(v.value, d.s)
  }

  // A destroy of the value in x, by the type of a declaration of that name. No value
  // is as deep as addresses have been handed out: a payload was allocated before its
  // box.
  function DestroyAs(w: World, x: Name, ty: Ty, s: State): Run<()>
    requires s.frames != []
  {
    if x !in Top(s) then Fault
    else
      match DestroyValue(w.p.ctors, s.heap, Top(s)[x], ty, s.next)
      case Freed(h) => Done((), s.(heap := h))
      case BadFree => Fault
      case NoFuel => Spent
  }

  function DestroyVar(w: World, x: Name, s: State): Run<()>
    requires s.frames != []
  {
    if x !in w.tys then Fault else DestroyAs(w, x, w.tys[x], s)
  }

  function DestroyVars(w: World, xs: List<Name>, s: State): Run<()>
    requires s.frames != []
    ensures var r := DestroyVars(w, xs, s); (r.Done? ==> r.s.frames == s.frames) && (r.Strays? ==> w.watch)
    decreases xs
  {
    match xs
    case Nil => Done((), s)
    case Cons(x, t) =>
      var r := DestroyVar(w, x, s);
      if !r.Done? then r else DestroyVars(w, t, r.s)
  }

  // The target is read through an owner that the right-hand side moves.
  predicate MovesTarget(w: World, target: Expr, rhs: Expr) {
    target.Var? && target.x in MovedBy(w.p, w.tys, rhs)
  }

  function Exec(w: World, c: Stmt, s: State, fuel: nat): Run<()>
    requires s.frames != []
    ensures var r := Exec(w, c, s, fuel); (r.Done? ==> |r.s.frames| == |s.frames|) && (r.Strays? ==> w.watch)
    decreases fuel, 0, c, 1
  {
    match c
    case Assign(x, rhs) =>
      var v := Eval(w, rhs, s, fuel);
      if !v.Done? then Failed(v)
      else if x !in Top(v.s) then Fault
      else Done((), WithTop(v.s, Top(v.s)[x := v.value]))
    case Write(target, rhs) =>
      // The target's address first, then the value, then the store.
      var q := Eval(w, target, s, fuel);
      if !q.Done? then Failed(q)
      else
        var v := Eval(w, rhs, q.s, fuel);
        if !v.Done? then Failed(v)
        else
          var s1 := WriteThrough(q.value, v.value, v.s);
          if s1.None? then
            if w.watch && MovesTarget(w, target, rhs) then Strays(MovedTarget) else Fault
          else Done((), if UnboundReference(w.p, target) then Release(q.value, s1.value) else s1.value)
    case Block(cs) => ExecAll(w, cs, s, fuel)
    case If(e, t, f) =>
      var v := Eval(w, e, s, fuel);
      if !v.Done? then Failed(v)
      else if !v.value.IntV? then Fault
      else Exec(w, if v.value.n != 0 then t else f, v.s, fuel)
    case While(e, b) =>
      var v := Eval(w, e, s, fuel);
      if !v.Done? then Failed(v)
      else if !v.value.IntV? then Fault
      else if v.value.n == 0 then Done((), v.s)
      else
        var r := Exec(w, b, v.s, fuel);
        if !r.Done? then r
        else if fuel == 0 then Spent
        else Exec(w, c, r.s, fuel - 1)
    case Output(e) =>
      var v := Eval(w, e, s, fuel);
      if !v.Done? then Failed(v)
      else if !v.value.IntV? then Fault
      else Done((), v.s.(printed := v.s.printed + [v.value.n]))
    case Error(e) =>
      var v := Eval(w, e, s, fuel);
      if !v.Done? then Failed(v)
      else if !v.value.IntV? then Fault
      else Halt(v.s.printed, Some(v.value.n))
    case Case(e, arms) =>
      var v := Eval(w, e, s, fuel);
      if !v.Done? then Failed(v)
      else if !v.value.PtrV? || v.value.a !in v.s.heap || !v.s.heap[v.value.a].Box? then Fault
      else
        var r := ExecArms(w, arms, Consuming(e), v.value.a, v.s, fuel);
        if !r.Done? || !Consuming(e) then r
        else if v.value.a !in r.s.heap then Fault
        else Done((), Release(v.value, r.s))
    case Destroy(x, ty) => DestroyAs(w, x, ty, s)
  }

  function ExecAll(w: World, cs: List<Stmt>, s: State, fuel: nat): Run<()>
    requires s.frames != []
    ensures var r := ExecAll(w, cs, s, fuel); (r.Done? ==> |r.s.frames| == |s.frames|) && (r.Strays? ==> w.watch)
    decreases fuel, 0, cs, 0
  {
    match cs
    case Nil => Done((), s)
    case Cons(c, t) =>
      var r := Exec(w, c, s, fuel);
      if !r.Done? then r else ExecAll(w, t, r.s, fuel)
  }

  // emitPatternTest on a loaded word: no side effects, and no load at all for a
  // variable or a wildcard. None is a fault.
  function TestPat(h: Memory, v: Value, q: Pat): Option<bool>
    decreases q, 1
  {
    match q
    case PVar(_, _) => Some(true)
    case PWild => Some(true)
    case PCtor(tag, subs) =>
      if !v.PtrV? || v.a !in h || !h[v.a].Box? then None
      else if h[v.a].tag != tag then Some(false)
      else TestPats(h, h[v.a].fields, subs)
  }

  function TestPats(h: Memory, vs: List<Value>, qs: List<Pat>): Option<bool>
    decreases qs, 0
  {
    match qs
    case Nil => Some(true)
    case Cons(q, t) =>
      if vs.Nil? then None
      else if TestPat(h, vs.head, q) != Some(true) then TestPat(h, vs.head, q)
      else TestPats(h, vs.tail, t)
  }

  // The arms of one switch case: those with the scrutinee's tag, in order.
  function Group(arms: List<Arm>, tag: Name): List<Arm> {
    match arms
    case Nil => Nil
    case Cons(arm, t) => if arm.tag == tag then Cons(arm, Group(t, tag)) else Group(t, tag)
  }

  datatype Bound = Bound(h: Memory, f: Frame) | BadBind | BindSpent

  // emitPatternBind: bind variables, destroy discarded owned payloads, and in a
  // consuming match free each nested box once its payloads have been dealt with.
  function BindPat(cs: map<Name, Ctor>, h: Memory, f: Frame, v: Value, q: Pat, ty: Ty, consuming: bool,
      fuel: nat): Bound
    decreases q, 1
  {
    match q
    case PVar(x, _) => Bound(h, f[x := v])
    case PWild =>
      if consuming && IsOwn(ty) then
        (match DestroyValue(cs, h, v, ty, fuel)
         case Freed(h1) => Bound(h1, f)
         case BadFree => BadBind
         case NoFuel => BindSpent)
      else Bound(h, f)
    case PCtor(tag, subs) =>
      if !v.PtrV? || v.a !in h || !h[v.a].Box? then BadBind
      else
        var params := if tag in cs then cs[tag].params else Nil;
        var r := BindPats(cs, h, f, v.a, h[v.a].fields, subs, params, consuming, fuel);
        if !r.Bound? || !consuming then r
        else if v.a !in r.h then BadBind
        else r.(h := r.h - {v.a})
  }

  // Each payload is loaded from its box when its pattern is reached.
  function BindPats(cs: map<Name, Ctor>, h: Memory, f: Frame, box: nat, vs: List<Value>, qs: List<Pat>, tys: List<Ty>,
      consuming: bool, fuel: nat): Bound
    decreases qs, 0
  {
    match qs
    case Nil => Bound(h, f)
    case Cons(q, t) =>
      if vs.Nil? || box !in h then BadBind
      else
        var r := BindPat(cs, h, f, vs.head, q, if tys.Cons? then tys.head else TInt, consuming, fuel);
        if !r.Bound? then r
        else BindPats(cs, r.h, r.f, box, vs.tail, t, if tys.Cons? then tys.tail else Nil, consuming, fuel)
  }

  // Names an arm bound go back to what they named before it.
  function Unshadow<V>(f: map<Name, V>, bs: List<Name>, before: map<Name, V>): (r: map<Name, V>)
    ensures r.Keys == (f.Keys - Elems(bs)) + (before.Keys * Elems(bs))
    ensures forall x | x in r :: r[x] == if x in Elems(bs) then before[x] else f[x]
    decreases bs
  {
    match bs
    case Nil => f
    case Cons(x, t) => Unshadow(if x in before then f[x := before[x]] else f - {x}, t, before)
  }

  // Try the arms in order: an arm is taken when its tag and all its patterns
  // match; only then does it bind. With no such arm control reaches the merge.
  function ExecArms(w: World, arms: List<Arm>, consuming: bool, box: nat, s: State, fuel: nat): Run<()>
    requires s.frames != []
    requires box in s.heap && s.heap[box].Box?
    ensures var r := ExecArms(w, arms, consuming, box, s, fuel);
      (r.Done? ==> |r.s.frames| == |s.frames|) && (r.Strays? ==> w.watch)
    decreases fuel, 0, arms, 0
  {
    match arms
    case Nil => if w.watch then Strays(NoArm) else Done((), s)
    case Cons(arm, t) =>
      if arm.tag != s.heap[box].tag then ExecArms(w, t, consuming, box, s, fuel)
      else
        match TestPats(s.heap, s.heap[box].fields, arm.pats)
        case None => Fault
        case Some(false) => ExecArms(w, t, consuming, box, s, fuel)
        case Some(true) =>
          if w.watch && !AllUsedAsBound(w.tys, arm.pats) then Strays(RetypedBinder)
          else if w.watch && !Linear(arm, consuming) then Strays(RepeatedBinder)
          else
            var params := if arm.tag in w.p.ctors then w.p.ctors[arm.tag].params else Nil;
            match BindPats(w.p.ctors, s.heap, Top(s), box, s.heap[box].fields, arm.pats, params, consuming, s.next)
            case BadBind => Fault
            case BindSpent => Spent
            case Bound(h, f) =>
              var r := Exec(w, arm.body, WithTop(s.(heap := h), f), fuel);
              if !r.Done? then r
              else Done((), WithTop(r.s, Unshadow(Top(r.s), BindersOf(arm.pats), Top(s))))
  }
}
