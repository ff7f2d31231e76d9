/** What a program means, without addresses. A value is the tree it looks like, an
    owning reference the integer it holds, a borrow the variable borrowed; naming an
    owner copies it, nothing is ever freed, and a store through a reference changes
    the variable it leads to. */
module Copying {
  import opened Optional
  import opened Syntax
  import opened Moves
  import opened Machine

  // A variable of an activation: frame number and name.
  datatype Slot = Slot(depth: nat, x: Name)

  // A part of what a variable holds: positions from the outermost constructor in.
  datatype Spot = Spot(root: Slot, path: seq<nat>)

  // Number, an integer; Owner, an owning reference to one; Made, a constructor's
  // value; Lent, the borrow of a variable; Inside, a binder of a borrowed match,
  // which names a part of the value matched.
  datatype Datum = Number(n: int) | Owner(n: int) | Made(tag: Name, parts: List<Datum>) | Lent(slot: Slot) |
    Inside(at: Spot)

  type Vars = map<Name, Datum>

  datatype Store = Store(frames: seq<Vars>, drawn: nat, printed: seq<int>)

  datatype Outcome<+T> = Gives(value: T, t: Store) | Stops(printed: seq<int>, error: Option<int>) | Stuck | Tired

  function Local(t: Store): Vars
    requires t.frames != []
  {
    t.frames[|t.frames| - 1]
  }

  function WithLocal(t: Store, f: Vars): Store
    requires t.frames != []
  {
    t.(frames := t.frames[..|t.frames| - 1] + [f])
  }

  // -------------------------------------------------------------------------
  // Places
  // -------------------------------------------------------------------------

  function PartOf(u: Datum, path: seq<nat>): Option<Datum>
    decreases |path|, 0
  {
    if path == [] then Some(u)
    else if !u.Made? then None
    else PartIn(u.parts, path[0], path[1..])
  }

  function PartIn(us: List<Datum>, k: nat, path: seq<nat>): Option<Datum>
    decreases |path|, 1, us
  {
    if us.Nil? then None
    else if k == 0 then PartOf(us.head, path)
    else PartIn(us.tail, k - 1, path)
  }

  // The integer at the part becomes n.
  function Changed(u: Datum, path: seq<nat>, n: int): Datum
    decreases |path|, 0
  {
    if path == [] then
      (match u
       case Number(_) => Number(n)
       case Owner(_) => Owner(n)
       case _ => u)
    else if !u.Made? then u
    else u.(parts := ChangedIn(u.parts, path[0], path[1..], n))
  }

  function ChangedIn(us: List<Datum>, k: nat, path: seq<nat>, n: int): List<Datum>
    decreases |path|, 1, us
  {
    if us.Nil? then Nil
    else if k == 0 then Cons(Changed(us.head, path, n), us.tail)
    else Cons(us.head, ChangedIn(us.tail, k - 1, path, n))
  }

  predicate OnStack<V>(frames: seq<map<Name, V>>, sl: Slot) {
    sl.depth < |frames| && sl.x in frames[sl.depth]
  }

  // The place a borrowed variable is: its own, or for a binder of a borrowed match
  // the part it names.
  function Home(t: Store, sl: Slot): Spot {
    if OnStack(t.frames, sl) && t.frames[sl.depth][sl.x].Inside? then t.frames[sl.depth][sl.x].at else Spot(sl, [])
  }

  // A variable or a dereference is looked at where it is; any other expression
  // makes a value of its own.
  predicate IsPlace(e: Expr) {
    e.Var? || e.Deref?
  }

  // What is found under `*q`.
  function Designated(q: Expr, t: Store): Option<Spot>
    requires t.frames != []
  {
    match q
    case Var(x) =>
      if x !in Local(t) then None
      else
        (match Local(t)[x]
         case Lent(sl) => Some(Home(t, sl))
         case Inside(at) => Some(at)
         case Number(_) => None
         case _ => Some(Spot(Slot(|t.frames| - 1, x), [])))
    case Deref(r) => Designated(r, t)
    case _ => None
  }

  function At(t: Store, at: Spot): Option<Datum> {
    if OnStack(t.frames, at.root) then PartOf(t.frames[at.root.depth][at.root.x], at.path) else None
  }

  function Put(t: Store, at: Spot, n: int): Store {
    if !OnStack(t.frames, at.root) then t
    else
      var f: Vars := t.frames[at.root.depth];
      var f': Vars := f[at.root.x := Changed(f[at.root.x], at.path, n)];
      t.(frames := t.frames[at.root.depth := f'])
  }

  // One of the paths leads into what the other leads to.
  predicate Nested(a: seq<nat>, b: seq<nat>)
    decreases |a|
  {
    a == [] || b == [] || (a[0] == b[0] && Nested(a[1..], b[1..]))
  }

  lemma {:induction false} ChangedReads(u: Datum, path: seq<nat>, n: int)
    requires var v := PartOf(u, path); v.Some? && (v.value.Number? || v.value.Owner?)
    ensures PartOf(Changed(u, path, n), path) == Some(if PartOf(u, path).value.Number? then Number(n) else Owner(n))
    decreases |path|, 0
  {
    if path != [] {
      ChangedInReads(u.parts, path[0], path[1..], n);
    }
  }

  lemma {:induction false} ChangedInReads(us: List<Datum>, k: nat, path: seq<nat>, n: int)
    requires var v := PartIn(us, k, path); v.Some? && (v.value.Number? || v.value.Owner?)
    ensures PartIn(ChangedIn(us, k, path, n), k, path)
      == Some(if PartIn(us, k, path).value.Number? then Number(n) else Owner(n))
    decreases |path|, 1, us
  {
    if k == 0 {
      ChangedReads(us.head, path, n);
    } else {
      ChangedInReads(us.tail, k - 1, path, n);
    }
  }

  lemma {:induction false} ChangedElsewhere(u: Datum, path: seq<nat>, other: seq<nat>, n: int)
    requires !Nested(path, other)
    ensures PartOf(Changed(u, path, n), other) == PartOf(u, other)
    decreases |path|, 0
  {
    if u.Made? {
      ChangedInElsewhere(u.parts, path[0], path[1..], other[0], other[1..], n);
    }
  }

  lemma {:induction false} ChangedInElsewhere(us: List<Datum>, k: nat, path: seq<nat>, j: nat, other: seq<nat>, n: int)
    requires k != j || !Nested(path, other)
    ensures PartIn(ChangedIn(us, k, path, n), j, other) == PartIn(us, j, other)
    decreases |path|, 1, us
  {
    if us.Cons? {
      if k == 0 {
        if j == 0 {
          ChangedElsewhere(us.head, path, other, n);
        }
      } else if j > 0 {
        ChangedInElsewhere(us.tail, k - 1, path, j - 1, other, n);
      }
    }
  }

  // A store is read back, and read nowhere else.
  lemma {:induction false} PutReads(t: Store, at: Spot, other: Spot, n: int)
    requires var v := At(t, at); v.Some? && (v.value.Number? || v.value.Owner?)
    ensures At(Put(t, at, n), at) == Some(if At(t, at).value.Number? then Number(n) else Owner(n))
    ensures at.root != other.root || !Nested(at.path, other.path) ==> At(Put(t, at, n), other) == At(t, other)
  {
    var u := t.frames[at.root.depth][at.root.x];
    ChangedReads(u, at.path, n);
    if at.root == other.root && !Nested(at.path, other.path) {
      ChangedElsewhere(u, at.path, other.path, n);
    }
  }

  // -------------------------------------------------------------------------
  // Matching
  // -------------------------------------------------------------------------

  predicate Suits(q: Pat, u: Datum)
    decreases q, 1
  {
    match q
    case PVar(_, _) => true
    case PWild => true
    case PCtor(tag, subs) => u.Made? && u.tag == tag && AllSuit(subs, u.parts)
  }

  predicate AllSuit(qs: List<Pat>, us: List<Datum>)
    decreases qs, 0
  {
    match qs
    case Nil => true
    case Cons(q, t) => us.Cons? && Suits(q, us.head) && AllSuit(t, us.tail)
  }

  // A binder gets the part it matches; in a match on a borrow, found at a place, it
  // gets an integer as it is and names any other part.
  function Binding(f: Vars, q: Pat, u: Datum, at: Option<Spot>): Vars
    decreases q, 1
  {
    match q
    case PVar(x, _) => f[x := if at.Some? && !u.Number? then Inside(at.value) else u]
    case PWild => f
    case PCtor(_, subs) => if u.Made? then BindingAll(f, subs, u.parts, at, 0) else f
  }

  function BindingAll(f: Vars, qs: List<Pat>, us: List<Datum>, at: Option<Spot>, k: nat): Vars
    decreases qs, 0
  {
    match qs
    case Nil => f
    case Cons(q, t) =>
      if us.Nil? then f
      else
        var part := if at.Some? then Some(at.value.(path := at.value.path + [k])) else None;
        BindingAll(Binding(f, q, us.head, part), t, us.tail, at, k + 1)
  }

  // -------------------------------------------------------------------------
  // Expressions
  // -------------------------------------------------------------------------

  function Failing<T, U>(r: Outcome<T>): Outcome<U>
    requires !r.Gives?
  {
    match r
    case Stops(printed, error) => Stops(printed, error)
    case Stuck => Stuck
    case Tired => Tired
  }

  function Means(p: Program, input: nat -> int, e: Expr, t: Store, fuel: nat): Outcome<Datum>
    requires t.frames != []
    ensures var r := Means(p, input, e, t, fuel); r.Gives? ==> |r.t.frames| == |t.frames|
    decreases fuel, 0, e, 1
  {
    match e
    case Num(n) => Gives(Number(n), t)
    case Input => Gives(Number(Wrap(input(t.drawn))), t.(drawn := t.drawn + 1))
    case Var(x) => if x in Local(t) then Gives(Local(t)[x], t) else Stuck
    case Borrow(x) => if x in Local(t) then Gives(Lent(Slot(|t.frames| - 1, x)), t) else Stuck
    case Bin(op, l, r) =>
      var a := Means(p, input, l, t, fuel);
      if !a.Gives? then a
      else
        var b := Means(p, input, r, a.t, fuel);
        if !b.Gives? then b
        else if !a.value.Number? || !b.value.Number? then Stuck
        else
          var n := Arith(op, a.value.n, b.value.n);
          if n.None? then Stops(b.t.printed, None) else Gives(Number(n.value), b.t)
    case Alloc(i) =>
      var a := Means(p, input, i, t, fuel);
      if !a.Gives? then a else if !a.value.Number? then Stuck else Gives(Owner(a.value.n), a.t)
    case New(tag, args) =>
      var a := MeansAll(p, input, args, t, fuel);
      if !a.Gives? then Failing(a) else Gives(Made(tag, a.value), a.t)
    case Call(f, args) =>
      var a := MeansAll(p, input, args, t, fuel);
      if !a.Gives? then Failing(a)
      else if fuel == 0 then Tired
      else CallMeans(p, input, f, a.value, a.t, fuel - 1)
    case Deref(q) =>
      if IsPlace(q) then
        var at := Designated(q, t);
        var u := if at.Some? then At(t, at.value) else None;
        if u.Some? && (u.value.Number? || u.value.Owner?) then Gives(Number(u.value.n), t) else Stuck
      else
        var a := Means(p, input, q, t, fuel);
        if !a.Gives? then a else if !a.value.Owner? then Stuck else Gives(Number(a.value.n), a.t)
  }

  function MeansAll(p: Program, input: nat -> int, es: List<Expr>, t: Store, fuel: nat): Outcome<List<Datum>>
    requires t.frames != []
    ensures var r := MeansAll(p, input, es, t, fuel); r.Gives? ==> |r.t.frames| == |t.frames|
    decreases fuel, 0, es, 0
  {
    match es
    case Nil => Gives(Nil, t)
    case Cons(e, rest) =>
      var a := Means(p, input, e, t, fuel);
      if !a.Gives? then Failing(a)
      else
        var b := MeansAll(p, input, rest, a.t, fuel);
        if !b.Gives? then b else Gives(Cons(a.value, b.value), b.t)
  }

  function Blank(xs: set<Name>): (f: Vars)
    ensures f.Keys == xs && forall x | x in xs :: f[x] == Number(0)
  {
    if xs == {} then map[]
    else
      var m := Least(xs);
      Blank(xs - {m})[m := Number(0)]
  }

  function CallMeans(p: Program, input: nat -> int, f: Name, us: List<Datum>, t: Store, fuel: nat): Outcome<Datum>
    ensures var r := CallMeans(p, input, f, us, t, fuel); r.Gives? ==> |r.t.frames| == |t.frames|
    decreases fuel, 2
  {
    if f !in p.funs then Stuck
    else
      var fun := p.funs[f];
      var frame := Bind(fun.formals, us, Blank(fun.locals));
      if frame.None? then Stuck
      else
        var r := BodyMeans(p, input, fun, t.(frames := t.frames + [frame.value]), fuel);
        if !r.Gives? then r else Gives(r.value, r.t.(frames := r.t.frames[..|r.t.frames| - 1]))
  }

  function BodyMeans(p: Program, input: nat -> int, fun: Fun, t: Store, fuel: nat): Outcome<Datum>
    requires t.frames != []
    ensures var r := BodyMeans(p, input, fun, t, fuel); r.Gives? ==> |r.t.frames| == |t.frames|
    decreases fuel, 1
  {
    var r := DoesAll(p, input, fun.body, t, fuel);
    if !r.Gives? then Failing(r) else Means(p, input, fun.ret, r.t, fuel)
  }

  // -------------------------------------------------------------------------
  // Statements
  // -------------------------------------------------------------------------

  function Does(p: Program, input: nat -> int, c: Stmt, t: Store, fuel: nat): Outcome<()>
    requires t.frames != []
    ensures var r := Does(p, input, c, t, fuel); r.Gives? ==> |r.t.frames| == |t.frames|
    decreases fuel, 0, c, 1
  {
    match c
    case Assign(x, rhs) =>
      var v := Means(p, input, rhs, t, fuel);
      if !v.Gives? then Failing(v) else Gives((), WithLocal(v.t, Local(v.t)[x := v.value]))
    case Write(target, rhs) =>
      if IsPlace(target) then
        var at := Designated(target, t);
        var v := Means(p, input, rhs, t, fuel);
        if !v.Gives? then Failing(v)
        else if at.None? || !v.value.Number? then Stuck
        else Gives((), Put(v.t, at.value, v.value.n))
      else
        var q := Means(p, input, target, t, fuel);
        if !q.Gives? then Failing(q)
        else
          var v := Means(p, input, rhs, q.t, fuel);
          if !v.Gives? then Failing(v) else Gives((), v.t)
    case Block(cs) => DoesAll(p, input, cs, t, fuel)
    case If(e, c1, c2) =>
      var v := Means(p, input, e, t, fuel);
      if !v.Gives? then Failing(v)
      else if !v.value.Number? then Stuck
      else Does(p, input, if v.value.n != 0 then c1 else c2, v.t, fuel)
    case While(e, b) =>
      var v := Means(p, input, e, t, fuel);
      if !v.Gives? then Failing(v)
      else if !v.value.Number? then Stuck
      else if v.value.n == 0 then Gives((), v.t)
      else
        var r := Does(p, input, b, v.t, fuel);
        if !r.Gives? then r
        else if fuel == 0 then Tired
        else Does(p, input, c, r.t, fuel - 1)
    case Output(e) =>
      var v := Means(p, input, e, t, fuel);
      if !v.Gives? then Failing(v)
      else if !v.value.Number? then Stuck
      else Gives((), v.t.(printed := v.t.printed + [v.value.n]))
    case Error(e) =>
      var v := Means(p, input, e, t, fuel);
      if !v.Gives? then Failing(v)
      else if !v.value.Number? then Stuck
      else Stops(v.t.printed, Some(v.value.n))
    case Case(e, arms) =>
      if Consuming(e) then
        var v := Means(p, input, e, t, fuel);
        if !v.Gives? then Failing(v) else ArmsMean(p, input, arms, v.value, None, v.t, fuel)
      else
        var at := Designated(e.ptr, t);
        var u := if at.Some? then At(t, at.value) else None;
        if u.None? then Stuck else ArmsMean(p, input, arms, u.value, at, t, fuel)
    case Destroy(_, _) => Gives((), t)
  }

  function DoesAll(p: Program, input: nat -> int, cs: List<Stmt>, t: Store, fuel: nat): Outcome<()>
    requires t.frames != []
    ensures var r := DoesAll(p, input, cs, t, fuel); r.Gives? ==> |r.t.frames| == |t.frames|
    decreases fuel, 0, cs, 0
  {
    match cs
    case Nil => Gives((), t)
    case Cons(c, rest) =>
      var r := Does(p, input, c, t, fuel);
      if !r.Gives? then r else DoesAll(p, input, rest, r.t, fuel)
  }

  // The first arm that suits; its binders hide what had their names.
  function ArmsMean(p: Program, input: nat -> int, arms: List<Arm>, u: Datum, at: Option<Spot>, t: Store,
      fuel: nat): Outcome<()>
    requires t.frames != []
    ensures var r := ArmsMean(p, input, arms, u, at, t, fuel); r.Gives? ==> |r.t.frames| == |t.frames|
    decreases fuel, 0, arms, 0
  {
    match arms
    case Nil => Stuck
    case Cons(arm, rest) =>
      if !u.Made? || arm.tag != u.tag || !AllSuit(arm.pats, u.parts) then ArmsMean(p, input, rest, u, at, t, fuel)
      else
        var f := BindingAll(Local(t), arm.pats, u.parts, at, 0);
        var r := Does(p, input, arm.body, WithLocal(t, f), fuel);
        if !r.Gives? then r
        else Gives((), WithLocal(r.t, Unshadow(Local(r.t), BindersOf(arm.pats), Local(t))))
  }
}
