/** The guarantees a whole program gets, and exactly when a write breaks them. */
module Theorems {
  import opened Optional
  import opened Syntax
  import opened Heap
  import opened Moves
  import opened Static
  import opened Facts
  import opened Machine
  import opened Ownership
  import opened Running
  import opened Steps
  import opened Calls
  import opened Frames
  import opened Matching
  import opened Safety
  import opened Watching

  predicate AllInts(vs: List<Value>) {
    match vs
    case Nil => true
    case Cons(v, t) => v.IntV? && AllInts(t)
  }

  predicate AllIntTys(ts: List<Ty>) {
    match ts
    case Nil => true
    case Cons(t, rest) => t.TInt? && AllIntTys(rest)
  }

  predicate SameLength<T, U>(xs: List<T>, ys: List<U>) {
    match xs
    case Nil => ys.Nil?
    case Cons(_, t) => ys.Cons? && SameLength(t, ys.tail)
  }

  lemma {:induction false} IntsPass(cs: map<Name, Ctor>, s: State, vs: List<Value>, ts: List<Ty>, bound: nat)
    requires AllInts(vs) && AllIntTys(ts) && SameLength(vs, ts)
    ensures Passed(cs, s, vs, ts, {}, bound) && CellsOf(s.heap, vs, bound) == {}
    decreases vs
  {
    if vs.Cons? {
      IntsPass(cs, s, vs.tail, ts.tail, bound);
    }
  }

  // The repository's claim, for all programs: a run of an accepted program never
  // touches a freed cell, and one that returns an integer has freed every cell it
  // ever allocated. Every input, every branch, every number of iterations. The
  // claim holds up to the first step that no pass guards; a program whose every
  // statement was written with care has no such step; and where that step is a
  // store through an owner just moved, the run faults.
  lemma {:induction false} ProgramSafe(p: Program, main: Name, vs: List<Value>, input: nat -> int, fuel: nat)
    requires Accepted(p) && main in p.funs
    requires var fun := p.funs[main];
      var ts := FormalTys(fun.formals, fun.tys);
      AllIntTys(ts) && AllInts(vs) && SameLength(vs, ts) && fun.retTy.TInt?
    ensures var w, s := World(p, map[], input, true), State([], map[], 0, 0, []);
      var watched, r := Invoke(w, main, vs, s, fuel), Invoke(Real(w), main, vs, s, fuel);
      && (!watched.Strays? ==> !r.Fault? && (r.Done? ==> r.value.IntV? && r.s.heap == map[] && r.s.frames == []))
      && (watched == Strays(MovedTarget) ==> r.Fault?)
      && (Careful(p) ==> !watched.Strays?)
  {
    var w, s := World(p, map[], input, true), State([], map[], 0, 0, []);
    IntsPass(p.ctors, s, vs, FormalTys(p.funs[main].formals, p.funs[main].tys), 0);
    InvokeSafe(w, main, vs, s, {}, fuel);
    InvokeFollows(w, main, vs, s, fuel);
  }

  // When a write faults: the target's address is computed before the right-hand
  // side, and nothing stops the right-hand side from moving the owner it was read
  // from. Of any accepted write, in any accepted program, the store hits a freed
  // cell exactly when it does.
  lemma {:induction false} WriteFaultsExactly(w: World, target: Expr, rhs: Expr, sc: Scope, st: StateMap, d: set<Name>,
      s: State, lent: set<nat>, flight: set<nat>, fuel: nat)
    requires Ready(w, sc, st, d, s, lent, flight)
    requires WfStmt(w.p, w.tys, Write(target, rhs), sc, d)
    requires AnalyzeStmt(w.p, w.tys, Write(target, rhs), st).Some?
    requires var q := Eval(w, target, s, fuel); !q.Strays? && (q.Done? ==> !Eval(w, rhs, q.s, fuel).Strays?)
    ensures var q, r := Eval(w, target, s, fuel), Exec(Real(w), Write(target, rhs), s, fuel);
      r.Fault? <==> q.Done? && Eval(w, rhs, q.s, fuel).Done? && MovesTarget(w, target, rhs)
  {
    WriteSafe(w, Write(target, rhs), sc, st, d, s, lent, flight, fuel);
    ExecFollows(w, Write(target, rhs), s, fuel);
    if target.Var? && MovesTarget(w, target, rhs) {
      PlaceMovesNothing(w, sc, target, st, {});
      TakeSafe(w, rhs, sc, st, d, s, lent, flight, fuel);
      TargetMoved(w, target.x, rhs, sc, st, d, s, lent, flight, fuel);
    }
  }
}
