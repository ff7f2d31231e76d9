/** Moves are copies. */
module Meaning {
  import opened Optional
  import opened Syntax
  import opened Heap
  import opened Moves
  import opened Static
  import opened Facts
  import opened Machine
  import opened Ownership
  import opened Running
  import opened Steps
  import opened Calls
  import opened Frames
  import opened Matching
  import opened Arms
  import opened Safety
  import opened Watching
  import opened Roots
  import opened Copying
  import opened Reading
  import opened Agreement
  import opened Twins
  import opened Places
  import opened ArmTwins

  // Generated code computes what the language without addresses says. A run of an
  // accepted function that comes back, without an unguarded step, returns what the
  // function means, prints what it prints, and leaves every variable it was lent as
  // the store says; one that stops with an error stops there too; and one that is not
  // over is not over there either.

  // One that stops with an error stops alike, and one whose steps are used up is not
  // over.
  ghost predicate StopsAlike<T, U>(r: Run<T>, q: Outcome<U>) {
    && (r.Halt? ==> q.Stops? && q.printed == r.printed && q.error == r.error)
    && (r.Spent? ==> q.Tired?)
  }

  // From s the run has come to s' and the meaning to t', which agree; and what no
  // borrow leads to has not been touched.
  ghost predicate Meant(w: World, sc: Scope, own: set<Name>, s: State, s': State, t': Store, lent: set<nat>,
      flight: set<nat>, k: Known) {
    && Twin(w, sc, own, s', t', lent, k)
    && SameCells(s.heap, s'.heap, Private(s, lent, k) + flight)
    && RootCells(s', k.roots) == RootCells(s, k.roots)
  }

  // The word v stands for u; if it is a borrow, of one of the variables kept.
  ghost predicate Denotes(w: World, sc: Scope, kept: set<Name>, s: State, t: Store, k: Known, v: Value, u: Datum) {
    && t.frames != []
    && u == Read(s.heap, v)
    && (v.SlotV? ==> Lendable(s, Lending(w, sc, kept, t, k), Slot(v.depth, v.x)))
  }

  ghost predicate DenoteAll(w: World, sc: Scope, kept: set<Name>, s: State, t: Store, k: Known, vs: List<Value>,
      us: List<Datum>) {
    match vs
    case Nil => us.Nil?
    case Cons(v, rest) =>
      && us.Cons?
      && Denotes(w, sc, kept, s, t, k, v, us.head)
      && DenoteAll(w, sc, kept, s, t, k, rest, us.tail)
  }

  // -------------------------------------------------------------------------
  // Single steps
  // -------------------------------------------------------------------------

  // A step that changes no variable and no cell but those it frees or makes.
  lemma {:induction false} StepMeant(w: World, sc: Scope, own: set<Name>, own': set<Name>, s: State, t: Store,
      s': State,
      t': Store, lent: set<nat>, flight0: set<nat>, flight: set<nat>, k: Known)
    requires Inv(w, sc, own, s, lent, flight0) && Twin(w, sc, own, s, t, lent, k) && own' <= own
    requires s'.frames == s.frames && t'.frames == t.frames && t'.drawn == s'.drawn && t'.printed == s'.printed
    requires SameCells(s.heap, s'.heap, lent + flight + CellsOwned(s.heap, Top(s), own'))
    ensures Meant(w, sc, own', s, s', t', lent, flight, k)
  {
    hide Inv;
    assert forall a | a in RootCells(s, k.roots) + CellsOwned(s.heap, Top(s), own') ::
      a in lent + flight + CellsOwned(s.heap, Top(s), own');
    TwinCarry(w, sc, own, own', s, t, s', t', lent, flight0, k);
  }

  lemma {:induction false} MeantThen(w: World, sc: Scope, own1: set<Name>, own2: set<Name>, s: State, s1: State,
      t1: Store, s2: State, t2: Store, lent: set<nat>, flight: set<nat>, flight1: set<nat>, k: Known)
    requires Meant(w, sc, own1, s, s1, t1, lent, flight, k) && Meant(w, sc, own2, s1, s2, t2, lent, flight1, k)
    requires flight <= flight1
    ensures Meant(w, sc, own2, s, s2, t2, lent, flight, k)
  {
    hide Twin, RootCells;
  }

  // A value in flight reads as it did when the next one has been computed.
  lemma {:induction false} StillDenotes(w: World, sc: Scope, kept: set<Name>, own: set<Name>, own': set<Name>,
      held: set<Name>, s0: State, s: State, t: Store, s': State, t': Store, lent: set<nat>, flight: set<nat>, k: Known,
      v: Value, ty: Ty, u: Datum)
    requires Evaluated(w, sc, own, held, s0, s, lent, flight, v, ty) && Denotes(w, sc, kept, s, t, k, v, u)
    requires Twin(w, sc, own, s, t, lent, k) && Twin(w, sc, own', s', t', lent, k)
    requires SameCells(s.heap, s'.heap, flight + Cells(s.heap, v)) && Stable(s, s', |s.frames|, lent)
    ensures Denotes(w, sc, kept, s', t', k, v, u)
  {
    hide Owns, Mirrors;
    if v.PtrV? {
      ReadFrame(w.p.ctors, s.heap, s'.heap, v, ty);
    } else if v.SlotV? {
      var sl := Slot(v.depth, v.x);
      StillLendable(w, sc, kept, own, own', s, t, s', t', lent, k, sl);
    }
  }

  lemma {:induction false} StillLendable(w: World, sc: Scope, kept: set<Name>, own: set<Name>, own': set<Name>,
      s: State, t: Store, s': State, t': Store, lent: set<nat>, k: Known, sl: Slot)
    requires Twin(w, sc, own, s, t, lent, k) && Twin(w, sc, own', s', t', lent, k)
    requires sc.aliases <= sc.names && Stable(s, s', |s.frames|, lent)
    requires Lendable(s, Lending(w, sc, kept, t, k), sl)
    ensures Lendable(s', Lending(w, sc, kept, t', k), sl)
  {
    hide Mirrors;
    WordStays(s, s', |s.frames|, lent, sl);
    if sl !in Lending(w, sc, kept, t, k).roots {
      var at :| Alias(sl, at) in Lending(w, sc, kept, t, k).parts;
      if Alias(sl, at) !in k.parts {
        assert sl.x in sc.aliases && sl.depth == |t.frames| - 1;
        assert TopMirrored(w, sc, own', s', t', k, sl.x);
        assert Alias(sl, Local(t')[sl.x].at) in TopParts(sc, t');
      }
    }
  }

  // -------------------------------------------------------------------------
  // Expressions
  // -------------------------------------------------------------------------

  lemma {:induction false} EvalMeans(w: World, e: Expr, pos: Pos, sc: Scope, st: StateMap, held: set<Name>,
      d: set<Name>,
      s: State, t: Store, lent: set<nat>, flight: set<nat>, k: Known, fuel: nat)
    requires Ready(w, sc, st, d, s, lent, flight) && Twin(w, sc, OwnedIn(st), s, t, lent, k)
    requires !pos.Place? && TypeOf(w.p, w.tys, sc, e, pos).Some?
    requires pos.Argument? ==> Borrowed(e) <= held
    requires Assigned(w.tys, sc, d, e)
    requires EvalExpr(w.p, w.tys, e, st, held).Some?
    requires !(e.Var? && IsOwnVar(w.tys, e.x))
    ensures var r, q, own := Eval(w, e, s, fuel), Means(w.p, w.input, e, t, fuel),
      OwnedIn(EvalExpr(w.p, w.tys, e, st, held).value);
      && StopsAlike(r, q)
      && (r.Done? ==>
            && q.Gives? && Meant(w, sc, own, s, r.s, q.t, lent, flight, k)
            && Denotes(w, sc, own * held, r.s, q.t, k, r.value, q.value))
    decreases fuel, 0, e, 1
  {
    hide Inv, Twin, Meant, Denotes, Setting;
    InputAgrees(w, sc, OwnedIn(st), s, t, lent, k);
    match e
    case Num(n) => ConstantMeans(w, sc, OwnedIn(st), held, s, t, s, t, lent, flight, k, n);
    case Input =>
      var r, q := Eval(w, e, s, fuel), Means(w.p, w.input, e, t, fuel);
      ConstantMeans(w, sc, OwnedIn(st), held, s, t, r.s, q.t, lent, flight, k, r.value.n);
    case Var(_) => NameMeans(w, e, pos, sc, st, held, d, s, t, lent, flight, k, fuel);
    case Borrow(_) => NameMeans(w, e, pos, sc, st, held, d, s, t, lent, flight, k, fuel);
    case Bin(_, _, _) => BinMeans(w, e, sc, st, held, d, s, t, lent, flight, k, fuel);
    case Alloc(_) => AllocMeans(w, e, sc, st, held, d, s, t, lent, flight, k, fuel);
    case New(_, _) => NewMeans(w, e, sc, st, held, d, s, t, lent, flight, k, fuel);
    case Call(_, _) => CallExprMeans(w, e, pos, sc, st, held, d, s, t, lent, flight, k, fuel);
    case Deref(_) => DerefMeans(w, e, pos, sc, st, held, d, s, t, lent, flight, k, fuel);
  }

  lemma InputAgrees(w: World, sc: Scope, own: set<Name>, s: State, t: Store, lent: set<nat>, k: Known)
    requires Twin(w, sc, own, s, t, lent, k)
    ensures s.frames != [] && |t.frames| == |s.frames| && t.drawn == s.drawn && t.printed == s.printed
  {
  }

  lemma {:induction false} ConstantMeans(w: World, sc: Scope, own: set<Name>, held: set<Name>, s: State, t: Store,
      s': State, t': Store, lent: set<nat>, flight: set<nat>, k: Known, n: int)
    requires Inv(w, sc, own, s, lent, flight) && Twin(w, sc, own, s, t, lent, k)
    requires s' == s.(drawn := s'.drawn) && t' == t.(drawn := s'.drawn)
    ensures Meant(w, sc, own, s, s', t', lent, flight, k)
    ensures Denotes(w, sc, own * held, s', t', k, IntV(n), Number(n))
  {
    InputAgrees(w, sc, own, s, t, lent, k);
    StepMeant(w, sc, own, own, s, t, s', t', lent, flight, flight, k);
  }

  lemma {:induction false} NameMeans(w: World, e: Expr, pos: Pos, sc: Scope, st: StateMap, held: set<Name>,
      d: set<Name>,
      s: State, t: Store, lent: set<nat>, flight: set<nat>, k: Known, fuel: nat)
    requires Ready(w, sc, st, d, s, lent, flight) && Twin(w, sc, OwnedIn(st), s, t, lent, k)
    requires e.Var? || e.Borrow?
    requires !pos.Place? && TypeOf(w.p, w.tys, sc, e, pos).Some?
    requires pos.Argument? ==> Borrowed(e) <= held
    requires Assigned(w.tys, sc, d, e)
    requires EvalExpr(w.p, w.tys, e, st, held).Some?
    requires !(e.Var? && IsOwnVar(w.tys, e.x))
    ensures var r, q := Eval(w, e, s, fuel), Means(w.p, w.input, e, t, fuel);
      && r.Done? && q.Gives? && Meant(w, sc, OwnedIn(st), s, r.s, q.t, lent, flight, k)
      && Denotes(w, sc, OwnedIn(st) * held, r.s, q.t, k, r.value, q.value)
  {
    hide Lends, Owns;
    var own := OwnedIn(st);
    InputAgrees(w, sc, own, s, t, lent, k);
    StepMeant(w, sc, own, own, s, t, s, t, lent, flight, flight, k) by {
      CellsOwnedLive(s.heap, Top(s), own);
      InvLive(w, sc, own, s, lent, flight);
    }
    if e.Var? {
      assert TopMirrored(w, sc, own, s, t, k, e.x);
    } else {
      OwnersPoint(w, sc, own, s, lent, flight);
      BorrowDenotes(w, e.owner, sc, own, held, s, t, lent, k);
    }
  }

  lemma OwnersPoint(w: World, sc: Scope, own: set<Name>, s: State, lent: set<nat>, flight: set<nat>)
    requires Inv(w, sc, own, s, lent, flight)
    ensures forall x | x in own :: x in Top(s) && Top(s)[x].PtrV?
  {
  }

  lemma InvLive(w: World, sc: Scope, own: set<Name>, s: State, lent: set<nat>, flight: set<nat>)
    requires Inv(w, sc, own, s, lent, flight)
    ensures lent + flight + CellsOwned(s.heap, Top(s), own) <= s.heap.Keys
  {
  }

  lemma {:induction false} BorrowDenotes(w: World, x: Name, sc: Scope, own: set<Name>, held: set<Name>, s: State,
      t: Store, lent: set<nat>, k: Known)
    requires s.frames != [] && Copies(w, sc, s, lent) && Twin(w, sc, own, s, t, lent, k)
    requires x in sc.names && x in w.tys && !w.tys[x].TBorrow? && x in held
    requires IsOwnVar(w.tys, x) && x !in sc.aliases ==> x in own && Top(s)[x].PtrV?
    ensures x in Top(s) && x in Local(t)
    ensures Denotes(w, sc, own * held, s, t, k, SlotV(|s.frames| - 1, x), Lent(Slot(|t.frames| - 1, x)))
  {
    assert TopMirrored(w, sc, own, s, t, k, x);
    var sl := Slot(|s.frames| - 1, x);
    if x in sc.aliases {
      assert Alias(sl, Local(t)[x].at) in TopParts(sc, t);
    } else {
      assert sl in TopRoots(w, sc, own * held, |s.frames| - 1);
    }
  }

  lemma {:induction false} BinMeans(w: World, e: Expr, sc: Scope, st: StateMap, held: set<Name>, d: set<Name>, s: State,
      t: Store, lent: set<nat>, flight: set<nat>, k: Known, fuel: nat)
    requires Ready(w, sc, st, d, s, lent, flight) && Twin(w, sc, OwnedIn(st), s, t, lent, k)
    requires e.Bin? && TypeOf(w.p, w.tys, sc, e, Taken).Some?
    requires Assigned(w.tys, sc, d, e)
    requires EvalExpr(w.p, w.tys, e, st, held).Some?
    ensures var r, q, own := Eval(w, e, s, fuel), Means(w.p, w.input, e, t, fuel),
      OwnedIn(EvalExpr(w.p, w.tys, e, st, held).value);
      && StopsAlike(r, q)
      && (r.Done? ==>
            && q.Gives? && Meant(w, sc, own, s, r.s, q.t, lent, flight, k)
            && Denotes(w, sc, own * held, r.s, q.t, k, r.value, q.value))
    decreases fuel, 0, e, 0
  {
    hide Inv, Stable, Setting, Twin, Meant, Lending;
    InputAgrees(w, sc, OwnedIn(st), s, t, lent, k);
    var l, r := e.left, e.right;
    EvalMovesExactly(w.p, w.tys, l, st, held);
    var st1 := EvalExpr(w.p, w.tys, l, st, held).value;
    EvalSafe(w, l, Taken, sc, st, held, d, s, lent, flight, fuel);
    EvalMeans(w, l, Taken, sc, st, held, d, s, t, lent, flight, k, fuel);
    var a, a' := Eval(w, l, s, fuel), Means(w.p, w.input, l, t, fuel);
    if a.Done? {
      assert flight + Cells(a.s.heap, a.value) == flight;
      MeantTwin(w, sc, OwnedIn(st1), s, a.s, a'.t, lent, flight, k);
      EvalSafe(w, r, Taken, sc, st1, held, d, a.s, lent, flight, fuel);
      EvalMeans(w, r, Taken, sc, st1, held, d, a.s, a'.t, lent, flight, k, fuel);
      var b, b' := Eval(w, r, a.s, fuel), Means(w.p, w.input, r, a'.t, fuel);
      if b.Done? {
        var own2 := OwnedIn(EvalExpr(w.p, w.tys, r, st1, held).value);
        MeantThen(w, sc, OwnedIn(st1), own2, s, a.s, a'.t, b.s, b'.t, lent, flight, flight, k);
        MeantTwin(w, sc, own2, s, b.s, b'.t, lent, flight, k);
        InputAgrees(w, sc, own2, b.s, b'.t, lent, k);
      }
    }
  }

  lemma {:induction false} AllocMeans(w: World, e: Expr, sc: Scope, st: StateMap, held: set<Name>, d: set<Name>,
      s: State, t: Store, lent: set<nat>, flight: set<nat>, k: Known, fuel: nat)
    requires Ready(w, sc, st, d, s, lent, flight) && Twin(w, sc, OwnedIn(st), s, t, lent, k)
    requires e.Alloc? && TypeOf(w.p, w.tys, sc, e, Taken).Some?
    requires Assigned(w.tys, sc, d, e)
    requires EvalExpr(w.p, w.tys, e, st, held).Some?
    ensures var r, q, own := Eval(w, e, s, fuel), Means(w.p, w.input, e, t, fuel),
      OwnedIn(EvalExpr(w.p, w.tys, e, st, held).value);
      && StopsAlike(r, q)
      && (r.Done? ==>
            && q.Gives? && Meant(w, sc, own, s, r.s, q.t, lent, flight, k)
            && Denotes(w, sc, own * held, r.s, q.t, k, r.value, q.value))
    decreases fuel, 0, e, 0
  {
    hide Owns, Copies, Twin, Lending, Private, RootCells;
    InputAgrees(w, sc, OwnedIn(st), s, t, lent, k);
    EvalSafe(w, e.init, Taken, sc, st, held, d, s, lent, flight, fuel);
    EvalMeans(w, e.init, Taken, sc, st, held, d, s, t, lent, flight, k, fuel);
    var a, a' := Eval(w, e.init, s, fuel), Means(w.p, w.input, e.init, t, fuel);
    if a.Done? {
      var own, r := OwnedIn(EvalExpr(w.p, w.tys, e.init, st, held).value), Allocate(a.s, IntCell(a.value.n));
      AllocatedMeans(w, sc, own, s, a.s, a'.t, lent, flight, flight + Cells(a.s.heap, a.value), k, IntCell(a.value.n));
    }
  }

  lemma {:induction false} AllocatedMeans(w: World, sc: Scope, own: set<Name>, s: State, s1: State, t1: Store,
      lent: set<nat>, flight: set<nat>, flight1: set<nat>, k: Known, cell: Cell)
    requires Inv(w, sc, own, s1, lent, flight1) && flight <= flight1
    requires Meant(w, sc, own, s, s1, t1, lent, flight, k)
    ensures var r := Allocate(s1, cell);
      && Meant(w, sc, own, s, r.s, t1, lent, flight, k)
      && SameCells(s1.heap, r.s.heap, s1.heap.Keys)
  {
    hide Owns, Copies, Twin, RootCells;
    var r := Allocate(s1, cell);
    InvLive(w, sc, own, s1, lent, flight1);
    InputAgrees(w, sc, own, s1, t1, lent, k);
    StepMeant(w, sc, own, own, s1, t1, r.s, t1, lent, flight1, flight1, k);
    MeantThen(w, sc, own, own, s, s1, t1, r.s, t1, lent, flight, flight1, k);
  }

  lemma {:induction false} NewMeans(w: World, e: Expr, sc: Scope, st: StateMap, held: set<Name>, d: set<Name>, s: State,
      t: Store, lent: set<nat>, flight: set<nat>, k: Known, fuel: nat)
    requires Ready(w, sc, st, d, s, lent, flight) && Twin(w, sc, OwnedIn(st), s, t, lent, k)
    requires e.New? && TypeOf(w.p, w.tys, sc, e, Taken).Some?
    requires Assigned(w.tys, sc, d, e)
    requires EvalExpr(w.p, w.tys, e, st, held).Some?
    ensures var r, q, own := Eval(w, e, s, fuel), Means(w.p, w.input, e, t, fuel),
      OwnedIn(EvalExpr(w.p, w.tys, e, st, held).value);
      && StopsAlike(r, q)
      && (r.Done? ==>
            && q.Gives? && Meant(w, sc, own, s, r.s, q.t, lent, flight, k)
            && Denotes(w, sc, own * held, r.s, q.t, k, r.value, q.value))
    decreases fuel, 0, e, 0
  {
    hide Owns, Copies, Lends, EvaluatedAll, Careful, Meant, Denotes, DenoteAll, Twin, Setting;
    InputAgrees(w, sc, OwnedIn(st), s, t, lent, k);
    var ts := w.p.ctors[e.tag].params;
    AllTakenCovers(w.p, w.tys, sc, e.args, ts);
    OperandsSafe(w, e.args, AllTaken(e.args), ts, Taken, sc, st, held, d, s, lent, flight, fuel);
    OperandsMean(w, e.args, AllTaken(e.args), ts, Taken, sc, st, held, d, s, t, lent, flight, k, fuel);
    var a, a' := EvalAll(w, e.args, s, fuel), MeansAll(w.p, w.input, e.args, t, fuel);
    if a.Done? {
      BoxMeans(w, sc, OwnedIn(EvalExpr(w.p, w.tys, e, st, held).value), held, s, a.s, a'.t, lent, flight, k, a.value,
        a'.value, e.tag);
    }
  }

  lemma {:induction false} BoxMeans(w: World, sc: Scope, own: set<Name>, held: set<Name>, s: State, s1: State,
      t1: Store,
      lent: set<nat>, flight: set<nat>, k: Known, vs: List<Value>, us: List<Datum>, tag: Name)
    requires Setting(w) && tag in w.p.ctors
    requires EvaluatedAll(w, sc, own, held, s, s1, lent, flight, vs, w.p.ctors[tag].params)
    requires Meant(w, sc, own, s, s1, t1, lent, flight, k) && DenoteAll(w, sc, own * held, s1, t1, k, vs, us)
    ensures var r := Allocate(s1, Box(tag, vs));
      && Meant(w, sc, own, s, r.s, t1, lent, flight, k)
      && Denotes(w, sc, own * held, r.s, t1, k, r.value, Made(tag, us))
  {
    hide Owns, Copies, Lends, Twin, Tree, Lending;
    InputAgrees(w, sc, own, s1, t1, lent, k);
    var r, ts, a := Allocate(s1, Box(tag, vs)), w.p.ctors[tag].params, s1.next;
    AllocatedMeans(w, sc, own, s, s1, t1, lent, flight, flight + CellsOf(s1.heap, vs, a), k, Box(tag, vs));
    ArgsForest(w, sc, own * held, s1, vs, ts, lent, a);
    CellsOfLive(s1.heap, vs, a);
    ReadAllFrame(w.p.ctors, s1.heap, r.s.heap, vs, ts, a);
    ForestFrame(w.p.ctors, s1.heap, r.s.heap, vs, ts, a);
    ForestReads(w.p.ctors, r.s.heap, vs, ts, a);
    DenotedRead(w, sc, own * held, s1, t1, k, vs, us);
  }

  lemma {:induction false} DenotedRead(w: World, sc: Scope, kept: set<Name>, s: State, t: Store, k: Known,
      vs: List<Value>, us: List<Datum>)
    requires DenoteAll(w, sc, kept, s, t, k, vs, us)
    ensures us == ReadAll(s.heap, vs)
    decreases vs
  {
    if vs.Cons? {
      DenotedRead(w, sc, kept, s, t, k, vs.tail, us.tail);
    }
  }

  lemma {:induction false} DerefMeans(w: World, e: Expr, pos: Pos, sc: Scope, st: StateMap, held: set<Name>,
      d: set<Name>, s: State, t: Store, lent: set<nat>, flight: set<nat>, k: Known, fuel: nat)
    requires Ready(w, sc, st, d, s, lent, flight) && Twin(w, sc, OwnedIn(st), s, t, lent, k)
    requires e.Deref? && !pos.Place?
    requires TypeOf(w.p, w.tys, sc, e, pos).Some?
    requires Assigned(w.tys, sc, d, e)
    requires EvalExpr(w.p, w.tys, e, st, held).Some?
    ensures var r, q, own := Eval(w, e, s, fuel), Means(w.p, w.input, e, t, fuel),
      OwnedIn(EvalExpr(w.p, w.tys, e, st, held).value);
      && StopsAlike(r, q)
      && (r.Done? ==>
            && q.Gives? && Meant(w, sc, own, s, r.s, q.t, lent, flight, k)
            && Denotes(w, sc, own * held, r.s, q.t, k, r.value, q.value))
    decreases fuel, 0, e, 0
  {
    hide Owns, Copies, Lends, Twin, Cells, Stable, Accepted, Careful, Lending;
    InputAgrees(w, sc, OwnedIn(st), s, t, lent, k);
    var q := e.ptr;
    if q.Var? || q.Deref? {
      PlaceMeans(w, e, pos, sc, st, held, d, s, t, lent, flight, k, fuel);
    } else {
      var st1 := EvalExpr(w.p, w.tys, q, st, held).value;
      assert q.Call? || q.Alloc?;
      if q.Call? {
        ReturnsNoBorrow(w, q.f);
        CallExprSafe(w, q, Place, sc, st, held, d, s, lent, flight, fuel);
        CallExprMeans(w, q, Place, sc, st, held, d, s, t, lent, flight, k, fuel);
      } else {
        EvalSafe(w, q, Taken, sc, st, held, d, s, lent, flight, fuel);
        EvalMeans(w, q, Taken, sc, st, held, d, s, t, lent, flight, k, fuel);
      }
      var a, a' := Eval(w, q, s, fuel), Means(w.p, w.input, q, t, fuel);
      if a.Done? {
        TemporaryMeans(w, sc, OwnedIn(st1), held, s, a.s, a'.t, lent, flight, k, a.value, a'.value);
      }
    }
  }

  lemma {:induction false} PlaceMeans(w: World, e: Expr, pos: Pos, sc: Scope, st: StateMap, held: set<Name>,
      d: set<Name>, s: State, t: Store, lent: set<nat>, flight: set<nat>, k: Known, fuel: nat)
    requires Ready(w, sc, st, d, s, lent, flight) && Twin(w, sc, OwnedIn(st), s, t, lent, k)
    requires e.Deref? && !pos.Place? && (e.ptr.Var? || e.ptr.Deref?)
    requires TypeOf(w.p, w.tys, sc, e, pos).Some?
    requires Assigned(w.tys, sc, d, e)
    requires EvalExpr(w.p, w.tys, e, st, held).Some?
    ensures EvalExpr(w.p, w.tys, e, st, held) == Some(st)
    ensures var r, q, own := Eval(w, e, s, fuel), Means(w.p, w.input, e, t, fuel), OwnedIn(st);
      && r.Done? && q.Gives? && Meant(w, sc, own, s, r.s, q.t, lent, flight, k)
      && Denotes(w, sc, own * held, r.s, q.t, k, r.value, q.value)
  {
    hide Owns, Copies, Twin, Cells, Stable, Accepted, Careful, Lending;
    var q, own := e.ptr, OwnedIn(st);
    InputAgrees(w, sc, own, s, t, lent, k);
    PlaceMovesNothing(w, sc, q, st, held);
    Look(w, sc, own, q, s, lent, flight, fuel);
    DesignatedFound(w, sc, own, q, s, t, lent, flight, k, fuel);
    if TypeOf(w.p, w.tys, sc, q, Place).value.TBorrow? {
      BorrowIsFormal(w, sc, q, Place);
    }
    InvLive(w, sc, own, s, lent, flight);
    StepMeant(w, sc, own, own, s, t, s, t, lent, flight, flight, k);
  }

  lemma {:induction false} TemporaryMeans(w: World, sc: Scope, own: set<Name>, held: set<Name>, s: State, s1: State,
      t1: Store, lent: set<nat>, flight: set<nat>, k: Known, v: Value, u: Datum)
    requires Evaluated(w, sc, own, held, s, s1, lent, flight, v, TOwn)
    requires Meant(w, sc, own, s, s1, t1, lent, flight, k) && Denotes(w, sc, own * held, s1, t1, k, v, u)
    ensures u == Owner(s1.heap[v.a].n)
    ensures Meant(w, sc, own, s, Release(v, s1), t1, lent, flight, k)
    ensures Denotes(w, sc, own * held, Release(v, s1), t1, k, IntV(s1.heap[v.a].n), Number(u.n))
  {
    hide Owns, Copies, Twin, Lending, RootCells;
    InvLive(w, sc, own, s1, lent, flight + Cells(s1.heap, v));
    InputAgrees(w, sc, own, s1, t1, lent, k);
    assert Cells(s1.heap, v) == {v.a};
    NotOwnedCell(w, sc, own, s1, lent, flight + Cells(s1.heap, v), v.a);
    StepMeant(w, sc, own, own, s1, t1, Release(v, s1), t1, lent, flight + Cells(s1.heap, v), flight, k);
    MeantThen(w, sc, own, own, s, s1, t1, Release(v, s1), t1, lent, flight, flight, k);
  }

  lemma NotOwnedCell(w: World, sc: Scope, own: set<Name>, s: State, lent: set<nat>, flight: set<nat>, a: nat)
    requires Inv(w, sc, own, s, lent, flight) && a in flight
    ensures a !in CellsOwned(s.heap, Top(s), own) && a !in lent
  {
  }

  lemma {:induction false} OperandMeans(w: World, e: Expr, taken: bool, ty: Ty, pos: Pos, sc: Scope, st: StateMap,
      held: set<Name>, d: set<Name>, s: State, t: Store, lent: set<nat>, flight: set<nat>, k: Known, fuel: nat)
    requires Ready(w, sc, st, d, s, lent, flight) && Twin(w, sc, OwnedIn(st), s, t, lent, k)
    requires !pos.Place? && TypeOf(w.p, w.tys, sc, e, pos) == Some(ty)
    requires IsOwn(ty) ==> taken
    requires pos.Argument? ==> Borrowed(e) <= held
    requires Assigned(w.tys, sc, d, e)
    requires OperandState(w.p, w.tys, e, taken, st, held).Some?
    ensures var r, q, own := Eval(w, e, s, fuel), Means(w.p, w.input, e, t, fuel),
      OwnedIn(OperandState(w.p, w.tys, e, taken, st, held).value);
      && StopsAlike(r, q)
      && (r.Done? ==>
            && q.Gives? && Meant(w, sc, own, s, r.s, q.t, lent, flight, k)
            && Denotes(w, sc, own * held, r.s, q.t, k, r.value, q.value))
    decreases fuel, 0, e, 2
  {
    hide Twin, Lends, Owns;
    if e.Var? && IsOwnVar(w.tys, e.x) {
      assert OwnedIn(st[e.x := Moved]) == OwnedIn(st) - {e.x};
      MovedMeans(w, sc, OwnedIn(st), held, s, t, lent, flight, k, e.x);
    } else {
      EvalMeans(w, e, pos, sc, st, held, d, s, t, lent, flight, k, fuel);
    }
  }

  // Taking an owner copies its value.
  lemma {:induction false} MovedMeans(w: World, sc: Scope, own: set<Name>, held: set<Name>, s: State, t: Store,
      lent: set<nat>, flight: set<nat>, k: Known, x: Name)
    requires Inv(w, sc, own, s, lent, flight) && Twin(w, sc, own, s, t, lent, k) && x in own
    ensures x in Top(s) && x in Local(t)
    ensures Meant(w, sc, own - {x}, s, s, t, lent, flight, k)
    ensures Denotes(w, sc, (own - {x}) * held, s, t, k, Top(s)[x], Local(t)[x])
  {
    hide Copies;
    assert TopMirrored(w, sc, own, s, t, k, x);
    InputAgrees(w, sc, own, s, t, lent, k);
    InvLive(w, sc, own, s, lent, flight);
    assert CellsOwned(s.heap, Top(s), own - {x}) <= CellsOwned(s.heap, Top(s), own);
    StepMeant(w, sc, own, own - {x}, s, t, s, t, lent, flight, flight, k);
  }

  lemma {:induction false} TakeMeans(w: World, e: Expr, sc: Scope, st: StateMap, d: set<Name>, s: State, t: Store,
      lent: set<nat>, flight: set<nat>, k: Known, fuel: nat)
    requires Ready(w, sc, st, d, s, lent, flight) && Twin(w, sc, OwnedIn(st), s, t, lent, k)
    requires TypeOf(w.p, w.tys, sc, e, Taken).Some?
    requires Assigned(w.tys, sc, d, e)
    requires Take(w.p, w.tys, e, st).Some?
    ensures var r, q, own := Eval(w, e, s, fuel), Means(w.p, w.input, e, t, fuel),
      OwnedIn(Take(w.p, w.tys, e, st).value);
      && StopsAlike(r, q)
      && (r.Done? ==>
            && q.Gives? && Meant(w, sc, own, s, r.s, q.t, lent, flight, k)
            && q.value == Read(r.s.heap, r.value))
    decreases fuel, 0, e, 3
  {
    hide Twin, Meant, Setting, Inv;
    OperandMeans(w, e, true, TypeOf(w.p, w.tys, sc, e, Taken).value, Taken, sc, st, {}, d, s, t, lent, flight, k, fuel);
  }

  lemma {:induction false} OperandsMean(w: World, es: List<Expr>, takes: List<bool>, ts: List<Ty>, pos: Pos, sc: Scope,
      st: StateMap, held: set<Name>, d: set<Name>, s: State, t: Store, lent: set<nat>, flight: set<nat>, k: Known,
      fuel: nat)
    requires Ready(w, sc, st, d, s, lent, flight) && Twin(w, sc, OwnedIn(st), s, t, lent, k)
    requires !pos.Place? && TypedAll(w.p, w.tys, sc, es, ts, pos)
    requires Covers(takes, ts)
    requires pos.Argument? ==> BorrowedIn(es) <= held
    requires AssignedAll(w.tys, sc, d, es)
    requires EvalOperands(w.p, w.tys, es, takes, st, held).Some?
    ensures var r, q, own := EvalAll(w, es, s, fuel), MeansAll(w.p, w.input, es, t, fuel),
      OwnedIn(EvalOperands(w.p, w.tys, es, takes, st, held).value);
      && StopsAlike(r, q)
      && (r.Done? ==>
            && q.Gives? && Meant(w, sc, own, s, r.s, q.t, lent, flight, k)
            && DenoteAll(w, sc, own * held, r.s, q.t, k, r.value, q.value))
    decreases fuel, 0, es, 0
  {
    hide Inv, Twin, Meant, Denotes, Tree, Setting, Eval, EvalExpr, Means, Stable, ArgLends;
    InputAgrees(w, sc, OwnedIn(st), s, t, lent, k);
    match es
    case Nil => NoOperands(w, sc, OwnedIn(st), s, t, lent, flight, k);
    case Cons(e, rest) =>
      var taken, others := takes.Cons? && takes.head, if takes.Cons? then takes.tail else Nil;
      var st1 := OperandState(w.p, w.tys, e, taken, st, held).value;
      OperandSafe(w, e, taken, ts.head, pos, sc, st, held, d, s, lent, flight, fuel);
      OperandMeans(w, e, taken, ts.head, pos, sc, st, held, d, s, t, lent, flight, k, fuel);
      var a, a' := Eval(w, e, s, fuel), Means(w.p, w.input, e, t, fuel);
      if a.Done? {
        var flight1 := flight + Cells(a.s.heap, a.value);
        MeantTwin(w, sc, OwnedIn(st1), s, a.s, a'.t, lent, flight, k);
        OperandsSafe(w, rest, others, ts.tail, pos, sc, st1, held, d, a.s, lent, flight1, fuel);
        OperandsMean(w, rest, others, ts.tail, pos, sc, st1, held, d, a.s, a'.t, lent, flight1, k, fuel);
        HeldKept(w, rest, others, st1, held);
        var b, b' := EvalAll(w, rest, a.s, fuel), MeansAll(w.p, w.input, rest, a'.t, fuel);
        if b.Done? {
          var own2 := OwnedIn(EvalOperands(w.p, w.tys, rest, others, st1, held).value);
          assert OwnedIn(st1) * held == own2 * held;
          NextMeans(w, sc, OwnedIn(st1), own2, held, s, a.s, a'.t, b.s, b'.t, lent, flight, k, a.value, ts.head,
            a'.value, b.value, ts.tail);
        }
      }
  }

  lemma MeantTwin(w: World, sc: Scope, own: set<Name>, s: State, s': State, t': Store, lent: set<nat>, flight: set<nat>,
      k: Known)
    requires Meant(w, sc, own, s, s', t', lent, flight, k)
    ensures Twin(w, sc, own, s', t', lent, k)
  {
  }

  lemma {:induction false} NoOperands(w: World, sc: Scope, own: set<Name>, s: State, t: Store, lent: set<nat>,
      flight: set<nat>, k: Known)
    requires Inv(w, sc, own, s, lent, flight) && Twin(w, sc, own, s, t, lent, k)
    ensures Meant(w, sc, own, s, s, t, lent, flight, k)
  {
    InputAgrees(w, sc, own, s, t, lent, k);
    InvLive(w, sc, own, s, lent, flight);
    StepMeant(w, sc, own, own, s, t, s, t, lent, flight, flight, k);
  }

  lemma {:induction false} NextMeans(w: World, sc: Scope, own1: set<Name>, own2: set<Name>, held: set<Name>, s: State,
      s1: State, t1: Store, s2: State, t2: Store, lent: set<nat>, flight: set<nat>, k: Known, v: Value, ty: Ty,
        u: Datum,
      vs: List<Value>, ts: List<Ty>)
    requires Evaluated(w, sc, own1, held, s, s1, lent, flight, v, ty) && own1 * held == own2 * held
    requires Meant(w, sc, own1, s, s1, t1, lent, flight, k) && Denotes(w, sc, own1 * held, s1, t1, k, v, u)
    requires EvaluatedAll(w, sc, own2, held, s1, s2, lent, flight + Cells(s1.heap, v), vs, ts)
    requires Meant(w, sc, own2, s1, s2, t2, lent, flight + Cells(s1.heap, v), k)
    ensures Meant(w, sc, own2, s, s2, t2, lent, flight, k)
    ensures Denotes(w, sc, own2 * held, s2, t2, k, v, u)
  {
    hide Twin, Denotes, Owns, Copies, RootCells;
    MeantThen(w, sc, own1, own2, s, s1, t1, s2, t2, lent, flight, flight + Cells(s1.heap, v), k);
    StillDenotes(w, sc, own1 * held, own1, own2, held, s, s1, t1, s2, t2, lent, flight, k, v, ty, u);
  }

  lemma {:induction false} CallExprMeans(w: World, e: Expr, pos: Pos, sc: Scope, st: StateMap, held: set<Name>,
      d: set<Name>, s: State, t: Store, lent: set<nat>, flight: set<nat>, k: Known, fuel: nat)
    requires Ready(w, sc, st, d, s, lent, flight) && Twin(w, sc, OwnedIn(st), s, t, lent, k)
    requires e.Call?
    requires TypeOf(w.p, w.tys, sc, e, pos).Some?
    requires Assigned(w.tys, sc, d, e)
    requires EvalExpr(w.p, w.tys, e, st, held).Some?
    ensures var r, q, own := Eval(w, e, s, fuel), Means(w.p, w.input, e, t, fuel),
      OwnedIn(EvalExpr(w.p, w.tys, e, st, held).value);
      && StopsAlike(r, q)
      && (r.Done? ==>
            && q.Gives? && Meant(w, sc, own, s, r.s, q.t, lent, flight, k)
            && Denotes(w, sc, own * held, r.s, q.t, k, r.value, q.value))
    decreases fuel, 0, e, 0
  {
    hide Inv, Twin, Meant, Denotes, DenoteAll, EvaluatedAll, Setting;
    InputAgrees(w, sc, OwnedIn(st), s, t, lent, k);
    var f, args := e.f, e.actuals;
    var ts := FormalTys(w.p.funs[f].formals, w.p.funs[f].tys);
    var held1 := held + BorrowedIn(args);
    FlagsCover(ts);
    OperandsSafe(w, args, Consumes(w.p, f), ts, Argument, sc, st, held1, d, s, lent, flight, fuel);
    OperandsMean(w, args, Consumes(w.p, f), ts, Argument, sc, st, held1, d, s, t, lent, flight, k, fuel);
    OperandsMoveExactly(w.p, w.tys, args, Consumes(w.p, f), st, held1);
    var a, a' := EvalAll(w, args, s, fuel), MeansAll(w.p, w.input, args, t, fuel);
    if a.Done? && fuel > 0 {
      var own := OwnedIn(EvalOperands(w.p, w.tys, args, Consumes(w.p, f), st, held1).value);
      CalleeMeans(w, sc, OwnedIn(st), own, held, held1, s, a.s, a'.t, lent, flight, k, f, a.value, a'.value, fuel - 1);
    }
  }

  // Everything the caller still has may be lent; afterwards it reads as it should.
  lemma {:induction false} CalleeMeans(w: World, sc: Scope, own0: set<Name>, own: set<Name>, kept: set<Name>,
      held: set<Name>, s: State, s1: State, t1: Store, lent: set<nat>, flight: set<nat>, k: Known, f: Name,
      vs: List<Value>, us: List<Datum>, fuel: nat)
    requires Setting(w) && f in w.p.funs
    requires Inv(w, sc, own0, s, lent, flight) && own <= own0
    requires EvaluatedAll(w, sc, own, held, s, s1, lent, flight, vs, FormalTys(w.p.funs[f].formals, w.p.funs[f].tys))
    requires Meant(w, sc, own, s, s1, t1, lent, flight, k) && DenoteAll(w, sc, own * held, s1, t1, k, vs, us)
    ensures var r, q := Invoke(w, f, vs, s1, fuel), CallMeans(w.p, w.input, f, us, t1, fuel);
      && StopsAlike(r, q)
      && (r.Done? ==>
            && q.Gives? && Meant(w, sc, own, s, r.s, q.t, lent, flight, k)
            && Denotes(w, sc, own * kept, r.s, q.t, k, r.value, q.value))
    decreases fuel, 2
  {
    hide Owns, Copies, Lends, Mirrors, Tree, DenoteAll;
    var ts := FormalTys(w.p.funs[f].formals, w.p.funs[f].tys);
    var all, rest := lent + flight + CellsOwned(s1.heap, Top(s1), own), CellsOf(s1.heap, vs, s1.next);
    ReturnsNoBorrow(w, f);
    Passes(w, sc, own, held, s, s1, lent, flight, vs, ts);
    InvokeSafe(w, f, vs, s1, all, fuel);
    TwinLends(w, sc, own, s1, t1, lent, flight + rest, k);
    MoreLent(w, sc, own * held, own, s1, t1, k, vs, us);
    InvokeMeans(w, f, vs, us, s1, t1, all, Lending(w, sc, own, t1, k), fuel);
    var r, q := Invoke(w, f, vs, s1, fuel), CallMeans(w.p, w.input, f, us, t1, fuel);
    if r.Done? {
      TwinReturns(w, sc, own, s1, t1, r.s, q.t, lent, flight + rest, all, k);
      CallKeeps(w, sc, own, s, s1, t1, r.s, lent, flight, rest, k);
      assert !r.value.SlotV? by {
        NoBorrow(w.p.ctors, r.s.heap, r.value, w.p.funs[f].retTy);
      }
    }
  }

  lemma {:induction false} NoBorrow(cs: map<Name, Ctor>, h: Memory, v: Value, ty: Ty)
    requires Tree(cs, h, v, ty)
    ensures !v.SlotV?
  {
  }

  // What the callee has not touched includes what the caller has in flight.
  lemma CallKeeps(w: World, sc: Scope, own: set<Name>, s: State, s1: State, t1: Store, s2: State, lent: set<nat>,
      flight: set<nat>, rest: set<nat>, k: Known)
    requires Inv(w, sc, own, s1, lent, flight + rest) && RootCells(s1, k.roots) == RootCells(s, k.roots) <= lent
    requires t1.frames != []
    requires var k', all := Lending(w, sc, own, t1, k), lent + flight + CellsOwned(s1.heap, Top(s1), own);
      && RootCells(s1, k'.roots) <= lent + CellsOwned(s1.heap, Top(s1), own)
      && RootCells(s1, k'.roots) * lent == RootCells(s1, k.roots)
      && SameCells(s1.heap, s2.heap, all - RootCells(s1, k'.roots))
    requires SameCells(s.heap, s1.heap, Private(s, lent, k) + flight)
    ensures SameCells(s.heap, s2.heap, Private(s, lent, k) + flight)
  {
    hide RootCells, Cells, CellsOwned, Copies, Lending;
    var k' := Lending(w, sc, own, t1, k);
    forall a | a in Private(s, lent, k) + flight
      ensures a in s.heap && a in s2.heap && s2.heap[a] == s.heap[a]
    {
      assert a !in RootCells(s1, k'.roots);
    }
  }

  lemma {:induction false} MoreLent(w: World, sc: Scope, kept: set<Name>, own: set<Name>, s: State, t: Store, k: Known,
      vs: List<Value>, us: List<Datum>)
    requires DenoteAll(w, sc, kept, s, t, k, vs, us) && kept <= own && t.frames != []
    ensures us == ReadAll(s.heap, vs) && AllLendable(s, Lending(w, sc, own, t, k), vs)
    decreases vs
  {
    if vs.Cons? {
      MoreLent(w, sc, kept, own, s, t, k, vs.tail, us.tail);
    }
  }

  ghost predicate AllLendable(s: State, k: Known, vs: List<Value>) {
    match vs
    case Nil => true
    case Cons(v, rest) => (v.SlotV? ==> Lendable(s, k, Slot(v.depth, v.x))) && AllLendable(s, k, rest)
  }

  // -------------------------------------------------------------------------
  // Destroys
  // -------------------------------------------------------------------------

  // What is left is as it was.
  ghost predicate Remains(h: Memory, h': Memory) {
    forall a | a in h' :: a in h && h'[a] == h[a]
  }

  lemma {:induction false} DestroyRemains(cs: map<Name, Ctor>, h: Memory, v: Value, ty: Ty, fuel: nat)
    ensures var r := DestroyValue(cs, h, v, ty, fuel); r.Freed? ==> Remains(h, r.h)
    decreases fuel, 1
  {
    if ty.TSum? && fuel > 0 && v.PtrV? && v.a in h && h[v.a].Box? {
      var box := h[v.a];
      PayloadsRemain(cs, h, v.a, box.fields, if box.tag in cs then cs[box.tag].params else Nil, fuel - 1);
    }
  }

  lemma {:induction false} PayloadsRemain(cs: map<Name, Ctor>, h: Memory, box: nat, vs: List<Value>, tys: List<Ty>,
      fuel: nat)
    ensures var r := DestroyPayloads(cs, h, box, vs, tys, fuel); r.Freed? ==> Remains(h, r.h)
    decreases fuel, 2, vs
  {
    if vs.Cons? && tys.Cons? {
      if !IsOwn(tys.head) {
        PayloadsRemain(cs, h, box, vs.tail, tys.tail, fuel);
      } else {
        DestroyRemains(cs, h, vs.head, tys.head, fuel);
        var r := DestroyValue(cs, h, vs.head, tys.head, fuel);
        if r.Freed? {
          PayloadsRemain(cs, r.h, box, vs.tail, tys.tail, fuel);
        }
      }
    }
  }

  lemma {:induction false} DestroysRemain(w: World, xs: List<Name>, s: State)
    requires s.frames != []
    ensures var r := DestroyVars(w, xs, s);
      r.Done? ==> r.s == s.(heap := r.s.heap) && Remains(s.heap, r.s.heap)
    decreases xs
  {
    if xs.Cons? {
      var r := DestroyVar(w, xs.head, s);
      if r.Done? {
        DestroyRemains(w.p.ctors, s.heap, Top(s)[xs.head], w.tys[xs.head], s.next);
        DestroysRemain(w, xs.tail, r.s);
      }
    }
  }

  // Owners that have not been destroyed hold the cells they held.
  lemma {:induction false} OwnersRemain(w: World, sc: Scope, own: set<Name>, s: State, s': State, lent: set<nat>,
      flight: set<nat>)
    requires Inv(w, sc, own, s', lent, flight) && s' == s.(heap := s'.heap) && Remains(s.heap, s'.heap)
    ensures CellsOwned(s.heap, Top(s), own) == CellsOwned(s'.heap, Top(s'), own)
    ensures SameCells(s.heap, s'.heap, lent + flight + CellsOwned(s.heap, Top(s), own))
  {
    forall x | x in own
      ensures Cells(s.heap, Top(s)[x]) == Cells(s'.heap, Top(s')[x])
    {
      CellsLive(s'.heap, Top(s')[x]);
      ReadFrame(w.p.ctors, s'.heap, s.heap, Top(s')[x], w.tys[x]);
    }
    InvLive(w, sc, own, s', lent, flight);
  }

  lemma {:induction false} DestroysMean(w: World, sc: Scope, own: set<Name>, s: State, t: Store, lent: set<nat>,
      flight: set<nat>, k: Known, xs: List<Name>)
    requires Inv(w, sc, own, s, lent, flight) && Twin(w, sc, own, s, t, lent, k)
    requires Distinct(xs) && Elems(xs) <= own
    ensures DestroyVars(w, xs, s).Done?
    ensures Meant(w, sc, own - Elems(xs), s, DestroyVars(w, xs, s).s, t, lent, flight, k)
  {
    hide Copies, Owns, Twin, DestroyVars;
    var r := DestroyVars(w, xs, s);
    InputAgrees(w, sc, own, s, t, lent, k);
    DestroyOwners(w, sc, own, s, lent, flight, xs);
    DestroysRemain(w, xs, s);
    OwnersRemain(w, sc, own - Elems(xs), s, r.s, lent, flight);
    StepMeant(w, sc, own, own - Elems(xs), s, t, r.s, t, lent, flight, flight, k);
  }

  // -------------------------------------------------------------------------
  // Calls
  // -------------------------------------------------------------------------

  // The formals, in order.
  lemma {:induction false} FormalsRead(h: Memory, formals: List<Name>, vs: List<Value>, us: List<Datum>, f: Frame,
      g: Vars, s: State, k: Known)
    requires Distinct(formals) && us == ReadAll(h, vs) && AllLendable(s, k, vs)
    requires Bind(formals, vs, f).Some?
    ensures Bind(formals, us, g).Some?
    ensures var f', g' := Bind(formals, vs, f).value, Bind(formals, us, g).value;
      && f'.Keys == f.Keys + Elems(formals) && g'.Keys == g.Keys + Elems(formals)
      && (forall x | x in f && x !in Elems(formals) :: f'[x] == f[x])
      && (forall x | x in g && x !in Elems(formals) :: g'[x] == g[x])
      && (forall x | x in Elems(formals) :: g'[x] == Read(h, f'[x]))
      && (forall x | x in Elems(formals) :: f'[x].SlotV? ==> Lendable(s, k, Slot(f'[x].depth, f'[x].x)))
    decreases formals
  {
    if formals.Cons? {
      var x := formals.head;
      FormalsRead(h, formals.tail, vs.tail, us.tail, f[x := vs.head], g[x := us.head], s, k);
    }
  }

  lemma {:induction false} EntryTwin(w: World, fun: Fun, s: State, t: Store, vs: List<Value>, us: List<Datum>,
      lent: set<nat>, k: Known)
    requires Accepted(w.p) && WfFun(w.p, fun) && w.tys == fun.tys
    requires Mirrors(w.p.ctors, s, t, |s.frames|, k) && RootCells(s, k.roots) <= lent
    requires us == ReadAll(s.heap, vs) && AllLendable(s, k, vs)
    requires Bind(fun.formals, vs, Zeros(fun.locals)).Some?
    ensures Bind(fun.formals, us, Blank(fun.locals)).Some?
    ensures var s0 := s.(frames := s.frames + [Bind(fun.formals, vs, Zeros(fun.locals)).value]);
      var t0 := t.(frames := t.frames + [Bind(fun.formals, us, Blank(fun.locals)).value]);
      && Twin(w, FunScope(fun), OwnedIn(Entry(fun)), s0, t0, lent, k)
      && RootCells(s0, k.roots) == RootCells(s, k.roots)
  {
    hide Mirrors, Accepted, Bind;
    var zeros: Frame := Zeros(fun.locals);
    FormalsRead(s.heap, fun.formals, vs, us, zeros, Blank(fun.locals), s, k);
    var f, g := Bind(fun.formals, vs, zeros).value, Bind(fun.formals, us, Blank(fun.locals)).value;
    var s0, t0 := s.(frames := s.frames + [f]), t.(frames := t.frames + [g]);
    FramePushed(w.p.ctors, s, t, f, g, k);
    forall x | x in FunScope(fun).names
      ensures TopMirrored(w, FunScope(fun), OwnedIn(Entry(fun)), s0, t0, k, x)
    {
      if f[x].SlotV? {
        assert s0.frames[f[x].depth] == s.frames[f[x].depth];
      }
    }
    assert |t.frames| == |s.frames| by {
      SameDepth(w.p.ctors, s, t, |s.frames|, k);
    }
  }

  lemma SameDepth(cs: map<Name, Ctor>, s: State, t: Store, n: nat, k: Known)
    requires Mirrors(cs, s, t, n, k)
    ensures |t.frames| == |s.frames|
  {
  }

  // The call of an accepted function gives what the function means, and leaves what
  // it was lent as the store says.
  lemma {:induction false} InvokeMeans(w: World, f: Name, vs: List<Value>, us: List<Datum>, s: State, t: Store,
      lent: set<nat>, k: Known, fuel: nat)
    requires Setting(w) && f in w.p.funs
    requires CallReady(w.p.ctors, s, vs, FormalTys(w.p.funs[f].formals, w.p.funs[f].tys), lent)
    requires Mirrors(w.p.ctors, s, t, |s.frames|, k) && RootCells(s, k.roots) <= lent
    requires us == ReadAll(s.heap, vs) && AllLendable(s, k, vs)
    ensures var r, q := Invoke(w, f, vs, s, fuel), CallMeans(w.p, w.input, f, us, t, fuel);
      && StopsAlike(r, q)
      && (r.Done? ==>
            && q.Gives? && q.value == Read(r.s.heap, r.value)
            && Mirrors(w.p.ctors, r.s, q.t, |s.frames|, k)
            && SameCells(s.heap, r.s.heap, Private(s, lent, k)))
    decreases fuel, 1, 1
  {
    hide Inv, Twin, Mirrors, RootCells, Bind, AnalyzeFunction, RunBody, BodyMeans, SameCells, Private, CallReady;
    assert FunAccepted(w.p, f);
    var fun := w.p.funs[f];
    EnterCall(w, fun, s, vs, lent);
    var w1 := w.(tys := fun.tys);
    EntryTwin(w1, fun, s, t, vs, us, lent, k);
    var frame, vars := Bind(fun.formals, vs, Zeros(fun.locals)).value, Bind(fun.formals, us, Blank(fun.locals)).value;
    var s0, t0 := s.(frames := s.frames + [frame]), t.(frames := t.frames + [vars]);
    RunBodyMeans(w1, fun, s0, t0, lent, k, fuel);
    SamePrivate(s, s0, lent, k);
    var r, q := RunBody(w1, fun, AnalyzeFunction(w.p, fun).value, s0, fuel), BodyMeans(w.p, w.input, fun, t0, fuel);
    if r.Done? {
      FrameDropped(w.p.ctors, r.s, q.t, k);
    }
  }

  lemma SamePrivate(s: State, s': State, lent: set<nat>, k: Known)
    requires RootCells(s', k.roots) == RootCells(s, k.roots)
    ensures Private(s', lent, k) == Private(s, lent, k)
  {
  }

  lemma {:induction false} RunBodyMeans(w: World, fun: Fun, s: State, t: Store, lent: set<nat>, k: Known, fuel: nat)
    requires Setting(w) && w.tys == fun.tys && WfFun(w.p, fun)
    requires AnalyzeFunction(w.p, fun).Some?
    requires Inv(w, FunScope(fun), OwnedIn(Entry(fun)), s, lent, {})
    requires Twin(w, FunScope(fun), OwnedIn(Entry(fun)), s, t, lent, k)
    ensures s.frames != [] && t.frames != []
    ensures var r, q := RunBody(w, fun, AnalyzeFunction(w.p, fun).value, s, fuel),
      BodyMeans(w.p, w.input, fun, t, fuel);
      && StopsAlike(r, q)
      && (r.Done? ==>
            && q.Gives? && q.value == Read(r.s.heap, r.value) && |r.s.frames| == |s.frames|
            && Mirrors(w.p.ctors, r.s, q.t, |s.frames| - 1, k)
            && SameCells(s.heap, r.s.heap, Private(s, lent, k)))
    decreases fuel, 1, 0
  {
    hide Inv, Twin, AnalyzeStmts, Take, ExecAll, Eval, DestroyVars, Meant, Evaluated, Stable, Mirrors;
    var code, sc := AnalyzeFunction(w.p, fun).value, FunScope(fun);
    var st := AnalyzeStmts(w.p, fun.tys, fun.body, Entry(fun)).value.st;
    var d := AssignedAfterAll(fun.tys, fun.body, Entry(fun).Keys);
    InputAgrees(w, sc, OwnedIn(Entry(fun)), s, t, lent, k);
    StatementsSafe(w, fun.body, sc, Entry(fun), s, lent, fuel);
    DoesAllSame(w, fun.body, sc, Entry(fun), s, t, lent, k, fuel);
    var r, q := ExecAll(w, code.body, s, fuel), DoesAll(w.p, w.input, fun.body, t, fuel);
    if r.Done? {
      MeantTwin(w, sc, OwnedIn(st), s, r.s, q.t, lent, {}, k);
      TakeSafe(w, fun.ret, sc, st, d, r.s, lent, {}, fuel);
      TakeMeans(w, fun.ret, sc, st, d, r.s, q.t, lent, {}, k, fuel);
      var v, v' := Eval(w, fun.ret, r.s, fuel), Means(w.p, w.input, fun.ret, q.t, fuel);
      if v.Done? {
        var own := OwnedIn(Take(w.p, fun.tys, fun.ret, st).value);
        MeantThen(w, sc, OwnedIn(st), own, s, r.s, q.t, v.s, v'.t, lent, {}, {}, k);
        ReturnMeans(w, sc, own, s, r.s, v.s, v'.t, lent, k, v.value, fun.retTy, code.exits);
      }
    }
  }

  lemma {:induction false} DoesAllSame(w: World, body: List<Stmt>, sc: Scope, st: StateMap, s: State, t: Store,
      lent: set<nat>, k: Known, fuel: nat)
    requires Setting(w) && Inv(w, sc, OwnedIn(st), s, lent, {}) && Twin(w, sc, OwnedIn(st), s, t, lent, k)
    requires WfStmts(w.p, w.tys, body, sc, st.Keys) && AnalyzeStmts(w.p, w.tys, body, st).Some?
    ensures s.frames != [] && t.frames != []
    ensures var a := AnalyzeStmts(w.p, w.tys, body, st).value;
      var r, q := ExecAll(w, a.code, s, fuel), DoesAll(w.p, w.input, body, t, fuel);
      && StopsAlike(r, q)
      && (r.Done? ==> q.Gives? && Meant(w, sc, OwnedIn(a.st), s, r.s, q.t, lent, {}, k))
    decreases fuel, 0, body, 1
  {
    hide Inv, Twin, Meant, AnalyzeStmts, ExecAll, DoesAll;
    InputAgrees(w, sc, OwnedIn(st), s, t, lent, k);
    ExecAllMeans(w, body, sc, st, st.Keys, s, t, lent, {}, k, fuel);
  }

  // The destroys at the exit leave the result and what was lent alone.
  lemma {:induction false} ReturnMeans(w: World, sc: Scope, own: set<Name>, s: State, s1: State, s2: State, t2: Store,
      lent: set<nat>, k: Known, v: Value, ty: Ty, exits: List<Name>)
    requires Evaluated(w, sc, own, {}, s1, s2, lent, {}, v, ty) && !ty.TBorrow?
    requires Meant(w, sc, own, s, s2, t2, lent, {}, k)
    requires Elems(exits) == own && Distinct(exits)
    ensures DestroyVars(w, exits, s2).Done?
    ensures var s3 := DestroyVars(w, exits, s2).s;
      && Read(s3.heap, v) == Read(s2.heap, v) && |s3.frames| == |s2.frames|
      && Mirrors(w.p.ctors, s3, t2, |s2.frames| - 1, k)
      && SameCells(s.heap, s3.heap, Private(s, lent, k))
  {
    hide Owns, Copies, DestroyVars, Mirrors, RootCells;
    DestroysMean(w, sc, own, s2, t2, lent, {} + Cells(s2.heap, v), k, exits);
    var s3 := DestroyVars(w, exits, s2).s;
    ReadFrame(w.p.ctors, s2.heap, s3.heap, v, ty);
    assert Private(s2, lent, k) == Private(s, lent, k);
  }

  // -------------------------------------------------------------------------
  // Statements
  // -------------------------------------------------------------------------

  lemma {:induction false} ExecMeans(w: World, c: Stmt, sc: Scope, st: StateMap, d: set<Name>, s: State, t: Store,
      lent: set<nat>, flight: set<nat>, k: Known, fuel: nat)
    requires Ready(w, sc, st, d, s, lent, flight) && Twin(w, sc, OwnedIn(st), s, t, lent, k)
    requires WfStmt(w.p, w.tys, c, sc, d)
    requires AnalyzeStmt(w.p, w.tys, c, st).Some?
    ensures s.frames != [] && t.frames != []
    ensures var a := AnalyzeStmt(w.p, w.tys, c, st).value;
      var r, q := Exec(w, a.code, s, fuel), Does(w.p, w.input, c, t, fuel);
      && StopsAlike(r, q)
      && (r.Done? ==> q.Gives? && Meant(w, sc, OwnedIn(a.st), s, r.s, q.t, lent, flight, k))
    decreases fuel, 0, c, 2
  {
    hide Inv, Twin, Meant;
    InputAgrees(w, sc, OwnedIn(st), s, t, lent, k);
    match c
    case Assign(x, rhs) => AssignMeans(w, x, rhs, sc, st, d, s, t, lent, flight, k, fuel);
    case Write(target, rhs) => WriteMeans(w, target, rhs, sc, st, d, s, t, lent, flight, k, fuel);
    case Block(cs) => ExecAllMeans(w, cs, sc, st, d, s, t, lent, flight, k, fuel);
    case If(e, c1, c2) => IfMeans(w, e, c1, c2, sc, st, d, s, t, lent, flight, k, fuel);
    case While(e, b) => WhileMeans(w, e, b, sc, st, d, s, t, lent, flight, k, fuel);
    case Output(e) =>
      CondMeans(w, e, sc, st, d, s, t, lent, flight, k, fuel);
      var v, v' := Eval(w, e, s, fuel), Means(w.p, w.input, e, t, fuel);
      if v.Done? {
        CondSafe(w, e, sc, st, d, s, lent, flight, fuel);
        PrintMeans(w, sc, OwnedIn(EvalExpr(w.p, w.tys, e, st, {}).value), s, v.s, v'.t, lent, flight, k, v.value.n);
      }
    case Error(e) =>
      CondMeans(w, e, sc, st, d, s, t, lent, flight, k, fuel);
      var v, v' := Eval(w, e, s, fuel), Means(w.p, w.input, e, t, fuel);
      if v.Done? {
        MeantTwin(w, sc, OwnedIn(EvalExpr(w.p, w.tys, e, st, {}).value), s, v.s, v'.t, lent, flight, k);
        InputAgrees(w, sc, OwnedIn(EvalExpr(w.p, w.tys, e, st, {}).value), v.s, v'.t, lent, k);
      }
    case Case(e, arms) => CaseMeans(w, e, arms, sc, st, d, s, t, lent, flight, k, fuel);
  }

  lemma {:induction false} PrintMeans(w: World, sc: Scope, own: set<Name>, s: State, s1: State, t1: Store,
      lent: set<nat>, flight: set<nat>, k: Known, n: int)
    requires Meant(w, sc, own, s, s1, t1, lent, flight, k) && Inv(w, sc, own, s1, lent, flight)
    ensures Meant(w, sc, own, s, s1.(printed := s1.printed + [n]), t1.(printed := t1.printed + [n]), lent, flight, k)
  {
    hide Copies, Owns;
    var s2, t2 := s1.(printed := s1.printed + [n]), t1.(printed := t1.printed + [n]);
    InputAgrees(w, sc, own, s1, t1, lent, k);
    InvLive(w, sc, own, s1, lent, flight);
    StepMeant(w, sc, own, own, s1, t1, s2, t2, lent, flight, flight, k);
    MeantThen(w, sc, own, own, s, s1, t1, s2, t2, lent, flight, flight, k);
  }

  lemma {:induction false} AssignMeans(w: World, x: Name, rhs: Expr, sc: Scope, st: StateMap, d: set<Name>, s: State,
      t: Store, lent: set<nat>, flight: set<nat>, k: Known, fuel: nat)
    requires Ready(w, sc, st, d, s, lent, flight) && Twin(w, sc, OwnedIn(st), s, t, lent, k)
    requires WfStmt(w.p, w.tys, Assign(x, rhs), sc, d)
    requires AnalyzeStmt(w.p, w.tys, Assign(x, rhs), st).Some?
    ensures s.frames != [] && t.frames != []
    ensures var a := AnalyzeStmt(w.p, w.tys, Assign(x, rhs), st).value;
      var r, q := Exec(w, a.code, s, fuel), Does(w.p, w.input, Assign(x, rhs), t, fuel);
      && StopsAlike(r, q)
      && (r.Done? ==> q.Gives? && Meant(w, sc, OwnedIn(a.st), s, r.s, q.t, lent, flight, k))
    decreases fuel, 0, Assign(x, rhs), 0
  {
    hide Owns, Copies, Lends, Tree, Stable, Twin, Meant, Eval, Means, EvalExpr, Setting;
    InputAgrees(w, sc, OwnedIn(st), s, t, lent, k);
    TakeSafe(w, rhs, sc, st, d, s, lent, flight, fuel);
    TakeMeans(w, rhs, sc, st, d, s, t, lent, flight, k, fuel);
    var v, v' := Eval(w, rhs, s, fuel), Means(w.p, w.input, rhs, t, fuel);
    if v.Done? {
      var st1 := Take(w.p, w.tys, rhs, st).value;
      AssignedMeans(w, sc, OwnedIn(st1), s, v.s, v'.t, lent, flight, k, x, v.value, v'.value);
      OwnedUpdate(st1, x);
    }
  }

  lemma {:induction false} AssignedMeans(w: World, sc: Scope, own: set<Name>, s: State, s1: State, t1: Store,
      lent: set<nat>, flight: set<nat>, k: Known, x: Name, v: Value, u: Datum)
    requires x in sc.names && x !in sc.aliases && x in w.tys && !w.tys[x].TBorrow?
    requires Evaluated(w, sc, own, {}, s, s1, lent, flight, v, w.tys[x])
    requires Meant(w, sc, own, s, s1, t1, lent, flight, k) && u == Read(s1.heap, v)
    ensures t1.frames != []
    ensures var s2, t2 := WithTop(s1, Top(s1)[x := v]), WithLocal(t1, Local(t1)[x := u]);
      Meant(w, sc, if IsOwn(w.tys[x]) then own + {x} else own, s, s2, t2, lent, flight, k)
  {
    hide Owns, Mirrors, TopAgrees;
    NoBorrow(w.p.ctors, s1.heap, v, w.tys[x]);
    TwinAssign(w, sc, own, s1, t1, lent, k, x, v, u);
  }

  lemma {:induction false} CondMeans(w: World, e: Expr, sc: Scope, st: StateMap, d: set<Name>, s: State, t: Store,
      lent: set<nat>, flight: set<nat>, k: Known, fuel: nat)
    requires Ready(w, sc, st, d, s, lent, flight) && Twin(w, sc, OwnedIn(st), s, t, lent, k)
    requires TypeOf(w.p, w.tys, sc, e, Taken) == Some(TInt) && Assigned(w.tys, sc, d, e)
    requires EvalExpr(w.p, w.tys, e, st, {}).Some?
    ensures s.frames != [] && t.frames != []
    ensures var r, q, own := Eval(w, e, s, fuel), Means(w.p, w.input, e, t, fuel),
      OwnedIn(EvalExpr(w.p, w.tys, e, st, {}).value);
      && StopsAlike(r, q)
      && (r.Done? ==>
            && q.Gives? && r.value.IntV? && q.value == Number(r.value.n)
            && Meant(w, sc, own, s, r.s, q.t, lent, flight, k))
    decreases fuel, 0, e, 3
  {
    hide Inv, Twin, Meant;
    InputAgrees(w, sc, OwnedIn(st), s, t, lent, k);
    CondSafe(w, e, sc, st, d, s, lent, flight, fuel);
    EvalMeans(w, e, Taken, sc, st, {}, d, s, t, lent, flight, k, fuel);
  }

  lemma {:induction false} IfMeans(w: World, e: Expr, c1: Stmt, c2: Stmt, sc: Scope, st: StateMap, d: set<Name>,
      s: State, t: Store, lent: set<nat>, flight: set<nat>, k: Known, fuel: nat)
    requires Ready(w, sc, st, d, s, lent, flight) && Twin(w, sc, OwnedIn(st), s, t, lent, k)
    requires WfStmt(w.p, w.tys, If(e, c1, c2), sc, d)
    requires AnalyzeStmt(w.p, w.tys, If(e, c1, c2), st).Some?
    ensures s.frames != [] && t.frames != []
    ensures var a := AnalyzeStmt(w.p, w.tys, If(e, c1, c2), st).value;
      var r, q := Exec(w, a.code, s, fuel), Does(w.p, w.input, If(e, c1, c2), t, fuel);
      && StopsAlike(r, q)
      && (r.Done? ==> q.Gives? && Meant(w, sc, OwnedIn(a.st), s, r.s, q.t, lent, flight, k))
    decreases fuel, 0, If(e, c1, c2), 0
  {
    hide Inv, Twin, Meant, Setting, AnalyzeStmt, Exec, Eval, EvalExpr, Means;
    InputAgrees(w, sc, OwnedIn(st), s, t, lent, k);
    IfAnalyzed(w.p, w.tys, e, c1, c2, st);
    var st1 := EvalExpr(w.p, w.tys, e, st, {}).value;
    var a1, a2 := AnalyzeStmt(w.p, w.tys, c1, st1).value, AnalyzeStmt(w.p, w.tys, c2, st1).value;
    IfRuns(w, e, a1.code, a2.code, s, fuel);
    CondSafe(w, e, sc, st, d, s, lent, flight, fuel);
    CondMeans(w, e, sc, st, d, s, t, lent, flight, k, fuel);
    var v, v' := Eval(w, e, s, fuel), Means(w.p, w.input, e, t, fuel);
    if v.Done? {
      MeantTwin(w, sc, OwnedIn(st1), s, v.s, v'.t, lent, flight, k);
      ExecMeans(w, c1, sc, st1, d, v.s, v'.t, lent, flight, k, fuel);
      ExecMeans(w, c2, sc, st1, d, v.s, v'.t, lent, flight, k, fuel);
      var r := Exec(w, if v.value.n != 0 then a1.code else a2.code, v.s, fuel);
      var q := Does(w.p, w.input, if v.value.n != 0 then c1 else c2, v'.t, fuel);
      if r.Done? {
        MeantThen(w, sc, OwnedIn(st1), OwnedIn(a1.st), s, v.s, v'.t, r.s, q.t, lent, flight, flight, k);
      }
    }
  }

  lemma {:induction false} WhileMeans(w: World, e: Expr, b: Stmt, sc: Scope, st: StateMap, d: set<Name>, s: State,
      t: Store, lent: set<nat>, flight: set<nat>, k: Known, fuel: nat)
    requires Ready(w, sc, st, d, s, lent, flight) && Twin(w, sc, OwnedIn(st), s, t, lent, k)
    requires WfStmt(w.p, w.tys, While(e, b), sc, d)
    requires AnalyzeStmt(w.p, w.tys, While(e, b), st).Some?
    ensures s.frames != [] && t.frames != []
    ensures var a := AnalyzeStmt(w.p, w.tys, While(e, b), st).value;
      var r, q := Exec(w, a.code, s, fuel), Does(w.p, w.input, While(e, b), t, fuel);
      && StopsAlike(r, q)
      && (r.Done? ==> q.Gives? && Meant(w, sc, OwnedIn(a.st), s, r.s, q.t, lent, flight, k))
    decreases fuel, 0, While(e, b), 0
  {
    hide Inv, Twin, Meant, Setting, AnalyzeStmt, Exec, Eval, EvalExpr, Means, Stable;
    InputAgrees(w, sc, OwnedIn(st), s, t, lent, k);
    WhileAnalyzed(w.p, w.tys, e, b, st);
    var a := AnalyzeStmt(w.p, w.tys, b, st).value;
    WhileRuns(w, e, a.code, s, fuel);
    CondSafe(w, e, sc, st, d, s, lent, flight, fuel);
    CondMeans(w, e, sc, st, d, s, t, lent, flight, k, fuel);
    var v, v' := Eval(w, e, s, fuel), Means(w.p, w.input, e, t, fuel);
    if v.Done? && v.value.n != 0 {
      MeantTwin(w, sc, OwnedIn(st), s, v.s, v'.t, lent, flight, k);
      ExecSafe(w, b, sc, st, d, v.s, lent, flight, fuel);
      ExecMeans(w, b, sc, st, d, v.s, v'.t, lent, flight, k, fuel);
      var r, q := Exec(w, a.code, v.s, fuel), Does(w.p, w.input, b, v'.t, fuel);
      if r.Done? && fuel > 0 {
        MeantThen(w, sc, OwnedIn(st), OwnedIn(st), s, v.s, v'.t, r.s, q.t, lent, flight, flight, k);
        MeantTwin(w, sc, OwnedIn(st), s, r.s, q.t, lent, flight, k);
        WhileMeans(w, e, b, sc, st, d, r.s, q.t, lent, flight, k, fuel - 1);
        var r', q' := Exec(w, While(e, a.code), r.s, fuel - 1), Does(w.p, w.input, While(e, b), q.t, fuel - 1);
        if r'.Done? {
          MeantThen(w, sc, OwnedIn(st), OwnedIn(st), s, r.s, q.t, r'.s, q'.t, lent, flight, flight, k);
        }
      }
    }
  }

  lemma {:induction false} ExecAllMeans(w: World, cs: List<Stmt>, sc: Scope, st: StateMap, d: set<Name>, s: State,
      t: Store, lent: set<nat>, flight: set<nat>, k: Known, fuel: nat)
    requires Ready(w, sc, st, d, s, lent, flight) && Twin(w, sc, OwnedIn(st), s, t, lent, k)
    requires WfStmts(w.p, w.tys, cs, sc, d)
    requires AnalyzeStmts(w.p, w.tys, cs, st).Some?
    ensures s.frames != [] && t.frames != []
    ensures var a := AnalyzeStmts(w.p, w.tys, cs, st).value;
      var r, q := ExecAll(w, a.code, s, fuel), DoesAll(w.p, w.input, cs, t, fuel);
      && StopsAlike(r, q)
      && (r.Done? ==> q.Gives? && Meant(w, sc, OwnedIn(a.st), s, r.s, q.t, lent, flight, k))
    decreases fuel, 0, cs, 0
  {
    hide Inv, Twin, Meant, Setting, AnalyzeStmt, Exec, Stable, Does;
    InputAgrees(w, sc, OwnedIn(st), s, t, lent, k);
    match cs
    case Nil => NoOperands(w, sc, OwnedIn(st), s, t, lent, flight, k);
    case Cons(c, rest) =>
      var a := AnalyzeStmt(w.p, w.tys, c, st).value;
      ExecSafe(w, c, sc, st, d, s, lent, flight, fuel);
      ExecMeans(w, c, sc, st, d, s, t, lent, flight, k, fuel);
      AssignedAreTracked(w.p, w.tys, c, sc, d, st);
      var r, q := Exec(w, a.code, s, fuel), Does(w.p, w.input, c, t, fuel);
      if r.Done? {
        MeantTwin(w, sc, OwnedIn(a.st), s, r.s, q.t, lent, flight, k);
        ExecAllMeans(w, rest, sc, a.st, AssignedAfter(w.tys, c, d), r.s, q.t, lent, flight, k, fuel);
        var a' := AnalyzeStmts(w.p, w.tys, rest, a.st).value;
        var r', q' := ExecAll(w, a'.code, r.s, fuel), DoesAll(w.p, w.input, rest, q.t, fuel);
        if r'.Done? {
          MeantThen(w, sc, OwnedIn(a.st), OwnedIn(a'.st), s, r.s, q.t, r'.s, q'.t, lent, flight, flight, k);
        }
      }
  }

  // -------------------------------------------------------------------------
  // Stores
  // -------------------------------------------------------------------------

  lemma {:induction false} WriteMeans(w: World, target: Expr, rhs: Expr, sc: Scope, st: StateMap, d: set<Name>,
      s: State, t: Store, lent: set<nat>, flight: set<nat>, k: Known, fuel: nat)
    requires Ready(w, sc, st, d, s, lent, flight) && Twin(w, sc, OwnedIn(st), s, t, lent, k)
    requires WfStmt(w.p, w.tys, Write(target, rhs), sc, d)
    requires AnalyzeStmt(w.p, w.tys, Write(target, rhs), st).Some?
    ensures s.frames != [] && t.frames != []
    ensures var a := AnalyzeStmt(w.p, w.tys, Write(target, rhs), st).value;
      var r, q := Exec(w, Write(target, rhs), s, fuel), Does(w.p, w.input, Write(target, rhs), t, fuel);
      && a.code == Write(target, rhs)
      && StopsAlike(r, q)
      && (r.Done? ==> q.Gives? && Meant(w, sc, OwnedIn(a.st), s, r.s, q.t, lent, flight, k))
    decreases fuel, 0, Write(target, rhs), 1
  {
    hide Inv, Twin, Meant;
    InputAgrees(w, sc, OwnedIn(st), s, t, lent, k);
    if target.Var? || target.Deref? {
      StoreMeans(w, target, rhs, sc, st, d, s, t, lent, flight, k, fuel);
    } else {
      StoreAwayMeans(w, target, rhs, sc, st, d, s, t, lent, flight, k, fuel);
    }
  }

  lemma {:induction false} StoreMeans(w: World, q: Expr, rhs: Expr, sc: Scope, st: StateMap, d: set<Name>, s: State,
      t: Store, lent: set<nat>, flight: set<nat>, k: Known, fuel: nat)
    requires Ready(w, sc, st, d, s, lent, flight) && Twin(w, sc, OwnedIn(st), s, t, lent, k)
    requires q.Var? || q.Deref?
    requires WfStmt(w.p, w.tys, Write(q, rhs), sc, d)
    requires AnalyzeStmt(w.p, w.tys, Write(q, rhs), st).Some?
    ensures s.frames != [] && t.frames != []
    ensures var a := AnalyzeStmt(w.p, w.tys, Write(q, rhs), st).value;
      var r, r' := Exec(w, Write(q, rhs), s, fuel), Does(w.p, w.input, Write(q, rhs), t, fuel);
      && StopsAlike(r, r')
      && (r.Done? ==> r'.Gives? && Meant(w, sc, OwnedIn(a.st), s, r.s, r'.t, lent, flight, k))
    decreases fuel, 0, Write(q, rhs), 0
  {
    hide Inv, Stable, Setting, Eval, Means, Twin, Meant, Content, PlaceOf, Cells, Target, WfStmt, AnalyzeStmt,
      Designated;
    InputAgrees(w, sc, OwnedIn(st), s, t, lent, k);
    PlaceReady(w, q, rhs, sc, st, d, s, t, lent, flight, k, fuel);
    TakeSafe(w, rhs, sc, st, d, s, lent, flight, fuel);
    TakeMeans(w, rhs, sc, st, d, s, t, lent, flight, k, fuel);
    var v, v' := Eval(w, rhs, s, fuel), Means(w.p, w.input, rhs, t, fuel);
    if MovesTarget(w, q, rhs) {
      TargetMoved(w, q.x, rhs, sc, st, d, s, lent, flight, fuel);
    } else {
      PlaceIsTarget(w, q, rhs, sc, st, d, s, lent, flight, fuel);
      if v.Done? {
        StoredMeans(w, sc, OwnedIn(st), OwnedIn(Take(w.p, w.tys, rhs, st).value), q, s, t, v.s, v'.t, lent, flight, k,
          Designated(q, t).value, Eval(w, q, s, fuel).value, v.value.n);
      }
    }
  }

  // Before the right-hand side: where the store will go.
  lemma {:induction false} PlaceReady(w: World, q: Expr, rhs: Expr, sc: Scope, st: StateMap, d: set<Name>, s: State,
      t: Store, lent: set<nat>, flight: set<nat>, k: Known, fuel: nat)
    requires Ready(w, sc, st, d, s, lent, flight) && Twin(w, sc, OwnedIn(st), s, t, lent, k)
    requires q.Var? || q.Deref?
    requires WfStmt(w.p, w.tys, Write(q, rhs), sc, d)
    requires AnalyzeStmt(w.p, w.tys, Write(q, rhs), st).Some?
    ensures s.frames != [] && t.frames != []
    ensures EvalExpr(w.p, w.tys, q, st, {}) == Some(st) && TypeOf(w.p, w.tys, sc, rhs, Taken) == Some(TInt)
    ensures Assigned(w.tys, sc, d, rhs) && Take(w.p, w.tys, rhs, st).Some?
    ensures AnalyzeStmt(w.p, w.tys, Write(q, rhs), st).value.st == Take(w.p, w.tys, rhs, st).value
    ensures var a, at := Eval(w, q, s, fuel), Designated(q, t);
      && a.Done? && a.s == s && at.Some? && PlaceOf(OwnedIn(st), s, k, q, at.value, Content(s, a.value))
      && (a.value.SlotV? && Content(s, a.value).IntV? ==>
            at.value == Spot(Slot(a.value.depth, a.value.x), []) && at.value.root in k.roots)
  {
    hide Owns, Copies, Lends, Eval, Twin, Content, PlaceOf;
    InputAgrees(w, sc, OwnedIn(st), s, t, lent, k);
    PlaceMovesNothing(w, sc, q, st, {});
    Look(w, sc, OwnedIn(st), q, s, lent, flight, fuel);
    DesignatedFound(w, sc, OwnedIn(st), q, s, t, lent, flight, k, fuel);
  }

  lemma {:induction false} StoredMeans(w: World, sc: Scope, own0: set<Name>, own: set<Name>, q: Expr, s: State,
      t: Store, s1: State, t1: Store, lent: set<nat>, flight: set<nat>, k: Known, at: Spot, a: Value, n: int)
    requires Inv(w, sc, own0, s, lent, flight) && Twin(w, sc, own0, s, t, lent, k)
    requires PlaceOf(own0, s, k, q, at, Content(s, a)) && Target(w, own, s, lent, q, a)
    requires a.SlotV? && Content(s, a).IntV? ==> at == Spot(Slot(a.depth, a.x), []) && at.root in k.roots
    requires Evaluated(w, sc, own, {}, s, s1, lent, flight, IntV(n), TInt)
    requires Meant(w, sc, own, s, s1, t1, lent, flight, k)
    ensures var r := WriteThrough(a, IntV(n), s1);
      r.Some? ==> Meant(w, sc, own, s, r.value, Put(t1, at, n), lent, flight, k)
  {
    hide Owns, Copies, Mirrors;
    var lower := |s.frames| - 1;
    assert flight + Cells(s1.heap, IntV(n)) == flight;
    if a.SlotV? {
      WordStays(s, s1, lower, lent, Slot(a.depth, a.x));
      TwinSet(w, sc, own, s1, t1, lent, k, Slot(a.depth, a.x), n);
    } else if at.root in k.roots && Spotted(s, at, a) && WriteThrough(a, IntV(n), s1).Some? {
      RootThere(w.p.ctors, s, t, lower, k, at.root);
      SpottedStays(w.p.ctors, s, t, s1, lower, lent, k, at, a);
      TwinStore(w, sc, own, s1, t1, lent, flight, k, at, a.a, n);
    } else if WriteThrough(a, IntV(n), s1).Some? {
      OwnTarget(w, sc, own0, own, q, s, s1, lent, flight, a);
      TwinStoreOwn(w, sc, own, s1, t1, lent, flight, k, q.x, n);
    }
  }

  lemma RootThere(cs: map<Name, Ctor>, s: State, t: Store, n: nat, k: Known, sl: Slot)
    requires Mirrors(cs, s, t, n, k) && sl in k.roots
    ensures RootMirrored(cs, s, t, n, k, sl)
  {
  }

  // An owner named as a target is not among the cells lent.
  lemma OwnTarget(w: World, sc: Scope, own0: set<Name>, own: set<Name>, q: Expr, s: State, s1: State, lent: set<nat>,
      flight: set<nat>, a: Value)
    requires Inv(w, sc, own0, s, lent, flight) && Stable(s, s1, |s.frames|, lent)
    requires q.Var? && q.x in own0 && a.PtrV? && a == Top(s)[q.x] && Target(w, own, s, lent, q, a)
    ensures q.x in own && w.tys[q.x] == TOwn && s1.frames != [] && q.x in Top(s1) && Top(s1)[q.x] == a
  {
    assert a.a in Cells(s.heap, a) && Cells(s.heap, a) <= CellsOwned(s.heap, Top(s), own0);
    assert Quiet(Top(s), Top(s1));
  }

  lemma {:induction false} StoreAwayMeans(w: World, q: Expr, rhs: Expr, sc: Scope, st: StateMap, d: set<Name>, s: State,
      t: Store, lent: set<nat>, flight: set<nat>, k: Known, fuel: nat)
    requires Ready(w, sc, st, d, s, lent, flight) && Twin(w, sc, OwnedIn(st), s, t, lent, k)
    requires !q.Var? && !q.Deref?
    requires WfStmt(w.p, w.tys, Write(q, rhs), sc, d)
    requires AnalyzeStmt(w.p, w.tys, Write(q, rhs), st).Some?
    ensures s.frames != [] && t.frames != []
    ensures var a := AnalyzeStmt(w.p, w.tys, Write(q, rhs), st).value;
      var r, r' := Exec(w, Write(q, rhs), s, fuel), Does(w.p, w.input, Write(q, rhs), t, fuel);
      && StopsAlike(r, r')
      && (r.Done? ==> r'.Gives? && Meant(w, sc, OwnedIn(a.st), s, r.s, r'.t, lent, flight, k))
    decreases fuel, 0, Write(q, rhs), 0
  {
    hide MovedBy, Owns, Copies, Lends, Setting, Tree, Stable, Eval, EvalExpr, Take, Twin, Meant, Means, Exec, Does,
      WriteThrough, WfStmt, TypeOf, Assigned;
    InputAgrees(w, sc, OwnedIn(st), s, t, lent, k);
    AwayTyped(w, q, rhs, sc, d);
    StoreRuns(w, q, rhs, s, t, fuel);
    EvalMovesExactly(w.p, w.tys, q, st, {});
    var st1 := EvalExpr(w.p, w.tys, q, st, {}).value;
    EvalSafe(w, q, Taken, sc, st, {}, d, s, lent, flight, fuel);
    EvalMeans(w, q, Taken, sc, st, {}, d, s, t, lent, flight, k, fuel);
    var a, a' := Eval(w, q, s, fuel), Means(w.p, w.input, q, t, fuel);
    if a.Done? {
      MeantTwin(w, sc, OwnedIn(st1), s, a.s, a'.t, lent, flight, k);
      AwayMeans(w, rhs, sc, st1, d, s, a.s, a'.t, lent, flight, k, fuel, a.value);
    }
  }

  // A temporary written through is an owner.
  lemma {:induction false} AwayTyped(w: World, q: Expr, rhs: Expr, sc: Scope, d: set<Name>)
    requires Setting(w) && WfStmt(w.p, w.tys, Write(q, rhs), sc, d) && !q.Var? && !q.Deref?
    ensures TypeOf(w.p, w.tys, sc, q, Taken) == Some(TOwn) && UnboundReference(w.p, q)
    ensures TypeOf(w.p, w.tys, sc, rhs, Taken) == Some(TInt)
    ensures Assigned(w.tys, sc, d, q) && Assigned(w.tys, sc, d, rhs)
  {
    hide Accepted;
    assert q.Call? || q.Alloc?;
    if q.Call? {
      ReturnsNoBorrow(w, q.f);
    }
  }

  // What a store through a temporary comes to.
  lemma {:induction false} StoreRuns(w: World, q: Expr, rhs: Expr, s: State, t: Store, fuel: nat)
    requires s.frames != [] && t.frames != [] && !q.Var? && !q.Deref?
    ensures var a, r := Eval(w, q, s, fuel), Exec(w, Write(q, rhs), s, fuel);
      && (!a.Done? ==> r == Failed(a))
      && (a.Done? ==>
            var v := Eval(w, rhs, a.s, fuel);
            && (!v.Done? ==> r == Failed(v))
            && (v.Done? ==>
                  var s1 := WriteThrough(a.value, v.value, v.s);
                  r == if s1.None? then Fault
                       else Done((), if UnboundReference(w.p, q) then Release(a.value, s1.value) else s1.value)))
    ensures var a, r := Means(w.p, w.input, q, t, fuel), Does(w.p, w.input, Write(q, rhs), t, fuel);
      && (!a.Gives? ==> r == Failing(a))
      && (a.Gives? ==>
            var v := Means(w.p, w.input, rhs, a.t, fuel);
            r == if v.Gives? then Gives((), v.t) else Failing(v))
  {
  }

  // A store into a temporary, which is then freed, changes nothing that is left.
  lemma {:induction false} AwayMeans(w: World, rhs: Expr, sc: Scope, st: StateMap, d: set<Name>, s: State, s1: State,
      t1: Store, lent: set<nat>, flight: set<nat>, k: Known, fuel: nat, a: Value)
    requires Evaluated(w, sc, OwnedIn(st), {}, s, s1, lent, flight, a, TOwn)
    requires Ready(w, sc, st, d, s1, lent, flight + Cells(s1.heap, a))
    requires Twin(w, sc, OwnedIn(st), s1, t1, lent, k) && Meant(w, sc, OwnedIn(st), s, s1, t1, lent, flight, k)
    requires TypeOf(w.p, w.tys, sc, rhs, Taken) == Some(TInt)
    requires Assigned(w.tys, sc, d, rhs) && Take(w.p, w.tys, rhs, st).Some?
    ensures s1.frames != [] && t1.frames != []
    ensures var v, v' := Eval(w, rhs, s1, fuel), Means(w.p, w.input, rhs, t1, fuel);
      && StopsAlike(v, v')
      && (v.Done? ==>
            && v'.Gives?
            && var r := WriteThrough(a, v.value, v.s);
               r.Some? ==>
                 Meant(w, sc, OwnedIn(Take(w.p, w.tys, rhs, st).value), s, Release(a, r.value), v'.t, lent, flight, k))
    decreases fuel, 0, rhs, 4
  {
    hide Owns, Copies, Twin, Meant;
    InputAgrees(w, sc, OwnedIn(st), s1, t1, lent, k);
    TakeSafe(w, rhs, sc, st, d, s1, lent, flight + Cells(s1.heap, a), fuel);
    TakeMeans(w, rhs, sc, st, d, s1, t1, lent, flight + Cells(s1.heap, a), k, fuel);
    var v, v' := Eval(w, rhs, s1, fuel), Means(w.p, w.input, rhs, t1, fuel);
    if v.Done? {
      var own2 := OwnedIn(Take(w.p, w.tys, rhs, st).value);
      AwayFreed(w, sc, OwnedIn(st), own2, s, s1, t1, v.s, v'.t, lent, flight, k, a, v.value);
    }
  }

  lemma {:induction false} AwayFreed(w: World, sc: Scope, own1: set<Name>, own: set<Name>, s: State, s1: State,
      t1: Store, s2: State, t2: Store, lent: set<nat>, flight: set<nat>, k: Known, a: Value, v: Value)
    requires Evaluated(w, sc, own1, {}, s, s1, lent, flight, a, TOwn)
    requires Evaluated(w, sc, own, {}, s1, s2, lent, flight + Cells(s1.heap, a), v, TInt)
    requires Meant(w, sc, own1, s, s1, t1, lent, flight, k)
    requires Meant(w, sc, own, s1, s2, t2, lent, flight + Cells(s1.heap, a), k)
    ensures var r := WriteThrough(a, v, s2);
      r.Some? ==> Meant(w, sc, own, s, Release(a, r.value), t2, lent, flight, k)
  {
    hide Owns, Copies, Twin, RootCells;
    var c := Cells(s1.heap, a);
    assert c == {a.a} && flight + c + Cells(s2.heap, v) == flight + c;
    MeantThen(w, sc, own1, own, s, s1, t1, s2, t2, lent, flight, flight + c, k);
    var r := WriteThrough(a, v, s2);
    if r.Some? {
      var s3 := Release(a, r.value);
      InvLive(w, sc, own, s2, lent, flight + c);
      NotOwnedCell(w, sc, own, s2, lent, flight + c, a.a);
      InputAgrees(w, sc, own, s2, t2, lent, k);
      StepMeant(w, sc, own, own, s2, t2, s3, t2, lent, flight + c, flight, k);
      MeantThen(w, sc, own, own, s, s2, t2, s3, t2, lent, flight, flight, k);
    }
  }

  // -------------------------------------------------------------------------
  // Matches
  // -------------------------------------------------------------------------

  // Where the value matched is found, unless the match consumes it.
  ghost predicate FoundAt(s: State, k: Known, v: Value, byValue: bool, at: Option<Spot>) {
    if byValue then at.None? else at.Some? && at.value.root in k.roots && Spotted(s, at.value, v)
  }

  // An arm's body, and the destroys of what it leaves.
  lemma {:induction false} ArmBodyMeans(w: World, arm: Arm, byValue: bool, sc: Scope, st: StateMap, d: set<Name>,
      s: State, t: Store, lent: set<nat>, flight: set<nat>, k: Known, fuel: nat)
    requires var sc1, st1 := ArmScope(arm, byValue, sc), SetOwned(st, ArmBinders(arm, byValue));
      && Ready(w, sc1, st1, d, s, lent, flight) && Twin(w, sc1, OwnedIn(st1), s, t, lent, k)
      && WfStmt(w.p, w.tys, arm.body, sc1, d)
    requires AnalyzeArm(w.p, w.tys, arm, byValue, st).Some? && TypedAs(w.tys, ArmOwned(arm, byValue))
    requires Distinct(ArmBinders(arm, byValue))
    ensures s.frames != [] && t.frames != []
    ensures var bs := ArmBinders(arm, byValue);
      var out := AnalyzeStmt(w.p, w.tys, arm.body, SetOwned(st, bs)).value.st;
      var r := Exec(w, AnalyzeArm(w.p, w.tys, arm, byValue, st).value.code.body, s, fuel);
      var q := Does(w.p, w.input, arm.body, t, fuel);
      && StopsAlike(r, q)
      && (r.Done? ==>
            q.Gives? && Meant(w, ArmScope(arm, byValue, sc), OwnedIn(out) - Elems(bs), s, r.s, q.t, lent, flight, k))
    decreases fuel, 0, arm.body, 3
  {
    hide Inv, Twin, Meant, Setting, Exec, Does;
    var bs, sc1 := ArmBinders(arm, byValue), ArmScope(arm, byValue, sc);
    InputAgrees(w, sc1, OwnedIn(SetOwned(st, bs)), s, t, lent, k);
    var a := AnalyzeStmt(w.p, w.tys, arm.body, SetOwned(st, bs)).value;
    var left := Leftover(ArmOwned(arm, byValue), a.st);
    LeftoverIs(ArmOwned(arm, byValue), a.st);
    ExecSafe(w, arm.body, sc1, SetOwned(st, bs), d, s, lent, flight, fuel);
    ExecMeans(w, arm.body, sc1, SetOwned(st, bs), d, s, t, lent, flight, k, fuel);
    var r, q := Exec(w, a.code, s, fuel), Does(w.p, w.input, arm.body, t, fuel);
    if left.Nil? {
      assert OwnedIn(a.st) - Elems(bs) == OwnedIn(a.st);
    } else {
      BodyThenLeft(w, a.code, left, s, fuel);
      if r.Done? {
        MeantTwin(w, sc1, OwnedIn(a.st), s, r.s, q.t, lent, flight, k);
        assert OwnedIn(a.st) - Elems(Names(left)) == OwnedIn(a.st) - Elems(bs);
        DestroysMean(w, sc1, OwnedIn(a.st), r.s, q.t, lent, flight, k, Names(left));
        MeantThen(w, sc1, OwnedIn(a.st), OwnedIn(a.st) - Elems(bs), s, r.s, q.t,
          DestroyVars(w, Names(left), r.s).s, q.t, lent, flight, flight, k);
      }
    }
  }

  lemma {:induction false} BodyThenLeft(w: World, c: Stmt, left: List<Binder>, s: State, fuel: nat)
    requires s.frames != [] && TypedAs(w.tys, left)
    ensures var r, r' := Exec(w, c, s, fuel), Exec(w, Block(Cons(c, Destroys(left))), s, fuel);
      if r.Done? then r.s.frames != [] && r' == DestroyVars(w, Names(left), r.s) else r' == r
  {
    var r := Exec(w, c, s, fuel);
    if r.Done? {
      DestroyStatements(w, left, r.s, fuel);
    }
  }

  lemma {:induction false} ArmByValueMeans(w: World, arm: Arm, owner: Name, sc: Scope, st: StateMap, d: set<Name>,
      s: State, t: Store, lent: set<nat>, flight: set<nat>, k: Known, v: Value, fuel: nat)
    requires Scrutinised(w, sc, OwnedIn(st), s, lent, flight, v, owner, true) && d <= st.Keys
    requires Twin(w, sc, OwnedIn(st), s, t, lent, k)
    requires WfArm(w.p, w.tys, arm, owner, true, sc, d)
    requires AnalyzeArm(w.p, w.tys, arm, true, st).Some?
    requires AllUsedAsBound(w.tys, arm.pats) && Linear(arm, true)
    requires s.heap[v.a].tag == arm.tag && AllMatch(arm.pats, ShapesOf(s.heap, s.heap[v.a].fields, v.a))
    ensures s.frames != [] && t.frames != []
    ensures var a, fields := AnalyzeArm(w.p, w.tys, arm, true, st).value, s.heap[v.a].fields;
      var b := BindPats(w.p.ctors, s.heap, Top(s), v.a, fields, arm.pats, w.p.ctors[arm.tag].params, true, s.next);
      var g := BindingAll(Local(t), arm.pats, ReadAll(s.heap, fields), None, 0);
      b.Bound? &&
        var r, q := Exec(w, a.code.body, WithTop(s.(heap := b.h), b.f), fuel),
          Does(w.p, w.input, arm.body, WithLocal(t, g), fuel);
        StopsAlike(r, q) && (r.Done? ==>
          && q.Gives?
          && Meant(w, sc, OwnedIn(a.st), s, WithTop(r.s, Unshadow(Top(r.s), BindersOf(arm.pats), Top(s))),
               WithLocal(q.t, Unshadow(Local(q.t), BindersOf(arm.pats), Local(t))), lent, flight + {v.a}, k))
    decreases fuel, 0, arm.body, 4
  {
    hide Owns, Copies, Lends, Meant, Twin, Exec, Does, BindPats, BindingAll, Unshadow, RootCells, ArmScope, AnalyzeStmt;
    InputAgrees(w, sc, OwnedIn(st), s, t, lent, k);
    var fields, params, names := s.heap[v.a].fields, w.p.ctors[arm.tag].params, BindersOf(arm.pats);
    var b := BindPats(w.p.ctors, s.heap, Top(s), v.a, fields, arm.pats, params, true, s.next);
    var lost := EnterByValue(w, sc, OwnedIn(st), s, lent, flight, v, arm);
    var g := BindingAll(Local(t), arm.pats, ReadAll(s.heap, fields), None, 0);
    var s1, t1, held := WithTop(s.(heap := b.h), b.f), WithLocal(t, g), flight + {v.a} + Hidden(s, OwnedIn(st), arm);
    assert held + lost == held;
    AllOwnersAsUsed(w.tys, arm.pats);
    EnteredState(st, ArmBinders(arm, true));
    ByValueEntered(w, arm, owner, sc, OwnedIn(st), s, t, lent, flight, held, k, v);
    ArmBodyMeans(w, arm, true, sc, st, d + ArmOwners(arm, true), s1, t1, lent, held, k, fuel);
    BodySafe(w, arm, true, sc, st, d + ArmOwners(arm, true), s1, lent, held, fuel) by {
      LeftoverIs(ArmOwned(arm, true), AnalyzeStmt(w.p, w.tys, arm.body, SetOwned(st, ArmBinders(arm, true))).value.st);
    }
    var r, q := Exec(w, AnalyzeArm(w.p, w.tys, arm, true, st).value.code.body, s1, fuel),
      Does(w.p, w.input, arm.body, t1, fuel);
    if r.Done? {
      var out := AnalyzeStmt(w.p, w.tys, arm.body, SetOwned(st, ArmBinders(arm, true))).value.st;
      ByValueLeft(w, arm, owner, sc, st, out, s, t, s1, t1, r.s, q.t, lent, flight, k, v);
    }
  }

  // The binders own what they were handed, and read as the store says.
  lemma {:induction false} ByValueEntered(w: World, arm: Arm, owner: Name, sc: Scope, own: set<Name>, s: State,
      t: Store,
      lent: set<nat>, flight: set<nat>, held: set<nat>, k: Known, v: Value)
    requires Scrutinised(w, sc, own, s, lent, flight, v, owner, true) && Twin(w, sc, own, s, t, lent, k)
    requires ArmFits(w, arm, true, sc)
    requires s.heap[v.a].tag == arm.tag && AllMatch(arm.pats, ShapesOf(s.heap, s.heap[v.a].fields, v.a))
    requires t.frames != []
    requires var b := BindPats(w.p.ctors, s.heap, Top(s), v.a, s.heap[v.a].fields, arm.pats, w.p.ctors[arm.tag].params,
        true, s.next);
      b.Bound? && Inv(w, ArmScope(arm, true, sc), own + OwnSet(w.tys, BindersOf(arm.pats)),
        WithTop(s.(heap := b.h), b.f), lent, held)
    ensures var fields := s.heap[v.a].fields;
      var b := BindPats(w.p.ctors, s.heap, Top(s), v.a, fields, arm.pats, w.p.ctors[arm.tag].params, true, s.next);
      var g := BindingAll(Local(t), arm.pats, ReadAll(s.heap, fields), None, 0);
      var s1 := WithTop(s.(heap := b.h), b.f);
      && Twin(w, ArmScope(arm, true, sc), own + OwnSet(w.tys, BindersOf(arm.pats)), s1, WithLocal(t, g), lent, k)
      && RootCells(s1, k.roots) == RootCells(s, k.roots)
      && SameCells(s.heap, b.h, s.heap.Keys - CellsOf(s.heap, fields, v.a))
  {
    hide Copies, Lends, BindPats, BindingAll, ArmScope, Mirrors, TopAgrees;
    var fields, params, cs := s.heap[v.a].fields, w.p.ctors[arm.tag].params, w.p.ctors;
    var b := BindPats(cs, s.heap, Top(s), v.a, fields, arm.pats, params, true, s.next);
    var g := BindingAll(Local(t), arm.pats, ReadAll(s.heap, fields), None, 0);
    CellsOfLive(s.heap, fields, v.a);
    PayloadsOnly(w.p, w.tys, s.heap, Top(s), v.a, fields, arm.pats, params, v.a, s.next);
    CellsOfLive(s.heap, fields, v.a);
    BindsRead(w.p, w.tys, s.heap, s.heap, Top(s), Local(t), v.a, fields, arm.pats, params, v.a, 0, s.next) by {
      assert SameCells(s.heap, s.heap, CellsOf(s.heap, fields, v.a));
    }
    BindersTyped(w, arm.pats, params);
    RootCellsLive(s, k.roots);
    OthersKept(w, sc, own, s, lent, flight, v, b.h, k);
    EnterByValueTwin(w, arm, sc, own, s, t, b.h, b.f, g, lent, flight + Cells(s.heap, v), held, k);
  }

  lemma {:induction false} OthersKept(w: World, sc: Scope, own: set<Name>, s: State, lent: set<nat>, flight: set<nat>,
      v: Value, h: Memory, k: Known)
    requires Inv(w, sc, own, s, lent, flight + Cells(s.heap, v)) && Cells(s.heap, v) !! lent + flight
    requires v.PtrV? && v.a in s.heap && s.heap[v.a].Box? && RootCells(s, k.roots) <= lent
    requires SameCells(s.heap, h, s.heap.Keys - CellsOf(s.heap, s.heap[v.a].fields, v.a))
    ensures SameCells(s.heap, h, RootCells(s, k.roots))
    ensures forall x | x in own && x in Top(s) :: SameCells(s.heap, h, Cells(s.heap, Top(s)[x]))
  {
    hide Copies, RootCells;
    var c := CellsOf(s.heap, s.heap[v.a].fields, v.a);
    assert c <= Cells(s.heap, v);
    forall x | x in own && x in Top(s)
      ensures SameCells(s.heap, h, Cells(s.heap, Top(s)[x]))
    {
      assert Cells(s.heap, Top(s)[x]) <= CellsOwned(s.heap, Top(s), own);
    }
  }

  lemma {:induction false} ByValueLeft(w: World, arm: Arm, owner: Name, sc: Scope, st: StateMap, out: StateMap,
      s: State,
      t: Store, s1: State, t1: Store, s2: State, t2: Store, lent: set<nat>, flight: set<nat>, k: Known, v: Value)
    requires Scrutinised(w, sc, OwnedIn(st), s, lent, flight, v, owner, true)
    requires Twin(w, sc, OwnedIn(st), s, t, lent, k)
    requires ArmFits(w, arm, true, sc) && Linear(arm, true)
    requires var held := flight + {v.a} + Hidden(s, OwnedIn(st), arm);
      && Stable(s, s1, |s.frames| - 1, lent + held) && RootCells(s1, k.roots) == RootCells(s, k.roots)
      && SameCells(s.heap, s1.heap, s.heap.Keys - CellsOf(s.heap, s.heap[v.a].fields, v.a))
      && Ran(w, ArmScope(arm, true, sc), OwnedIn(out) - Elems(ArmBinders(arm, true)), s1, s2, lent, held)
      && Meant(w, ArmScope(arm, true, sc), OwnedIn(out) - Elems(ArmBinders(arm, true)), s1, s2, t2, lent, held, k)
    ensures t2.frames != [] && t.frames != [] && s2.frames != []
    ensures Meant(w, sc, OwnedIn(Restore(out, ArmBinders(arm, true), st)), s,
      WithTop(s2, Unshadow(Top(s2), BindersOf(arm.pats), Top(s))),
      WithLocal(t2, Unshadow(Local(t2), BindersOf(arm.pats), Local(t))), lent, flight + {v.a}, k)
  {
    hide Copies, Lends, Owns, Unshadow, Mirrors, TopAgrees, Restore, Linear;
    var bs, sc1, own := BindersOf(arm.pats), ArmScope(arm, true, sc), OwnedIn(st);
    var own2, hid := OwnedIn(out) - Elems(ArmBinders(arm, true)), Hidden(s, own, arm);
    var held := flight + {v.a} + hid;
    BindersTyped(w, arm.pats, w.p.ctors[arm.tag].params);
    InvMove(w, sc, own, s, lent, flight + Cells(s.heap, v), own * Elems(bs));
    OwnersHaveTypes(w, sc, own, s, lent, flight + Cells(s.heap, v));
    BinderSets(w, sc1, arm, true, st, out, own2, s2, lent, held);
    StableTrans(s, s1, s2, |s.frames| - 1, lent + held);
    HeldKeptToo(w, s, s1, s2, lent, flight, hid, v, k);
    LeaveTwin(w, sc, sc1, own, own2, s, t, s2, t2, lent, flight + Cells(s.heap, v), k, bs);
  }

  lemma OwnersHaveTypes(w: World, sc: Scope, own: set<Name>, s: State, lent: set<nat>, flight: set<nat>)
    requires Inv(w, sc, own, s, lent, flight)
    ensures s.frames != [] && forall x | x in own :: IsOwnVar(w.tys, x)
  {
  }

  // The box, the cells hidden and those in flight outlast the arm.
  lemma {:induction false} HeldKeptToo(w: World, s: State, s1: State, s2: State, lent: set<nat>, flight: set<nat>,
      hid: set<nat>, v: Value, k: Known)
    requires v.PtrV? && v.a in s.heap && s.heap[v.a].Box?
    requires RootCells(s1, k.roots) == RootCells(s, k.roots)
    requires Cells(s.heap, v) !! lent + flight && hid !! lent + flight + Cells(s.heap, v)
    requires lent + flight + hid <= s.heap.Keys
    requires SameCells(s.heap, s1.heap, s.heap.Keys - CellsOf(s.heap, s.heap[v.a].fields, v.a))
    requires SameCells(s1.heap, s2.heap, Private(s1, lent, k) + (flight + {v.a} + hid))
    ensures SameCells(s.heap, s2.heap, Private(s, lent, k) + (flight + {v.a}))
    ensures SameCells(s.heap, s2.heap, hid)
  {
    hide RootCells;
    CellsOfLive(s.heap, s.heap[v.a].fields, v.a);
    var c := CellsOf(s.heap, s.heap[v.a].fields, v.a);
    assert c <= Cells(s.heap, v) && v.a in Cells(s.heap, v);
  }

  lemma {:induction false} ArmInPlaceMeans(w: World, arm: Arm, owner: Name, sc: Scope, st: StateMap, d: set<Name>,
      s: State, t: Store, lent: set<nat>, flight: set<nat>, k: Known, v: Value, at: Spot, fuel: nat)
    requires Scrutinised(w, sc, OwnedIn(st), s, lent, flight, v, owner, false) && d <= st.Keys
    requires Twin(w, sc, OwnedIn(st), s, t, lent, k) && FoundAt(s, k, v, false, Some(at))
    requires WfArm(w.p, w.tys, arm, owner, false, sc, d)
    requires AnalyzeArm(w.p, w.tys, arm, false, st).Some?
    requires AllUsedAsBound(w.tys, arm.pats) && Linear(arm, false)
    requires s.heap[v.a].tag == arm.tag && AllMatch(arm.pats, ShapesOf(s.heap, s.heap[v.a].fields, v.a))
    ensures s.frames != [] && t.frames != []
    ensures var a, fields := AnalyzeArm(w.p, w.tys, arm, false, st).value, s.heap[v.a].fields;
      var b := BindPats(w.p.ctors, s.heap, Top(s), v.a, fields, arm.pats, w.p.ctors[arm.tag].params, false, s.next);
      var g := BindingAll(Local(t), arm.pats, ReadAll(s.heap, fields), Some(at), 0);
      b.Bound? &&
        var r, q := Exec(w, a.code.body, WithTop(s.(heap := b.h), b.f), fuel),
          Does(w.p, w.input, arm.body, WithLocal(t, g), fuel);
        StopsAlike(r, q) && (r.Done? ==>
          && q.Gives?
          && Meant(w, sc, OwnedIn(a.st), s, WithTop(r.s, Unshadow(Top(r.s), BindersOf(arm.pats), Top(s))),
               WithLocal(q.t, Unshadow(Local(q.t), BindersOf(arm.pats), Local(t))), lent, flight, k))
    decreases fuel, 0, arm.body, 4
  {
    hide Owns, Copies, Lends, Meant, Twin, Exec, Does, BindPats, BindingAll, Unshadow, RootCells, ArmScope, AnalyzeStmt;
    InputAgrees(w, sc, OwnedIn(st), s, t, lent, k);
    var fields, params, names := s.heap[v.a].fields, w.p.ctors[arm.tag].params, BindersOf(arm.pats);
    var b := BindPats(w.p.ctors, s.heap, Top(s), v.a, fields, arm.pats, params, false, s.next);
    AllOwnersAsUsed(w.tys, arm.pats);
    EnterBorrowed(w, sc, OwnedIn(st), s, lent, flight, v, arm);
    var g := BindingAll(Local(t), arm.pats, ReadAll(s.heap, fields), Some(at), 0);
    var s1, t1 := WithTop(s, b.f), WithLocal(t, g);
    assert s1 == WithTop(s.(heap := b.h), b.f);
    assert SetOwned(st, Nil) == st && d + ArmOwners(arm, false) == d;
    InPlaceEntered(w, arm, owner, sc, OwnedIn(st), s, t, lent, flight, k, v, at);
    ArmBodyMeans(w, arm, false, sc, st, d, s1, t1, lent, flight, k, fuel);
    BodySafe(w, arm, false, sc, st, d, s1, lent, flight, fuel);
    var r, q := Exec(w, AnalyzeArm(w.p, w.tys, arm, false, st).value.code.body, s1, fuel),
      Does(w.p, w.input, arm.body, t1, fuel);
    if r.Done? {
      InPlaceLeft(w, arm, sc, st, AnalyzeStmt(w.p, w.tys, arm.body, st).value.st, s, t, s1, r.s, q.t, lent, flight, k);
    }
  }

  lemma {:induction false} InPlaceEntered(w: World, arm: Arm, owner: Name, sc: Scope, own: set<Name>, s: State,
      t: Store,
      lent: set<nat>, flight: set<nat>, k: Known, v: Value, at: Spot)
    requires Scrutinised(w, sc, own, s, lent, flight, v, owner, false) && Twin(w, sc, own, s, t, lent, k)
    requires ArmFits(w, arm, false, sc) && FoundAt(s, k, v, false, Some(at)) && t.frames != []
    requires s.heap[v.a].tag == arm.tag && AllMatch(arm.pats, ShapesOf(s.heap, s.heap[v.a].fields, v.a))
    requires var b := BindPats(w.p.ctors, s.heap, Top(s), v.a, s.heap[v.a].fields, arm.pats, w.p.ctors[arm.tag].params,
        false, s.next);
      && b.Bound? && Inv(w, ArmScope(arm, false, sc), own, WithTop(s, b.f), lent, flight)
      && own !! Elems(BindersOf(arm.pats))
    ensures var fields := s.heap[v.a].fields;
      var b := BindPats(w.p.ctors, s.heap, Top(s), v.a, fields, arm.pats, w.p.ctors[arm.tag].params, false, s.next);
      var g := BindingAll(Local(t), arm.pats, ReadAll(s.heap, fields), Some(at), 0);
      && Twin(w, ArmScope(arm, false, sc), own, WithTop(s, b.f), WithLocal(t, g), lent, k)
      && RootCells(WithTop(s, b.f), k.roots) == RootCells(s, k.roots)
  {
    hide Copies, Lends, Owns, BindPats, BindingAll, ArmScope, TopAgrees, OwnBinders, Names;
    var fields, params := s.heap[v.a].fields, w.p.ctors[arm.tag].params;
    FieldsLocated(s.heap, Word(s, at.root), at.path, v.a);
    BindsName(w.p, s.heap, at.root, Word(s, at.root), Top(s), Local(t), v.a, fields, arm.pats, params, v.a, at.path, 0,
      s.next);
    BindersTyped(w, arm.pats, params);
    AllOwnersAsUsed(w.tys, arm.pats);
    RootsAreLower(w.p.ctors, s, t, |s.frames| - 1, k);
    var b := BindPats(w.p.ctors, s.heap, Top(s), v.a, fields, arm.pats, params, false, s.next);
    EnterInPlaceTwin(w, arm, sc, own, s, t, b.f, BindingAll(Local(t), arm.pats, ReadAll(s.heap, fields), Some(at), 0),
      lent, flight, k, at.root);
  }

  lemma {:induction false} InPlaceLeft(w: World, arm: Arm, sc: Scope, st: StateMap, out: StateMap, s: State, t: Store,
      s1: State, s2: State, t2: Store, lent: set<nat>, flight: set<nat>, k: Known)
    requires ArmFits(w, arm, false, sc) && Linear(arm, false)
    requires Inv(w, sc, OwnedIn(st), s, lent, flight) && Twin(w, sc, OwnedIn(st), s, t, lent, k)
    requires Stable(s, s1, |s.frames| - 1, lent + flight) && s1.heap == s.heap
    requires RootCells(s1, k.roots) == RootCells(s, k.roots)
    requires OwnedIn(st) !! Elems(BindersOf(arm.pats))
    requires Ran(w, ArmScope(arm, false, sc), OwnedIn(out) - {}, s1, s2, lent, flight)
    requires Meant(w, ArmScope(arm, false, sc), OwnedIn(out) - {}, s1, s2, t2, lent, flight, k)
    ensures t2.frames != [] && t.frames != [] && s2.frames != []
    ensures Meant(w, sc, OwnedIn(Restore(out, Nil, st)), s, WithTop(s2, Unshadow(Top(s2), BindersOf(arm.pats), Top(s))),
      WithLocal(t2, Unshadow(Local(t2), BindersOf(arm.pats), Local(t))), lent, flight, k)
  {
    hide Copies, Lends, Owns, Unshadow, Mirrors, TopAgrees, RootCells;
    var bs, sc1, own := BindersOf(arm.pats), ArmScope(arm, false, sc), OwnedIn(st);
    BindersTyped(w, arm.pats, w.p.ctors[arm.tag].params);
    OwnSetIs(w.tys, bs);
    AllOwnersAsUsed(w.tys, arm.pats);
    OwnersHaveTypes(w, sc, own, s, lent, flight);
    assert OwnedIn(out) - {} == OwnedIn(out) - Elems(ArmBinders(arm, false));
    BinderSets(w, sc1, arm, false, st, out, OwnedIn(out) - {}, s2, lent, flight);
    StableTrans(s, s1, s2, |s.frames| - 1, lent + flight);
    assert own * Elems(bs) == {};
    LeaveTwin(w, sc, sc1, own, OwnedIn(out) - {}, s, t, s2, t2, lent, flight, k, bs);
  }

  // The arms in order: the first that matches is the first that suits.
  lemma {:induction false} ArmsMeanSame(w: World, arms: List<Arm>, owner: Name, byValue: bool, sc: Scope, st: StateMap,
      d: set<Name>, s: State, t: Store, lent: set<nat>, flight: set<nat>, k: Known, v: Value, at: Option<Spot>,
      own: set<Name>, fuel: nat)
    requires Scrutinised(w, sc, OwnedIn(st), s, lent, flight, v, owner, byValue) && d <= st.Keys
    requires Twin(w, sc, OwnedIn(st), s, t, lent, k) && FoundAt(s, k, v, byValue, at)
    requires WfArms(w.p, w.tys, arms, owner, byValue, sc, d)
    requires AnalyzeArms(w.p, w.tys, arms, byValue, st).Some?
    requires forall b | b in AnalyzeArms(w.p, w.tys, arms, byValue, st).value.0 :: OwnedIn(b) == own
    ensures s.frames != [] && t.frames != []
    ensures var r := ExecArms(w, AnalyzeArms(w.p, w.tys, arms, byValue, st).value.1, byValue, v.a, s, fuel);
      var q := ArmsMean(w.p, w.input, arms, Read(s.heap, v), at, t, fuel);
      && StopsAlike(r, q)
      && (r.Done? ==> q.Gives? && Meant(w, sc, own, s, r.s, q.t, lent, flight + Shell(v, byValue), k))
    decreases fuel, 0, arms, 0
  {
    hide Inv, Accepted, AnalyzeArms, AnalyzeArm, ExecArms, Twin, Meant, FoundAt, BindPats, BindingAll, Exec, Does,
      Unshadow, TestPats, AllMatch, ShapesOf;
    InputAgrees(w, sc, OwnedIn(st), s, t, lent, k);
    if arms.Nil? {
      NoArmsLeft(w, byValue, v.a, s, fuel);
      NoArmsAnalyzed(w.p, w.tys, byValue, st);
      assert w.watch;
    } else {
      var arm, rest, box := arms.head, arms.tail, s.heap[v.a];
      ArmsAnalyzed(w.p, w.tys, arms, byValue, st);
      var a, others := AnalyzeArm(w.p, w.tys, arm, byValue, st).value, AnalyzeArms(w.p, w.tys, rest, byValue, st).value;
      FirstArm(w, a.code, others.1, byValue, v.a, s, fuel);
      TreeReads(w.p.ctors, s.heap, v, TSum(owner));
      assert forall b | b in others.0 :: b in [a.st] + others.0;
      assert TypedArm(w.p, w.tys, arm, owner, byValue, sc);
      if arm.tag == box.tag {
        TestsSuit(w.p, s.heap, box.fields, arm.pats, w.p.ctors[arm.tag].params, v.a);
        TestsDecide(w.p, s.heap, box.fields, arm.pats, w.p.ctors[arm.tag].params, v.a);
      }
      if arm.tag == box.tag && AllSuit(arm.pats, ReadAll(s.heap, box.fields)) {
        assert a.st in [a.st] + others.0;
        if AllUsedAsBound(w.tys, arm.pats) && Linear(arm, byValue) {
          OneArmMeans(w, arm, owner, byValue, sc, st, d, s, t, lent, flight, k, v, at, fuel);
        }
      } else {
        ArmsMeanSame(w, rest, owner, byValue, sc, st, d, s, t, lent, flight, k, v, at, own, fuel);
      }
    }
  }

  lemma {:induction false} OneArmMeans(w: World, arm: Arm, owner: Name, byValue: bool, sc: Scope, st: StateMap,
      d: set<Name>, s: State, t: Store, lent: set<nat>, flight: set<nat>, k: Known, v: Value, at: Option<Spot>,
      fuel: nat)
    requires Scrutinised(w, sc, OwnedIn(st), s, lent, flight, v, owner, byValue) && d <= st.Keys
    requires Twin(w, sc, OwnedIn(st), s, t, lent, k) && FoundAt(s, k, v, byValue, at)
    requires WfArm(w.p, w.tys, arm, owner, byValue, sc, d)
    requires AnalyzeArm(w.p, w.tys, arm, byValue, st).Some?
    requires AllUsedAsBound(w.tys, arm.pats) && Linear(arm, byValue)
    requires s.heap[v.a].tag == arm.tag && AllMatch(arm.pats, ShapesOf(s.heap, s.heap[v.a].fields, v.a))
    ensures s.frames != [] && t.frames != []
    ensures var a, fields := AnalyzeArm(w.p, w.tys, arm, byValue, st).value, s.heap[v.a].fields;
      var b := BindPats(w.p.ctors, s.heap, Top(s), v.a, fields, arm.pats, w.p.ctors[arm.tag].params, byValue, s.next);
      var g := BindingAll(Local(t), arm.pats, ReadAll(s.heap, fields), at, 0);
      b.Bound? &&
        var r, q := Exec(w, a.code.body, WithTop(s.(heap := b.h), b.f), fuel),
          Does(w.p, w.input, arm.body, WithLocal(t, g), fuel);
        StopsAlike(r, q) && (r.Done? ==>
          && q.Gives?
          && Meant(w, sc, OwnedIn(a.st), s, WithTop(r.s, Unshadow(Top(r.s), BindersOf(arm.pats), Top(s))),
               WithLocal(q.t, Unshadow(Local(q.t), BindersOf(arm.pats), Local(t))), lent, flight + Shell(v, byValue),
                 k))
    decreases fuel, 0, arm, 0
  {
    hide Copies, Lends, Owns, WfArm, AnalyzeArm, AllMatch, ShapesOf, BindPats, Exec, Unshadow, Setting, Cells, Twin,
      Meant,
      BindingAll, Does;
    ArmSafe(w, arm, owner, byValue, sc, st, d, s, lent, flight, v, fuel);
    if byValue {
      assert at == None;
      ArmByValueMeans(w, arm, owner, sc, st, d, s, t, lent, flight, k, v, fuel);
    } else {
      assert flight + Shell(v, byValue) == flight;
      ArmInPlaceMeans(w, arm, owner, sc, st, d, s, t, lent, flight, k, v, at.value, fuel);
    }
  }

  lemma {:induction false} CaseMeans(w: World, e: Expr, arms: List<Arm>, sc: Scope, st: StateMap, d: set<Name>,
      s: State, t: Store, lent: set<nat>, flight: set<nat>, k: Known, fuel: nat)
    requires Ready(w, sc, st, d, s, lent, flight) && Twin(w, sc, OwnedIn(st), s, t, lent, k)
    requires WfStmt(w.p, w.tys, Case(e, arms), sc, d)
    requires AnalyzeStmt(w.p, w.tys, Case(e, arms), st).Some?
    ensures s.frames != [] && t.frames != []
    ensures var a := AnalyzeStmt(w.p, w.tys, Case(e, arms), st).value;
      var r, q := Exec(w, a.code, s, fuel), Does(w.p, w.input, Case(e, arms), t, fuel);
      && StopsAlike(r, q)
      && (r.Done? ==> q.Gives? && Meant(w, sc, OwnedIn(a.st), s, r.s, q.t, lent, flight, k))
    decreases fuel, 0, Case(e, arms), 0
  {
    hide Inv, Twin, Meant, Setting, ExecArms, ArmsMean, Eval, Means, AnalyzeArms, Designated, At, FoundAt, Tree, Cells,
      Exec, Does, AnalyzeStmt;
    InputAgrees(w, sc, OwnedIn(st), s, t, lent, k);
    var byValue := Consuming(e);
    var owner := TypeOf(w.p, w.tys, sc, e, if byValue then Taken else Place).value.name;
    CaseAnalyzed(w.p, w.tys, e, arms, st);
    var st1, own := Take(w.p, w.tys, e, st).value, OwnedIn(AnalyzeStmt(w.p, w.tys, Case(e, arms), st).value.st);
    var code := AnalyzeArms(w.p, w.tys, arms, byValue, st1).value.1;
    ScrutineeSafe(w, e, owner, sc, st, d, s, lent, flight, fuel);
    var t', u, at := ScrutineeMeans(w, e, owner, sc, st, d, s, t, lent, flight, k, fuel);
    var v := Eval(w, e, s, fuel);
    CaseRuns(w, e, code, s, fuel);
    CaseDoes(w.p, w.input, e, arms, t, fuel);
    if v.Done? {
      BoxedNow(w, sc, OwnedIn(st1), v.s, lent, flight, v.value, owner, byValue);
      ArmsMeanSame(w, arms, owner, byValue, sc, st1, d, v.s, t', lent, flight, k, v.value, at, own, fuel);
      var r, q := ExecArms(w, code, byValue, v.value.a, v.s, fuel), ArmsMean(w.p, w.input, arms, u, at, t', fuel);
      if r.Done? {
        ArmsSafe(w, arms, owner, byValue, sc, st1, d, v.s, lent, flight, v.value, own, fuel);
        MergeMeans(w, sc, OwnedIn(st1), own, s, v.s, t', r.s, q.t, lent, flight, k, v.value, byValue);
      }
    }
  }

  lemma {:induction false} CaseAnalyzed(p: Program, tys: map<Name, Ty>, e: Expr, arms: List<Arm>, st: StateMap)
    requires AnalyzeStmt(p, tys, Case(e, arms), st).Some? && arms.Cons?
    ensures Take(p, tys, e, st).Some? && AnalyzeArms(p, tys, arms, Consuming(e), Take(p, tys, e, st).value).Some?
    ensures var a, branches := AnalyzeStmt(p, tys, Case(e, arms), st).value,
        AnalyzeArms(p, tys, arms, Consuming(e), Take(p, tys, e, st).value).value;
      && a.code == Case(e, branches.1)
      && forall b | b in branches.0 :: OwnedIn(b) == OwnedIn(a.st)
  {
    JoinKeys(AnalyzeArms(p, tys, arms, Consuming(e), Take(p, tys, e, st).value).value.0);
  }

  lemma {:induction false} CaseRuns(w: World, e: Expr, arms: List<Arm>, s: State, fuel: nat)
    requires s.frames != []
    ensures var v, r := Eval(w, e, s, fuel), Exec(w, Case(e, arms), s, fuel);
      && (!v.Done? ==> r == Failed(v))
      && (v.Done? && v.value.PtrV? && v.value.a in v.s.heap && v.s.heap[v.value.a].Box? ==>
            var r1 := ExecArms(w, arms, Consuming(e), v.value.a, v.s, fuel);
            if !r1.Done? || !Consuming(e) then r == r1
            else if v.value.a !in r1.s.heap then r == Fault
            else r == Done((), Release(v.value, r1.s)))
  {
  }

  lemma {:induction false} CaseDoes(p: Program, input: nat -> int, e: Expr, arms: List<Arm>, t: Store, fuel: nat)
    requires t.frames != []
    ensures var q := Does(p, input, Case(e, arms), t, fuel);
      if Consuming(e) then
        var v := Means(p, input, e, t, fuel);
        q == if !v.Gives? then Failing(v) else ArmsMean(p, input, arms, v.value, None, v.t, fuel)
      else
        var at := Designated(e.ptr, t);
        at.Some? && At(t, at.value).Some? ==> q == ArmsMean(p, input, arms, At(t, at.value).value, at, t, fuel)
  {
  }

  lemma BoxedNow(w: World, sc: Scope, own: set<Name>, s: State, lent: set<nat>, flight: set<nat>, v: Value, owner: Name,
      byValue: bool)
    requires Scrutinised(w, sc, own, s, lent, flight, v, owner, byValue)
    ensures v.PtrV? && v.a in s.heap && s.heap[v.a].Box? && (byValue ==> v.a !in lent + flight)
  {
    assert v.a in Cells(s.heap, v);
  }

  // The scrutinee: what it is, and where.
  lemma {:induction false} ScrutineeMeans(w: World, e: Expr, owner: Name, sc: Scope, st: StateMap, d: set<Name>,
      s: State, t: Store, lent: set<nat>, flight: set<nat>, k: Known, fuel: nat)
      returns (t': Store, u: Datum, at: Option<Spot>)
    requires Ready(w, sc, st, d, s, lent, flight) && Twin(w, sc, OwnedIn(st), s, t, lent, k)
    requires TypeOf(w.p, w.tys, sc, e, if Consuming(e) then Taken else Place) == Some(TSum(owner))
    requires Assigned(w.tys, sc, d, e) && Take(w.p, w.tys, e, st).Some?
    ensures s.frames != [] && t.frames != []
    ensures var v := Eval(w, e, s, fuel);
      && (Consuming(e) ==> StopsAlike(v, Means(w.p, w.input, e, t, fuel)))
      && (!Consuming(e) ==> !v.Halt? && !v.Spent?)
      && (v.Done? ==>
            && Meant(w, sc, OwnedIn(Take(w.p, w.tys, e, st).value), s, v.s, t', lent, flight, k)
            && u == Read(v.s.heap, v.value) && FoundAt(v.s, k, v.value, Consuming(e), at)
            && Twin(w, sc, OwnedIn(Take(w.p, w.tys, e, st).value), v.s, t', lent, k) && t'.frames != []
            && (if Consuming(e) then at == None && Means(w.p, w.input, e, t, fuel) == Gives(u, t')
                else t' == t && at.Some? && Designated(e.ptr, t) == at && At(t, at.value) == Some(u)))
    decreases fuel, 0, e, 4
  {
    hide Twin, Lends, Owns, Copies, Meant, RootCells;
    InputAgrees(w, sc, OwnedIn(st), s, t, lent, k);
    t', u, at := t, Number(0), None;
    var v := Eval(w, e, s, fuel);
    if Consuming(e) {
      TakeMeans(w, e, sc, st, d, s, t, lent, flight, k, fuel);
      var v' := Means(w.p, w.input, e, t, fuel);
      if v.Done? {
        t', u := v'.t, v'.value;
        MeantTwin(w, sc, OwnedIn(Take(w.p, w.tys, e, st).value), s, v.s, t', lent, flight, k);
        InputAgrees(w, sc, OwnedIn(Take(w.p, w.tys, e, st).value), v.s, t', lent, k);
      }
    } else {
      at := BorrowedScrutinee(w, e, owner, sc, st, d, s, t, lent, flight, k, fuel);
      u := Read(v.s.heap, v.value);
      NoOperands(w, sc, OwnedIn(st), s, t, lent, flight, k);
    }
  }

  lemma {:induction false} BorrowedScrutinee(w: World, e: Expr, owner: Name, sc: Scope, st: StateMap, d: set<Name>,
      s: State, t: Store, lent: set<nat>, flight: set<nat>, k: Known, fuel: nat) returns (at: Option<Spot>)
    requires Ready(w, sc, st, d, s, lent, flight) && Twin(w, sc, OwnedIn(st), s, t, lent, k)
    requires e.Deref? && TypeOf(w.p, w.tys, sc, e, Place) == Some(TSum(owner))
    requires Assigned(w.tys, sc, d, e) && Take(w.p, w.tys, e, st).Some?
    ensures s.frames != [] && t.frames != [] && Take(w.p, w.tys, e, st) == Some(st)
    ensures var v := Eval(w, e, s, fuel);
      && v.Done? && v.s == s && at.Some? && at.value.root in k.roots && Spotted(s, at.value, v.value)
      && Designated(e.ptr, t) == at && At(t, at.value) == Some(Read(s.heap, v.value))
  {
    hide Owns, Copies, Twin;
    InputAgrees(w, sc, OwnedIn(st), s, t, lent, k);
    BorrowIsFormal(w, sc, e.ptr, Place);
    PlaceMovesNothing(w, sc, e, st, {});
    Look(w, sc, OwnedIn(st), e, s, lent, flight, fuel);
    Look(w, sc, OwnedIn(st), e.ptr, s, lent, flight, fuel);
    DesignatedFound(w, sc, OwnedIn(st), e.ptr, s, t, lent, flight, k, fuel);
    at := Designated(e.ptr, t);
  }

  // At the merge the box of a consumed value goes.
  lemma {:induction false} MergeMeans(w: World, sc: Scope, own1: set<Name>, own: set<Name>, s: State, s1: State,
      t1: Store, s2: State, t2: Store, lent: set<nat>, flight: set<nat>, k: Known, v: Value, byValue: bool)
    requires v.PtrV? && (byValue ==> v.a !in lent + flight)
    requires Ran(w, sc, own, s1, s2, lent, flight + Shell(v, byValue))
    requires Meant(w, sc, own1, s, s1, t1, lent, flight, k)
    requires Meant(w, sc, own, s1, s2, t2, lent, flight + Shell(v, byValue), k)
    ensures Meant(w, sc, own, s, if byValue then Release(v, s2) else s2, t2, lent, flight, k)
  {
    hide Owns, Copies, Twin, RootCells;
    MeantThen(w, sc, own1, own, s, s1, t1, s2, t2, lent, flight, flight + Shell(v, byValue), k);
    if byValue {
      InvLive(w, sc, own, s2, lent, flight + {v.a});
      NotOwnedCell(w, sc, own, s2, lent, flight + {v.a}, v.a);
      InputAgrees(w, sc, own, s2, t2, lent, k);
      StepMeant(w, sc, own, own, s2, t2, Release(v, s2), t2, lent, flight + {v.a}, flight, k);
      MeantThen(w, sc, own, own, s, s2, t2, Release(v, s2), t2, lent, flight, flight, k);
    }
  }
}
