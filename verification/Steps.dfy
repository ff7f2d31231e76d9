/** Single steps of expression evaluation, and what each keeps of the invariant:
    an owner taken by name, an integer computed, a cell or a box allocated for
    values just evaluated, an owned temporary read through and then freed. The
    predicates say what is known of one evaluated value, and of several held
    together while the rest of an operand list is still to come. */
module Steps {
  import opened Syntax
  import opened Heap
  import opened Moves
  import opened Static
  import opened Facts
  import opened Machine
  import opened Ownership
  import opened Running

  // v lends a value of type ty: a slot of the running function, holding an
  // integer, an alias or one of the owners kept, or a slot of a caller.
  ghost predicate ArgLends(w: World, sc: Scope, kept: set<Name>, s: State, v: Value, ty: Ty, lent: set<nat>)
    requires s.frames != []
  {
    || Lends(w.p.ctors, s, |s.frames| - 1, v, ty, lent)
    || (v.SlotV? && v.depth == |s.frames| - 1 && v.x in sc.names && v.x in w.tys && w.tys[v.x] == ty
        && !ty.TBorrow? && (IsOwn(ty) ==> v.x in kept + sc.aliases))
  }

  // The state of affairs once an expression has been evaluated to v.
  ghost predicate Evaluated(w: World, sc: Scope, own: set<Name>, held: set<Name>, s: State, s': State, lent: set<nat>,
      flight: set<nat>, v: Value, ty: Ty) {
    && s.frames != []
    && Inv(w, sc, own, s', lent, flight + Cells(s'.heap, v))
    && Cells(s'.heap, v) !! lent + flight
    && Stable(s, s', |s.frames|, lent + flight + CellsOwned(s.heap, Top(s), own))
    && (if ty.TBorrow? then ArgLends(w, sc, own * held, s', v, ty.referent, lent)
        else Tree(w.p.ctors, s'.heap, v, ty))
  }

  // Values held together: each whole or lent, no two sharing a cell.
  ghost predicate ArgsOk(w: World, sc: Scope, kept: set<Name>, s: State, vs: List<Value>, ts: List<Ty>, lent: set<nat>,
      bound: nat)
    requires s.frames != []
  {
    match vs
    case Nil => ts.Nil?
    case Cons(v, t) =>
      && ts.Cons?
      && (v.PtrV? ==> v.a < bound)
      && (if ts.head.TBorrow? then ArgLends(w, sc, kept, s, v, ts.head.referent, lent)
          else Tree(w.p.ctors, s.heap, v, ts.head))
      && Cells(s.heap, v) !! CellsOf(s.heap, t, bound)
      && ArgsOk(w, sc, kept, s, t, ts.tail, lent, bound)
  }

  ghost predicate EvaluatedAll(w: World, sc: Scope, own: set<Name>, held: set<Name>, s: State, s': State,
      lent: set<nat>, flight: set<nat>, vs: List<Value>, ts: List<Ty>) {
    && s.frames != []
    && Inv(w, sc, own, s', lent, flight + CellsOf(s'.heap, vs, s'.next))
    && CellsOf(s'.heap, vs, s'.next) !! lent + flight
    && Stable(s, s', |s.frames|, lent + flight + CellsOwned(s.heap, Top(s), own))
    && ArgsOk(w, sc, own * held, s', vs, ts, lent, s'.next)
  }

  // Cells of variables that stay owned are not disturbed along the way.
  lemma StableChain(w: World, sc: Scope, own: set<Name>, own1: set<Name>, own2: set<Name>, s: State, s1: State,
      s2: State, lent: set<nat>, flight: set<nat>, zs: set<nat>)
    requires Inv(w, sc, own, s, lent, flight)
    requires own2 <= own1 <= own
    requires Stable(s, s1, |s.frames|, lent + flight + CellsOwned(s.heap, Top(s), own1))
    requires Stable(s1, s2, |s1.frames|, zs)
    requires lent + flight + CellsOwned(s1.heap, Top(s1), own2) <= zs
    ensures Stable(s, s2, |s.frames|, lent + flight + CellsOwned(s.heap, Top(s), own2))
  {
    OwnedKept(w, sc, own, own2, s, s1, lent, flight);
    var zs' := lent + flight + CellsOwned(s.heap, Top(s), own2);
    assert Stable(s, s1, |s.frames|, zs');
    assert Stable(s1, s2, |s.frames|, zs');
    StableTrans(s, s1, s2, |s.frames|, zs');
  }

  lemma OwnedKept(w: World, sc: Scope, own: set<Name>, xs: set<Name>, s: State, s1: State, lent: set<nat>,
      flight: set<nat>)
    requires Inv(w, sc, own, s, lent, flight)
    requires xs <= own
    requires Stable(s, s1, |s.frames|, CellsOwned(s.heap, Top(s), xs))
    ensures CellsOwned(s1.heap, Top(s1), xs) == CellsOwned(s.heap, Top(s), xs)
  {
    assert Quiet(Top(s), Top(s1));
    forall x | x in xs
      ensures x in Top(s1) && Cells(s1.heap, Top(s1)[x]) == Cells(s.heap, Top(s)[x])
    {
      TreeFrame(w.p.ctors, s.heap, s1.heap, Top(s)[x], w.tys[x]);
    }
  }

  // Taking an owner by name.
  lemma TakeOwner(w: World, sc: Scope, own: set<Name>, held: set<Name>, s: State, lent: set<nat>, flight: set<nat>,
      x: Name)
    requires Inv(w, sc, own, s, lent, flight)
    requires x in own
    ensures Evaluated(w, sc, own - {x}, held, s, s, lent, flight, Top(s)[x], w.tys[x])
  {
    InvMove(w, sc, own, s, lent, flight, {x});
    CellsOwnedOne(s.heap, Top(s), x);
  }

  // Evaluating to an integer without touching the heap.
  lemma Unchanged(w: World, sc: Scope, own: set<Name>, held: set<Name>, s: State, s': State, lent: set<nat>,
      flight: set<nat>, n: int)
    requires Inv(w, sc, own, s, lent, flight)
    requires s' == s.(drawn := s'.drawn)
    ensures Evaluated(w, sc, own, held, s, s', lent, flight, IntV(n), TInt)
  {
    assert flight + Cells(s'.heap, IntV(n)) == flight;
    CellsOwnedLive(s.heap, Top(s), own);
    assert Copies(w, sc, s', lent) by {
      assert Stable(s, s', |s.frames|, lent);
      CopiesStable(w, sc, s, s', lent);
    }
  }

  // The second operand of a pair, when the first left an integer behind.
  lemma ThenInt(w: World, sc: Scope, own: set<Name>, own1: set<Name>, own2: set<Name>, held: set<Name>, s: State,
      s1: State, s2: State, lent: set<nat>, flight: set<nat>, v1: Value, v: Value, n: int)
    requires Inv(w, sc, own, s, lent, flight)
    requires own2 <= own1 <= own
    requires Evaluated(w, sc, own1, held, s, s1, lent, flight, v1, TInt)
    requires Evaluated(w, sc, own2, held, s1, s2, lent, flight, v, TInt)
    ensures Evaluated(w, sc, own2, held, s, s2, lent, flight, IntV(n), TInt)
  {
    StableChain(w, sc, own, own1, own2, s, s1, s2, lent, flight, lent + flight + CellsOwned(s1.heap, Top(s1), own2));
    assert Cells(s2.heap, v) == {} == Cells(s2.heap, IntV(n));
  }

  // The payloads of the constructor just evaluated move into a new box.
  lemma NewBox(w: World, sc: Scope, own: set<Name>, held: set<Name>, s: State, s1: State, lent: set<nat>,
      flight: set<nat>, vs: List<Value>, tag: Name)
    requires tag in w.p.ctors && Unborrowed(w.p.ctors[tag].params)
    requires EvaluatedAll(w, sc, own, held, s, s1, lent, flight, vs, w.p.ctors[tag].params)
    ensures var r := Allocate(s1, Box(tag, vs));
      Evaluated(w, sc, own, held, s, r.s, lent, flight, r.value, TSum(w.p.ctors[tag].owner))
  {
    var r := Allocate(s1, Box(tag, vs));
    var s2, a := r.s, s1.next;
    var ts := w.p.ctors[tag].params;
    ArgsForest(w, sc, own * held, s1, vs, ts, lent, s1.next);
    assert SameShape(s1.heap, s2.heap, s1.heap.Keys);
    CellsOfLive(s1.heap, vs, a);
    ForestFrame(w.p.ctors, s1.heap, s2.heap, vs, ts, a);
    var c := CellsOf(s1.heap, vs, a);
    assert Cells(s2.heap, r.value) == {a} + c;
    assert Tree(w.p.ctors, s2.heap, r.value, TSum(w.p.ctors[tag].owner));
    Allocated(w, sc, own, s, s1, lent, flight, c, Box(tag, vs));
  }

  lemma NewCell(w: World, sc: Scope, own: set<Name>, held: set<Name>, s: State, s1: State, lent: set<nat>,
      flight: set<nat>, v: Value)
    requires Evaluated(w, sc, own, held, s, s1, lent, flight, v, TInt)
    ensures var r := Allocate(s1, IntCell(v.n));
      Evaluated(w, sc, own, held, s, r.s, lent, flight, r.value, TOwn)
  {
    assert flight + Cells(s1.heap, v) == flight + {};
    Allocated(w, sc, own, s, s1, lent, flight, {}, IntCell(v.n));
  }

  lemma Allocated(w: World, sc: Scope, own: set<Name>, s: State, s1: State, lent: set<nat>, flight: set<nat>,
      c: set<nat>, cell: Cell)
    requires s.frames != []
    requires Inv(w, sc, own, s1, lent, flight + c)
    requires c !! lent + flight
    requires Stable(s, s1, |s.frames|, lent + flight + CellsOwned(s.heap, Top(s), own))
    ensures var s2 := Allocate(s1, cell).s;
      && Inv(w, sc, own, s2, lent, flight + ({s1.next} + c))
      && {s1.next} + c !! lent + flight
      && Stable(s, s2, |s.frames|, lent + flight + CellsOwned(s.heap, Top(s), own))
  {
    hide Copies, CellsOwned;
    var s2, a := Allocate(s1, cell).s, s1.next;
    assert a !in s1.heap;
    assert SameShape(s1.heap, s2.heap, s1.heap.Keys);
    InvCarry(w, sc, own, s1, lent, flight + c, s2, flight + ({a} + c));
    assert lent + flight + CellsOwned(s.heap, Top(s), own) <= s1.heap.Keys;
    assert Stable(s1, s2, |s.frames|, lent + flight + CellsOwned(s.heap, Top(s), own));
    StableTrans(s, s1, s2, |s.frames|, lent + flight + CellsOwned(s.heap, Top(s), own));
  }

  lemma {:induction false} ArgsForest(w: World, sc: Scope, kept: set<Name>, s: State, vs: List<Value>, ts: List<Ty>,
      lent: set<nat>, bound: nat)
    requires s.frames != []
    requires ArgsOk(w, sc, kept, s, vs, ts, lent, bound)
    requires Unborrowed(ts)
    ensures Forest(w.p.ctors, s.heap, vs, ts, bound)
    decreases vs
  {
    match vs
    case Nil =>
    case Cons(v, t) => ArgsForest(w, sc, kept, s, t, ts.tail, lent, bound);
  }

  // An owned temporary that is read through and then freed.
  lemma FreeTemporary(w: World, sc: Scope, own0: set<Name>, own: set<Name>, held: set<Name>, s: State, s1: State,
      lent: set<nat>, flight: set<nat>, v: Value)
    requires Inv(w, sc, own0, s, lent, flight) && own <= own0
    requires Evaluated(w, sc, own, held, s, s1, lent, flight, v, TOwn)
    ensures Evaluated(w, sc, own, held, s, Release(v, s1), lent, flight, IntV(s1.heap[v.a].n), TInt)
  {
    var s2 := Release(v, s1);
    assert Cells(s1.heap, v) == {v.a};
    OwnedKept(w, sc, own0, own, s, s1, lent, flight);
    FreeInFlight(w, sc, own, s1, lent, flight, v.a);
    var zs := lent + flight + CellsOwned(s.heap, Top(s), own);
    StableTrans(s, s1, s2, |s.frames|, zs);
    assert flight + Cells(s2.heap, IntV(s1.heap[v.a].n)) == flight;
  }

  // Freeing a cell held in flight disturbs nobody else.
  lemma FreeInFlight(w: World, sc: Scope, own: set<Name>, s: State, lent: set<nat>, flight: set<nat>, a: nat)
    requires Inv(w, sc, own, s, lent, flight + {a})
    requires a !in lent + flight
    ensures Inv(w, sc, own, Release(PtrV(a), s), lent, flight)
    ensures Stable(s, Release(PtrV(a), s), |s.frames|, lent + flight + CellsOwned(s.heap, Top(s), own))
    ensures CellsOwned(Release(PtrV(a), s).heap, Top(s), own) == CellsOwned(s.heap, Top(s), own)
  {
    var s2 := Release(PtrV(a), s);
    assert s.heap.Keys == lent + (flight + {a}) + CellsOwned(s.heap, Top(s), own);
    assert a !in CellsOwned(s.heap, Top(s), own);
    assert s2.heap.Keys == lent + flight + CellsOwned(s.heap, Top(s), own);
    InvCarry(w, sc, own, s, lent, flight + {a}, s2, flight);
  }
}
