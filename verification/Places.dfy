/** Looking at a place, and storing into it: what a target leads to in the state is
    where the store without addresses says it is, and it stays there while the
    right-hand side is computed. */
module Places {
  import opened Optional
  import opened Syntax
  import opened Heap
  import opened Moves
  import opened Static
  import opened Machine
  import opened Ownership
  import opened Running
  import opened Calls
  import opened Roots
  import opened Copying
  import opened Reading
  import opened Agreement
  import opened Twins

  // What `*q` is about: the word found there.
  ghost function Content(s: State, a: Value): Value {
    if a.SlotV? && OnStack(s.frames, Slot(a.depth, a.x)) then Word(s, Slot(a.depth, a.x)) else a
  }

  // The place at is a lower variable or a part of one, or an owner named by q.
  ghost predicate PlaceOf(own: set<Name>, s: State, k: Known, q: Expr, at: Spot, c: Value)
    requires s.frames != []
  {
    || (at.root in k.roots && Spotted(s, at, c))
    || (q.Var? && q.x in own && q.x in Top(s) && at == Spot(Slot(|s.frames| - 1, q.x), []) && c == Top(s)[q.x])
  }

  // A borrowed variable is found where its home is.
  lemma {:induction false} HomeFound(cs: map<Name, Ctor>, s: State, t: Store, n: nat, k: Known, sl: Slot)
    requires Mirrors(cs, s, t, n, k) && Lendable(s, k, sl)
    ensures var at := Home(t, sl);
      && at.root in k.roots && Spotted(s, at, Word(s, sl)) && OnStack(t.frames, sl)
      && (Word(s, sl).IntV? ==> at == Spot(sl, []) && sl in k.roots)
  {
    if sl in k.roots {
      assert RootMirrored(cs, s, t, n, k, sl);
      assert !Stored(t, sl).Inside?;
    } else {
      var at :| Alias(sl, at) in k.parts;
      assert PartMirrored(s, t, n, k, Alias(sl, at));
    }
  }

  // A place reads as the store says.
  lemma {:induction false} SpotReads(cs: map<Name, Ctor>, s: State, t: Store, n: nat, k: Known, at: Spot, c: Value)
    requires at.root in k.roots && RootMirrored(cs, s, t, n, k, at.root) && Spotted(s, at, c)
    ensures At(t, at) == Some(Read(s.heap, c))
  {
    var v := Word(s, at.root);
    if v.PtrV? {
      var ty :| IsOwn(ty) && Tree(cs, s.heap, v, ty);
      var part := LocatedReads(cs, s.heap, v, ty, at.path);
    }
  }

  lemma {:induction false} DesignatedFound(w: World, sc: Scope, own: set<Name>, q: Expr, s: State, t: Store,
      lent: set<nat>, flight: set<nat>, k: Known, fuel: nat)
    requires Setting(w) && Inv(w, sc, own, s, lent, flight) && Twin(w, sc, own, s, t, lent, k)
    requires q.Var? || q.Deref?
    requires var ty := TypeOf(w.p, w.tys, sc, q, Place); ty.Some? && !ty.value.TInt?
    requires q.Var? && IsOwnVar(w.tys, q.x) && q.x !in sc.aliases ==> q.x in own
    ensures var a, at := Eval(w, q, s, fuel), Designated(q, t);
      && a.Done? && a.s == s && at.Some? && PlaceOf(own, s, k, q, at.value, Content(s, a.value))
      && At(t, at.value) == Some(Read(s.heap, Content(s, a.value)))
      && (a.value.SlotV? && Content(s, a.value).IntV? ==>
            at.value == Spot(Slot(a.value.depth, a.value.x), []) && at.value.root in k.roots)
      && (a.value.SlotV? ==> at.value.root in k.roots && OnStack(s.frames, Slot(a.value.depth, a.value.x)))
    decreases q
  {
    hide Owns, Lends;
    if q.Deref? {
      BorrowIsFormal(w, sc, q.ptr, Place);
      DesignatedFound(w, sc, own, q.ptr, s, t, lent, flight, k, fuel);
      Look(w, sc, own, q, s, lent, flight, fuel);
    } else {
      Look(w, sc, own, q, s, lent, flight, fuel);
      NameFound(w, sc, own, q.x, s, t, lent, k);
    }
  }

  lemma {:induction false} NameFound(w: World, sc: Scope, own: set<Name>, x: Name, s: State, t: Store, lent: set<nat>,
      k: Known)
    requires s.frames != [] && Copies(w, sc, s, lent) && Twin(w, sc, own, s, t, lent, k) && own !! sc.aliases
    requires x in sc.names && x in w.tys && !w.tys[x].TInt? && (IsOwnVar(w.tys, x) && x !in sc.aliases ==> x in own)
    requires IsOwnVar(w.tys, x) ==> Top(s)[x].PtrV? && Read(s.heap, Top(s)[x]) != Number(0)
    ensures var a, at := Top(s)[x], Designated(Var(x), t);
      && at.Some? && PlaceOf(own, s, k, Var(x), at.value, Content(s, a))
      && At(t, at.value) == Some(Read(s.heap, Content(s, a)))
      && (a.SlotV? && Content(s, a).IntV? ==> at.value == Spot(Slot(a.depth, a.x), []) && at.value.root in k.roots)
      && (a.SlotV? ==> at.value.root in k.roots && OnStack(s.frames, Slot(a.depth, a.x)))
  {
    var cs, n, a := w.p.ctors, |s.frames| - 1, Top(s)[x];
    assert TopMirrored(w, sc, own, s, t, k, x);
    if x in sc.aliases {
      assert RootMirrored(cs, s, t, n, k, Local(t)[x].at.root);
      SpotReads(cs, s, t, n, k, Local(t)[x].at, a);
    } else if w.tys[x].TBorrow? {
      assert Lends(cs, s, n, a, w.tys[x].referent, lent);
      var sl := Slot(a.depth, a.x);
      HomeFound(cs, s, t, n, k, sl);
      assert RootMirrored(cs, s, t, n, k, Home(t, sl).root);
      SpotReads(cs, s, t, n, k, Home(t, sl), Word(s, sl));
    } else {
      assert x in own;
      assert Local(t)[x] == Read(s.heap, a);
    }
  }

  // Evaluating an expression moves no place that it does not own.
  lemma {:induction false} SpottedStays(cs: map<Name, Ctor>, s: State, t: Store, s': State, n: nat, zs: set<nat>,
      k: Known, at: Spot, c: Value)
    requires at.root in k.roots && RootMirrored(cs, s, t, n, k, at.root) && Spotted(s, at, c)
    requires Stable(s, s', n, zs) && RootCells(s, k.roots) <= zs
    ensures OnStack(s'.frames, at.root)
    ensures Spotted(s', at, c) || (c.IntV? && at.path == [] && Word(s', at.root).IntV?)
  {
    WordStays(s, s', n, zs, at.root);
    var v := Word(s, at.root);
    if v.PtrV? {
      var ty :| IsOwn(ty) && Tree(cs, s.heap, v, ty);
      assert forall a | a in CellsAt(s, at.root) :: a in RootCells(s, k.roots);
      LocatedFrame(cs, s.heap, s'.heap, v, ty, at.path);
    }
  }
}
