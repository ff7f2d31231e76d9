/** The invariant of a running function, and what a step leaves alone: the frames
    below the running one, but for the integers in them, and the
    cells that others own. */
module Running {
  import opened Syntax
  import opened Heap
  import opened Moves
  import opened Static
  import opened Machine
  import opened Ownership

  // Facts about a function and its program, fixed while a watched run goes on.
  ghost predicate Setting(w: World) {
    && Accepted(w.p)
    && w.watch
    && (forall x | x in w.tys :: w.tys[x].TBorrow? ==> !w.tys[x].referent.TBorrow?)
  }

  // v lends a whole value of type ty in a frame below n, made of cells in lent.
  ghost predicate Lends(cs: map<Name, Ctor>, s: State, n: nat, v: Value, ty: Ty, lent: set<nat>) {
    && v.SlotV? && v.depth < n <= |s.frames| && v.x in s.frames[v.depth]
    && Tree(cs, s.heap, s.frames[v.depth][v.x], ty)
    && Cells(s.heap, s.frames[v.depth][v.x]) <= lent
  }

  // The variables that own nothing: integers, aliases and borrowed formals.
  ghost predicate Copies(w: World, sc: Scope, s: State, lent: set<nat>)
    requires s.frames != []
  {
    var f := Top(s);
    && f.Keys == sc.names <= w.tys.Keys
    && sc.aliases <= sc.names
    && (forall x | x in sc.names && w.tys[x].TInt? :: f[x].IntV?)
    && (forall x | x in sc.aliases ::
      IsOwn(w.tys[x]) && Tree(w.p.ctors, s.heap, f[x], w.tys[x]) && Cells(s.heap, f[x]) <= lent)
    && (forall x | x in sc.names && w.tys[x].TBorrow? ::
          Lends(w.p.ctors, s, |s.frames| - 1, f[x], w.tys[x].referent, lent))
  }

  // own: the variables that own. lent: cells that outlive this activation.
  // flight: cells held by values being computed and by boxes being taken apart.
  ghost predicate Inv(w: World, sc: Scope, own: set<Name>, s: State, lent: set<nat>, flight: set<nat>) {
    && s.frames != []
    && Copies(w, sc, s, lent)
    && own <= sc.names && own !! sc.aliases
    && lent !! flight
    && Owns(w.p.ctors, w.tys, s.heap, Top(s), own, lent + flight)
    && (forall a | a in s.heap :: a < s.next)
  }

  // Only integers stored in variables change.
  ghost predicate Quiet(f: Frame, f': Frame) {
    f'.Keys == f.Keys && forall x | x in f :: f'[x] == f[x] || (f[x].IntV? && f'[x].IntV?)
  }

  // The first n frames stay quiet and the cells zs keep their shape.
  ghost predicate Stable(s: State, s': State, n: nat, zs: set<nat>) {
    && |s'.frames| == |s.frames| && n <= |s.frames|
    && (forall i | 0 <= i < n :: Quiet(s.frames[i], s'.frames[i]))
    && SameShape(s.heap, s'.heap, zs)
    && s.next <= s'.next
  }

  lemma StableTrans(s: State, s1: State, s2: State, n: nat, zs: set<nat>)
    requires Stable(s, s1, n, zs) && Stable(s1, s2, n, zs)
    ensures Stable(s, s2, n, zs)
  {
    forall i | 0 <= i < n
      ensures Quiet(s.frames[i], s2.frames[i])
    {
      assert Quiet(s.frames[i], s1.frames[i]) && Quiet(s1.frames[i], s2.frames[i]);
    }
  }

  lemma LendsStable(cs: map<Name, Ctor>, s: State, s': State, n: nat, v: Value, ty: Ty, lent: set<nat>)
    requires Lends(cs, s, n, v, ty, lent)
    requires Stable(s, s', n, lent)
    ensures Lends(cs, s', n, v, ty, lent)
  {
    assert Quiet(s.frames[v.depth], s'.frames[v.depth]);
    var u, u' := s.frames[v.depth][v.x], s'.frames[v.depth][v.x];
    if u' == u {
      TreeFrame(cs, s.heap, s'.heap, u, ty);
    } else {
      assert ty.TInt?;
    }
  }

  lemma CopiesStable(w: World, sc: Scope, s: State, s': State, lent: set<nat>)
    requires s.frames != []
    requires Copies(w, sc, s, lent)
    requires Stable(s, s', |s.frames|, lent)
    ensures Copies(w, sc, s', lent)
  {
    var f, f' := Top(s), Top(s');
    assert Quiet(f, f');
    forall x | x in sc.aliases
      ensures Tree(w.p.ctors, s'.heap, f'[x], w.tys[x]) && Cells(s'.heap, f'[x]) <= lent
    {
      TreeFrame(w.p.ctors, s.heap, s'.heap, f[x], w.tys[x]);
    }
    forall x | x in sc.names && w.tys[x].TBorrow?
      ensures Lends(w.p.ctors, s', |s.frames| - 1, f'[x], w.tys[x].referent, lent)
    {
      assert f'[x] == f[x];
      LendsStable(w.p.ctors, s, s', |s.frames| - 1, f[x], w.tys[x].referent, lent);
    }
  }

  // A step that leaves the frames and every cell's shape alone, and holds other
  // cells in flight afterwards, keeps the invariant.
  lemma InvCarry(w: World, sc: Scope, own: set<Name>, s: State, lent: set<nat>, flight: set<nat>, s': State,
      flight': set<nat>)
    requires Inv(w, sc, own, s, lent, flight)
    requires Stable(s, s', |s.frames|, lent + CellsOwned(s.heap, Top(s), own))
    requires s'.heap.Keys == lent + flight' + CellsOwned(s.heap, Top(s), own)
    requires flight' !! lent + CellsOwned(s.heap, Top(s), own)
    requires forall a | a in s'.heap :: a < s'.next
    ensures Inv(w, sc, own, s', lent, flight')
    ensures CellsOwned(s'.heap, Top(s'), own) == CellsOwned(s.heap, Top(s), own)
  {
    assert Quiet(Top(s), Top(s'));
    CopiesStable(w, sc, s, s', lent);
    forall x | x in own
      ensures x in Top(s') && Top(s')[x] == Top(s)[x]
    {
      assert Tree(w.p.ctors, s.heap, Top(s)[x], w.tys[x]);
    }
    OwnsCarry(w.p.ctors, w.tys, s.heap, Top(s), own, lent + flight, s'.heap, Top(s'), lent + flight');
  }

  // Owners that have been moved out: their cells are in flight.
  lemma InvMove(w: World, sc: Scope, own: set<Name>, s: State, lent: set<nat>, flight: set<nat>, xs: set<Name>)
    requires Inv(w, sc, own, s, lent, flight)
    requires xs <= own
    ensures var c := CellsOwned(s.heap, Top(s), xs);
      && Inv(w, sc, own - xs, s, lent, flight + c)
      && c !! lent + flight
      && CellsOwned(s.heap, Top(s), own) == CellsOwned(s.heap, Top(s), own - xs) + c
      && CellsOwned(s.heap, Top(s), own - xs) !! c
  {
    OwnsMove(w.p.ctors, w.tys, s.heap, Top(s), own, lent + flight, xs);
    assert lent + flight + CellsOwned(s.heap, Top(s), xs) == lent + (flight + CellsOwned(s.heap, Top(s), xs));
  }
}
