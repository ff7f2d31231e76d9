/** When a machine state and a store agree. Of the frames below the running one, the
    variables known to the running function by borrowing, directly or further down,
    read as the store says; of the running one, those that own, the integers, the
    borrowed formals and the binders of borrowed matches. */
module Agreement {
  import opened Optional
  import opened Syntax
  import opened Heap
  import opened Moves
  import opened Static
  import opened Machine
  import opened Ownership
  import opened Running
  import opened Roots
  import opened Copying
  import opened Reading

  // A variable that names the part at of another.
  datatype Alias = Alias(sl: Slot, at: Spot)

  // What is known of the frames below: variables that hold values of their own, and
  // variables that name parts of those.
  datatype Known = Known(roots: set<Slot>, parts: set<Alias>)

  ghost function Word(s: State, sl: Slot): Value
    requires OnStack(s.frames, sl)
  {
    s.frames[sl.depth][sl.x]
  }

  ghost function Stored(t: Store, sl: Slot): Datum
    requires OnStack(t.frames, sl)
  {
    t.frames[sl.depth][sl.x]
  }

  ghost predicate Spotted(s: State, at: Spot, w: Value) {
    OnStack(s.frames, at.root) && Located(s.heap, Word(s, at.root), at.path) == Some(w)
  }

  ghost predicate Lendable(s: State, k: Known, sl: Slot) {
    && OnStack(s.frames, sl) && !Word(s, sl).SlotV?
    && (sl in k.roots || exists at :: Alias(sl, at) in k.parts)
  }

  ghost predicate RootMirrored(cs: map<Name, Ctor>, s: State, t: Store, n: nat, k: Known, sl: Slot) {
    && sl.depth < n && OnStack(s.frames, sl) && OnStack(t.frames, sl)
    && var v := Word(s, sl);
       && Stored(t, sl) == Read(s.heap, v)
       && (v.PtrV? ==> Whole(cs, s.heap, v))
       && (v.SlotV? ==> v.depth < sl.depth && Lendable(s, k, Slot(v.depth, v.x)))
  }

  ghost predicate PartMirrored(s: State, t: Store, n: nat, k: Known, al: Alias) {
    && al.sl.depth < n && OnStack(s.frames, al.sl) && OnStack(t.frames, al.sl)
    && Stored(t, al.sl) == Inside(al.at)
    && al.at.root in k.roots && al.at.root.depth < al.sl.depth
    && Word(s, al.sl).PtrV? && Spotted(s, al.at, Word(s, al.sl))
  }

  ghost function CellsAt(s: State, sl: Slot): set<nat> {
    if OnStack(s.frames, sl) then Cells(s.heap, Word(s, sl)) else {}
  }

  ghost function RootCells(s: State, roots: set<Slot>): set<nat> {
    set sl, a | sl in roots && a in CellsAt(s, sl) :: a
  }

  // Of the first n frames.
  ghost predicate Mirrors(cs: map<Name, Ctor>, s: State, t: Store, n: nat, k: Known) {
    && n <= |s.frames| == |t.frames| && t.drawn == s.drawn && t.printed == s.printed
    && (forall sl | sl in k.roots :: RootMirrored(cs, s, t, n, k, sl))
    && (forall al | al in k.parts :: PartMirrored(s, t, n, k, al))
    && forall i, j | i in k.roots && j in k.roots && i != j :: CellsAt(s, i) !! CellsAt(s, j)
  }

  // -------------------------------------------------------------------------
  // Steps that leave the lower frames alone
  // -------------------------------------------------------------------------

  // The lower frames are as they were, and so are the cells of the roots.
  ghost predicate LowerSame(s: State, t: Store, s': State, t': Store, n: nat, k: Known) {
    && n <= |s.frames| == |t.frames| && n <= |s'.frames| == |t'.frames|
    && (forall i | 0 <= i < n :: s'.frames[i] == s.frames[i] && t'.frames[i] == t.frames[i])
    && SameCells(s.heap, s'.heap, RootCells(s, k.roots))
  }

  lemma {:induction false} RootCarry(cs: map<Name, Ctor>, s: State, t: Store, s': State, t': Store, n: nat, k: Known,
      sl: Slot)
    requires RootMirrored(cs, s, t, n, k, sl) && sl in k.roots && LowerSame(s, t, s', t', n, k)
    ensures RootMirrored(cs, s', t', n, k, sl) && CellsAt(s', sl) == CellsAt(s, sl)
  {
    var v := Word(s, sl);
    assert forall a | a in CellsAt(s, sl) :: a in RootCells(s, k.roots);
    if v.PtrV? {
      var ty :| IsOwn(ty) && Tree(cs, s.heap, v, ty);
      ReadFrame(cs, s.heap, s'.heap, v, ty);
    } else if v.SlotV? {
      assert s'.frames[v.depth] == s.frames[v.depth];
    }
  }

  lemma {:induction false} SpottedCarry(cs: map<Name, Ctor>, s: State, t: Store, s': State, t': Store, n: nat, k: Known,
      at: Spot, w: Value)
    requires at.root in k.roots && RootMirrored(cs, s, t, n, k, at.root) && LowerSame(s, t, s', t', n, k)
    requires Spotted(s, at, w)
    ensures Spotted(s', at, w)
  {
    var v := Word(s, at.root);
    assert forall a | a in CellsAt(s, at.root) :: a in RootCells(s, k.roots);
    if v.PtrV? {
      var ty :| IsOwn(ty) && Tree(cs, s.heap, v, ty);
      LocatedFrame(cs, s.heap, s'.heap, v, ty, at.path);
    }
  }

  lemma {:induction false} MirrorsCarry(cs: map<Name, Ctor>, s: State, t: Store, s': State, t': Store, n: nat, k: Known)
    requires Mirrors(cs, s, t, n, k) && LowerSame(s, t, s', t', n, k)
    requires t'.drawn == s'.drawn && t'.printed == s'.printed
    ensures Mirrors(cs, s', t', n, k) && RootCells(s', k.roots) == RootCells(s, k.roots)
  {
    hide LowerSame, RootMirrored, Spotted;
    forall sl | sl in k.roots
      ensures RootMirrored(cs, s', t', n, k, sl) && CellsAt(s', sl) == CellsAt(s, sl)
    {
      RootCarry(cs, s, t, s', t', n, k, sl);
    }
    forall al | al in k.parts
      ensures PartMirrored(s', t', n, k, al)
    {
      assert PartMirrored(s, t, n, k, al);
      PartCarry(cs, s, t, s', t', n, k, al);
    }
    assert |s'.frames| == |t'.frames| && n <= |s'.frames| by {
      LowerLengths(s, t, s', t', n, k);
    }
  }

  lemma LowerLengths(s: State, t: Store, s': State, t': Store, n: nat, k: Known)
    requires LowerSame(s, t, s', t', n, k)
    ensures n <= |s'.frames| == |t'.frames|
  {
  }

  lemma {:induction false} PartCarry(cs: map<Name, Ctor>, s: State, t: Store, s': State, t': Store, n: nat, k: Known,
      al: Alias)
    requires PartMirrored(s, t, n, k, al) && RootMirrored(cs, s, t, n, k, al.at.root)
    requires LowerSame(s, t, s', t', n, k)
    ensures PartMirrored(s', t', n, k, al)
  {
    SpottedCarry(cs, s, t, s', t', n, k, al.at, Word(s, al.sl));
  }

  // -------------------------------------------------------------------------
  // Stores
  // -------------------------------------------------------------------------

  // What a root holds and where its parts are, after a store into a cell.
  lemma {:induction false} RootStore(cs: map<Name, Ctor>, s: State, t: Store, n: nat, k: Known, at: Spot, a: nat,
      m: int,
      sl: Slot)
    requires Mirrors(cs, s, t, n, k) && at.root in k.roots && sl in k.roots
    requires Spotted(s, at, PtrV(a)) && a in s.heap && s.heap[a].IntCell?
    ensures var s' := s.(heap := s.heap[a := IntCell(m)]);
      RootMirrored(cs, s', Put(t, at, m), n, k, sl) && CellsAt(s', sl) == CellsAt(s, sl)
  {
    var s', v := s.(heap := s.heap[a := IntCell(m)]), Word(s, sl);
    var u := Word(s, at.root);
    assert RootMirrored(cs, s, t, n, k, at.root) && RootMirrored(cs, s, t, n, k, sl);
    assert u.PtrV?;
    var ty :| IsOwn(ty) && Tree(cs, s.heap, u, ty);
    StoreChanges(cs, s.heap, u, ty, at.path, a, m);
    if sl != at.root && v.PtrV? {
      assert CellsAt(s, sl) !! CellsAt(s, at.root);
      var ty1 :| IsOwn(ty1) && Tree(cs, s.heap, v, ty1);
      CellsLive(s.heap, v);
      ReadFrame(cs, s.heap, s'.heap, v, ty1);
    }
  }

  lemma {:induction false} PartStore(cs: map<Name, Ctor>, s: State, t: Store, n: nat, k: Known, at: Spot, a: nat,
      m: int,
      al: Alias)
    requires Mirrors(cs, s, t, n, k) && at.root in k.roots && al in k.parts
    requires Spotted(s, at, PtrV(a)) && a in s.heap && s.heap[a].IntCell?
    ensures PartMirrored(s.(heap := s.heap[a := IntCell(m)]), Put(t, at, m), n, k, al)
  {
    var s', u := s.(heap := s.heap[a := IntCell(m)]), Word(s, al.at.root);
    assert PartMirrored(s, t, n, k, al) && RootMirrored(cs, s, t, n, k, al.at.root);
    assert RootMirrored(cs, s, t, n, k, at.root);
    assert u.PtrV?;
    var ty :| IsOwn(ty) && Tree(cs, s.heap, u, ty);
    CellsLive(s.heap, u);
    LocatedFrame(cs, s.heap, s'.heap, u, ty, al.at.path);
    assert al.sl != at.root;
  }

  lemma {:induction false} MirrorsStore(cs: map<Name, Ctor>, s: State, t: Store, n: nat, k: Known, at: Spot, a: nat,
      m: int)
    requires Mirrors(cs, s, t, n, k) && at.root in k.roots
    requires Spotted(s, at, PtrV(a)) && a in s.heap && s.heap[a].IntCell?
    ensures var s' := s.(heap := s.heap[a := IntCell(m)]);
      && Mirrors(cs, s', Put(t, at, m), n, k) && RootCells(s', k.roots) == RootCells(s, k.roots)
      && a in RootCells(s, k.roots)
  {
    hide RootMirrored, PartMirrored, Spotted;
    var s' := s.(heap := s.heap[a := IntCell(m)]);
    forall sl | sl in k.roots
      ensures RootMirrored(cs, s', Put(t, at, m), n, k, sl) && CellsAt(s', sl) == CellsAt(s, sl)
    {
      RootStore(cs, s, t, n, k, at, a, m, sl);
    }
    forall al | al in k.parts
      ensures PartMirrored(s', Put(t, at, m), n, k, al)
    {
      PartStore(cs, s, t, n, k, at, a, m, al);
    }
    StoredInRoot(cs, s, t, n, k, at, a, m);
  }

  lemma {:induction false} StoredInRoot(cs: map<Name, Ctor>, s: State, t: Store, n: nat, k: Known, at: Spot, a: nat,
      m: int)
    requires RootMirrored(cs, s, t, n, k, at.root)
    requires Spotted(s, at, PtrV(a)) && a in s.heap && s.heap[a].IntCell?
    ensures a in CellsAt(s, at.root) && Put(t, at, m).drawn == t.drawn && Put(t, at, m).printed == t.printed
  {
    var u := Word(s, at.root);
    assert u.PtrV?;
    var ty :| IsOwn(ty) && Tree(cs, s.heap, u, ty);
    StoreChanges(cs, s.heap, u, ty, at.path, a, m);
  }

  // A store into an integer variable.
  lemma {:induction false} MirrorsSet(cs: map<Name, Ctor>, s: State, t: Store, n: nat, k: Known, sl: Slot, m: int)
    requires Mirrors(cs, s, t, n, k) && sl in k.roots && OnStack(s.frames, sl) && Word(s, sl).IntV?
    ensures var f: Frame := s.frames[sl.depth][sl.x := IntV(m)];
      var s' := s.(frames := s.frames[sl.depth := f]);
      Mirrors(cs, s', Put(t, Spot(sl, []), m), n, k) && RootCells(s', k.roots) == RootCells(s, k.roots)
  {
    var f: Frame := s.frames[sl.depth][sl.x := IntV(m)];
    var s', t' := s.(frames := s.frames[sl.depth := f]), Put(t, Spot(sl, []), m);
    assert RootMirrored(cs, s, t, n, k, sl);
    forall i | i in k.roots
      ensures RootMirrored(cs, s', t', n, k, i) && CellsAt(s', i) == CellsAt(s, i)
    {
      assert RootMirrored(cs, s, t, n, k, i);
    }
    forall al | al in k.parts
      ensures PartMirrored(s', t', n, k, al)
    {
      assert PartMirrored(s, t, n, k, al) && RootMirrored(cs, s, t, n, k, al.at.root);
      assert Word(s, al.at.root).PtrV?;
      assert al.sl != sl && al.at.root != sl;
    }
  }
}
