/** The running function and its store, step by step: what keeps them in agreement,
    how agreement passes to a callee, whose borrowed formals lead to what it is lent,
    and how it comes back when the callee has returned. */
module Twins {
  import opened Optional
  import opened Syntax
  import opened Heap
  import opened Moves
  import opened Static
  import opened Machine
  import opened Ownership
  import opened Running
  import opened Steps
  import opened Roots
  import opened Copying
  import opened Reading
  import opened Agreement

  // A variable that owns, an integer, a borrowed formal or an alias.
  ghost predicate TopMirrored(w: World, sc: Scope, own: set<Name>, s: State, t: Store, k: Known, x: Name)
    requires s.frames != [] && t.frames != []
  {
    && x in Top(s)
    && var v := Top(s)[x];
       if x in sc.aliases then
         && v.PtrV? && x in Local(t)
         && Local(t)[x].Inside? && Local(t)[x].at.root in k.roots && Spotted(s, Local(t)[x].at, v)
       else x in own || !IsOwnVar(w.tys, x) ==>
         && x in Local(t) && Local(t)[x] == Read(s.heap, v)
         && (v.SlotV? ==> v.depth < |s.frames| - 1 && Lendable(s, k, Slot(v.depth, v.x)))
  }

  ghost predicate TopAgrees(w: World, sc: Scope, own: set<Name>, s: State, t: Store, k: Known)
    requires s.frames != [] && t.frames != []
  {
    forall x | x in sc.names :: TopMirrored(w, sc, own, s, t, k, x)
  }

  ghost predicate Twin(w: World, sc: Scope, own: set<Name>, s: State, t: Store, lent: set<nat>, k: Known) {
    && s.frames != [] && |t.frames| == |s.frames|
    && Mirrors(w.p.ctors, s, t, |s.frames| - 1, k)
    && RootCells(s, k.roots) <= lent
    && TopAgrees(w, sc, own, s, t, k)
  }

  // The cells of callers and of values in flight that no borrow leads to.
  ghost function Private(s: State, lent: set<nat>, k: Known): set<nat> {
    lent - RootCells(s, k.roots)
  }

  // -------------------------------------------------------------------------
  // Steps that change no variable
  // -------------------------------------------------------------------------

  lemma {:induction false} TopCarry(w: World, sc: Scope, own: set<Name>, own': set<Name>, s: State, t: Store, s': State,
      t': Store, lent: set<nat>, flight: set<nat>, k: Known, x: Name)
    requires Inv(w, sc, own, s, lent, flight) && Twin(w, sc, own, s, t, lent, k) && own' <= own
    requires s'.frames == s.frames && t'.frames == t.frames
    requires SameCells(s.heap, s'.heap, RootCells(s, k.roots) + CellsOwned(s.heap, Top(s), own'))
    requires x in sc.names
    ensures TopMirrored(w, sc, own', s', t', k, x)
  {
    hide Copies, Lends;
    assert TopMirrored(w, sc, own, s, t, k, x);
    var v := Top(s)[x];
    if x in sc.aliases {
      var at := Local(t)[x].at;
      assert RootMirrored(w.p.ctors, s, t, |s.frames| - 1, k, at.root);
      SpottedCarry(w.p.ctors, s, t, s', t', |s.frames| - 1, k, at, v);
    } else if x in own' {
      assert Cells(s.heap, v) <= CellsOwned(s.heap, Top(s), own');
      ReadFrame(w.p.ctors, s.heap, s'.heap, v, w.tys[x]);
    } else if !IsOwnVar(w.tys, x) {
      NotOwnedWord(w, sc, s, lent, x);
    }
  }

  // An integer or a borrow holds no address of a cell.
  lemma NotOwnedWord(w: World, sc: Scope, s: State, lent: set<nat>, x: Name)
    requires s.frames != [] && Copies(w, sc, s, lent) && x in sc.names && !IsOwnVar(w.tys, x)
    ensures !Top(s)[x].PtrV?
  {
    if w.tys[x].TBorrow? {
      assert Lends(w.p.ctors, s, |s.frames| - 1, Top(s)[x], w.tys[x].referent, lent);
    }
  }

  // Allocating, freeing what is in flight, taking an owner, drawing an input.
  lemma {:induction false} TwinCarry(w: World, sc: Scope, own: set<Name>, own': set<Name>, s: State, t: Store,
      s': State,
      t': Store, lent: set<nat>, flight: set<nat>, k: Known)
    requires Inv(w, sc, own, s, lent, flight) && Twin(w, sc, own, s, t, lent, k) && own' <= own
    requires s'.frames == s.frames && t'.frames == t.frames && t'.drawn == s'.drawn && t'.printed == s'.printed
    requires SameCells(s.heap, s'.heap, RootCells(s, k.roots) + CellsOwned(s.heap, Top(s), own'))
    ensures Twin(w, sc, own', s', t', lent, k) && RootCells(s', k.roots) == RootCells(s, k.roots)
  {
    hide Inv, TopMirrored;
    MirrorsCarry(w.p.ctors, s, t, s', t', |s.frames| - 1, k);
    forall x | x in sc.names
      ensures TopMirrored(w, sc, own', s', t', k, x)
    {
      TopCarry(w, sc, own, own', s, t, s', t', lent, flight, k, x);
    }
  }

  // -------------------------------------------------------------------------
  // Assignments
  // -------------------------------------------------------------------------

  // A variable receives a value; the others are as they were.
  lemma {:induction false} TwinAssign(w: World, sc: Scope, own: set<Name>, s: State, t: Store, lent: set<nat>, k: Known,
      x: Name, v: Value, u: Datum)
    requires Twin(w, sc, own, s, t, lent, k) && Copies(w, sc, s, lent)
    requires x in sc.names && x !in sc.aliases && u == Read(s.heap, v) && !v.SlotV?
    ensures var s', t' := WithTop(s, Top(s)[x := v]), WithLocal(t, Local(t)[x := u]);
      Twin(w, sc, if IsOwnVar(w.tys, x) then own + {x} else own, s', t', lent, k) &&
        RootCells(s', k.roots) == RootCells(s, k.roots)
  {
    hide Mirrors;
    var s', t' := WithTop(s, Top(s)[x := v]), WithLocal(t, Local(t)[x := u]);
    var n, own' := |s.frames| - 1, if IsOwnVar(w.tys, x) then own + {x} else own;
    RootsAreLower(w.p.ctors, s, t, n, k);
    TopLower(w.p.ctors, s, t, s', t', k);
    forall y | y in sc.names
      ensures TopMirrored(w, sc, own', s', t', k, y)
    {
      assert TopMirrored(w, sc, own, s, t, k, y);
      if y in sc.aliases {
        assert Local(t)[y].at.root.depth < n;
      }
    }
  }

  lemma RootsAreLower(cs: map<Name, Ctor>, s: State, t: Store, n: nat, k: Known)
    requires Mirrors(cs, s, t, n, k)
    ensures forall sl | sl in k.roots :: sl.depth < n && OnStack(s.frames, sl)
    ensures forall al | al in k.parts :: al.sl.depth < n && OnStack(s.frames, al.sl)
    ensures t.drawn == s.drawn && t.printed == s.printed
  {
    assert forall sl | sl in k.roots :: RootMirrored(cs, s, t, n, k, sl);
    assert forall al | al in k.parts :: PartMirrored(s, t, n, k, al);
  }

  // Only the top frames differ.
  lemma {:induction false} TopLower(cs: map<Name, Ctor>, s: State, t: Store, s': State, t': Store, k: Known)
    requires s.frames != [] && |t.frames| == |s.frames| == |s'.frames| == |t'.frames|
    requires Mirrors(cs, s, t, |s.frames| - 1, k)
    requires s'.frames[..|s.frames| - 1] == s.frames[..|s.frames| - 1] && s'.heap == s.heap
    requires t'.frames[..|s.frames| - 1] == t.frames[..|s.frames| - 1]
    requires t'.drawn == s'.drawn && t'.printed == s'.printed
    ensures Mirrors(cs, s', t', |s.frames| - 1, k) && RootCells(s', k.roots) == RootCells(s, k.roots)
  {
    var n := |s.frames| - 1;
    forall i | 0 <= i < n
      ensures s'.frames[i] == s.frames[i] && t'.frames[i] == t.frames[i]
    {
      assert s'.frames[..n][i] == s'.frames[i] && s.frames[..n][i] == s.frames[i];
      assert t'.frames[..n][i] == t'.frames[i] && t.frames[..n][i] == t.frames[i];
    }
    RootCellsLive(s, k.roots);
    MirrorsCarry(cs, s, t, s', t', n, k);
  }

  lemma RootCellsLive(s: State, roots: set<Slot>)
    ensures RootCells(s, roots) <= s.heap.Keys
  {
    forall sl | sl in roots && OnStack(s.frames, sl)
      ensures CellsAt(s, sl) <= s.heap.Keys
    {
      CellsLive(s.heap, Word(s, sl));
    }
  }

  // -------------------------------------------------------------------------
  // Calls
  // -------------------------------------------------------------------------

  ghost function TopRoots(w: World, sc: Scope, own: set<Name>, n: nat): set<Slot> {
    set x | x in sc.names - sc.aliases && (x in own || !IsOwnVar(w.tys, x)) :: Slot(n, x)
  }

  ghost function TopParts(sc: Scope, t: Store): set<Alias>
    requires t.frames != []
  {
    set x | x in sc.aliases && x in Local(t) && Local(t)[x].Inside? :: Alias(Slot(|t.frames| - 1, x), Local(t)[x].at)
  }

  // What a callee may be lent: what the caller was, and what the caller has.
  ghost function Lending(w: World, sc: Scope, own: set<Name>, t: Store, k: Known): Known
    requires t.frames != []
  {
    Known(k.roots + TopRoots(w, sc, own, |t.frames| - 1), k.parts + TopParts(sc, t))
  }

  lemma {:induction false} LentRoot(w: World, sc: Scope, own: set<Name>, s: State, t: Store, lent: set<nat>,
      flight: set<nat>, k: Known, sl: Slot)
    requires Inv(w, sc, own, s, lent, flight) && Twin(w, sc, own, s, t, lent, k)
    requires sl in Lending(w, sc, own, t, k).roots
    ensures RootMirrored(w.p.ctors, s, t, |s.frames|, Lending(w, sc, own, t, k), sl)
    ensures CellsAt(s, sl) <= lent + CellsOwned(s.heap, Top(s), own)
    ensures sl !in k.roots ==>
      && sl.depth == |s.frames| - 1 && sl.x in Top(s)
      && (if sl.x in own then CellsAt(s, sl) <= CellsOwned(s.heap, Top(s), own) else CellsAt(s, sl) == {})
  {
    hide Lends;
    var n := |s.frames| - 1;
    if sl in k.roots {
      assert RootMirrored(w.p.ctors, s, t, n, k, sl);
      assert forall a | a in CellsAt(s, sl) :: a in RootCells(s, k.roots);
    } else {
      assert TopMirrored(w, sc, own, s, t, k, sl.x);
      if sl.x !in own {
        NotOwnedWord(w, sc, s, lent, sl.x);
      }
    }
  }

  lemma {:induction false} LentPart(w: World, sc: Scope, own: set<Name>, s: State, t: Store, lent: set<nat>,
      flight: set<nat>, k: Known, al: Alias)
    requires Inv(w, sc, own, s, lent, flight) && Twin(w, sc, own, s, t, lent, k)
    requires al in Lending(w, sc, own, t, k).parts
    ensures PartMirrored(s, t, |s.frames|, Lending(w, sc, own, t, k), al)
  {
    if al in k.parts {
      assert PartMirrored(s, t, |s.frames| - 1, k, al);
    } else {
      assert TopMirrored(w, sc, own, s, t, k, al.sl.x);
      RootsAreLower(w.p.ctors, s, t, |s.frames| - 1, k);
    }
  }

  lemma {:induction false} TwinLends(w: World, sc: Scope, own: set<Name>, s: State, t: Store, lent: set<nat>,
      flight: set<nat>, k: Known)
    requires Inv(w, sc, own, s, lent, flight) && Twin(w, sc, own, s, t, lent, k)
    ensures Mirrors(w.p.ctors, s, t, |s.frames|, Lending(w, sc, own, t, k))
    ensures RootCells(s, Lending(w, sc, own, t, k).roots) <= lent + CellsOwned(s.heap, Top(s), own)
    ensures RootCells(s, Lending(w, sc, own, t, k).roots) * lent == RootCells(s, k.roots)
  {
    hide Copies, RootMirrored, PartMirrored, Lends, Cells;
    var k' := Lending(w, sc, own, t, k);
    forall sl | sl in k'.roots
      ensures RootMirrored(w.p.ctors, s, t, |s.frames|, k', sl)
      ensures CellsAt(s, sl) <= lent + CellsOwned(s.heap, Top(s), own)
      ensures sl !in k.roots ==>
        && sl.depth == |s.frames| - 1 && sl.x in Top(s)
        && (if sl.x in own then CellsAt(s, sl) <= CellsOwned(s.heap, Top(s), own) else CellsAt(s, sl) == {})
    {
      LentRoot(w, sc, own, s, t, lent, flight, k, sl);
    }
    forall al | al in k'.parts
      ensures PartMirrored(s, t, |s.frames|, k', al)
    {
      LentPart(w, sc, own, s, t, lent, flight, k, al);
    }
    forall i, j | i in k'.roots && j in k'.roots && i != j
      ensures CellsAt(s, i) !! CellsAt(s, j)
    {
      RootsApart(w, sc, own, s, t, lent, flight, k, i, j);
    }
  }

  lemma {:induction false} RootsApart(w: World, sc: Scope, own: set<Name>, s: State, t: Store, lent: set<nat>,
      flight: set<nat>, k: Known, i: Slot, j: Slot)
    requires Inv(w, sc, own, s, lent, flight) && Twin(w, sc, own, s, t, lent, k)
    requires var k' := Lending(w, sc, own, t, k); i in k'.roots && j in k'.roots && i != j
    ensures CellsAt(s, i) !! CellsAt(s, j)
  {
    LentRoot(w, sc, own, s, t, lent, flight, k, i);
    LentRoot(w, sc, own, s, t, lent, flight, k, j);
    assert i in k.roots ==> CellsAt(s, i) <= RootCells(s, k.roots);
    assert j in k.roots ==> CellsAt(s, j) <= RootCells(s, k.roots);
    if i !in k.roots && j !in k.roots && i.x in own && j.x in own {
      assert CellsAt(s, i) == Cells(s.heap, Top(s)[i.x]) && CellsAt(s, j) == Cells(s.heap, Top(s)[j.x]);
    }
  }

  // Words that are no integers stay, and so do the cells of what is lent.
  lemma WordStays(s: State, s': State, n: nat, zs: set<nat>, sl: Slot)
    requires Stable(s, s', n, zs) && OnStack(s.frames, sl) && sl.depth < n
    ensures OnStack(s'.frames, sl)
    ensures Word(s', sl) == Word(s, sl) || (Word(s, sl).IntV? && Word(s', sl).IntV?)
  {
    assert Quiet(s.frames[sl.depth], s'.frames[sl.depth]);
  }

  lemma {:induction false} RootReturns(w: World, sc: Scope, own: set<Name>, s: State, t: Store, s': State, t': Store,
      lent: set<nat>, zs: set<nat>, k: Known, sl: Slot)
    requires Twin(w, sc, own, s, t, lent, k) && lent <= zs && sl in k.roots
    requires Mirrors(w.p.ctors, s', t', |s.frames|, Lending(w, sc, own, t, k)) && Stable(s, s', |s.frames|, zs)
    ensures RootMirrored(w.p.ctors, s', t', |s.frames| - 1, k, sl) && CellsAt(s', sl) == CellsAt(s, sl)
  {
    var cs := w.p.ctors;
    assert RootMirrored(cs, s, t, |s.frames| - 1, k, sl);
    assert RootMirrored(cs, s', t', |s.frames|, Lending(w, sc, own, t, k), sl);
    WordStays(s, s', |s.frames|, zs, sl);
    var v := Word(s, sl);
    if v.PtrV? {
      var ty :| IsOwn(ty) && Tree(cs, s.heap, v, ty);
      assert forall a | a in CellsAt(s, sl) :: a in RootCells(s, k.roots);
      TreeFrame(cs, s.heap, s'.heap, v, ty);
    } else if v.SlotV? {
      WordStays(s, s', |s.frames|, zs, Slot(v.depth, v.x));
    }
  }

  lemma {:induction false} PartReturns(w: World, sc: Scope, own: set<Name>, s: State, t: Store, s': State, t': Store,
      lent: set<nat>, k: Known, al: Alias)
    requires Twin(w, sc, own, s, t, lent, k) && al in k.parts
    requires Mirrors(w.p.ctors, s', t', |s.frames|, Lending(w, sc, own, t, k))
    ensures PartMirrored(s', t', |s.frames| - 1, k, al)
  {
    assert PartMirrored(s, t, |s.frames| - 1, k, al);
    assert PartMirrored(s', t', |s.frames|, Lending(w, sc, own, t, k), al);
  }

  lemma {:induction false} TopReturns(w: World, sc: Scope, own: set<Name>, s: State, t: Store, s': State, t': Store,
      lent: set<nat>, flight: set<nat>, zs: set<nat>, k: Known, x: Name)
    requires Inv(w, sc, own, s, lent, flight) && Twin(w, sc, own, s, t, lent, k) && lent <= zs && x in sc.names
    requires Mirrors(w.p.ctors, s', t', |s.frames|, Lending(w, sc, own, t, k)) && Stable(s, s', |s.frames|, zs)
    ensures s'.frames != [] && t'.frames != [] && TopMirrored(w, sc, own, s', t', k, x)
  {
    hide Copies, Owns;
    var n, k' := |s.frames| - 1, Lending(w, sc, own, t, k);
    assert TopMirrored(w, sc, own, s, t, k, x);
    WordStays(s, s', |s.frames|, zs, Slot(n, x));
    if x in sc.aliases {
      var al := Alias(Slot(n, x), Local(t)[x].at);
      assert al in k'.parts;
      assert PartMirrored(s', t', |s.frames|, k', al);
    } else if x in own || !IsOwnVar(w.tys, x) {
      assert Slot(n, x) in k'.roots;
      assert RootMirrored(w.p.ctors, s', t', |s.frames|, k', Slot(n, x));
      var v := Top(s)[x];
      if v.SlotV? {
        WordStays(s, s', |s.frames|, zs, Slot(v.depth, v.x));
      }
    }
  }

  // Back from a call: what the callee kept in agreement is what the caller has.
  lemma {:induction false} TwinReturns(w: World, sc: Scope, own: set<Name>, s: State, t: Store, s': State, t': Store,
      lent: set<nat>, flight: set<nat>, zs: set<nat>, k: Known)
    requires Inv(w, sc, own, s, lent, flight) && Twin(w, sc, own, s, t, lent, k) && lent <= zs
    requires Mirrors(w.p.ctors, s', t', |s.frames|, Lending(w, sc, own, t, k)) && Stable(s, s', |s.frames|, zs)
    ensures Twin(w, sc, own, s', t', lent, k) && RootCells(s', k.roots) == RootCells(s, k.roots)
  {
    hide Inv, RootMirrored, PartMirrored, TopMirrored, Quiet, SameShape;
    forall sl | sl in k.roots
      ensures RootMirrored(w.p.ctors, s', t', |s.frames| - 1, k, sl) && CellsAt(s', sl) == CellsAt(s, sl)
    {
      RootReturns(w, sc, own, s, t, s', t', lent, zs, k, sl);
    }
    forall al | al in k.parts
      ensures PartMirrored(s', t', |s.frames| - 1, k, al)
    {
      PartReturns(w, sc, own, s, t, s', t', lent, k, al);
    }
    forall x | x in sc.names
      ensures s'.frames != [] && t'.frames != [] && TopMirrored(w, sc, own, s', t', k, x)
    {
      TopReturns(w, sc, own, s, t, s', t', lent, flight, zs, k, x);
    }
  }

  // A new frame on top, or the top frame gone.
  lemma {:induction false} FramePushed(cs: map<Name, Ctor>, s: State, t: Store, f: Frame, g: Vars, k: Known)
    requires Mirrors(cs, s, t, |s.frames|, k)
    ensures var s', t' := s.(frames := s.frames + [f]), t.(frames := t.frames + [g]);
      Mirrors(cs, s', t', |s.frames|, k) && RootCells(s', k.roots) == RootCells(s, k.roots)
  {
    RootCellsLive(s, k.roots);
    RootsAreLower(cs, s, t, |s.frames|, k);
    MirrorsCarry(cs, s, t, s.(frames := s.frames + [f]), t.(frames := t.frames + [g]), |s.frames|, k);
  }

  lemma {:induction false} FrameDropped(cs: map<Name, Ctor>, s: State, t: Store, k: Known)
    requires s.frames != [] && Mirrors(cs, s, t, |s.frames| - 1, k)
    ensures var s', t' := s.(frames := s.frames[..|s.frames| - 1]), t.(frames := t.frames[..|t.frames| - 1]);
      Mirrors(cs, s', t', |s.frames| - 1, k) && RootCells(s', k.roots) == RootCells(s, k.roots)
  {
    RootCellsLive(s, k.roots);
    RootsAreLower(cs, s, t, |s.frames| - 1, k);
    MirrorsCarry(cs, s, t, s.(frames := s.frames[..|s.frames| - 1]), t.(frames := t.frames[..|t.frames| - 1]),
      |s.frames| - 1, k);
  }

  // -------------------------------------------------------------------------
  // Stores
  // -------------------------------------------------------------------------

  // Into a cell of a lower variable.
  lemma {:induction false} TwinStore(w: World, sc: Scope, own: set<Name>, s: State, t: Store, lent: set<nat>,
      flight: set<nat>, k: Known, at: Spot, a: nat, m: int)
    requires Inv(w, sc, own, s, lent, flight) && Twin(w, sc, own, s, t, lent, k)
    requires at.root in k.roots && Spotted(s, at, PtrV(a)) && a in s.heap && s.heap[a].IntCell?
    ensures var s' := s.(heap := s.heap[a := IntCell(m)]);
      && Twin(w, sc, own, s', Put(t, at, m), lent, k) && RootCells(s', k.roots) == RootCells(s, k.roots)
      && a in RootCells(s, k.roots)
  {
    hide Inv, TopMirrored, Spotted;
    var s', t' := s.(heap := s.heap[a := IntCell(m)]), Put(t, at, m);
    MirrorsStore(w.p.ctors, s, t, |s.frames| - 1, k, at, a, m);
    forall x | x in sc.names
      ensures TopMirrored(w, sc, own, s', t', k, x)
    {
      TopStore(w, sc, own, s, t, lent, flight, k, at, a, m, x);
    }
  }

  lemma {:induction false} TopStore(w: World, sc: Scope, own: set<Name>, s: State, t: Store, lent: set<nat>,
      flight: set<nat>, k: Known, at: Spot, a: nat, m: int, x: Name)
    requires Inv(w, sc, own, s, lent, flight) && Twin(w, sc, own, s, t, lent, k) && x in sc.names
    requires at.root in k.roots && Spotted(s, at, PtrV(a)) && a in s.heap && s.heap[a].IntCell?
    ensures TopMirrored(w, sc, own, s.(heap := s.heap[a := IntCell(m)]), Put(t, at, m), k, x)
  {
    hide Copies, Lends;
    var cs, n, s' := w.p.ctors, |s.frames| - 1, s.(heap := s.heap[a := IntCell(m)]);
    assert RootMirrored(cs, s, t, n, k, at.root);
    StoredInRoot(cs, s, t, n, k, at, a, m);
    assert a in RootCells(s, k.roots);
    assert Local(Put(t, at, m)) == Local(t);
    assert TopMirrored(w, sc, own, s, t, k, x);
    var v := Top(s)[x];
    if x in sc.aliases {
      assert RootMirrored(cs, s, t, n, k, Local(t)[x].at.root);
      SpottedStore(cs, s, t, n, k, Local(t)[x].at, v, a, m);
    } else if x in own {
      assert Cells(s.heap, v) <= CellsOwned(s.heap, Top(s), own);
      CellsLive(s.heap, v);
      ReadFrame(cs, s.heap, s'.heap, v, w.tys[x]);
    } else if !IsOwnVar(w.tys, x) {
      NotOwnedWord(w, sc, s, lent, x);
    }
  }

  lemma {:induction false} SpottedStore(cs: map<Name, Ctor>, s: State, t: Store, n: nat, k: Known, at: Spot, v: Value,
      a: nat, m: int)
    requires RootMirrored(cs, s, t, n, k, at.root) && Spotted(s, at, v) && a in s.heap && s.heap[a].IntCell?
    ensures Spotted(s.(heap := s.heap[a := IntCell(m)]), at, v)
  {
    var u := Word(s, at.root);
    if u.PtrV? {
      var ty :| IsOwn(ty) && Tree(cs, s.heap, u, ty);
      CellsLive(s.heap, u);
      LocatedFrame(cs, s.heap, s.heap[a := IntCell(m)], u, ty, at.path);
    }
  }

  // Into an integer variable of a lower frame.
  lemma {:induction false} TwinSet(w: World, sc: Scope, own: set<Name>, s: State, t: Store, lent: set<nat>, k: Known,
      sl: Slot, m: int)
    requires Twin(w, sc, own, s, t, lent, k) && sl in k.roots && OnStack(s.frames, sl) && Word(s, sl).IntV?
    ensures var f: Frame := s.frames[sl.depth][sl.x := IntV(m)];
      var s' := s.(frames := s.frames[sl.depth := f]);
      && Twin(w, sc, own, s', Put(t, Spot(sl, []), m), lent, k) && RootCells(s', k.roots) == RootCells(s, k.roots)
  {
    hide Mirrors;
    var f: Frame := s.frames[sl.depth][sl.x := IntV(m)];
    var s', t' := s.(frames := s.frames[sl.depth := f]), Put(t, Spot(sl, []), m);
    RootsAreLower(w.p.ctors, s, t, |s.frames| - 1, k);
    MirrorsSet(w.p.ctors, s, t, |s.frames| - 1, k, sl, m);
    assert Top(s') == Top(s) && Local(t') == Local(t);
    forall x | x in sc.names
      ensures TopMirrored(w, sc, own, s', t', k, x)
    {
      assert TopMirrored(w, sc, own, s, t, k, x);
      if x in sc.aliases {
        assert Local(t)[x].at.root != sl;
      }
    }
  }

  // Into the cell of an owner of the running function.
  lemma {:induction false} TwinStoreOwn(w: World, sc: Scope, own: set<Name>, s: State, t: Store, lent: set<nat>,
      flight: set<nat>, k: Known, x: Name, m: int)
    requires Inv(w, sc, own, s, lent, flight) && Twin(w, sc, own, s, t, lent, k)
    requires x in own && w.tys[x] == TOwn
    ensures Top(s)[x].PtrV? && Top(s)[x].a in s.heap && s.heap[Top(s)[x].a].IntCell?
    ensures var s' := s.(heap := s.heap[Top(s)[x].a := IntCell(m)]);
      && Twin(w, sc, own, s', Put(t, Spot(Slot(|s.frames| - 1, x), []), m), lent, k)
      && RootCells(s', k.roots) == RootCells(s, k.roots)
      && Top(s)[x].a !in lent + flight
  {
    hide Copies, Lends;
    var cs, n, a := w.p.ctors, |s.frames| - 1, Top(s)[x].a;
    var s', t' := s.(heap := s.heap[a := IntCell(m)]), Put(t, Spot(Slot(n, x), []), m);
    assert TopMirrored(w, sc, own, s, t, k, x);
    assert a in Cells(s.heap, Top(s)[x]) && Cells(s.heap, Top(s)[x]) <= CellsOwned(s.heap, Top(s), own);
    assert t'.frames[..n] == t.frames[..n];
    RootCellsLive(s, k.roots);
    RootsAreLower(cs, s, t, n, k);
    MirrorsCarry(cs, s, t, s', t', n, k);
    forall y | y in sc.names
      ensures TopMirrored(w, sc, own, s', t', k, y)
    {
      OtherStored(w, sc, own, s, t, lent, flight, k, x, m, y);
    }
  }

  lemma {:induction false} OtherStored(w: World, sc: Scope, own: set<Name>, s: State, t: Store, lent: set<nat>,
      flight: set<nat>, k: Known, x: Name, m: int, y: Name)
    requires Inv(w, sc, own, s, lent, flight) && Twin(w, sc, own, s, t, lent, k)
    requires x in own && w.tys[x] == TOwn && y in sc.names
    ensures var s' := s.(heap := s.heap[Top(s)[x].a := IntCell(m)]);
      TopMirrored(w, sc, own, s', Put(t, Spot(Slot(|s.frames| - 1, x), []), m), k, y)
  {
    hide Copies, Lends;
    var cs, n, a := w.p.ctors, |s.frames| - 1, Top(s)[x].a;
    var s', t' := s.(heap := s.heap[a := IntCell(m)]), Put(t, Spot(Slot(n, x), []), m);
    assert TopMirrored(w, sc, own, s, t, k, x) && TopMirrored(w, sc, own, s, t, k, y);
    var v := Top(s)[y];
    if y == x {
    } else if y in sc.aliases {
      assert RootMirrored(cs, s, t, n, k, Local(t)[y].at.root);
      SpottedStore(cs, s, t, n, k, Local(t)[y].at, v, a, m);
    } else if y in own {
      CellsLive(s.heap, v);
      ReadFrame(cs, s.heap, s'.heap, v, w.tys[y]);
    } else if !IsOwnVar(w.tys, y) {
      NotOwnedWord(w, sc, s, lent, y);
    }
  }
}
