/** Entering and leaving a case arm keeps a state and its store in agreement: the
    binders of a consumed match read as the parts they got, those of a borrowed match
    name parts of a variable further down, and what they hid comes back as it was. */
module ArmTwins {
  import opened Optional
  import opened Syntax
  import opened Heap
  import opened Moves
  import opened Static
  import opened Machine
  import opened Ownership
  import opened Running
  import opened Matching
  import opened Arms
  import opened Roots
  import opened Copying
  import opened Reading
  import opened Agreement
  import opened Twins
  import opened Places

  // Taking the payloads apart frees cells of theirs only, and changes none.
  lemma {:induction false} PayloadsOnly(p: Program, tys: map<Name, Ty>, h: Memory, f: Frame, box: nat, vs: List<Value>,
      qs: List<Pat>, ts: List<Ty>, bound: nat, fuel: nat)
    requires Forest(p.ctors, h, vs, ts, bound) && PatsTyped(p, qs, ts) && AllMatch(qs, ShapesOf(h, vs, bound))
    requires AllUsedAsBound(tys, qs) && box in h && box !in CellsOf(h, vs, bound)
    requires BindPats(p.ctors, h, f, box, vs, qs, ts, true, fuel).Bound?
    ensures var r := BindPats(p.ctors, h, f, box, vs, qs, ts, true, fuel);
      && SameCells(h, r.h, h.Keys - CellsOf(h, vs, bound))
      && forall a | a in r.h :: a in h && r.h[a] == h[a]
  {
    var others := h.Keys - CellsOf(h, vs, bound);
    CellsOfLive(h, vs, bound);
    assert CellsOwned(h, f, {}) == {};
    assert h.Keys == others + CellsOf(h, vs, bound);
    var lost := BindsConsume(p, tys, h, f, {}, others, box, vs, qs, ts, bound, fuel);
  }

  // A variable that holds what it held.
  lemma {:induction false} TopKept(w: World, sc: Scope, sc1: Scope, own: set<Name>, own1: set<Name>, s: State, t: Store,
      s1: State, t1: Store, k: Known, x: Name)
    requires s.frames != [] && t.frames != [] && t1.frames != [] && |s1.frames| == |s.frames|
    requires forall i | 0 <= i < |s.frames| - 1 :: s1.frames[i] == s.frames[i]
    requires TopMirrored(w, sc, own, s, t, k, x) && (x in sc.aliases <==> x in sc1.aliases)
    requires x in Top(s1) && Top(s1)[x] == Top(s)[x]
    requires x in Local(t) ==> x in Local(t1) && Local(t1)[x] == Local(t)[x]
    requires x in sc.aliases ==> Spotted(s1, Local(t)[x].at, Top(s)[x])
    requires x in own1 && x !in sc.aliases && IsOwnVar(w.tys, x) ==> x in own
    requires x !in sc.aliases && (x in own1 || !IsOwnVar(w.tys, x)) ==>
      Read(s1.heap, Top(s)[x]) == Read(s.heap, Top(s)[x])
    ensures TopMirrored(w, sc1, own1, s1, t1, k, x)
  {
    var v := Top(s)[x];
    if x !in sc.aliases && !IsOwnVar(w.tys, x) && v.SlotV? {
      assert s1.frames[v.depth] == s.frames[v.depth];
    }
  }

  // A new integer, or a new owner.
  lemma {:induction false} TopBound(w: World, sc1: Scope, own1: set<Name>, s1: State, t1: Store, lent: set<nat>,
      flight: set<nat>, h: Memory, k: Known, x: Name)
    requires Inv(w, sc1, own1, s1, lent, flight) && t1.frames != []
    requires x in sc1.names && x !in sc1.aliases && x in w.tys && !w.tys[x].TBorrow?
    requires forall a | a in s1.heap :: a in h && s1.heap[a] == h[a]
    requires x in Local(t1) && Local(t1)[x] == Read(h, Top(s1)[x])
    ensures TopMirrored(w, sc1, own1, s1, t1, k, x)
  {
    hide Lends;
    var v := Top(s1)[x];
    if x in own1 {
      CellsLive(s1.heap, v);
      ReadFrame(w.p.ctors, s1.heap, h, v, w.tys[x]);
    }
  }

  // The state and the store an arm's body starts with.
  ghost predicate Entered1(w: World, arm: Arm, sc: Scope, own: set<Name>, s: State, t: Store, h: Memory, f: Frame,
      g: Vars)
    requires s.frames != [] && t.frames != []
  {
    && BindsAlike(s.heap, Top(s), f, Local(t), g, Elems(BindersOf(arm.pats)))
    && (forall a | a in h :: a in s.heap && h[a] == s.heap[a])
    && (forall x | x in own - Elems(BindersOf(arm.pats)) && x in Top(s) ::
      SameCells(s.heap, h, Cells(s.heap, Top(s)[x])))
  }

  // Where the lower frames and the cells that matter are the same.
  lemma {:induction false} OtherStays(w: World, sc: Scope, own: set<Name>, s: State, t: Store, s1: State, t1: Store,
      lent: set<nat>, flight: set<nat>, k: Known, x: Name)
    requires Inv(w, sc, own, s, lent, flight) && Twin(w, sc, own, s, t, lent, k) && x in sc.names
    requires LowerSame(s, t, s1, t1, |s.frames| - 1, k)
    requires x in own && x in Top(s) ==> SameCells(s.heap, s1.heap, Cells(s.heap, Top(s)[x]))
    ensures x in Top(s)
    ensures x in sc.aliases ==> x in Local(t) && Local(t)[x].Inside? && Spotted(s1, Local(t)[x].at, Top(s)[x])
    ensures x !in sc.aliases && (x in own || !IsOwnVar(w.tys, x)) ==>
      Read(s1.heap, Top(s)[x]) == Read(s.heap, Top(s)[x])
  {
    hide Lends;
    assert TopMirrored(w, sc, own, s, t, k, x);
    if x in sc.aliases {
      var at, n := Local(t)[x].at, |s.frames| - 1;
      assert RootMirrored(w.p.ctors, s, t, n, k, at.root);
      SpottedCarry(w.p.ctors, s, t, s1, t1, n, k, at, Top(s)[x]);
    } else if x in own {
      ReadFrame(w.p.ctors, s.heap, s1.heap, Top(s)[x], w.tys[x]);
    } else if !IsOwnVar(w.tys, x) {
      NotOwnedWord(w, sc, s, lent, x);
    }
  }

  lemma {:induction false} ByValueTop(w: World, arm: Arm, sc: Scope, own: set<Name>, s: State, t: Store, h: Memory,
      f: Frame, g: Vars, lent: set<nat>, flight0: set<nat>, flight: set<nat>, k: Known, x: Name)
    requires Inv(w, sc, own, s, lent, flight0) && Twin(w, sc, own, s, t, lent, k)
    requires Entered1(w, arm, sc, own, s, t, h, f, g) && SameCells(s.heap, h, RootCells(s, k.roots))
    requires var s1, own1 := WithTop(s.(heap := h), f), own + OwnSet(w.tys, BindersOf(arm.pats));
      Inv(w, ArmScope(arm, true, sc), own1, s1, lent, flight)
    requires forall y | y in Elems(BindersOf(arm.pats)) :: y in w.tys && !w.tys[y].TBorrow?
    requires x in sc.names + Elems(BindersOf(arm.pats))
    ensures var s1, own1 := WithTop(s.(heap := h), f), own + OwnSet(w.tys, BindersOf(arm.pats));
      TopMirrored(w, ArmScope(arm, true, sc), own1, s1, WithLocal(t, g), k, x)
  {
    hide Lends, TopMirrored, Owns;
    var s1, t1, n := WithTop(s.(heap := h), f), WithLocal(t, g), |s.frames| - 1;
    var bs, own1, sc1 := Elems(BindersOf(arm.pats)), own + OwnSet(w.tys, BindersOf(arm.pats)), ArmScope(arm, true, sc);
    OwnSetIs(w.tys, BindersOf(arm.pats));
    if x in bs {
      TopBound(w, sc1, own1, s1, t1, lent, flight, s.heap, k, x);
    } else {
      assert TopMirrored(w, sc, own, s, t, k, x);
      OtherStays(w, sc, own, s, t, s1, t1, lent, flight0, k, x);
      assert x in own1 ==> x in own;
      TopKept(w, sc, sc1, own, own1, s, t, s1, t1, k, x);
    }
  }

  lemma {:induction false} EnterByValueTwin(w: World, arm: Arm, sc: Scope, own: set<Name>, s: State, t: Store,
      h: Memory, f: Frame, g: Vars, lent: set<nat>, flight0: set<nat>, flight: set<nat>, k: Known)
    requires Inv(w, sc, own, s, lent, flight0) && Twin(w, sc, own, s, t, lent, k)
    requires Entered1(w, arm, sc, own, s, t, h, f, g) && SameCells(s.heap, h, RootCells(s, k.roots))
    requires var s1, own1 := WithTop(s.(heap := h), f), own + OwnSet(w.tys, BindersOf(arm.pats));
      Inv(w, ArmScope(arm, true, sc), own1, s1, lent, flight)
    requires forall y | y in Elems(BindersOf(arm.pats)) :: y in w.tys && !w.tys[y].TBorrow?
    ensures var s1, own1 := WithTop(s.(heap := h), f), own + OwnSet(w.tys, BindersOf(arm.pats));
      && Twin(w, ArmScope(arm, true, sc), own1, s1, WithLocal(t, g), lent, k)
      && RootCells(s1, k.roots) == RootCells(s, k.roots)
  {
    hide Inv, Entered1, TopMirrored;
    var s1, t1, n := WithTop(s.(heap := h), f), WithLocal(t, g), |s.frames| - 1;
    assert LowerSame(s, t, s1, t1, n, k);
    RootsAreLower(w.p.ctors, s, t, n, k);
    MirrorsCarry(w.p.ctors, s, t, s1, t1, n, k);
    forall x | x in ArmScope(arm, true, sc).names
      ensures TopMirrored(w, ArmScope(arm, true, sc), own + OwnSet(w.tys, BindersOf(arm.pats)), s1, t1, k, x)
    {
      ByValueTop(w, arm, sc, own, s, t, h, f, g, lent, flight0, flight, k, x);
    }
  }

  lemma {:induction false} BinderInPlace(w: World, sc1: Scope, own: set<Name>, s: State, t: Store, s1: State, t1: Store,
      lent: set<nat>, flight: set<nat>, k: Known, root: Slot, x: Name)
    requires Inv(w, sc1, own, s1, lent, flight) && t1.frames != [] && s.frames != []
    requires s1 == WithTop(s, Top(s1)) && root in k.roots && root.depth < |s.frames| - 1 && OnStack(s.frames, root)
    requires x in sc1.names && x in Top(s1) && x in Local(t1) && x !in own && x in w.tys && !w.tys[x].TBorrow?
    requires x in sc1.aliases <==> IsOwnVar(w.tys, x)
    requires Top(s1)[x].IntV? ==> Local(t1)[x] == Number(Top(s1)[x].n)
    requires !Top(s1)[x].IntV? ==> Local(t1)[x].Inside? && Local(t1)[x].at.root == root
    requires !Top(s1)[x].IntV? ==> Located(s.heap, Word(s, root), Local(t1)[x].at.path) == Some(Top(s1)[x])
    ensures TopMirrored(w, sc1, own, s1, t1, k, x)
  {
    hide Lends, Owns;
    assert s1.frames[root.depth] == s.frames[root.depth];
  }

  lemma {:induction false} InPlaceTop(w: World, arm: Arm, sc: Scope, own: set<Name>, s: State, t: Store, f: Frame,
      g: Vars, lent: set<nat>, flight: set<nat>, k: Known, root: Slot, x: Name)
    requires Inv(w, sc, own, s, lent, flight) && Twin(w, sc, own, s, t, lent, k)
    requires root in k.roots && root.depth < |s.frames| - 1 && OnStack(s.frames, root)
    requires NamesParts(s.heap, root, Word(s, root), Top(s), f, Local(t), g, Elems(BindersOf(arm.pats)))
    requires Inv(w, ArmScope(arm, false, sc), own, WithTop(s, f), lent, flight)
    requires own !! Elems(BindersOf(arm.pats))
    requires Elems(Names(OwnedBindersOf(arm.pats))) == OwnSet(w.tys, BindersOf(arm.pats))
    requires forall y | y in Elems(BindersOf(arm.pats)) :: y in w.tys && !w.tys[y].TBorrow?
    requires x in sc.names + Elems(BindersOf(arm.pats))
    ensures TopMirrored(w, ArmScope(arm, false, sc), own, WithTop(s, f), WithLocal(t, g), k, x)
  {
    hide Lends, Owns, TopMirrored, Mirrors;
    var s1, t1, bs, sc1 := WithTop(s, f), WithLocal(t, g), Elems(BindersOf(arm.pats)), ArmScope(arm, false, sc);
    OwnSetIs(w.tys, BindersOf(arm.pats));
    if x in bs {
      BinderInPlace(w, sc1, own, s, t, s1, t1, lent, flight, k, root, x);
    } else {
      assert TopMirrored(w, sc, own, s, t, k, x);
      RootsAreLower(w.p.ctors, s, t, |s.frames| - 1, k);
      RootCellsLive(s, k.roots);
      assert LowerSame(s, t, s1, t1, |s.frames| - 1, k);
      if x in own && x in Top(s) {
        CellsLive(s.heap, Top(s)[x]);
      }
      OtherStays(w, sc, own, s, t, s1, t1, lent, flight, k, x);
      TopKept(w, sc, sc1, own, own, s, t, s1, t1, k, x);
    }
  }

  lemma {:induction false} EnterInPlaceTwin(w: World, arm: Arm, sc: Scope, own: set<Name>, s: State, t: Store, f: Frame,
      g: Vars, lent: set<nat>, flight: set<nat>, k: Known, root: Slot)
    requires Inv(w, sc, own, s, lent, flight) && Twin(w, sc, own, s, t, lent, k)
    requires root in k.roots && root.depth < |s.frames| - 1 && OnStack(s.frames, root)
    requires NamesParts(s.heap, root, Word(s, root), Top(s), f, Local(t), g, Elems(BindersOf(arm.pats)))
    requires Inv(w, ArmScope(arm, false, sc), own, WithTop(s, f), lent, flight)
    requires own !! Elems(BindersOf(arm.pats))
    requires Elems(Names(OwnedBindersOf(arm.pats))) == OwnSet(w.tys, BindersOf(arm.pats))
    requires forall y | y in Elems(BindersOf(arm.pats)) :: y in w.tys && !w.tys[y].TBorrow?
    ensures var s1 := WithTop(s, f);
      && Twin(w, ArmScope(arm, false, sc), own, s1, WithLocal(t, g), lent, k)
      && RootCells(s1, k.roots) == RootCells(s, k.roots)
  {
    hide Inv, NamesParts, TopMirrored, Mirrors;
    RootsAreLower(w.p.ctors, s, t, |s.frames| - 1, k);
    TopLower(w.p.ctors, s, t, WithTop(s, f), WithLocal(t, g), k);
    forall x | x in ArmScope(arm, false, sc).names
      ensures TopMirrored(w, ArmScope(arm, false, sc), own, WithTop(s, f), WithLocal(t, g), k, x)
    {
      InPlaceTop(w, arm, sc, own, s, t, f, g, lent, flight, k, root, x);
    }
  }

  lemma SameOwner(w: World, sc: Scope, own: set<Name>, own': set<Name>, s: State, t: Store, k: Known, x: Name)
    requires s.frames != [] && t.frames != [] && TopMirrored(w, sc, own, s, t, k, x) && (x in own' ==> x in own)
    ensures TopMirrored(w, sc, own', s, t, k, x)
  {
  }

  lemma {:induction false} SpottedTop(w: World, sc1: Scope, own2: set<Name>, s2: State, t2: Store, s3: State,
      lent: set<nat>, k: Known, x: Name)
    requires Twin(w, sc1, own2, s2, t2, lent, k) && x in sc1.names
    requires s3.frames != [] && s3 == WithTop(s2, Top(s3))
    ensures x in Top(s2)
    ensures x in sc1.aliases ==> x in Local(t2) && Local(t2)[x].Inside? && Spotted(s3, Local(t2)[x].at, Top(s2)[x])
  {
    assert TopMirrored(w, sc1, own2, s2, t2, k, x);
    if x in sc1.aliases {
      RootsAreLower(w.p.ctors, s2, t2, |s2.frames| - 1, k);
      assert s3.frames[Local(t2)[x].at.root.depth] == s2.frames[Local(t2)[x].at.root.depth];
    }
  }

  lemma {:induction false} HiddenBack(w: World, sc: Scope, own: set<Name>, s: State, t: Store, s2: State, s3: State,
      t3: Store, lent: set<nat>, flight: set<nat>, k: Known, x: Name)
    requires Inv(w, sc, own, s, lent, flight) && Twin(w, sc, own, s, t, lent, k) && x in sc.names
    requires s2.frames != [] && s3.frames != [] && s3 == WithTop(s2, Top(s3)) && t3.frames != []
    requires Stable(s, s2, |s.frames| - 1, lent)
    requires x in own && x in Top(s) ==> SameCells(s.heap, s2.heap, Cells(s.heap, Top(s)[x]))
    requires x in Top(s) ==> x in Top(s3) && Top(s3)[x] == Top(s)[x]
    requires x in Local(t) ==> x in Local(t3) && Local(t3)[x] == Local(t)[x]
    requires x in w.tys && !w.tys[x].TBorrow?
    ensures TopMirrored(w, sc, own, s3, t3, k, x)
  {
    hide Lends;
    assert TopMirrored(w, sc, own, s, t, k, x);
    var cs, n, v := w.p.ctors, |s.frames| - 1, Top(s)[x];
    if x in sc.aliases {
      var at := Local(t)[x].at;
      assert RootMirrored(cs, s, t, n, k, at.root);
      SpottedStays(cs, s, t, s2, n, lent, k, at, v);
      assert s3.frames[at.root.depth] == s2.frames[at.root.depth];
    } else if x in own {
      ReadFrame(cs, s.heap, s2.heap, v, w.tys[x]);
    }
  }

  // What a binder hid comes back as it was; its owner's cells have been kept.
  lemma {:induction false} LeaveTop(w: World, sc: Scope, sc1: Scope, own: set<Name>, own2: set<Name>, s: State,
      t: Store,
      s2: State, t2: Store, lent: set<nat>, flight: set<nat>, k: Known, bs: List<Name>, x: Name)
    requires Inv(w, sc, own, s, lent, flight) && Twin(w, sc, own, s, t, lent, k)
    requires Twin(w, sc1, own2, s2, t2, lent, k) && own2 !! Elems(bs)
    requires sc1.names == sc.names + Elems(bs) && sc.aliases - Elems(bs) <= sc1.aliases && x in sc.names
    requires x !in Elems(bs) ==> (x in sc.aliases <==> x in sc1.aliases)
    requires Stable(s, s2, |s.frames| - 1, lent)
    requires x in own && x in Elems(bs) ==> SameCells(s.heap, s2.heap, Cells(s.heap, Top(s)[x]))
    requires forall y | y in Elems(bs) :: y in w.tys && !w.tys[y].TBorrow?
    ensures var s3, t3 := WithTop(s2, Unshadow(Top(s2), bs, Top(s))), WithLocal(t2, Unshadow(Local(t2), bs, Local(t)));
      TopMirrored(w, sc, own2 + own * Elems(bs), s3, t3, k, x)
  {
    hide Lends, TopMirrored;
    var s3, t3 := WithTop(s2, Unshadow(Top(s2), bs, Top(s))), WithLocal(t2, Unshadow(Local(t2), bs, Local(t)));
    var cs, n := w.p.ctors, |s.frames| - 1;
    assert TopMirrored(w, sc, own, s, t, k, x);
    if x !in Elems(bs) {
      assert TopMirrored(w, sc1, own2, s2, t2, k, x);
      SpottedTop(w, sc1, own2, s2, t2, s3, lent, k, x);
      TopKept(w, sc1, sc, own2, own2 + own * Elems(bs), s2, t2, s3, t3, k, x);
    } else {
      HiddenBack(w, sc, own, s, t, s2, s3, t3, lent, flight, k, x);
      assert x in own2 + own * Elems(bs) <==> x in own;
      SameOwner(w, sc, own, own2 + own * Elems(bs), s3, t3, k, x);
    }
  }

  lemma {:induction false} LeaveTwin(w: World, sc: Scope, sc1: Scope, own: set<Name>, own2: set<Name>, s: State,
      t: Store, s2: State, t2: Store, lent: set<nat>, flight: set<nat>, k: Known, bs: List<Name>)
    requires Inv(w, sc, own, s, lent, flight) && Twin(w, sc, own, s, t, lent, k)
    requires Twin(w, sc1, own2, s2, t2, lent, k) && own2 !! Elems(bs)
    requires sc1.names == sc.names + Elems(bs) && sc.aliases - Elems(bs) <= sc1.aliases
    requires forall y | y !in Elems(bs) :: y in sc.aliases <==> y in sc1.aliases
    requires Stable(s, s2, |s.frames| - 1, lent)
    requires SameCells(s.heap, s2.heap, CellsOwned(s.heap, Top(s), own * Elems(bs)))
    requires forall y | y in Elems(bs) :: y in w.tys && !w.tys[y].TBorrow?
    ensures var s3, t3 := WithTop(s2, Unshadow(Top(s2), bs, Top(s))), WithLocal(t2, Unshadow(Local(t2), bs, Local(t)));
      && Twin(w, sc, own2 + own * Elems(bs), s3, t3, lent, k)
      && RootCells(s3, k.roots) == RootCells(s2, k.roots)
  {
    hide Inv, TopMirrored, Mirrors, Unshadow;
    var s3, t3 := WithTop(s2, Unshadow(Top(s2), bs, Top(s))), WithLocal(t2, Unshadow(Local(t2), bs, Local(t)));
    RootsAreLower(w.p.ctors, s2, t2, |s.frames| - 1, k);
    TopLower(w.p.ctors, s2, t2, s3, t3, k);
    forall x | x in sc.names
      ensures TopMirrored(w, sc, own2 + own * Elems(bs), s3, t3, k, x)
    {
      if x in own && x in Elems(bs) && x in Top(s) {
        assert Cells(s.heap, Top(s)[x]) <= CellsOwned(s.heap, Top(s), own * Elems(bs));
      }
      assert x in own ==> x in Top(s) by {
        OwnersAreThere(w, sc, own, s, lent, flight);
      }
      LeaveTop(w, sc, sc1, own, own2, s, t, s2, t2, lent, flight, k, bs, x);
    }
  }

  lemma OwnersAreThere(w: World, sc: Scope, own: set<Name>, s: State, lent: set<nat>, flight: set<nat>)
    requires Inv(w, sc, own, s, lent, flight)
    ensures forall x | x in own :: x in Top(s)
  {
  }
}
