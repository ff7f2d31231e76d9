/** Entering and leaving a case arm. On entry the binders shadow what they hide,
    and in a consuming match they own what they were handed; when the arm ends,
    what the binders hid comes back, and the arm's own leftovers have been
    destroyed. Either way the owners, the cells lent and the cells in flight are
    accounted for as the invariant of the running function demands. */
module Arms {
  import opened Syntax
  import opened Heap
  import opened Moves
  import opened Static
  import opened Machine
  import opened Ownership
  import opened Running
  import opened Steps
  import opened Matching

  ghost predicate ArmFits(w: World, arm: Arm, byValue: bool, sc: Scope) {
    && Setting(w)
    && arm.tag in w.p.ctors
    && PatsTyped(w.p, arm.pats, w.p.ctors[arm.tag].params) && AllUsedAsBound(w.tys, arm.pats)
    && (!byValue ==> OwnSet(w.tys, BindersOf(arm.pats)) !! sc.names)
  }

  // Binders are declared, and never of borrow type.
  lemma {:induction false} BindersTyped(w: World, qs: List<Pat>, ts: List<Ty>)
    requires Accepted(w.p) && PatsTyped(w.p, qs, ts) && AllUsedAsBound(w.tys, qs) && Unborrowed(ts)
    ensures forall x | x in Elems(BindersOf(qs)) :: x in w.tys && !w.tys[x].TBorrow?
    decreases qs, 0
  {
    if qs.Cons? {
      AppendElems(Binders(qs.head), BindersOf(qs.tail));
      if qs.head.PCtor? {
        BindersTyped(w, qs.head.subs, w.p.ctors[qs.head.tag].params);
      }
      BindersTyped(w, qs.tail, ts.tail);
    }
  }

  // What the arm's body sees of the variables that own nothing, whatever the types
  // their names are used at.
  lemma CopiesHanded(w: World, sc: Scope, s: State, s1: State, lent: set<nat>, arm: Arm, byValue: bool)
    requires s.frames != [] && Copies(w, sc, s, lent)
    requires |s1.frames| == |s.frames| && s1.frames[..|s.frames| - 1] == s.frames[..|s.frames| - 1]
    requires SameShape(s.heap, s1.heap, lent)
    requires Top(s1).Keys == Top(s).Keys + Elems(BindersOf(arm.pats))
    requires forall x | x in Top(s) && x !in Elems(BindersOf(arm.pats)) :: Top(s1)[x] == Top(s)[x]
    requires forall x | x in Elems(BindersOf(arm.pats)) ::
      x in w.tys && !w.tys[x].TBorrow? && (w.tys[x].TInt? ==> Top(s1)[x].IntV?)
    requires !byValue ==> forall x | x in Elems(Names(OwnedBindersOf(arm.pats))) ::
      (x in Top(s1) && IsOwnVar(w.tys, x) && Tree(w.p.ctors, s1.heap, Top(s1)[x], w.tys[x]) &&
        Cells(s1.heap, Top(s1)[x]) <= lent)
    requires Elems(Names(OwnedBindersOf(arm.pats))) <= Elems(BindersOf(arm.pats))
    ensures Copies(w, ArmScope(arm, byValue, sc), s1, lent)
  {
    var bs, f, f1, n := Elems(BindersOf(arm.pats)), Top(s), Top(s1), |s.frames| - 1;
    var sc1 := ArmScope(arm, byValue, sc);
    assert Stable(s, s.(heap := s1.heap), n, lent);
    forall x | x in sc1.aliases
      ensures IsOwn(w.tys[x]) && Tree(w.p.ctors, s1.heap, f1[x], w.tys[x]) && Cells(s1.heap, f1[x]) <= lent
    {
      if x !in bs {
        TreeFrame(w.p.ctors, s.heap, s1.heap, f[x], w.tys[x]);
      }
    }
    forall x | x in sc1.names && w.tys[x].TBorrow?
      ensures Lends(w.p.ctors, s1, n, f1[x], w.tys[x].referent, lent)
    {
      assert x !in bs;
      LendsStable(w.p.ctors, s, s.(heap := s1.heap), n, f[x], w.tys[x].referent, lent);
      assert s1.frames[f[x].depth] == s.frames[f[x].depth];
    }
  }

  lemma CopiesEnter(w: World, sc: Scope, s: State, s1: State, lent: set<nat>, arm: Arm, byValue: bool)
    requires s.frames != [] && Copies(w, sc, s, lent)
    requires ArmFits(w, arm, byValue, sc)
    requires |s1.frames| == |s.frames| && s1.frames[..|s.frames| - 1] == s.frames[..|s.frames| - 1]
    requires SameShape(s.heap, s1.heap, lent)
    requires Binds(w.tys, Top(s), Top(s1), Elems(BindersOf(arm.pats)))
    requires !byValue ==> forall x | x in OwnSet(w.tys, BindersOf(arm.pats)) ::
      (x in Top(s1) && x in w.tys && Tree(w.p.ctors, s1.heap, Top(s1)[x], w.tys[x]) &&
        Cells(s1.heap, Top(s1)[x]) <= lent)
    ensures Copies(w, ArmScope(arm, byValue, sc), s1, lent)
  {
    hide Copies, Tree, Cells, ArmScope, SameShape;
    BindersTyped(w, arm.pats, w.p.ctors[arm.tag].params);
    AllOwnersAsUsed(w.tys, arm.pats);
    OwnSetIs(w.tys, BindersOf(arm.pats));
    CopiesHanded(w, sc, s, s1, lent, arm, byValue);
  }

  // Outer owners with a binder's name are set aside, not lost.
  ghost function Hidden(s: State, own: set<Name>, arm: Arm): set<nat>
    requires s.frames != []
  {
    CellsOwned(s.heap, Top(s), own * Elems(BindersOf(arm.pats)))
  }

  // Cells are lost exactly when an owning binder is bound twice.
  lemma {:induction false} EnterByValue(w: World, sc: Scope, own: set<Name>, s: State, lent: set<nat>, flight: set<nat>,
      v: Value, arm: Arm) returns (lost: set<nat>)
    requires ArmFits(w, arm, true, sc)
    requires Inv(w, sc, own, s, lent, flight + Cells(s.heap, v)) && Cells(s.heap, v) !! lent + flight
    requires Tree(w.p.ctors, s.heap, v, TSum(w.p.ctors[arm.tag].owner)) && s.heap[v.a].tag == arm.tag
    requires AllMatch(arm.pats, ShapesOf(s.heap, s.heap[v.a].fields, v.a))
    ensures var r :=
      BindPats(w.p.ctors, s.heap, Top(s), v.a, s.heap[v.a].fields, arm.pats, w.p.ctors[arm.tag].params, true, s.next);
      r.Bound? &&
        var s1, held := WithTop(s.(heap := r.h), r.f), flight + {v.a} + Hidden(s, own, arm) + lost;
        && Inv(w, ArmScope(arm, true, sc), own + OwnSet(w.tys, BindersOf(arm.pats)), s1, lent, held)
        && Stable(s, s1, |s.frames| - 1, lent + held)
        && (lost == {} <==> Linear(arm, true))
    ensures lost !! lent + flight + {v.a} + Hidden(s, own, arm)
  {
    hide Copies, Lends, BindPats, AllMatch, ShapesOf, ArmScope, CellsOwned;
    var bs, f, hid := Elems(BindersOf(arm.pats)), Top(s), Hidden(s, own, arm);
    var fields, ts := s.heap[v.a].fields, w.p.ctors[arm.tag].params;
    var own1, others := own - own * bs, lent + (flight + {v.a} + hid);
    CellsLive(s.heap, v);
    CellsOfLive(s.heap, fields, v.a);
    InvMove(w, sc, own, s, lent, flight + Cells(s.heap, v), own * bs);
    assert lent + (flight + Cells(s.heap, v) + hid) == others + CellsOf(s.heap, fields, v.a);
    lost := BindsConsume(w.p, w.tys, s.heap, f, own1, others, v.a, fields, arm.pats, ts, v.a, s.next);
    OwnSetIs(w.tys, BindersOf(arm.pats));
    AllOwnersAsUsed(w.tys, arm.pats);
    assert others + lost == lent + (flight + {v.a} + hid + lost);
    var r := BindPats(w.p.ctors, s.heap, f, v.a, fields, arm.pats, ts, true, s.next);
    Entered(w, sc, own, s, lent, flight + {v.a} + hid + lost, arm, r.h, r.f);
  }

  // The payloads have been taken apart: the binders own their parts.
  lemma Entered(w: World, sc: Scope, own: set<Name>, s: State, lent: set<nat>, flight: set<nat>, arm: Arm, h: Memory,
      f: Frame)
    requires s.frames != [] && Copies(w, sc, s, lent) && ArmFits(w, arm, true, sc)
    requires own <= sc.names && own !! sc.aliases && lent !! flight
    requires (forall x | x in own :: IsOwnVar(w.tys, x)) && forall a | a in s.heap :: a < s.next
    requires var own1 := own - own * Elems(BindersOf(arm.pats));
      TakenApart(w.p.ctors, w.tys, s.heap, Top(s), own1, lent + flight, BindersOf(arm.pats), h, f)
    ensures var s1 := WithTop(s.(heap := h), f);
      && Inv(w, ArmScope(arm, true, sc), own + OwnSet(w.tys, BindersOf(arm.pats)), s1, lent, flight)
      && Stable(s, s1, |s.frames| - 1, lent + flight)
  {
    hide Lends;
    var s1 := WithTop(s.(heap := h), f);
    var bs := BindersOf(arm.pats);
    CopiesEnter(w, sc, s, s1, lent, arm, true);
    OwnSetIs(w.tys, bs);
    assert own - own * Elems(bs) + OwnSet(w.tys, bs) == own + OwnSet(w.tys, bs);
  }

  lemma {:induction false} EnterBorrowed(w: World, sc: Scope, own: set<Name>, s: State, lent: set<nat>,
      flight: set<nat>, v: Value, arm: Arm)
    requires ArmFits(w, arm, false, sc)
    requires Inv(w, sc, own, s, lent, flight) && Cells(s.heap, v) <= lent
    requires Tree(w.p.ctors, s.heap, v, TSum(w.p.ctors[arm.tag].owner)) && s.heap[v.a].tag == arm.tag
    requires AllMatch(arm.pats, ShapesOf(s.heap, s.heap[v.a].fields, v.a))
    ensures var r :=
      BindPats(w.p.ctors, s.heap, Top(s), v.a, s.heap[v.a].fields, arm.pats, w.p.ctors[arm.tag].params, false, s.next);
      r.Bound? && r.h == s.heap &&
        var s1 := WithTop(s, r.f);
        && Inv(w, ArmScope(arm, false, sc), own, s1, lent, flight)
        && Stable(s, s1, |s.frames| - 1, lent + flight)
        && own !! Elems(BindersOf(arm.pats))
  {
    hide Copies, Lends, Tree, AllMatch, ShapesOf, ArmScope;
    var bs, f := Elems(BindersOf(arm.pats)), Top(s);
    BorrowedBinds(w, s, v, arm);
    var r := BindPats(w.p.ctors, s.heap, f, v.a, s.heap[v.a].fields, arm.pats, w.p.ctors[arm.tag].params, false,
      s.next);
    var s1 := WithTop(s, r.f);
    OwnersApart(w, sc, own, s, lent, flight, arm);
    CopiesEnter(w, sc, s, s1, lent, arm, false);
    OwnsCarry(w.p.ctors, w.tys, s.heap, f, own, lent + flight, s.heap, r.f, lent + flight);
    BorrowedScope(w, arm, sc, own);
  }

  lemma {:induction false} BorrowedBinds(w: World, s: State, v: Value, arm: Arm)
    requires s.frames != [] && arm.tag in w.p.ctors
    requires PatsTyped(w.p, arm.pats, w.p.ctors[arm.tag].params) && AllUsedAsBound(w.tys, arm.pats)
    requires Tree(w.p.ctors, s.heap, v, TSum(w.p.ctors[arm.tag].owner)) && s.heap[v.a].tag == arm.tag
    requires AllMatch(arm.pats, ShapesOf(s.heap, s.heap[v.a].fields, v.a))
    ensures v.PtrV? && v.a in s.heap && s.heap[v.a].Box?
    ensures var r :=
      BindPats(w.p.ctors, s.heap, Top(s), v.a, s.heap[v.a].fields, arm.pats, w.p.ctors[arm.tag].params, false, s.next);
      && r.Bound? && r.h == s.heap && Binds(w.tys, Top(s), r.f, Elems(BindersOf(arm.pats)))
      && (forall x | x in Elems(BindersOf(arm.pats)) ::
        (x in w.tys && Tree(w.p.ctors, s.heap, r.f[x], w.tys[x]) && Cells(s.heap, r.f[x]) <= Cells(s.heap, v)))
  {
    BindsAlias(w.p, w.tys, s.heap, Top(s), v.a, s.heap[v.a].fields, arm.pats, w.p.ctors[arm.tag].params, v.a, s.next);
  }

  // No owner's name is bound.
  lemma OwnersApart(w: World, sc: Scope, own: set<Name>, s: State, lent: set<nat>, flight: set<nat>, arm: Arm)
    requires Inv(w, sc, own, s, lent, flight) && ArmFits(w, arm, false, sc)
    ensures own !! Elems(BindersOf(arm.pats)) && OwnSet(w.tys, BindersOf(arm.pats)) <= Elems(BindersOf(arm.pats))
  {
    OwnSetIs(w.tys, BindersOf(arm.pats));
    assert forall x | x in own :: IsOwnVar(w.tys, x);
  }

  lemma BorrowedScope(w: World, arm: Arm, sc: Scope, own: set<Name>)
    requires ArmFits(w, arm, false, sc) && own <= sc.names && own !! sc.aliases && own !! Elems(BindersOf(arm.pats))
    ensures var sc1 := ArmScope(arm, false, sc); own <= sc1.names && own !! sc1.aliases
  {
    AllOwnersAsUsed(w.tys, arm.pats);
    OwnSetIs(w.tys, BindersOf(arm.pats));
  }

  lemma {:induction false} CopiesLeave(w: World, sc: Scope, sc1: Scope, s: State, s2: State, s3: State, lent: set<nat>,
      bs: List<Name>)
    requires s.frames != [] && Copies(w, sc, s, lent)
    requires s2.frames != [] && Copies(w, sc1, s2, lent)
    requires sc1.names == sc.names + Elems(bs) && sc.aliases - Elems(bs) <= sc1.aliases
    requires Stable(s, s2, |s.frames| - 1, lent)
    requires s3 == WithTop(s2, Unshadow(Top(s2), bs, Top(s)))
    requires forall x | x in Elems(bs) :: x in w.tys && !w.tys[x].TBorrow?
    ensures Copies(w, sc, s3, lent)
  {
    var f, f2, f3, n := Top(s), Top(s2), Top(s3), |s.frames| - 1;
    assert f3.Keys == sc.names;
    forall x | x in sc.aliases
      ensures Tree(w.p.ctors, s3.heap, f3[x], w.tys[x]) && Cells(s3.heap, f3[x]) <= lent
    {
      if x in Elems(bs) {
        TreeFrame(w.p.ctors, s.heap, s2.heap, f[x], w.tys[x]);
      }
    }
    forall x | x in sc.names && w.tys[x].TBorrow?
      ensures Lends(w.p.ctors, s3, n, f3[x], w.tys[x].referent, lent)
    {
      assert Lends(w.p.ctors, s2, n, f2[x], w.tys[x].referent, lent);
      assert s3.frames[f2[x].depth] == s2.frames[f2[x].depth];
    }
  }

  // hid are the cells of the owners in own whose names the binders bs took.
  lemma {:induction false} OwnsLeave(cs: map<Name, Ctor>, tys: map<Name, Ty>, h: Memory, f: Frame, hs: set<Name>,
      own2: set<Name>, h2: Memory, f2: Frame, f3: Frame, others: set<nat>)
    requires forall x | x in hs :: x in f && IsOwnVar(tys, x) && Tree(cs, h, f[x], tys[x])
    requires forall x, y | x in hs && y in hs && x != y :: Cells(h, f[x]) !! Cells(h, f[y])
    requires CellsOwned(h, f, hs) !! others
    requires SameShape(h, h2, CellsOwned(h, f, hs))
    requires Owns(cs, tys, h2, f2, own2, others + CellsOwned(h, f, hs))
    requires own2 !! hs
    requires forall x | x in own2 :: x in f3 && f3[x] == f2[x]
    requires forall x | x in hs :: x in f3 && f3[x] == f[x]
    ensures Owns(cs, tys, h2, f3, own2 + hs, others)
  {
    CellsOwnedLive(h2, f2, own2);
    OwnsCarry(cs, tys, h2, f2, own2, others + CellsOwned(h, f, hs), h2, f3, others + CellsOwned(h, f, hs));
    forall x | x in hs
      ensures Tree(cs, h2, f3[x], tys[x]) && Cells(h2, f3[x]) == Cells(h, f[x])
    {
      TreeFrame(cs, h, h2, f[x], tys[x]);
    }
    assert CellsOwned(h2, f3, hs) == CellsOwned(h, f, hs);
    OwnsRegain(cs, tys, h2, f3, own2, others, hs);
  }

  // The cells lost are held by nobody when the arm is over.
  lemma {:induction false} LeaveArm(w: World, sc: Scope, sc1: Scope, own: set<Name>, own2: set<Name>, s: State,
      s2: State, lent: set<nat>, flight0: set<nat>, flight: set<nat>, lost: set<nat>, bs: List<Name>)
    requires Inv(w, sc, own, s, lent, flight0)
    requires var hid := CellsOwned(s.heap, Top(s), own * Elems(bs));
      && hid !! lent + flight + lost
      && Inv(w, sc1, own2, s2, lent, flight + hid + lost)
      && Stable(s, s2, |s.frames| - 1, lent + (flight + hid))
    requires own2 !! Elems(bs)
    requires sc1.names == sc.names + Elems(bs) && sc.aliases - Elems(bs) <= sc1.aliases
    requires forall x | x in Elems(bs) :: x in w.tys && !w.tys[x].TBorrow?
    ensures var s3 := WithTop(s2, Unshadow(Top(s2), bs, Top(s)));
      && Inv(w, sc, own2 + own * Elems(bs), s3, lent, flight + lost)
      && Stable(s, s3, |s.frames| - 1, lent + flight)
  {
    hide Lends, CellsOf, CellsOwned, Forest, Elems;
    var hs := own * Elems(bs);
    var hid := CellsOwned(s.heap, Top(s), hs);
    var s3 := WithTop(s2, Unshadow(Top(s2), bs, Top(s)));
    assert Stable(s, s2, |s.frames| - 1, lent);
    CopiesLeave(w, sc, sc1, s, s2, s3, lent, bs);
    assert lent + (flight + hid + lost) == lent + (flight + lost) + hid;
    OwnsLeave(w.p.ctors, w.tys, s.heap, Top(s), hs, own2, s2.heap, Top(s2), Top(s3), lent + (flight + lost));
    StablePop(s, s2, s3, lent + flight);
  }

  lemma StablePop(s: State, s2: State, s3: State, zs: set<nat>)
    requires s.frames != [] && s2.frames != []
    requires Stable(s, s2, |s.frames| - 1, zs)
    requires s3.frames != [] && s3 == WithTop(s2, Top(s3))
    ensures Stable(s, s3, |s.frames| - 1, zs)
  {
    forall i | 0 <= i < |s.frames| - 1
      ensures Quiet(s.frames[i], s3.frames[i])
    {
      assert s3.frames[i] == s2.frames[i];
    }
  }
}
