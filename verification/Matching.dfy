/** Matching a value: testing its patterns, binding them, and in a consuming match
    taking it apart without losing or repeating a cell. */
module Matching {
  import opened Optional
  import opened Syntax
  import opened Heap
  import opened Moves
  import opened Static
  import opened Patterns
  import opened Machine
  import opened Ownership

  ghost function ShapeOf(h: Memory, v: Value): Shape
    decreases if v.PtrV? then v.a + 1 else 0, 1
  {
    if v.PtrV? && v.a in h && h[v.a].Box? then Con(h[v.a].tag, ShapesOf(h, h[v.a].fields, v.a)) else Atom
  }

  ghost function ShapesOf(h: Memory, vs: List<Value>, bound: nat): List<Shape>
    decreases bound + 1, 0, vs
  {
    match vs
    case Nil => Nil
    case Cons(v, t) => Cons(if v.PtrV? && v.a >= bound then Atom else ShapeOf(h, v), ShapesOf(h, t, bound))
  }

  lemma {:induction false} ShapeTyped(cs: map<Name, Ctor>, h: Memory, v: Value, ty: Ty)
    requires Tree(cs, h, v, ty)
    ensures HasType(cs, ShapeOf(h, v), ty)
    decreases if v.PtrV? then v.a + 1 else 0, 1
  {
    if ty.TSum? {
      ShapesTyped(cs, h, h[v.a].fields, cs[h[v.a].tag].params, v.a);
    }
  }

  lemma {:induction false} ShapesTyped(cs: map<Name, Ctor>, h: Memory, vs: List<Value>, ts: List<Ty>, bound: nat)
    requires Forest(cs, h, vs, ts, bound)
    ensures HaveTypes(cs, ShapesOf(h, vs, bound), ts)
    decreases bound + 1, 0, vs
  {
    if vs.Cons? {
      ShapeTyped(cs, h, vs.head, ts.head);
      ShapesTyped(cs, h, vs.tail, ts.tail, bound);
    }
  }

  lemma {:induction false} ShapeFrame(cs: map<Name, Ctor>, h: Memory, h': Memory, v: Value, ty: Ty)
    requires Tree(cs, h, v, ty)
    requires SameShape(h, h', Cells(h, v))
    ensures ShapeOf(h', v) == ShapeOf(h, v)
    decreases if v.PtrV? then v.a + 1 else 0, 1
  {
    if ty.TSum? {
      ShapesFrame(cs, h, h', h[v.a].fields, cs[h[v.a].tag].params, v.a);
    }
  }

  lemma {:induction false} ShapesFrame(cs: map<Name, Ctor>, h: Memory, h': Memory, vs: List<Value>, ts: List<Ty>,
      bound: nat)
    requires Forest(cs, h, vs, ts, bound)
    requires SameShape(h, h', CellsOf(h, vs, bound))
    ensures ShapesOf(h', vs, bound) == ShapesOf(h, vs, bound)
    decreases bound + 1, 0, vs
  {
    if vs.Cons? {
      ShapeFrame(cs, h, h', vs.head, ts.head);
      ShapesFrame(cs, h, h', vs.tail, ts.tail, bound);
    }
  }

  // The emitted tests never fault on a whole value, and decide the match.
  lemma {:induction false} TestDecides(p: Program, h: Memory, v: Value, q: Pat, ty: Ty)
    requires Tree(p.ctors, h, v, ty) && PatTyped(p, q, ty)
    ensures TestPat(h, v, q) == Some(Matches(q, ShapeOf(h, v)))
    decreases q, 1
  {
    if q.PCtor? && h[v.a].tag == q.tag {
      TestsDecide(p, h, h[v.a].fields, q.subs, p.ctors[q.tag].params, v.a);
    }
  }

  lemma {:induction false} TestsDecide(p: Program, h: Memory, vs: List<Value>, qs: List<Pat>,
      ts: List<Ty>, bound: nat)
    requires Forest(p.ctors, h, vs, ts, bound) && PatsTyped(p, qs, ts)
    ensures TestPats(h, vs, qs) == Some(AllMatch(qs, ShapesOf(h, vs, bound)))
    decreases qs, 0
  {
    if qs.Cons? {
      TestDecides(p, h, vs.head, qs.head, ts.head);
      TestsDecide(p, h, vs.tail, qs.tail, ts.tail, bound);
    }
  }

  // So they say whether the value is the pattern with its holes filled.
  lemma {:induction false} TestsExactly(p: Program, h: Memory, v: Value, q: Pat, ty: Ty)
    requires Tree(p.ctors, h, v, ty) && PatTyped(p, q, ty)
    ensures TestPat(h, v, q) == Some(exists fill: seq<nat> -> Shape :: Fill(q, fill, []) == ShapeOf(h, v))
  {
    TestDecides(p, h, v, q, ty);
    ShapeTyped(p.ctors, h, v, ty);
    MatchesExactly(p, q, ShapeOf(h, v), ty);
  }

  ghost function OwnSet(tys: map<Name, Ty>, bs: List<Name>): set<Name> {
    Elems(OwnBinders(tys, bs))
  }

  lemma {:induction false} OwnSetIs(tys: map<Name, Ty>, bs: List<Name>)
    ensures OwnSet(tys, bs) == set x | x in Elems(bs) && IsOwnVar(tys, x)
    ensures Distinct(bs) ==> Distinct(OwnBinders(tys, bs))
    decreases bs
  {
    if bs.Cons? {
      OwnSetIs(tys, bs.tail);
    }
  }

  // Binders used at their own types own as their uses say.
  lemma {:induction false} OwnersAsUsed(tys: map<Name, Ty>, q: Pat)
    requires UsedAsBound(tys, q)
    ensures Names(OwnedBinders(q)) == OwnBinders(tys, Binders(q))
    ensures TypedAs(tys, OwnedBinders(q))
    decreases q, 1
  {
    if q.PCtor? {
      AllOwnersAsUsed(tys, q.subs);
    }
  }

  lemma {:induction false} AllOwnersAsUsed(tys: map<Name, Ty>, qs: List<Pat>)
    requires AllUsedAsBound(tys, qs)
    ensures Names(OwnedBindersOf(qs)) == OwnBinders(tys, BindersOf(qs))
    ensures TypedAs(tys, OwnedBindersOf(qs))
    decreases qs, 0
  {
    if qs.Cons? {
      OwnersAsUsed(tys, qs.head);
      AllOwnersAsUsed(tys, qs.tail);
      NamesAppend(OwnedBinders(qs.head), OwnedBindersOf(qs.tail));
      OwnBindersAppend(tys, Binders(qs.head), BindersOf(qs.tail));
    }
  }

  lemma {:induction false} NamesAppend(xs: List<Binder>, ys: List<Binder>)
    ensures Names(Append(xs, ys)) == Append(Names(xs), Names(ys))
    ensures Elems(Append(xs, ys)) == Elems(xs) + Elems(ys)
    decreases xs
  {
    if xs.Cons? {
      NamesAppend(xs.tail, ys);
    }
  }

  lemma {:induction false} AppendElems(xs: List<Name>, ys: List<Name>)
    ensures Elems(Append(xs, ys)) == Elems(xs) + Elems(ys)
    ensures Distinct(Append(xs, ys)) <==> Distinct(xs) && Distinct(ys) && Elems(xs) !! Elems(ys)
    decreases xs
  {
    if xs.Cons? {
      AppendElems(xs.tail, ys);
    }
  }

  // After binding: binders hold what they matched, everything else is as it was.
  ghost predicate Binds(tys: map<Name, Ty>, f: Frame, f': Frame, bs: set<Name>) {
    && f'.Keys == f.Keys + bs
    && (forall x | x in f && x !in bs :: f'[x] == f[x])
    && (forall x | x in bs && x in tys && tys[x].TInt? :: f'[x].IntV?)
  }

  // The cells of the value matched are split between the boxes freed, the payloads
  // destroyed and the binders bs that now own the rest; no other cell is touched.
  // Cells whose binder was bound again are among the others.
  ghost predicate TakenApart(cs: map<Name, Ctor>, tys: map<Name, Ty>, h: Memory, f: Frame, own: set<Name>,
      others: set<nat>, bs: List<Name>, h': Memory, f': Frame) {
    && Owns(cs, tys, h', f', own + OwnSet(tys, bs), others)
    && SameShape(h, h', others + CellsOwned(h, f, own))
    && (forall a | a in h' :: a in h && h'[a] == h[a])
    && Binds(tys, f, f', Elems(bs))
  }

  // No binder of bs that owns is bound twice, or is owned already.
  ghost predicate FreshBinders(tys: map<Name, Ty>, bs: List<Name>, own: set<Name>) {
    Distinct(OwnBinders(tys, bs)) && own !! OwnSet(tys, bs)
  }

  // Consuming-match conservation, for one pattern: none of the emitted loads and
  // frees meets a dead cell, and every cell of the value is accounted for. Cells
  // are lost exactly when an owning binder is bound twice.
  lemma {:induction false} BindConsumes(p: Program, tys: map<Name, Ty>, h: Memory, f: Frame, own: set<Name>,
      others: set<nat>, v: Value, q: Pat, ty: Ty, fuel: nat) returns (lost: set<nat>)
    requires Tree(p.ctors, h, v, ty) && PatTyped(p, q, ty) && UsedAsBound(tys, q) && Matches(q, ShapeOf(h, v))
    requires Owns(p.ctors, tys, h, f, own, others + Cells(h, v)) && others !! Cells(h, v)
    ensures var r := BindPat(p.ctors, h, f, v, q, ty, true, fuel);
      !r.BadBind? && (r.Bound? ==>
        && TakenApart(p.ctors, tys, h, f, own, others + lost, Binders(q), r.h, r.f)
        && (lost == {} <==> FreshBinders(tys, Binders(q), own)))
    ensures (v.PtrV? ==> v.a < fuel) ==> BindPat(p.ctors, h, f, v, q, ty, true, fuel).Bound?
    ensures lost !! others
    decreases q, 1
  {
    match q
    case PVar(x, _) => lost := VariableReceives(p, tys, h, f, own, others, v, x, ty);
    case PWild =>
      lost := {};
      WildcardDestroys(p, tys, h, f, own, others, v, ty, fuel);
    case PCtor(tag, subs) =>
      var a, fields, params := v.a, h[v.a].fields, p.ctors[tag].params;
      CellsLive(h, v);
      CellsOfLive(h, fields, a);
      assert others + Cells(h, v) == (others + {a}) + CellsOf(h, fields, a);
      lost := BindsConsume(p, tys, h, f, own, others + {a}, a, fields, subs, params, a, fuel);
      var r1 := BindPats(p.ctors, h, f, a, fields, subs, params, true, fuel);
      if r1.Bound? {
        assert (others + {a}) + lost == (others + lost) + {a};
        BoxFreed(p.ctors, tys, h, f, own, others + lost, BindersOf(subs), r1.h, r1.f, a);
      }
  }

  lemma {:induction false} VariableReceives(p: Program, tys: map<Name, Ty>, h: Memory, f: Frame, own: set<Name>,
      others: set<nat>, v: Value, x: Name, ty: Ty) returns (lost: set<nat>)
    requires Tree(p.ctors, h, v, ty) && x in tys && tys[x] == ty
    requires Owns(p.ctors, tys, h, f, own, others + Cells(h, v)) && others !! Cells(h, v)
    ensures TakenApart(p.ctors, tys, h, f, own, others + lost, Cons(x, Nil), h, f[x := v])
    ensures lost !! others && (lost == {} <==> FreshBinders(tys, Cons(x, Nil), own))
  {
    hide CellsOwned, Forest;
    CellsOwnedLive(h, f, own);
    OwnSetIs(tys, Cons(x, Nil));
    assert Elems(Cons(x, Nil)) == {x};
    assert OwnBinders(tys, Cons(x, Nil)) == if IsOwn(ty) then Cons(x, Nil) else Nil;
    assert Distinct(OwnBinders(tys, Cons(x, Nil)));
    if IsOwn(ty) && x in own {
      lost := Cells(h, f[x]);
      OwnsMove(p.ctors, tys, h, f, own, others + Cells(h, v), {x});
      CellsOwnedOne(h, f, x);
      assert others + Cells(h, v) + lost == (others + lost) + Cells(h, v);
      OwnsReceive(p.ctors, tys, h, f, own - {x}, others + lost, x, v);
      assert own - {x} + {x} == own + OwnSet(tys, Cons(x, Nil));
      assert f[x].a in lost;
    } else if IsOwn(ty) {
      lost := {};
      OwnsReceive(p.ctors, tys, h, f, own, others, x, v);
      assert OwnSet(tys, Cons(x, Nil)) == {x} && others + lost == others;
    } else {
      lost := {};
      assert others + Cells(h, v) == others == others + lost;
      assert x !in own;
      OwnsCarry(p.ctors, tys, h, f, own, others, h, f[x := v], others);
      assert own + OwnSet(tys, Cons(x, Nil)) == own;
    }
  }

  lemma {:induction false} WildcardDestroys(p: Program, tys: map<Name, Ty>, h: Memory, f: Frame, own: set<Name>,
      others: set<nat>, v: Value, ty: Ty, fuel: nat)
    requires Tree(p.ctors, h, v, ty)
    requires Owns(p.ctors, tys, h, f, own, others + Cells(h, v)) && others !! Cells(h, v)
    ensures var r := BindPat(p.ctors, h, f, v, PWild, ty, true, fuel);
      && !r.BadBind? && ((v.PtrV? ==> v.a < fuel) ==> r.Bound?)
      && (r.Bound? ==> TakenApart(p.ctors, tys, h, f, own, others + {}, Nil, r.h, r.f))
  {
    CellsOwnedLive(h, f, own);
    assert own + OwnSet(tys, Nil) == own && others + {} == others;
    if IsOwn(ty) {
      DestroyFreesFootprint(p.ctors, h, v, ty, fuel);
      var r := DestroyValue(p.ctors, h, v, ty, fuel);
      if r.Freed? {
        CellsLive(h, v);
        OwnsCarry(p.ctors, tys, h, f, own, others + Cells(h, v), r.h, f, others);
      }
    } else {
      assert others + Cells(h, v) == others;
    }
  }

  lemma BoxFreed(cs: map<Name, Ctor>, tys: map<Name, Ty>, h: Memory, f: Frame, own: set<Name>, others: set<nat>,
      bs: List<Name>, h1: Memory, f1: Frame, a: nat)
    requires TakenApart(cs, tys, h, f, own, others + {a}, bs, h1, f1)
    requires a !in others && a !in CellsOwned(h, f, own)
    ensures a in h1
    ensures TakenApart(cs, tys, h, f, own, others, bs, h1 - {a}, f1)
  {
    hide CellsOwned;
    OwnsCarry(cs, tys, h1, f1, own + OwnSet(tys, bs), others + {a}, h1 - {a}, f1, others);
  }

  // The same for the payloads of a box, from left to right.
  lemma {:induction false} BindsConsume(p: Program, tys: map<Name, Ty>, h: Memory, f: Frame, own: set<Name>,
      others: set<nat>, box: nat, vs: List<Value>, qs: List<Pat>, ts: List<Ty>, bound: nat, fuel: nat)
    returns (lost: set<nat>)
    requires Forest(p.ctors, h, vs, ts, bound) && PatsTyped(p, qs, ts) && AllMatch(qs, ShapesOf(h, vs, bound))
    requires AllUsedAsBound(tys, qs)
    requires Owns(p.ctors, tys, h, f, own, others + CellsOf(h, vs, bound)) && others !! CellsOf(h, vs, bound)
    requires box in others
    ensures var r := BindPats(p.ctors, h, f, box, vs, qs, ts, true, fuel);
      !r.BadBind? && (r.Bound? ==>
        && TakenApart(p.ctors, tys, h, f, own, others + lost, BindersOf(qs), r.h, r.f)
        && (lost == {} <==> FreshBinders(tys, BindersOf(qs), own)))
    ensures bound <= fuel ==> BindPats(p.ctors, h, f, box, vs, qs, ts, true, fuel).Bound?
    ensures lost !! others
    decreases qs, 0
  {
    hide Owns, FreshBinders, Elems, Append, Distinct, Tree;
    match qs
    case Nil =>
      lost := {};
      assert others + CellsOf(h, vs, bound) == others == others + lost;
      NothingToBind(p, tys, h, f, own, others);
    case Cons(q, t) =>
      var v, rest := vs.head, CellsOf(h, vs.tail, bound);
      assert others + CellsOf(h, vs, bound) == (others + rest) + Cells(h, v);
      OwnsApart(p.ctors, tys, h, f, own, others, Cells(h, v), rest);
      var lost1 := BindConsumes(p, tys, h, f, own, others + rest, v, q, ts.head, fuel);
      FreshAppend(tys, Binders(q), BindersOf(t), own);
      var r := BindPat(p.ctors, h, f, v, q, ts.head, true, fuel);
      if r.Bound? {
        assert (others + rest) + lost1 == (others + lost1) + rest;
        NextPayload(p.ctors, tys, h, f, own, others + lost1, Binders(q), r.h, r.f, vs.tail, ts.tail, bound);
        var lost2 :=
          BindsConsume(p, tys, r.h, r.f, own + OwnSet(tys, Binders(q)), others + lost1, box, vs.tail, t, ts.tail,
          bound, fuel);
        lost := lost1 + lost2;
        assert others + lost == (others + lost1) + lost2;
        var r' := BindPats(p.ctors, r.h, r.f, box, vs.tail, t, ts.tail, true, fuel);
        if r'.Bound? {
          BindChain(p.ctors, tys, h, f, own, others + lost1, lost2, rest, Binders(q), BindersOf(t), r.h, r.f, r'.h,
            r'.f);
          assert lost == {} <==> lost1 == {} && lost2 == {};
        }
      } else {
        lost := {};
      }
  }

  lemma NothingToBind(p: Program, tys: map<Name, Ty>, h: Memory, f: Frame, own: set<Name>, others: set<nat>)
    requires Owns(p.ctors, tys, h, f, own, others)
    ensures TakenApart(p.ctors, tys, h, f, own, others, Nil, h, f) && FreshBinders(tys, Nil, own)
  {
    assert own + OwnSet(tys, Nil) == own;
    CellsOwnedLive(h, f, own);
  }

  lemma OwnsApart(cs: map<Name, Ctor>, tys: map<Name, Ty>, h: Memory, f: Frame, own: set<Name>, others: set<nat>,
      c: set<nat>, rest: set<nat>)
    requires Owns(cs, tys, h, f, own, others + rest + c)
    ensures CellsOwned(h, f, own) !! rest && others <= h.Keys
  {
  }

  lemma {:induction false} FreshAppend(tys: map<Name, Ty>, xs: List<Name>, ys: List<Name>, own: set<Name>)
    ensures FreshBinders(tys, Append(xs, ys), own) <==>
      FreshBinders(tys, xs, own) && FreshBinders(tys, ys, own + OwnSet(tys, xs))
  {
    OwnBindersAppend(tys, xs, ys);
    AppendElems(OwnBinders(tys, xs), OwnBinders(tys, ys));
  }

  lemma {:induction false} OwnBindersAppend(tys: map<Name, Ty>, xs: List<Name>, ys: List<Name>)
    ensures OwnBinders(tys, Append(xs, ys)) == Append(OwnBinders(tys, xs), OwnBinders(tys, ys))
    decreases xs
  {
    if xs.Cons? {
      OwnBindersAppend(tys, xs.tail, ys);
    }
  }

  lemma {:induction false} NextPayload(cs: map<Name, Ctor>, tys: map<Name, Ty>, h: Memory, f: Frame, own: set<Name>,
      others: set<nat>, xs: List<Name>, h1: Memory, f1: Frame, vs: List<Value>, ts: List<Ty>, bound: nat)
    requires Forest(cs, h, vs, ts, bound)
    requires TakenApart(cs, tys, h, f, own, others + CellsOf(h, vs, bound), xs, h1, f1)
    ensures Forest(cs, h1, vs, ts, bound) && CellsOf(h1, vs, bound) == CellsOf(h, vs, bound)
    ensures ShapesOf(h1, vs, bound) == ShapesOf(h, vs, bound)
  {
    ForestFrame(cs, h, h1, vs, ts, bound);
    ShapesFrame(cs, h, h1, vs, ts, bound);
  }

  lemma {:induction false} BindChain(cs: map<Name, Ctor>, tys: map<Name, Ty>, h: Memory, f: Frame, own: set<Name>,
      others: set<nat>, lost: set<nat>, rest: set<nat>, xs: List<Name>, ys: List<Name>, h1: Memory, f1: Frame,
      h2: Memory, f2: Frame)
    requires CellsOwned(h, f, own) !! rest
    requires TakenApart(cs, tys, h, f, own, others + rest, xs, h1, f1)
    requires TakenApart(cs, tys, h1, f1, own + OwnSet(tys, xs), others + lost, ys, h2, f2)
    ensures TakenApart(cs, tys, h, f, own, others + lost, Append(xs, ys), h2, f2)
  {
    hide Owns, Binds, SameShape;
    AppendElems(xs, ys);
    OwnSetIs(tys, xs);
    OwnSetIs(tys, ys);
    OwnSetIs(tys, Append(xs, ys));
    assert own + OwnSet(tys, xs) + OwnSet(tys, ys) == own + OwnSet(tys, Append(xs, ys));
    BindsChain(tys, f, f1, f2, Elems(xs), Elems(ys));
    OwnsLive(cs, tys, h1, f1, own + OwnSet(tys, xs), others + rest);
    OwnsLive(cs, tys, h2, f2, own + OwnSet(tys, xs) + OwnSet(tys, ys), others + lost);
    ShapeChain(h, h1, h2, CellsOwned(h, f, own), CellsOwned(h1, f1, own + OwnSet(tys, xs)), others, lost, rest);
  }

  lemma {:induction false} BindsChain(tys: map<Name, Ty>, f: Frame, f1: Frame, f2: Frame, xs: set<Name>, ys: set<Name>)
    requires Binds(tys, f, f1, xs) && Binds(tys, f1, f2, ys)
    ensures Binds(tys, f, f2, xs + ys)
  {
  }

  lemma {:induction false} OwnsLive(cs: map<Name, Ctor>, tys: map<Name, Ty>, h: Memory, f: Frame, own: set<Name>,
      others: set<nat>)
    requires Owns(cs, tys, h, f, own, others)
    ensures h.Keys == others + CellsOwned(h, f, own)
  {
  }

  lemma {:induction false} ShapeChain(h: Memory, h1: Memory, h2: Memory, cells: set<nat>, cells1: set<nat>,
      others: set<nat>, lost: set<nat>, rest: set<nat>)
    requires cells !! rest && h1.Keys == others + rest + cells1 && others + lost <= h2.Keys
    requires SameShape(h, h1, others + rest + cells) && SameShape(h1, h2, others + lost + cells1)
    requires forall a | a in h1 :: a in h && h1[a] == h[a]
    requires forall a | a in h2 :: a in h1 && h2[a] == h1[a]
    ensures SameShape(h, h2, others + lost + cells)
    ensures forall a | a in h2 :: a in h && h2[a] == h[a]
  {
    forall a | a in others + lost + cells
      ensures a in h && a in h2 && h2[a] == h[a]
    {
      if a in cells {
        assert a in h1;
      }
    }
  }

  // A borrowed match reads the value in place: its binders alias parts of it.
  lemma {:induction false} BindAliases(p: Program, tys: map<Name, Ty>, h: Memory, f: Frame, v: Value, q: Pat, ty: Ty,
      fuel: nat)
    requires Tree(p.ctors, h, v, ty) && PatTyped(p, q, ty) && UsedAsBound(tys, q) && Matches(q, ShapeOf(h, v))
    ensures var r := BindPat(p.ctors, h, f, v, q, ty, false, fuel);
      && r.Bound? && r.h == h
      && Binds(tys, f, r.f, Elems(Binders(q)))
      && (forall x | x in Elems(Binders(q)) ::
        (x in tys && Tree(p.ctors, h, r.f[x], tys[x]) && Cells(h, r.f[x]) <= Cells(h, v)))
    decreases q, 1
  {
    if q.PCtor? {
      BindsAlias(p, tys, h, f, v.a, h[v.a].fields, q.subs, p.ctors[q.tag].params, v.a, fuel);
    }
  }

  lemma {:induction false} BindsAlias(p: Program, tys: map<Name, Ty>, h: Memory, f: Frame, box: nat, vs: List<Value>,
      qs: List<Pat>, ts: List<Ty>, bound: nat, fuel: nat)
    requires Forest(p.ctors, h, vs, ts, bound) && PatsTyped(p, qs, ts) && AllMatch(qs, ShapesOf(h, vs, bound))
    requires AllUsedAsBound(tys, qs)
    requires box in h
    ensures var r := BindPats(p.ctors, h, f, box, vs, qs, ts, false, fuel);
      && r.Bound? && r.h == h
      && Binds(tys, f, r.f, Elems(BindersOf(qs)))
      && (forall x | x in Elems(BindersOf(qs)) ::
        (x in tys && Tree(p.ctors, h, r.f[x], tys[x]) && Cells(h, r.f[x]) <= CellsOf(h, vs, bound)))
    decreases qs, 0
  {
    if qs.Cons? {
      AppendElems(Binders(qs.head), BindersOf(qs.tail));
      BindAliases(p, tys, h, f, vs.head, qs.head, ts.head, fuel);
      var r := BindPat(p.ctors, h, f, vs.head, qs.head, ts.head, false, fuel);
      BindsAlias(p, tys, h, r.f, box, vs.tail, qs.tail, ts.tail, bound, fuel);
    }
  }
}
