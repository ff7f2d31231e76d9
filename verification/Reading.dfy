/** Reading a machine word as the value it stands for, following addresses down to
    the integers, and what stores, tests and bindings do to what is read: a store
    changes one part, a test says whether a pattern suits, and the binders get what
    they are to get. */
module Reading {
  import opened Optional
  import opened Syntax
  import opened Heap
  import opened Moves
  import opened Static
  import opened Machine
  import opened Ownership
  import opened Matching
  import opened Copying

  // A freed cell reads as nothing in particular.
  ghost function Read(h: Memory, v: Value): Datum
    decreases if v.PtrV? then v.a + 1 else 0, 1
  {
    match v
    case IntV(n) => Number(n)
    case SlotV(d, x) => Lent(Slot(d, x))
    case PtrV(a) =>
      if a !in h then Number(0)
      else if h[a].IntCell? then Owner(h[a].n)
      else Made(h[a].tag, ReadBelow(h, h[a].fields, a))
  }

  ghost function ReadBelow(h: Memory, vs: List<Value>, bound: nat): List<Datum>
    decreases bound + 1, 0, vs
  {
    match vs
    case Nil => Nil
    case Cons(v, t) => Cons(if v.PtrV? && v.a >= bound then Number(0) else Read(h, v), ReadBelow(h, t, bound))
  }

  ghost function ReadAll(h: Memory, vs: List<Value>): List<Datum> {
    match vs
    case Nil => Nil
    case Cons(v, t) => Cons(Read(h, v), ReadAll(h, t))
  }

  lemma {:induction false} ForestReads(cs: map<Name, Ctor>, h: Memory, vs: List<Value>, ts: List<Ty>, bound: nat)
    requires Forest(cs, h, vs, ts, bound)
    ensures ReadBelow(h, vs, bound) == ReadAll(h, vs)
    decreases vs
  {
    if vs.Cons? {
      ForestReads(cs, h, vs.tail, ts.tail, bound);
    }
  }

  // What a whole value reads as, by its type.
  lemma {:induction false} TreeReads(cs: map<Name, Ctor>, h: Memory, v: Value, ty: Ty)
    requires Tree(cs, h, v, ty)
    ensures ty.TInt? ==> Read(h, v) == Number(v.n)
    ensures ty.TOwn? ==> Read(h, v) == Owner(h[v.a].n)
    ensures ty.TSum? ==> Read(h, v) == Made(h[v.a].tag, ReadAll(h, h[v.a].fields))
  {
    if ty.TSum? {
      ForestReads(cs, h, h[v.a].fields, cs[h[v.a].tag].params, v.a);
    }
  }

  ghost predicate SameCells(h: Memory, h': Memory, zs: set<nat>) {
    forall a | a in zs :: a in h && a in h' && h'[a] == h[a]
  }

  lemma {:induction false} ReadFrame(cs: map<Name, Ctor>, h: Memory, h': Memory, v: Value, ty: Ty)
    requires Tree(cs, h, v, ty) && SameCells(h, h', Cells(h, v))
    ensures Read(h', v) == Read(h, v) && Tree(cs, h', v, ty) && Cells(h', v) == Cells(h, v)
    decreases if v.PtrV? then v.a + 1 else 0, 1
  {
    TreeFrame(cs, h, h', v, ty);
    if ty.TSum? {
      ReadBelowFrame(cs, h, h', h[v.a].fields, cs[h[v.a].tag].params, v.a);
    }
  }

  lemma {:induction false} ReadBelowFrame(cs: map<Name, Ctor>, h: Memory, h': Memory, vs: List<Value>, ts: List<Ty>,
      bound: nat)
    requires Forest(cs, h, vs, ts, bound) && SameCells(h, h', CellsOf(h, vs, bound))
    ensures ReadBelow(h', vs, bound) == ReadBelow(h, vs, bound)
    decreases bound + 1, 0, vs
  {
    if vs.Cons? {
      ReadFrame(cs, h, h', vs.head, ts.head);
      ReadBelowFrame(cs, h, h', vs.tail, ts.tail, bound);
    }
  }

  // -------------------------------------------------------------------------
  // Parts
  // -------------------------------------------------------------------------

  // The word at a position of the value v.
  ghost function Located(h: Memory, v: Value, path: seq<nat>): Option<Value>
    decreases |path|, 0
  {
    if path == [] then Some(v)
    else if v.PtrV? && v.a in h && h[v.a].Box? then LocatedIn(h, h[v.a].fields, path[0], path[1..])
    else None
  }

  ghost function LocatedIn(h: Memory, vs: List<Value>, k: nat, path: seq<nat>): Option<Value>
    decreases |path|, 1, vs
  {
    if vs.Nil? then None
    else if k == 0 then Located(h, vs.head, path)
    else LocatedIn(h, vs.tail, k - 1, path)
  }

  // It reads as that part of what v reads as, and is whole itself.
  lemma {:induction false} LocatedReads(cs: map<Name, Ctor>, h: Memory, v: Value, ty: Ty, path: seq<nat>)
      returns (part: Ty)
    requires Tree(cs, h, v, ty) && Located(h, v, path).Some?
    ensures var w := Located(h, v, path).value;
      && PartOf(Read(h, v), path) == Some(Read(h, w))
      && Tree(cs, h, w, part) && Cells(h, w) <= Cells(h, v)
    decreases |path|, 0
  {
    part := ty;
    if path != [] {
      TreeReads(cs, h, v, ty);
      part := LocatedInReads(cs, h, h[v.a].fields, cs[h[v.a].tag].params, v.a, path[0], path[1..]);
    }
  }

  lemma {:induction false} LocatedInReads(cs: map<Name, Ctor>, h: Memory, vs: List<Value>, ts: List<Ty>, bound: nat,
      k: nat, path: seq<nat>) returns (part: Ty)
    requires Forest(cs, h, vs, ts, bound) && LocatedIn(h, vs, k, path).Some?
    ensures var w := LocatedIn(h, vs, k, path).value;
      && PartIn(ReadAll(h, vs), k, path) == Some(Read(h, w))
      && Tree(cs, h, w, part) && Cells(h, w) <= CellsOf(h, vs, bound)
    decreases |path|, 1, vs
  {
    if k == 0 {
      part := LocatedReads(cs, h, vs.head, ts.head, path);
    } else {
      part := LocatedInReads(cs, h, vs.tail, ts.tail, bound, k - 1, path);
    }
  }

  lemma {:induction false} LocatedFrame(cs: map<Name, Ctor>, h: Memory, h': Memory, v: Value, ty: Ty, path: seq<nat>)
    requires Tree(cs, h, v, ty) && SameShape(h, h', Cells(h, v))
    ensures Located(h', v, path) == Located(h, v, path)
    decreases |path|, 0
  {
    if path != [] && ty.TSum? {
      LocatedInFrame(cs, h, h', h[v.a].fields, cs[h[v.a].tag].params, v.a, path[0], path[1..]);
    }
  }

  lemma {:induction false} LocatedInFrame(cs: map<Name, Ctor>, h: Memory, h': Memory, vs: List<Value>, ts: List<Ty>,
      bound: nat, k: nat, path: seq<nat>)
    requires Forest(cs, h, vs, ts, bound) && SameShape(h, h', CellsOf(h, vs, bound))
    ensures LocatedIn(h', vs, k, path) == LocatedIn(h, vs, k, path)
    decreases |path|, 1, vs
  {
    if vs.Cons? {
      if k == 0 {
        LocatedFrame(cs, h, h', vs.head, ts.head, path);
      } else {
        LocatedInFrame(cs, h, h', vs.tail, ts.tail, bound, k - 1, path);
      }
    }
  }

  // Storing into a cell of a value changes the value at that cell's position.
  lemma {:induction false} StoreChanges(cs: map<Name, Ctor>, h: Memory, v: Value, ty: Ty, path: seq<nat>, a: nat,
      n: int)
    requires Tree(cs, h, v, ty) && Located(h, v, path) == Some(PtrV(a)) && a in h && h[a].IntCell?
    ensures Read(h[a := IntCell(n)], v) == Changed(Read(h, v), path, n)
    ensures Tree(cs, h[a := IntCell(n)], v, ty) && Cells(h[a := IntCell(n)], v) == Cells(h, v) && a in Cells(h, v)
    decreases |path|, 0
  {
    var h' := h[a := IntCell(n)];
    CellsLive(h, v);
    TreeFrame(cs, h, h', v, ty);
    if path == [] {
      TreeReads(cs, h, v, ty);
    } else {
      TreeReads(cs, h, v, ty);
      TreeReads(cs, h', v, ty);
      StoreChangesIn(cs, h, h[v.a].fields, cs[h[v.a].tag].params, v.a, path[0], path[1..], a, n);
    }
  }

  lemma {:induction false} StoreChangesIn(cs: map<Name, Ctor>, h: Memory, vs: List<Value>, ts: List<Ty>, bound: nat,
      k: nat, path: seq<nat>, a: nat, n: int)
    requires Forest(cs, h, vs, ts, bound) && LocatedIn(h, vs, k, path) == Some(PtrV(a)) && a in h && h[a].IntCell?
    ensures ReadAll(h[a := IntCell(n)], vs) == ChangedIn(ReadAll(h, vs), k, path, n) && a in CellsOf(h, vs, bound)
    decreases |path|, 1, vs
  {
    var h' := h[a := IntCell(n)];
    CellsLive(h, vs.head);
    CellsOfLive(h, vs.tail, bound);
    if k == 0 {
      StoreChanges(cs, h, vs.head, ts.head, path, a, n);
      ReadAllFrame(cs, h, h', vs.tail, ts.tail, bound);
    } else {
      StoreChangesIn(cs, h, vs.tail, ts.tail, bound, k - 1, path, a, n);
      ReadFrame(cs, h, h', vs.head, ts.head);
    }
  }

  lemma {:induction false} ReadAllFrame(cs: map<Name, Ctor>, h: Memory, h': Memory, vs: List<Value>, ts: List<Ty>,
      bound: nat)
    requires Forest(cs, h, vs, ts, bound) && SameCells(h, h', CellsOf(h, vs, bound))
    ensures ReadAll(h', vs) == ReadAll(h, vs)
    decreases vs
  {
    if vs.Cons? {
      ReadFrame(cs, h, h', vs.head, ts.head);
      ReadAllFrame(cs, h, h', vs.tail, ts.tail, bound);
    }
  }

  // One step further in.
  lemma {:induction false} LocatedStep(h: Memory, v: Value, path: seq<nat>, k: nat)
    requires Located(h, v, path).Some?
    ensures Located(h, v, path + [k]) == Located(h, Located(h, v, path).value, [k])
    decreases |path|, 0
  {
    if path == [] {
      assert path + [k] == [k];
    } else {
      assert (path + [k])[1..] == path[1..] + [k];
      LocatedInStep(h, h[v.a].fields, path[0], path[1..], k);
    }
  }

  lemma {:induction false} LocatedInStep(h: Memory, vs: List<Value>, j: nat, path: seq<nat>, k: nat)
    requires LocatedIn(h, vs, j, path).Some?
    ensures LocatedIn(h, vs, j, path + [k]) == Located(h, LocatedIn(h, vs, j, path).value, [k])
    decreases |path|, 1, vs
  {
    if j == 0 {
      LocatedStep(h, vs.head, path, k);
    } else {
      LocatedInStep(h, vs.tail, j - 1, path, k);
    }
  }

  // -------------------------------------------------------------------------
  // Tests and bindings
  // -------------------------------------------------------------------------

  lemma {:induction false} TestSuits(p: Program, h: Memory, v: Value, q: Pat, ty: Ty)
    requires Tree(p.ctors, h, v, ty) && PatTyped(p, q, ty)
    ensures TestPat(h, v, q) == Some(Suits(q, Read(h, v)))
    decreases q, 1
  {
    TreeReads(p.ctors, h, v, ty);
    if q.PCtor? && h[v.a].tag == q.tag {
      TestsSuit(p, h, h[v.a].fields, q.subs, p.ctors[q.tag].params, v.a);
    }
  }

  lemma {:induction false} TestsSuit(p: Program, h: Memory, vs: List<Value>, qs: List<Pat>, ts: List<Ty>, bound: nat)
    requires Forest(p.ctors, h, vs, ts, bound) && PatsTyped(p, qs, ts)
    ensures TestPats(h, vs, qs) == Some(AllSuit(qs, ReadAll(h, vs)))
    decreases qs, 0
  {
    if qs.Cons? {
      TestSuits(p, h, vs.head, qs.head, ts.head);
      TestsSuit(p, h, vs.tail, qs.tail, ts.tail, bound);
    }
  }

  // The binders bs read in h0 as what is bound; no other variable is touched.
  ghost predicate BindsAlike(h0: Memory, f: Frame, f': Frame, g: Vars, g': Vars, bs: set<Name>) {
    && f'.Keys == f.Keys + bs && g'.Keys == g.Keys + bs
    && (forall x | x in f && x !in bs :: f'[x] == f[x])
    && (forall x | x in g && x !in bs :: g'[x] == g[x])
    && forall x | x in bs :: g'[x] == Read(h0, f'[x])
  }

  lemma NothingBound(h0: Memory, f: Frame, g: Vars)
    ensures BindsAlike(h0, f, f, g, g, {})
  {
  }

  lemma AlikeThen(h0: Memory, f: Frame, f1: Frame, f2: Frame, g: Vars, g1: Vars, g2: Vars, bs1: set<Name>,
      bs2: set<Name>)
    requires BindsAlike(h0, f, f1, g, g1, bs1) && BindsAlike(h0, f1, f2, g1, g2, bs2)
    ensures BindsAlike(h0, f, f2, g, g2, bs1 + bs2)
  {
  }

  // Taking a value apart frees none of the other cells.
  lemma {:induction false} RestUntouched(p: Program, tys: map<Name, Ty>, h: Memory, f: Frame, v: Value, q: Pat, ty: Ty,
      fuel: nat, rest: set<nat>)
    requires Tree(p.ctors, h, v, ty) && PatTyped(p, q, ty) && Matches(q, ShapeOf(h, v)) && UsedAsBound(tys, q)
    requires rest <= h.Keys && rest !! Cells(h, v)
    requires BindPat(p.ctors, h, f, v, q, ty, true, fuel).Bound?
    ensures SameCells(h, BindPat(p.ctors, h, f, v, q, ty, true, fuel).h, rest)
  {
    var others := h.Keys - Cells(h, v);
    CellsLive(h, v);
    assert CellsOwned(h, f, {}) == {};
    assert h.Keys == others + Cells(h, v);
    var lost := BindConsumes(p, tys, h, f, {}, others, v, q, ty, fuel);
  }

  lemma {:induction false} BindReads(p: Program, tys: map<Name, Ty>, h0: Memory, h: Memory, f: Frame, g: Vars, v: Value,
      q: Pat, ty: Ty, k: nat, fuel: nat)
    requires Tree(p.ctors, h0, v, ty) && PatTyped(p, q, ty) && Matches(q, ShapeOf(h0, v)) && UsedAsBound(tys, q)
    requires SameCells(h0, h, Cells(h0, v))
    requires BindPat(p.ctors, h, f, v, q, ty, true, fuel).Bound?
    ensures BindsAlike(h0, f, BindPat(p.ctors, h, f, v, q, ty, true, fuel).f, g, Binding(g, q, Read(h0, v), None),
      Elems(Binders(q)))
    decreases q, 1
  {
    TreeReads(p.ctors, h0, v, ty);
    if q.PCtor? {
      BindsRead(p, tys, h0, h, f, g, v.a, h[v.a].fields, q.subs, p.ctors[q.tag].params, v.a, 0, fuel);
    }
  }

  lemma {:induction false} BindsRead(p: Program, tys: map<Name, Ty>, h0: Memory, h: Memory, f: Frame, g: Vars, box: nat,
      vs: List<Value>, qs: List<Pat>, ts: List<Ty>, bound: nat, k: nat, fuel: nat)
    requires Forest(p.ctors, h0, vs, ts, bound) && PatsTyped(p, qs, ts) && AllMatch(qs, ShapesOf(h0, vs, bound))
    requires AllUsedAsBound(tys, qs) && SameCells(h0, h, CellsOf(h0, vs, bound))
    requires BindPats(p.ctors, h, f, box, vs, qs, ts, true, fuel).Bound?
    ensures BindsAlike(h0, f, BindPats(p.ctors, h, f, box, vs, qs, ts, true, fuel).f, g,
      BindingAll(g, qs, ReadAll(h0, vs), None, k), Elems(BindersOf(qs)))
    decreases qs, 0
  {
    hide SameShape, Tree, Cells, ShapeOf, BindPat, Binding, Read, BindsAlike;
    if qs.Cons? {
      var q, v, rest := qs.head, vs.head, CellsOf(h0, vs.tail, bound);
      AppendElems(Binders(q), BindersOf(qs.tail));
      BindReads(p, tys, h0, h, f, g, v, q, ts.head, k, fuel);
      ReadFrame(p.ctors, h0, h, v, ts.head);
      ShapeFrame(p.ctors, h0, h, v, ts.head);
      CellsOfLive(h0, vs.tail, bound);
      RestUntouched(p, tys, h, f, v, q, ts.head, fuel, rest);
      var r := BindPat(p.ctors, h, f, v, q, ts.head, true, fuel);
      var g1 := Binding(g, q, Read(h0, v), None);
      BindsRead(p, tys, h0, r.h, r.f, g1, box, vs.tail, qs.tail, ts.tail, bound, k + 1, fuel);
      AlikeThen(h0, f, r.f, BindPats(p.ctors, r.h, r.f, box, vs.tail, qs.tail, ts.tail, true, fuel).f, g, g1,
        BindingAll(g1, qs.tail, ReadAll(h0, vs.tail), None, k + 1), Elems(Binders(q)), Elems(BindersOf(qs.tail)));
    } else {
      NothingBound(h0, f, g);
    }
  }

  // The same for a match in place: integers are copied, other binders name parts of
  // the value w.
  ghost predicate NamesParts(h: Memory, root: Slot, w: Value, f: Frame, f': Frame, g: Vars, g': Vars, bs: set<Name>) {
    && f'.Keys == f.Keys + bs && g'.Keys == g.Keys + bs
    && (forall x | x in f && x !in bs :: f'[x] == f[x])
    && (forall x | x in g && x !in bs :: g'[x] == g[x])
    && forall x | x in bs ::
      if f'[x].IntV? then g'[x] == Number(f'[x].n)
      else g'[x].Inside? && g'[x].at.root == root && Located(h, w, g'[x].at.path) == Some(f'[x])
  }

  lemma NothingNamed(h: Memory, root: Slot, w: Value, f: Frame, g: Vars)
    ensures NamesParts(h, root, w, f, f, g, g, {})
  {
  }

  lemma NamesThen(h: Memory, root: Slot, w: Value, f: Frame, f1: Frame, f2: Frame, g: Vars, g1: Vars, g2: Vars,
      bs1: set<Name>, bs2: set<Name>)
    requires NamesParts(h, root, w, f, f1, g, g1, bs1) && NamesParts(h, root, w, f1, f2, g1, g2, bs2)
    ensures NamesParts(h, root, w, f, f2, g, g2, bs1 + bs2)
  {
  }

  ghost predicate LocatedFrom(h: Memory, w: Value, path: seq<nat>, k: nat, vs: List<Value>)
    decreases vs
  {
    match vs
    case Nil => true
    case Cons(v, t) => Located(h, w, path + [k]) == Some(v) && LocatedFrom(h, w, path, k + 1, t)
  }

  lemma {:induction false} FieldsLocated(h: Memory, w: Value, path: seq<nat>, a: nat)
    requires Located(h, w, path) == Some(PtrV(a)) && a in h && h[a].Box?
    ensures LocatedFrom(h, w, path, 0, h[a].fields)
  {
    SuffixLocated(h, w, path, a, 0, h[a].fields);
  }

  lemma {:induction false} SuffixLocated(h: Memory, w: Value, path: seq<nat>, a: nat, k: nat, vs: List<Value>)
    requires Located(h, w, path) == Some(PtrV(a)) && a in h && h[a].Box?
    requires forall j: nat :: LocatedIn(h, h[a].fields, k + j, []) == LocatedIn(h, vs, j, [])
    ensures LocatedFrom(h, w, path, k, vs)
    decreases vs
  {
    if vs.Cons? {
      LocatedStep(h, w, path, k);
      assert [k][1..] == [] && [k][0] == k;
      assert Located(h, PtrV(a), [k]) == LocatedIn(h, h[a].fields, k + 0, []) == LocatedIn(h, vs, 0, []);
      assert LocatedIn(h, vs, 0, []) == Some(vs.head);
      forall j: nat
        ensures LocatedIn(h, h[a].fields, k + 1 + j, []) == LocatedIn(h, vs.tail, j, [])
      {
        assert LocatedIn(h, h[a].fields, k + (j + 1), []) == LocatedIn(h, vs, j + 1, []);
      }
      SuffixLocated(h, w, path, a, k + 1, vs.tail);
    }
  }

  lemma {:induction false} BindNames(p: Program, h: Memory, root: Slot, w: Value, f: Frame, g: Vars, v: Value, q: Pat,
      ty: Ty, path: seq<nat>, fuel: nat)
    requires Tree(p.ctors, h, v, ty) && PatTyped(p, q, ty) && Matches(q, ShapeOf(h, v))
    requires Located(h, w, path) == Some(v)
    ensures var r := BindPat(p.ctors, h, f, v, q, ty, false, fuel);
      r.Bound? && r.h == h && NamesParts(h, root, w, f, r.f, g, Binding(g, q, Read(h, v), Some(Spot(root, path))),
        Elems(Binders(q)))
    decreases q, 1
  {
    TreeReads(p.ctors, h, v, ty);
    if q.PCtor? {
      FieldsLocated(h, w, path, v.a);
      BindsName(p, h, root, w, f, g, v.a, h[v.a].fields, q.subs, p.ctors[q.tag].params, v.a, path, 0, fuel);
    }
  }

  lemma {:induction false} BindsName(p: Program, h: Memory, root: Slot, w: Value, f: Frame, g: Vars, box: nat,
      vs: List<Value>, qs: List<Pat>, ts: List<Ty>, bound: nat, path: seq<nat>, k: nat, fuel: nat)
    requires Forest(p.ctors, h, vs, ts, bound) && PatsTyped(p, qs, ts) && AllMatch(qs, ShapesOf(h, vs, bound))
    requires LocatedFrom(h, w, path, k, vs) && box in h
    ensures var r := BindPats(p.ctors, h, f, box, vs, qs, ts, false, fuel);
      r.Bound? && r.h == h && NamesParts(h, root, w, f, r.f, g,
        BindingAll(g, qs, ReadAll(h, vs), Some(Spot(root, path)), k), Elems(BindersOf(qs)))
    decreases qs, 0
  {
    hide NamesParts, Tree, ShapeOf, BindPat, Binding, Read, Located;
    if qs.Cons? {
      var q, v := qs.head, vs.head;
      AppendElems(Binders(q), BindersOf(qs.tail));
      BindNames(p, h, root, w, f, g, v, q, ts.head, path + [k], fuel);
      var r := BindPat(p.ctors, h, f, v, q, ts.head, false, fuel);
      var g1 := Binding(g, q, Read(h, v), Some(Spot(root, path + [k])));
      BindsName(p, h, root, w, r.f, g1, box, vs.tail, qs.tail, ts.tail, bound, path, k + 1, fuel);
      NamesThen(h, root, w, f, r.f, BindPats(p.ctors, h, r.f, box, vs.tail, qs.tail, ts.tail, false, fuel).f, g, g1,
        BindingAll(g1, qs.tail, ReadAll(h, vs.tail), Some(Spot(root, path)), k + 1), Elems(Binders(q)),
        Elems(BindersOf(qs.tail)));
    } else {
      NothingNamed(h, root, w, f, g);
    }
  }
}
