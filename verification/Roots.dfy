/** A set of cells that whole, unshared values make up has only one set of roots:
    the cells that are no payload of another. So two ways of sharing out the same
    cells among owners can differ in who owns, never in what is owned; and a value
    found at such a root has the type its cell says it has. */
module Roots {
  import opened Syntax
  import opened Heap

  ghost predicate Whole(cs: map<Name, Ctor>, h: Memory, v: Value) {
    exists ty :: IsOwn(ty) && Tree(cs, h, v, ty)
  }

  // Whole values, no two of which share a cell.
  ghost predicate Family(cs: map<Name, Ctor>, h: Memory, vs: set<Value>) {
    && (forall v | v in vs :: Whole(cs, h, v))
    && (forall u, v | u in vs && v in vs && u != v :: Cells(h, u) !! Cells(h, v))
  }

  ghost function AllCells(h: Memory, vs: set<Value>): set<nat> {
    set v, a | v in vs && a in Cells(h, v) :: a
  }

  // The cell a is a payload of the box b.
  ghost predicate Payload(h: Memory, b: nat, a: nat) {
    b in h && h[b].Box? && a < b && PtrV(a) in Elems(h[b].fields)
  }

  // Every cell of a value but its root is a payload of another of its cells.
  lemma {:induction false} InnerHasParent(cs: map<Name, Ctor>, h: Memory, v: Value, ty: Ty, a: nat)
    requires Tree(cs, h, v, ty) && a in Cells(h, v) && v != PtrV(a)
    ensures exists b | b in Cells(h, v) :: Payload(h, b, a)
    decreases if v.PtrV? then v.a + 1 else 0, 1
  {
    var fields := h[v.a].fields;
    if PtrV(a) !in Elems(fields) {
      PayloadHasParent(cs, h, fields, cs[h[v.a].tag].params, v.a, a);
    } else {
      CellsOfLive(h, fields, v.a);
      assert Payload(h, v.a, a);
    }
  }

  lemma {:induction false} PayloadHasParent(cs: map<Name, Ctor>, h: Memory, vs: List<Value>, tys: List<Ty>, bound: nat,
      a: nat)
    requires Forest(cs, h, vs, tys, bound) && a in CellsOf(h, vs, bound) && PtrV(a) !in Elems(vs)
    ensures exists b | b in CellsOf(h, vs, bound) :: Payload(h, b, a)
    decreases bound + 1, 0, vs
  {
    if a in Cells(h, vs.head) {
      InnerHasParent(cs, h, vs.head, tys.head, a);
      var b :| b in Cells(h, vs.head) && Payload(h, b, a);
      assert b in CellsOf(h, vs, bound);
    } else {
      PayloadHasParent(cs, h, vs.tail, tys.tail, bound, a);
      var b :| b in CellsOf(h, vs.tail, bound) && Payload(h, b, a);
      assert b in CellsOf(h, vs, bound);
    }
  }

  // The payloads of a cell of a value are cells of that value.
  lemma {:induction false} PayloadInside(cs: map<Name, Ctor>, h: Memory, v: Value, ty: Ty, b: nat, a: nat)
    requires Tree(cs, h, v, ty) && b in Cells(h, v) && Payload(h, b, a)
    ensures a in Cells(h, v)
    decreases if v.PtrV? then v.a + 1 else 0, 1
  {
    PayloadInsideAll(cs, h, h[v.a].fields, cs[h[v.a].tag].params, v.a, b, a);
  }

  lemma {:induction false} PayloadInsideAll(cs: map<Name, Ctor>, h: Memory, vs: List<Value>, tys: List<Ty>, bound: nat,
      b: nat, a: nat)
    requires Forest(cs, h, vs, tys, bound)
    requires PtrV(a) in Elems(vs) || (b in CellsOf(h, vs, bound) && Payload(h, b, a))
    ensures a in CellsOf(h, vs, bound)
    decreases bound + 1, 0, vs
  {
    if vs.head == PtrV(a) {
    } else if b in Cells(h, vs.head) && Payload(h, b, a) {
      PayloadInside(cs, h, vs.head, tys.head, b, a);
    } else {
      PayloadInsideAll(cs, h, vs.tail, tys.tail, bound, b, a);
    }
  }

  lemma {:induction false} RootsAmong(cs: map<Name, Ctor>, h: Memory, us: set<Value>, vs: set<Value>, v: Value)
    requires Family(cs, h, us) && Family(cs, h, vs)
    requires AllCells(h, us) == AllCells(h, vs)
    requires v in us
    ensures v in vs
  {
    var ty :| IsOwn(ty) && Tree(cs, h, v, ty);
    var a := v.a;
    assert a in Cells(h, v);
    assert a in AllCells(h, us);
    var u :| u in vs && a in Cells(h, u);
    if u != v {
      var ty1 :| IsOwn(ty1) && Tree(cs, h, u, ty1);
      InnerHasParent(cs, h, u, ty1, a);
      var b :| b in Cells(h, u) && Payload(h, b, a);
      assert b in AllCells(h, vs);
      var v1 :| v1 in us && b in Cells(h, v1);
      var ty2 :| IsOwn(ty2) && Tree(cs, h, v1, ty2);
      PayloadInside(cs, h, v1, ty2, b, a);
      CellsLive(h, v);
      assert false;
    }
  }

  lemma SameRoots(cs: map<Name, Ctor>, h: Memory, us: set<Value>, vs: set<Value>)
    requires Family(cs, h, us) && Family(cs, h, vs)
    requires AllCells(h, us) == AllCells(h, vs)
    ensures us == vs
  {
    forall v | v in us
      ensures v in vs
    {
      RootsAmong(cs, h, us, vs, v);
    }
    forall v | v in vs
      ensures v in us
    {
      RootsAmong(cs, h, vs, us, v);
    }
  }

  lemma NoCellsNoValues(cs: map<Name, Ctor>, h: Memory, vs: set<Value>)
    requires Family(cs, h, vs) && AllCells(h, vs) == {}
    ensures vs == {}
  {
    forall v | v in vs
      ensures v.a in AllCells(h, vs)
    {
      assert v.a in Cells(h, v);
    }
  }

  // The pointers among the payloads of a box.
  ghost function Pointers(vs: List<Value>): set<Value> {
    set v | v in Elems(vs) && v.PtrV?
  }

  lemma {:induction false} PayloadsAreFamily(cs: map<Name, Ctor>, h: Memory, vs: List<Value>, tys: List<Ty>, bound: nat)
    requires Forest(cs, h, vs, tys, bound)
    ensures Family(cs, h, Pointers(vs))
    ensures AllCells(h, Pointers(vs)) == CellsOf(h, vs, bound)
    decreases vs
  {
    if vs.Cons? {
      PayloadsAreFamily(cs, h, vs.tail, tys.tail, bound);
      var v := vs.head;
      if v.PtrV? {
        assert Tree(cs, h, v, tys.head) && IsOwn(tys.head);
        assert Pointers(vs) == {v} + Pointers(vs.tail);
        forall u | u in Pointers(vs.tail)
          ensures Cells(h, u) !! Cells(h, v)
        {
          assert Cells(h, u) <= AllCells(h, Pointers(vs.tail));
        }
        assert AllCells(h, Pointers(vs)) == Cells(h, v) + AllCells(h, Pointers(vs.tail));
      } else {
        assert Pointers(vs) == Pointers(vs.tail);
      }
    }
  }

  // What the root alone tells of a value's type.
  ghost predicate RootTyped(cs: map<Name, Ctor>, h: Memory, v: Value, ty: Ty) {
    && v.PtrV? && v.a in h
    && (ty.TOwn? ==> h[v.a].IntCell?)
    && (ty.TSum? ==> h[v.a].Box? && h[v.a].tag in cs && cs[h[v.a].tag].owner == ty.name)
  }

  lemma {:induction false} RootDecides(cs: map<Name, Ctor>, h: Memory, v: Value, ty: Ty)
    requires Whole(cs, h, v) && IsOwn(ty) && RootTyped(cs, h, v, ty)
    ensures Tree(cs, h, v, ty)
  {
    var ty1 :| IsOwn(ty1) && Tree(cs, h, v, ty1);
    assert ty1 == ty;
  }
}
