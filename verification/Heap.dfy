/** The heap of a running program, what a value owns in it, and the generated
    destroy code (CodeGenVisitor::getOrCreateSumDestroyFn, emitDestroyValue). */
module Heap {
  import opened Syntax

  // A machine word: an integer, the address of a heap cell, or the address of a
  // variable's stack slot (frame number and name).
  datatype Value = IntV(n: int) | PtrV(a: nat) | SlotV(depth: nat, x: Name)

  // An owning reference's cell, or a constructor's box: a tag and its payloads.
  datatype Cell = IntCell(n: int) | Box(tag: Name, fields: List<Value>)

  // What the variables in scope in one activation hold.
  type Frame = map<Name, Value>

  // Live cells only. An address is never handed out twice, so using a freed
  // cell shows as an address that is not a key.
  type Memory = map<nat, Cell>

  // What a value owns: its cell and, through boxes, the cells of its payloads.
  // A box's payloads were allocated before it, so their addresses are lower.
  ghost function Cells(h: Memory, v: Value): set<nat>
    decreases if v.PtrV? then v.a + 1 else 0, 1
  {
    if v.PtrV? && v.a in h then
      {v.a} + (if h[v.a].Box? then CellsOf(h, h[v.a].fields, v.a) else {})
    else {}
  }

  ghost function CellsOf(h: Memory, vs: List<Value>, bound: nat): set<nat>
    decreases bound + 1, 0, vs
  {
    match vs
    case Nil => {}
    case Cons(v, t) =>
      (if v.PtrV? && v.a >= bound then {} else Cells(h, v)) + CellsOf(h, t, bound)
  }

  // v is a whole, unshared value of type ty.
  ghost predicate Tree(cs: map<Name, Ctor>, h: Memory, v: Value, ty: Ty)
    decreases if v.PtrV? then v.a + 1 else 0, 1
  {
    match ty
    case TInt => v.IntV?
    case TOwn => v.PtrV? && v.a in h && h[v.a].IntCell?
    case TSum(n) =>
      && v.PtrV? && v.a in h && h[v.a].Box?
      && h[v.a].tag in cs
      && cs[h[v.a].tag].owner == n
      && Forest(cs, h, h[v.a].fields, cs[h[v.a].tag].params, v.a)
    case TBorrow(_) => false
  }

  // The same for the payloads of a box, or for several values held at once.
  ghost predicate Forest(cs: map<Name, Ctor>, h: Memory, vs: List<Value>, tys: List<Ty>, bound: nat)
    decreases bound + 1, 0, vs
  {
    match vs
    case Nil => tys.Nil?
    case Cons(v, t) =>
      && tys.Cons?
      && (v.PtrV? ==> v.a < bound)
      && Tree(cs, h, v, tys.head)
      && Cells(h, v) !! CellsOf(h, t, bound)
      && Forest(cs, h, t, tys.tail, bound)
  }

  // h' still holds the cells zs of h; only the integer inside a cell may differ.
  ghost predicate SameShape(h: Memory, h': Memory, zs: set<nat>) {
    forall a | a in zs ::
      a in h && a in h' && (h'[a] == h[a] || (h[a].IntCell? && h'[a].IntCell?))
  }

  lemma {:induction false} CellsLive(h: Memory, v: Value)
    ensures Cells(h, v) <= h.Keys
    ensures forall c | c in Cells(h, v) :: v.PtrV? && c <= v.a
    decreases if v.PtrV? then v.a + 1 else 0, 1
  {
    if v.PtrV? && v.a in h && h[v.a].Box? {
      CellsOfLive(h, h[v.a].fields, v.a);
    }
  }

  lemma {:induction false} CellsOfLive(h: Memory, vs: List<Value>, bound: nat)
    ensures CellsOf(h, vs, bound) <= h.Keys
    ensures forall c | c in CellsOf(h, vs, bound) :: c < bound
    decreases bound + 1, 0, vs
  {
    match vs
    case Nil =>
    case Cons(v, t) =>
      CellsOfLive(h, t, bound);
      if !(v.PtrV? && v.a >= bound) {
        CellsLive(h, v);
      }
  }

  // A value depends on its own cells only.
  lemma {:induction false} TreeFrame(cs: map<Name, Ctor>, h: Memory, h': Memory, v: Value, ty: Ty)
    requires Tree(cs, h, v, ty)
    requires SameShape(h, h', Cells(h, v))
    ensures Tree(cs, h', v, ty)
    ensures Cells(h', v) == Cells(h, v)
    decreases if v.PtrV? then v.a + 1 else 0, 1
  {
    if ty.TSum? {
      ForestFrame(cs, h, h', h[v.a].fields, cs[h[v.a].tag].params, v.a);
    }
  }

  lemma {:induction false} ForestFrame(cs: map<Name, Ctor>, h: Memory, h': Memory, vs: List<Value>, tys: List<Ty>,
      bound: nat)
    requires Forest(cs, h, vs, tys, bound)
    requires SameShape(h, h', CellsOf(h, vs, bound))
    ensures Forest(cs, h', vs, tys, bound)
    ensures CellsOf(h', vs, bound) == CellsOf(h, vs, bound)
    decreases bound + 1, 0, vs
  {
    match vs
    case Nil =>
    case Cons(v, t) =>
      TreeFrame(cs, h, h', v, tys.head);
      ForestFrame(cs, h, h', t, tys.tail, bound);
  }

  // Raising the bound changes nothing.
  lemma {:induction false} ForestWiden(cs: map<Name, Ctor>, h: Memory, vs: List<Value>, tys: List<Ty>, low: nat,
      high: nat)
    requires low <= high
    requires Forest(cs, h, vs, tys, low)
    ensures Forest(cs, h, vs, tys, high)
    ensures CellsOf(h, vs, high) == CellsOf(h, vs, low)
    decreases vs
  {
    match vs
    case Nil =>
    case Cons(v, t) => ForestWiden(cs, h, t, tys.tail, low, high);
  }

  // -------------------------------------------------------------------------
  // Destruction
  // -------------------------------------------------------------------------

  // Every step of generated code may fault on a cell that is not live. Fuel
  // bounds the depth of the destroy function's recursion at run time.
  datatype Freed = Freed(h: Memory) | BadFree | NoFuel

  function FreeCell(h: Memory, a: nat): Freed {
    if a in h then Freed(h - {a}) else BadFree
  }

  function DestroyValue(cs: map<Name, Ctor>, h: Memory, v: Value, ty: Ty, fuel: nat): Freed
    decreases fuel, 1
  {
    match ty
    case TOwn => if v.PtrV? then FreeCell(h, v.a) else BadFree
    case TSum(_) =>
      if fuel == 0 then NoFuel
      else if !v.PtrV? || v.a !in h || !h[v.a].Box? then BadFree
      else
        var box := h[v.a];
        var params := if box.tag in cs then cs[box.tag].params else Nil;
        var r := DestroyPayloads(cs, h, v.a, box.fields, params, fuel - 1);
        if r.Freed? then FreeCell(r.h, v.a) else r
    case _ => Freed(h)
  }

  // Each owned payload in turn: load it from the box, then destroy it.
  function DestroyPayloads(cs: map<Name, Ctor>, h: Memory, box: nat, vs: List<Value>, tys: List<Ty>, fuel: nat): Freed
    decreases fuel, 2, vs
  {
    if vs.Nil? || tys.Nil? then Freed(h)
    else if !IsOwn(tys.head) then DestroyPayloads(cs, h, box, vs.tail, tys.tail, fuel)
    else if box !in h then BadFree
    else
      var r := DestroyValue(cs, h, vs.head, tys.head, fuel);
      if r.Freed? then DestroyPayloads(cs, r.h, box, vs.tail, tys.tail, fuel) else r
  }

  // Destroying a whole value frees exactly the cells it owns, each once, and
  // never touches a dead cell; recursion as deep as the value's address is enough.
  lemma {:induction false} DestroyFreesFootprint(cs: map<Name, Ctor>, h: Memory, v: Value, ty: Ty, fuel: nat)
    requires Tree(cs, h, v, ty)
    ensures !DestroyValue(cs, h, v, ty, fuel).BadFree?
    ensures DestroyValue(cs, h, v, ty, fuel).Freed? ==>
      DestroyValue(cs, h, v, ty, fuel).h == h - Cells(h, v)
    ensures v.PtrV? && fuel > v.a ==> DestroyValue(cs, h, v, ty, fuel).Freed?
    decreases fuel, 1
  {
    if ty.TSum? && fuel > 0 {
      var box := h[v.a];
      CellsOfLive(h, box.fields, v.a);
      DestroyPayloadsFreesFootprint(cs, h, v.a, box.fields, cs[box.tag].params, v.a, fuel - 1);
    }
  }

  lemma {:induction false} DestroyPayloadsFreesFootprint(cs: map<Name, Ctor>, h: Memory, box: nat, vs: List<Value>,
      tys: List<Ty>, bound: nat, fuel: nat)
    requires Forest(cs, h, vs, tys, bound)
    requires box in h && bound <= box
    ensures var r := DestroyPayloads(cs, h, box, vs, tys, fuel);
      !r.BadFree? && (r.Freed? ==> r.h == h - CellsOf(h, vs, bound)) && (fuel >= bound ==> r.Freed?)
    decreases fuel, 2, vs
  {
    if vs.Cons? {
      var v, ty := vs.head, tys.head;
      CellsLive(h, v);
      if !IsOwn(ty) {
        DestroyPayloadsFreesFootprint(cs, h, box, vs.tail, tys.tail, bound, fuel);
      } else {
        DestroyFreesFootprint(cs, h, v, ty, fuel);
        var r := DestroyValue(cs, h, v, ty, fuel);
        if r.Freed? {
          CellsOfLive(h, vs.tail, bound);
          ForestFrame(cs, h, r.h, vs.tail, tys.tail, bound);
          DestroyPayloadsFreesFootprint(cs, r.h, box, vs.tail, tys.tail, bound, fuel);
        }
      }
    }
  }
}
