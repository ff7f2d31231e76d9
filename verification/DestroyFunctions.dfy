/** The destroy functions of sum types: how they are generated, one for each type
    that is needed, and what they do. */
module DestroyFunctions {
  import opened Syntax
  import opened Heap

  // An owned payload of a constructor, and where in the box it is.
  datatype Field = Field(at: nat, ty: Ty)

  function OwnedFields(ts: List<Ty>, at: nat): seq<Field> {
    match ts
    case Nil => []
    case Cons(t, rest) => (if IsOwn(t) then [Field(at, t)] else []) + OwnedFields(rest, at + 1)
  }

  // The cases of a function's switch: constructors with owned payloads only.
  type Body = map<Name, seq<Field>>

  ghost predicate IsBody(cs: map<Name, Ctor>, n: Name, b: Body) {
    forall c {:trigger c in b} ::
      && (c in b <==> c in cs && cs[c].owner == n && OwnedFields(cs[c].params, 0) != [])
      && (c in b ==> b[c] == OwnedFields(cs[c].params, 0))
  }

  // A value of type n may hold one of type m that it owns.
  ghost predicate Needs(cs: map<Name, Ctor>, n: Name, m: Name) {
    exists c, i :: c in cs && cs[c].owner == n && 0 <= i < |OwnedFields(cs[c].params, 0)|
      && OwnedFields(cs[c].params, 0)[i].ty == TSum(m)
  }

  ghost predicate Leads(cs: map<Name, Ctor>, n: Name, m: Name, path: seq<Name>)
    decreases |path|
  {
    if path == [] then n == m else Needs(cs, n, path[0]) && Leads(cs, path[0], m, path[1..])
  }

  ghost predicate Needed(cs: map<Name, Ctor>, n: Name, m: Name) {
    exists path :: Leads(cs, n, m, path)
  }

  lemma NeededItself(cs: map<Name, Ctor>, n: Name)
    ensures Needed(cs, n, n)
  {
    assert Leads(cs, n, n, []);
  }

  lemma NeededOn(cs: map<Name, Ctor>, n: Name, t: Name, m: Name)
    requires Needs(cs, n, t) && Needed(cs, t, m)
    ensures Needed(cs, n, m)
  {
    var path :| Leads(cs, t, m, path);
    assert ([t] + path)[1..] == path;
    assert Leads(cs, n, m, [t] + path);
  }

  // -------------------------------------------------------------------------
  // Generation
  // -------------------------------------------------------------------------

  // The sum types that payloads have.
  ghost function Sums(cs: map<Name, Ctor>): set<Name> {
    set c, i | c in cs && 0 <= i < |OwnedFields(cs[c].params, 0)| && OwnedFields(cs[c].params, 0)[i].ty.TSum? ::
      OwnedFields(cs[c].params, 0)[i].ty.name
  }

  lemma NeededIsSum(cs: map<Name, Ctor>, n: Name, t: Name)
    requires Needs(cs, n, t)
    ensures Sums(cs) + {t} == Sums(cs)
  {
  }

  ghost predicate FieldsIn(fields: seq<Field>, declared: set<Name>) {
    forall f | f in fields :: f.ty.TSum? ==> f.ty.name in declared
  }

  // Whatever the types ms need, there is a function for.
  ghost predicate Closed(cs: map<Name, Ctor>, ms: set<Name>, declared: set<Name>) {
    forall m, t {:trigger Needs(cs, m, t)} :: m in ms && Needs(cs, m, t) ==> t in declared
  }

  // All functions that are called have been generated.
  ghost predicate Generated(cs: map<Name, Ctor>, bodies: map<Name, Body>) {
    && (forall m | m in bodies :: IsBody(cs, m, bodies[m]))
    && Closed(cs, bodies.Keys, bodies.Keys)
  }

  lemma ClosedMore(cs: map<Name, Ctor>, ms: set<Name>, declared: set<Name>, more: set<Name>, declared': set<Name>)
    requires Closed(cs, ms, declared) && declared <= declared' && Closed(cs, more, declared')
    ensures Closed(cs, ms + more, declared')
  {
  }

  ghost predicate AllIn(cs: map<Name, Ctor>, variants: set<Name>, declared: set<Name>)
    requires variants <= cs.Keys
  {
    forall c | c in variants :: FieldsIn(OwnedFields(cs[c].params, 0), declared)
  }

  lemma AllInMore(cs: map<Name, Ctor>, variants: set<Name>, declared: set<Name>, c: Name, declared': set<Name>)
    requires variants <= cs.Keys && AllIn(cs, variants, declared) && declared <= declared'
    requires c in cs && FieldsIn(OwnedFields(cs[c].params, 0), declared')
    ensures AllIn(cs, variants + {c}, declared')
  {
  }

  lemma AllVariants(cs: map<Name, Ctor>, n: Name, declared: set<Name>)
    requires var variants := set c | c in cs && cs[c].owner == n; AllIn(cs, variants, declared)
    ensures Closed(cs, {n}, declared)
  {
  }

  // The cases emitted so far.
  ghost predicate Emitting(cs: map<Name, Ctor>, body: Body, done: set<Name>)
    requires done <= cs.Keys
  {
    forall c {:trigger c in body} ::
      && (c in body <==> c in done && OwnedFields(cs[c].params, 0) != [])
      && (c in body ==> body[c] == OwnedFields(cs[c].params, 0))
  }

  class DestroyGenerator {
    const ctors: map<Name, Ctor>
    // A function is declared before its body is emitted, for its own payloads to call.
    var declared: set<Name>
    var bodies: map<Name, Body>

    ghost predicate Valid()
      reads this
    {
      bodies.Keys <= declared && forall m | m in bodies :: IsBody(ctors, m, bodies[m])
    }

    // Every function declared has its body, and calls none that is not declared.
    ghost predicate Complete()
      reads this
    {
      bodies.Keys == declared && Generated(ctors, bodies)
    }

    constructor (ctors: map<Name, Ctor>)
      ensures Complete() && declared == {} && this.ctors == ctors
    {
      this.ctors, declared, bodies := ctors, {}, map[];
    }

    // What has been emitted since the declared were declared0, with the body of n
    // still open.
    ghost predicate Begun(n: Name, declared0: set<Name>, bodies0: map<Name, Body>)
      reads this
    {
      && Valid() && n !in declared0 && declared0 + {n} <= declared
      && bodies.Keys == bodies0.Keys + (declared - declared0 - {n})
      && (forall m | m in bodies0 :: m in bodies && bodies[m] == bodies0[m])
      && (forall m | m in declared - declared0 :: Needed(ctors, n, m))
      && Closed(ctors, declared - declared0 - {n}, declared)
    }

    // Ends, whatever the types hold of one another; emits each function once, and
    // none that the type does not need.
    method GetOrCreate(n: Name)
      requires Valid()
      modifies this`declared, this`bodies
      ensures Valid() && n in declared && old(declared) <= declared
      ensures bodies.Keys == old(bodies.Keys) + (declared - old(declared))
      ensures forall m | m in old(bodies) :: m in bodies && bodies[m] == old(bodies)[m]
      ensures forall m | m in declared - old(declared) :: Needed(ctors, n, m)
      ensures Closed(ctors, declared - old(declared), declared)
      ensures old(Complete()) ==> Complete()
      decreases Sums(ctors) + {n} - declared, 1
    {
      hide Needed, Needs;
      if n in declared {
        return;
      }
      ghost var declared0, bodies0 := declared, bodies;
      declared := declared + {n};
      NeededItself(ctors, n);
      var body := EmitSwitch(n, declared0, bodies0);
      bodies := bodies[n := body];
      ClosedMore(ctors, declared - declared0 - {n}, declared, {n}, declared);
      assert declared - declared0 - {n} + {n} == declared - declared0;
      if Closed(ctors, declared0, declared0) {
        ClosedMore(ctors, declared0, declared0, declared - declared0, declared);
        assert declared0 + (declared - declared0) == declared;
      }
    }

    // A switch on the tag, with a case for each constructor that owns a payload.
    method EmitSwitch(n: Name, ghost declared0: set<Name>, ghost bodies0: map<Name, Body>) returns (body: Body)
      requires bodies0.Keys <= declared0 && Begun(n, declared0, bodies0)
      modifies this`declared, this`bodies
      ensures Begun(n, declared0, bodies0) && IsBody(ctors, n, body) && Closed(ctors, {n}, declared)
      decreases Sums(ctors) - declared, 4
    {
      hide Begun, OwnedFields, Needs, FieldsIn;
      body := map[];
      var todo := set c | c in ctors && ctors[c].owner == n;
      ghost var variants, was := todo, declared;
      while todo != {}
        invariant todo <= variants && was <= declared && Begun(n, declared0, bodies0)
        invariant AllIn(ctors, variants - todo, declared)
        invariant Emitting(ctors, body, variants - todo)
        decreases todo
      {
        var c :| c in todo;
        ghost var before := declared;
        var fields := OwnedFields(ctors[c].params, 0);
        EmitFields(n, c, declared0, bodies0);
        AllInMore(ctors, variants - todo, before, c, declared);
        todo := todo - {c};
        assert variants - todo == variants - todo - {c} + {c};
        if fields != [] {
          body := body[c := fields];
        }
      }
      AllVariants(ctors, n, declared);
    }

    // One case of the switch: a destroy of each owned payload in turn.
    method EmitFields(n: Name, c: Name, ghost declared0: set<Name>, ghost bodies0: map<Name, Body>)
      requires bodies0.Keys <= declared0 && Begun(n, declared0, bodies0) && c in ctors && ctors[c].owner == n
      modifies this`declared, this`bodies
      ensures old(declared) <= declared && Begun(n, declared0, bodies0)
      ensures FieldsIn(OwnedFields(ctors[c].params, 0), declared)
      decreases Sums(ctors) - declared, 3
    {
      var fields := OwnedFields(ctors[c].params, 0);
      for i := 0 to |fields|
        invariant old(declared) <= declared && Begun(n, declared0, bodies0)
        invariant FieldsIn(fields[..i], declared)
      {
        assert fields[..i + 1] == fields[..i] + [fields[i]];
        if fields[i].ty.TSum? {
          assert Needs(ctors, n, fields[i].ty.name);
          EmitPayload(n, fields[i].ty.name, declared0, bodies0);
        }
      }
      assert fields[..|fields|] == fields;
    }

    method EmitPayload(n: Name, t: Name, ghost declared0: set<Name>, ghost bodies0: map<Name, Body>)
      requires bodies0.Keys <= declared0 && Begun(n, declared0, bodies0) && Needs(ctors, n, t)
      modifies this`declared, this`bodies
      ensures old(declared) <= declared && Begun(n, declared0, bodies0) && t in declared
      decreases Sums(ctors) - declared, 2
    {
      hide Needed, Needs;
      ghost var was := declared;
      NeededIsSum(ctors, n, t);
      GetOrCreate(t);
      forall m | m in declared - was
        ensures Needed(ctors, n, m)
      {
        NeededOn(ctors, n, t, m);
      }
      ClosedMore(ctors, was - declared0 - {n}, was, declared - was, declared);
      assert was - declared0 - {n} + (declared - was) == declared - declared0 - {n};
    }
  }

  // -------------------------------------------------------------------------
  // What the functions do
  // -------------------------------------------------------------------------

  function At(vs: List<Value>, i: nat): Value
    requires i < Length(vs)
  {
    if i == 0 then vs.head else At(vs.tail, i - 1)
  }

  // A call of the function for n: switch on the tag, run the case, free the box.
  function Call(bodies: map<Name, Body>, h: Memory, v: Value, n: Name, fuel: nat): Freed
    decreases fuel, 1
  {
    if fuel == 0 then NoFuel
    else if n !in bodies || !v.PtrV? || v.a !in h || !h[v.a].Box? then BadFree
    else
      var tag := h[v.a].tag;
      var r := RunCase(bodies, h, v.a, if tag in bodies[n] then bodies[n][tag] else [], fuel - 1);
      if r.Freed? then FreeCell(r.h, v.a) else r
  }

  // Each field is loaded when its turn comes.
  function RunCase(bodies: map<Name, Body>, h: Memory, box: nat, fields: seq<Field>, fuel: nat): Freed
    decreases fuel, 2, |fields|
  {
    if fields == [] then Freed(h)
    else if box !in h || !h[box].Box? || fields[0].at >= Length(h[box].fields) then BadFree
    else
      var v, ty := At(h[box].fields, fields[0].at), fields[0].ty;
      var r :=
        match ty
        case TOwn => if v.PtrV? then FreeCell(h, v.a) else BadFree
        case TSum(m) => Call(bodies, h, v, m, fuel)
        case _ => Freed(h);
      if r.Freed? then RunCase(bodies, r.h, box, fields[1..], fuel) else r
  }

  // On a whole value the generated function does what destroying is taken to do.
  lemma {:induction false} CallDestroys(cs: map<Name, Ctor>, bodies: map<Name, Body>, h: Memory, v: Value, n: Name,
      fuel: nat)
    requires Generated(cs, bodies) && n in bodies && Tree(cs, h, v, TSum(n))
    ensures Call(bodies, h, v, n, fuel) == DestroyValue(cs, h, v, TSum(n), fuel)
    decreases fuel, 1
  {
    if fuel > 0 {
      var box := h[v.a];
      var fields := OwnedFields(cs[box.tag].params, 0);
      assert box.tag in bodies[n] <==> fields != [];
      forall i | 0 <= i < |fields| && fields[i].ty.TSum?
        ensures fields[i].ty.name in bodies
      {
        assert Needs(cs, n, fields[i].ty.name);
      }
      CaseDestroys(cs, bodies, h, v.a, box.fields, cs[box.tag].params, 0, v.a, fuel - 1);
    }
  }

  ghost predicate EndsWith(all: List<Value>, vs: List<Value>, at: nat)
    decreases all
  {
    if at == 0 then all == vs else all.Cons? && EndsWith(all.tail, vs, at - 1)
  }

  lemma {:induction false} LoadedAt(all: List<Value>, vs: List<Value>, at: nat)
    requires EndsWith(all, vs, at) && vs.Cons?
    ensures at < Length(all) && At(all, at) == vs.head && EndsWith(all, vs.tail, at + 1)
    decreases all
  {
    if at > 0 {
      LoadedAt(all.tail, vs, at - 1);
    }
  }

  lemma {:induction false} CaseDestroys(cs: map<Name, Ctor>, bodies: map<Name, Body>, h: Memory, box: nat,
      vs: List<Value>, ts: List<Ty>, at: nat, bound: nat, fuel: nat)
    requires Generated(cs, bodies) && Forest(cs, h, vs, ts, bound) && bound <= box
    requires box in h && h[box].Box? && EndsWith(h[box].fields, vs, at)
    requires forall i | 0 <= i < |OwnedFields(ts, at)| ::
      OwnedFields(ts, at)[i].ty.TSum? ==> OwnedFields(ts, at)[i].ty.name in bodies
    ensures RunCase(bodies, h, box, OwnedFields(ts, at), fuel) == DestroyPayloads(cs, h, box, vs, ts, fuel)
    decreases fuel, 2, vs
  {
    if vs.Cons? {
      var v, ty, rest := vs.head, ts.head, OwnedFields(ts.tail, at + 1);
      LoadedAt(h[box].fields, vs, at);
      CellsLive(h, v);
      CellsOfLive(h, vs.tail, bound);
      if !IsOwn(ty) {
        assert OwnedFields(ts, at) == rest;
        CaseDestroys(cs, bodies, h, box, vs.tail, ts.tail, at + 1, bound, fuel);
      } else {
        assert OwnedFields(ts, at) == [Field(at, ty)] + rest && OwnedFields(ts, at)[1..] == rest;
        assert OwnedFields(ts, at)[0] == Field(at, ty);
        forall i | 0 <= i < |rest| && rest[i].ty.TSum?
          ensures rest[i].ty.name in bodies
        {
          assert OwnedFields(ts, at)[i + 1] == rest[i];
        }
        DestroyFreesFootprint(cs, h, v, ty, fuel);
        if ty.TSum? {
          CallDestroys(cs, bodies, h, v, ty.name, fuel);
        }
        var r := DestroyValue(cs, h, v, ty, fuel);
        if r.Freed? {
          ForestFrame(cs, h, r.h, vs.tail, ts.tail, bound);
          CaseDestroys(cs, bodies, r.h, box, vs.tail, ts.tail, at + 1, bound, fuel);
        }
      }
    }
  }
}
