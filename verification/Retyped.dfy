/** An arm that binds a name at another type than the name's uses have. */
module Retyped {
  import opened Optional
  import opened Syntax
  import opened Heap
  import opened Moves
  import opened Static
  import opened Machine
  import opened Ownership
  import opened Running
  import opened Steps
  import opened Matching
  import opened Arms
  import opened Facts
  import opened Safety
  import opened Watching
  import opened Repeats
  import opened Roots
  import opened Unmatched

  // The types of names if every binder of the patterns were their declaration.
  function Redeclared(tys: map<Name, Ty>, q: Pat): map<Name, Ty>
    decreases q
  {
    match q
    case PVar(x, ty) => tys[x := ty]
    case PWild => tys
    case PCtor(_, subs) => AllRedeclared(tys, subs)
  }

  function AllRedeclared(tys: map<Name, Ty>, qs: List<Pat>): map<Name, Ty>
    decreases qs
  {
    match qs
    case Nil => tys
    case Cons(q, t) => AllRedeclared(Redeclared(tys, q), t)
  }

  lemma {:induction false} RedeclaredIs(tys: map<Name, Ty>, q: Pat)
    requires Distinct(Binders(q))
    ensures UsedAsBound(Redeclared(tys, q), q)
    ensures Redeclared(tys, q).Keys == tys.Keys + Elems(Binders(q))
    ensures forall x | x in tys && x !in Elems(Binders(q)) :: Redeclared(tys, q)[x] == tys[x]
    decreases q
  {
    if q.PCtor? {
      AllRedeclaredAre(tys, q.subs);
    }
  }

  lemma {:induction false} AllRedeclaredAre(tys: map<Name, Ty>, qs: List<Pat>)
    requires Distinct(BindersOf(qs))
    ensures AllUsedAsBound(AllRedeclared(tys, qs), qs)
    ensures AllRedeclared(tys, qs).Keys == tys.Keys + Elems(BindersOf(qs))
    ensures forall x | x in tys && x !in Elems(BindersOf(qs)) :: AllRedeclared(tys, qs)[x] == tys[x]
    decreases qs
  {
    if qs.Cons? {
      var tys1 := Redeclared(tys, qs.head);
      AppendElems(Binders(qs.head), BindersOf(qs.tail));
      RedeclaredIs(tys, qs.head);
      AllRedeclaredAre(tys1, qs.tail);
      UsedAlike(tys1, AllRedeclared(tys, qs), qs.head);
    }
  }

  lemma {:induction false} UsedAlike(tys: map<Name, Ty>, tys': map<Name, Ty>, q: Pat)
    requires UsedAsBound(tys, q)
    requires forall x | x in Elems(Binders(q)) :: x in tys ==> x in tys' && tys'[x] == tys[x]
    ensures UsedAsBound(tys', q)
    decreases q
  {
    if q.PCtor? {
      AllUsedAlike(tys, tys', q.subs);
    }
  }

  lemma {:induction false} AllUsedAlike(tys: map<Name, Ty>, tys': map<Name, Ty>, qs: List<Pat>)
    requires AllUsedAsBound(tys, qs)
    requires forall x | x in Elems(BindersOf(qs)) :: x in tys ==> x in tys' && tys'[x] == tys[x]
    ensures AllUsedAsBound(tys', qs)
    decreases qs
  {
    if qs.Cons? {
      AppendElems(Binders(qs.head), BindersOf(qs.tail));
      UsedAlike(tys, tys', qs.head);
      AllUsedAlike(tys, tys', qs.tail);
    }
  }

  // The names that are bound at a type that owns.
  function Owning(qs: List<Pat>): set<Name> {
    Elems(Names(OwnedBindersOf(qs)))
  }

  // Each name bound has a type where it is used: the type it is bound at if it is
  // bound as an owner, or if an owner has that name.
  predicate OwnersUsedAsBound(tys: map<Name, Ty>, qs: List<Pat>, own: set<Name>) {
    var bound := AllRedeclared(tys, qs);
    forall x | x in Elems(BindersOf(qs)) && x in bound :: x in tys && !tys[x].TBorrow? &&
      (IsOwn(bound[x]) || x in own ==> tys[x] == bound[x])
  }

  lemma {:induction false} OneType(cs: map<Name, Ctor>, h: Memory, v: Value, t: Ty, t': Ty)
    requires Tree(cs, h, v, t) && Tree(cs, h, v, t')
    ensures t == t'
  {
  }

  lemma {:induction false} Redeclares(w: World, arm: Arm)
    requires Accepted(w.p) && arm.tag in w.p.ctors && PatsTyped(w.p, arm.pats, w.p.ctors[arm.tag].params)
    requires Distinct(BindersOf(arm.pats))
    ensures var names, bound := BindersOf(arm.pats), AllRedeclared(w.tys, arm.pats);
      && AllUsedAsBound(bound, arm.pats) && bound.Keys == w.tys.Keys + Elems(names)
      && (forall x | x in w.tys && x !in Elems(names) :: bound[x] == w.tys[x])
      && (forall x | x in Elems(names) :: x in bound && !bound[x].TBorrow?)
      && Owning(arm.pats) == OwnSet(bound, names) == (set x | x in Elems(names) && IsOwnVar(bound, x))
      && TypedAs(bound, OwnedBindersOf(arm.pats)) && Distinct(Names(OwnedBindersOf(arm.pats)))
  {
    hide AllRedeclared, OwnBinders, Names;
    AllRedeclaredAre(w.tys, arm.pats);
    BindersTyped(w.(tys := AllRedeclared(w.tys, arm.pats)), arm.pats, w.p.ctors[arm.tag].params);
    AllOwnersAsUsed(AllRedeclared(w.tys, arm.pats), arm.pats);
    OwnSetIs(AllRedeclared(w.tys, arm.pats), BindersOf(arm.pats));
  }

  // The binders' values have the types of the binders.
  ghost predicate BoundTo(cs: map<Name, Ctor>, tys: map<Name, Ty>, arm: Arm, f0: Frame, h: Memory, f: Frame) {
    var bound := AllRedeclared(tys, arm.pats);
    && Binds(bound, f0, f, Elems(BindersOf(arm.pats)))
    && forall x | x in Owning(arm.pats) :: x in f && x in bound && Tree(cs, h, f[x], bound[x])
  }

  // What the analysis takes the arm's body to start with.
  ghost predicate Handed(w: World, arm: Arm, byValue: bool, sc: Scope, own: set<Name>, s1: State, lent: set<nat>,
      flight: set<nat>) {
    Inv(w, ArmScope(arm, byValue, sc), own + ArmOwners(arm, byValue), s1, lent, flight)
  }

  // When a selected arm hands its body what the analysis takes it to have: if and
  // only if the owners bound are used at the types they are bound at. The binders
  // of a consuming arm own their parts; those of a borrowed one are aliases.
  lemma {:induction false} RetypedExactly(w: World, arm: Arm, owner: Name, byValue: bool, sc: Scope, own: set<Name>,
      s: State, lent: set<nat>, flight: set<nat>, v: Value)
    requires Scrutinised(w, sc, own, s, lent, flight, v, owner, byValue)
    requires TypedArm(w.p, w.tys, arm, owner, byValue, sc) && Distinct(BindersOf(arm.pats))
    requires s.heap[v.a].tag == arm.tag && AllMatch(arm.pats, ShapesOf(s.heap, s.heap[v.a].fields, v.a))
    ensures var b := BindPats(w.p.ctors, s.heap, Top(s), v.a, s.heap[v.a].fields, arm.pats, w.p.ctors[arm.tag].params,
        byValue, s.next);
      b.Bound? &&
        var s1, held := WithTop(s.(heap := b.h), b.f), flight + Shell(v, byValue) + Hidden(s, own, arm);
        && Stable(s, s1, |s.frames| - 1, lent + held)
        && (Handed(w, arm, byValue, sc, own, s1, lent, held) <==> OwnersUsedAsBound(w.tys, arm.pats, own))
  {
    hide Inv, Owns, AllRedeclared, BindPats, AllMatch, ShapesOf, TypedStmt, ArmScope, OwnersUsedAsBound, Cells, BoundTo,
      Hidden, Accepted, PatsTyped, Elems, Stable, Handed;
    Redeclares(w, arm);
    var b := BindPats(w.p.ctors, s.heap, Top(s), v.a, s.heap[v.a].fields, arm.pats, w.p.ctors[arm.tag].params, byValue,
      s.next);
    if byValue {
      ByValueBound(w, arm, owner, sc, own, s, lent, flight, v);
    } else {
      BorrowedBound(w, arm, owner, sc, own, s, lent, flight, v);
    }
    var s1, held := WithTop(s.(heap := b.h), b.f), flight + Shell(v, byValue) + Hidden(s, own, arm);
    if Handed(w, arm, byValue, sc, own, s1, lent, held) {
      HandedMeansUsed(w, arm, byValue, sc, own, s, s1, lent, held);
    }
  }

  lemma {:induction false} HandedMeansUsed(w: World, arm: Arm, byValue: bool, sc: Scope, own: set<Name>, s: State,
      s1: State, lent: set<nat>, flight: set<nat>)
    requires Accepted(w.p) && arm.tag in w.p.ctors && PatsTyped(w.p, arm.pats, w.p.ctors[arm.tag].params)
    requires Distinct(BindersOf(arm.pats)) && s.frames != []
    requires Handed(w, arm, byValue, sc, own, s1, lent, flight)
    requires BoundTo(w.p.ctors, w.tys, arm, Top(s), s1.heap, Top(s1))
    ensures OwnersUsedAsBound(w.tys, arm.pats, own)
  {
    hide AllRedeclared, Elems, Accepted, PatsTyped;
    Redeclares(w, arm);
    var bound, f := AllRedeclared(w.tys, arm.pats), Top(s1);
    forall x | x in Elems(BindersOf(arm.pats))
      ensures x in w.tys && !w.tys[x].TBorrow? && (IsOwn(bound[x]) || x in own ==> w.tys[x] == bound[x])
    {
      assert bound[x].TInt? ==> f[x].IntV?;
      if IsOwn(bound[x]) {
        assert x in Owning(arm.pats);
        OneType(w.p.ctors, s1.heap, f[x], w.tys[x], bound[x]);
      }
    }
  }

  lemma {:induction false} ByValueBound(w: World, arm: Arm, owner: Name, sc: Scope, own: set<Name>, s: State,
      lent: set<nat>, flight: set<nat>, v: Value)
    requires Scrutinised(w, sc, own, s, lent, flight, v, owner, true)
    requires TypedArm(w.p, w.tys, arm, owner, true, sc) && Distinct(BindersOf(arm.pats))
    requires s.heap[v.a].tag == arm.tag && AllMatch(arm.pats, ShapesOf(s.heap, s.heap[v.a].fields, v.a))
    ensures var b :=
      BindPats(w.p.ctors, s.heap, Top(s), v.a, s.heap[v.a].fields, arm.pats, w.p.ctors[arm.tag].params, true, s.next);
      b.Bound? &&
        var s1, held := WithTop(s.(heap := b.h), b.f), flight + Shell(v, true) + Hidden(s, own, arm);
        && BoundTo(w.p.ctors, w.tys, arm, Top(s), s1.heap, Top(s1))
        && Stable(s, s1, |s.frames| - 1, lent + held)
        && (OwnersUsedAsBound(w.tys, arm.pats, own) ==> Handed(w, arm, true, sc, own, s1, lent, held))
  {
    hide Owns, AllRedeclared, BindPats, AllMatch, ShapesOf, TypedStmt, Accepted, PatsTyped, Elems, Copies, ArmScope,
      CellsOwned;
    var bound, held := AllRedeclared(w.tys, arm.pats), flight + {v.a} + Hidden(s, own, arm);
    Redeclares(w, arm);
    InvMove(w, sc, own, s, lent, flight + Cells(s.heap, v), own * Elems(BindersOf(arm.pats)));
    OwnersHaveTypes(w, sc, own, s, lent, flight + Cells(s.heap, v));
    PayloadsTaken(w, bound, arm, sc, own, s, lent, flight, v);
    var b :=
      BindPats(w.p.ctors, s.heap, Top(s), v.a, s.heap[v.a].fields, arm.pats, w.p.ctors[arm.tag].params, true, s.next);
    PartsOwned(w, arm, sc, own, s, lent, held, b.h, b.f);
  }

  // The payloads have been taken apart: the binders own their parts.
  lemma {:induction false} PartsOwned(w: World, arm: Arm, sc: Scope, own: set<Name>, s: State, lent: set<nat>,
      flight: set<nat>, h: Memory, f: Frame)
    requires Accepted(w.p) && arm.tag in w.p.ctors && PatsTyped(w.p, arm.pats, w.p.ctors[arm.tag].params)
    requires Distinct(BindersOf(arm.pats))
    requires s.frames != [] && Copies(w, sc, s, lent)
    requires own <= sc.names && own !! sc.aliases && lent !! flight
    requires (forall x | x in own :: IsOwnVar(w.tys, x)) && forall a | a in s.heap :: a < s.next
    requires var bs := Elems(BindersOf(arm.pats));
      TakenApart(w.p.ctors, AllRedeclared(w.tys, arm.pats), s.heap, Top(s), own - own * bs, lent + flight,
        BindersOf(arm.pats), h, f)
    ensures var s1 := WithTop(s.(heap := h), f);
      && BoundTo(w.p.ctors, w.tys, arm, Top(s), s1.heap, Top(s1))
      && Stable(s, s1, |s.frames| - 1, lent + flight)
      && (OwnersUsedAsBound(w.tys, arm.pats, own) ==> Handed(w, arm, true, sc, own, s1, lent, flight))
  {
    hide AllRedeclared, Accepted, PatsTyped, Elems, Copies, Tree, Cells, CellsOwned;
    var bs, s1, bound := Elems(BindersOf(arm.pats)), WithTop(s.(heap := h), f), AllRedeclared(w.tys, arm.pats);
    Redeclares(w, arm);
    if OwnersUsedAsBound(w.tys, arm.pats, own) {
      CopiesHanded(w, sc, s, s1, lent, arm, true);
      var all := own + Owning(arm.pats);
      assert own - own * bs + Owning(arm.pats) == all;
      OwnsRetyped(w.p.ctors, bound, w.tys, h, f, all, lent + flight);
    }
  }

  lemma {:induction false} BorrowedBound(w: World, arm: Arm, owner: Name, sc: Scope, own: set<Name>, s: State,
      lent: set<nat>, flight: set<nat>, v: Value)
    requires Scrutinised(w, sc, own, s, lent, flight, v, owner, false)
    requires TypedArm(w.p, w.tys, arm, owner, false, sc) && Distinct(BindersOf(arm.pats))
    requires s.heap[v.a].tag == arm.tag && AllMatch(arm.pats, ShapesOf(s.heap, s.heap[v.a].fields, v.a))
    ensures var b :=
      BindPats(w.p.ctors, s.heap, Top(s), v.a, s.heap[v.a].fields, arm.pats, w.p.ctors[arm.tag].params, false, s.next);
      b.Bound? &&
        var s1, held := WithTop(s.(heap := b.h), b.f), flight + Shell(v, false) + Hidden(s, own, arm);
        && BoundTo(w.p.ctors, w.tys, arm, Top(s), s1.heap, Top(s1))
        && Stable(s, s1, |s.frames| - 1, lent + held)
        && (OwnersUsedAsBound(w.tys, arm.pats, own) ==> Handed(w, arm, false, sc, own, s1, lent, held))
  {
    hide AllRedeclared, BindPats, AllMatch, ShapesOf, TypedStmt, Accepted, PatsTyped, Elems, Copies, Owns, CellsOwned,
      ArmScope;
    var bs, bound, f := Elems(BindersOf(arm.pats)), AllRedeclared(w.tys, arm.pats), Top(s);
    Redeclares(w, arm);
    BindsAlias(w.p, bound, s.heap, f, v.a, s.heap[v.a].fields, arm.pats, w.p.ctors[arm.tag].params, v.a, s.next);
    var b :=
      BindPats(w.p.ctors, s.heap, f, v.a, s.heap[v.a].fields, arm.pats, w.p.ctors[arm.tag].params, false, s.next);
    PartsAliased(w, arm, owner, sc, own, s, lent, flight, b.f);
  }

  // An owner of the name would have to be one that is bound, and those are new.
  lemma {:induction false} OwnersElsewhere(w: World, arm: Arm, owner: Name, sc: Scope, own: set<Name>,
      s: State)
    requires s.frames != []
    requires Accepted(w.p) && TypedArm(w.p, w.tys, arm, owner, false, sc) && Distinct(BindersOf(arm.pats))
    requires own <= sc.names && forall x | x in own :: IsOwnVar(w.tys, x)
    requires OwnersUsedAsBound(w.tys, arm.pats, own)
    ensures own !! Elems(BindersOf(arm.pats)) && Hidden(s, own, arm) == {}
    ensures own + ArmOwners(arm, false) == own
  {
    hide AllRedeclared, TypedStmt, Accepted, PatsTyped;
    Redeclares(w, arm);
    assert own * Elems(BindersOf(arm.pats)) == {};
  }

  lemma HiddenLive(s: State, own: set<Name>, arm: Arm)
    requires s.frames != []
    ensures Hidden(s, own, arm) <= s.heap.Keys
  {
    CellsOwnedLive(s.heap, Top(s), own * Elems(BindersOf(arm.pats)));
  }

  // The parts stay where they are: the binders are names for them.
  lemma {:induction false} PartsAliased(w: World, arm: Arm, owner: Name, sc: Scope, own: set<Name>, s: State,
      lent: set<nat>, flight: set<nat>, f: Frame)
    requires Setting(w) && Inv(w, sc, own, s, lent, flight)
    requires TypedArm(w.p, w.tys, arm, owner, false, sc) && Distinct(BindersOf(arm.pats))
    requires var bound := AllRedeclared(w.tys, arm.pats);
      && Binds(bound, Top(s), f, Elems(BindersOf(arm.pats)))
      && forall x | x in Elems(BindersOf(arm.pats)) ::
        (x in bound && Tree(w.p.ctors, s.heap, f[x], bound[x]) && Cells(s.heap, f[x]) <= lent)
    ensures var s1, held := WithTop(s, f), flight + {} + Hidden(s, own, arm);
      && BoundTo(w.p.ctors, w.tys, arm, Top(s), s1.heap, Top(s1))
      && Stable(s, s1, |s.frames| - 1, lent + held)
      && (OwnersUsedAsBound(w.tys, arm.pats, own) ==> Handed(w, arm, false, sc, own, s1, lent, held))
  {
    hide AllRedeclared, TypedStmt, Accepted, PatsTyped, Elems, Copies, Tree, Cells, Hidden, CellsOwned, Lends;
    var bs, s1, bound := Elems(BindersOf(arm.pats)), WithTop(s, f), AllRedeclared(w.tys, arm.pats);
    Redeclares(w, arm);
    HiddenLive(s, own, arm);
    if OwnersUsedAsBound(w.tys, arm.pats, own) {
      OwnersElsewhere(w, arm, owner, sc, own, s);
      assert flight + {} + {} == flight;
      CopiesHanded(w, sc, s, s1, lent, arm, false);
      OwnsCarry(w.p.ctors, w.tys, s.heap, Top(s), own, lent + flight, s.heap, f, lent + flight);
    }
  }

  // Taking the payloads apart goes by the types of the binders.
  lemma {:induction false} PayloadsTaken(w: World, bound: map<Name, Ty>, arm: Arm, sc: Scope, own: set<Name>, s: State,
      lent: set<nat>, flight: set<nat>, v: Value)
    requires arm.tag in w.p.ctors && PatsTyped(w.p, arm.pats, w.p.ctors[arm.tag].params)
    requires AllUsedAsBound(bound, arm.pats) && Distinct(BindersOf(arm.pats))
    requires forall x | x in own && x !in Elems(BindersOf(arm.pats)) :: x in bound && x in w.tys && bound[x] == w.tys[x]
    requires Inv(w, sc, own, s, lent, flight + Cells(s.heap, v)) && Cells(s.heap, v) !! lent + flight
    requires Tree(w.p.ctors, s.heap, v, TSum(w.p.ctors[arm.tag].owner)) && s.heap[v.a].tag == arm.tag
    requires AllMatch(arm.pats, ShapesOf(s.heap, s.heap[v.a].fields, v.a))
    ensures var r :=
      BindPats(w.p.ctors, s.heap, Top(s), v.a, s.heap[v.a].fields, arm.pats, w.p.ctors[arm.tag].params, true, s.next);
      r.Bound? &&
        TakenApart(w.p.ctors, bound, s.heap, Top(s), own - own * Elems(BindersOf(arm.pats)),
          lent + (flight + {v.a} + Hidden(s, own, arm)), BindersOf(arm.pats), r.h, r.f)
  {
    hide Copies, Lends, Owns, TakenApart, AllMatch, ShapesOf, BindPats, OwnBinders;
    var cs, names, f := w.p.ctors, BindersOf(arm.pats), Top(s);
    var bs, hid := Elems(names), Hidden(s, own, arm);
    var fields, ts := s.heap[v.a].fields, w.p.ctors[arm.tag].params;
    var own1, others := own - own * bs, lent + (flight + {v.a} + hid);
    OwnSetIs(bound, names);
    CellsLive(s.heap, v);
    CellsOfLive(s.heap, fields, v.a);
    InvMove(w, sc, own, s, lent, flight + Cells(s.heap, v), own * bs);
    assert lent + (flight + Cells(s.heap, v) + hid) == others + CellsOf(s.heap, fields, v.a);
    OwnsRetyped(cs, w.tys, bound, s.heap, f, own1, others + CellsOf(s.heap, fields, v.a));
    var lost := BindsConsume(w.p, bound, s.heap, f, own1, others, v.a, fields, arm.pats, ts, v.a, s.next);
    assert FreshBinders(bound, names, own1);
    assert others + lost == others;
  }

  lemma OwnersHaveTypes(w: World, sc: Scope, own: set<Name>, s: State, lent: set<nat>, flight: set<nat>)
    requires Inv(w, sc, own, s, lent, flight)
    ensures s.frames != [] && forall x | x in own :: IsOwnVar(w.tys, x)
  {
  }

  lemma OwnsRetyped(cs: map<Name, Ctor>, tys: map<Name, Ty>, tys': map<Name, Ty>, h: Memory, f: Frame, own: set<Name>,
      others: set<nat>)
    requires Owns(cs, tys, h, f, own, others)
    requires forall x | x in own :: x in tys' && tys'[x] == tys[x]
    ensures Owns(cs, tys', h, f, own, others)
  {
  }

  // The names bound at a type that does not own of which the arm's body has made
  // owners. Nothing is put back for them when the arm ends.
  function Unsaved(arm: Arm, out: StateMap): set<Name> {
    OwnedIn(out) * (Elems(BindersOf(arm.pats)) - Owning(arm.pats))
  }

  // What an arm that is handed what the analysis takes it to have comes to, when
  // its body has run to its end. The owners after it are the planned ones but for
  // the unsaved; what these held is held by nobody; and the plan fits if and only
  // if none is unsaved, or variables that own nothing still hold, by chance, what
  // the unsaved held.
  lemma {:induction false} RetypedEndsExactly(w: World, arm: Arm, owner: Name, byValue: bool, sc: Scope, st: StateMap,
      d: set<Name>, s: State, lent: set<nat>, flight: set<nat>, v: Value, fuel: nat)
    requires Scrutinised(w, sc, OwnedIn(st), s, lent, flight, v, owner, byValue)
    requires d <= st.Keys && WfArm(w.p, w.tys, arm, owner, byValue, sc, d)
    requires AnalyzeArm(w.p, w.tys, arm, byValue, st).Some?
    requires Distinct(BindersOf(arm.pats)) && OwnersUsedAsBound(w.tys, arm.pats, OwnedIn(st))
    requires s.heap[v.a].tag == arm.tag && AllMatch(arm.pats, ShapesOf(s.heap, s.heap[v.a].fields, v.a))
    requires var b := BindPats(w.p.ctors, s.heap, Top(s), v.a, s.heap[v.a].fields, arm.pats, w.p.ctors[arm.tag].params,
        byValue, s.next);
      b.Bound? &&
      var a := AnalyzeStmt(w.p, w.tys, arm.body, SetOwned(st, ArmBinders(arm, byValue))).value;
      Exec(w, a.code, WithTop(s.(heap := b.h), b.f), fuel).Done?
    ensures var b := BindPats(w.p.ctors, s.heap, Top(s), v.a, s.heap[v.a].fields, arm.pats, w.p.ctors[arm.tag].params,
        byValue, s.next);
      var a := AnalyzeArm(w.p, w.tys, arm, byValue, st).value;
      var out := AnalyzeStmt(w.p, w.tys, arm.body, SetOwned(st, ArmBinders(arm, byValue))).value.st;
      var r := Exec(Real(w), a.code.body, WithTop(s.(heap := b.h), b.f), fuel);
      !r.Fault? && (r.Done? ==>
        LeftAs(w, arm, sc, OwnedIn(a.st), Unsaved(arm, out), s, r.s, lent, flight + Shell(v, byValue)))
  {
    hide Inv, Owns, AllRedeclared, BindPats, AllMatch, ShapesOf, ArmScope, OwnersUsedAsBound, Cells, Hidden, Accepted,
      PatsTyped, Stable, Exec, AnalyzeStmt, LeftAs, Unsaved, AssignedStmt, TypedStmt, OwnedIn;
    var b := BindPats(w.p.ctors, s.heap, Top(s), v.a, s.heap[v.a].fields, arm.pats, w.p.ctors[arm.tag].params, byValue,
      s.next);
    var bs, s1, held := ArmBinders(arm, byValue), WithTop(s.(heap := b.h), b.f),
      flight + Shell(v, byValue) + Hidden(s, OwnedIn(st), arm);
    var out := AnalyzeStmt(w.p, w.tys, arm.body, SetOwned(st, bs)).value.st;
    RetypedExactly(w, arm, owner, byValue, sc, OwnedIn(st), s, lent, flight, v);
    EnteredState(st, bs);
    OwnedAsUsed(w, arm, OwnedIn(st));
    LeftoverIs(ArmOwned(arm, byValue), out);
    BodyThenDestroys(w, arm, byValue, st, s1, fuel);
    BodySafe(w, arm, byValue, sc, st, d + ArmOwners(arm, byValue), s1, lent, held, fuel);
    var r := Exec(Real(w), AnalyzeArm(w.p, w.tys, arm, byValue, st).value.code.body, s1, fuel);
    if r.Done? {
      LeaveRetyped(w, arm, owner, byValue, sc, st, out, s, s1, r.s, lent, flight, v);
    }
  }

  // What the arm leaves behind, and when that is what was planned.
  ghost predicate LeftAs(w: World, arm: Arm, sc: Scope, planned: set<Name>, unsaved: set<Name>, s: State, s2: State,
      lent: set<nat>, flight: set<nat>)
    requires s.frames != [] && s2.frames != []
  {
    var s3, lost := WithTop(s2, Unshadow(Top(s2), BindersOf(arm.pats), Top(s))), CellsOwned(s2.heap, Top(s2), unsaved);
    && unsaved <= planned
    && lost !! lent + flight && (lost == {} <==> unsaved == {})
    && Inv(w, sc, planned - unsaved, s3, lent, flight + lost)
    && Stable(s, s3, |s.frames| - 1, lent + flight)
    && (Ran(w, sc, planned, s, s3, lent, flight) <==>
        unsaved == {} || Repossessed(w, planned, planned - unsaved, s3, Held(Top(s2), unsaved)))
    && (NoStale(s3, unsaved) ==> (Ran(w, sc, planned, s, s3, lent, flight) <==> unsaved == {}))
  }

  lemma {:induction false} OwnedAsUsed(w: World, arm: Arm, own: set<Name>)
    requires Accepted(w.p) && arm.tag in w.p.ctors && PatsTyped(w.p, arm.pats, w.p.ctors[arm.tag].params)
    requires Distinct(BindersOf(arm.pats)) && OwnersUsedAsBound(w.tys, arm.pats, own)
    ensures TypedAs(w.tys, OwnedBindersOf(arm.pats)) && Distinct(Names(OwnedBindersOf(arm.pats)))
    ensures forall x | x in Elems(BindersOf(arm.pats)) :: x in w.tys && !w.tys[x].TBorrow?
  {
    hide AllRedeclared, Accepted, PatsTyped;
    Redeclares(w, arm);
    var bs := OwnedBindersOf(arm.pats);
    forall b | b in Elems(bs)
      ensures b.x in w.tys && w.tys[b.x] == b.ty
    {
      NamedBy(bs, b);
    }
  }

  lemma {:induction false} NamedBy(bs: List<Binder>, b: Binder)
    requires b in Elems(bs)
    ensures b.x in Elems(Names(bs))
    decreases bs
  {
    if b != bs.head {
      NamedBy(bs.tail, b);
    }
  }

  // The analysis puts back the entries of owners only.
  lemma {:induction false} PlannedBesides(w: World, arm: Arm, owner: Name, byValue: bool, sc: Scope, st: StateMap,
      out: StateMap)
    requires Accepted(w.p) && TypedArm(w.p, w.tys, arm, owner, byValue, sc) && Distinct(BindersOf(arm.pats))
    requires OwnedIn(st) <= sc.names && forall x | x in OwnedIn(st) :: IsOwnVar(w.tys, x)
    requires OwnersUsedAsBound(w.tys, arm.pats, OwnedIn(st))
    requires OwnedIn(out) - ArmOwners(arm, byValue) !! ArmScope(arm, byValue, sc).aliases
    ensures var bs, own2 := Elems(BindersOf(arm.pats)), OwnedIn(out) - ArmOwners(arm, byValue);
      var planned, unsaved := OwnedIn(Restore(out, ArmBinders(arm, byValue), st)), Unsaved(arm, out);
      && unsaved <= own2 && unsaved <= planned && own2 - unsaved !! bs
      && planned - unsaved == (own2 - unsaved) + OwnedIn(st) * bs
  {
    hide AllRedeclared, TypedStmt, Accepted, PatsTyped, Restore, OwnedIn;
    Redeclares(w, arm);
    RestoredState(out, ArmBinders(arm, byValue), st);
    DistinctRepeatsNone(ArmBinders(arm, byValue));
    assert OwnedIn(st) * Elems(BindersOf(arm.pats)) <= Owning(arm.pats);
  }

  lemma {:induction false} LeaveRetyped(w: World, arm: Arm, owner: Name, byValue: bool, sc: Scope, st: StateMap,
      out: StateMap, s: State, s1: State, s2: State, lent: set<nat>, flight: set<nat>, v: Value)
    requires Scrutinised(w, sc, OwnedIn(st), s, lent, flight, v, owner, byValue)
    requires TypedArm(w.p, w.tys, arm, owner, byValue, sc) && Distinct(BindersOf(arm.pats))
    requires OwnersUsedAsBound(w.tys, arm.pats, OwnedIn(st))
    requires var held := flight + Shell(v, byValue) + Hidden(s, OwnedIn(st), arm);
      && Stable(s, s1, |s.frames| - 1, lent + held)
      && Ran(w, ArmScope(arm, byValue, sc), OwnedIn(out) - ArmOwners(arm, byValue), s1, s2, lent, held)
    ensures LeftAs(w, arm, sc, OwnedIn(Restore(out, ArmBinders(arm, byValue), st)), Unsaved(arm, out), s, s2, lent,
      flight + Shell(v, byValue))
  {
    hide AllRedeclared, TypedStmt, Accepted, PatsTyped, Restore, OwnedIn, Owns, Copies, Unsaved, OwnersUsedAsBound,
      ArmOwners, Elems, LeftAs;
    var sc1, own2 := ArmScope(arm, byValue, sc), OwnedIn(out) - ArmOwners(arm, byValue);
    var hid, held := Hidden(s, OwnedIn(st), arm), flight + Shell(v, byValue);
    var flight0 := if byValue then flight + Cells(s.heap, v) else flight;
    OwnersHaveTypes(w, sc, OwnedIn(st), s, lent, flight0);
    PlannedBesides(w, arm, owner, byValue, sc, st, out);
    OwnedAsUsed(w, arm, OwnedIn(st));
    var unsaved := Unsaved(arm, out);
    var lost := CellsOwned(s2.heap, Top(s2), unsaved);
    SetAside(w, sc, OwnedIn(st), s, lent, flight, v, owner, byValue, arm);
    InvMove(w, sc1, own2, s2, lent, held + hid, unsaved);
    assert held + hid + lost == held + lost + hid;
    StableTrans(s, s1, s2, |s.frames| - 1, lent + (held + hid));
    LeaveArm(w, sc, sc1, OwnedIn(st), own2 - unsaved, s, s2, lent, flight0, held, lost, BindersOf(arm.pats));
    InvMove(w, sc1, own2, s2, lent, held + hid, own2 - unsaved);
    assert own2 - (own2 - unsaved) == unsaved;
    PlanFits(w, arm, sc, OwnedIn(Restore(out, ArmBinders(arm, byValue), st)), unsaved, s, s2, lent, held,
      lent + (held + hid + CellsOwned(s2.heap, Top(s2), own2 - unsaved)));
  }

  lemma {:induction false} SetAside(w: World, sc: Scope, own: set<Name>, s: State, lent: set<nat>, flight: set<nat>,
      v: Value, owner: Name, byValue: bool, arm: Arm)
    requires Scrutinised(w, sc, own, s, lent, flight, v, owner, byValue)
    ensures Hidden(s, own, arm) !! lent + flight + Shell(v, byValue)
  {
    hide Copies, Owns, Elems, CellsOwned;
    var flight0 := if byValue then flight + Cells(s.heap, v) else flight;
    InvMove(w, sc, own, s, lent, flight0, own * Elems(BindersOf(arm.pats)));
  }

  lemma {:induction false} PlanFits(w: World, arm: Arm, sc: Scope, planned: set<Name>, unsaved: set<Name>, s: State,
      s2: State, lent: set<nat>, flight: set<nat>, others: set<nat>)
    requires s.frames != [] && s2.frames != [] && unsaved <= planned
    requires Owns(w.p.ctors, w.tys, s2.heap, Top(s2), unsaved, others)
    requires var s3 := WithTop(s2, Unshadow(Top(s2), BindersOf(arm.pats), Top(s)));
      var lost := CellsOwned(s2.heap, Top(s2), unsaved);
      && lost !! lent + flight && Inv(w, sc, planned - unsaved, s3, lent, flight + lost)
      && Stable(s, s3, |s.frames| - 1, lent + flight)
    ensures LeftAs(w, arm, sc, planned, unsaved, s, s2, lent, flight)
  {
    hide Owns, Copies, Repossessed, NoStale, Stable, Cells, Elems;
    var s3, left := WithTop(s2, Unshadow(Top(s2), BindersOf(arm.pats), Top(s))), Held(Top(s2), unsaved);
    OwnersAreFamily(w.p.ctors, w.tys, s2.heap, Top(s2), unsaved, others);
    OwnersHaveCells(w.p.ctors, w.tys, s2.heap, Top(s2), unsaved, others);
    TakenOverExactly(w, sc, planned - unsaved, planned, s3, lent, flight, left);
    assert planned - (planned - unsaved) == unsaved;
    if NoStale(s3, unsaved) {
      FreshOwnersExactly(w, sc, planned - unsaved, planned, s3, lent, flight, left);
    }
    if unsaved == {} {
      assert planned - unsaved == planned && flight + {} == flight;
    }
  }

  lemma OwnersHaveCells(cs: map<Name, Ctor>, tys: map<Name, Ty>, h: Memory, f: Frame, own: set<Name>, others: set<nat>)
    requires Owns(cs, tys, h, f, own, others)
    ensures CellsOwned(h, f, own) == {} <==> own == {}
  {
    forall x | x in own
      ensures f[x].a in CellsOwned(h, f, own)
    {
      assert f[x].a in Cells(h, f[x]);
    }
  }
}
