/** When an expression is accepted. */
module Events {
  import opened Optional
  import opened Syntax
  import opened Moves
  import opened Facts

  // A moved variable is not named again, and none is moved that a call in progress has
  // been lent: said of the uses, moves and calls of an expression in the order in
  // which it makes them.

  // A call is entered, with what its actuals lend, before they are evaluated.
  datatype Event = Uses(x: Name) | Moves(x: Name) | Enters(lent: set<Name>) | Returns(lent: set<Name>)

  // -------------------------------------------------------------------------
  // What an expression does
  // -------------------------------------------------------------------------

  function Parts(e: Expr): set<Expr> {
    {e} + match e
          case Bin(_, l, r) => Parts(l) + Parts(r)
          case Alloc(i) => Parts(i)
          case New(_, args) => AllParts(args)
          case Call(_, args) => AllParts(args)
          case Deref(q) => Parts(q)
          case _ => {}
  }

  function AllParts(es: List<Expr>): set<Expr> {
    match es
    case Nil => {}
    case Cons(e, t) => Parts(e) + AllParts(t)
  }

  // What the actuals of a call lend, at any depth.
  function LentBy(es: List<Expr>): set<Name> {
    set q | q in AllParts(es) && q.Borrow? :: q.owner
  }

  function Naming(tys: map<Name, Ty>, x: Name): seq<Event> {
    if IsOwnVar(tys, x) then [Uses(x)] else []
  }

  function EventsOf(p: Program, tys: map<Name, Ty>, e: Expr): seq<Event>
    decreases e, 1
  {
    match e
    case Num(_) => []
    case Input => []
    case Var(x) => Naming(tys, x)
    case Borrow(x) => Naming(tys, x)
    case Bin(_, l, r) => EventsOf(p, tys, l) + EventsOf(p, tys, r)
    case Alloc(i) => EventsOf(p, tys, i)
    case Deref(q) => EventsOf(p, tys, q)
    case New(_, args) => EventsOfAll(p, tys, args, AllTaken(args))
    case Call(f, args) =>
      [Enters(LentBy(args))] + EventsOfAll(p, tys, args, Consumes(p, f)) + [Returns(LentBy(args))]
  }

  function EventsOfAll(p: Program, tys: map<Name, Ty>, es: List<Expr>, takes: List<bool>): seq<Event>
    decreases es, 0
  {
    match es
    case Nil => []
    case Cons(e, t) =>
      (if takes.Cons? && takes.head && e.Var? && IsOwnVar(tys, e.x) then [Moves(e.x)] else EventsOf(p, tys, e))
      + EventsOfAll(p, tys, t, if takes.Cons? then takes.tail else Nil)
  }

  // The same when the value is taken.
  function TakeEvents(p: Program, tys: map<Name, Ty>, e: Expr): seq<Event> {
    if e.Var? && IsOwnVar(tys, e.x) then [Moves(e.x)] else EventsOf(p, tys, e)
  }

  function MovesIn(evs: seq<Event>): set<Name> {
    set ev | ev in evs && ev.Moves? :: ev.x
  }

  // How many calls that were lent x have been entered and not returned.
  function Lending(evs: seq<Event>, x: Name): int {
    if evs == [] then 0
    else
      var last := evs[|evs| - 1];
      Lending(evs[..|evs| - 1], x) +
        (if last.Enters? && x in last.lent then 1 else if last.Returns? && x in last.lent then -1 else 0)
  }

  // No variable is named once it has been moved, before or in the course of the
  // events, and none is moved while a call has it.
  ghost predicate Lawful(moved: set<Name>, evs: seq<Event>) {
    forall j | 0 <= j < |evs| :: LawfulAt(moved, evs[..j], evs[j])
  }

  ghost predicate LawfulAt(moved: set<Name>, before: seq<Event>, ev: Event) {
    && (ev.Uses? ==> ev.x !in moved && Moves(ev.x) !in before)
    && (ev.Moves? ==> ev.x !in moved && Moves(ev.x) !in before && Lending(before, ev.x) == 0)
  }

  // -------------------------------------------------------------------------
  // One list after another, and a list inside a call
  // -------------------------------------------------------------------------

  lemma {:induction false} LendingAppend(a: seq<Event>, b: seq<Event>, x: Name)
    ensures Lending(a + b, x) == Lending(a, x) + Lending(b, x)
    decreases |b|
  {
    if b == [] {
      assert a + b == a;
    } else {
      var last := |b| - 1;
      assert (a + b)[..|a + b| - 1] == a + b[..last];
      LendingAppend(a, b[..last], x);
    }
  }

  // Every call entered has returned, and none returns before it was entered.
  ghost predicate Balanced(evs: seq<Event>) {
    && (forall x :: Lending(evs, x) == 0)
    && forall j, x | 0 <= j <= |evs| :: Lending(evs[..j], x) >= 0
  }

  lemma {:induction false} BalancedAppend(a: seq<Event>, b: seq<Event>)
    requires Balanced(a) && Balanced(b)
    ensures Balanced(a + b)
  {
    forall x
      ensures Lending(a + b, x) == 0
    {
      LendingAppend(a, b, x);
    }
    forall j, x | 0 <= j <= |a + b|
      ensures Lending((a + b)[..j], x) >= 0
    {
      if j <= |a| {
        assert (a + b)[..j] == a[..j];
      } else {
        assert (a + b)[..j] == a + b[..j - |a|];
        LendingAppend(a, b[..j - |a|], x);
      }
    }
  }

  lemma {:induction false} LendingOne(ev: Event, x: Name)
    ensures Lending([ev], x) ==
      if ev.Enters? && x in ev.lent then 1 else if ev.Returns? && x in ev.lent then -1 else 0
  {
    assert [ev][..0] == [];
  }

  lemma {:induction false} InsideLends(lent: set<Name>, a: seq<Event>, j: nat, x: Name)
    requires j <= |a|
    ensures Lending(([Enters(lent)] + a)[..j + 1], x) == Lending(a[..j], x) + if x in lent then 1 else 0
  {
    assert ([Enters(lent)] + a)[..j + 1] == [Enters(lent)] + a[..j];
    LendingAppend([Enters(lent)], a[..j], x);
    LendingOne(Enters(lent), x);
  }

  lemma {:induction false} BalancedCall(lent: set<Name>, a: seq<Event>)
    requires Balanced(a)
    ensures Balanced([Enters(lent)] + a + [Returns(lent)])
  {
    var evs := [Enters(lent)] + a + [Returns(lent)];
    forall x
      ensures Lending(evs, x) == 0
    {
      InsideLends(lent, a, |a|, x);
      assert a[..|a|] == a && ([Enters(lent)] + a)[..|a| + 1] == [Enters(lent)] + a;
      assert evs[..|evs| - 1] == [Enters(lent)] + a;
    }
    forall j, x | 0 <= j <= |evs|
      ensures Lending(evs[..j], x) >= 0
    {
      if j == |evs| {
        assert evs[..j] == evs;
      } else if j > 0 {
        assert evs[..j] == ([Enters(lent)] + a)[..(j - 1) + 1];
        InsideLends(lent, a, j - 1, x);
      }
    }
  }

  lemma {:induction false} EventsBalanced(p: Program, tys: map<Name, Ty>, e: Expr)
    ensures Balanced(EventsOf(p, tys, e))
    decreases e, 1
  {
    match e
    case Num(_) => NothingBalanced();
    case Input => NothingBalanced();
    case Var(x) => NamingBalanced(tys, x);
    case Borrow(x) => NamingBalanced(tys, x);
    case Bin(_, l, r) =>
      EventsBalanced(p, tys, l);
      EventsBalanced(p, tys, r);
      BalancedAppend(EventsOf(p, tys, l), EventsOf(p, tys, r));
    case Alloc(i) => EventsBalanced(p, tys, i);
    case Deref(q) => EventsBalanced(p, tys, q);
    case New(_, args) => AllEventsBalanced(p, tys, args, AllTaken(args));
    case Call(f, args) =>
      AllEventsBalanced(p, tys, args, Consumes(p, f));
      BalancedCall(LentBy(args), EventsOfAll(p, tys, args, Consumes(p, f)));
  }

  lemma NothingBalanced()
    ensures Balanced([])
  {
  }

  lemma {:induction false} SingleBalanced(ev: Event)
    requires ev.Uses? || ev.Moves?
    ensures Balanced([ev])
  {
    forall x
      ensures Lending([ev], x) == 0
    {
      LendingOne(ev, x);
    }
    assert [ev][..0] == [] && [ev][..1] == [ev];
  }

  lemma NamingBalanced(tys: map<Name, Ty>, x: Name)
    ensures Balanced(Naming(tys, x))
  {
    SingleBalanced(Uses(x));
    NothingBalanced();
  }

  lemma {:induction false} AllEventsBalanced(p: Program, tys: map<Name, Ty>, es: List<Expr>, takes: List<bool>)
    ensures Balanced(EventsOfAll(p, tys, es, takes))
    decreases es, 0
  {
    match es
    case Nil => NothingBalanced();
    case Cons(e, t) =>
      var rest := if takes.Cons? then takes.tail else Nil;
      AllEventsBalanced(p, tys, t, rest);
      if takes.Cons? && takes.head && e.Var? && IsOwnVar(tys, e.x) {
        SingleBalanced(Moves(e.x));
        BalancedAppend([Moves(e.x)], EventsOfAll(p, tys, t, rest));
      } else {
        EventsBalanced(p, tys, e);
        BalancedAppend(EventsOf(p, tys, e), EventsOfAll(p, tys, t, rest));
      }
  }

  lemma {:induction false} LawfulAppend(moved: set<Name>, a: seq<Event>, b: seq<Event>)
    requires Balanced(a)
    ensures Lawful(moved, a + b) <==> Lawful(moved, a) && Lawful(moved + MovesIn(a), b)
    ensures MovesIn(a + b) == MovesIn(a) + MovesIn(b)
  {
    forall j | 0 <= j < |a|
      ensures LawfulAt(moved, (a + b)[..j], (a + b)[j]) <==> LawfulAt(moved, a[..j], a[j])
    {
      assert (a + b)[..j] == a[..j] && (a + b)[j] == a[j];
    }
    forall j | 0 <= j < |b|
      ensures LawfulAt(moved, (a + b)[..|a| + j], (a + b)[|a| + j]) <==> LawfulAt(moved + MovesIn(a), b[..j], b[j])
    {
      assert (a + b)[..|a| + j] == a + b[..j] && (a + b)[|a| + j] == b[j];
      if b[j].Moves? {
        LendingAppend(a, b[..j], b[j].x);
      }
      if b[j].Moves? || b[j].Uses? {
        assert Moves(b[j].x) in a <==> b[j].x in MovesIn(a);
      }
    }
    if Lawful(moved, a + b) {
      forall j | 0 <= j < |b|
        ensures LawfulAt(moved + MovesIn(a), b[..j], b[j])
      {
        assert LawfulAt(moved, (a + b)[..|a| + j], (a + b)[|a| + j]);
      }
      forall j | 0 <= j < |a|
        ensures LawfulAt(moved, a[..j], a[j])
      {
        assert LawfulAt(moved, (a + b)[..j], (a + b)[j]);
      }
    }
    if Lawful(moved, a) && Lawful(moved + MovesIn(a), b) {
      forall j | 0 <= j < |a + b|
        ensures LawfulAt(moved, (a + b)[..j], (a + b)[j])
      {
        if j >= |a| {
          assert LawfulAt(moved + MovesIn(a), b[..j - |a|], b[j - |a|]);
          assert |a| + (j - |a|) == j;
        }
      }
    }
  }

  lemma {:induction false} LawfulCall(moved: set<Name>, lent: set<Name>, a: seq<Event>)
    requires Balanced(a)
    ensures var evs := [Enters(lent)] + a + [Returns(lent)];
      && (Lawful(moved, evs) <==> Lawful(moved, a) && MovesIn(a) !! lent)
      && MovesIn(evs) == MovesIn(a)
  {
    var evs := [Enters(lent)] + a + [Returns(lent)];
    forall j | 0 <= j < |a|
      ensures LawfulAt(moved, evs[..j + 1], evs[j + 1]) <==>
        LawfulAt(moved, a[..j], a[j]) && (a[j].Moves? ==> a[j].x !in lent)
    {
      assert evs[..j + 1] == ([Enters(lent)] + a)[..j + 1] == [Enters(lent)] + a[..j] && evs[j + 1] == a[j];
      if a[j].Moves? {
        InsideLends(lent, a, j, a[j].x);
      }
    }
    if Lawful(moved, evs) {
      forall j | 0 <= j < |a|
        ensures LawfulAt(moved, a[..j], a[j])
      {
        assert LawfulAt(moved, evs[..j + 1], evs[j + 1]);
      }
      forall x | x in MovesIn(a)
        ensures x !in lent
      {
        var j :| 0 <= j < |a| && a[j] == Moves(x);
        assert LawfulAt(moved, evs[..j + 1], evs[j + 1]);
      }
    }
    if Lawful(moved, a) && MovesIn(a) !! lent {
      forall j | 0 <= j < |evs|
        ensures LawfulAt(moved, evs[..j], evs[j])
      {
        if 0 < j <= |a| {
          assert a[j - 1] in a && (j - 1) + 1 == j;
          assert LawfulAt(moved, a[..j - 1], a[j - 1]);
        }
      }
    }
  }

  // -------------------------------------------------------------------------
  // Acceptance
  // -------------------------------------------------------------------------

  function MovedIn(st: StateMap): set<Name> {
    set x | x in st && st[x] == Moved
  }

  lemma {:induction false} LentIsBorrowed(e: Expr)
    ensures (set q | q in Parts(e) && q.Borrow? :: q.owner) == Borrowed(e)
    decreases e, 1
  {
    match e
    case Bin(_, l, r) =>
      LentIsBorrowed(l);
      LentIsBorrowed(r);
    case Alloc(i) => LentIsBorrowed(i);
    case New(_, args) => AllLentAreBorrowed(args);
    case Call(_, args) => AllLentAreBorrowed(args);
    case Deref(q) => LentIsBorrowed(q);
    case _ =>
  }

  lemma {:induction false} AllLentAreBorrowed(es: List<Expr>)
    ensures LentBy(es) == BorrowedIn(es)
    decreases es, 0
  {
    if es.Cons? {
      LentIsBorrowed(es.head);
      AllLentAreBorrowed(es.tail);
      assert LentBy(es) == (set q | q in Parts(es.head) && q.Borrow? :: q.owner) + LentBy(es.tail);
    }
  }

  lemma {:induction false} NamedExactly(tys: map<Name, Ty>, x: Name, moved: set<Name>)
    ensures Lawful(moved, Naming(tys, x)) <==> (IsOwnVar(tys, x) ==> x !in moved)
    ensures MovesIn(Naming(tys, x)) == {}
  {
    if IsOwnVar(tys, x) {
      assert LawfulAt(moved, [], Uses(x)) <==> x !in moved;
      assert [Uses(x)][..0] == [] && [Uses(x)][0] == Uses(x);
    }
  }

  lemma {:induction false} MovedExactly(x: Name, moved: set<Name>)
    ensures Lawful(moved, [Moves(x)]) <==> x !in moved
    ensures MovesIn([Moves(x)]) == {x}
  {
    assert LawfulAt(moved, [], Moves(x)) <==> x !in moved;
    assert [Moves(x)][..0] == [] && [Moves(x)][0] == Moves(x);
  }

  // With owners held by calls around it.
  lemma {:induction false} EvalAcceptedExactly(p: Program, tys: map<Name, Ty>, e: Expr, st: StateMap, held: set<Name>)
    ensures EvalExpr(p, tys, e, st, held).Some? <==>
      && Lawful(MovedIn(st), EventsOf(p, tys, e))
      && MovesIn(EventsOf(p, tys, e)) !! held
    ensures MovesIn(EventsOf(p, tys, e)) == MovedBy(p, tys, e)
    decreases e, 1
  {
    var evs := EventsOf(p, tys, e);
    match e
    case Num(_) =>
    case Input =>
    case Var(x) => NamedExactly(tys, x, MovedIn(st));
    case Borrow(x) => NamedExactly(tys, x, MovedIn(st));
    case Bin(_, l, r) =>
      EvalAcceptedExactly(p, tys, l, st, held);
      EventsBalanced(p, tys, l);
      LawfulAppend(MovedIn(st), EventsOf(p, tys, l), EventsOf(p, tys, r));
      var st1 := EvalExpr(p, tys, l, st, held);
      if st1.Some? {
        MovedAfter(p, tys, l, st, held);
        EvalAcceptedExactly(p, tys, r, st1.value, held);
      } else {
        EvalAcceptedExactly(p, tys, r, st, held);
      }
    case Alloc(i) => EvalAcceptedExactly(p, tys, i, st, held);
    case Deref(q) => EvalAcceptedExactly(p, tys, q, st, held);
    case New(_, args) => OperandsAcceptedExactly(p, tys, args, AllTaken(args), st, held);
    case Call(f, args) =>
      var inner := EventsOfAll(p, tys, args, Consumes(p, f));
      AllLentAreBorrowed(args);
      OperandsAcceptedExactly(p, tys, args, Consumes(p, f), st, held + BorrowedIn(args));
      AllEventsBalanced(p, tys, args, Consumes(p, f));
      LawfulCall(MovedIn(st), LentBy(args), inner);
  }

  lemma {:induction false} MovedAfter(p: Program, tys: map<Name, Ty>, e: Expr, st: StateMap, held: set<Name>)
    requires EvalExpr(p, tys, e, st, held).Some?
    ensures MovedIn(EvalExpr(p, tys, e, st, held).value) == MovedIn(st) + MovedBy(p, tys, e)
  {
    EvalMovesExactly(p, tys, e, st, held);
  }

  lemma {:induction false} OperandsAcceptedExactly(p: Program, tys: map<Name, Ty>, es: List<Expr>, takes: List<bool>,
      st: StateMap, held: set<Name>)
    ensures EvalOperands(p, tys, es, takes, st, held).Some? <==>
      && Lawful(MovedIn(st), EventsOfAll(p, tys, es, takes))
      && MovesIn(EventsOfAll(p, tys, es, takes)) !! held
    ensures MovesIn(EventsOfAll(p, tys, es, takes)) == MovedByAll(p, tys, es, takes)
    decreases es, 0
  {
    if es.Cons? {
      var e, taken, rest := es.head, takes.Cons? && takes.head, if takes.Cons? then takes.tail else Nil;
      var st1 := OperandState(p, tys, e, taken, st, held);
      var first := if taken && e.Var? && IsOwnVar(tys, e.x) then [Moves(e.x)] else EventsOf(p, tys, e);
      FirstOperand(p, tys, e, taken, st, held);
      LawfulAppend(MovedIn(st), first, EventsOfAll(p, tys, es.tail, rest));
      OperandsAcceptedExactly(p, tys, es.tail, rest, if st1.Some? then st1.value else st, held);
    }
  }

  lemma {:induction false} FirstOperand(p: Program, tys: map<Name, Ty>, e: Expr, taken: bool, st: StateMap,
      held: set<Name>)
    ensures var st1 := OperandState(p, tys, e, taken, st, held);
      var own := taken && e.Var? && IsOwnVar(tys, e.x);
      var evs := if own then [Moves(e.x)] else EventsOf(p, tys, e);
      && Balanced(evs)
      && (st1.Some? <==> Lawful(MovedIn(st), evs) && MovesIn(evs) !! held)
      && MovesIn(evs) == (if own then {e.x} else MovedBy(p, tys, e))
      && (st1.Some? ==> MovedIn(st1.value) == MovedIn(st) + MovesIn(evs))
    decreases e, 2
  {
    if taken && e.Var? && IsOwnVar(tys, e.x) {
      SingleBalanced(Moves(e.x));
      MovedExactly(e.x, MovedIn(st));
      assert MovedIn(st[e.x := Moved]) == MovedIn(st) + {e.x};
    } else {
      EventsBalanced(p, tys, e);
      EvalAcceptedExactly(p, tys, e, st, held);
      if OperandState(p, tys, e, taken, st, held).Some? {
        MovedAfter(p, tys, e, st, held);
      }
    }
  }

  // An expression is accepted if and only if nothing moved before is named in it,
  // nothing it moves is named in it again, and it moves nothing while a call that
  // was lent it has not returned.
  lemma {:induction false} ExpressionAcceptedExactly(p: Program, tys: map<Name, Ty>, e: Expr, st: StateMap)
    ensures EvalExpr(p, tys, e, st, {}).Some? <==> Lawful(MovedIn(st), EventsOf(p, tys, e))
  {
    EvalAcceptedExactly(p, tys, e, st, {});
  }

  lemma {:induction false} TakeAcceptedExactly(p: Program, tys: map<Name, Ty>, e: Expr, st: StateMap)
    ensures Take(p, tys, e, st).Some? <==> Lawful(MovedIn(st), TakeEvents(p, tys, e))
    ensures MovesIn(TakeEvents(p, tys, e)) == TakenBy(p, tys, e)
    ensures Take(p, tys, e, st).Some? ==> MovedIn(Take(p, tys, e, st).value) == MovedIn(st) + TakenBy(p, tys, e)
  {
    FirstOperand(p, tys, e, true, st, {});
  }
}
