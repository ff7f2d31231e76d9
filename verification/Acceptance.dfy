/** Which programs are accepted, path by path. */
module Acceptance {
  import opened Optional
  import opened Syntax
  import opened Moves
  import opened Static
  import opened Facts
  import opened Paths
  import opened Events

  // On every way through a function no expression names what has been moved or moves
  // what is lent, no owner is overwritten, the condition of a loop moves nothing, and
  // where ways part they end with the same owners.

  // -------------------------------------------------------------------------
  // What has been moved along one way
  // -------------------------------------------------------------------------

  // The variables moved and not assigned since, at the end of one way; own are the
  // owners at its start.
  function Gone(p: Program, tys: map<Name, Ty>, s: Stmt, way: Path, own: set<Name>, moved: set<Name>): set<Name>
    decreases s, 1
  {
    match s
    case Assign(x, rhs) =>
      var after := moved + MovesIn(TakeEvents(p, tys, rhs));
      if IsOwnVar(tys, x) then after - {x} else after
    case Write(target, rhs) => moved + MovesIn(EventsOf(p, tys, target)) + MovesIn(TakeEvents(p, tys, rhs))
    case Block(ss) => GoneAll(p, tys, ss, way.subs, own, moved)
    case If(c, t, e) =>
      Gone(p, tys, if way.choice == 0 then t else e, First(way.subs), own - MovedBy(p, tys, c),
        moved + MovesIn(EventsOf(p, tys, c)))
    case While(c, b) => GoneInLoop(p, tys, c, b, way.subs, own, moved)
    case Output(e) => moved + MovesIn(EventsOf(p, tys, e))
    case Error(e) => moved + MovesIn(EventsOf(p, tys, e))
    case Case(e, arms) =>
      var after := moved + MovesIn(TakeEvents(p, tys, e));
      if arms.Nil? then after
      else GoneInArm(p, tys, arms, way.choice, First(way.subs), Consuming(e), own - TakenBy(p, tys, e), after)
    case Destroy(_, _) => moved
  }

  function GoneAll(p: Program, tys: map<Name, Ty>, ss: List<Stmt>, ways: List<Path>, own: set<Name>,
      moved: set<Name>): set<Name>
    decreases ss, 0
  {
    match ss
    case Nil => moved
    case Cons(s, t) =>
      GoneAll(p, tys, t, Rest(ways), Follow(p, tys, s, First(ways), own), Gone(p, tys, s, First(ways), own, moved))
  }

  // What neither owned nor was moved before the loop is forgotten after each of its
  // iterations: the analysis goes on as if the loop had not run.
  function GoneInLoop(p: Program, tys: map<Name, Ty>, c: Expr, b: Stmt, ways: List<Path>, own: set<Name>,
      moved: set<Name>): set<Name>
    decreases b, 2, ways
  {
    match ways
    case Nil => moved
    case Cons(way, t) =>
      GoneInLoop(p, tys, c, b, t, Follow(p, tys, b, way, own - MovedBy(p, tys, c)),
        Gone(p, tys, b, way, own - MovedBy(p, tys, c), moved) * (own + moved))
  }

  // A binder hides what is known of its name, which comes back after the arm; a
  // name bound twice stays owned.
  function GoneInArm(p: Program, tys: map<Name, Ty>, arms: List<Arm>, choice: nat, way: Path, byValue: bool,
      own: set<Name>, moved: set<Name>): set<Name>
    requires arms.Cons?
    decreases arms, 0
  {
    if choice > 0 && arms.tail.Cons? then GoneInArm(p, tys, arms.tail, choice - 1, way, byValue, own, moved)
    else
      var bs := ArmOwners(arms.head, byValue);
      (Gone(p, tys, arms.head.body, way, own + bs, moved - bs) - bs) + (moved * bs) -
        Repeated(ArmBinders(arms.head, byValue))
  }

  // -------------------------------------------------------------------------
  // What is asked along one way
  // -------------------------------------------------------------------------

  ghost predicate Passes(p: Program, tys: map<Name, Ty>, s: Stmt, way: Path, own: set<Name>, moved: set<Name>)
    decreases s, 1
  {
    match s
    case Assign(x, rhs) =>
      && Lawful(moved, TakeEvents(p, tys, rhs))
      && (IsOwnVar(tys, x) && !rhs.Borrow? ==> x !in own - TakenBy(p, tys, rhs))
    case Write(target, rhs) =>
      && Lawful(moved, EventsOf(p, tys, target))
      && Lawful(moved + MovesIn(EventsOf(p, tys, target)), TakeEvents(p, tys, rhs))
    case Block(ss) => PassesAll(p, tys, ss, way.subs, own, moved)
    case If(c, t, e) =>
      && Lawful(moved, EventsOf(p, tys, c))
      && Passes(p, tys, if way.choice == 0 then t else e, First(way.subs), own - MovedBy(p, tys, c),
           moved + MovesIn(EventsOf(p, tys, c)))
      && Agree(p, tys, s, own)
    case While(c, b) =>
      && Lawful(moved, EventsOf(p, tys, c)) && MovesIn(EventsOf(p, tys, c)) == {}
      && PassesLoop(p, tys, c, b, way.subs, own, moved)
      && Agree(p, tys, s, own)
    case Output(e) => Lawful(moved, EventsOf(p, tys, e))
    case Error(e) => Lawful(moved, EventsOf(p, tys, e))
    case Case(e, arms) =>
      && Lawful(moved, TakeEvents(p, tys, e))
      && (arms.Cons? ==>
            && PassesArm(p, tys, arms, way.choice, First(way.subs), Consuming(e), own - TakenBy(p, tys, e),
                 moved + MovesIn(TakeEvents(p, tys, e)))
            && Agree(p, tys, s, own))
    case Destroy(_, _) => true
  }

  ghost predicate PassesAll(p: Program, tys: map<Name, Ty>, ss: List<Stmt>, ways: List<Path>, own: set<Name>,
      moved: set<Name>)
    decreases ss, 0
  {
    match ss
    case Nil => true
    case Cons(s, t) =>
      && Passes(p, tys, s, First(ways), own, moved)
      && PassesAll(p, tys, t, Rest(ways), Follow(p, tys, s, First(ways), own),
           Gone(p, tys, s, First(ways), own, moved))
  }

  ghost predicate PassesLoop(p: Program, tys: map<Name, Ty>, c: Expr, b: Stmt, ways: List<Path>, own: set<Name>,
      moved: set<Name>)
    decreases b, 2, ways
  {
    match ways
    case Nil => true
    case Cons(way, t) =>
      var own1 := own - MovedBy(p, tys, c);
      && Passes(p, tys, b, way, own1, moved)
      && PassesLoop(p, tys, c, b, t, Follow(p, tys, b, way, own1), Gone(p, tys, b, way, own1, moved) * (own + moved))
  }

  ghost predicate PassesArm(p: Program, tys: map<Name, Ty>, arms: List<Arm>, choice: nat, way: Path, byValue: bool,
      own: set<Name>, moved: set<Name>)
    requires arms.Cons?
    decreases arms, 0
  {
    if choice > 0 && arms.tail.Cons? then PassesArm(p, tys, arms.tail, choice - 1, way, byValue, own, moved)
    else
      var bs := ArmOwners(arms.head, byValue);
      Passes(p, tys, arms.head.body, way, own + bs, moved - bs)
  }

  // -------------------------------------------------------------------------
  // Less moved, and two ways of having moved
  // -------------------------------------------------------------------------

  lemma LawfulLess(moved: set<Name>, less: set<Name>, evs: seq<Event>)
    requires less <= moved && Lawful(moved, evs)
    ensures Lawful(less, evs)
  {
    forall j | 0 <= j < |evs|
      ensures LawfulAt(less, evs[..j], evs[j])
    {
      assert LawfulAt(moved, evs[..j], evs[j]);
    }
  }

  lemma LawfulBoth(m1: set<Name>, m2: set<Name>, evs: seq<Event>)
    requires Lawful(m1, evs) && Lawful(m2, evs)
    ensures Lawful(m1 + m2, evs)
  {
    forall j | 0 <= j < |evs|
      ensures LawfulAt(m1 + m2, evs[..j], evs[j])
    {
      assert LawfulAt(m1, evs[..j], evs[j]) && LawfulAt(m2, evs[..j], evs[j]);
    }
  }

  lemma {:induction false} GoneLess(p: Program, tys: map<Name, Ty>, s: Stmt, way: Path, own: set<Name>,
      moved: set<Name>, less: set<Name>)
    requires less <= moved
    ensures Gone(p, tys, s, way, own, less) <= Gone(p, tys, s, way, own, moved)
    decreases s, 1
  {
    match s
    case Block(ss) => GoneAllLess(p, tys, ss, way.subs, own, moved, less);
    case If(c, t, e) =>
      GoneLess(p, tys, if way.choice == 0 then t else e, First(way.subs), own - MovedBy(p, tys, c),
        moved + MovesIn(EventsOf(p, tys, c)), less + MovesIn(EventsOf(p, tys, c)));
    case While(c, b) => GoneInLoopLess(p, tys, c, b, way.subs, own, moved, less);
    case Case(e, arms) =>
      if arms.Cons? {
        GoneInArmLess(p, tys, arms, way.choice, First(way.subs), Consuming(e), own - TakenBy(p, tys, e),
          moved + MovesIn(TakeEvents(p, tys, e)), less + MovesIn(TakeEvents(p, tys, e)));
      }
    case _ =>
  }

  lemma {:induction false} GoneAllLess(p: Program, tys: map<Name, Ty>, ss: List<Stmt>, ways: List<Path>,
      own: set<Name>, moved: set<Name>, less: set<Name>)
    requires less <= moved
    ensures GoneAll(p, tys, ss, ways, own, less) <= GoneAll(p, tys, ss, ways, own, moved)
    decreases ss, 0
  {
    if ss.Cons? {
      GoneLess(p, tys, ss.head, First(ways), own, moved, less);
      GoneAllLess(p, tys, ss.tail, Rest(ways), Follow(p, tys, ss.head, First(ways), own),
        Gone(p, tys, ss.head, First(ways), own, moved), Gone(p, tys, ss.head, First(ways), own, less));
    }
  }

  // What is forgotten after an iteration left out.
  function Kept(p: Program, tys: map<Name, Ty>, c: Expr, b: Stmt, way: Path, own: set<Name>,
      moved: set<Name>): set<Name> {
    Gone(p, tys, b, way, own - MovedBy(p, tys, c), moved) * (own + moved)
  }

  lemma {:induction false} GoneInLoopLess(p: Program, tys: map<Name, Ty>, c: Expr, b: Stmt, ways: List<Path>,
      own: set<Name>, moved: set<Name>, less: set<Name>)
    requires less <= moved
    ensures GoneInLoop(p, tys, c, b, ways, own, less) <= GoneInLoop(p, tys, c, b, ways, own, moved)
    decreases b, 2, ways
  {
    if ways.Cons? {
      var own1 := own - MovedBy(p, tys, c);
      GoneLess(p, tys, b, ways.head, own1, moved, less);
      GoneInLoopLess(p, tys, c, b, ways.tail, Follow(p, tys, b, ways.head, own1),
        Kept(p, tys, c, b, ways.head, own, moved), Kept(p, tys, c, b, ways.head, own, less));
    }
  }

  lemma {:induction false} GoneInArmLess(p: Program, tys: map<Name, Ty>, arms: List<Arm>, choice: nat, way: Path,
      byValue: bool, own: set<Name>, moved: set<Name>, less: set<Name>)
    requires arms.Cons? && less <= moved
    ensures GoneInArm(p, tys, arms, choice, way, byValue, own, less)
      <= GoneInArm(p, tys, arms, choice, way, byValue, own, moved)
    decreases arms, 0
  {
    if choice > 0 && arms.tail.Cons? {
      GoneInArmLess(p, tys, arms.tail, choice - 1, way, byValue, own, moved, less);
    } else {
      var bs := ArmOwners(arms.head, byValue);
      GoneLess(p, tys, arms.head.body, way, own + bs, moved - bs, less - bs);
    }
  }

  // What more was moved before is at most still gone.
  lemma {:induction false} GoneMore(p: Program, tys: map<Name, Ty>, s: Stmt, way: Path, own: set<Name>,
      moved: set<Name>, more: set<Name>)
    ensures Gone(p, tys, s, way, own, moved + more) <= Gone(p, tys, s, way, own, moved) + more
    decreases s, 1
  {
    match s
    case Block(ss) => GoneAllMore(p, tys, ss, way.subs, own, moved, more);
    case If(c, t, e) =>
      var evs := MovesIn(EventsOf(p, tys, c));
      assert moved + more + evs == moved + evs + more;
      GoneMore(p, tys, if way.choice == 0 then t else e, First(way.subs), own - MovedBy(p, tys, c), moved + evs, more);
    case While(c, b) => GoneInLoopMore(p, tys, c, b, way.subs, own, moved, more);
    case Case(e, arms) =>
      if arms.Cons? {
        var evs := MovesIn(TakeEvents(p, tys, e));
        assert moved + more + evs == moved + evs + more;
        GoneInArmMore(p, tys, arms, way.choice, First(way.subs), Consuming(e), own - TakenBy(p, tys, e), moved + evs,
          more);
      }
    case _ =>
  }

  lemma {:induction false} GoneAllMore(p: Program, tys: map<Name, Ty>, ss: List<Stmt>, ways: List<Path>,
      own: set<Name>, moved: set<Name>, more: set<Name>)
    ensures GoneAll(p, tys, ss, ways, own, moved + more) <= GoneAll(p, tys, ss, ways, own, moved) + more
    decreases ss, 0
  {
    if ss.Cons? {
      var own1 := Follow(p, tys, ss.head, First(ways), own);
      var gone := Gone(p, tys, ss.head, First(ways), own, moved);
      GoneMore(p, tys, ss.head, First(ways), own, moved, more);
      GoneAllLess(p, tys, ss.tail, Rest(ways), own1, gone + more,
        Gone(p, tys, ss.head, First(ways), own, moved + more));
      GoneAllMore(p, tys, ss.tail, Rest(ways), own1, gone, more);
    }
  }

  lemma {:induction false} GoneInLoopMore(p: Program, tys: map<Name, Ty>, c: Expr, b: Stmt, ways: List<Path>,
      own: set<Name>, moved: set<Name>, more: set<Name>)
    ensures GoneInLoop(p, tys, c, b, ways, own, moved + more) <= GoneInLoop(p, tys, c, b, ways, own, moved) + more
    decreases b, 2, ways
  {
    if ways.Cons? {
      var own1 := own - MovedBy(p, tys, c);
      var own2 := Follow(p, tys, b, ways.head, own1);
      var kept := Kept(p, tys, c, b, ways.head, own, moved);
      GoneMore(p, tys, b, ways.head, own1, moved, more);
      GoneInLoopLess(p, tys, c, b, ways.tail, own2, kept + more, Kept(p, tys, c, b, ways.head, own, moved + more));
      GoneInLoopMore(p, tys, c, b, ways.tail, own2, kept, more);
    }
  }

  lemma {:induction false} GoneInArmMore(p: Program, tys: map<Name, Ty>, arms: List<Arm>, choice: nat, way: Path,
      byValue: bool, own: set<Name>, moved: set<Name>, more: set<Name>)
    requires arms.Cons?
    ensures GoneInArm(p, tys, arms, choice, way, byValue, own, moved + more)
      <= GoneInArm(p, tys, arms, choice, way, byValue, own, moved) + more
    decreases arms, 0
  {
    if choice > 0 && arms.tail.Cons? {
      GoneInArmMore(p, tys, arms.tail, choice - 1, way, byValue, own, moved, more);
    } else {
      var bs := ArmOwners(arms.head, byValue);
      assert moved + more - bs == (moved - bs) + (more - bs);
      GoneMore(p, tys, arms.head.body, way, own + bs, moved - bs, more - bs);
    }
  }

  // Gone after either is gone after one of them.
  lemma {:induction false} GoneBoth(p: Program, tys: map<Name, Ty>, s: Stmt, way: Path, own: set<Name>, m1: set<Name>,
      m2: set<Name>)
    ensures Gone(p, tys, s, way, own, m1 + m2) <= Gone(p, tys, s, way, own, m1) + Gone(p, tys, s, way, own, m2)
  {
    GoneMore(p, tys, s, way, own, m1, m2 - m1);
    GoneMore(p, tys, s, way, own, m2, m1 - m2);
    assert m1 + (m2 - m1) == m1 + m2 == m2 + (m1 - m2);
  }

  lemma {:induction false} KeptBoth(p: Program, tys: map<Name, Ty>, c: Expr, b: Stmt, way: Path, own: set<Name>,
      m1: set<Name>, m2: set<Name>)
    ensures Kept(p, tys, c, b, way, own, m1 + m2)
      <= Kept(p, tys, c, b, way, own, m1) + Kept(p, tys, c, b, way, own, m2)
  {
    var own1 := own - MovedBy(p, tys, c);
    GoneMore(p, tys, b, way, own1, m1, m2 - m1);
    GoneMore(p, tys, b, way, own1, m2, m1 - m2);
    assert m1 + (m2 - m1) == m1 + m2 == m2 + (m1 - m2);
    GoneMore(p, tys, b, way, own1, {}, m1);
    GoneMore(p, tys, b, way, own1, {}, m2);
    assert {} + m1 == m1 && {} + m2 == m2;
    GoneLess(p, tys, b, way, own1, m1, {});
    GoneLess(p, tys, b, way, own1, m2, {});
  }

  lemma {:induction false} PassesLess(p: Program, tys: map<Name, Ty>, s: Stmt, way: Path, own: set<Name>,
      moved: set<Name>, less: set<Name>)
    requires less <= moved && Passes(p, tys, s, way, own, moved)
    ensures Passes(p, tys, s, way, own, less)
    decreases s, 1
  {
    match s
    case Assign(_, rhs) => LawfulLess(moved, less, TakeEvents(p, tys, rhs));
    case Write(target, rhs) =>
      var evs := MovesIn(EventsOf(p, tys, target));
      LawfulLess(moved, less, EventsOf(p, tys, target));
      LawfulLess(moved + evs, less + evs, TakeEvents(p, tys, rhs));
    case Block(ss) => PassesAllLess(p, tys, ss, way.subs, own, moved, less);
    case If(c, t, e) =>
      var evs := MovesIn(EventsOf(p, tys, c));
      LawfulLess(moved, less, EventsOf(p, tys, c));
      PassesLess(p, tys, if way.choice == 0 then t else e, First(way.subs), own - MovedBy(p, tys, c), moved + evs,
        less + evs);
    case While(c, b) =>
      LawfulLess(moved, less, EventsOf(p, tys, c));
      PassesLoopLess(p, tys, c, b, way.subs, own, moved, less);
    case Output(e) => LawfulLess(moved, less, EventsOf(p, tys, e));
    case Error(e) => LawfulLess(moved, less, EventsOf(p, tys, e));
    case Case(e, arms) =>
      var evs := MovesIn(TakeEvents(p, tys, e));
      LawfulLess(moved, less, TakeEvents(p, tys, e));
      if arms.Cons? {
        PassesArmLess(p, tys, arms, way.choice, First(way.subs), Consuming(e), own - TakenBy(p, tys, e), moved + evs,
          less + evs);
      }
    case Destroy(_, _) =>
  }

  lemma {:induction false} PassesAllLess(p: Program, tys: map<Name, Ty>, ss: List<Stmt>, ways: List<Path>,
      own: set<Name>, moved: set<Name>, less: set<Name>)
    requires less <= moved && PassesAll(p, tys, ss, ways, own, moved)
    ensures PassesAll(p, tys, ss, ways, own, less)
    decreases ss, 0
  {
    if ss.Cons? {
      PassesLess(p, tys, ss.head, First(ways), own, moved, less);
      GoneLess(p, tys, ss.head, First(ways), own, moved, less);
      PassesAllLess(p, tys, ss.tail, Rest(ways), Follow(p, tys, ss.head, First(ways), own),
        Gone(p, tys, ss.head, First(ways), own, moved), Gone(p, tys, ss.head, First(ways), own, less));
    }
  }

  lemma {:induction false} PassesLoopLess(p: Program, tys: map<Name, Ty>, c: Expr, b: Stmt, ways: List<Path>,
      own: set<Name>, moved: set<Name>, less: set<Name>)
    requires less <= moved && PassesLoop(p, tys, c, b, ways, own, moved)
    ensures PassesLoop(p, tys, c, b, ways, own, less)
    decreases b, 2, ways
  {
    if ways.Cons? {
      var own1 := own - MovedBy(p, tys, c);
      PassesLess(p, tys, b, ways.head, own1, moved, less);
      GoneLess(p, tys, b, ways.head, own1, moved, less);
      PassesLoopLess(p, tys, c, b, ways.tail, Follow(p, tys, b, ways.head, own1),
        Kept(p, tys, c, b, ways.head, own, moved), Kept(p, tys, c, b, ways.head, own, less));
    }
  }

  lemma {:induction false} PassesArmLess(p: Program, tys: map<Name, Ty>, arms: List<Arm>, choice: nat, way: Path,
      byValue: bool, own: set<Name>, moved: set<Name>, less: set<Name>)
    requires arms.Cons? && less <= moved && PassesArm(p, tys, arms, choice, way, byValue, own, moved)
    ensures PassesArm(p, tys, arms, choice, way, byValue, own, less)
    decreases arms, 0
  {
    if choice > 0 && arms.tail.Cons? {
      PassesArmLess(p, tys, arms.tail, choice - 1, way, byValue, own, moved, less);
    } else {
      var bs := ArmOwners(arms.head, byValue);
      PassesLess(p, tys, arms.head.body, way, own + bs, moved - bs, less - bs);
    }
  }

  // What passes after either of two histories passes after both.
  lemma {:induction false} PassesBoth(p: Program, tys: map<Name, Ty>, s: Stmt, way: Path, own: set<Name>, m1: set<Name>,
      m2: set<Name>)
    requires Passes(p, tys, s, way, own, m1) && Passes(p, tys, s, way, own, m2)
    ensures Passes(p, tys, s, way, own, m1 + m2)
    decreases s, 1
  {
    match s
    case Assign(_, rhs) => LawfulBoth(m1, m2, TakeEvents(p, tys, rhs));
    case Write(target, rhs) =>
      var evs := MovesIn(EventsOf(p, tys, target));
      LawfulBoth(m1, m2, EventsOf(p, tys, target));
      LawfulBoth(m1 + evs, m2 + evs, TakeEvents(p, tys, rhs));
      assert m1 + evs + (m2 + evs) == m1 + m2 + evs;
    case Block(ss) => PassesAllBoth(p, tys, ss, way.subs, own, m1, m2);
    case If(c, t, e) =>
      var evs := MovesIn(EventsOf(p, tys, c));
      LawfulBoth(m1, m2, EventsOf(p, tys, c));
      PassesBoth(p, tys, if way.choice == 0 then t else e, First(way.subs), own - MovedBy(p, tys, c), m1 + evs,
        m2 + evs);
      assert m1 + evs + (m2 + evs) == m1 + m2 + evs;
    case While(c, b) =>
      LawfulBoth(m1, m2, EventsOf(p, tys, c));
      PassesLoopBoth(p, tys, c, b, way.subs, own, m1, m2);
    case Output(e) => LawfulBoth(m1, m2, EventsOf(p, tys, e));
    case Error(e) => LawfulBoth(m1, m2, EventsOf(p, tys, e));
    case Case(e, arms) =>
      var evs := MovesIn(TakeEvents(p, tys, e));
      LawfulBoth(m1, m2, TakeEvents(p, tys, e));
      if arms.Cons? {
        PassesArmBoth(p, tys, arms, way.choice, First(way.subs), Consuming(e), own - TakenBy(p, tys, e), m1 + evs,
          m2 + evs);
        assert m1 + evs + (m2 + evs) == m1 + m2 + evs;
      }
    case Destroy(_, _) =>
  }

  lemma {:induction false} PassesAllBoth(p: Program, tys: map<Name, Ty>, ss: List<Stmt>, ways: List<Path>,
      own: set<Name>, m1: set<Name>, m2: set<Name>)
    requires PassesAll(p, tys, ss, ways, own, m1) && PassesAll(p, tys, ss, ways, own, m2)
    ensures PassesAll(p, tys, ss, ways, own, m1 + m2)
    decreases ss, 0
  {
    if ss.Cons? {
      var s, way := ss.head, First(ways);
      var own1, g1, g2 := Follow(p, tys, s, way, own), Gone(p, tys, s, way, own, m1), Gone(p, tys, s, way, own, m2);
      PassesBoth(p, tys, s, way, own, m1, m2);
      GoneBoth(p, tys, s, way, own, m1, m2);
      PassesAllBoth(p, tys, ss.tail, Rest(ways), own1, g1, g2);
      PassesAllLess(p, tys, ss.tail, Rest(ways), own1, g1 + g2, Gone(p, tys, s, way, own, m1 + m2));
    }
  }

  lemma {:induction false} PassesLoopBoth(p: Program, tys: map<Name, Ty>, c: Expr, b: Stmt, ways: List<Path>,
      own: set<Name>, m1: set<Name>, m2: set<Name>)
    requires PassesLoop(p, tys, c, b, ways, own, m1) && PassesLoop(p, tys, c, b, ways, own, m2)
    ensures PassesLoop(p, tys, c, b, ways, own, m1 + m2)
    decreases b, 2, ways
  {
    if ways.Cons? {
      var way, own1 := ways.head, own - MovedBy(p, tys, c);
      var own2, k1, k2 := Follow(p, tys, b, way, own1), Kept(p, tys, c, b, way, own, m1),
        Kept(p, tys, c, b, way, own, m2);
      PassesBoth(p, tys, b, way, own1, m1, m2);
      KeptBoth(p, tys, c, b, way, own, m1, m2);
      PassesLoopBoth(p, tys, c, b, ways.tail, own2, k1, k2);
      PassesLoopLess(p, tys, c, b, ways.tail, own2, k1 + k2, Kept(p, tys, c, b, way, own, m1 + m2));
    }
  }

  lemma {:induction false} PassesArmBoth(p: Program, tys: map<Name, Ty>, arms: List<Arm>, choice: nat, way: Path,
      byValue: bool, own: set<Name>, m1: set<Name>, m2: set<Name>)
    requires arms.Cons?
    requires PassesArm(p, tys, arms, choice, way, byValue, own, m1)
    requires PassesArm(p, tys, arms, choice, way, byValue, own, m2)
    ensures PassesArm(p, tys, arms, choice, way, byValue, own, m1 + m2)
    decreases arms, 0
  {
    if choice > 0 && arms.tail.Cons? {
      PassesArmBoth(p, tys, arms.tail, choice - 1, way, byValue, own, m1, m2);
    } else {
      var bs := ArmOwners(arms.head, byValue);
      PassesBoth(p, tys, arms.head.body, way, own + bs, m1 - bs, m2 - bs);
      assert m1 - bs + (m2 - bs) == m1 + m2 - bs;
    }
  }

  // -------------------------------------------------------------------------
  // Statements
  // -------------------------------------------------------------------------

  // Every way through s from here passes.
  ghost predicate Always(p: Program, tys: map<Name, Ty>, s: Stmt, own: set<Name>, moved: set<Name>) {
    forall way :: Passes(p, tys, s, way, own, moved)
  }

  ghost predicate AlwaysAll(p: Program, tys: map<Name, Ty>, ss: List<Stmt>, own: set<Name>, moved: set<Name>) {
    forall ways :: PassesAll(p, tys, ss, ways, own, moved)
  }

  ghost predicate AlwaysInArms(p: Program, tys: map<Name, Ty>, arms: List<Arm>, byValue: bool, own: set<Name>,
      moved: set<Name>)
    requires arms.Cons?
  {
    forall choice: nat, way :: PassesArm(p, tys, arms, choice, way, byValue, own, moved)
  }

  ghost predicate GoneSomehow(p: Program, tys: map<Name, Ty>, s: Stmt, own: set<Name>, moved: set<Name>, x: Name) {
    exists way :: x in Gone(p, tys, s, way, own, moved)
  }

  ghost predicate GoneAllSomehow(p: Program, tys: map<Name, Ty>, ss: List<Stmt>, own: set<Name>, moved: set<Name>,
      x: Name) {
    exists ways :: x in GoneAll(p, tys, ss, ways, own, moved)
  }

  ghost predicate GoneInSomeArm(p: Program, tys: map<Name, Ty>, arms: List<Arm>, byValue: bool, own: set<Name>,
      moved: set<Name>, x: Name)
    requires arms.Cons?
  {
    exists choice: nat, way :: x in GoneInArm(p, tys, arms, choice, way, byValue, own, moved)
  }

  // Gone at the end of some way, and no more: what the analysis says.
  ghost predicate Sums(p: Program, tys: map<Name, Ty>, s: Stmt, own: set<Name>, moved: set<Name>, out: set<Name>) {
    && (forall way :: Gone(p, tys, s, way, own, moved) <= out)
    && forall x | x in out :: GoneSomehow(p, tys, s, own, moved, x)
  }

  ghost predicate SumsAll(p: Program, tys: map<Name, Ty>, ss: List<Stmt>, own: set<Name>, moved: set<Name>,
      out: set<Name>) {
    && (forall ways :: GoneAll(p, tys, ss, ways, own, moved) <= out)
    && forall x | x in out :: GoneAllSomehow(p, tys, ss, own, moved, x)
  }

  ghost predicate SumsArms(p: Program, tys: map<Name, Ty>, arms: List<Arm>, byValue: bool, own: set<Name>,
      moved: set<Name>, out: set<Name>)
    requires arms.Cons?
  {
    && (forall choice: nat, way :: GoneInArm(p, tys, arms, choice, way, byValue, own, moved) <= out)
    && forall x | x in out :: GoneInSomeArm(p, tys, arms, byValue, own, moved, x)
  }

  // Statements that pass whatever way was taken before them pass after all of them
  // at once: all that may be gone by then.
  lemma {:induction false} PassesSum(p: Program, tys: map<Name, Ty>, s: Stmt, ss: List<Stmt>, ways: List<Path>,
      own0: set<Name>, moved0: set<Name>, own: set<Name>, gone: set<Name>)
    requires forall way :: PassesAll(p, tys, ss, ways, own, Gone(p, tys, s, way, own0, moved0))
    requires forall x | x in gone :: GoneSomehow(p, tys, s, own0, moved0, x)
    ensures PassesAll(p, tys, ss, ways, own, gone)
    decreases gone
  {
    if gone == {} {
      PassesAllLess(p, tys, ss, ways, own, Gone(p, tys, s, Path(0, Nil), own0, moved0), {});
    } else {
      var x :| x in gone;
      var way :| x in Gone(p, tys, s, way, own0, moved0);
      PassesSum(p, tys, s, ss, ways, own0, moved0, own, gone - {x});
      PassesAllBoth(p, tys, ss, ways, own, gone - {x}, Gone(p, tys, s, way, own0, moved0));
      PassesAllLess(p, tys, ss, ways, own, gone - {x} + Gone(p, tys, s, way, own0, moved0), gone);
    }
  }

  // Gone after all that may be gone, is gone after one of the ways.
  lemma {:induction false} GoneSum(p: Program, tys: map<Name, Ty>, s: Stmt, ss: List<Stmt>, ways: List<Path>,
      own0: set<Name>, moved0: set<Name>, own: set<Name>, gone: set<Name>, x: Name) returns (way: Path)
    requires forall y | y in gone :: GoneSomehow(p, tys, s, own0, moved0, y)
    requires x in GoneAll(p, tys, ss, ways, own, gone)
    ensures x in GoneAll(p, tys, ss, ways, own, Gone(p, tys, s, way, own0, moved0))
  {
    way := Path(0, Nil);
    if x in gone {
      way :| x in Gone(p, tys, s, way, own0, moved0);
    }
    var m := Gone(p, tys, s, way, own0, moved0);
    GoneAllMore(p, tys, ss, ways, own, m, gone - m);
    GoneAllLess(p, tys, ss, ways, own, m + (gone - m), gone);
  }

  // The exact condition for a statement, and what the state after it says of moves.
  lemma {:induction false} AcceptedExactly(p: Program, tys: map<Name, Ty>, s: Stmt, st: StateMap)
    ensures AnalyzeStmt(p, tys, s, st).Some? <==> Always(p, tys, s, OwnedIn(st), MovedIn(st))
    ensures AnalyzeStmt(p, tys, s, st).Some? ==>
      Sums(p, tys, s, OwnedIn(st), MovedIn(st), MovedIn(AnalyzeStmt(p, tys, s, st).value.st))
    decreases s, 1
  {
    match s
    case Assign(_, _) => AssignExactly(p, tys, s, st);
    case Write(_, _) => WriteExactly(p, tys, s, st);
    case Block(ss) => BlockExactly(p, tys, ss, st);
    case If(c, t, e) => IfExactly(p, tys, c, t, e, st);
    case While(c, b) => WhileExactly(p, tys, c, b, st);
    case Output(e) => PrintExactly(p, tys, s, e, st);
    case Error(e) => PrintExactly(p, tys, s, e, st);
    case Case(e, arms) => CaseExactly(p, tys, e, arms, st);
    case Destroy(_, _) =>
      OneWay(p, tys, s, OwnedIn(st), MovedIn(st));
  }

  // There is but one way through a statement without parts.
  lemma {:induction false} OneWay(p: Program, tys: map<Name, Ty>, s: Stmt, own: set<Name>, moved: set<Name>)
    requires s.Assign? || s.Write? || s.Output? || s.Error? || s.Destroy?
    ensures Always(p, tys, s, own, moved) <==> Passes(p, tys, s, Path(0, Nil), own, moved)
    ensures Sums(p, tys, s, own, moved, Gone(p, tys, s, Path(0, Nil), own, moved))
  {
    var none := Path(0, Nil);
    forall way
      ensures Passes(p, tys, s, way, own, moved) <==> Passes(p, tys, s, none, own, moved)
      ensures Gone(p, tys, s, way, own, moved) == Gone(p, tys, s, none, own, moved)
    {
    }
    if Always(p, tys, s, own, moved) {
      assert Passes(p, tys, s, none, own, moved);
    }
    forall x | x in Gone(p, tys, s, none, own, moved)
      ensures GoneSomehow(p, tys, s, own, moved, x)
    {
    }
  }

  lemma {:induction false} AssignExactly(p: Program, tys: map<Name, Ty>, s: Stmt, st: StateMap)
    requires s.Assign?
    ensures AnalyzeStmt(p, tys, s, st).Some? <==> Always(p, tys, s, OwnedIn(st), MovedIn(st))
    ensures AnalyzeStmt(p, tys, s, st).Some? ==>
      Sums(p, tys, s, OwnedIn(st), MovedIn(st), MovedIn(AnalyzeStmt(p, tys, s, st).value.st))
  {
    var x, rhs, own, moved, none := s.x, s.rhs, OwnedIn(st), MovedIn(st), Path(0, Nil);
    TakeAcceptedExactly(p, tys, rhs, st);
    if Take(p, tys, rhs, st).Some? {
      TakeMovesExactly(p, tys, rhs, st);
      var st1 := Take(p, tys, rhs, st).value;
      assert MovedIn(st1[x := Owned]) == MovedIn(st1) - {x} && MovedIn(st1 - {x}) == MovedIn(st1) - {x};
    }
    assert AnalyzeStmt(p, tys, s, st).Some? <==> Passes(p, tys, s, none, own, moved);
    OneWay(p, tys, s, own, moved);
  }

  lemma {:induction false} WriteExactly(p: Program, tys: map<Name, Ty>, s: Stmt, st: StateMap)
    requires s.Write?
    ensures AnalyzeStmt(p, tys, s, st).Some? <==> Always(p, tys, s, OwnedIn(st), MovedIn(st))
    ensures AnalyzeStmt(p, tys, s, st).Some? ==>
      Sums(p, tys, s, OwnedIn(st), MovedIn(st), MovedIn(AnalyzeStmt(p, tys, s, st).value.st))
  {
    var own, moved, none := OwnedIn(st), MovedIn(st), Path(0, Nil);
    EvalAcceptedExactly(p, tys, s.target, st, {});
    var st1 := EvalExpr(p, tys, s.target, st, {});
    if st1.Some? {
      MovedAfter(p, tys, s.target, st, {});
      TakeAcceptedExactly(p, tys, s.rhs, st1.value);
    }
    assert AnalyzeStmt(p, tys, s, st).Some? <==> Passes(p, tys, s, none, own, moved);
    OneWay(p, tys, s, own, moved);
  }

  lemma {:induction false} PrintExactly(p: Program, tys: map<Name, Ty>, s: Stmt, e: Expr, st: StateMap)
    requires s == Output(e) || s == Error(e)
    ensures AnalyzeStmt(p, tys, s, st).Some? <==> Always(p, tys, s, OwnedIn(st), MovedIn(st))
    ensures AnalyzeStmt(p, tys, s, st).Some? ==>
      Sums(p, tys, s, OwnedIn(st), MovedIn(st), MovedIn(AnalyzeStmt(p, tys, s, st).value.st))
  {
    var own, moved, none := OwnedIn(st), MovedIn(st), Path(0, Nil);
    EvalAcceptedExactly(p, tys, e, st, {});
    if EvalExpr(p, tys, e, st, {}).Some? {
      MovedAfter(p, tys, e, st, {});
    }
    assert AnalyzeStmt(p, tys, s, st).Some? <==> Passes(p, tys, s, none, own, moved);
    OneWay(p, tys, s, own, moved);
  }

  lemma {:induction false} SameThroughBlock(p: Program, tys: map<Name, Ty>, ss: List<Stmt>, own: set<Name>,
      moved: set<Name>)
    ensures Always(p, tys, Block(ss), own, moved) <==> AlwaysAll(p, tys, ss, own, moved)
    ensures forall way :: Gone(p, tys, Block(ss), way, own, moved) == GoneAll(p, tys, ss, way.subs, own, moved)
    ensures forall x :: GoneSomehow(p, tys, Block(ss), own, moved, x) <==> GoneAllSomehow(p, tys, ss, own, moved, x)
  {
    if Always(p, tys, Block(ss), own, moved) {
      forall ways
        ensures PassesAll(p, tys, ss, ways, own, moved)
      {
        assert Passes(p, tys, Block(ss), Path(0, ways), own, moved);
      }
    }
    if AlwaysAll(p, tys, ss, own, moved) {
      forall way
        ensures Passes(p, tys, Block(ss), way, own, moved)
      {
        assert PassesAll(p, tys, ss, way.subs, own, moved);
      }
    }
    forall x
      ensures GoneSomehow(p, tys, Block(ss), own, moved, x) <==> GoneAllSomehow(p, tys, ss, own, moved, x)
    {
      if GoneAllSomehow(p, tys, ss, own, moved, x) {
        var ways :| x in GoneAll(p, tys, ss, ways, own, moved);
        assert x in Gone(p, tys, Block(ss), Path(0, ways), own, moved);
      }
      if GoneSomehow(p, tys, Block(ss), own, moved, x) {
        var way :| x in Gone(p, tys, Block(ss), way, own, moved);
        assert x in GoneAll(p, tys, ss, way.subs, own, moved);
      }
    }
  }

  lemma {:induction false} BlockExactly(p: Program, tys: map<Name, Ty>, ss: List<Stmt>, st: StateMap)
    ensures AnalyzeStmt(p, tys, Block(ss), st).Some? <==> Always(p, tys, Block(ss), OwnedIn(st), MovedIn(st))
    ensures AnalyzeStmt(p, tys, Block(ss), st).Some? ==>
      Sums(p, tys, Block(ss), OwnedIn(st), MovedIn(st), MovedIn(AnalyzeStmt(p, tys, Block(ss), st).value.st))
    decreases Block(ss), 0
  {
    var own, moved := OwnedIn(st), MovedIn(st);
    AllAcceptedExactly(p, tys, ss, st);
    SameThroughBlock(p, tys, ss, own, moved);
    if AnalyzeStmt(p, tys, Block(ss), st).Some? {
      forall x | x in MovedIn(AnalyzeStmt(p, tys, Block(ss), st).value.st)
        ensures GoneSomehow(p, tys, Block(ss), own, moved, x)
      {
        assert GoneAllSomehow(p, tys, ss, own, moved, x);
      }
    }
  }

  lemma {:induction false} AllAcceptedExactly(p: Program, tys: map<Name, Ty>, ss: List<Stmt>, st: StateMap)
    ensures AnalyzeStmts(p, tys, ss, st).Some? <==> AlwaysAll(p, tys, ss, OwnedIn(st), MovedIn(st))
    ensures AnalyzeStmts(p, tys, ss, st).Some? ==>
      SumsAll(p, tys, ss, OwnedIn(st), MovedIn(st), MovedIn(AnalyzeStmts(p, tys, ss, st).value.st))
    decreases ss, 0
  {
    var own, moved := OwnedIn(st), MovedIn(st);
    match ss
    case Nil => assert GoneAll(p, tys, ss, Nil, own, moved) == moved;
    case Cons(s, t) =>
      AcceptedExactly(p, tys, s, st);
      if AlwaysAll(p, tys, ss, own, moved) {
        forall way
          ensures Passes(p, tys, s, way, own, moved)
        {
          assert PassesAll(p, tys, ss, Cons(way, Nil), own, moved);
        }
      }
      if AnalyzeStmt(p, tys, s, st).Some? {
        RestExactly(p, tys, s, t, st);
      }
  }

  lemma {:induction false} RestExactly(p: Program, tys: map<Name, Ty>, s: Stmt, t: List<Stmt>, st: StateMap)
    requires AnalyzeStmt(p, tys, s, st).Some? && Always(p, tys, s, OwnedIn(st), MovedIn(st))
    requires Sums(p, tys, s, OwnedIn(st), MovedIn(st), MovedIn(AnalyzeStmt(p, tys, s, st).value.st))
    ensures AnalyzeStmts(p, tys, Cons(s, t), st).Some? <==> AlwaysAll(p, tys, Cons(s, t), OwnedIn(st), MovedIn(st))
    ensures AnalyzeStmts(p, tys, Cons(s, t), st).Some? ==>
      SumsAll(p, tys, Cons(s, t), OwnedIn(st), MovedIn(st), MovedIn(AnalyzeStmts(p, tys, Cons(s, t), st).value.st))
    decreases t, 1
  {
    var own, moved, st1, ss := OwnedIn(st), MovedIn(st), AnalyzeStmt(p, tys, s, st).value.st, Cons(s, t);
    var own1, moved1 := OwnedIn(st1), MovedIn(st1);
    AllAcceptedExactly(p, tys, t, st1);
    forall way
      ensures Follow(p, tys, s, way, own) == own1
    {
      EveryPathAgrees(p, tys, s, way, st);
    }
    if AlwaysAll(p, tys, ss, own, moved) {
      forall ways
        ensures PassesAll(p, tys, t, ways, own1, moved1)
      {
        forall way
          ensures PassesAll(p, tys, t, ways, own1, Gone(p, tys, s, way, own, moved))
        {
          assert PassesAll(p, tys, ss, Cons(way, ways), own, moved);
        }
        PassesSum(p, tys, s, t, ways, own, moved, own1, moved1);
      }
    }
    if AnalyzeStmts(p, tys, t, st1).Some? {
      forall ways
        ensures PassesAll(p, tys, ss, ways, own, moved)
      {
        PassesAllLess(p, tys, t, Rest(ways), own1, moved1, Gone(p, tys, s, First(ways), own, moved));
      }
      RestSums(p, tys, s, t, st, MovedIn(AnalyzeStmts(p, tys, t, st1).value.st));
    }
  }

  lemma {:induction false} RestSums(p: Program, tys: map<Name, Ty>, s: Stmt, t: List<Stmt>, st: StateMap,
      out: set<Name>)
    requires AnalyzeStmt(p, tys, s, st).Some?
    requires var st1 := AnalyzeStmt(p, tys, s, st).value.st;
      && Sums(p, tys, s, OwnedIn(st), MovedIn(st), MovedIn(st1))
      && (forall way :: Follow(p, tys, s, way, OwnedIn(st)) == OwnedIn(st1))
      && SumsAll(p, tys, t, OwnedIn(st1), MovedIn(st1), out)
    ensures SumsAll(p, tys, Cons(s, t), OwnedIn(st), MovedIn(st), out)
  {
    var own, moved, st1, ss := OwnedIn(st), MovedIn(st), AnalyzeStmt(p, tys, s, st).value.st, Cons(s, t);
    var own1, moved1 := OwnedIn(st1), MovedIn(st1);
    forall ways
      ensures GoneAll(p, tys, ss, ways, own, moved) <= out
    {
      GoneAllLess(p, tys, t, Rest(ways), own1, moved1, Gone(p, tys, s, First(ways), own, moved));
    }
    forall x | x in out
      ensures GoneAllSomehow(p, tys, ss, own, moved, x)
    {
      var ways :| x in GoneAll(p, tys, t, ways, own1, moved1);
      var way := GoneSum(p, tys, s, t, ways, own, moved, own1, moved1, x);
      assert x in GoneAll(p, tys, ss, Cons(way, ways), own, moved);
    }
  }

  lemma {:induction false} IfExactly(p: Program, tys: map<Name, Ty>, c: Expr, t: Stmt, e: Stmt, st: StateMap)
    ensures AnalyzeStmt(p, tys, If(c, t, e), st).Some? <==> Always(p, tys, If(c, t, e), OwnedIn(st), MovedIn(st))
    ensures AnalyzeStmt(p, tys, If(c, t, e), st).Some? ==>
      Sums(p, tys, If(c, t, e), OwnedIn(st), MovedIn(st), MovedIn(AnalyzeStmt(p, tys, If(c, t, e), st).value.st))
    decreases If(c, t, e), 0
  {
    var s, own, moved := If(c, t, e), OwnedIn(st), MovedIn(st);
    EvalAcceptedExactly(p, tys, c, st, {});
    if EvalExpr(p, tys, c, st, {}).None? {
      assert !Passes(p, tys, s, Path(0, Nil), own, moved);
    } else {
      var st1 := EvalExpr(p, tys, c, st, {}).value;
      MovedAfter(p, tys, c, st, {});
      EvalMovesExactly(p, tys, c, st, {});
      AcceptedExactly(p, tys, t, st1);
      AcceptedExactly(p, tys, e, st1);
      forall way
        ensures Passes(p, tys, s, Path(0, Cons(way, Nil)), own, moved) <==>
          Passes(p, tys, t, way, OwnedIn(st1), MovedIn(st1)) && Agree(p, tys, s, own)
        ensures Passes(p, tys, s, Path(1, Cons(way, Nil)), own, moved) <==>
          Passes(p, tys, e, way, OwnedIn(st1), MovedIn(st1)) && Agree(p, tys, s, own)
        ensures Gone(p, tys, s, Path(0, Cons(way, Nil)), own, moved)
          == Gone(p, tys, t, way, OwnedIn(st1), MovedIn(st1))
        ensures Gone(p, tys, s, Path(1, Cons(way, Nil)), own, moved)
          == Gone(p, tys, e, way, OwnedIn(st1), MovedIn(st1))
      {
      }
      BranchesExactly(p, tys, c, t, e, st);
    }
  }

  lemma {:induction false} BranchesExactly(p: Program, tys: map<Name, Ty>, c: Expr, t: Stmt, e: Stmt, st: StateMap)
    requires EvalExpr(p, tys, c, st, {}).Some? && Lawful(MovedIn(st), EventsOf(p, tys, c))
    requires var s, own, moved, st1 := If(c, t, e), OwnedIn(st), MovedIn(st), EvalExpr(p, tys, c, st, {}).value;
      var own1, moved1 := OwnedIn(st1), MovedIn(st1);
      && own1 == own - MovedBy(p, tys, c) && moved1 == moved + MovesIn(EventsOf(p, tys, c))
      && (AnalyzeStmt(p, tys, t, st1).Some? <==> Always(p, tys, t, own1, moved1))
      && (AnalyzeStmt(p, tys, e, st1).Some? <==> Always(p, tys, e, own1, moved1))
      && (AnalyzeStmt(p, tys, t, st1).Some? ==>
           Sums(p, tys, t, own1, moved1, MovedIn(AnalyzeStmt(p, tys, t, st1).value.st)))
      && (AnalyzeStmt(p, tys, e, st1).Some? ==>
           Sums(p, tys, e, own1, moved1, MovedIn(AnalyzeStmt(p, tys, e, st1).value.st)))
    ensures AnalyzeStmt(p, tys, If(c, t, e), st).Some? <==> Always(p, tys, If(c, t, e), OwnedIn(st), MovedIn(st))
    ensures AnalyzeStmt(p, tys, If(c, t, e), st).Some? ==>
      Sums(p, tys, If(c, t, e), OwnedIn(st), MovedIn(st), MovedIn(AnalyzeStmt(p, tys, If(c, t, e), st).value.st))
  {
    var s, own, moved, st1 := If(c, t, e), OwnedIn(st), MovedIn(st), EvalExpr(p, tys, c, st, {}).value;
    var own1, moved1 := OwnedIn(st1), MovedIn(st1);
    if Always(p, tys, s, own, moved) {
      forall way
        ensures Passes(p, tys, t, way, own1, moved1) && Passes(p, tys, e, way, own1, moved1)
      {
        assert Passes(p, tys, s, Path(0, Cons(way, Nil)), own, moved);
        assert Passes(p, tys, s, Path(1, Cons(way, Nil)), own, moved);
      }
      assert Passes(p, tys, s, Path(0, Nil), own, moved);
    }
    if AnalyzeStmt(p, tys, t, st1).Some? && AnalyzeStmt(p, tys, e, st1).Some? {
      BranchAcceptedExactly(p, tys, c, t, e, st);
      if AnalyzeStmt(p, tys, s, st).Some? {
        forall way
          ensures Passes(p, tys, s, way, own, moved)
        {
          assert Passes(p, tys, if way.choice == 0 then t else e, First(way.subs), own1, moved1);
        }
        BranchesSum(p, tys, c, t, e, st);
      }
    }
  }

  lemma {:induction false} BranchesSum(p: Program, tys: map<Name, Ty>, c: Expr, t: Stmt, e: Stmt, st: StateMap)
    requires AnalyzeStmt(p, tys, If(c, t, e), st).Some?
    requires var own, moved, st1 := OwnedIn(st), MovedIn(st), EvalExpr(p, tys, c, st, {}).value;
      var own1, moved1 := own - MovedBy(p, tys, c), moved + MovesIn(EventsOf(p, tys, c));
      && Sums(p, tys, t, own1, moved1, MovedIn(AnalyzeStmt(p, tys, t, st1).value.st))
      && Sums(p, tys, e, own1, moved1, MovedIn(AnalyzeStmt(p, tys, e, st1).value.st))
    ensures Sums(p, tys, If(c, t, e), OwnedIn(st), MovedIn(st),
      MovedIn(AnalyzeStmt(p, tys, If(c, t, e), st).value.st))
  {
    hide Join, MovedIn;
    var s, own, moved, st1 := If(c, t, e), OwnedIn(st), MovedIn(st), EvalExpr(p, tys, c, st, {}).value;
    var own1, moved1 := own - MovedBy(p, tys, c), moved + MovesIn(EventsOf(p, tys, c));
    var b1, b2 := AnalyzeStmt(p, tys, t, st1).value.st, AnalyzeStmt(p, tys, e, st1).value.st;
    var out := MovedIn(AnalyzeStmt(p, tys, s, st).value.st);
    JoinMoves([b1, b2]);
    assert b1 in [b1, b2] && b2 in [b1, b2] && forall b | b in [b1, b2] :: b == b1 || b == b2;
    assert out == MovedIn(b1) + MovedIn(b2);
    forall way
      ensures Gone(p, tys, s, way, own, moved) <= out
    {
      assert Gone(p, tys, if way.choice == 0 then t else e, First(way.subs), own1, moved1) <= out;
    }
    forall x | x in out
      ensures GoneSomehow(p, tys, s, own, moved, x)
    {
      if x in MovedIn(b1) {
        assert GoneSomehow(p, tys, t, own1, moved1, x);
        var way :| x in Gone(p, tys, t, way, own1, moved1);
        assert x in Gone(p, tys, s, Path(0, Cons(way, Nil)), own, moved);
      } else {
        assert GoneSomehow(p, tys, e, own1, moved1, x);
        var way :| x in Gone(p, tys, e, way, own1, moved1);
        assert x in Gone(p, tys, s, Path(1, Cons(way, Nil)), own, moved);
      }
    }
  }

  // A join counts as moved what some branch has moved.
  lemma {:induction false} JoinMoves(branches: seq<StateMap>)
    requires branches != [] && Join(branches).Some?
    ensures forall x :: x in MovedIn(Join(branches).value) <==> exists b :: b in branches && x in MovedIn(b)
  {
    JoinKeys(branches);
    var out := Join(branches).value;
    forall x
      ensures x in MovedIn(out) <==> exists b :: b in branches && x in MovedIn(b)
    {
      KeysOfAll(branches, x);
      if b :| b in branches && x in MovedIn(b) {
        assert x !in OwnedIn(b) && OwnedIn(b) == OwnedIn(branches[0]) == OwnedIn(out);
      }
      if x in MovedIn(out) {
        var b :| b in branches && x in b.Keys;
        assert x !in OwnedIn(out) && OwnedIn(b) == OwnedIn(branches[0]) == OwnedIn(out);
      }
    }
  }

  lemma {:induction false} KeysOfAll(branches: seq<StateMap>, x: Name)
    ensures x in KeysOf(branches) <==> exists b :: b in branches && x in b.Keys
    decreases |branches|
  {
    if branches != [] {
      KeysOfAll(branches[1..], x);
      assert forall b :: b in branches <==> b == branches[0] || b in branches[1..];
    }
  }

  lemma {:induction false} WhileExactly(p: Program, tys: map<Name, Ty>, c: Expr, b: Stmt, st: StateMap)
    ensures AnalyzeStmt(p, tys, While(c, b), st).Some? <==> Always(p, tys, While(c, b), OwnedIn(st), MovedIn(st))
    ensures AnalyzeStmt(p, tys, While(c, b), st).Some? ==>
      Sums(p, tys, While(c, b), OwnedIn(st), MovedIn(st), MovedIn(AnalyzeStmt(p, tys, While(c, b), st).value.st))
    decreases While(c, b), 0
  {
    var s, own, moved := While(c, b), OwnedIn(st), MovedIn(st);
    EvalAcceptedExactly(p, tys, c, st, {});
    ConditionStays(p, tys, c, st);
    if EvalExpr(p, tys, c, st, {}) != Some(st) {
      assert !Passes(p, tys, s, Path(0, Nil), own, moved);
    } else {
      assert own - MovedBy(p, tys, c) == own;
      AcceptedExactly(p, tys, b, st);
      if Always(p, tys, s, own, moved) {
        forall way
          ensures Passes(p, tys, b, way, own, moved)
        {
          assert Passes(p, tys, s, Path(0, Cons(way, Nil)), own, moved);
          assert PassesLoop(p, tys, c, b, Cons(way, Nil), own, moved);
        }
        assert Passes(p, tys, s, Path(0, Nil), own, moved);
      }
      if AnalyzeStmt(p, tys, b, st).Some? {
        LoopAcceptedExactly(p, tys, c, b, st);
      }
      if AnalyzeStmt(p, tys, s, st).Some? {
        forall way
          ensures Passes(p, tys, s, way, own, moved) && Gone(p, tys, s, way, own, moved) <= moved
        {
          LoopPasses(p, tys, c, b, way.subs, st, moved);
        }
        assert Gone(p, tys, s, Path(0, Nil), own, moved) == moved;
      }
    }
  }

  lemma {:induction false} ConditionStays(p: Program, tys: map<Name, Ty>, c: Expr, st: StateMap)
    ensures EvalExpr(p, tys, c, st, {}) == Some(st) <==>
      EvalExpr(p, tys, c, st, {}).Some? && MovedBy(p, tys, c) == {}
  {
    if EvalExpr(p, tys, c, st, {}).Some? {
      EvalMovesExactly(p, tys, c, st, {});
      var st1 := EvalExpr(p, tys, c, st, {}).value;
      if MovedBy(p, tys, c) == {} {
        assert st1.Keys == st.Keys && forall x | x in st1 :: st1[x] == st[x];
        assert st1 == st;
      } else if st1 == st {
        StableConditionMovesNothing(p, tys, c, st);
      }
    }
  }

  lemma {:induction false} LoopPasses(p: Program, tys: map<Name, Ty>, c: Expr, b: Stmt, ways: List<Path>, st: StateMap,
      moved: set<Name>)
    requires AnalyzeStmt(p, tys, While(c, b), st).Some? && MovedBy(p, tys, c) == {} && moved <= MovedIn(st)
    requires Always(p, tys, b, OwnedIn(st), MovedIn(st))
    requires AnalyzeStmt(p, tys, b, st).Some? &&
      Sums(p, tys, b, OwnedIn(st), MovedIn(st), MovedIn(AnalyzeStmt(p, tys, b, st).value.st))
    ensures PassesLoop(p, tys, c, b, ways, OwnedIn(st), moved)
    ensures GoneInLoop(p, tys, c, b, ways, OwnedIn(st), moved) <= moved
    decreases ways
  {
    if ways.Cons? {
      var way, own, out := ways.head, OwnedIn(st), AnalyzeStmt(p, tys, b, st).value.st;
      assert own - MovedBy(p, tys, c) == own;
      EveryPathAgrees(p, tys, b, way, st);
      PassesLess(p, tys, b, way, own, MovedIn(st), moved);
      GoneLess(p, tys, b, way, own, MovedIn(st), moved);
      assert Gone(p, tys, b, way, own, MovedIn(st)) <= MovedIn(out);
      assert MovedIn(out) !! OwnedIn(out) && OwnedIn(out) == own;
      LoopPasses(p, tys, c, b, ways.tail, st, Kept(p, tys, c, b, way, own, moved));
    }
  }

  lemma {:induction false} EnteredMoved(st: StateMap, bs: List<Name>)
    ensures MovedIn(SetOwned(st, bs)) == MovedIn(st) - Elems(bs)
  {
    EnteredState(st, bs);
    assert forall m: StateMap :: MovedIn(m) == m.Keys - OwnedIn(m);
    assert MovedIn(SetOwned(st, bs)) == SetOwned(st, bs).Keys - OwnedIn(SetOwned(st, bs));
    SetOwnedElsewhere(st, bs);
  }

  lemma {:induction false} SetOwnedElsewhere(st: StateMap, bs: List<Name>)
    ensures forall x | x in st && x !in Elems(bs) :: x in SetOwned(st, bs) && SetOwned(st, bs)[x] == st[x]
    decreases bs
  {
    if bs.Cons? {
      SetOwnedElsewhere(st[bs.head := Owned], bs.tail);
    }
  }

  lemma {:induction false} RestoredMoved(out: StateMap, bs: List<Name>, before: StateMap)
    ensures MovedIn(Restore(out, bs, before)) ==
      (MovedIn(out) - Elems(bs)) + (MovedIn(before) * Elems(bs)) - Repeated(bs)
  {
    RestoredState(out, bs, before);
    DistinctRepeatsNone(bs);
    var r := Restore(out, bs, before);
    assert MovedIn(r) == r.Keys - OwnedIn(r);
    assert MovedIn(out) == out.Keys - OwnedIn(out) && MovedIn(before) == before.Keys - OwnedIn(before);
  }

  lemma {:induction false} ArmExactly(p: Program, tys: map<Name, Ty>, arm: Arm, byValue: bool, st: StateMap)
    ensures var bs := ArmOwners(arm, byValue);
      AnalyzeArm(p, tys, arm, byValue, st).Some? <==> Always(p, tys, arm.body, OwnedIn(st) + bs, MovedIn(st) - bs)
    ensures AnalyzeArm(p, tys, arm, byValue, st).Some? ==>
      SumsArms(p, tys, Cons(arm, Nil), byValue, OwnedIn(st), MovedIn(st),
        MovedIn(AnalyzeArm(p, tys, arm, byValue, st).value.st))
    decreases arm, 0
  {
    var bs, own, moved, st1 := ArmBinders(arm, byValue), OwnedIn(st), MovedIn(st),
      SetOwned(st, ArmBinders(arm, byValue));
    EnteredState(st, bs);
    EnteredMoved(st, bs);
    AcceptedExactly(p, tys, arm.body, st1);
    if AnalyzeArm(p, tys, arm, byValue, st).Some? {
      var out := AnalyzeStmt(p, tys, arm.body, st1).value.st;
      RestoredMoved(out, bs, st);
      var all := MovedIn(AnalyzeArm(p, tys, arm, byValue, st).value.st);
      forall choice: nat, way
        ensures GoneInArm(p, tys, Cons(arm, Nil), choice, way, byValue, own, moved) <= all
      {
        assert Gone(p, tys, arm.body, way, own + Elems(bs), moved - Elems(bs)) <= MovedIn(out);
      }
      forall x | x in all
        ensures GoneInSomeArm(p, tys, Cons(arm, Nil), byValue, own, moved, x)
      {
        var way := Path(0, Nil);
        if x in MovedIn(out) - Elems(bs) {
          way :| x in Gone(p, tys, arm.body, way, own + Elems(bs), moved - Elems(bs));
        }
        assert x in GoneInArm(p, tys, Cons(arm, Nil), 0, way, byValue, own, moved);
      }
    }
  }

  function MovedInAny(branches: seq<StateMap>): set<Name> {
    if branches == [] then {} else MovedIn(branches[0]) + MovedInAny(branches[1..])
  }

  lemma {:induction false} MovedInAnyIs(branches: seq<StateMap>, x: Name)
    ensures x in MovedInAny(branches) <==> exists b :: b in branches && x in MovedIn(b)
    decreases |branches|
  {
    if branches != [] {
      MovedInAnyIs(branches[1..], x);
      assert forall b :: b in branches <==> b == branches[0] || b in branches[1..];
    }
  }

  // The first of several arms, and the others.
  lemma {:induction false} ArmsSplit(p: Program, tys: map<Name, Ty>, arm: Arm, t: List<Arm>, byValue: bool,
      own: set<Name>, moved: set<Name>)
    requires t.Cons?
    ensures AlwaysInArms(p, tys, Cons(arm, t), byValue, own, moved) <==>
      AlwaysInArms(p, tys, Cons(arm, Nil), byValue, own, moved) && AlwaysInArms(p, tys, t, byValue, own, moved)
    ensures forall a, b ::
      SumsArms(p, tys, Cons(arm, Nil), byValue, own, moved, a) && SumsArms(p, tys, t, byValue, own, moved, b) ==>
        SumsArms(p, tys, Cons(arm, t), byValue, own, moved, a + b)
  {
    var arms, one := Cons(arm, t), Cons(arm, Nil);
    forall choice: nat, way
      ensures PassesArm(p, tys, arms, choice, way, byValue, own, moved) ==
        if choice > 0 then PassesArm(p, tys, t, choice - 1, way, byValue, own, moved)
        else PassesArm(p, tys, one, 0, way, byValue, own, moved)
      ensures GoneInArm(p, tys, arms, choice, way, byValue, own, moved) ==
        if choice > 0 then GoneInArm(p, tys, t, choice - 1, way, byValue, own, moved)
        else GoneInArm(p, tys, one, 0, way, byValue, own, moved)
      ensures PassesArm(p, tys, one, choice, way, byValue, own, moved)
        == PassesArm(p, tys, one, 0, way, byValue, own, moved)
      ensures GoneInArm(p, tys, one, choice, way, byValue, own, moved)
        == GoneInArm(p, tys, one, 0, way, byValue, own, moved)
    {
    }
    if AlwaysInArms(p, tys, arms, byValue, own, moved) {
      forall choice: nat, way
        ensures PassesArm(p, tys, one, choice, way, byValue, own, moved)
        ensures PassesArm(p, tys, t, choice, way, byValue, own, moved)
      {
        assert PassesArm(p, tys, arms, 0, way, byValue, own, moved);
        assert PassesArm(p, tys, arms, choice + 1, way, byValue, own, moved);
      }
    }
    forall a, b | SumsArms(p, tys, one, byValue, own, moved, a) && SumsArms(p, tys, t, byValue, own, moved, b)
      ensures SumsArms(p, tys, arms, byValue, own, moved, a + b)
    {
      forall x | x in a + b
        ensures GoneInSomeArm(p, tys, arms, byValue, own, moved, x)
      {
        if x in a {
          var choice: nat, way :| x in GoneInArm(p, tys, one, choice, way, byValue, own, moved);
          assert x in GoneInArm(p, tys, arms, 0, way, byValue, own, moved);
        } else {
          var choice: nat, way :| x in GoneInArm(p, tys, t, choice, way, byValue, own, moved);
          assert x in GoneInArm(p, tys, arms, choice + 1, way, byValue, own, moved);
        }
      }
    }
  }

  lemma {:induction false} ArmsExactly(p: Program, tys: map<Name, Ty>, arms: List<Arm>, byValue: bool, st: StateMap)
    requires arms.Cons?
    ensures AnalyzeArms(p, tys, arms, byValue, st).Some? <==>
      AlwaysInArms(p, tys, arms, byValue, OwnedIn(st), MovedIn(st))
    ensures AnalyzeArms(p, tys, arms, byValue, st).Some? ==>
      SumsArms(p, tys, arms, byValue, OwnedIn(st), MovedIn(st),
        MovedInAny(AnalyzeArms(p, tys, arms, byValue, st).value.0))
    decreases arms, 0
  {
    var arm, t, own, moved, bs := arms.head, arms.tail, OwnedIn(st), MovedIn(st), ArmOwners(arms.head, byValue);
    ArmExactly(p, tys, arm, byValue, st);
    forall way
      ensures PassesArm(p, tys, Cons(arm, Nil), 0, way, byValue, own, moved)
        == Passes(p, tys, arm.body, way, own + bs, moved - bs)
    {
    }
    forall choice: nat, way
      ensures PassesArm(p, tys, Cons(arm, Nil), choice, way, byValue, own, moved)
        == Passes(p, tys, arm.body, way, own + bs, moved - bs)
    {
    }
    if AlwaysInArms(p, tys, Cons(arm, Nil), byValue, own, moved) {
      forall way
        ensures Passes(p, tys, arm.body, way, own + bs, moved - bs)
      {
        assert PassesArm(p, tys, Cons(arm, Nil), 0, way, byValue, own, moved);
      }
    }
    assert AlwaysInArms(p, tys, Cons(arm, Nil), byValue, own, moved) <==>
      Always(p, tys, arm.body, own + bs, moved - bs);
    if t.Cons? {
      ArmsExactly(p, tys, t, byValue, st);
      ArmsSplit(p, tys, arm, t, byValue, own, moved);
    }
    if AnalyzeArms(p, tys, arms, byValue, st).Some? {
      var a := AnalyzeArm(p, tys, arm, byValue, st).value.st;
      var rest := AnalyzeArms(p, tys, t, byValue, st).value.0;
      assert ([a] + rest)[0] == a && ([a] + rest)[1..] == rest;
      assert MovedInAny([a] + rest) == MovedIn(a) + MovedInAny(rest);
    }
  }

  lemma {:induction false} CaseExactly(p: Program, tys: map<Name, Ty>, e: Expr, arms: List<Arm>, st: StateMap)
    ensures AnalyzeStmt(p, tys, Case(e, arms), st).Some? <==> Always(p, tys, Case(e, arms), OwnedIn(st), MovedIn(st))
    ensures AnalyzeStmt(p, tys, Case(e, arms), st).Some? ==>
      Sums(p, tys, Case(e, arms), OwnedIn(st), MovedIn(st), MovedIn(AnalyzeStmt(p, tys, Case(e, arms), st).value.st))
    decreases Case(e, arms), 0
  {
    var s, own, moved := Case(e, arms), OwnedIn(st), MovedIn(st);
    TakeAcceptedExactly(p, tys, e, st);
    if Take(p, tys, e, st).None? {
      assert !Passes(p, tys, s, Path(0, Nil), own, moved);
    } else {
      var st1 := Take(p, tys, e, st).value;
      TakeMovesExactly(p, tys, e, st);
      if arms.Nil? {
        assert Gone(p, tys, s, Path(0, Nil), own, moved) == MovedIn(st1);
      } else {
        ArmsExactly(p, tys, arms, Consuming(e), st1);
        ChoicesExactly(p, tys, e, arms, st);
      }
    }
  }

  lemma {:induction false} ChoicesExactly(p: Program, tys: map<Name, Ty>, e: Expr, arms: List<Arm>, st: StateMap)
    requires arms.Cons? && Take(p, tys, e, st).Some? && Lawful(MovedIn(st), TakeEvents(p, tys, e))
    requires var own, moved, st1, byValue := OwnedIn(st), MovedIn(st), Take(p, tys, e, st).value, Consuming(e);
      && OwnedIn(st1) == own - TakenBy(p, tys, e) && MovedIn(st1) == moved + MovesIn(TakeEvents(p, tys, e))
      && (AnalyzeArms(p, tys, arms, byValue, st1).Some? <==>
           AlwaysInArms(p, tys, arms, byValue, OwnedIn(st1), MovedIn(st1)))
      && (AnalyzeArms(p, tys, arms, byValue, st1).Some? ==>
           SumsArms(p, tys, arms, byValue, OwnedIn(st1), MovedIn(st1),
             MovedInAny(AnalyzeArms(p, tys, arms, byValue, st1).value.0)))
    ensures AnalyzeStmt(p, tys, Case(e, arms), st).Some? <==> Always(p, tys, Case(e, arms), OwnedIn(st), MovedIn(st))
    ensures AnalyzeStmt(p, tys, Case(e, arms), st).Some? ==>
      Sums(p, tys, Case(e, arms), OwnedIn(st), MovedIn(st), MovedIn(AnalyzeStmt(p, tys, Case(e, arms), st).value.st))
  {
    var s, own, moved, st1, byValue := Case(e, arms), OwnedIn(st), MovedIn(st), Take(p, tys, e, st).value, Consuming(e);
    forall choice: nat, way
      ensures Passes(p, tys, s, Path(choice, Cons(way, Nil)), own, moved) <==>
        PassesArm(p, tys, arms, choice, way, byValue, OwnedIn(st1), MovedIn(st1)) && Agree(p, tys, s, own)
      ensures Gone(p, tys, s, Path(choice, Cons(way, Nil)), own, moved)
        == GoneInArm(p, tys, arms, choice, way, byValue, OwnedIn(st1), MovedIn(st1))
    {
    }
    if Always(p, tys, s, own, moved) {
      forall choice: nat, way
        ensures PassesArm(p, tys, arms, choice, way, byValue, OwnedIn(st1), MovedIn(st1))
      {
        assert Passes(p, tys, s, Path(choice, Cons(way, Nil)), own, moved);
      }
      assert Passes(p, tys, s, Path(0, Nil), own, moved);
    }
    if AnalyzeArms(p, tys, arms, byValue, st1).Some? {
      CaseAcceptedExactly(p, tys, e, arms, st);
      if AnalyzeStmt(p, tys, s, st).Some? {
        forall way
          ensures Passes(p, tys, s, way, own, moved)
        {
          assert PassesArm(p, tys, arms, way.choice, First(way.subs), byValue, OwnedIn(st1), MovedIn(st1));
        }
        ChoicesSum(p, tys, e, arms, st);
      }
    }
  }

  lemma {:induction false} ChoicesSum(p: Program, tys: map<Name, Ty>, e: Expr, arms: List<Arm>, st: StateMap)
    requires arms.Cons? && AnalyzeStmt(p, tys, Case(e, arms), st).Some?
    requires var own, moved, st1 := OwnedIn(st), MovedIn(st), Take(p, tys, e, st).value;
      SumsArms(p, tys, arms, Consuming(e), own - TakenBy(p, tys, e), moved + MovesIn(TakeEvents(p, tys, e)),
        MovedInAny(AnalyzeArms(p, tys, arms, Consuming(e), st1).value.0))
    ensures Sums(p, tys, Case(e, arms), OwnedIn(st), MovedIn(st),
      MovedIn(AnalyzeStmt(p, tys, Case(e, arms), st).value.st))
  {
    hide Join, MovedIn, MovedInAny;
    var s, own, moved, st1, byValue := Case(e, arms), OwnedIn(st), MovedIn(st), Take(p, tys, e, st).value, Consuming(e);
    var own1, moved1 := own - TakenBy(p, tys, e), moved + MovesIn(TakeEvents(p, tys, e));
    var branches, out := AnalyzeArms(p, tys, arms, byValue, st1).value.0, MovedIn(AnalyzeStmt(p, tys, s, st).value.st);
    JoinMoves(branches);
    forall x
      ensures x in out <==> x in MovedInAny(branches)
    {
      MovedInAnyIs(branches, x);
    }
    assert out == MovedInAny(branches);
    forall way
      ensures Gone(p, tys, s, way, own, moved) <= out
    {
      assert GoneInArm(p, tys, arms, way.choice, First(way.subs), byValue, own1, moved1) <= out;
    }
    forall x | x in out
      ensures GoneSomehow(p, tys, s, own, moved, x)
    {
      assert GoneInSomeArm(p, tys, arms, byValue, own1, moved1, x);
      var choice: nat, way :| x in GoneInArm(p, tys, arms, choice, way, byValue, own1, moved1);
      assert x in Gone(p, tys, s, Path(choice, Cons(way, Nil)), own, moved);
    }
  }

  // -------------------------------------------------------------------------
  // Functions
  // -------------------------------------------------------------------------

  // One way through a function, from its entry to its returned value.
  ghost predicate PassesRun(p: Program, f: Fun, ways: List<Path>) {
    var own := OwnedIn(Entry(f));
    && PassesAll(p, f.tys, f.body, ways, own, {})
    && Lawful(GoneAll(p, f.tys, f.body, ways, own, {}), TakeEvents(p, f.tys, f.ret))
  }

  // A function is accepted if and only if every way through it passes.
  lemma {:induction false} FunctionAcceptedExactly(p: Program, f: Fun)
    ensures AnalyzeFunction(p, f).Some? <==> forall ways :: PassesRun(p, f, ways)
  {
    var st, own := Entry(f), OwnedIn(Entry(f));
    assert MovedIn(st) == {};
    AllAcceptedExactly(p, f.tys, f.body, st);
    if forall ways :: PassesRun(p, f, ways) {
      forall ways
        ensures PassesAll(p, f.tys, f.body, ways, own, {})
      {
        assert PassesRun(p, f, ways);
      }
    }
    if AnalyzeStmts(p, f.tys, f.body, st).Some? {
      var out := AnalyzeStmts(p, f.tys, f.body, st).value.st;
      TakeAcceptedExactly(p, f.tys, f.ret, out);
      if forall ways :: PassesRun(p, f, ways) {
        LawfulSum(p, f, MovedIn(out));
      }
      if AnalyzeFunction(p, f).Some? {
        forall ways
          ensures PassesRun(p, f, ways)
        {
          assert PassesAll(p, f.tys, f.body, ways, own, {});
          LawfulLess(MovedIn(out), GoneAll(p, f.tys, f.body, ways, own, {}), TakeEvents(p, f.tys, f.ret));
        }
      }
    }
  }

  lemma {:induction false} LawfulSum(p: Program, f: Fun, gone: set<Name>)
    requires forall ways :: PassesRun(p, f, ways)
    requires forall x | x in gone :: GoneAllSomehow(p, f.tys, f.body, OwnedIn(Entry(f)), {}, x)
    ensures Lawful(gone, TakeEvents(p, f.tys, f.ret))
    decreases gone
  {
    var own, evs := OwnedIn(Entry(f)), TakeEvents(p, f.tys, f.ret);
    if gone == {} {
      assert PassesRun(p, f, Nil);
      LawfulLess(GoneAll(p, f.tys, f.body, Nil, own, {}), {}, evs);
    } else {
      var x :| x in gone;
      var ways :| x in GoneAll(p, f.tys, f.body, ways, own, {});
      assert PassesRun(p, f, ways);
      LawfulSum(p, f, gone - {x});
      LawfulBoth(gone - {x}, GoneAll(p, f.tys, f.body, ways, own, {}), evs);
      LawfulLess(gone - {x} + GoneAll(p, f.tys, f.body, ways, own, {}), gone, evs);
    }
  }
}
