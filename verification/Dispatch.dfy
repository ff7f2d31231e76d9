/** CheckCaseCompleteness, and the order in which generated code tries the arms. */
module Dispatch {
  import opened Syntax
  import opened Heap
  import opened Static
  import opened Machine

  predicate IsIrrefutable(q: Pat) {
    q.PVar? || q.PWild?
  }

  predicate AllIrrefutable(qs: List<Pat>) {
    match qs
    case Nil => true
    case Cons(q, t) => IsIrrefutable(q) && AllIrrefutable(t)
  }

  predicate PatternsIdentical(a: Pat, b: Pat)
    decreases a, 1
  {
    if a.PWild? && b.PWild? then true
    else if a.PVar? && b.PVar? then a.x == b.x
    else if a.PCtor? && b.PCtor? then a.tag == b.tag && AllIdentical(a.subs, b.subs)
    else false
  }

  predicate AllIdentical(xs: List<Pat>, ys: List<Pat>)
    decreases xs, 0
  {
    if xs.Nil? || ys.Nil? then xs.Nil? && ys.Nil?
    else PatternsIdentical(xs.head, ys.head) && AllIdentical(xs.tail, ys.tail)
  }

  // An earlier arm for the same constructor that already takes all this one would.
  predicate Covers(earlier: Arm, later: Arm) {
    earlier.tag == later.tag && (AllIrrefutable(earlier.pats) || AllIdentical(earlier.pats, later.pats))
  }

  ghost predicate HasArm(arms: seq<Arm>, tag: Name) {
    exists i :: 0 <= i < |arms| && arms[i].tag == tag
  }

  predicate Fits(cs: map<Name, Ctor>, arm: Arm) {
    arm.tag in cs && Length(arm.pats) == Length(cs[arm.tag].params)
  }

  ghost predicate Complete(cs: map<Name, Ctor>, arms: seq<Arm>) {
    && arms != []
    && (forall i | 0 <= i < |arms| :: Fits(cs, arms[i]))
    && (forall i, j | 0 <= j < i < |arms| :: !Covers(arms[j], arms[i]))
    && (forall c | c in cs && cs[c].owner == cs[arms[0].tag].owner :: HasArm(arms, c))
    && (forall i | 0 <= i < |arms| :: cs[arms[i].tag].owner == cs[arms[0].tag].owner)
  }

  // The arms seen so far, by constructor: Rule 3 looks only at those.
  ghost predicate Seen(seen: map<Name, seq<Arm>>, arms: seq<Arm>) {
    && (forall a | a in arms :: a.tag in seen && a in seen[a.tag])
    && (forall t, a | t in seen && a in seen[t] :: a.tag == t && a in arms)
    && (forall t | t in seen :: seen[t] != [])
  }

  // Whether an earlier arm of the same constructor makes this one unreachable.
  method Unreachable(earlier: seq<Arm>, arm: Arm) returns (found: bool)
    requires forall a | a in earlier :: a.tag == arm.tag
    ensures found <==> exists a :: a in earlier && Covers(a, arm)
  {
    for j := 0 to |earlier|
      invariant forall a | a in earlier[..j] :: !Covers(a, arm)
    {
      assert earlier[..j + 1] == earlier[..j] + [earlier[j]];
      assert earlier[j] in earlier;
      if AllIrrefutable(earlier[j].pats) || AllIdentical(earlier[j].pats, arm.pats) {
        return true;
      }
    }
    assert earlier[..|earlier|] == earlier;
    found := false;
  }

  // Rules 1 to 3, arm by arm.
  ghost predicate ArmsAccepted(cs: map<Name, Ctor>, arms: seq<Arm>) {
    && (forall i | 0 <= i < |arms| :: Fits(cs, arms[i]))
    && (forall i, j | 0 <= j < i < |arms| :: !Covers(arms[j], arms[i]))
  }

  method CheckArms(cs: map<Name, Ctor>, arms: seq<Arm>) returns (ok: bool, seen: map<Name, seq<Arm>>)
    ensures ok <==> ArmsAccepted(cs, arms)
    ensures ok ==> Seen(seen, arms)
  {
    seen := map[];
    for i := 0 to |arms|
      invariant ArmsAccepted(cs, arms[..i])
      invariant Seen(seen, arms[..i])
    {
      var arm := arms[i];
      if arm.tag !in cs || Length(arm.pats) != Length(cs[arm.tag].params) {
        assert !Fits(cs, arms[i]);
        return false, seen;
      }
      var earlier := if arm.tag in seen then seen[arm.tag] else [];
      var found := Unreachable(earlier, arm);
      if found {
        EarlierCovers(seen, arms, i, earlier);
        return false, seen;
      }
      NoneCovers(seen, arms, i, earlier);
      SeenMore(seen, arms[..i], arm, earlier);
      assert arms[..i] + [arm] == arms[..i + 1];
      seen := seen[arm.tag := earlier + [arm]];
    }
    assert arms[..|arms|] == arms;
    ok := true;
  }

  // The visit of one case statement; false is the error it throws.
  method CheckCase(cs: map<Name, Ctor>, arms: seq<Arm>) returns (ok: bool)
    ensures ok <==> Complete(cs, arms)
  {
    var seen;
    ok, seen := CheckArms(cs, arms);
    if !ok || arms == [] {
      return false;
    }
    SeenTags(seen, arms);
    assert Fits(cs, arms[0]);
    var owner := cs[arms[0].tag].owner;
    var ctors := set c | c in cs && cs[c].owner == owner;
    assert forall t | t in seen :: HasArm(arms, t) && t in cs;
    ok := ctors <= seen.Keys && forall t | t in seen.Keys :: cs[t].owner == owner;
  }

  lemma EarlierCovers(seen: map<Name, seq<Arm>>, arms: seq<Arm>, i: nat, earlier: seq<Arm>)
    requires i < |arms| && Seen(seen, arms[..i])
    requires earlier == if arms[i].tag in seen then seen[arms[i].tag] else []
    requires exists a :: a in earlier && Covers(a, arms[i])
    ensures exists j :: 0 <= j < i && Covers(arms[j], arms[i])
  {
    var a :| a in earlier && Covers(a, arms[i]);
    assert a in arms[..i];
    var j :| 0 <= j < i && arms[j] == a;
  }

  lemma NoneCovers(seen: map<Name, seq<Arm>>, arms: seq<Arm>, i: nat, earlier: seq<Arm>)
    requires i < |arms| && Seen(seen, arms[..i])
    requires earlier == if arms[i].tag in seen then seen[arms[i].tag] else []
    requires !exists a :: a in earlier && Covers(a, arms[i])
    ensures forall j | 0 <= j < i :: !Covers(arms[j], arms[i])
  {
    forall j | 0 <= j < i
      ensures !Covers(arms[j], arms[i])
    {
      assert arms[j] in arms[..i];
    }
  }

  lemma SeenMore(seen: map<Name, seq<Arm>>, arms: seq<Arm>, arm: Arm, earlier: seq<Arm>)
    requires Seen(seen, arms)
    requires earlier == if arm.tag in seen then seen[arm.tag] else []
    ensures Seen(seen[arm.tag := earlier + [arm]], arms + [arm])
  {
  }

  lemma SeenTags(seen: map<Name, seq<Arm>>, arms: seq<Arm>)
    requires Seen(seen, arms)
    ensures forall t :: t in seen <==> HasArm(arms, t)
    ensures forall i | 0 <= i < |arms| :: arms[i].tag in seen
  {
    forall i | 0 <= i < |arms|
      ensures arms[i].tag in seen
    {
      assert arms[i] in arms;
    }
    forall t | t in seen
      ensures HasArm(arms, t)
    {
      assert seen[t][0] in seen[t];
      assert seen[t][0] in arms;
    }
  }

  // Of two patterns for the same payload; there the binders' types agree too.
  lemma {:induction false} IdenticalIsEqual(p: Program, a: Pat, b: Pat, ty: Ty)
    requires PatTyped(p, a, ty) && PatTyped(p, b, ty)
    ensures PatternsIdentical(a, b) <==> a == b
    decreases a, 1
  {
    if a.PCtor? && b.PCtor? && a.tag == b.tag {
      AllIdenticalIsEqual(p, a.subs, b.subs, p.ctors[a.tag].params);
    }
  }

  lemma {:induction false} AllIdenticalIsEqual(p: Program, xs: List<Pat>, ys: List<Pat>, ts: List<Ty>)
    requires PatsTyped(p, xs, ts) && PatsTyped(p, ys, ts)
    ensures AllIdentical(xs, ys) <==> xs == ys
    decreases xs, 0
  {
    if xs.Cons? && ys.Cons? {
      IdenticalIsEqual(p, xs.head, ys.head, ts.head);
      AllIdenticalIsEqual(p, xs.tail, ys.tail, ts.tail);
    }
  }

  lemma {:induction false} IrrefutableExactly(qs: List<Pat>)
    ensures AllIrrefutable(qs) <==> forall q | q in Elems(qs) :: !q.PCtor?
    decreases qs
  {
    if qs.Cons? {
      IrrefutableExactly(qs.tail);
    }
  }

  // Of two arms of one constructor, the earlier covers the later if and only if it
  // has no constructor pattern at all, or the very same patterns.
  lemma {:induction false} CoversExactly(p: Program, earlier: Arm, later: Arm)
    requires later.tag in p.ctors && PatsTyped(p, later.pats, p.ctors[later.tag].params)
    requires earlier.tag in p.ctors && PatsTyped(p, earlier.pats, p.ctors[earlier.tag].params)
    ensures Covers(earlier, later) <==>
      && earlier.tag == later.tag
      && ((forall q | q in Elems(earlier.pats) :: !q.PCtor?) || earlier.pats == later.pats)
  {
    IrrefutableExactly(earlier.pats);
    if earlier.tag == later.tag {
      AllIdenticalIsEqual(p, earlier.pats, later.pats, p.ctors[later.tag].params);
    }
  }

  // Whatever their types, identical patterns match the same values.
  lemma {:induction false} IdenticalMatchAlike(a: Pat, b: Pat, sh: Shape)
    requires PatternsIdentical(a, b)
    ensures Matches(a, sh) <==> Matches(b, sh)
    decreases a, 1
  {
    if a.PCtor? && sh.Con? {
      AllIdenticalMatchAlike(a.subs, b.subs, sh.subs);
    }
  }

  lemma {:induction false} AllIdenticalMatchAlike(xs: List<Pat>, ys: List<Pat>, shs: List<Shape>)
    requires AllIdentical(xs, ys)
    ensures AllMatch(xs, shs) <==> AllMatch(ys, shs)
    decreases xs, 0
  {
    if xs.Cons? && shs.Cons? {
      IdenticalMatchAlike(xs.head, ys.head, shs.head);
      AllIdenticalMatchAlike(xs.tail, ys.tail, shs.tail);
    }
  }

  lemma {:induction false} IrrefutableMatches(qs: List<Pat>, shs: List<Shape>, cs: map<Name, Ctor>, ts: List<Ty>)
    requires AllIrrefutable(qs) && HaveTypes(cs, shs, ts) && Length(qs) == Length(ts)
    ensures AllMatch(qs, shs)
    decreases qs
  {
    if qs.Cons? {
      IrrefutableMatches(qs.tail, shs.tail, cs, ts.tail);
    }
  }

  predicate ArmMatches(arm: Arm, sh: Shape) {
    sh.Con? && arm.tag == sh.tag && AllMatch(arm.pats, sh.subs)
  }

  // An arm rejected as unreachable could never have been selected: whatever value
  // it would take, the earlier arm takes first.
  lemma {:induction false} RejectedNeverSelected(cs: map<Name, Ctor>, earlier: Arm, later: Arm, sh: Shape, owner: Name)
    requires Covers(earlier, later)
    requires later.tag in cs && Length(earlier.pats) == Length(cs[later.tag].params)
    requires HasType(cs, sh, TSum(owner))
    requires ArmMatches(later, sh)
    ensures ArmMatches(earlier, sh)
  {
    if AllIdentical(earlier.pats, later.pats) {
      AllIdenticalMatchAlike(earlier.pats, later.pats, sh.subs);
    }
    if AllIrrefutable(earlier.pats) {
      IrrefutableMatches(earlier.pats, sh.subs, cs, cs[sh.tag].params);
    }
  }

  lemma {:induction false} SomeArmAt(arms: seq<Arm>, i: nat, sh: Shape)
    requires i < |arms| && ArmMatches(arms[i], sh)
    ensures SomeArm(ToList(arms), sh)
    decreases i
  {
    if i > 0 {
      SomeArmAt(arms[1..], i - 1, sh);
    }
  }

  ghost predicate HasPlainArm(arms: seq<Arm>, tag: Name) {
    exists k :: 0 <= k < |arms| && arms[k].tag == tag && AllIrrefutable(arms[k].pats)
  }

  // An accepted case whose constructors each have an arm with nothing to refute
  // always selects an arm, whatever the value.
  lemma {:induction false} AcceptedIsExhaustive(cs: map<Name, Ctor>, arms: seq<Arm>)
    requires Complete(cs, arms)
    requires forall i | 0 <= i < |arms| :: HasPlainArm(arms, arms[i].tag)
    ensures Exhaustive(cs, ToList(arms), cs[arms[0].tag].owner)
  {
    forall sh | HasType(cs, sh, TSum(cs[arms[0].tag].owner))
      ensures SomeArm(ToList(arms), sh)
    {
      assert HasArm(arms, sh.tag);
      var i :| 0 <= i < |arms| && arms[i].tag == sh.tag;
      assert HasPlainArm(arms, arms[i].tag);
      var k :| 0 <= k < |arms| && arms[k].tag == sh.tag && AllIrrefutable(arms[k].pats);
      assert Fits(cs, arms[k]);
      IrrefutableMatches(arms[k].pats, sh.subs, cs, cs[sh.tag].params);
      SomeArmAt(arms, k, sh);
    }
  }

  // Generated code switches on the outer tag and tries only the arms of that tag,
  // in order: the arm it runs is the first match in source order.
  lemma {:induction false} SwitchThenChain(w: World, arms: List<Arm>, consuming: bool, box: nat, s: State, fuel: nat)
    requires s.frames != []
    requires box in s.heap && s.heap[box].Box?
    ensures ExecArms(w, arms, consuming, box, s, fuel)
      == ExecArms(w, Group(arms, s.heap[box].tag), consuming, box, s, fuel)
    decreases arms
  {
    if arms.Cons? {
      SwitchThenChain(w, arms.tail, consuming, box, s, fuel);
    }
  }
}
