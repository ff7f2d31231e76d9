/** What unification computes: the coarsest demands a set of constraints makes. */
module Unification {
  import opened Sets
  import opened UnionFind

  type Constraint = (Term, Term)

  // A labelling stands for an equivalence: terms with one label are equal. Every
  // equivalence on terms arises so, and every substitution, over rational trees
  // too, gives one: label a term with the tree it becomes.
  type Labelling = Term -> Term

  ghost predicate Meets(l: Labelling, cs: seq<Constraint>) {
    forall i | 0 <= i < |cs| :: l(cs[i].0) == l(cs[i].1)
  }

  ghost predicate SameArgs(l: Labelling, s: Term, t: Term) {
    && s.App? && t.App?
    && s.functor == t.functor && |s.args| == |t.args|
    && forall i | 0 <= i < |s.args| :: l(s.args[i]) == l(t.args[i])
  }

  // Closed under arguments, with no clash of functors inside a class.
  ghost predicate Coherent(l: Labelling) {
    forall s: Term, t: Term {:trigger SameArgs(l, s, t)} :: s.App? && t.App? && l(s) == l(t) ==> SameArgs(l, s, t)
  }

  ghost predicate Solution(l: Labelling, cs: seq<Constraint>) {
    Meets(l, cs) && Coherent(l)
  }

  // l equates at least what the union-find does.
  ghost predicate Respects(l: Labelling, root: map<Term, Term>) {
    forall t: Term {:trigger RepIn(root, t)} :: l(RepIn(root, t)) == l(t)
  }

  // The invariant of solving: what is forced is exactly the classes merged so far
  // together with the constraints still pending.
  ghost predicate Sound(root: map<Term, Term>, given: seq<Constraint>, pending: seq<Constraint>) {
    forall l: Labelling {:trigger Solution(l, given)} :: Solution(l, given) ==> Respects(l, root) && Meets(l, pending)
  }

  ghost predicate Covering(root: map<Term, Term>, given: seq<Constraint>, pending: seq<Constraint>) {
    forall l: Labelling {:trigger Meets(l, given)} :: Respects(l, root) && Meets(l, pending) ==> Meets(l, given)
  }

  // A class holding a proper term has a proper root, and the arguments of the two
  // are equated, now or by the constraints pending.
  ghost predicate ProperRoots(root: map<Term, Term>) {
    forall t: Term {:trigger RepIn(root, t)} :: t.App? ==> RepIn(root, t).App?
  }

  ghost predicate Closing(root: map<Term, Term>, pending: seq<Constraint>) {
    forall l: Labelling, t: Term {:trigger SameArgs(l, t, RepIn(root, t))} ::
      Respects(l, root) && Meets(l, pending) && t.App? ==> SameArgs(l, t, RepIn(root, t))
  }

  ghost predicate Progress(root: map<Term, Term>, given: seq<Constraint>, pending: seq<Constraint>) {
    Sound(root, given, pending) && Covering(root, given, pending) && ProperRoots(root) && Closing(root, pending)
  }

  lemma MeetsMore(l: Labelling, xs: seq<Constraint>, ys: seq<Constraint>)
    ensures Meets(l, xs + ys) <==> Meets(l, xs) && Meets(l, ys)
  {
    if Meets(l, xs + ys) {
      forall i | 0 <= i < |xs|
        ensures l(xs[i].0) == l(xs[i].1)
      {
        assert (xs + ys)[i] == xs[i];
      }
      forall i | 0 <= i < |ys|
        ensures l(ys[i].0) == l(ys[i].1)
      {
        assert (xs + ys)[|xs| + i] == ys[i];
      }
    }
  }

  // A new constraint joins both what is given and what is pending.
  lemma ProgressAdd(root: map<Term, Term>, given: seq<Constraint>, pending: seq<Constraint>, c: Constraint)
    requires Progress(root, given, pending)
    ensures Progress(root, given + [c], pending + [c])
  {
    forall l: Labelling
      ensures Solution(l, given + [c]) ==> Respects(l, root) && Meets(l, pending + [c])
      ensures Respects(l, root) && Meets(l, pending + [c]) ==> Meets(l, given + [c])
    {
      MeetsMore(l, given, [c]);
      MeetsMore(l, pending, [c]);
      assert Solution(l, given + [c]) ==> Solution(l, given);
    }
    forall l: Labelling, t: Term | Respects(l, root) && Meets(l, pending + [c]) && t.App?
      ensures SameArgs(l, t, RepIn(root, t))
    {
      MeetsMore(l, pending, [c]);
    }
  }

  // A constraint between terms already in one class asks for nothing.
  lemma ProgressSkip(root: map<Term, Term>, given: seq<Constraint>, pending: seq<Constraint>, t1: Term, t2: Term)
    requires Progress(root, given, [(t1, t2)] + pending)
    requires RepIn(root, t1) == RepIn(root, t2)
    ensures Progress(root, given, pending)
  {
    forall l: Labelling
      ensures Respects(l, root) && Meets(l, pending) ==> Meets(l, [(t1, t2)] + pending)
      ensures Meets(l, [(t1, t2)] + pending) ==> Meets(l, pending)
    {
      MeetsMore(l, [(t1, t2)], pending);
      if Respects(l, root) {
        assert l(RepIn(root, t1)) == l(t1) && l(RepIn(root, t2)) == l(t2);
      }
    }
  }

  function ArgPairs(a: Term, b: Term): seq<Constraint>
    requires a.App? && b.App? && |a.args| == |b.args|
  {
    seq(|a.args|, i requires 0 <= i < |a.args| => (a.args[i], b.args[i]))
  }

  ghost predicate Unifies(t1: Term, t2: Term, root: map<Term, Term>, a: Term, b: Term, more: seq<Constraint>) {
    && a != b
    && ((RepIn(root, t1) == a && RepIn(root, t2) == b) || (RepIn(root, t1) == b && RepIn(root, t2) == a))
    && RepIn(root, a) == a && RepIn(root, b) == b
    && (a.Var? ==> more == [])
    && (a.App? ==> b.App? && a.functor == b.functor && |a.args| == |b.args| && more == ArgPairs(a, b))
  }

  // Going back: a labelling that respects the merged classes and the arguments'
  // constraints respected the classes before, and the constraint just taken.
  lemma BeforeMerge(l: Labelling, root: map<Term, Term>, root': map<Term, Term>, pending: seq<Constraint>, t1: Term,
      t2: Term, a: Term, b: Term, more: seq<Constraint>)
    requires Unifies(t1, t2, root, a, b, more) && Merged(root, root', a, b)
    requires Respects(l, root') && Meets(l, pending + more)
    ensures Respects(l, root) && Meets(l, [(t1, t2)] + pending) && l(a) == l(b)
    ensures a.App? ==> SameArgs(l, a, b)
  {
    MeetsMore(l, pending, more);
    MeetsMore(l, [(t1, t2)], pending);
    assert RepIn(root', a) == b;
    forall u
      ensures l(RepIn(root, u)) == l(u)
    {
      assert l(RepIn(root', u)) == l(u);
    }
    if a.App? {
      forall i | 0 <= i < |a.args|
        ensures l(a.args[i]) == l(b.args[i])
      {
        assert more[i] == (a.args[i], b.args[i]);
      }
    }
    assert l(RepIn(root, t1)) == l(t1) && l(RepIn(root, t2)) == l(t2);
  }

  // Going forward: a solution respects the merge and meets the new constraints.
  lemma AfterMerge(l: Labelling, root: map<Term, Term>, root': map<Term, Term>, pending: seq<Constraint>, t1: Term,
      t2: Term, a: Term, b: Term, more: seq<Constraint>)
    requires Unifies(t1, t2, root, a, b, more) && Merged(root, root', a, b)
    requires Coherent(l) && Respects(l, root) && Meets(l, [(t1, t2)] + pending)
    ensures Respects(l, root') && Meets(l, pending + more)
  {
    MeetsMore(l, [(t1, t2)], pending);
    MeetsMore(l, pending, more);
    assert l([(t1, t2)][0].0) == l([(t1, t2)][0].1);
    assert l(RepIn(root, t1)) == l(t1) && l(RepIn(root, t2)) == l(t2);
    forall u
      ensures l(RepIn(root', u)) == l(u)
    {
      assert l(RepIn(root, u)) == l(u);
    }
    if a.App? {
      assert SameArgs(l, a, b);
    }
  }

  lemma ProgressMerge(root: map<Term, Term>, root': map<Term, Term>, given: seq<Constraint>, pending: seq<Constraint>,
      t1: Term, t2: Term, a: Term, b: Term, more: seq<Constraint>)
    requires Progress(root, given, [(t1, t2)] + pending)
    requires Unifies(t1, t2, root, a, b, more) && Merged(root, root', a, b)
    ensures Progress(root', given, pending + more)
  {
    forall l: Labelling | Solution(l, given)
      ensures Respects(l, root') && Meets(l, pending + more)
    {
      AfterMerge(l, root, root', pending, t1, t2, a, b, more);
    }
    forall l: Labelling | Respects(l, root') && Meets(l, pending + more)
      ensures Meets(l, given)
    {
      BeforeMerge(l, root, root', pending, t1, t2, a, b, more);
    }
    forall t: Term | t.App?
      ensures RepIn(root', t).App?
    {
      assert RepIn(root, t).App?;
    }
    forall l: Labelling, t: Term | Respects(l, root') && Meets(l, pending + more) && t.App?
      ensures SameArgs(l, t, RepIn(root', t))
    {
      BeforeMerge(l, root, root', pending, t1, t2, a, b, more);
      assert RepIn(root, t).App?;
      assert SameArgs(l, t, RepIn(root, t));
    }
  }

  lemma RepsMadeSame(root: map<Term, Term>, given: seq<Constraint>, pending: seq<Constraint>, t1: Term, t2: Term,
      l: Labelling)
    requires Progress(root, given, [(t1, t2)] + pending)
    requires Solution(l, given)
    requires RepIn(root, t1).App? && RepIn(root, t2).App?
    ensures SameArgs(l, RepIn(root, t1), RepIn(root, t2))
  {
    assert l(([(t1, t2)] + pending)[0].0) == l(([(t1, t2)] + pending)[0].1);
    assert l(RepIn(root, t1)) == l(t1) && l(RepIn(root, t2)) == l(t2);
    assert SameArgs(l, RepIn(root, t1), RepIn(root, t2));
  }

  // Two proper terms with different functors cannot be made equal.
  lemma ClashMeansNone(root: map<Term, Term>, given: seq<Constraint>, pending: seq<Constraint>, t1: Term, t2: Term,
      l: Labelling)
    requires Progress(root, given, [(t1, t2)] + pending)
    requires var r1, r2 := RepIn(root, t1), RepIn(root, t2);
      r1.App? && r2.App? && (r1.functor != r2.functor || |r1.args| != |r2.args|)
    ensures !Solution(l, given)
  {
    if Solution(l, given) {
      RepsMadeSame(root, given, pending, t1, t2, l);
    }
  }

  // -------------------------------------------------------------------------
  // Nothing pending: the classes are a solution, and the finest one
  // -------------------------------------------------------------------------

  ghost predicate Idempotent(root: map<Term, Term>) {
    forall t: Term {:trigger RepIn(root, t)} :: RepIn(root, RepIn(root, t)) == RepIn(root, t)
  }

  ghost function Classes(root: map<Term, Term>): Labelling {
    t => RepIn(root, t)
  }

  // The equivalence found meets every constraint, is closed under arguments and
  // has no clash; and every solution equates all that it equates.
  lemma ClassesAreMostGeneral(root: map<Term, Term>, given: seq<Constraint>)
    requires Progress(root, given, []) && Idempotent(root)
    ensures Solution(Classes(root), given)
    ensures forall l: Labelling, s, t :: Solution(l, given) && RepIn(root, s) == RepIn(root, t) ==> l(s) == l(t)
  {
    var e := Classes(root);
    forall t: Term
      ensures e(RepIn(root, t)) == e(t)
    {
      assert RepIn(root, RepIn(root, t)) == RepIn(root, t);
    }
    assert Respects(e, root);
    assert Meets(e, []);
    forall s: Term, t: Term | s.App? && t.App? && e(s) == e(t)
      ensures SameArgs(e, s, t)
    {
      assert SameArgs(e, s, RepIn(root, s)) && SameArgs(e, t, RepIn(root, t));
    }
    forall l: Labelling, s, t | Solution(l, given) && RepIn(root, s) == RepIn(root, t)
      ensures l(s) == l(t)
    {
      assert l(RepIn(root, s)) == l(s) && l(RepIn(root, t)) == l(t);
    }
  }

  // Roots are their own representatives.
  lemma RootsAreRoots(edges: map<Term, Term>, root: map<Term, Term>, depth: map<Term, nat>)
    requires AllLinked(edges, root, depth)
    ensures Idempotent(root)
    ensures forall t {:trigger RepIn(root, t)} :: t in edges ==> RepIn(root, t) in edges
  {
    forall t: Term
      ensures RepIn(root, RepIn(root, t)) == RepIn(root, t) && (t in edges ==> RepIn(root, t) in edges)
    {
      if t in edges {
        assert Linked(edges, root, depth, t);
        assert Linked(edges, root, depth, root[t]);
      }
    }
  }

  // Only the representatives matter, not which terms have entries.
  lemma ProgressSame(root: map<Term, Term>, root': map<Term, Term>, given: seq<Constraint>, pending: seq<Constraint>)
    requires Progress(root, given, pending)
    requires SameReps(root, root')
    ensures Progress(root', given, pending)
  {
    forall l: Labelling
      ensures Respects(l, root') <==> Respects(l, root)
    {
      RespectsSame(l, root, root');
    }
    forall t: Term | t.App?
      ensures RepIn(root', t).App?
    {
      assert RepIn(root, t).App?;
    }
    forall l: Labelling, t: Term | Respects(l, root') && Meets(l, pending) && t.App?
      ensures SameArgs(l, t, RepIn(root', t))
    {
      assert SameArgs(l, t, RepIn(root, t));
    }
  }

  lemma RespectsSame(l: Labelling, root: map<Term, Term>, root': map<Term, Term>)
    requires SameReps(root, root')
    ensures Respects(l, root') <==> Respects(l, root)
  {
    if Respects(l, root') {
      forall t
        ensures l(RepIn(root, t)) == l(t)
      {
        assert l(RepIn(root', t)) == l(t);
      }
    }
    if Respects(l, root) {
      forall t
        ensures l(RepIn(root', t)) == l(t)
      {
        assert l(RepIn(root, t)) == l(t);
      }
    }
  }

  // -------------------------------------------------------------------------
  // The finite universe that bounds the work
  // -------------------------------------------------------------------------

  ghost function Subterms(t: Term): set<Term> {
    match t
    case Var(_) => {t}
    case App(_, args) => {t} + set i, s | 0 <= i < |args| && s in Subterms(args[i]) :: s
  }

  ghost predicate ClosedUnderArgs(u: set<Term>) {
    forall t: Term, i | t in u && t.App? && 0 <= i < |t.args| :: t.args[i] in u
  }

  lemma {:induction false} SubtermsClosed(t: Term)
    ensures t in Subterms(t) && ClosedUnderArgs(Subterms(t))
    decreases t
  {
    if t.App? {
      forall k | 0 <= k < |t.args|
        ensures t.args[k] in Subterms(t.args[k]) && ClosedUnderArgs(Subterms(t.args[k])) &&
          Subterms(t.args[k]) <= Subterms(t)
      {
        SubtermsClosed(t.args[k]);
      }
      forall s: Term, i | s in Subterms(t) && s.App? && 0 <= i < |s.args|
        ensures s.args[i] in Subterms(t)
      {
        if s != t {
          var k :| 0 <= k < |t.args| && s in Subterms(t.args[k]);
          assert s.args[i] in Subterms(t.args[k]);
        }
      }
    }
  }

  ghost function RootsIn(root: map<Term, Term>, u: set<Term>): set<Term> {
    set t | t in u && RepIn(root, t) == t
  }

  lemma RootsSame(root: map<Term, Term>, root': map<Term, Term>, u: set<Term>)
    requires SameReps(root, root')
    ensures RootsIn(root', u) == RootsIn(root, u)
  {
    forall t | t in u
      ensures t in RootsIn(root', u) <==> t in RootsIn(root, u)
    {
      assert RepIn(root', t) == RepIn(root, t);
    }
  }

  lemma MergeShrinks(root: map<Term, Term>, root': map<Term, Term>, u: set<Term>, a: Term, b: Term)
    requires Merged(root, root', a, b) && a != b
    requires RepIn(root, a) == a && RepIn(root, b) == b && a in u
    ensures RootsIn(root', u) < RootsIn(root, u)
    ensures |RootsIn(root', u)| < |RootsIn(root, u)|
  {
    assert RepIn(root', a) == b;
    assert a in RootsIn(root, u) && a !in RootsIn(root', u);
    forall t | t in RootsIn(root', u)
      ensures t in RootsIn(root, u)
    {
      assert RepIn(root', t) == t;
    }
    SubsetIsSmaller(RootsIn(root', u), RootsIn(root, u));
  }
}
