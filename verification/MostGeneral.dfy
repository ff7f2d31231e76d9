/** Substitutions: what the classes of a solved union-find say about finite unifiers. */
module MostGeneral {
  import opened UnionFind
  import opened Unification

  type Substitution = nat -> Term

  function Subst(theta: Substitution, t: Term): Term {
    match t
    case Var(v) => theta(v)
    case App(f, args) => App(f, seq(|args|, i requires 0 <= i < |args| => Subst(theta, args[i])))
  }

  ghost predicate Unifier(theta: Substitution, cs: seq<Constraint>) {
    forall i | 0 <= i < |cs| :: Subst(theta, cs[i].0) == Subst(theta, cs[i].1)
  }

  // A class points to the classes of its proper root's arguments; rank witnesses
  // that following these pointers ends.
  ghost predicate Acyclic(root: map<Term, Term>, rank: Term -> nat) {
    forall t: Term, i | RepIn(root, t).App? && 0 <= i < |RepIn(root, t).args| ::
      rank(RepIn(root, RepIn(root, t).args[i])) < rank(RepIn(root, t))
  }

  // The term with every bound variable replaced, all the way down.
  ghost function Resolve(root: map<Term, Term>, rank: Term -> nat, t: Term): Term
    requires Acyclic(root, rank)
    decreases rank(RepIn(root, t))
  {
    match RepIn(root, t)
    case Var(v) => Var(v)
    case App(f, args) => App(f, seq(|args|, i requires 0 <= i < |args| => Resolve(root, rank, args[i])))
  }

  // Every class in active is strictly above t's.
  ghost predicate Below(root: map<Term, Term>, rank: Term -> nat, t: Term, active: set<Term>) {
    forall a | a in active :: rank(RepIn(root, t)) < rank(a)
  }

  ghost function Solved(root: map<Term, Term>, rank: Term -> nat): Substitution
    requires Acyclic(root, rank)
  {
    (v: nat) => Resolve(root, rank, Var(v))
  }

  // A substitution that unifies is a labelling that solves.
  lemma UnifierSolves(theta: Substitution, cs: seq<Constraint>)
    requires Unifier(theta, cs)
    ensures Solution(t => Subst(theta, t), cs)
  {
    var l: Labelling := t => Subst(theta, t);
    forall s: Term, t: Term | s.App? && t.App? && l(s) == l(t)
      ensures SameArgs(l, s, t)
    {
      assert Subst(theta, s) == Subst(theta, t);
      assert |s.args| == |Subst(theta, s).args| == |t.args|;
      forall i | 0 <= i < |s.args|
        ensures l(s.args[i]) == l(t.args[i])
      {
        assert Subst(theta, s).args[i] == Subst(theta, t).args[i];
      }
    }
  }

  // Resolving commutes with the term's own structure: it is a substitution.
  lemma {:induction false} ResolveIsSubst(root: map<Term, Term>, rank: Term -> nat, given: seq<Constraint>, t: Term)
    requires Acyclic(root, rank) && Progress(root, given, []) && Idempotent(root)
    ensures Resolve(root, rank, t) == Subst(Solved(root, rank), t)
    decreases t
  {
    if t.App? {
      ClassesAreMostGeneral(root, given);
      var r, e := RepIn(root, t), Classes(root);
      assert e(t) == e(r) && r.App?;
      assert SameArgs(e, t, r);
      forall i | 0 <= i < |t.args|
        ensures Resolve(root, rank, t).args[i] == Subst(Solved(root, rank), t.args[i])
      {
        ResolveIsSubst(root, rank, given, t.args[i]);
        assert RepIn(root, t.args[i]) == RepIn(root, r.args[i]);
      }
    }
  }

  // A unifier sees no difference between a term and its resolved form.
  lemma {:induction false} ResolveInvisible(root: map<Term, Term>, rank: Term -> nat, given: seq<Constraint>,
      theta: Substitution, t: Term)
    requires Acyclic(root, rank) && Progress(root, given, [])
    requires Unifier(theta, given)
    ensures Subst(theta, Resolve(root, rank, t)) == Subst(theta, t)
    decreases rank(RepIn(root, t))
  {
    UnifierSolves(theta, given);
    var l: Labelling := u => Subst(theta, u);
    assert Respects(l, root);
    var r := RepIn(root, t);
    assert l(r) == l(t);
    if r.App? {
      forall i | 0 <= i < |r.args|
        ensures Subst(theta, Resolve(root, rank, r.args[i])) == Subst(theta, r.args[i])
      {
        ResolveInvisible(root, rank, given, theta, r.args[i]);
      }
      assert Subst(theta, Resolve(root, rank, t)) == Subst(theta, r);
    }
  }

  // When the classes are acyclic, resolving is a most general unifier.
  lemma ResolvedIsMostGeneral(root: map<Term, Term>, rank: Term -> nat, given: seq<Constraint>)
    requires Acyclic(root, rank) && Progress(root, given, []) && Idempotent(root)
    ensures Unifier(Solved(root, rank), given)
    ensures forall theta: Substitution, t :: Unifier(theta, given) ==>
      Subst(theta, Subst(Solved(root, rank), t)) == Subst(theta, t)
  {
    ClassesAreMostGeneral(root, given);
    var e := Classes(root);
    forall i | 0 <= i < |given|
      ensures Subst(Solved(root, rank), given[i].0) == Subst(Solved(root, rank), given[i].1)
    {
      assert e(given[i].0) == e(given[i].1);
      ResolveIsSubst(root, rank, given, given[i].0);
      ResolveIsSubst(root, rank, given, given[i].1);
    }
    forall theta: Substitution, t | Unifier(theta, given)
      ensures Subst(theta, Subst(Solved(root, rank), t)) == Subst(theta, t)
    {
      ResolveIsSubst(root, rank, given, t);
      ResolveInvisible(root, rank, given, theta, t);
    }
  }

  function Size(t: Term): nat {
    match t
    case Var(_) => 1
    case App(_, args) => 1 + Total(args)
  }

  function Total(ts: seq<Term>): nat {
    if ts == [] then 0 else Size(ts[0]) + Total(ts[1..])
  }

  lemma {:induction false} PartSmaller(ts: seq<Term>, i: nat)
    requires i < |ts|
    ensures Size(ts[i]) <= Total(ts)
  {
    if i > 0 {
      PartSmaller(ts[1..], i - 1);
    }
  }

  // A finite unifier exists only if the classes are acyclic: the sizes of the
  // unified terms are a rank.
  lemma UnifierMeansAcyclic(root: map<Term, Term>, given: seq<Constraint>, theta: Substitution)
    requires Progress(root, given, []) && Unifier(theta, given)
    ensures Acyclic(root, t => Size(Subst(theta, t)))
  {
    UnifierSolves(theta, given);
    var l: Labelling := u => Subst(theta, u);
    assert Respects(l, root);
    forall t: Term, i | RepIn(root, t).App? && 0 <= i < |RepIn(root, t).args|
      ensures Size(Subst(theta, RepIn(root, RepIn(root, t).args[i]))) < Size(Subst(theta, RepIn(root, t)))
    {
      var r := RepIn(root, t);
      assert l(RepIn(root, r.args[i])) == l(r.args[i]);
      var s := Subst(theta, r);
      assert s.args[i] == Subst(theta, r.args[i]);
      PartSmaller(s.args, i);
    }
  }

  // The whole story after a successful solve: the constraints have a finite
  // unifier exactly when the classes are acyclic.
  lemma FinitelyUnifiableExactly(root: map<Term, Term>, given: seq<Constraint>)
    requires Progress(root, given, []) && Idempotent(root)
    ensures (exists theta :: Unifier(theta, given)) <==> (exists rank :: Acyclic(root, rank))
  {
    if theta :| Unifier(theta, given) {
      UnifierMeansAcyclic(root, given, theta);
    }
    if rank :| Acyclic(root, rank) {
      ResolvedIsMostGeneral(root, rank, given);
    }
  }
}
