/** The unifier: an index loop over a list of constraints that grows while it is
    processed, merging classes in the union-find. No occurs check is made. */
module TermUnifier {
  import opened UnionFind
  import opened Unification
  import opened MostGeneral
  import opened Unfolding

  class TermUnifier {
    var constraints: seq<Constraint>
    const unionFind: TermUnionFind

    // Every constraint ever added, and all the terms in play.
    ghost var given: seq<Constraint>
    ghost var universe: set<Term>

    ghost predicate Valid()
      reads this, unionFind
    {
      unionFind.Valid() && Bounded(0) && Progress(unionFind.root, given, constraints)
    }

    // The terms in the union-find, and those pending from index i on, are in play.
    ghost predicate Bounded(i: nat)
      reads this, unionFind
    {
      && ClosedUnderArgs(universe)
      && unionFind.edges.Keys <= universe
      && forall k | i <= k < |constraints| :: constraints[k].0 in universe && constraints[k].1 in universe
    }

    constructor ()
      ensures Valid() && given == [] && constraints == [] && fresh(unionFind)
      ensures forall t :: unionFind.Rep(t) == t
    {
      constraints, given, universe := [], [], {};
      unionFind := new TermUnionFind();
      new;
      assert unionFind.root == map[] by {
        assert unionFind.root.Keys == unionFind.edges.Keys;
      }
      forall l: Labelling, t: Term | Respects(l, unionFind.root) && Meets(l, []) && t.App?
        ensures SameArgs(l, t, RepIn(unionFind.root, t))
      {
      }
    }

    method AddConstraint(t1: Term, t2: Term)
      requires Valid()
      modifies this
      ensures Valid()
      ensures given == old(given) + [(t1, t2)]
      ensures constraints == old(constraints) + [(t1, t2)]
    {
      ProgressAdd(unionFind.root, given, constraints, (t1, t2));
      SubtermsClosed(t1);
      SubtermsClosed(t2);
      constraints := constraints + [(t1, t2)];
      given := given + [(t1, t2)];
      universe := universe + Subterms(t1) + Subterms(t2);
    }

    // Processes every constraint, including those added on the way. On success the
    // classes are a solution of all the constraints ever given, and the finest; on
    // a clash there is none, finite or infinite. It always ends.
    method Solve() returns (ok: bool)
      requires Valid()
      modifies this, unionFind
      ensures unionFind.Valid() && given == old(given)
      ensures ok ==> Valid() && constraints == []
      ensures ok ==> Solution(Classes(unionFind.root), given)
      ensures ok ==> forall l: Labelling, s, t :: Solution(l, given) && unionFind.Rep(s) == unionFind.Rep(t) ==>
        l(s) == l(t)
      ensures !ok ==> forall l: Labelling :: !Solution(l, given)
    {
      var i := 0;
      ok := true;
      while i < |constraints|
        invariant 0 <= i <= |constraints| && given == old(given)
        invariant unionFind.Valid() && Bounded(i) && Progress(unionFind.root, given, constraints[i..])
        decreases |RootsIn(unionFind.root, universe)|, |constraints| - i
      {
        var (t1, t2) := constraints[i];
        assert constraints[i..] == [(t1, t2)] + constraints[i + 1..];
        i := i + 1;
        ok := Unify(t1, t2, i);
        if !ok {
          return;
        }
      }
      constraints := constraints[i..];
      RootsAreRoots(unionFind.edges, unionFind.root, unionFind.depth);
      ClassesAreMostGeneral(unionFind.root, given);
    }

    // One constraint: nothing to do, a merge (a proper term stays on top of a
    // variable), or a merge that puts the arguments' equations at the end of the
    // list. Each merge takes one root away from the terms in play.
    method Unify(t1: Term, t2: Term, ghost i: nat) returns (ok: bool)
      requires unionFind.Valid() && Bounded(i) && i <= |constraints|
      requires t1 in universe && t2 in universe
      requires Progress(unionFind.root, given, [(t1, t2)] + constraints[i..])
      modifies this`constraints, unionFind
      ensures unionFind.Valid() && i <= |constraints| && Bounded(i)
      ensures ok ==> Progress(unionFind.root, given, constraints[i..])
      ensures ok ==>
        || (constraints == old(constraints) && RootsIn(unionFind.root, universe)
          == old(RootsIn(unionFind.root, universe)))
        || |RootsIn(unionFind.root, universe)| < old(|RootsIn(unionFind.root, universe)|)
      ensures !ok ==> forall l: Labelling :: !Solution(l, given)
    {
      hide Progress, RootsIn;
      ghost var root0 := unionFind.root;
      var r1 := unionFind.Find(t1);
      var r2 := unionFind.Find(t2);
      ProgressSame(root0, unionFind.root, given, [(t1, t2)] + constraints[i..]);
      RootsSame(root0, unionFind.root, universe);
      RootsAreRoots(unionFind.edges, unionFind.root, unionFind.depth);
      if r1 == r2 {
        ProgressSkip(unionFind.root, given, constraints[i..], t1, t2);
        return true;
      }
      if r1.Var? {
        Merge(t1, t2, r1, r2, [], i);
      } else if r2.Var? {
        Merge(t1, t2, r2, r1, [], i);
      } else if r1.functor != r2.functor || |r1.args| != |r2.args| {
        forall l: Labelling
          ensures !Solution(l, given)
        {
          ClashMeansNone(unionFind.root, given, constraints[i..], t1, t2, l);
        }
        return false;
      } else {
        Merge(t1, t2, r1, r2, ArgPairs(r1, r2), i);
      }
      ok := true;
    }

    method Merge(ghost t1: Term, ghost t2: Term, from: Term, to: Term, more: seq<Constraint>, ghost i: nat)
      requires unionFind.Valid() && Bounded(i) && i <= |constraints|
      requires Progress(unionFind.root, given, [(t1, t2)] + constraints[i..])
      requires Unifies(t1, t2, unionFind.root, from, to, more)
      requires from in universe && to in universe
      modifies this`constraints, unionFind
      ensures unionFind.Valid() && i <= |constraints| && Bounded(i)
      ensures Progress(unionFind.root, given, constraints[i..])
      ensures |RootsIn(unionFind.root, universe)| < old(|RootsIn(unionFind.root, universe)|)
    {
      ghost var root0 := unionFind.root;
      unionFind.QuickUnion(from, to);
      assert Merged(root0, unionFind.root, from, to);
      ProgressMerge(root0, unionFind.root, given, constraints[i..], t1, t2, from, to, more);
      MergeShrinks(root0, unionFind.root, universe, from, to);
      assert (constraints + more)[i..] == constraints[i..] + more;
      constraints := constraints + more;
    }

    // The representative of t, as the solver's clients ask for it.
    method Find(t: Term) returns (r: Term)
      requires Valid()
      modifies this, unionFind
      ensures Valid() && given == old(given) && constraints == old(constraints)
      ensures r == old(unionFind.Rep(t))
      ensures SameReps(old(unionFind.root), unionFind.root)
    {
      ghost var root0 := unionFind.root;
      SubtermsClosed(t);
      universe := universe + Subterms(t);
      r := unionFind.Find(t);
      ProgressSame(root0, unionFind.root, given, constraints);
    }

    // The solved form of t. When the classes are acyclic it is t fully resolved,
    // whichever rank shows it; on a cycle it stops where it meets itself. Once all
    // constraints are solved it has the tree of t, finite or not.
    method Apply(t: Term) returns (r: Term)
      requires Valid()
      modifies this, unionFind
      ensures Valid() && given == old(given) && constraints == old(constraints)
      ensures SameReps(old(unionFind.root), unionFind.root)
      ensures forall rank: Term -> nat {:trigger Acyclic(old(unionFind.root), rank)} ::
        Acyclic(old(unionFind.root), rank) ==> r == Resolve(old(unionFind.root), rank, t)
      ensures constraints == [] ==>
        forall depth: nat :: TreeOf(old(unionFind.root), r, depth) == TreeOf(old(unionFind.root), t, depth)
    {
      SubtermsClosed(t);
      universe := universe + Subterms(t);
      RootsAreRoots(unionFind.edges, unionFind.root, unionFind.depth);
      r := ApplyWithin(t, {}, unionFind.root);
    }

    method ApplyWithin(t: Term, active: set<Term>, ghost root0: map<Term, Term>) returns (r: Term)
      requires Valid() && SameReps(root0, unionFind.root)
      requires t in universe && active <= universe
      requires Progress(root0, given, constraints) && Idempotent(root0)
      modifies unionFind
      ensures Valid() && SameReps(root0, unionFind.root)
      ensures constraints == [] ==> forall depth: nat :: TreeOf(root0, r, depth) == TreeOf(root0, t, depth)
      ensures forall rank: Term -> nat {:trigger Acyclic(root0, rank)} ::
        Acyclic(root0, rank) && Below(root0, rank, t, active) ==> r == Resolve(root0, rank, t)
      decreases universe - active
    {
      var rep := FindIn(t, root0);
      forall depth: nat | constraints == []
        ensures TreeOf(root0, rep, depth) == TreeOf(root0, t, depth)
      {
        RepKeepsTree(root0, given, t, depth);
      }
      if rep.Var? {
        return rep;
      }
      if rep in active {
        return t;
      }
      var subterms := rep.args;
      if subterms == [] {
        return rep;
      }
      var newSubterms: seq<Term> := [];
      var changed := false;
      for j := 0 to |subterms|
        invariant Valid() && SameReps(root0, unionFind.root)
        invariant |newSubterms| == j
        invariant !changed ==> newSubterms == subterms[..j]
        invariant forall k, depth: nat {:trigger TreeOf(root0, newSubterms[k], depth)} ::
          constraints == [] && 0 <= k < j ==> TreeOf(root0, newSubterms[k], depth) == TreeOf(root0, subterms[k], depth)
        invariant forall rank: Term -> nat, k {:trigger Acyclic(root0, rank), newSubterms[k]} ::
          Acyclic(root0, rank) && Below(root0, rank, t, active) && 0 <= k < j ==>
            newSubterms[k] == Resolve(root0, rank, subterms[k])
      {
        forall rank: Term -> nat | Acyclic(root0, rank) && Below(root0, rank, t, active)
          ensures Below(root0, rank, subterms[j], active + {rep})
        {
        }
        var newSub := ApplyWithin(subterms[j], active + {rep}, root0);
        if newSub != subterms[j] {
          changed := true;
        }
        newSubterms := newSubterms + [newSub];
      }
      r := if changed then App(rep.functor, newSubterms) else rep;
      assert r == App(rep.functor, newSubterms);
      forall depth: nat | constraints == []
        ensures TreeOf(root0, r, depth) == TreeOf(root0, rep, depth)
      {
        if depth > 0 {
          assert forall k | 0 <= k < |subterms| ::
            TreeOf(root0, newSubterms[k], depth - 1) == TreeOf(root0, subterms[k], depth - 1);
        }
      }
    }

    method FindIn(t: Term, ghost root0: map<Term, Term>) returns (r: Term)
      requires Valid() && SameReps(root0, unionFind.root) && t in universe
      modifies unionFind
      ensures Valid() && SameReps(root0, unionFind.root)
      ensures r == RepIn(root0, t) && r in universe
    {
      assert RepIn(unionFind.root, t) == RepIn(root0, t);
      ghost var root1 := unionFind.root;
      r := unionFind.Find(t);
      ProgressSame(root1, unionFind.root, given, constraints);
      forall u: Term
        ensures RepIn(unionFind.root, u) == RepIn(root0, u)
      {
        assert RepIn(root1, u) == RepIn(root0, u);
      }
    }
  }
}
