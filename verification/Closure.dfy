/** Type closure: the solved form of a type, with a mu where a binding is cyclic. */
module Closure {
  import opened UnionFind
  import opened Unification
  import opened MostGeneral

  // A closed type: every variable has become an alpha, and a cycle a mu.
  datatype Closed = Alpha(id: nat) | Node(functor: nat, args: seq<Closed>) | Mu(id: nat, body: Closed)

  function FreeAlphas(c: Closed): set<nat> {
    match c
    case Alpha(v) => {v}
    case Node(_, args) => set i, v | 0 <= i < |args| && v in FreeAlphas(args[i]) :: v
    case Mu(v, body) => FreeAlphas(body) - {v}
  }

  // It terminates whatever the bindings: a step down either visits one more bound
  // variable or goes to a part of the type at hand.
  ghost function Close(root: map<Term, Term>, t: Term, visited: set<Term>): Closed
    decreases root.Keys - visited, t
  {
    match t
    case Var(v) =>
      var rep := RepIn(root, t);
      if t !in visited && rep != t then
        assert t in root.Keys - visited && t !in root.Keys - (visited + {t});
        var closed := Close(root, rep, visited + {t});
        if closed != Alpha(v) && v in FreeAlphas(closed) then Mu(v, closed) else closed
      else
        Alpha(v)
    case App(f, args) =>
      Node(f, seq(|args|, i requires 0 <= i < |args| => Close(root, args[i], visited)))
  }

  // A resolved term read as a closed type.
  function Renamed(t: Term): Closed {
    match t
    case Var(v) => Alpha(v)
    case App(f, args) => Node(f, seq(|args|, i requires 0 <= i < |args| => Renamed(args[i])))
  }

  // What has been visited is above t in the order that rank gives.
  ghost predicate Descending(root: map<Term, Term>, rank: Term -> nat, t: Term, visited: set<Term>) {
    forall v | v in visited ::
      rank(RepIn(root, t)) < rank(RepIn(root, v)) || (RepIn(root, t) == t && rank(t) <= rank(RepIn(root, v)) && v != t)
  }

  // No bound variable is left in a resolved term.
  lemma {:induction false} NoBoundVariableLeft(root: map<Term, Term>, rank: Term -> nat, t: Term, v: nat)
    requires Acyclic(root, rank) && Idempotent(root)
    requires v in FreeAlphas(Renamed(Resolve(root, rank, t)))
    ensures RepIn(root, Var(v)) == Var(v)
    decreases rank(RepIn(root, t))
  {
    var r := RepIn(root, t);
    if r.App? {
      var c := Renamed(Resolve(root, rank, t));
      var i :| 0 <= i < |c.args| && v in FreeAlphas(c.args[i]);
      NoBoundVariableLeft(root, rank, r.args[i], v);
    }
  }

  lemma {:induction false} CloseWithin(root: map<Term, Term>, rank: Term -> nat, given: seq<Constraint>, t: Term,
      visited: set<Term>)
    requires Acyclic(root, rank) && Progress(root, given, []) && Idempotent(root)
    requires Descending(root, rank, t, visited)
    ensures Close(root, t, visited) == Renamed(Resolve(root, rank, t))
    decreases root.Keys - visited, t
  {
    var rep := RepIn(root, t);
    match t
    case Var(v) =>
      if rep != t {
        assert t !in visited;
        assert t in root.Keys - visited && t !in root.Keys - (visited + {t});
        CloseWithin(root, rank, given, rep, visited + {t});
        if v in FreeAlphas(Renamed(Resolve(root, rank, rep))) {
          NoBoundVariableLeft(root, rank, rep, v);
        }
      }
    case App(f, args) =>
      ResolveIsSubst(root, rank, given, t);
      forall i | 0 <= i < |args|
        ensures Close(root, args[i], visited) == Renamed(Subst(Solved(root, rank), args[i]))
      {
        ArgBelow(root, rank, given, t, i);
        CloseWithin(root, rank, given, args[i], visited);
        ResolveIsSubst(root, rank, given, args[i]);
      }
  }

  lemma ArgBelow(root: map<Term, Term>, rank: Term -> nat, given: seq<Constraint>, t: Term, i: nat)
    requires Acyclic(root, rank) && Progress(root, given, []) && Idempotent(root)
    requires t.App? && i < |t.args|
    ensures rank(RepIn(root, t.args[i])) < rank(RepIn(root, t))
  {
    ClassesAreMostGeneral(root, given);
    var e := Classes(root);
    assert e(t) == e(RepIn(root, t));
    assert SameArgs(e, t, RepIn(root, t));
    assert e(t.args[i]) == e(RepIn(root, t).args[i]);
  }

  // On an acyclic solution closing a type resolves it, as applying the solved
  // substitution does, with unbound variables renamed and no mu.
  lemma {:induction false} CloseResolves(root: map<Term, Term>, rank: Term -> nat, given: seq<Constraint>, t: Term)
    requires Acyclic(root, rank) && Progress(root, given, []) && Idempotent(root)
    ensures Close(root, t, {}) == Renamed(Subst(Solved(root, rank), t))
    ensures forall v :: v in FreeAlphas(Close(root, t, {})) ==> RepIn(root, Var(v)) == Var(v)
  {
    CloseWithin(root, rank, given, t, {});
    ResolveIsSubst(root, rank, given, t);
    forall v | v in FreeAlphas(Close(root, t, {}))
      ensures RepIn(root, Var(v)) == Var(v)
    {
      NoBoundVariableLeft(root, rank, t, v);
    }
  }
}
