/** First-order terms and the union-find over them (TermUnionFind). */
module UnionFind {

  // Terms are compared by value. A nullary constructor is an App with no arguments.
  datatype Term = Var(id: nat) | App(functor: nat, args: seq<Term>)

  // A term with no entry is a class of its own.
  ghost function RepIn(root: map<Term, Term>, t: Term): Term {
    if t in root then root[t] else t
  }

  // Every term keeps its representative.
  ghost predicate SameReps(root: map<Term, Term>, root': map<Term, Term>) {
    forall u: Term {:trigger RepIn(root', u)} :: RepIn(root', u) == RepIn(root, u)
  }

  // The class represented by a is represented by b, and no other term moves.
  ghost predicate Merged(root: map<Term, Term>, root': map<Term, Term>, a: Term, b: Term) {
    forall u: Term {:trigger RepIn(root', u)} :: RepIn(root', u) == if RepIn(root, u) == a then b else RepIn(root, u)
  }

  // One edge: it leads to a term that is closer to the same root, or loops there.
  ghost predicate Linked(edges: map<Term, Term>, root: map<Term, Term>, depth: map<Term, nat>, t: Term)
    requires t in edges && root.Keys == depth.Keys == edges.Keys
  {
    var p := edges[t];
    && p in edges
    && (if p == t then root[t] == t else depth[p] < depth[t] && root[t] == root[p])
    && root[t] in edges && edges[root[t]] == root[t]
  }

  ghost predicate AllLinked(edges: map<Term, Term>, root: map<Term, Term>, depth: map<Term, nat>) {
    && root.Keys == depth.Keys == edges.Keys
    && forall t {:trigger Linked(edges, root, depth, t)} :: t in edges ==> Linked(edges, root, depth, t)
  }

  ghost function Deeper(edges: map<Term, Term>, root: map<Term, Term>, depth: map<Term, nat>, r1: Term,
      r2: Term): map<Term, nat>
    requires root.Keys == depth.Keys == edges.Keys && r2 in edges
  {
    DeeperOn(edges.Keys, root, depth, r1, depth[r2] + 1)
  }

  ghost function DeeperOn(ts: set<Term>, root: map<Term, Term>, depth: map<Term, nat>, r1: Term,
      more: nat): (r: map<Term, nat>)
    requires ts <= root.Keys * depth.Keys
    ensures r.Keys == ts && forall t | t in ts :: r[t] == if root[t] == r1 then depth[t] + more else depth[t]
  {
    if ts == {} then map[]
    else
      var t :| t in ts;
      DeeperOn(ts - {t}, root, depth, r1, more)[t := if root[t] == r1 then depth[t] + more else depth[t]]
  }

  ghost function Rerooted(edges: map<Term, Term>, root: map<Term, Term>, r1: Term, r2: Term): map<Term, Term>
    requires root.Keys == edges.Keys
  {
    RerootedOn(edges.Keys, root, r1, r2)
  }

  ghost function RerootedOn(ts: set<Term>, root: map<Term, Term>, r1: Term, r2: Term): (r: map<Term, Term>)
    requires ts <= root.Keys
    ensures r.Keys == ts && forall t | t in ts :: r[t] == if root[t] == r1 then r2 else root[t]
  {
    if ts == {} then map[]
    else
      var t :| t in ts;
      RerootedOn(ts - {t}, root, r1, r2)[t := if root[t] == r1 then r2 else root[t]]
  }

  lemma Rehung(edges: map<Term, Term>, root: map<Term, Term>, depth: map<Term, nat>, r1: Term, r2: Term)
    requires AllLinked(edges, root, depth)
    requires r1 in edges && r2 in edges && r1 != r2 && edges[r1] == r1 && edges[r2] == r2
    ensures AllLinked(edges[r1 := r2], Rerooted(edges, root, r1, r2), Deeper(edges, root, depth, r1, r2))
  {
    assert Linked(edges, root, depth, r1) && Linked(edges, root, depth, r2);
    forall t | t in edges
      ensures Linked(edges[r1 := r2], Rerooted(edges, root, r1, r2), Deeper(edges, root, depth, r1, r2), t)
    {
      assert Linked(edges, root, depth, t);
    }
  }

  class TermUnionFind {
    // Parent edges; a root is its own parent.
    var edges: map<Term, Term>

    // The root each term leads to, and a distance that shrinks on the way there.
    ghost var root: map<Term, Term>
    ghost var depth: map<Term, nat>

    // The parent graph is a forest, and root is where its paths end.
    ghost predicate Valid()
      reads this
    {
      AllLinked(edges, root, depth)
    }

    // The representative of t's class; inserting a term changes no class.
    ghost function Rep(t: Term): Term
      reads this
    {
      RepIn(root, t)
    }

    constructor ()
      ensures Valid()
      ensures edges == map[]
      ensures forall t :: Rep(t) == t
    {
      edges, root, depth := map[], map[], map[];
    }

    // smart_insert: a new term is its own root.
    method SmartInsert(t: Term)
      requires Valid()
      modifies this
      ensures Valid()
      ensures edges.Keys == old(edges.Keys) + {t}
      ensures SameReps(old(root), root)
    {
      if t !in edges {
        forall u | u in edges
          ensures Linked(edges[t := t], root[t := t], depth[t := 0], u)
        {
          assert Linked(edges, root, depth, u);
        }
        edges, root, depth := edges[t := t], root[t := t], depth[t := 0];
      }
    }

    // Chase parents up to the root.
    method Find(t: Term) returns (r: Term)
      requires Valid()
      modifies this
      ensures Valid()
      ensures edges.Keys == old(edges.Keys) + {t}
      ensures SameReps(old(root), root)
      ensures r == old(Rep(t)) && r in edges && edges[r] == r
    {
      SmartInsert(t);
      assert Rep(t) == old(Rep(t));
      r := t;
      while r != edges[r]
        invariant r in edges && root[r] == root[t]
        decreases depth[r]
      {
        assert Linked(edges, root, depth, r);
        r := edges[r];
      }
      assert Linked(edges, root, depth, r);
    }

    // The root of t1 is hung below the root of t2: the classes merge, and t2's
    // root represents both.
    method QuickUnion(t1: Term, t2: Term)
      requires Valid()
      modifies this
      ensures Valid()
      ensures edges.Keys == old(edges.Keys) + {t1, t2}
      ensures Merged(old(root), root, old(Rep(t1)), old(Rep(t2)))
    {
      var r1, r2 := FindBoth(t1, t2);
      Repoint(r1, r2);
    }

    method FindBoth(t1: Term, t2: Term) returns (r1: Term, r2: Term)
      requires Valid()
      modifies this
      ensures Valid()
      ensures edges.Keys == old(edges.Keys) + {t1, t2}
      ensures SameReps(old(root), root)
      ensures r1 == old(Rep(t1)) && r1 in edges && edges[r1] == r1
      ensures r2 == old(Rep(t2)) && r2 in edges && edges[r2] == r2
    {
      SmartInsert(t1);
      SmartInsert(t2);
      r1 := Find(t1);
      r2 := Find(t2);
      assert Rep(t1) == r1;
      assert Linked(edges, root, depth, t1);
    }

    // Point one root at another.
    method Repoint(r1: Term, r2: Term)
      requires Valid()
      requires r1 in edges && edges[r1] == r1 && r2 in edges && edges[r2] == r2
      modifies this
      ensures Valid()
      ensures edges.Keys == old(edges.Keys)
      ensures Merged(old(root), root, r1, r2)
    {
      if r1 != r2 {
        Rehung(edges, root, depth, r1, r2);
        edges, root, depth := edges[r1 := r2], Rerooted(edges, root, r1, r2), Deeper(edges, root, depth, r1, r2);
      }
    }

    method Connected(t1: Term, t2: Term) returns (b: bool)
      requires Valid()
      modifies this
      ensures Valid()
      ensures SameReps(old(root), root)
      ensures b <==> old(Rep(t1)) == old(Rep(t2))
    {
      var r1 := Find(t1);
      var r2 := Find(t2);
      b := r1 == r2;
    }
  }
}
