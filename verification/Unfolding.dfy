/** What the mus of a closed type unfold to. */
module Unfolding {
  import opened UnionFind
  import opened Unification
  import opened Closure

  // When the solution is cyclic, a closed type stands for an infinite tree, which is the
  // one that the representatives span.

  // A tree down to some depth: no more is said of what lies below a cut.
  datatype Approx = Cut | Leaf(id: nat) | Branch(functor: nat, args: seq<Approx>)

  // mu v. body is body with the whole in the place of v.
  function Replace(c: Closed, v: nat, sub: Closed): Closed {
    match c
    case Alpha(w) => if w == v then sub else c
    case Node(f, args) => Node(f, seq(|args|, i requires 0 <= i < |args| => Replace(args[i], v, sub)))
    case Mu(w, body) => if w == v then c else Mu(w, Replace(body, v, sub))
  }

  // A mu directly under a mu would have no tree; there is none.
  function Unfold(c: Closed, depth: nat): Approx
    decreases depth
  {
    match c
    case Alpha(v) => Leaf(v)
    case Node(f, args) =>
      if depth == 0 then Cut
      else Branch(f, seq(|args|, i requires 0 <= i < |args| => Unfold(args[i], depth - 1)))
    case Mu(v, body) =>
      if depth == 0 || !body.Node? then Cut
      else Branch(body.functor, seq(|body.args|, i requires 0 <= i < |body.args| =>
        Unfold(Replace(body.args[i], v, c), depth - 1)))
  }

  // The tree of a term when variables are read as their representatives.
  ghost function TreeOf(root: map<Term, Term>, t: Term, depth: nat): Approx
    decreases depth
  {
    var r := if t.Var? then RepIn(root, t) else t;
    match r
    case Var(v) => Leaf(v)
    case App(f, args) =>
      if depth == 0 then Cut
      else Branch(f, seq(|args|, i requires 0 <= i < |args| => TreeOf(root, args[i], depth - 1)))
  }

  // The same when every term is.
  ghost function RepTree(root: map<Term, Term>, t: Term, depth: nat): Approx
    decreases depth
  {
    match RepIn(root, t)
    case Var(v) => Leaf(v)
    case App(f, args) =>
      if depth == 0 then Cut
      else Branch(f, seq(|args|, i requires 0 <= i < |args| => RepTree(root, args[i], depth - 1)))
  }

  ghost predicate Bound(root: map<Term, Term>, v: nat) {
    RepIn(root, Var(v)) != Var(v)
  }

  // -------------------------------------------------------------------------
  // No bound variable is left free
  // -------------------------------------------------------------------------

  lemma {:induction false} FreeAreVisited(root: map<Term, Term>, t: Term, visited: set<Term>, v: nat)
    requires Idempotent(root)
    requires v in FreeAlphas(Close(root, t, visited))
    ensures Bound(root, v) ==> Var(v) in visited
    decreases root.Keys - visited, t
  {
    match t
    case Var(u) =>
      var rep := RepIn(root, t);
      if t !in visited && rep != t {
        assert t in root.Keys - visited && t !in root.Keys - (visited + {t});
        FreeAreVisited(root, rep, visited + {t}, v);
        BoundCloses(root, t, visited);
      }
    case App(f, args) =>
      var c := Close(root, t, visited);
      var i :| 0 <= i < |c.args| && v in FreeAlphas(c.args[i]);
      FreeAreVisited(root, args[i], visited, v);
  }

  // A bound variable closes to what its representative closes to, as a mu if it
  // occurs there.
  lemma {:induction false} BoundCloses(root: map<Term, Term>, t: Term, visited: set<Term>)
    requires Idempotent(root)
    requires t.Var? && t !in visited && RepIn(root, t) != t
    ensures var rep := RepIn(root, t);
      var closed := Close(root, rep, visited + {t});
      && Close(root, t, visited) == (if t.id in FreeAlphas(closed) then Mu(t.id, closed) else closed)
      && (if rep.App? then closed == Close(root, rep, visited + {t}) && closed.Node? else closed == Alpha(rep.id))
  {
    var rep := RepIn(root, t);
    assert RepIn(root, rep) == rep;
  }

  // -------------------------------------------------------------------------
  // Several replacements at once
  // -------------------------------------------------------------------------

  function Apply(theta: map<nat, Closed>, c: Closed): Closed {
    match c
    case Alpha(w) => if w in theta then theta[w] else c
    case Node(f, args) => Node(f, seq(|args|, i requires 0 <= i < |args| => Apply(theta, args[i])))
    case Mu(w, body) => Mu(w, Apply(theta - {w}, body))
  }

  lemma {:induction false} ApplyNone(c: Closed)
    ensures Apply(map[], c) == c
  {
    match c
    case Alpha(_) =>
    case Node(_, args) =>
      forall i | 0 <= i < |args|
        ensures Apply(map[], args[i]) == args[i]
      {
        ApplyNone(args[i]);
      }
    case Mu(w, body) =>
      var none: map<nat, Closed> := map[];
      assert none - {w} == none;
      ApplyNone(body);
  }

  // Nothing that is put in mentions a bound variable.
  ghost predicate Plain(root: map<Term, Term>, theta: map<nat, Closed>) {
    forall u, v | u in theta && v in FreeAlphas(theta[u]) :: !Bound(root, v)
  }

  lemma {:induction false} FreeApplied(theta: map<nat, Closed>, c: Closed, v: nat)
    requires v in FreeAlphas(Apply(theta, c))
    ensures (v in FreeAlphas(c) && v !in theta) || exists u | u in theta :: v in FreeAlphas(theta[u])
  {
    match c
    case Alpha(_) =>
    case Node(_, args) =>
      var i :| 0 <= i < |args| && v in FreeAlphas(Apply(theta, args[i]));
      FreeApplied(theta, args[i], v);
    case Mu(w, body) =>
      FreeApplied(theta - {w}, body, v);
      if u :| u in theta - {w} && v in FreeAlphas((theta - {w})[u]) {
        assert u in theta && v in FreeAlphas(theta[u]);
      }
  }

  // One more replacement, after or together with the others.
  lemma {:induction false} ReplaceApplied(theta: map<nat, Closed>, c: Closed, v: nat, sub: Closed)
    requires forall u | u in theta :: v !in FreeAlphas(theta[u])
    ensures Replace(Apply(theta - {v}, c), v, sub) == Apply(theta[v := sub], c)
  {
    match c
    case Alpha(w) =>
      if w in theta && w != v {
        ReplaceAbsent(theta[w], v, sub);
      }
    case Node(_, args) =>
      forall i | 0 <= i < |args|
        ensures Replace(Apply(theta - {v}, args[i]), v, sub) == Apply(theta[v := sub], args[i])
      {
        ReplaceApplied(theta, args[i], v, sub);
      }
    case Mu(w, body) =>
      if w == v {
        assert theta - {v} - {w} == theta[v := sub] - {w};
      } else {
        assert theta - {v} - {w} == (theta - {w}) - {v} && theta[v := sub] - {w} == (theta - {w})[v := sub];
        ReplaceApplied(theta - {w}, body, v, sub);
      }
  }

  lemma {:induction false} ReplaceAbsent(c: Closed, v: nat, sub: Closed)
    requires v !in FreeAlphas(c)
    ensures Replace(c, v, sub) == c
  {
    match c
    case Alpha(_) =>
    case Node(_, args) =>
      forall i | 0 <= i < |args|
        ensures Replace(args[i], v, sub) == args[i]
      {
        ReplaceAbsent(args[i], v, sub);
      }
    case Mu(w, body) =>
      if w != v {
        ReplaceAbsent(body, v, sub);
      }
  }

  // -------------------------------------------------------------------------
  // The tree
  // -------------------------------------------------------------------------

  // What stands for u has the tree of u.
  ghost predicate StandsFor(root: map<Term, Term>, theta: map<nat, Closed>, u: nat, depth: nat) {
    u in theta && forall m: nat | m <= depth :: Unfold(theta[u], m) == TreeOf(root, Var(u), m)
  }

  ghost predicate Fitting(root: map<Term, Term>, theta: map<nat, Closed>, c: Closed, depth: nat) {
    Plain(root, theta) && forall u | u in FreeAlphas(c) && Bound(root, u) :: StandsFor(root, theta, u, depth)
  }

  lemma {:induction false} ClosedTree(root: map<Term, Term>, t: Term, visited: set<Term>, theta: map<nat, Closed>,
      depth: nat)
    requires Idempotent(root)
    requires Fitting(root, theta, Close(root, t, visited), depth) && forall u | u in theta :: Bound(root, u)
    ensures Unfold(Apply(theta, Close(root, t, visited)), depth) == TreeOf(root, t, depth)
    decreases depth, root.Keys - visited, t
  {
    match t
    case Var(v) =>
      if t in visited || RepIn(root, t) == t {
        assert v in FreeAlphas(Close(root, t, visited));
      } else {
        VariableTree(root, t, visited, theta, depth);
      }
    case App(f, args) =>
      var c := Close(root, t, visited);
      if depth > 0 {
        forall i | 0 <= i < |args|
          ensures Unfold(Apply(theta, c.args[i]), depth - 1) == TreeOf(root, args[i], depth - 1)
        {
          assert forall u | u in FreeAlphas(c.args[i]) :: u in FreeAlphas(c);
          ClosedTree(root, args[i], visited, theta, depth - 1);
        }
      }
  }

  lemma FitsLess(root: map<Term, Term>, theta: map<nat, Closed>, c: Closed, depth: nat, k: nat)
    requires Fitting(root, theta, c, depth) && k <= depth
    ensures Fitting(root, theta, c, k)
  {
  }

  lemma {:induction false} FreeUnbound(root: map<Term, Term>, theta: map<nat, Closed>, c: Closed, depth: nat, v: nat)
    requires Fitting(root, theta, c, depth) && v in FreeAlphas(Apply(theta, c))
    ensures !Bound(root, v)
  {
    FreeApplied(theta, c, v);
  }

  // The mu stands for its variable in what is under it.
  lemma {:induction false} ArgumentFits(root: map<Term, Term>, theta: map<nat, Closed>, c: Closed, t: Term, m: Closed,
      body: Closed, i: nat, depth: nat)
    requires depth > 0 && Fitting(root, theta, c, depth) && t.Var?
    requires c == Mu(t.id, body) && body.Node? && i < |body.args|
    requires forall k: nat | k < depth :: Unfold(m, k) == TreeOf(root, t, k)
    requires forall w | w in FreeAlphas(m) :: !Bound(root, w)
    ensures Fitting(root, theta[t.id := m], body.args[i], depth - 1)
  {
    var theta' := theta[t.id := m];
    assert forall u | u in FreeAlphas(body.args[i]) :: u in FreeAlphas(body);
    forall u | u in FreeAlphas(body.args[i]) && Bound(root, u)
      ensures StandsFor(root, theta', u, depth - 1)
    {
      if u != t.id {
        assert u in FreeAlphas(c) && StandsFor(root, theta, u, depth);
      }
    }
  }

  lemma {:induction false} VariableTree(root: map<Term, Term>, t: Term, visited: set<Term>, theta: map<nat, Closed>,
      depth: nat)
    requires Idempotent(root)
    requires t.Var? && t !in visited && RepIn(root, t) != t
    requires Fitting(root, theta, Close(root, t, visited), depth) && forall u | u in theta :: Bound(root, u)
    ensures Unfold(Apply(theta, Close(root, t, visited)), depth) == TreeOf(root, t, depth)
    decreases depth, root.Keys - visited, t, 0
  {
    hide StandsFor;
    var v, rep, c := t.id, RepIn(root, t), Close(root, t, visited);
    var closed := Close(root, rep, visited + {t});
    BoundCloses(root, t, visited);
    assert t in root.Keys - visited && t !in root.Keys - (visited + {t});
    if v !in FreeAlphas(closed) {
      ClosedTree(root, rep, visited + {t}, theta, depth);
    } else if depth > 0 {
      var m := Apply(theta, c);
      var theta' := theta[v := m];
      assert Bound(root, v) && forall u | u in theta :: v !in FreeAlphas(theta[u]);
      forall k: nat | k < depth
        ensures Unfold(m, k) == TreeOf(root, t, k)
      {
        FitsLess(root, theta, c, depth, k);
        ClosedTree(root, t, visited, theta, k);
      }
      forall w | w in FreeAlphas(m)
        ensures !Bound(root, w)
      {
        FreeUnbound(root, theta, c, depth, w);
      }
      assert m == Mu(v, Apply(theta - {v}, closed));
      forall i | 0 <= i < |closed.args|
        ensures Unfold(Replace(Apply(theta - {v}, closed.args[i]), v, m), depth - 1)
          == TreeOf(root, rep.args[i], depth - 1)
      {
        ReplaceApplied(theta, closed.args[i], v, m);
        ArgumentFits(root, theta, c, t, m, closed, i, depth);
        ClosedTree(root, rep.args[i], visited + {t}, theta', depth - 1);
      }
    }
  }

  // Closing leaves no bound variable free, and the closed type unfolds to the tree
  // of the term: whatever the bindings, cyclic or not.
  lemma {:induction false} CloseUnfolds(root: map<Term, Term>, t: Term, depth: nat)
    requires Idempotent(root)
    ensures forall v | v in FreeAlphas(Close(root, t, {})) :: RepIn(root, Var(v)) == Var(v)
    ensures Unfold(Close(root, t, {}), depth) == TreeOf(root, t, depth)
  {
    forall v | v in FreeAlphas(Close(root, t, {}))
      ensures !Bound(root, v)
    {
      FreeAreVisited(root, t, {}, v);
    }
    ClosedTree(root, t, {}, map[], depth);
    ApplyNone(Close(root, t, {}));
  }

  // In a solved form it makes no difference which terms are read as their
  // representatives.
  lemma {:induction false} TreeOfReps(root: map<Term, Term>, given: seq<Constraint>, t: Term, depth: nat)
    requires Progress(root, given, []) && Idempotent(root)
    ensures TreeOf(root, t, depth) == RepTree(root, t, depth)
    decreases depth
  {
    ClassesAreMostGeneral(root, given);
    var e, r := Classes(root), RepIn(root, t);
    assert RepIn(root, r) == r && e(t) == e(r);
    if t.App? {
      assert r.App?;
      assert SameArgs(e, t, r);
    }
    var a := if t.Var? then r else t;
    if a.App? && depth > 0 {
      forall i | 0 <= i < |a.args|
        ensures TreeOf(root, a.args[i], depth - 1) == RepTree(root, r.args[i], depth - 1)
      {
        TreeOfReps(root, given, a.args[i], depth - 1);
        assert e(a.args[i]) == e(r.args[i]);
      }
    }
  }

  lemma {:induction false} RepKeepsTree(root: map<Term, Term>, given: seq<Constraint>, t: Term, depth: nat)
    requires Progress(root, given, []) && Idempotent(root)
    ensures TreeOf(root, RepIn(root, t), depth) == TreeOf(root, t, depth)
  {
    assert RepIn(root, RepIn(root, t)) == RepIn(root, t);
    TreeOfReps(root, given, t, depth);
    TreeOfReps(root, given, RepIn(root, t), depth);
  }

  // So terms that the solution equates close to types with one tree, which is the
  // one that the representatives and their arguments give.
  lemma {:induction false} EquatedCloseAlike(root: map<Term, Term>, given: seq<Constraint>, s: Term, t: Term,
      depth: nat)
    requires Progress(root, given, []) && Idempotent(root)
    requires RepIn(root, s) == RepIn(root, t)
    ensures Unfold(Close(root, s, {}), depth) == RepTree(root, t, depth) == Unfold(Close(root, t, {}), depth)
  {
    CloseUnfolds(root, s, depth);
    CloseUnfolds(root, t, depth);
    TreeOfReps(root, given, s, depth);
    TreeOfReps(root, given, t, depth);
  }
}
