/** What it is for a pattern to match. */
module Patterns {
  import opened Syntax
  import opened Static

  // Said without matching: the value is the pattern with something in the place of each
  // variable and wildcard.

  // The pattern q at the position at, its variables and wildcards filled in.
  function Fill(q: Pat, fill: seq<nat> -> Shape, at: seq<nat>): Shape
    decreases q, 1
  {
    match q
    case PVar(_, _) => fill(at)
    case PWild => fill(at)
    case PCtor(tag, subs) => Con(tag, FillAll(subs, fill, at, 0))
  }

  function FillAll(qs: List<Pat>, fill: seq<nat> -> Shape, at: seq<nat>, k: nat): List<Shape>
    decreases qs, 0
  {
    match qs
    case Nil => Nil
    case Cons(q, t) => Cons(Fill(q, fill, at + [k]), FillAll(t, fill, at, k + 1))
  }

  // What stands at a position of a shape.
  function PartAt(sh: Shape, path: seq<nat>): Shape
    decreases |path|, 0
  {
    if path == [] || sh.Atom? then sh else PartOf(sh.subs, path[0], path[1..])
  }

  function PartOf(shs: List<Shape>, k: nat, path: seq<nat>): Shape
    decreases |path|, 1, shs
  {
    if shs.Nil? then Atom
    else if k == 0 then PartAt(shs.head, path)
    else PartOf(shs.tail, k - 1, path)
  }

  lemma {:induction false} FilledMatches(q: Pat, fill: seq<nat> -> Shape, at: seq<nat>)
    ensures Matches(q, Fill(q, fill, at))
    decreases q, 1
  {
    if q.PCtor? {
      AllFilledMatch(q.subs, fill, at, 0);
    }
  }

  lemma {:induction false} AllFilledMatch(qs: List<Pat>, fill: seq<nat> -> Shape, at: seq<nat>, k: nat)
    ensures AllMatch(qs, FillAll(qs, fill, at, k))
    decreases qs, 0
  {
    if qs.Cons? {
      FilledMatches(qs.head, fill, at + [k]);
      AllFilledMatch(qs.tail, fill, at, k + 1);
    }
  }

  lemma {:induction false} MatchFills(p: Program, q: Pat, sh: Shape, ty: Ty, fill: seq<nat> -> Shape, at: seq<nat>)
    requires PatTyped(p, q, ty) && HasType(p.ctors, sh, ty) && Matches(q, sh)
    requires forall path :: fill(at + path) == PartAt(sh, path)
    ensures Fill(q, fill, at) == sh
    decreases q, 1
  {
    if q.PCtor? {
      forall j: nat, path
        ensures fill(at + [0 + j] + path) == PartOf(sh.subs, j, path)
      {
        assert at + [0 + j] + path == at + ([0 + j] + path);
        assert ([0 + j] + path)[1..] == path;
      }
      AllMatchFill(p, q.subs, sh.subs, p.ctors[q.tag].params, fill, at, 0);
    } else {
      assert at + [] == at;
    }
  }

  lemma {:induction false} AllMatchFill(p: Program, qs: List<Pat>, shs: List<Shape>, ts: List<Ty>,
      fill: seq<nat> -> Shape, at: seq<nat>, k: nat)
    requires PatsTyped(p, qs, ts) && HaveTypes(p.ctors, shs, ts) && AllMatch(qs, shs)
    requires forall j: nat, path :: fill(at + [k + j] + path) == PartOf(shs, j, path)
    ensures FillAll(qs, fill, at, k) == shs
    decreases qs, 0
  {
    if qs.Cons? {
      forall path
        ensures fill(at + [k] + path) == PartAt(shs.head, path)
      {
        assert fill(at + [k + 0] + path) == PartOf(shs, 0, path);
      }
      MatchFills(p, qs.head, shs.head, ts.head, fill, at + [k]);
      forall j: nat, path
        ensures fill(at + [k + 1 + j] + path) == PartOf(shs.tail, j, path)
      {
        assert fill(at + [k + (1 + j)] + path) == PartOf(shs, 1 + j, path);
      }
      AllMatchFill(p, qs.tail, shs.tail, ts.tail, fill, at, k + 1);
    }
  }

  // A pattern matches a value of its type if and only if the value is the pattern,
  // filled somehow.
  lemma {:induction false} MatchesExactly(p: Program, q: Pat, sh: Shape, ty: Ty)
    requires PatTyped(p, q, ty) && HasType(p.ctors, sh, ty)
    ensures Matches(q, sh) <==> exists fill: seq<nat> -> Shape :: Fill(q, fill, []) == sh
  {
    if Matches(q, sh) {
      var fill: seq<nat> -> Shape := path => PartAt(sh, path);
      forall path: seq<nat>
        ensures fill([] + path) == PartAt(sh, path)
      {
        assert [] + path == path;
      }
      MatchFills(p, q, sh, ty, fill, []);
    }
    if fill: seq<nat> -> Shape :| Fill(q, fill, []) == sh {
      FilledMatches(q, fill, []);
    }
  }
}
