/** The loop that moves requirements from callees to callers until nothing changes. */
module RequirementResolver {
  import opened Optional
  import opened CopyRequirements

  // What a requirement amounts to, fact by fact.
  datatype Fact = NeedsReferent | NeedsSelf | Because(reason: Reason)

  const ALL_FACTS: set<Fact> :=
    {NeedsReferent, NeedsSelf, Because(MovesOutOfBorrow), Because(OverwritesThroughBorrow), Because(LendsToMoveOut),
     Because(UsedAfterPassedOn), Because(NotDisposed)}

  ghost predicate Holds(req: Requirement, fact: Fact) {
    match fact
    case NeedsReferent => req.kind == Referent || req.kind == Both
    case NeedsSelf => req.kind == Self || req.kind == Both
    case Because(why) => why in req.reasons
  }

  // The facts still missing: they can only become fewer.
  ghost function Missing(r: Requirements): set<(nat, nat, Fact)> {
    set f: nat, j: nat, fact | f < |r| && j < |r[f]| && fact in ALL_FACTS && !Holds(r[f][j], fact) :: (f, j, fact)
  }

  ghost function Raised(r: Requirements, f: nat, j: nat, req: Requirement): Requirements
    requires f < |r| && j < |r[f]|
  {
    r[f := r[f][j := req]]
  }

  lemma SomethingMissed(a: Requirement, b: Requirement) returns (fact: Fact)
    requires Within(a, b) && a != b
    ensures fact in ALL_FACTS && !Holds(a, fact) && Holds(b, fact)
  {
    if a.kind != b.kind {
      fact := if !Holds(a, NeedsReferent) && Holds(b, NeedsReferent) then NeedsReferent else NeedsSelf;
    } else {
      var why :| why in b.reasons && why !in a.reasons;
      fact := Because(why);
      match why {
        case MovesOutOfBorrow =>
        case OverwritesThroughBorrow =>
        case LendsToMoveOut =>
        case UsedAfterPassedOn =>
        case NotDisposed =>
      }
    }
  }

  lemma RaisedMissesLess(r: Requirements, f: nat, j: nat, req: Requirement)
    requires f < |r| && j < |r[f]|
    requires Within(r[f][j], req) && req != r[f][j]
    ensures |Missing(Raised(r, f, j, req))| < |Missing(r)|
  {
    var r' := Raised(r, f, j, req);
    forall x | x in Missing(r')
      ensures x in Missing(r)
    {
      assert x.0 < |r| && x.1 < |r[x.0]|;
      if x.0 == f && x.1 == j {
        assert !Holds(req, x.2);
      } else {
        assert r'[x.0][x.1] == r[x.0][x.1];
      }
    }
    var fact := SomethingMissed(r[f][j], req);
    assert (f, j, fact) in Missing(r) && (f, j, fact) !in Missing(r');
    assert Missing(r) == Missing(r') + (Missing(r) - Missing(r'));
    assert |Missing(r)| == |Missing(r')| + |Missing(r) - Missing(r')|;
  }

  // Where a settled solution is above r, it is above what r passes on too; and
  // where r is stuck, there is none.
  lemma PassedOn(p: Program, r: Requirements, r': Requirements, c: Call, g: nat, i: nat)
    requires Shaped(p, r) && Shaped(p, r') && AllWithin(r, r')
    requires CallFits(p, c) && g in c.targets && i < |c.actuals| && SettledAt(p, r', c, g, i)
    ensures var req, a := r[g][i], c.actuals[i];
      req.kind != Nothing ==>
        && Judge(req.kind, a.ty) != Violated
        && (Judge(req.kind, a.ty) == Undetermined ==>
             Tracked(req.kind, a).Some? && Within(Inherited(req, a), r'[c.caller][Tracked(req.kind, a).value]))
  {
    var req, req', a := r[g][i], r'[g][i], c.actuals[i];
    assert ActualFits(p, c.caller, a);
    assert Within(r[g][i], r'[g][i]);
    if req.kind != Nothing {
      JudgeMonotone(req.kind, req'.kind, a.ty);
    }
  }

  // -------------------------------------------------------------------------
  // The answer does not depend on the order in which calls are visited
  // -------------------------------------------------------------------------

  ghost predicate LeastSettled(p: Program, seeds: Requirements, r: Requirements)
    requires Fits(p) && Shaped(p, seeds)
  {
    && Settled(p, seeds, r)
    && forall r' {:trigger Settled(p, seeds, r')} :: Settled(p, seeds, r') ==> AllWithin(r, r')
  }

  lemma SettledReordered(p: Program, p': Program, seeds: Requirements, r: Requirements)
    requires Fits(p) && Shaped(p, seeds) && p'.formals == p.formals
    requires multiset(p.calls) == multiset(p'.calls)
    requires Settled(p, seeds, r)
    ensures Fits(p') && Settled(p', seeds, r)
  {
    forall n | 0 <= n < |p'.calls|
      ensures CallFits(p', p'.calls[n]) && SettledCall(p', r, p'.calls[n])
    {
      assert p'.calls[n] in multiset(p'.calls);
      var m :| 0 <= m < |p.calls| && p.calls[m] == p'.calls[n];
      assert CallFits(p, p.calls[m]) && SettledCall(p, r, p.calls[m]);
      SameCall(p, p', r, p.calls[m]);
    }
  }

  // Calls are judged against the formals, not against each other.
  lemma SameCall(p: Program, p': Program, r: Requirements, c: Call)
    requires p'.formals == p.formals && Shaped(p, r)
    requires CallFits(p, c) && SettledCall(p, r, c)
    ensures CallFits(p', c) && SettledCall(p', r, c)
  {
    forall i | 0 <= i < |c.actuals|
      ensures ActualFits(p', c.caller, c.actuals[i])
    {
      assert ActualFits(p, c.caller, c.actuals[i]);
    }
    forall k | 0 <= k < |c.targets|
      ensures SettledTarget(p', r, c, c.targets[k])
    {
      assert SettledTarget(p, r, c, c.targets[k]);
      forall i | 0 <= i < |c.actuals|
        ensures SettledAt(p', r, c, c.targets[k], i)
      {
        assert SettledAt(p, r, c, c.targets[k], i);
      }
    }
  }

  // What resolving the calls in their order comes to: the least settled
  // requirements, or a rejection because there are none.
  ghost predicate Answers(p: Program, seeds: Requirements, ok: bool, r: Requirements)
    requires Fits(p) && Shaped(p, seeds)
  {
    if ok then LeastSettled(p, seeds, r) else forall r' :: !Settled(p, seeds, r')
  }

  // In another order the calls are accepted or rejected alike, with the same
  // requirements.
  lemma OrderDoesNotMatter(p: Program, p': Program, seeds: Requirements, ok: bool, r: Requirements, ok': bool,
      r': Requirements)
    requires Fits(p) && Fits(p') && Shaped(p, seeds) && p'.formals == p.formals
    requires multiset(p.calls) == multiset(p'.calls)
    requires Answers(p, seeds, ok, r) && Answers(p', seeds, ok', r')
    ensures ok == ok' && (ok ==> r == r')
  {
    if ok {
      SettledReordered(p, p', seeds, r);
    }
    if ok' {
      SettledReordered(p', p, seeds, r');
    }
    if ok && ok' {
      WithinBoth(r, r');
    }
  }

  lemma WithinBoth(r: Requirements, r': Requirements)
    requires AllWithin(r, r') && AllWithin(r', r)
    ensures r == r'
  {
    forall f | 0 <= f < |r|
      ensures r[f] == r'[f]
    {
      forall j | 0 <= j < |r[f]|
        ensures r[f][j] == r'[f][j]
      {
        assert Within(r[f][j], r'[f][j]) && Within(r'[f][j], r[f][j]);
      }
    }
  }

  class RequirementResolver {
    const p: Program
    var requirements: Requirements

    ghost const seeds: Requirements

    // Everything in the requirements is forced by the seeds.
    ghost predicate Valid()
      reads this
    {
      && Fits(p) && Shaped(p, seeds) && Shaped(p, requirements)
      && AllWithin(seeds, requirements)
      && Forced(requirements)
    }

    ghost predicate Forced(r: Requirements)
      requires Fits(p) && Shaped(p, seeds)
    {
      forall r' {:trigger Settled(p, seeds, r')} :: Settled(p, seeds, r') ==> AllWithin(r, r')
    }

    constructor (p: Program, seeds: Requirements)
      requires Fits(p) && Shaped(p, seeds)
      ensures Valid() && this.p == p && this.seeds == seeds && requirements == seeds
    {
      this.p, this.seeds, requirements := p, seeds, seeds;
    }

    // Accepted exactly when some assignment is settled; the result is then the
    // least one, whatever the order of the calls.
    method Resolve() returns (ok: bool)
      requires Valid()
      modifies this
      ensures Answers(p, seeds, ok, requirements)
    {
      var changed := true;
      ok := true;
      while changed
        invariant Valid()
        invariant !changed ==> forall n | 0 <= n < |p.calls| :: SettledCall(p, requirements, p.calls[n])
        decreases |Missing(requirements)|, if changed then 1 else 0
      {
        changed := false;
        ghost var r0 := requirements;
        for n := 0 to |p.calls|
          invariant Valid()
          invariant if changed then |Missing(requirements)| < |Missing(r0)|
                    else requirements == r0 && forall m | 0 <= m < n :: SettledCall(p, requirements, p.calls[m])
        {
          var moved;
          ok, moved := ResolveCall(p.calls[n]);
          if !ok {
            return;
          }
          changed := changed || moved;
        }
      }
    }

    method ResolveCall(c: Call) returns (ok: bool, changed: bool)
      requires Valid() && c in p.calls
      modifies this
      ensures !ok ==> forall r :: !Settled(p, seeds, r)
      ensures ok ==> Valid()
      ensures ok && changed ==> |Missing(requirements)| < |Missing(old(requirements))|
      ensures ok && !changed ==> requirements == old(requirements) && CallFits(p, c) && SettledCall(p, requirements, c)
    {
      ok, changed := true, false;
      assert CallFits(p, c);
      for k := 0 to |c.targets|
        invariant Valid()
        invariant if changed then |Missing(requirements)| < |Missing(old(requirements))|
                  else requirements == old(requirements) && forall h | 0 <= h < k ::
                    SettledTarget(p, requirements, c, c.targets[h])
      {
        var moved;
        ok, moved := ResolveTarget(c, c.targets[k]);
        if !ok {
          return;
        }
        changed := changed || moved;
      }
    }

    method ResolveTarget(c: Call, g: nat) returns (ok: bool, changed: bool)
      requires Valid() && c in p.calls && g in c.targets
      modifies this
      ensures !ok ==> forall r :: !Settled(p, seeds, r)
      ensures ok ==> Valid()
      ensures ok && changed ==> |Missing(requirements)| < |Missing(old(requirements))|
      ensures ok && !changed ==> requirements == old(requirements)
      ensures ok && !changed ==> CallFits(p, c) && SettledTarget(p, requirements, c, g)
    {
      ok, changed := true, false;
      assert CallFits(p, c);
      var k :| 0 <= k < |c.targets| && c.targets[k] == g;
      for i := 0 to |c.actuals|
        invariant Valid()
        invariant if changed then |Missing(requirements)| < |Missing(old(requirements))|
                  else requirements == old(requirements) && forall h | 0 <= h < i :: SettledAt(p, requirements, c, g, h)
      {
        var moved;
        ok, moved := ResolveActual(c, g, i);
        if !ok {
          return;
        }
        changed := changed || moved;
      }
    }

    // One actual of one call: fine, or a rejection, or the requirement moves on.
    method ResolveActual(c: Call, g: nat, i: nat) returns (ok: bool, changed: bool)
      requires Valid() && c in p.calls && CallFits(p, c) && g in c.targets && i < |c.actuals| && g < |p.formals| &&
        |p.formals[g]| == |c.actuals|
      modifies this
      ensures !ok ==> forall r :: !Settled(p, seeds, r)
      ensures ok ==> Valid()
      ensures ok && changed ==> |Missing(requirements)| < |Missing(old(requirements))|
      ensures ok && !changed ==> requirements == old(requirements) && SettledAt(p, requirements, c, g, i)
    {
      ok, changed := true, false;
      var req, a := requirements[g][i], c.actuals[i];
      if req.kind == Nothing {
        return;
      }
      var verdict := Judge(req.kind, a.ty);
      if verdict == Satisfied {
        return;
      }
      forall r | Settled(p, seeds, r)
        ensures Passes(r, c, g, i)
      {
        FromSettled(r, c, g, i);
      }
      var j := Tracked(req.kind, a);
      if verdict == Violated || j.None? {
        ok := false;
        return;
      }
      assert ActualFits(p, c.caller, a);
      var inherited := Inherited(req, a);
      var joined := JoinBoth(requirements[c.caller][j.value], inherited);
      JoinIsLeast(requirements[c.caller][j.value], inherited, requirements[c.caller][j.value]);
      if joined != requirements[c.caller][j.value] {
        Raising(c.caller, j.value, inherited, c, g, i);
        requirements := requirements[c.caller := requirements[c.caller][j.value := joined]];
        changed := true;
      }
    }

    // What PassedOn says of one settled assignment.
    ghost predicate Passes(r: Requirements, c: Call, g: nat, i: nat)
      reads this
      requires Fits(p) && Shaped(p, seeds) && Shaped(p, requirements) && CallFits(p, c) && g in c.targets &&
        i < |c.actuals|
    {
      var req, a := requirements[g][i], c.actuals[i];
      req.kind != Nothing ==>
        && Judge(req.kind, a.ty) != Violated
        && (Judge(req.kind, a.ty) == Undetermined ==>
             && Shaped(p, r) && Tracked(req.kind, a).Some?
             && Within(Inherited(req, a), r[c.caller][Tracked(req.kind, a).value]))
    }

    lemma FromSettled(r: Requirements, c: Call, g: nat, i: nat)
      requires Valid() && c in p.calls && CallFits(p, c) && g in c.targets && i < |c.actuals|
      requires Settled(p, seeds, r)
      ensures Passes(r, c, g, i)
    {
      var n :| 0 <= n < |p.calls| && p.calls[n] == c;
      assert SettledCall(p, r, p.calls[n]);
      var k :| 0 <= k < |c.targets| && c.targets[k] == g;
      assert SettledTarget(p, r, c, c.targets[k]);
      assert SettledAt(p, r, c, g, i);
      PassedOn(p, requirements, r, c, g, i);
    }

    lemma Raising(f: nat, j: nat, inherited: Requirement, c: Call, g: nat, i: nat)
      requires Valid() && CallFits(p, c) && g in c.targets && i < |c.actuals|
      requires f == c.caller && j < |requirements[f]|
      requires var req, a := requirements[g][i], c.actuals[i];
        req.kind != Nothing && Judge(req.kind, a.ty) == Undetermined && Tracked(req.kind, a) == Some(j) &&
          Inherited(req, a) == inherited
      requires forall r | Settled(p, seeds, r) :: Passes(r, c, g, i)
      requires JoinBoth(requirements[f][j], inherited) != requirements[f][j]
      ensures var raised := Raised(requirements, f, j, JoinBoth(requirements[f][j], inherited));
        && Shaped(p, raised) && AllWithin(seeds, raised) && Forced(raised)
        && |Missing(raised)| < |Missing(requirements)|
    {
      var joined := JoinBoth(requirements[f][j], inherited);
      var raised := Raised(requirements, f, j, joined);
      RaisedMissesLess(requirements, f, j, joined);
      forall h, l | 0 <= h < |seeds| && 0 <= l < |seeds[h]|
        ensures Within(seeds[h][l], raised[h][l])
      {
        assert Within(seeds[h][l], requirements[h][l]);
      }
      forall r | Settled(p, seeds, r)
        ensures AllWithin(raised, r)
      {
        assert Passes(r, c, g, i);
        assert AllWithin(requirements, r);
        JoinIsLeast(requirements[f][j], inherited, r[f][j]);
      }
    }
  }
}
