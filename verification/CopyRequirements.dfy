/** What generic bodies need of their actuals: judging a requirement at a call, and
    what its verdict means at every instantiation. */
module CopyRequirements {
  import opened Optional

  datatype Mode = Own | Borrow | ModeVar(m: nat)

  datatype Ty = Int | TypeVar(a: nat) | Ref(mode: Mode, referent: Ty) | Fun(parts: seq<Ty>) | Sum(parts: seq<Ty>)

  datatype Kind = Nothing | Referent | Self | Both

  datatype Reason = MovesOutOfBorrow | OverwritesThroughBorrow | LendsToMoveOut | UsedAfterPassedOn | NotDisposed

  datatype Requirement = Requirement(kind: Kind, reasons: set<Reason>)

  datatype Verdict = Satisfied | Violated | Undetermined

  // -------------------------------------------------------------------------
  // Types
  // -------------------------------------------------------------------------

  // classifyType: owning references and sums own heap storage, all else is copied.
  predicate OwnsHeap(t: Ty) {
    t.Sum? || (t.Ref? && t.mode == Own)
  }

  predicate ClassDependsOnInstantiation(t: Ty) {
    t.TypeVar? || (t.Ref? && t.mode.ModeVar?)
  }

  predicate ContainsTypeVariable(t: Ty) {
    match t
    case Int => false
    case TypeVar(_) => true
    case Ref(m, r) => m.ModeVar? || ContainsTypeVariable(r)
    case Fun(ps) => exists i | 0 <= i < |ps| :: ContainsTypeVariable(ps[i])
    case Sum(ps) => exists i | 0 <= i < |ps| :: ContainsTypeVariable(ps[i])
  }

  datatype Instantiation = Instantiation(types: nat -> Ty, modes: nat -> Mode)

  function Instantiate(s: Instantiation, t: Ty): Ty {
    match t
    case Int => Int
    case TypeVar(a) => s.types(a)
    case Ref(m, r) => Ref(if m.ModeVar? then s.modes(m.m) else m, Instantiate(s, r))
    case Fun(ps) => Fun(seq(|ps|, i requires 0 <= i < |ps| => Instantiate(s, ps[i])))
    case Sum(ps) => Sum(seq(|ps|, i requires 0 <= i < |ps| => Instantiate(s, ps[i])))
  }

  // -------------------------------------------------------------------------
  // The lattice of requirements
  // -------------------------------------------------------------------------

  function JoinRequirement(a: Kind, b: Kind): Kind {
    if a == Nothing then b
    else if b == Nothing || a == b then a
    else Both
  }

  predicate Below(a: Kind, b: Kind) {
    a == b || a == Nothing || b == Both
  }

  predicate Within(a: Requirement, b: Requirement) {
    Below(a.kind, b.kind) && a.reasons <= b.reasons
  }

  function JoinBoth(a: Requirement, b: Requirement): Requirement {
    Requirement(JoinRequirement(a.kind, b.kind), a.reasons + b.reasons)
  }

  // The join is the least requirement above both.
  lemma JoinIsLeast(a: Requirement, b: Requirement, c: Requirement)
    ensures Within(a, JoinBoth(a, b)) && Within(b, JoinBoth(a, b))
    ensures Within(JoinBoth(a, b), c) <==> Within(a, c) && Within(b, c)
  {
  }

  // -------------------------------------------------------------------------
  // Judging a requirement against the type of an actual
  // -------------------------------------------------------------------------

  function JudgeOne(req: Kind, actual: Ty): Verdict
    requires req == Referent || req == Self
  {
    if req == Referent && !actual.Ref? then
      if ContainsTypeVariable(actual) then Undetermined else Satisfied
    else
      var subject := if req == Referent then actual.referent else actual;
      if OwnsHeap(subject) then Violated
      else if ClassDependsOnInstantiation(subject) then Undetermined
      else Satisfied
  }

  function Judge(req: Kind, actual: Ty): Verdict
    requires req != Nothing
  {
    if req != Both then
      JudgeOne(req, actual)
    else
      var a, b := JudgeOne(Referent, actual), JudgeOne(Self, actual);
      if a == Violated || b == Violated then Violated
      else if a == Undetermined || b == Undetermined then Undetermined
      else Satisfied
  }

  // What goes wrong at run time: an owned value where a copy is needed, or a
  // borrow of one where the value behind it is taken.
  predicate Breaks(req: Kind, t: Ty) {
    || ((req == Self || req == Both) && OwnsHeap(t))
    || ((req == Referent || req == Both) && t.Ref? && OwnsHeap(t.referent))
  }

  // A satisfied verdict holds at every instantiation; a violated one at none.
  lemma {:induction false} VerdictStable(s: Instantiation, req: Kind, actual: Ty)
    requires req != Nothing
    ensures Judge(req, actual) == Satisfied ==> !Breaks(req, Instantiate(s, actual))
    ensures Judge(req, actual) == Violated ==> Breaks(req, Instantiate(s, actual))
  {
  }

  // A borrow of nothing but integers for each mode and type variable, and the
  // reverse.
  const PLAIN := Instantiation(a => Int, m => Borrow)
  const OWNING := Instantiation(a => Ref(Own, Int), m => Own)
  const LENDING := Instantiation(a => Ref(Borrow, Ref(Own, Int)), m => Own)

  lemma {:induction false} GroundStays(s: Instantiation, t: Ty)
    requires !ContainsTypeVariable(t)
    ensures Instantiate(s, t) == t
  {
    match t
    case Int =>
    case Ref(_, r) => GroundStays(s, r);
    case Fun(ps) =>
      forall i | 0 <= i < |ps|
        ensures Instantiate(s, ps[i]) == ps[i]
      {
        GroundStays(s, ps[i]);
      }
    case Sum(ps) =>
      forall i | 0 <= i < |ps|
        ensures Instantiate(s, ps[i]) == ps[i]
      {
        GroundStays(s, ps[i]);
      }
  }

  lemma {:induction false} VariablesShow(t: Ty)
    requires ContainsTypeVariable(t)
    ensures Instantiate(PLAIN, t) != Instantiate(OWNING, t)
  {
    match t
    case TypeVar(_) =>
    case Ref(m, r) =>
      if !m.ModeVar? {
        VariablesShow(r);
      }
    case Fun(ps) =>
      var i :| 0 <= i < |ps| && ContainsTypeVariable(ps[i]);
      VariablesShow(ps[i]);
      assert Instantiate(PLAIN, t).parts[i] != Instantiate(OWNING, t).parts[i];
    case Sum(ps) =>
      var i :| 0 <= i < |ps| && ContainsTypeVariable(ps[i]);
      VariablesShow(ps[i]);
      assert Instantiate(PLAIN, t).parts[i] != Instantiate(OWNING, t).parts[i];
  }

  // A type mentions a variable if and only if it has several instances.
  lemma {:induction false} VariablesExactly(t: Ty)
    ensures ContainsTypeVariable(t) <==> exists s, s' :: Instantiate(s, t) != Instantiate(s', t)
  {
    if ContainsTypeVariable(t) {
      VariablesShow(t);
    } else {
      forall s
        ensures Instantiate(s, t) == t
      {
        GroundStays(s, t);
      }
    }
  }

  // A verdict is put off only where it has to be: where the actual breaks the
  // requirement at one instantiation and not at another; and, besides, for a sum or
  // a function type that mentions a variable, which is no reference whatever becomes
  // of the variable.
  lemma {:induction false} UndeterminedExactly(req: Kind, actual: Ty)
    requires req != Nothing
    ensures Judge(req, actual) == Undetermined <==> BreaksSometimes(req, actual) || NoReference(req, actual)
  {
    var plain, owning, lending := Instantiate(PLAIN, actual), Instantiate(OWNING, actual), Instantiate(LENDING, actual);
    VerdictStable(PLAIN, req, actual);
    if Judge(req, actual) == Undetermined && !NoReference(req, actual) {
      match actual
      case TypeVar(a) =>
        assert plain == Int && owning == Ref(Own, Int) && lending == Ref(Borrow, Ref(Own, Int));
        assert !Breaks(req, plain);
        assert Breaks(req, owning) || Breaks(req, lending);
      case Ref(m, r) =>
        assert plain == Ref(if m.ModeVar? then Borrow else m, Instantiate(PLAIN, r));
        assert owning == Ref(if m.ModeVar? then Own else m, Instantiate(OWNING, r));
        assert r.TypeVar? ==> Instantiate(PLAIN, r) == Int && Instantiate(OWNING, r) == Ref(Own, Int);
        assert r.Ref? && r.mode.ModeVar? ==> Instantiate(PLAIN, r).mode == Borrow && Instantiate(OWNING, r).mode == Own;
        assert !Breaks(req, plain);
        assert Breaks(req, owning) || Breaks(req, lending);
    }
    if BreaksSometimes(req, actual) {
      var s, s' :| Breaks(req, Instantiate(s, actual)) && !Breaks(req, Instantiate(s', actual));
      VerdictStable(s, req, actual);
      VerdictStable(s', req, actual);
    }
  }

  ghost predicate BreaksSometimes(req: Kind, t: Ty) {
    exists s, s' :: Breaks(req, Instantiate(s, t)) && !Breaks(req, Instantiate(s', t))
  }

  predicate NoReference(req: Kind, t: Ty) {
    ContainsTypeVariable(t) && (if req == Both then t.Fun? else req == Referent && (t.Fun? || t.Sum?))
  }

  // Types without variables leave nothing open: the verdict is whether the
  // requirement breaks.
  lemma {:induction false} GroundIsDecided(req: Kind, actual: Ty)
    requires req != Nothing && !ContainsTypeVariable(actual)
    ensures Judge(req, actual) == if Breaks(req, actual) then Violated else Satisfied
  {
  }

  // A larger requirement is never judged more kindly, and breaks more.
  lemma JudgeMonotone(a: Kind, b: Kind, actual: Ty)
    requires a != Nothing && Below(a, b)
    ensures Judge(a, actual) == Violated ==> Judge(b, actual) == Violated
    ensures Judge(a, actual) == Undetermined ==> Judge(b, actual) != Satisfied
    ensures Breaks(a, actual) ==> Breaks(b, actual)
  {
  }

  // -------------------------------------------------------------------------
  // Programs, as resolution sees them
  // -------------------------------------------------------------------------

  // The form of an actual: a variable or the borrow of one, which may be a formal
  // of the enclosing function, or something else.
  datatype Form = Variable(formal: Option<nat>) | BorrowOf(formal: Option<nat>) | Other

  // recorded: the formal that the body walk found the actual to be (an alias of).
  datatype Actual = Actual(ty: Ty, form: Form, recorded: Option<nat>)

  datatype Call = Call(caller: nat, targets: seq<nat>, actuals: seq<Actual>)

  // Functions are numbered; formals[f] holds the types of f's formals.
  datatype Program = Program(formals: seq<seq<Ty>>, calls: seq<Call>)

  type Requirements = seq<seq<Requirement>>

  // Which formal of the enclosing function the requirement moves to.
  function Tracked(req: Kind, a: Actual): Option<nat> {
    if req != Self && a.form.BorrowOf? then a.form.formal
    else if a.recorded.Some? then a.recorded
    else if a.form.Variable? then a.form.formal
    else None
  }

  function Inherited(req: Requirement, a: Actual): Requirement {
    if req.kind != Self && a.form.BorrowOf? then Requirement(Self, req.reasons + {LendsToMoveOut})
    else req
  }

  // An actual that is a formal has the formal's type; a borrow, a borrow's type.
  predicate ActualFits(p: Program, caller: nat, a: Actual)
    requires caller < |p.formals|
  {
    && (a.recorded.Some? ==> IsFormal(p, caller, a.recorded.value, a.ty))
    && (a.form.Variable? && a.form.formal.Some? ==> IsFormal(p, caller, a.form.formal.value, a.ty))
    && (a.form.BorrowOf? ==>
      && a.ty.Ref? && a.ty.mode == Borrow
      && (a.form.formal.Some? ==> IsFormal(p, caller, a.form.formal.value, a.ty.referent)))
  }

  predicate IsFormal(p: Program, f: nat, j: nat, t: Ty)
    requires f < |p.formals|
  {
    j < |p.formals[f]| && p.formals[f][j] == t
  }

  predicate CallFits(p: Program, c: Call) {
    && c.caller < |p.formals|
    && (forall k | 0 <= k < |c.targets| :: c.targets[k] < |p.formals| && |p.formals[c.targets[k]]| == |c.actuals|)
    && (forall i | 0 <= i < |c.actuals| :: ActualFits(p, c.caller, c.actuals[i]))
  }

  predicate Fits(p: Program) {
    forall n | 0 <= n < |p.calls| :: CallFits(p, p.calls[n])
  }

  // One requirement for each formal.
  ghost predicate Shaped(p: Program, r: Requirements) {
    |r| == |p.formals| && forall f | 0 <= f < |r| :: |r[f]| == |p.formals[f]|
  }

  ghost predicate AllWithin(r: Requirements, r': Requirements) {
    && |r| == |r'|
    && (forall f {:trigger r[f]} {:trigger r'[f]} | 0 <= f < |r| :: |r[f]| == |r'[f]|)
    && forall f, j {:trigger r[f][j]} {:trigger r'[f][j]} | 0 <= f < |r| && 0 <= j < |r[f]| :: Within(r[f][j], r'[f][j])
  }

  // A requirement of a callee's formal needs nothing more: the actual is fine
  // whatever it becomes, or the caller's formal that it is has inherited it.
  ghost predicate SettledAt(p: Program, r: Requirements, c: Call, g: nat, i: nat)
    requires Shaped(p, r) && CallFits(p, c) && g in c.targets && i < |c.actuals|
  {
    var req, a := r[g][i], c.actuals[i];
    req.kind == Nothing ||
    match Judge(req.kind, a.ty)
    case Satisfied => true
    case Violated => false
    case Undetermined => var j := Tracked(req.kind, a); j.Some? && Within(Inherited(req, a), r[c.caller][j.value])
  }

  ghost predicate SettledTarget(p: Program, r: Requirements, c: Call, g: nat)
    requires Shaped(p, r) && CallFits(p, c) && g in c.targets
  {
    forall i | 0 <= i < |c.actuals| :: SettledAt(p, r, c, g, i)
  }

  ghost predicate SettledCall(p: Program, r: Requirements, c: Call)
    requires Shaped(p, r) && CallFits(p, c)
  {
    forall k | 0 <= k < |c.targets| :: SettledTarget(p, r, c, c.targets[k])
  }

  // The seeds are there, and every call is settled.
  ghost predicate Settled(p: Program, seeds: Requirements, r: Requirements)
    requires Fits(p) && Shaped(p, seeds)
  {
    && Shaped(p, r) && AllWithin(seeds, r)
    && forall n | 0 <= n < |p.calls| :: SettledCall(p, r, p.calls[n])
  }

  // No actual has a type with a variable.
  ghost predicate Monomorphic(p: Program) {
    forall n, i | 0 <= n < |p.calls| && 0 <= i < |p.calls[n].actuals| :: !ContainsTypeVariable(p.calls[n].actuals[i].ty)
  }

  // An actual meets what the body of a target asks of its formal.
  ghost predicate SeedsMetAt(seeds: Requirements, c: Call) {
    forall k, i | 0 <= k < |c.targets| && 0 <= i < |c.actuals| && c.targets[k] < |seeds| && i < |seeds[c.targets[k]]| ::
      !Breaks(seeds[c.targets[k]][i].kind, c.actuals[i].ty)
  }

  // Without variables nothing is passed on: there is a settled assignment if and
  // only if no actual breaks what the body it goes to asks for, and then the bodies'
  // own requirements are one.
  lemma {:induction false} MonomorphicSettledExactly(p: Program, seeds: Requirements)
    requires Fits(p) && Shaped(p, seeds) && Monomorphic(p)
    ensures (exists r :: Settled(p, seeds, r)) <==> forall n | 0 <= n < |p.calls| :: SeedsMetAt(seeds, p.calls[n])
    ensures (exists r :: Settled(p, seeds, r)) ==> Settled(p, seeds, seeds)
  {
    if r :| Settled(p, seeds, r) {
      forall n | 0 <= n < |p.calls|
        ensures SeedsMetAt(seeds, p.calls[n])
      {
        SettledMeetsSeeds(p, seeds, r, n);
      }
    }
    if forall n | 0 <= n < |p.calls| :: SeedsMetAt(seeds, p.calls[n]) {
      forall n | 0 <= n < |p.calls|
        ensures SettledCall(p, seeds, p.calls[n])
      {
        MetIsSettled(p, seeds, n);
      }
      assert Settled(p, seeds, seeds);
    }
  }

  lemma {:induction false} SettledMeetsSeeds(p: Program, seeds: Requirements, r: Requirements, n: nat)
    requires Fits(p) && Shaped(p, seeds) && Monomorphic(p) && Settled(p, seeds, r) && n < |p.calls|
    ensures SeedsMetAt(seeds, p.calls[n])
  {
    var c := p.calls[n];
    assert SettledCall(p, r, c);
    forall k, i | 0 <= k < |c.targets| && 0 <= i < |c.actuals| && c.targets[k] < |seeds| && i < |seeds[c.targets[k]]|
      ensures !Breaks(seeds[c.targets[k]][i].kind, c.actuals[i].ty)
    {
      var g := c.targets[k];
      assert SettledTarget(p, r, c, g) && SettledAt(p, r, c, g, i) && Within(seeds[g][i], r[g][i]);
      if seeds[g][i].kind != Nothing {
        GroundIsDecided(r[g][i].kind, c.actuals[i].ty);
        JudgeMonotone(seeds[g][i].kind, r[g][i].kind, c.actuals[i].ty);
      }
    }
  }

  lemma {:induction false} MetIsSettled(p: Program, seeds: Requirements, n: nat)
    requires Fits(p) && Shaped(p, seeds) && Monomorphic(p) && n < |p.calls| && SeedsMetAt(seeds, p.calls[n])
    ensures SettledCall(p, seeds, p.calls[n])
  {
    var c := p.calls[n];
    assert CallFits(p, c);
    forall k, i | 0 <= k < |c.targets| && 0 <= i < |c.actuals|
      ensures SettledAt(p, seeds, c, c.targets[k], i)
    {
      if seeds[c.targets[k]][i].kind != Nothing {
        GroundIsDecided(seeds[c.targets[k]][i].kind, c.actuals[i].ty);
      }
    }
  }

  // -------------------------------------------------------------------------
  // Every call chain, at every instantiation
  // -------------------------------------------------------------------------

  datatype Instance = Instance(f: nat, s: Instantiation)

  // A function entered with types that none of its requirements forbids.
  ghost predicate Harmless(p: Program, r: Requirements, x: Instance)
    requires Shaped(p, r)
  {
    x.f < |r| && forall j | 0 <= j < |r[x.f]| :: !Breaks(r[x.f][j].kind, Instantiate(x.s, p.formals[x.f][j]))
  }

  // One instance calls another: actuals and formals have the same types.
  ghost predicate Calls(p: Program, c: Call, x: Instance, y: Instance)
    requires CallFits(p, c)
  {
    && c.caller == x.f && y.f in c.targets
    && forall i | 0 <= i < |c.actuals| :: Instantiate(x.s, c.actuals[i].ty) == Instantiate(y.s, p.formals[y.f][i])
  }

  ghost predicate CallsSomehow(p: Program, x: Instance, y: Instance)
    requires Fits(p)
  {
    exists n :: 0 <= n < |p.calls| && Calls(p, p.calls[n], x, y)
  }

  lemma ActualHarmless(p: Program, r: Requirements, c: Call, x: Instance, y: Instance, i: nat)
    requires Shaped(p, r) && CallFits(p, c) && SettledCall(p, r, c)
    requires Harmless(p, r, x) && Calls(p, c, x, y) && i < |c.actuals|
    ensures !Breaks(r[y.f][i].kind, Instantiate(x.s, c.actuals[i].ty))
  {
    var req, a := r[y.f][i], c.actuals[i];
    var k :| 0 <= k < |c.targets| && c.targets[k] == y.f;
    assert SettledTarget(p, r, c, c.targets[k]) && SettledAt(p, r, c, y.f, i);
    assert ActualFits(p, c.caller, a);
    if req.kind != Nothing {
      VerdictStable(x.s, req.kind, a.ty);
      if Judge(req.kind, a.ty) == Undetermined {
        var j := Tracked(req.kind, a).value;
        var t := Instantiate(x.s, p.formals[x.f][j]);
        assert !Breaks(r[x.f][j].kind, t);
      }
    }
  }

  lemma CalleeHarmless(p: Program, r: Requirements, c: Call, x: Instance, y: Instance)
    requires Shaped(p, r) && CallFits(p, c) && SettledCall(p, r, c)
    requires Harmless(p, r, x) && Calls(p, c, x, y)
    ensures Harmless(p, r, y)
  {
    forall i | 0 <= i < |r[y.f]|
      ensures !Breaks(r[y.f][i].kind, Instantiate(y.s, p.formals[y.f][i]))
    {
      ActualHarmless(p, r, c, x, y, i);
    }
  }

  // On every chain of calls from a harmless start, at every instantiation, no owned
  // value reaches a formal that needs a copy, and no borrow of one a formal that
  // takes what is behind it.
  lemma {:induction false} ChainsHarmless(p: Program, seeds: Requirements, r: Requirements, chain: seq<Instance>)
    requires Fits(p) && Shaped(p, seeds) && Settled(p, seeds, r)
    requires chain != [] && Harmless(p, r, chain[0])
    requires forall k | 0 <= k < |chain| - 1 :: CallsSomehow(p, chain[k], chain[k + 1])
    ensures forall k | 0 <= k < |chain| :: Harmless(p, seeds, chain[k]) && Harmless(p, r, chain[k])
    decreases |chain|
  {
    SeedsHarmless(p, seeds, r, chain[0]);
    if |chain| > 1 {
      assert CallsSomehow(p, chain[0], chain[0 + 1]);
      var n :| 0 <= n < |p.calls| && Calls(p, p.calls[n], chain[0], chain[1]);
      CalleeHarmless(p, r, p.calls[n], chain[0], chain[1]);
      forall k | 0 <= k < |chain[1..]| - 1
        ensures CallsSomehow(p, chain[1..][k], chain[1..][k + 1])
      {
        assert CallsSomehow(p, chain[k + 1], chain[k + 1 + 1]);
      }
      ChainsHarmless(p, seeds, r, chain[1..]);
      forall k | 0 < k < |chain|
        ensures Harmless(p, seeds, chain[k]) && Harmless(p, r, chain[k])
      {
        assert chain[k] == chain[1..][k - 1];
      }
    }
  }

  lemma SeedsHarmless(p: Program, seeds: Requirements, r: Requirements, x: Instance)
    requires Shaped(p, seeds) && Shaped(p, r) && AllWithin(seeds, r)
    requires Harmless(p, r, x)
    ensures Harmless(p, seeds, x)
  {
    forall j | 0 <= j < |seeds[x.f]|
      ensures !Breaks(seeds[x.f][j].kind, Instantiate(x.s, p.formals[x.f][j]))
    {
      assert Within(seeds[x.f][j], r[x.f][j]);
    }
  }
}
