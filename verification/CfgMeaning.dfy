/** A built graph means what the statement means: its paths carry exactly the
    traces of structured execution. */
module CfgMeaning {
  import opened ControlFlow

  ghost predicate Walks(g: Table, b: Target, steps: seq<nat>, exit: nat, t: seq<Event>) {
    Path(g, b, steps, exit) && Label(g, b, steps, exit) == t
  }

  // One step out of a block, then on.
  lemma Step(g: Table, b: Target, i: nat, steps: seq<nat>, exit: nat, t: seq<Event>)
    requires b.To? && b.id in g && i < |g[b.id].successors|
    requires Walks(g, g[b.id].successors[i].target, steps, exit, t)
    ensures Walks(g, b, [i] + steps, exit, Straight(g[b.id].statements)
      + Leaving(g[b.id].terminator, g[b.id].successors[i].kind) + t)
  {
    assert ([i] + steps)[1..] == steps;
  }

  // Out of a block with no statements of its own.
  lemma StepFrom(g: Table, b: Target, term: Terminator, edges: seq<Edge>, i: nat, e: Event, steps: seq<nat>, exit: nat,
      t: seq<Event>)
    requires IsBlock(g, b, [], term, edges) && i < |edges| && Leaving(term, edges[i].kind) == [e]
    requires Walks(g, edges[i].target, steps, exit, t)
    ensures Walks(g, b, [i] + steps, exit, [e] + t)
  {
    Step(g, b, i, steps, exit, t);
  }

  // -------------------------------------------------------------------------
  // Every structured run is a path
  // -------------------------------------------------------------------------

  ghost function Onwards(t: seq<Event>, returned: bool, u: seq<Event>): seq<Event> {
    if returned then t else t + u
  }

  lemma {:induction false} RunIsPath(g: Table, s: Stmt, b: Target, k: Target, x: Target, exit: nat, r: Run,
      returned: bool, rest: seq<nat>, u: seq<Event>)
    returns (steps: seq<nat>)
    requires Built(g, s, b, k, x) && IsRun(s, r, returned)
    requires if returned then x == To(exit) else Walks(g, k, rest, exit, u)
    ensures Walks(g, b, steps, exit, Onwards(Trace(s, r, returned), returned, u))
    decreases r, s
  {
    match s
    case Simple(id) =>
      Step(g, b, 0, rest, exit, u);
      steps := [0] + rest;
    case Return(id) =>
      Step(g, b, 0, [], exit, []);
      steps := [0];
    case If(c, thn, els) =>
      steps := BranchIsPath(g, s, b, k, x, exit, r, returned, rest, u);
    case While(c, body) =>
      steps := LoopIsPath(g, s, b, k, x, exit, r, returned, rest, u);
    case Case(c, arms) =>
      steps := ArmIsPath(g, s, b, k, x, exit, r, returned, rest, u);
    case Nested(ss) =>
      steps := SequenceRunIsPath(g, ss, b, k, x, exit, r, returned, rest, u);
  }

  lemma Associate(t1: seq<Event>, t2: seq<Event>, returned: bool, u: seq<Event>)
    ensures t1 + Onwards(t2, returned, u) == Onwards(t1 + t2, returned, u)
  {
    assert t1 + (t2 + u) == (t1 + t2) + u;
  }

  lemma {:induction false} ArmIsPath(g: Table, s: Stmt, b: Target, k: Target, x: Target, exit: nat, r: Run,
      returned: bool, rest: seq<nat>, u: seq<Event>)
    returns (steps: seq<nat>)
    requires s.Case? && Built(g, s, b, k, x) && IsRun(s, r, returned)
    requires if returned then x == To(exit) else Walks(g, k, rest, exit, u)
    ensures Walks(g, b, steps, exit, Onwards(Trace(s, r, returned), returned, u))
    decreases r, s, 0
  {
    var edges: seq<Edge> :| IsBlock(g, b, [], Cases(s.scrutinee), edges) && |edges| == |s.arms| &&
      forall i | 0 <= i < |s.arms| :: edges[i].kind == CaseArm(s.arms[i].tag) &&
        Built(g, s.arms[i].body, edges[i].target, k, x);
    var arm := s.arms[r.arm];
    steps := RunIsPath(g, arm.body, edges[r.arm].target, k, x, exit, r.sub, returned, rest, u);
    StepFrom(g, b, Cases(s.scrutinee), edges, r.arm, Chose(s.scrutinee, arm.tag), steps, exit,
      Onwards(Trace(arm.body, r.sub, returned), returned, u));
    steps := [r.arm] + steps;
    Associate([Chose(s.scrutinee, arm.tag)], Trace(arm.body, r.sub, returned), returned, u);
  }

  lemma {:induction false} BranchIsPath(g: Table, s: Stmt, b: Target, k: Target, x: Target, exit: nat, r: Run,
      returned: bool, rest: seq<nat>, u: seq<Event>)
    returns (steps: seq<nat>)
    requires s.If? && Built(g, s, b, k, x) && IsRun(s, r, returned)
    requires if returned then x == To(exit) else Walks(g, k, rest, exit, u)
    ensures Walks(g, b, steps, exit, Onwards(Trace(s, r, returned), returned, u))
    decreases r, s, 0
  {
    var bt, be :| IsBlock(g, b, [], Branches(s.cond), [Edge(bt, TrueBranch), Edge(be, FalseBranch)]) &&
      Built(g, s.thn, bt, k, x) && (if s.els.NoElse? then be == k else Built(g, s.els.stmt, be, k, x));
    var edges := [Edge(bt, TrueBranch), Edge(be, FalseBranch)];
    if r.Then? {
      steps := RunIsPath(g, s.thn, bt, k, x, exit, r.sub, returned, rest, u);
      StepFrom(g, b, Branches(s.cond), edges, 0, Tested(s.cond, true), steps, exit,
        Onwards(Trace(s.thn, r.sub, returned), returned, u));
      steps := [0] + steps;
      Associate([Tested(s.cond, true)], Trace(s.thn, r.sub, returned), returned, u);
    } else if r.Otherwise? {
      steps := RunIsPath(g, s.els.stmt, be, k, x, exit, r.sub, returned, rest, u);
      StepFrom(g, b, Branches(s.cond), edges, 1, Tested(s.cond, false), steps, exit,
        Onwards(Trace(s.els.stmt, r.sub, returned), returned, u));
      steps := [1] + steps;
      Associate([Tested(s.cond, false)], Trace(s.els.stmt, r.sub, returned), returned, u);
    } else {
      StepFrom(g, b, Branches(s.cond), edges, 1, Tested(s.cond, false), rest, exit, u);
      steps := [1] + rest;
    }
  }

  lemma {:induction false} LoopIsPath(g: Table, s: Stmt, b: Target, k: Target, x: Target, exit: nat, r: Run,
      returned: bool, rest: seq<nat>, u: seq<Event>)
    returns (steps: seq<nat>)
    requires s.While? && Built(g, s, b, k, x) && IsRun(s, r, returned)
    requires if returned then x == To(exit) else Walks(g, k, rest, exit, u)
    ensures Walks(g, b, steps, exit, Onwards(Trace(s, r, returned), returned, u))
    decreases r, s, 0
  {
    var bb :| IsBlock(g, b, [], Loops(s.cond), [Edge(bb, TrueBranch), Edge(k, FalseBranch)]) &&
      Built(g, s.body, bb, b, x);
    var edges := [Edge(bb, TrueBranch), Edge(k, FalseBranch)];
    if r.Leaves? {
      StepFrom(g, b, Loops(s.cond), edges, 1, Tested(s.cond, false), rest, exit, u);
      steps := [1] + rest;
    } else if r.Breaks? {
      steps := RunIsPath(g, s.body, bb, b, x, exit, r.sub, true, [], []);
      StepFrom(g, b, Loops(s.cond), edges, 0, Tested(s.cond, true), steps, exit, Trace(s.body, r.sub, true));
      steps := [0] + steps;
    } else {
      var again := RunIsPath(g, s, b, k, x, exit, r.rest, returned, rest, u);
      var u' := Onwards(Trace(s, r.rest, returned), returned, u);
      steps := RunIsPath(g, s.body, bb, b, x, exit, r.first, false, again, u');
      StepFrom(g, b, Loops(s.cond), edges, 0, Tested(s.cond, true), steps, exit, Trace(s.body, r.first, false) + u');
      steps := [0] + steps;
      assert [Tested(s.cond, true)] + (Trace(s.body, r.first, false) + u') == [Tested(s.cond, true)]
        + Trace(s.body, r.first, false) + u';
      Associate([Tested(s.cond, true)] + Trace(s.body, r.first, false), Trace(s, r.rest, returned), returned, u);
    }
  }

  lemma {:induction false} SequenceRunIsPath(g: Table, ss: seq<Stmt>, b: Target, k: Target, x: Target, exit: nat,
      r: Run, returned: bool, rest: seq<nat>, u: seq<Event>)
    returns (steps: seq<nat>)
    requires BuiltSequence(g, ss, b, k, x) && IsSequenceRun(ss, r, returned)
    requires if returned then x == To(exit) else Walks(g, k, rest, exit, u)
    ensures Walks(g, b, steps, exit, Onwards(SequenceTrace(ss, r, returned), returned, u))
    decreases r, ss
  {
    if ss == [] {
      steps := rest;
    } else if !Compound(ss[0]) {
      steps := StraightIsPath(g, ss, b, k, x, exit, r, returned, rest, u);
    } else {
      var m :| Built(g, ss[0], b, m, x) && BuiltSequence(g, ss[1..], m, k, x);
      if r.Stops? {
        steps := RunIsPath(g, ss[0], b, m, x, exit, r.sub, true, [], []);
      } else {
        var after := SequenceRunIsPath(g, ss[1..], m, k, x, exit, r.rest, returned, rest, u);
        steps := RunIsPath(g, ss[0], b, m, x, exit, r.first, false, after,
          Onwards(SequenceTrace(ss[1..], r.rest, returned), returned, u));
        Associate(Trace(ss[0], r.first, false), SequenceTrace(ss[1..], r.rest, returned), returned, u);
      }
    }
  }

  lemma {:induction false} StraightIsPath(g: Table, ss: seq<Stmt>, b: Target, k: Target, x: Target, exit: nat, r: Run,
      returned: bool, rest: seq<nat>, u: seq<Event>)
    returns (steps: seq<nat>)
    requires ss != [] && !Compound(ss[0])
    requires BuiltSequence(g, ss, b, k, x) && IsSequenceRun(ss, r, returned)
    requires if returned then x == To(exit) else Walks(g, k, rest, exit, u)
    ensures Walks(g, b, steps, exit, Onwards(SequenceTrace(ss, r, returned), returned, u))
    decreases r, ss, 0
  {
    var d := g[b.id];
    var n := |d.statements|;
    var r' := AfterRun(ss, d.statements, r, returned);
    if d.terminator.Returns? {
      Step(g, b, 0, [], exit, []);
      steps := [0];
    } else {
      steps := SequenceRunIsPath(g, ss[n..], d.successors[0].target, k, x, exit, r', returned, rest, u);
      Step(g, b, 0, steps, exit, Onwards(SequenceTrace(ss[n..], r', returned), returned, u));
      steps := [0] + steps;
      Associate(Straight(d.statements), SequenceTrace(ss[n..], r', returned), returned, u);
    }
  }

  lemma {:induction false} FirstDone(ss: seq<Stmt>, id: nat, r: Run, returned: bool)
    requires ss != [] && ss[0] == Simple(id) && IsSequenceRun(ss, r, returned)
    ensures r.Continues? && IsSequenceRun(ss[1..], r.rest, returned)
    ensures SequenceTrace(ss, r, returned) == [Did(id)] + SequenceTrace(ss[1..], r.rest, returned)
  {
  }

  // A run of straight-line statements does them in order and goes on.
  lemma {:induction false} AfterRun(ss: seq<Stmt>, ids: seq<nat>, r: Run, returned: bool) returns (r': Run)
    requires |ids| <= |ss| && forall j | 0 <= j < |ids| :: ss[j] == Simple(ids[j])
    requires IsSequenceRun(ss, r, returned)
    ensures IsSequenceRun(ss[|ids|..], r', returned)
    ensures SequenceTrace(ss, r, returned) == Straight(ids) + SequenceTrace(ss[|ids|..], r', returned)
    ensures if ids == [] then r' == r else (r decreases to r')
    decreases |ids|
  {
    hide IsSequenceRun, SequenceTrace;
    if ids == [] {
      assert ss[0..] == ss;
      r' := r;
    } else {
      FirstDone(ss, ids[0], r, returned);
      forall j | 0 <= j < |ids[1..]|
        ensures ss[1..][j] == Simple(ids[1..][j])
      {
        assert ss[j + 1] == Simple(ids[j + 1]);
      }
      r' := AfterRun(ss[1..], ids[1..], r.rest, returned);
      assert ss[1..][|ids| - 1..] == ss[|ids|..];
      assert Straight(ids) == [Did(ids[0])] + Straight(ids[1..]);
    }
  }

  // -------------------------------------------------------------------------
  // Every path is a structured run
  // -------------------------------------------------------------------------

  // Nothing leaves the exit.
  ghost predicate Final(g: Table, exit: nat) {
    exit in g ==> g[exit].successors == []
  }

  // The path starts with the events t, and then it has come to k, or to the end.
  ghost predicate Splits(g: Table, b: Target, steps: seq<nat>, exit: nat, t: seq<Event>, returned: bool, k: Target,
      rest: seq<nat>) {
    && Path(g, b, steps, exit)
    && |rest| <= |steps|
    && (if returned then Label(g, b, steps, exit) == t
      else Path(g, k, rest, exit) && Label(g, b, steps, exit) == t + Label(g, k, rest, exit))
  }

  lemma {:induction false} FirstStep(g: Table, b: Target, steps: seq<nat>, exit: nat)
    requires Path(g, b, steps, exit) && Final(g, exit)
    requires b.To? && b.id in g && g[b.id].successors != []
    ensures steps != [] && steps[0] < |g[b.id].successors|
    ensures Path(g, g[b.id].successors[steps[0]].target, steps[1..], exit)
  {
  }

  // A step into a part of the statement, which then splits.
  lemma {:induction false} SplitsBefore(g: Table, b: Target, steps: seq<nat>, exit: nat, t: seq<Event>, returned: bool,
      k: Target, rest: seq<nat>)
    requires Path(g, b, steps, exit) && Final(g, exit)
    requires b.To? && b.id in g && g[b.id].successors != []
    requires steps != [] && Splits(g, g[b.id].successors[steps[0]].target, steps[1..], exit, t, returned, k, rest)
    ensures Splits(g, b, steps, exit, Straight(g[b.id].statements)
      + Leaving(g[b.id].terminator, g[b.id].successors[steps[0]].kind) + t, returned, k, rest)
  {
    var before := Straight(g[b.id].statements) + Leaving(g[b.id].terminator, g[b.id].successors[steps[0]].kind);
    if !returned {
      assert before + (t + Label(g, k, rest, exit)) == (before + t) + Label(g, k, rest, exit);
    }
  }

  lemma {:induction false} SplitsFrom(g: Table, b: Target, term: Terminator, edges: seq<Edge>, e: Event,
      steps: seq<nat>, exit: nat, t: seq<Event>, returned: bool, k: Target, rest: seq<nat>)
    requires Path(g, b, steps, exit) && Final(g, exit)
    requires IsBlock(g, b, [], term, edges) && steps != [] && steps[0] < |edges| && Leaving(term, edges[steps[0]].kind)
      == [e]
    requires Splits(g, edges[steps[0]].target, steps[1..], exit, t, returned, k, rest)
    ensures Splits(g, b, steps, exit, [e] + t, returned, k, rest)
  {
    SplitsBefore(g, b, steps, exit, t, returned, k, rest);
    assert Straight([]) + [e] + t == [e] + t;
  }

  lemma SplitsOn(g: Table, b: Target, steps: seq<nat>, exit: nat, t1: seq<Event>, m: Target, mid: seq<nat>,
      t2: seq<Event>, returned: bool, k: Target, rest: seq<nat>)
    requires Splits(g, b, steps, exit, t1, false, m, mid) && Splits(g, m, mid, exit, t2, returned, k, rest)
    ensures Splits(g, b, steps, exit, t1 + t2, returned, k, rest)
  {
    if !returned {
      assert t1 + (t2 + Label(g, k, rest, exit)) == (t1 + t2) + Label(g, k, rest, exit);
    }
  }

  lemma {:induction false} PathIsRun(g: Table, s: Stmt, b: Target, k: Target, exit: nat, steps: seq<nat>)
    returns (r: Run, returned: bool, rest: seq<nat>)
    requires Built(g, s, b, k, To(exit)) && Path(g, b, steps, exit) && Final(g, exit)
    ensures IsRun(s, r, returned) && Splits(g, b, steps, exit, Trace(s, r, returned), returned, k, rest)
    decreases |steps|, s
  {
    match s
    case Simple(id) =>
      FirstStep(g, b, steps, exit);
      r, returned, rest := Atom, false, steps[1..];
    case Return(id) =>
      FirstStep(g, b, steps, exit);
      EndsThere(g, steps[1..], exit);
      r, returned, rest := Atom, true, [];
    case If(c, thn, els) =>
      r, returned, rest := PathIsBranch(g, s, b, k, exit, steps);
    case While(c, body) =>
      r, returned, rest := PathIsLoop(g, s, b, k, exit, steps);
    case Case(c, arms) =>
      r, returned, rest := PathIsArm(g, s, b, k, exit, steps);
    case Nested(ss) =>
      r, returned, rest := PathIsSequence(g, ss, b, k, exit, steps);
  }

  lemma {:induction false} EndsThere(g: Table, steps: seq<nat>, exit: nat)
    requires Path(g, To(exit), steps, exit) && Final(g, exit)
    ensures steps == [] && Label(g, To(exit), steps, exit) == []
  {
  }

  lemma {:induction false} PathIsBranch(g: Table, s: Stmt, b: Target, k: Target, exit: nat, steps: seq<nat>)
    returns (r: Run, returned: bool, rest: seq<nat>)
    requires s.If? && Built(g, s, b, k, To(exit)) && Path(g, b, steps, exit) && Final(g, exit)
    ensures IsRun(s, r, returned) && Splits(g, b, steps, exit, Trace(s, r, returned), returned, k, rest)
    decreases |steps|, s, 0
  {
    var bt, be :| IsBlock(g, b, [], Branches(s.cond), [Edge(bt, TrueBranch), Edge(be, FalseBranch)]) &&
      Built(g, s.thn, bt, k, To(exit)) && (if s.els.NoElse? then be == k else Built(g, s.els.stmt, be, k, To(exit)));
    var edges := [Edge(bt, TrueBranch), Edge(be, FalseBranch)];
    FirstStep(g, b, steps, exit);
    if steps[0] == 0 {
      r, returned, rest := PathIsRun(g, s.thn, bt, k, exit, steps[1..]);
      SplitsFrom(g, b, Branches(s.cond), edges, Tested(s.cond, true), steps, exit, Trace(s.thn, r, returned), returned,
        k, rest);
      r := Then(r);
    } else if s.els.Else? {
      r, returned, rest := PathIsRun(g, s.els.stmt, be, k, exit, steps[1..]);
      SplitsFrom(g, b, Branches(s.cond), edges, Tested(s.cond, false), steps, exit, Trace(s.els.stmt, r, returned),
        returned, k, rest);
      r := Otherwise(r);
    } else {
      r, returned, rest := Skips, false, steps[1..];
    }
  }

  lemma {:induction false} PathIsLoop(g: Table, s: Stmt, b: Target, k: Target, exit: nat, steps: seq<nat>)
    returns (r: Run, returned: bool, rest: seq<nat>)
    requires s.While? && Built(g, s, b, k, To(exit)) && Path(g, b, steps, exit) && Final(g, exit)
    ensures IsRun(s, r, returned) && Splits(g, b, steps, exit, Trace(s, r, returned), returned, k, rest)
    decreases |steps|, s, 0
  {
    var bb :| IsBlock(g, b, [], Loops(s.cond), [Edge(bb, TrueBranch), Edge(k, FalseBranch)]) &&
      Built(g, s.body, bb, b, To(exit));
    var edges := [Edge(bb, TrueBranch), Edge(k, FalseBranch)];
    FirstStep(g, b, steps, exit);
    if steps[0] == 1 {
      r, returned, rest := Leaves, false, steps[1..];
      return;
    }
    var first, left, mid := PathIsRun(g, s.body, bb, b, exit, steps[1..]);
    SplitsFrom(g, b, Loops(s.cond), edges, Tested(s.cond, true), steps, exit, Trace(s.body, first, left), left, b, mid);
    if left {
      r, returned, rest := Breaks(first), true, [];
    } else {
      r, returned, rest := PathIsRun(g, s, b, k, exit, mid);
      SplitsOn(g, b, steps, exit, [Tested(s.cond, true)] + Trace(s.body, first, false), b, mid, Trace(s, r, returned),
        returned, k, rest);
      r := Iterates(first, r);
    }
  }

  lemma {:induction false} PathIsArm(g: Table, s: Stmt, b: Target, k: Target, exit: nat, steps: seq<nat>)
    returns (r: Run, returned: bool, rest: seq<nat>)
    requires s.Case? && Built(g, s, b, k, To(exit)) && Path(g, b, steps, exit) && Final(g, exit)
    ensures IsRun(s, r, returned) && Splits(g, b, steps, exit, Trace(s, r, returned), returned, k, rest)
    decreases |steps|, s, 0
  {
    var edges: seq<Edge> :| IsBlock(g, b, [], Cases(s.scrutinee), edges) && |edges| == |s.arms| &&
      forall i | 0 <= i < |s.arms| :: edges[i].kind == CaseArm(s.arms[i].tag) &&
        Built(g, s.arms[i].body, edges[i].target, k, To(exit));
    FirstStep(g, b, steps, exit);
    var i := steps[0];
    r, returned, rest := PathIsRun(g, s.arms[i].body, edges[i].target, k, exit, steps[1..]);
    SplitsFrom(g, b, Cases(s.scrutinee), edges, Chose(s.scrutinee, s.arms[i].tag), steps, exit,
      Trace(s.arms[i].body, r, returned), returned, k, rest);
    r := Picks(i, r);
  }

  lemma {:induction false} PathIsSequence(g: Table, ss: seq<Stmt>, b: Target, k: Target, exit: nat, steps: seq<nat>)
    returns (r: Run, returned: bool, rest: seq<nat>)
    requires BuiltSequence(g, ss, b, k, To(exit)) && Path(g, b, steps, exit) && Final(g, exit)
    ensures IsSequenceRun(ss, r, returned) &&
      Splits(g, b, steps, exit, SequenceTrace(ss, r, returned), returned, k, rest)
    decreases |steps|, ss
  {
    if ss == [] {
      r, returned, rest := Ends, false, steps;
    } else if !Compound(ss[0]) {
      r, returned, rest := PathIsStraight(g, ss, b, k, exit, steps);
    } else {
      var m :| Built(g, ss[0], b, m, To(exit)) && BuiltSequence(g, ss[1..], m, k, To(exit));
      var first, left, mid := PathIsRun(g, ss[0], b, m, exit, steps);
      if left {
        r, returned, rest := Stops(first), true, [];
      } else {
        r, returned, rest := PathIsSequence(g, ss[1..], m, k, exit, mid);
        SplitsOn(g, b, steps, exit, Trace(ss[0], first, false), m, mid, SequenceTrace(ss[1..], r, returned), returned,
          k, rest);
        r := Continues(first, r);
      }
    }
  }

  lemma {:induction false} ReturnDone(ss: seq<Stmt>, id: nat)
    requires ss != [] && ss[0] == Return(id)
    ensures IsSequenceRun(ss, Stops(Atom), true) && SequenceTrace(ss, Stops(Atom), true) == [Returned(id)]
  {
  }

  lemma {:induction false} PathIsStraight(g: Table, ss: seq<Stmt>, b: Target, k: Target, exit: nat, steps: seq<nat>)
    returns (r: Run, returned: bool, rest: seq<nat>)
    requires ss != [] && !Compound(ss[0])
    requires BuiltSequence(g, ss, b, k, To(exit)) && Path(g, b, steps, exit) && Final(g, exit)
    ensures IsSequenceRun(ss, r, returned) &&
      Splits(g, b, steps, exit, SequenceTrace(ss, r, returned), returned, k, rest)
    decreases |steps|, ss, 0
  {
    hide IsSequenceRun, SequenceTrace;
    var d := g[b.id];
    var n := |d.statements|;
    FirstStep(g, b, steps, exit);
    if d.terminator.Returns? {
      EndsThere(g, steps[1..], exit);
      returned, rest := true, [];
      ReturnDone(ss[n..], d.terminator.stmt);
      r := BeforeRun(ss, d.statements, Stops(Atom), true);
    } else {
      r, returned, rest := PathIsSequence(g, ss[n..], d.successors[0].target, k, exit, steps[1..]);
      SplitsBefore(g, b, steps, exit, SequenceTrace(ss[n..], r, returned), returned, k, rest);
      assert Straight(d.statements) + [] + SequenceTrace(ss[n..], r, returned) == Straight(d.statements)
        + SequenceTrace(ss[n..], r, returned);
      r := BeforeRun(ss, d.statements, r, returned);
    }
  }

  lemma {:induction false} DoneFirst(ss: seq<Stmt>, id: nat, r: Run, returned: bool)
    requires ss != [] && ss[0] == Simple(id) && IsSequenceRun(ss[1..], r, returned)
    ensures IsSequenceRun(ss, Continues(Atom, r), returned)
    ensures SequenceTrace(ss, Continues(Atom, r), returned) == [Did(id)] + SequenceTrace(ss[1..], r, returned)
  {
  }

  lemma {:induction false} BeforeRun(ss: seq<Stmt>, ids: seq<nat>, r': Run, returned: bool) returns (r: Run)
    requires |ids| <= |ss| && forall j | 0 <= j < |ids| :: ss[j] == Simple(ids[j])
    requires IsSequenceRun(ss[|ids|..], r', returned)
    ensures IsSequenceRun(ss, r, returned)
    ensures SequenceTrace(ss, r, returned) == Straight(ids) + SequenceTrace(ss[|ids|..], r', returned)
    decreases |ids|
  {
    hide IsSequenceRun, SequenceTrace;
    if ids == [] {
      assert ss[0..] == ss;
      r := r';
    } else {
      forall j | 0 <= j < |ids[1..]|
        ensures ss[1..][j] == Simple(ids[1..][j])
      {
        assert ss[j + 1] == Simple(ids[j + 1]);
      }
      assert ss[1..][|ids| - 1..] == ss[|ids|..];
      r := BeforeRun(ss[1..], ids[1..], r', returned);
      DoneFirst(ss, ids[0], r, returned);
      r := Continues(Atom, r);
      assert Straight(ids) == [Did(ids[0])] + Straight(ids[1..]);
    }
  }
}
