/** The checker itself: one walk over a function that updates the ownership state
    in place, holds the borrows of the calls in progress, and rejects. Each method
    is proved against the transfer function of module Moves it implements. */
module MoveAnalyzer {
  import opened Optional
  import opened Syntax
  import opened Moves

  // The union of the borrow sets on the stack.
  function AllHeld(held: seq<set<Name>>): set<Name> {
    if held == [] then {} else held[0] + AllHeld(held[1..])
  }

  lemma {:induction false} HeldPushed(held: seq<set<Name>>, s: set<Name>)
    ensures AllHeld(held + [s]) == AllHeld(held) + s
    decreases held
  {
    if held == [] {
      assert (held + [s])[1..] == [];
    } else {
      assert (held + [s])[1..] == held[1..] + [s];
      HeldPushed(held[1..], s);
    }
  }

  lemma {:induction false} KeysAppended(branches: seq<StateMap>, b: StateMap)
    ensures KeysOf(branches + [b]) == KeysOf(branches) + b.Keys
    decreases branches
  {
    if branches == [] {
      assert (branches + [b])[1..] == [];
    } else {
      assert (branches + [b])[1..] == branches[1..] + [b];
      KeysAppended(branches[1..], b);
    }
  }

  lemma {:induction false} KeysCover(branches: seq<StateMap>)
    ensures forall b | b in branches :: b.Keys <= KeysOf(branches)
    decreases branches
  {
    if branches != [] {
      KeysCover(branches[1..]);
    }
  }

  // The branches agree on whether x owns.
  ghost predicate Settled(branches: seq<StateMap>, x: Name) {
    forall k | 0 <= k < |branches| :: x in OwnedIn(branches[k]) <==> x in OwnedIn(branches[0])
  }

  lemma {:induction false} AllSettled(branches: seq<StateMap>)
    requires branches != []
    requires forall x | x in KeysOf(branches) :: Settled(branches, x)
    ensures Join(branches).Some?
  {
    KeysCover(branches);
    forall b | b in branches
      ensures OwnedIn(b) == OwnedIn(branches[0])
    {
      var k :| 0 <= k < |branches| && branches[k] == b;
      assert branches[0] in branches;
      forall x | x in OwnedIn(b) + OwnedIn(branches[0])
        ensures x in OwnedIn(b) <==> x in OwnedIn(branches[0])
      {
        assert Settled(branches, x);
      }
    }
  }

  function NamesOf(saved: seq<Saved>): List<Name> {
    if saved == [] then Nil else Cons(saved[0].x, NamesOf(saved[1..]))
  }

  // What was saved is saved under the binders' names, in their order.
  lemma {:induction false} SavedNames(saved: seq<Saved>, st: StateMap, bs: List<Name>)
    requires ToList(saved) == SavedBy(st, bs)
    ensures NamesOf(saved) == bs
    decreases bs
  {
    if bs.Cons? {
      SavedNames(saved[1..], st[bs.head := Owned], bs.tail);
    }
  }

  class MoveAnalysis {
    const p: Program
    var tys: map<Name, Ty>
    var state: StateMap
    var heldBorrows: seq<set<Name>>

    constructor (p: Program)
      ensures this.p == p && heldBorrows == []
    {
      this.p := p;
      tys, state, heldBorrows := map[], map[], [];
    }

    // False is the exception: use after move, or a move of a lent owner.
    method ConsumeVar(x: Name) returns (ok: bool)
      modifies this`state
      ensures ok <==> Consume(x, old(state), AllHeld(heldBorrows)).Some?
      ensures ok ==> Consume(x, old(state), AllHeld(heldBorrows)) == Some(state)
    {
      if x in state && state[x] == Moved {
        return false;
      }
      var i := 0;
      assert heldBorrows[0..] == heldBorrows;
      while i < |heldBorrows|
        invariant 0 <= i <= |heldBorrows|
        invariant x in AllHeld(heldBorrows) <==> x in AllHeld(heldBorrows[i..])
      {
        assert heldBorrows[i..][1..] == heldBorrows[i + 1..];
        if x in heldBorrows[i] {
          return false;
        }
        i := i + 1;
      }
      state := state[x := Moved];
      ok := true;
    }

    method CheckUse(x: Name) returns (ok: bool)
      ensures ok <==> EvalExpr(p, tys, Var(x), state, AllHeld(heldBorrows)).Some?
    {
      ok := !(x in tys && IsOwn(tys[x]) && x in state && state[x] == Moved);
    }

    method EvaluateExpr(e: Expr) returns (ok: bool)
      modifies this`state, this`heldBorrows
      ensures heldBorrows == old(heldBorrows)
      ensures ok <==> EvalExpr(p, tys, e, old(state), AllHeld(heldBorrows)).Some?
      ensures ok ==> EvalExpr(p, tys, e, old(state), AllHeld(heldBorrows)) == Some(state)
      decreases e, 1
    {
      match e
      case Num(_) => ok := true;
      case Input => ok := true;
      case Var(x) => ok := CheckUse(x);
      case Borrow(x) => ok := CheckUse(x);
      case Bin(_, l, r) =>
        ok := EvaluateExpr(l);
        if ok {
          ok := EvaluateExpr(r);
        }
      case Alloc(i) => ok := EvaluateExpr(i);
      case Deref(q) => ok := EvaluateExpr(q);
      case New(_, args) => ok := EvaluateOperands(args, AllTaken(args));
      case Call(f, args) =>
        // A borrow in any actual is live until the call returns.
        HeldPushed(heldBorrows, BorrowedIn(args));
        heldBorrows := heldBorrows + [BorrowedIn(args)];
        ok := EvaluateOperands(args, Consumes(p, f));
        heldBorrows := heldBorrows[..|heldBorrows| - 1];
    }

    method EvaluateOperands(es: List<Expr>, takes: List<bool>) returns (ok: bool)
      modifies this`state, this`heldBorrows
      ensures heldBorrows == old(heldBorrows)
      ensures ok <==> EvalOperands(p, tys, es, takes, old(state), AllHeld(heldBorrows)).Some?
      ensures ok ==> EvalOperands(p, tys, es, takes, old(state), AllHeld(heldBorrows)) == Some(state)
      decreases es, 0
    {
      var rest, flags := es, takes;
      ghost var held := AllHeld(heldBorrows);
      while rest.Cons?
        invariant heldBorrows == old(heldBorrows)
        invariant rest == es || rest < es
        invariant EvalOperands(p, tys, es, takes, old(state), held) == EvalOperands(p, tys, rest, flags, state, held)
        decreases rest
      {
        var e := rest.head;
        if flags.Cons? && flags.head && e.Var? && e.x in tys && IsOwn(tys[e.x]) {
          ok := ConsumeVar(e.x);
        } else {
          ok := EvaluateExpr(e);
        }
        if !ok {
          return;
        }
        rest := rest.tail;
        if flags.Cons? {
          flags := flags.tail;
        }
      }
      ok := true;
    }

    // A value taken whole at statement level, where no call is in progress.
    method TakeExpr(e: Expr) returns (ok: bool)
      requires heldBorrows == []
      modifies this`state, this`heldBorrows
      ensures heldBorrows == []
      ensures ok <==> Take(p, tys, e, old(state)).Some?
      ensures ok ==> Take(p, tys, e, old(state)) == Some(state)
    {
      if e.Var? && e.x in tys && IsOwn(tys[e.x]) {
        ok := ConsumeVar(e.x);
      } else {
        ok := EvaluateExpr(e);
      }
    }

    method AnalyzeAssign(x: Name, rhs: Expr) returns (ok: bool)
      requires heldBorrows == []
      modifies this`state, this`heldBorrows
      ensures heldBorrows == []
      ensures var r := AnalyzeStmt(p, tys, Assign(x, rhs), old(state)); ok <==> r.Some?
      ensures ok ==> AnalyzeStmt(p, tys, Assign(x, rhs), old(state)) == Some(Checked(state, Assign(x, rhs)))
    {
      ok := TakeExpr(rhs);
      if ok && x in tys && IsOwn(tys[x]) {
        if rhs.Borrow? {
          state := state - {x};
        } else if x in state && state[x] == Owned {
          ok := false;
        } else {
          state := state[x := Owned];
        }
      }
    }

    // joinStates: count, for each variable, the branches that own it.
    method JoinStates(branches: seq<StateMap>) returns (r: Option<StateMap>)
      requires branches != []
      ensures r == Join(branches)
    {
      var vars := {};
      var i := 0;
      while i < |branches|
        invariant 0 <= i <= |branches|
        invariant vars == KeysOf(branches[..i])
      {
        KeysAppended(branches[..i], branches[i]);
        assert branches[..i] + [branches[i]] == branches[..i + 1];
        vars := vars + branches[i].Keys;
        i := i + 1;
      }
      assert branches[..i] == branches;
      KeysCover(branches);
      var joined: StateMap := map[];
      var todo := vars;
      while todo != {}
        invariant todo <= vars
        invariant joined.Keys == vars - todo
        invariant forall x | x in vars - todo ::
          Settled(branches, x) && (joined[x] == Owned <==> x in OwnedIn(branches[0]))
        decreases todo
      {
        var x :| x in todo;
        var owned, moved := CountBranches(branches, x);
        if owned == |branches| {
          joined := joined[x := Owned];
        } else if owned > 0 {
          var j :| 0 <= j < |branches| && x in OwnedIn(branches[j]);
          var k :| 0 <= k < |branches| && x !in OwnedIn(branches[k]);
          Disagree(branches, x, j, k);
          return None;
        } else if moved {
          joined := joined[x := Moved];
        } else {
          SomeBranchHas(branches, x);
          assert false;
        }
        todo := todo - {x};
      }
      AllSettled(branches);
      var whole := Join(branches).value;
      assert joined.Keys == whole.Keys;
      assert forall x | x in joined :: joined[x] == whole[x];
      assert joined == whole;
      r := Some(joined);
    }

    // assertLoopInvariant: the body may not change which variables own.
    method LoopInvariantHolds(before: StateMap, after: StateMap) returns (ok: bool)
      ensures ok <==> OwnedIn(before) == OwnedIn(after)
    {
      var todo := before.Keys + after.Keys;
      while todo != {}
        invariant forall x | x !in todo :: x in OwnedIn(before) <==> x in OwnedIn(after)
        decreases todo
      {
        var x :| x in todo;
        var was := x in before && before[x] == Owned;
        var now := x in after && after[x] == Owned;
        if was != now {
          assert x in OwnedIn(before) <==> x !in OwnedIn(after);
          return false;
        }
        todo := todo - {x};
      }
      ok := true;
    }

    // The state after s, and s with the destroys of its arms inserted.
    method AnalyzeStatement(s: Stmt) returns (r: Option<Stmt>)
      requires heldBorrows == []
      modifies this`state, this`heldBorrows
      ensures heldBorrows == []
      ensures var spec := AnalyzeStmt(p, tys, s, old(state));
        r.Some? == spec.Some? && (r.Some? ==> spec == Some(Checked(state, r.value)))
      decreases s, 1
    {
      match s
      case Assign(x, rhs) =>
        var ok := AnalyzeAssign(x, rhs);
        r := if ok then Some(s) else None;
      case Write(target, rhs) =>
        // The target's operand is evaluated before the right-hand side.
        var ok := EvaluateExpr(target);
        if ok {
          ok := TakeExpr(rhs);
        }
        r := if ok then Some(s) else None;
      case Block(ss) =>
        var code := AnalyzeStatements(ss);
        r := if code.Some? then Some(Block(code.value)) else None;
      case If(c, t, e) =>
        var ok := EvaluateExpr(c);
        if !ok {
          return None;
        }
        var entry := state;
        var code1 := AnalyzeStatement(t);
        var then_ := state;
        if code1.None? {
          return None;
        }
        state := entry;
        var code2 := AnalyzeStatement(e);
        if code2.None? {
          return None;
        }
        var joined := JoinStates([then_, state]);
        if joined.None? {
          return None;
        }
        state := joined.value;
        r := Some(If(c, code1.value, code2.value));
      case While(c, b) =>
        var before := state;
        var ok := EvaluateExpr(c);
        if !ok || state != before {
          return None;
        }
        var code := AnalyzeStatement(b);
        if code.None? {
          return None;
        }
        ok := LoopInvariantHolds(before, state);
        state := before;
        r := if ok then Some(While(c, code.value)) else None;
      case Output(e) =>
        var ok := EvaluateExpr(e);
        r := if ok then Some(s) else None;
      case Error(e) =>
        var ok := EvaluateExpr(e);
        r := if ok then Some(s) else None;
      case Case(e, arms) =>
        var ok := TakeExpr(e);
        if !ok {
          return None;
        }
        var states, code := AnalyzeCaseArms(arms, Consuming(e));
        if code.None? {
          return None;
        }
        if arms.Nil? {
          return Some(s);
        }
        var joined := JoinStates(states);
        if joined.None? {
          return None;
        }
        state := joined.value;
        r := Some(Case(e, code.value));
      case Destroy(_, _) => r := Some(s);
    }

    method AnalyzeStatements(ss: List<Stmt>) returns (r: Option<List<Stmt>>)
      requires heldBorrows == []
      modifies this`state, this`heldBorrows
      ensures heldBorrows == []
      ensures var spec := AnalyzeStmts(p, tys, ss, old(state));
        r.Some? == spec.Some? && (r.Some? ==> spec == Some(Checked(state, r.value)))
      decreases ss, 0
    {
      match ss
      case Nil => r := Some(Nil);
      case Cons(s, t) =>
        var first := AnalyzeStatement(s);
        if first.None? {
          return None;
        }
        var rest := AnalyzeStatements(t);
        r := if rest.Some? then Some(Cons(first.value, rest.value)) else None;
    }

    // Every arm starts from the state after the scrutinee.
    method AnalyzeCaseArms(arms: List<Arm>, byValue: bool) returns (states: seq<StateMap>, r: Option<List<Arm>>)
      requires heldBorrows == []
      modifies this`state, this`heldBorrows
      ensures heldBorrows == [] && (r.Some? ==> state == old(state))
      ensures var spec := AnalyzeArms(p, tys, arms, byValue, old(state));
        r.Some? == spec.Some? && (r.Some? ==> spec == Some((states, r.value)))
      decreases arms, 0
    {
      match arms
      case Nil => states, r := [], Some(Nil);
      case Cons(arm, t) =>
        var entry := state;
        states := [];
        var first := AnalyzeCaseArm(arm, byValue);
        if first.None? {
          return [], None;
        }
        var end := state;
        state := entry;
        var others, rest := AnalyzeCaseArms(t, byValue);
        states := [end] + others;
        r := if rest.Some? then Some(Cons(first.value, rest.value)) else None;
    }

    // Binders are owners for their arm: each saves what it hides; at the end the
    // destroys of those still owned are planned, and what was saved is put back.
    method AnalyzeCaseArm(arm: Arm, byValue: bool) returns (r: Option<Arm>)
      requires heldBorrows == []
      modifies this`state, this`heldBorrows
      ensures heldBorrows == []
      ensures var spec := AnalyzeArm(p, tys, arm, byValue, old(state));
        r.Some? == spec.Some? && (r.Some? ==> spec == Some(Checked(state, r.value)))
      decreases arm, 0
    {
      var binders := ArmBinders(arm, byValue);
      var saved := SaveAndOwn(binders);
      SavedNames(saved, old(state), binders);
      var code := AnalyzeStatement(arm.body);
      if code.None? {
        return None;
      }
      var left := StillOwned(ArmOwned(arm, byValue), saved);
      PutSavedBack(saved);
      var body := if left.Nil? then code.value else Block(Cons(code.value, Destroys(left)));
      r := Some(arm.(body := body));
    }

    method SaveAndOwn(binders: List<Name>) returns (saved: seq<Saved>)
      modifies this`state
      ensures ToList(saved) == SavedBy(old(state), binders) && state == SetOwned(old(state), binders)
    {
      saved := [];
      var rest := binders;
      while rest.Cons?
        invariant Append(ToList(saved), SavedBy(state, rest)) == SavedBy(old(state), binders)
        invariant SetOwned(state, rest) == SetOwned(old(state), binders)
        decreases rest
      {
        var x := rest.head;
        var entry := Saved(x, if x in state then Some(state[x]) else None);
        AppendLast(saved, entry, SavedBy(state[x := Owned], rest.tail));
        saved := saved + [entry];
        state := state[x := Owned];
        rest := rest.tail;
      }
      AppendNil(ToList(saved));
    }

    // Each binder's entry is looked up under the name saved for it.
    method StillOwned(binders: List<Binder>, saved: seq<Saved>) returns (left: List<Binder>)
      requires Names(binders) == NamesOf(saved)
      ensures left == Leftover(binders, state)
    {
      var owned: seq<Binder> := [];
      var i, rest := 0, binders;
      assert saved[0..] == saved;
      while i < |saved|
        invariant 0 <= i <= |saved| && Names(rest) == NamesOf(saved[i..])
        invariant Append(ToList(owned), Leftover(rest, state)) == Leftover(binders, state)
      {
        var x := saved[i].x;
        assert saved[i..][1..] == saved[i + 1..];
        if x in state && state[x] == Owned {
          AppendLast(owned, rest.head, Leftover(rest.tail, state));
          owned := owned + [rest.head];
        }
        i, rest := i + 1, rest.tail;
      }
      AppendNil(ToList(owned));
      left := ToList(owned);
    }

    method PutSavedBack(saved: seq<Saved>)
      modifies this`state
      ensures state == PutBack(old(state), ToList(saved))
    {
      var i := 0;
      assert saved[0..] == saved;
      while i < |saved|
        invariant 0 <= i <= |saved|
        invariant PutBack(state, ToList(saved[i..])) == PutBack(old(state), ToList(saved))
      {
        assert saved[i..][1..] == saved[i + 1..];
        if saved[i].was.Some? {
          state := state[saved[i].x := saved[i].was.value];
        } else {
          state := state - {saved[i].x};
        }
        i := i + 1;
      }
    }

    method AnalyzeFun(f: Fun) returns (r: Option<Code>)
      requires heldBorrows == []
      modifies this
      ensures heldBorrows == []
      ensures r == AnalyzeFunction(p, f)
    {
      tys := f.tys;
      state := map[];
      var formals := f.formals;
      while formals.Cons?
        invariant FormalsOwned(tys, formals, state) == Entry(f)
        invariant heldBorrows == [] && tys == f.tys
        decreases formals
      {
        if IsOwnVar(tys, formals.head) {
          state := state[formals.head := Owned];
        }
        formals := formals.tail;
      }
      var body := AnalyzeStatements(f.body);
      if body.None? {
        return None;
      }
      var ok := TakeExpr(f.ret);
      r := if ok then Some(Code(body.value, Sorted(OwnedIn(state)))) else None;
    }

    method CountBranches(branches: seq<StateMap>, x: Name) returns (owned: nat, moved: bool)
      ensures owned <= |branches|
      ensures owned == |branches| <==> forall k | 0 <= k < |branches| :: x in OwnedIn(branches[k])
      ensures owned == 0 <==> forall k | 0 <= k < |branches| :: x !in OwnedIn(branches[k])
      ensures moved <==> exists k :: 0 <= k < |branches| && IsMoved(branches[k], x)
    {
      owned, moved := 0, false;
      for i := 0 to |branches|
        invariant owned <= i
        invariant owned == i <==> forall k | 0 <= k < i :: x in OwnedIn(branches[k])
        invariant owned == 0 <==> forall k | 0 <= k < i :: x !in OwnedIn(branches[k])
        invariant moved <==> exists k :: 0 <= k < i && IsMoved(branches[k], x)
      {
        if x in branches[i] {
          if branches[i][x] == Owned {
            assert x in OwnedIn(branches[i]);
            owned := owned + 1;
          } else {
            assert x !in OwnedIn(branches[i]) && IsMoved(branches[i], x);
            moved := true;
          }
        } else {
          assert x !in OwnedIn(branches[i]) && !IsMoved(branches[i], x);
        }
      }
    }
  }

  lemma Disagree(branches: seq<StateMap>, x: Name, j: nat, k: nat)
    requires j < |branches| && k < |branches|
    requires x in OwnedIn(branches[j]) && x !in OwnedIn(branches[k])
    ensures Join(branches).None?
  {
    assert branches[j] in branches && branches[k] in branches;
  }

  lemma {:induction false} SomeBranchHas(branches: seq<StateMap>, x: Name)
    requires x in KeysOf(branches)
    ensures exists b :: b in branches && x in b
    decreases branches
  {
    if x in branches[0] {
      assert branches[0] in branches;
    } else {
      SomeBranchHas(branches[1..], x);
      var b :| b in branches[1..] && x in b;
      assert b in branches;
    }
  }
}
