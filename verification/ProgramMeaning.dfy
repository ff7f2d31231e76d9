/** What a whole program computes. */
module ProgramMeaning {
  import opened Optional
  import opened Syntax
  import opened Heap
  import opened Moves
  import opened Static
  import opened Machine
  import opened Calls
  import opened Safety
  import opened Watching
  import opened Copying
  import opened Reading
  import opened Agreement
  import opened Meaning
  import opened Theorems

  function Numbers(vs: List<Value>): List<Datum>
    requires AllInts(vs)
  {
    match vs
    case Nil => Nil
    case Cons(v, t) => Cons(Number(v.n), Numbers(t))
  }

  lemma {:induction false} IntsRead(s: State, k: Known, vs: List<Value>)
    requires AllInts(vs)
    ensures ReadAll(s.heap, vs) == Numbers(vs) && AllLendable(s, k, vs)
    decreases vs
  {
    if vs.Cons? {
      IntsRead(s, k, vs.tail);
    }
  }

  // Generated code is right: a run of an accepted program comes back if and only if
  // its meaning, where owners are values and moves are copies, does, and then returns
  // and has printed the same; it stops with an error if and only if that does, with
  // the same error and after the same output; and it goes on if and only if that does.
  // Like the claim of safety this holds up to the first step that no pass guards, so
  // of a careful program without exception.
  lemma {:induction false} ProgramMeans(p: Program, main: Name, vs: List<Value>, input: nat -> int, fuel: nat)
    requires Accepted(p) && main in p.funs
    requires var fun := p.funs[main];
      var ts := FormalTys(fun.formals, fun.tys);
      AllIntTys(ts) && AllInts(vs) && SameLength(vs, ts) && fun.retTy.TInt?
    ensures var w, s := World(p, map[], input, true), State([], map[], 0, 0, []);
      var watched, r := Invoke(w, main, vs, s, fuel), Invoke(Real(w), main, vs, s, fuel);
      var q := CallMeans(p, input, main, Numbers(vs), Store([], 0, []), fuel);
      && (!watched.Strays? ==>
            match r
            case Done(v, s1) => v.IntV? && q == Gives(Number(v.n), Store([], s1.drawn, s1.printed))
            case Halt(printed, error) => q == Stops(printed, error)
            case Spent => q == Tired
            case _ => false)
      && (Careful(p) ==> !watched.Strays?)
  {
    hide Invoke, CallMeans, Accepted, Careful;
    var w, s, t := World(p, map[], input, true), State([], map[], 0, 0, []), Store([], 0, []);
    var k, fun := Known({}, {}), p.funs[main];
    IntsPass(p.ctors, s, vs, FormalTys(fun.formals, fun.tys), 0);
    IntsRead(s, k, vs);
    assert RootCells(s, k.roots) == {};
    InvokeSafe(w, main, vs, s, {}, fuel);
    InvokeFollows(w, main, vs, s, fuel);
    InvokeMeans(w, main, vs, Numbers(vs), s, t, {}, k, fuel);
    var r, q := Invoke(w, main, vs, s, fuel), CallMeans(p, input, main, Numbers(vs), t, fuel);
    if r.Done? {
      assert q.t.frames == [];
    }
  }
}
