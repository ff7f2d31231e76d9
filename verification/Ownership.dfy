/** Which live cell belongs to whom. Every cell belongs to exactly one owning
    variable or to a set of cells held by someone else: suspended callers, the
    owners behind borrows, values in flight, boxes being taken apart. */
module Ownership {
  import opened Syntax
  import opened Heap

  // The cells the variables xs own together.
  ghost function CellsOwned(h: Memory, f: Frame, xs: set<Name>): set<nat> {
    set x, a | x in xs && x in f && a in Cells(h, f[x]) :: a
  }

  // The variables own hold whole values, no two share a cell, and the live cells
  // are exactly theirs and the others.
  ghost predicate Owns(cs: map<Name, Ctor>, tys: map<Name, Ty>, h: Memory, f: Frame, own: set<Name>, others: set<nat>) {
    && (forall x | x in own :: x in f && IsOwnVar(tys, x) && Tree(cs, h, f[x], tys[x]))
    && (forall x, y | x in own && y in own && x != y :: Cells(h, f[x]) !! Cells(h, f[y]))
    && others !! CellsOwned(h, f, own)
    && h.Keys == others + CellsOwned(h, f, own)
  }

  // The heap may change in any way that leaves the owned cells alone.
  lemma {:induction false} OwnsCarry(cs: map<Name, Ctor>, tys: map<Name, Ty>, h: Memory, f: Frame, own: set<Name>,
      others: set<nat>, h': Memory, f': Frame, others': set<nat>)
    requires Owns(cs, tys, h, f, own, others)
    requires forall x | x in own :: x in f' && f'[x] == f[x]
    requires SameShape(h, h', CellsOwned(h, f, own))
    requires h'.Keys == others' + CellsOwned(h, f, own)
    requires others' !! CellsOwned(h, f, own)
    ensures Owns(cs, tys, h', f', own, others')
    ensures CellsOwned(h', f', own) == CellsOwned(h, f, own)
    ensures forall x | x in own :: Cells(h', f'[x]) == Cells(h, f[x])
  {
    forall x | x in own
      ensures Tree(cs, h', f'[x], tys[x]) && Cells(h', f'[x]) == Cells(h, f[x])
    {
      TreeFrame(cs, h, h', f[x], tys[x]);
    }
  }

  // A moved variable's cells become someone else's.
  lemma OwnsMove(cs: map<Name, Ctor>, tys: map<Name, Ty>, h: Memory, f: Frame, own: set<Name>, others: set<nat>,
      xs: set<Name>)
    requires Owns(cs, tys, h, f, own, others)
    requires xs <= own
    ensures Owns(cs, tys, h, f, own - xs, others + CellsOwned(h, f, xs))
    ensures CellsOwned(h, f, own) == CellsOwned(h, f, own - xs) + CellsOwned(h, f, xs)
    ensures CellsOwned(h, f, own - xs) !! CellsOwned(h, f, xs)
  {
  }

  // A variable receives a whole value whose cells were in flight.
  lemma {:induction false} OwnsReceive(cs: map<Name, Ctor>, tys: map<Name, Ty>, h: Memory, f: Frame, own: set<Name>,
      others: set<nat>, x: Name, v: Value)
    requires Owns(cs, tys, h, f, own, others + Cells(h, v))
    requires others !! Cells(h, v)
    requires x !in own && IsOwnVar(tys, x) && Tree(cs, h, v, tys[x])
    ensures Owns(cs, tys, h, f[x := v], own + {x}, others)
    ensures CellsOwned(h, f[x := v], own + {x}) == CellsOwned(h, f, own) + Cells(h, v)
  {
    var f' := f[x := v];
    assert f'[x] == v;
    assert forall y | y in own :: f'[y] == f[y];
    assert CellsOwned(h, f', own + {x}) == CellsOwned(h, f, own) + Cells(h, v);
    forall y, z | y in own + {x} && z in own + {x} && y != z
      ensures Cells(h, f'[y]) !! Cells(h, f'[z])
    {
      if y == x {
        assert Cells(h, f[z]) <= CellsOwned(h, f, own);
      } else if z == x {
        assert Cells(h, f[y]) <= CellsOwned(h, f, own);
      }
    }
  }

  // Variables hidden for a while come back with the cells they had.
  lemma {:induction false} OwnsRegain(cs: map<Name, Ctor>, tys: map<Name, Ty>, h: Memory, f: Frame, own: set<Name>,
      others: set<nat>, xs: set<Name>)
    requires Owns(cs, tys, h, f, own, others + CellsOwned(h, f, xs))
    requires others !! CellsOwned(h, f, xs)
    requires xs !! own
    requires forall x | x in xs :: x in f && IsOwnVar(tys, x) && Tree(cs, h, f[x], tys[x])
    requires forall x, y | x in xs && y in xs && x != y :: Cells(h, f[x]) !! Cells(h, f[y])
    ensures Owns(cs, tys, h, f, own + xs, others)
  {
    assert CellsOwned(h, f, own + xs) == CellsOwned(h, f, own) + CellsOwned(h, f, xs);
    forall x, y | x in own + xs && y in own + xs && x != y
      ensures Cells(h, f[x]) !! Cells(h, f[y])
    {
      if x in own && y in xs {
        assert Cells(h, f[x]) <= CellsOwned(h, f, own) && Cells(h, f[y]) <= CellsOwned(h, f, xs);
      } else if x in xs && y in own {
        assert Cells(h, f[y]) <= CellsOwned(h, f, own) && Cells(h, f[x]) <= CellsOwned(h, f, xs);
      }
    }
  }

  lemma {:induction false} CellsOwnedOne(h: Memory, f: Frame, x: Name)
    requires x in f
    ensures CellsOwned(h, f, {x}) == Cells(h, f[x])
  {
  }

  lemma CellsOwnedLive(h: Memory, f: Frame, xs: set<Name>)
    ensures CellsOwned(h, f, xs) <= h.Keys
  {
    forall x | x in xs && x in f
      ensures Cells(h, f[x]) <= h.Keys
    {
      CellsLive(h, f[x]);
    }
  }
}
