/** What the operators compute. */
module Arithmetic {
  import opened Optional
  import opened Syntax
  import opened Machine

  // 64-bit two's complement, with the divisions that the hardware leaves undefined
  // stopping the program.

  predicate InRange(n: int) {
    -0x8000_0000_0000_0000 <= n < 0x8000_0000_0000_0000
  }

  // Equal in their lowest 64 bits.
  predicate Congruent(a: int, b: int) {
    (a - b) % 0x1_0000_0000_0000_0000 == 0
  }

  function Abs(n: int): int {
    if n < 0 then -n else n
  }

  // The quotient rounded towards zero: the remainder has the sign of a.
  predicate Quotient(a: int, b: int, q: int) {
    var rest := a - b * q;
    Abs(rest) < Abs(b) && (rest > 0 ==> a > 0) && (rest < 0 ==> a < 0)
  }

  predicate Truth(r: int, holds: bool) {
    (holds && r == 1) || (!holds && r == 0)
  }

  predicate Computes(op: Op, a: int, b: int, r: int) {
    match op
    case Add => Congruent(r, a + b)
    case Sub => Congruent(r, a - b)
    case Mul => Congruent(r, a * b)
    case Div => Quotient(a, b, r)
    case Gt => Truth(r, a > b)
    case Eq => Truth(r, a == b)
    case Neq => Truth(r, a != b)
  }

  lemma WrapExactly(n: int, r: int)
    ensures r == Wrap(n) <==> InRange(r) && Congruent(r, n)
  {
    assert Wrap(n) - n == -((n + 0x8000_0000_0000_0000) / 0x1_0000_0000_0000_0000) * 0x1_0000_0000_0000_0000;
  }

  lemma AbsTimes(b: int, q: int)
    ensures Abs(b * q) == Abs(b) * Abs(q)
    ensures b != 0 && q != 0 ==> Abs(b * q) >= Abs(b)
  {
    var m, n := Abs(b), Abs(q);
    assert (b == m || b == -m) && (q == n || q == -n);
    assert m * n >= 0;
    if n >= 1 {
      assert m * n == m * (n - 1) + m;
      assert m * (n - 1) >= 0;
    }
  }

  lemma Divided(a: int, b: int, k: int, rest: int)
    requires b != 0 && k == a / b && rest == a % b
    ensures a == b * k + rest && 0 <= rest < Abs(b)
  {
  }

  lemma QuotientOf(a: int, b: int, q: int, rest: int)
    requires a == b * q + rest && Abs(rest) < Abs(b) && (rest > 0 ==> a > 0) && (rest < 0 ==> a < 0)
    ensures Quotient(a, b, q)
  {
  }

  lemma TruncateIsQuotient(a: int, b: int)
    requires b != 0
    ensures Quotient(a, b, Truncate(a, b))
  {
    hide Quotient;
    var c := if a >= 0 then a else -a;
    var k, rest := c / b, c % b;
    assert Truncate(a, b) == if a >= 0 then k else -k;
    Divided(c, b, k, rest);
    SignedQuotient(a, b, c, k, rest);
  }

  lemma SignedQuotient(a: int, b: int, c: int, k: int, rest: int)
    requires (a >= 0 && a == c) || (a < 0 && a == -c)
    requires c == b * k + rest && 0 <= rest < Abs(b)
    ensures Quotient(a, b, if a >= 0 then k else -k)
  {
    AbsTimes(b, k);
    if a < 0 {
      assert b * -k == -(b * k);
      QuotientOf(a, b, -k, -rest);
    } else {
      assert b * k == 0 || a > 0;
      QuotientOf(a, b, k, rest);
    }
  }

  lemma QuotientUnique(a: int, b: int, q: int, r: int)
    requires Quotient(a, b, q) && Quotient(a, b, r)
    ensures q == r
  {
    // The remainders have one sign and so differ by less than b.
    var x, y := b * q, b * r;
    assert Abs(x - y) < Abs(b);
    assert x - y == b * (q - r);
    AbsTimes(b, q - r);
  }

  lemma QuotientInRange(a: int, b: int, q: int)
    requires InRange(a) && Quotient(a, b, q)
    ensures InRange(q) <==> !(a == -0x8000_0000_0000_0000 && b == -1)
  {
    if b == 1 || b == -1 {
      assert a == b * q;
    } else {
      AbsTimes(b, q);
      TwiceAtMost(Abs(b), Abs(q));
    }
  }

  lemma TwiceAtMost(m: int, n: int)
    requires m >= 2 && n >= 0
    ensures 2 * n <= m * n
  {
    assert m * n == 2 * n + (m - 2) * n;
  }

  // An operator stops the program if and only if its result does not exist or, for a
  // division, does not fit; otherwise it computes the one result there is in range.
  lemma ArithExactly(op: Op, a: int, b: int, r: int)
    requires op.Div? ==> InRange(a)
    ensures Arith(op, a, b) == Some(r) <==> InRange(r) && Computes(op, a, b, r)
  {
    match op
    case Add => WrapExactly(a + b, r);
    case Sub => WrapExactly(a - b, r);
    case Mul => WrapExactly(a * b, r);
    case Div =>
      if b != 0 {
        TruncateIsQuotient(a, b);
        QuotientInRange(a, b, Truncate(a, b));
        if Quotient(a, b, r) {
          QuotientUnique(a, b, r, Truncate(a, b));
        }
      }
    case _ =>
  }
}
