// Bitwise operations on non-negative integers of any size, digit by digit.
module Bits {

  function Pow2(n: nat): (p: nat)
    ensures p > 0
  {
    if n == 0 then 1 else 2 * Pow2(n - 1)
  }

  predicate Bit(x: nat, i: nat) {
    if i == 0 then x % 2 == 1 else Bit(x / 2, i - 1)
  }

  function Xor(a: nat, b: nat): nat {
    if a == 0 && b == 0 then 0 else 2 * Xor(a / 2, b / 2) + if a % 2 != b % 2 then 1 else 0
  }

  function And(a: nat, b: nat): nat {
    if a == 0 || b == 0 then 0 else 2 * And(a / 2, b / 2) + if a % 2 == 1 && b % 2 == 1 then 1 else 0
  }

  function Or(a: nat, b: nat): nat {
    if a == 0 && b == 0 then 0 else 2 * Or(a / 2, b / 2) + if a % 2 == 1 || b % 2 == 1 then 1 else 0
  }

  function PopCount(x: nat): nat {
    if x == 0 then 0 else x % 2 + PopCount(x / 2)
  }

  lemma {:induction false} BitOfXor(a: nat, b: nat, i: nat)
    ensures Bit(Xor(a, b), i) <==> Bit(a, i) != Bit(b, i)
    decreases i
  {
    if i == 0 {
    } else {
      BitOfXor(a / 2, b / 2, i - 1);
      assert Xor(a, b) / 2 == Xor(a / 2, b / 2);
    }
  }

  lemma {:induction false} XorIsBounded(a: nat, b: nat, n: nat)
    requires a < Pow2(n) && b < Pow2(n)
    ensures Xor(a, b) < Pow2(n)
  {
    if n == 0 {
    } else {
      XorIsBounded(a / 2, b / 2, n - 1);
    }
  }

  // The positions below n where x has a one.
  function Ones(x: nat, n: nat): set<nat> {
    set i: nat | i < n && Bit(x, i)
  }

  lemma {:induction false} OnesCount(x: nat, n: nat)
    requires x < Pow2(n)
    ensures PopCount(x) == |Ones(x, n)|
  {
    if n == 0 {
      assert Ones(x, n) == {};
    } else {
      OnesCount(x / 2, n - 1);
      var shifted := Shifted(Ones(x / 2, n - 1));
      ShiftKeepsSize(Ones(x / 2, n - 1));
      forall i: nat ensures i in Ones(x, n) <==> (i == 0 && x % 2 == 1) || i in shifted {
        if i > 0 {
          assert Bit(x, i) == Bit(x / 2, i - 1);
          if i in Ones(x, n) { assert i - 1 in Ones(x / 2, n - 1); }
        }
      }
      if x % 2 == 1 {
        assert Ones(x, n) == {0} + shifted;
      } else {
        assert Ones(x, n) == shifted;
      }
    }
  }

  function Shifted(s: set<nat>): set<nat> {
    set i: nat | i in s :: i + 1
  }

  lemma InShifted(s: set<nat>, j: nat)
    ensures j in Shifted(s) <==> j > 0 && j - 1 in s
  {
    if j > 0 && j - 1 in s {
      var i := j - 1;
      assert i in s && i + 1 == j;
    }
  }

  lemma {:induction false} ShiftKeepsSize(s: set<nat>)
    ensures |Shifted(s)| == |s|
  {
    if s == {} {
      assert Shifted(s) == {};
    } else {
      var x :| x in s;
      assert x + 1 in Shifted(s);
      forall j: nat ensures j in Shifted(s) - {x + 1} <==> j in Shifted(s - {x}) {
        InShifted(s, j);
        InShifted(s - {x}, j);
      }
      assert Shifted(s) - {x + 1} == Shifted(s - {x});
      ShiftKeepsSize(s - {x});
    }
  }

  // Clearing the lowest one: x & (x - 1).
  lemma {:induction false} AndWithItself(x: nat)
    ensures And(x, x) == x
  {
    if x == 0 {
    } else {
      AndWithItself(x / 2);
    }
  }

  lemma {:induction false} DoubleKeepsCount(x: nat)
    ensures PopCount(2 * x) == PopCount(x)
  {
    assert 2 * x / 2 == x;
  }

  lemma {:induction false} ClearLowestOne(x: nat)
    requires x > 0
    ensures And(x, x - 1) < x && PopCount(And(x, x - 1)) == PopCount(x) - 1
  {
    var k := x / 2;
    if x % 2 == 1 {
      AndWithItself(k);
      assert (x - 1) / 2 == k;
      assert And(x, x - 1) == 2 * k;
      DoubleKeepsCount(k);
    } else {
      ClearLowestOne(k);
      assert (x - 1) / 2 == k - 1;
      assert And(x, x - 1) == 2 * And(k, k - 1);
      DoubleKeepsCount(And(k, k - 1));
    }
  }

  // Setting a bit above all others is addition.
  lemma {:induction false} OrWithHigherBit(x: nat, n: nat)
    requires x < Pow2(n)
    ensures Or(x, Pow2(n)) == x + Pow2(n)
  {
    if n == 0 {
      assert Or(0, 1) == 2 * Or(0, 0) + 1;
    } else {
      OrWithHigherBit(x / 2, n - 1);
    }
  }

  lemma {:induction false} BitsOfSum(x: nat, n: nat, i: nat)
    requires x < Pow2(n)
    ensures i < n ==> (Bit(x + Pow2(n), i) <==> Bit(x, i))
    ensures Bit(x + Pow2(n), n) && !Bit(x, n)
    decreases n
  {
    if n == 0 {
    } else {
      BitsOfSum(x / 2, n - 1, if i > 0 then i - 1 else 0);
      assert (x + Pow2(n)) / 2 == x / 2 + Pow2(n - 1);
      assert (x + Pow2(n)) % 2 == x % 2;
    }
  }

  // ----- negative numbers: infinitely many leading ones -----

  // The complement of a negative number is not negative.
  function Folded(x: int): nat {
    if x < 0 then -x - 1 else x
  }

  predicate IntBit(x: int, i: nat) {
    Bit(Folded(x), i) != (x < 0)
  }

  function IntXor(a: int, b: int): int {
    var x: int := Xor(Folded(a), Folded(b));
    if (a < 0) == (b < 0) then x else -x - 1
  }

  // x & (x - 1); a positive x leaves both operands at zero or above, a negative x below.
  function ClearLowest(x: int): int
    requires x != 0
  {
    if x > 0 then And(x, x - 1)
    else
      var complement: int := Or(Folded(x), Folded(x - 1));
      -complement - 1
  }

  lemma BitOfIntXor(a: int, b: int, i: nat)
    ensures IntBit(IntXor(a, b), i) <==> IntBit(a, i) != IntBit(b, i)
  {
    BitOfXor(Folded(a), Folded(b), i);
  }

  lemma {:induction false} BitOfAnd(a: nat, b: nat, i: nat)
    ensures Bit(And(a, b), i) <==> Bit(a, i) && Bit(b, i)
    decreases i
  {
    if i == 0 {
    } else {
      BitOfAnd(a / 2, b / 2, i - 1);
      ZeroHasNoBits(i);
      assert a != 0 && b != 0 ==> And(a, b) / 2 == And(a / 2, b / 2);
    }
  }

  lemma {:induction false} ZeroHasNoBits(i: nat)
    ensures !Bit(0, i)
  {
    if i == 0 {
    } else {
      ZeroHasNoBits(i - 1);
    }
  }

  lemma {:induction false} BitOfOr(a: nat, b: nat, i: nat)
    ensures Bit(Or(a, b), i) <==> Bit(a, i) || Bit(b, i)
    decreases i
  {
    if i == 0 {
    } else {
      BitOfOr(a / 2, b / 2, i - 1);
      ZeroHasNoBits(i);
      assert a != 0 || b != 0 ==> Or(a, b) / 2 == Or(a / 2, b / 2);
    }
  }

  // The operation is the bitwise conjunction of x and its predecessor.
  lemma BitOfClearLowest(x: int, i: nat)
    requires x != 0
    ensures IntBit(ClearLowest(x), i) <==> IntBit(x, i) && IntBit(x - 1, i)
  {
    if x > 0 { BitOfAnd(x, x - 1, i); } else { BitOfOr(Folded(x), Folded(x - 1), i); }
  }
}
