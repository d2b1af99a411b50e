/** Bitwise `or` and `and` on natural numbers, and the laws that let a word be taken apart at a bit. */
module Bits {
  function Pow2(n: nat): (r: nat)
    ensures r > 0
  {
    if n == 0 then 1 else 2 * Pow2(n - 1)
  }

  function Or(x: nat, y: nat): nat
    decreases x + y
  {
    if x == 0 then y else if y == 0 then x else
    2 * Or(x / 2, y / 2) + if x % 2 == 1 || y % 2 == 1 then 1 else 0
  }

  function And(x: nat, y: nat): nat
    decreases x + y
  {
    if x == 0 || y == 0 then 0 else
    2 * And(x / 2, y / 2) + if x % 2 == 1 && y % 2 == 1 then 1 else 0
  }

  lemma OrStep(x: nat, a: nat, y: nat, b: nat, o: nat)
    requires Or(x + a / 2, y + b / 2) == o + Or(a / 2, b / 2)
    ensures Or(2 * x + a, 2 * y + b) == 2 * o + Or(a, b)
  {
    hide Or;
    OrUnfold(2 * x + a, 2 * y + b);
    OrUnfold(a, b);
  }

  lemma OrUnfold(x: nat, y: nat)
    ensures Or(x, y) == 2 * Or(x / 2, y / 2) + if x % 2 == 1 || y % 2 == 1 then 1 else 0
  {
  }

  lemma AndStep(x: nat, a: nat, y: nat, b: nat, o: nat)
    requires And(x + a / 2, y + b / 2) == o + And(a / 2, b / 2)
    ensures And(2 * x + a, 2 * y + b) == 2 * o + And(a, b)
  {
    hide And;
    AndUnfold(2 * x + a, 2 * y + b);
    AndUnfold(a, b);
  }

  lemma AndUnfold(x: nat, y: nat)
    ensures And(x, y) == 2 * And(x / 2, y / 2) + if x % 2 == 1 && y % 2 == 1 then 1 else 0
  {
  }

  /** `x` shifted left by `k` bits. */
  function Shl(x: nat, k: nat): nat {
    if k == 0 then x else 2 * Shl(x, k - 1)
  }

  lemma {:induction false} ShlIsProduct(x: nat, k: nat)
    ensures Shl(x, k) == x * Pow2(k)
  {
    if k > 0 {
      ShlIsProduct(x, k - 1);
      Twice(x, Pow2(k - 1));
    }
  }

  lemma Twice(x: nat, p: nat)
    ensures x * (2 * p) == 2 * (x * p)
  {
  }

  /** `or` works on the bits above a position and on the bits below it separately. */
  lemma {:induction false} OrSplit(x: nat, a: nat, y: nat, b: nat, k: nat)
    requires a < Pow2(k) && b < Pow2(k)
    ensures Or(Shl(x, k) + a, Shl(y, k) + b) == Shl(Or(x, y), k) + Or(a, b)
    ensures Or(a, b) < Pow2(k)
  {
    hide Or;
    if k == 0 {
      OrZero();
    } else {
      OrSplit(x, a / 2, y, b / 2, k - 1);
      OrStep(Shl(x, k - 1), a, Shl(y, k - 1), b, Shl(Or(x, y), k - 1));
      OrUnfold(a, b);
    }
  }

  /** The same for `and`. */
  lemma {:induction false} AndSplit(x: nat, a: nat, y: nat, b: nat, k: nat)
    requires a < Pow2(k) && b < Pow2(k)
    ensures And(Shl(x, k) + a, Shl(y, k) + b) == Shl(And(x, y), k) + And(a, b)
  {
    hide And;
    if k == 0 {
      AndZero();
    } else {
      AndSplit(x, a / 2, y, b / 2, k - 1);
      AndStep(Shl(x, k - 1), a, Shl(y, k - 1), b, Shl(And(x, y), k - 1));
    }
  }

  lemma OrZero()
    ensures Or(0, 0) == 0
  {
  }

  lemma AndZero()
    ensures And(0, 0) == 0
  {
  }

  /** A word of ones keeps everything below it. */
  lemma {:induction false} AndOnes(x: nat, k: nat)
    requires x < Pow2(k)
    ensures And(x, Pow2(k) - 1) == x
  {
    if k > 0 {
      hide And;
      AndOnes(x / 2, k - 1);
      AndUnfold(x, Pow2(k) - 1);
    }
  }

  lemma {:induction false} PowAdd(a: nat, b: nat)
    ensures Pow2(a + b) == Pow2(a) * Pow2(b)
  {
    if a > 0 {
      PowAdd(a - 1, b);
    }
  }

  const P8 := 0x100
  const P48 := 0x1_0000_0000_0000
  const P56 := 0x100_0000_0000_0000
  const P64 := 0x1_0000_0000_0000_0000
  const P72 := 0x100_0000_0000_0000_0000
  const P80 := 0x1_0000_0000_0000_0000_0000
  const P120 := 0x100_0000_0000_0000_0000_0000_0000_0000
  const P128 := 0x1_0000_0000_0000_0000_0000_0000_0000_0000

  lemma Pow8()
    ensures Pow2(8) == P8
  {
  }

  lemma Powers()
    ensures Pow2(8) == P8 && Pow2(48) == P48 && Pow2(56) == P56 && Pow2(64) == P64
    ensures Pow2(72) == P72 && Pow2(80) == P80 && Pow2(120) == P120 && Pow2(128) == P128
  {
    hide Pow2;
    Pow8();
    PowAdd(8, 8);
    PowAdd(16, 16);
    PowAdd(32, 16);
    PowAdd(48, 8);
    PowAdd(56, 8);
    PowAdd(64, 8);
    PowAdd(72, 8);
    PowAdd(64, 56);
    PowAdd(64, 64);
  }

  /** Shifting left in 128 bits. */
  function Shl128(x: nat, k: nat): nat {
    Shl(x, k) % P128
  }

  // ---------------------------------------------------------------- big-endian bytes

  predicate IsBytes(s: seq<nat>) {
    forall i :: 0 <= i < |s| ==> s[i] < P8
  }

  function BigEndian(s: seq<nat>): nat {
    if s == [] then 0 else BigEndian(s[..|s| - 1]) * P8 + s[|s| - 1]
  }

  lemma {:induction false} BigEndianBound(s: seq<nat>)
    requires IsBytes(s)
    ensures BigEndian(s) < Pow2(8 * |s|)
  {
    if s != [] {
      BigEndianBound(s[..|s| - 1]);
      PowAdd(8 * |s| - 8, 8);
      assert Pow2(8) == P8;
    }
  }

  lemma {:induction false} BigEndianSplit(a: seq<nat>, b: seq<nat>)
    ensures BigEndian(a + b) == BigEndian(a) * Pow2(8 * |b|) + BigEndian(b)
  {
    if b == [] {
      assert a + b == a;
    } else {
      var b' := b[..|b| - 1];
      assert (a + b)[..|a + b| - 1] == a + b';
      BigEndianSplit(a, b');
      PowAdd(8 * |b'|, 8);
      assert Pow2(8) == P8;
      Distribute(BigEndian(a), Pow2(8 * |b'|), BigEndian(b'));
    }
  }

  lemma Distribute(x: nat, p: nat, y: nat)
    ensures (x * p + y) * P8 == x * (p * P8) + y * P8
  {
  }

  lemma {:induction false} BigEndianInjective(a: seq<nat>, b: seq<nat>)
    requires |a| == |b| && IsBytes(a) && IsBytes(b)
    ensures BigEndian(a) == BigEndian(b) <==> a == b
  {
    if a != [] {
      BigEndianInjective(a[..|a| - 1], b[..|b| - 1]);
      assert a == a[..|a| - 1] + [a[|a| - 1]] && b == b[..|b| - 1] + [b[|b| - 1]];
    }
  }
}
