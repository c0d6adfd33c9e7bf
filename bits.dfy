/** Register bytes and the bitwise operations the driver applies to them,
    defined bit by bit on integers (C's `|`, `&` and `& ~` on values that
    fit in a byte). */
module Bits {

  /** A register value. */
  type Byte = x: int | 0 <= x < 0x100

  function Pow2(n: nat): (p: nat)
    ensures p >= 1
  {
    if n == 0 then 1 else 2 * Pow2(n - 1)
  }

  /** The low `n` bits of `a`. */
  function LowBits(a: nat, n: nat): (r: nat)
    ensures r < Pow2(n)
  {
    if n == 0 then 0 else 2 * LowBits(a / 2, n - 1) + a % 2
  }

  /** The low `n` bits of `a | b`. */
  function OrBits(a: nat, b: nat, n: nat): (r: nat)
    ensures r < Pow2(n)
  {
    if n == 0 then 0
    else 2 * OrBits(a / 2, b / 2, n - 1) + (if a % 2 == 1 || b % 2 == 1 then 1 else 0)
  }

  /** The low `n` bits of `a & b`. */
  function AndBits(a: nat, b: nat, n: nat): (r: nat)
    ensures r < Pow2(n)
  {
    if n == 0 then 0
    else 2 * AndBits(a / 2, b / 2, n - 1) + (if a % 2 == 1 && b % 2 == 1 then 1 else 0)
  }

  /** The low `n` bits of `a & ~m`. */
  function ClearBits(a: nat, m: nat, n: nat): (r: nat)
    ensures r < Pow2(n)
  {
    if n == 0 then 0
    else 2 * ClearBits(a / 2, m / 2, n - 1) + (if a % 2 == 1 && m % 2 == 0 then 1 else 0)
  }

  /** `a | m` on bytes. */
  function Or(a: Byte, m: Byte): Byte
  {
    OrBits(a, m, 8)
  }

  /** `a & m` on bytes. */
  function And(a: Byte, m: Byte): Byte
  {
    AndBits(a, m, 8)
  }

  /** `a & ~m` on bytes: the bits of `m` cleared. */
  function Clear(a: Byte, m: Byte): Byte
  {
    ClearBits(a, m, 8)
  }

  /** A value below 2^n is its own low n bits. */
  lemma {:induction false} LowBitsOfSmall(a: nat, n: nat)
    requires a < Pow2(n)
    ensures LowBits(a, n) == a
  {
    if n > 0 {
      LowBitsOfSmall(a / 2, n - 1);
    }
  }

  /** After `a | m`, every bit of `m` and every bit of `a` is set. */
  lemma {:induction false} OrBitsKeepsBoth(a: nat, m: nat, n: nat)
    ensures AndBits(OrBits(a, m, n), m, n) == LowBits(m, n)
    ensures AndBits(OrBits(a, m, n), a, n) == LowBits(a, n)
  {
    if n > 0 {
      OrBitsKeepsBoth(a / 2, m / 2, n - 1);
      var o := OrBits(a, m, n);
      assert o / 2 == OrBits(a / 2, m / 2, n - 1);
      assert o % 2 == (if a % 2 == 1 || m % 2 == 1 then 1 else 0);
    }
  }

  /** After `a & ~m`, no bit of `m` is set. */
  lemma {:induction false} ClearBitsClears(a: nat, m: nat, n: nat)
    ensures AndBits(ClearBits(a, m, n), m, n) == 0
  {
    if n > 0 {
      ClearBitsClears(a / 2, m / 2, n - 1);
      var c := ClearBits(a, m, n);
      assert c / 2 == ClearBits(a / 2, m / 2, n - 1);
      assert c % 2 == (if a % 2 == 1 && m % 2 == 0 then 1 else 0);
    }
  }

  /** After `a & ~m`, every bit of `a` outside `m` is still set: putting
      back the bits `a` shares with `m` restores `a`. */
  lemma {:induction false} ClearBitsKeeps(a: nat, m: nat, n: nat)
    ensures OrBits(ClearBits(a, m, n), AndBits(a, m, n), n) == LowBits(a, n)
  {
    if n > 0 {
      ClearBitsKeeps(a / 2, m / 2, n - 1);
      var c := ClearBits(a, m, n);
      var k := AndBits(a, m, n);
      assert c / 2 == ClearBits(a / 2, m / 2, n - 1);
      assert c % 2 == (if a % 2 == 1 && m % 2 == 0 then 1 else 0);
      assert k / 2 == AndBits(a / 2, m / 2, n - 1);
      assert k % 2 == (if a % 2 == 1 && m % 2 == 1 then 1 else 0);
    }
  }

  /** Outside the bits of `a`, `a | m` holds exactly the bits of `m`. */
  lemma {:induction false} OrBitsOutside(a: nat, m: nat, n: nat)
    ensures ClearBits(OrBits(a, m, n), a, n) == ClearBits(m, a, n)
  {
    if n > 0 {
      OrBitsOutside(a / 2, m / 2, n - 1);
      var o := OrBits(a, m, n);
      assert o / 2 == OrBits(a / 2, m / 2, n - 1);
      assert o % 2 == (if a % 2 == 1 || m % 2 == 1 then 1 else 0);
    }
  }

  /** OR-ing `m` into a byte (update_reg) sets all of `m`'s bits, keeps
      all of the byte's own, and sets nothing else. */
  lemma OrSetsBits(a: Byte, m: Byte)
    ensures And(Or(a, m), m) == m
    ensures And(Or(a, m), a) == a
    ensures Clear(Or(a, m), a) == Clear(m, a)
  {
    OrBitsKeepsBoth(a, m, 8);
    OrBitsOutside(a, m, 8);
    LowBitsOfSmall(a, 8);
    LowBitsOfSmall(m, 8);
  }

  /** Clearing `m` from a byte leaves none of `m`'s bits set and every
      other bit of the byte as it was. */
  lemma ClearClearsBits(a: Byte, m: Byte)
    ensures And(Clear(a, m), m) == 0
    ensures Or(Clear(a, m), And(a, m)) == a
  {
    ClearBitsClears(a, m, 8);
    ClearBitsKeeps(a, m, 8);
    LowBitsOfSmall(a, 8);
  }
}
