/**
 * Python's `&` and `>>` on the non-negative integers the machine decodes.
 * The instruction decoder masks an opcode with `&` and shifts it right; on a
 * non-negative integer `x >> k` is `x / 2^k`, so only `&` needs a definition.
 */
module Bits {

  /** Bitwise and of two non-negative integers, one bit at a time from the low end. */
  function BitAnd(a: nat, b: nat): (r: nat)
    ensures r <= a && r <= b
    decreases a
  {
    if a == 0 then 0
    else 2 * BitAnd(a / 2, b / 2) + (if a % 2 == 1 && b % 2 == 1 then 1 else 0)
  }

  function Pow2(n: nat): (p: nat)
    ensures p >= 1
  {
    if n == 0 then 1 else 2 * Pow2(n - 1)
  }

  /** `b` and `c` have the same lowest `n` bits. */
  predicate SameLowBits(b: nat, c: nat, n: nat)
  {
    n == 0 || (b % 2 == c % 2 && SameLowBits(b / 2, c / 2, n - 1))
  }

  /** Masking a number below 2^n only looks at the lowest n bits of the mask. */
  lemma {:induction false} BitAndLowBits(a: nat, b: nat, c: nat, n: nat)
    requires a < Pow2(n)
    requires SameLowBits(b, c, n)
    ensures BitAnd(a, b) == BitAnd(a, c)
  {
    if a != 0 {
      assert n != 0;
      BitAndLowBits(a / 2, b / 2, c / 2, n - 1);
    }
  }

  /** A mask whose lowest bit is clear contributes nothing at that bit. */
  lemma BitAndEvenMask(a: nat, c: nat)
    ensures BitAnd(a, 2 * c) == 2 * BitAnd(a / 2, c)
  {
    if a != 0 {
      assert (2 * c) / 2 == c && (2 * c) % 2 == 0;
    }
  }

  /** Masking with 1 keeps the lowest bit. */
  lemma BitAndOne(a: nat)
    ensures BitAnd(a, 1) == a % 2
  {
    if a != 0 {
      assert BitAnd(a / 2, 0) == 0;
    }
  }
}
