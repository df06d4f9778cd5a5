/** `FastRandom`: an xorshift64* generator that runs two to five rounds per call,
    the count taken from bits 3 and 4 of the state on entry. The state is a 64-bit
    word held by the caller and updated through a reference, modelled as the field
    of a `RandomState` object. */
module FastRandom {

  /** The multiplier of the xorshift64* output step. */
  const MULTIPLIER: bv64 := 2685821657736338717
  /** The replacement for a zero state, which xorshift would never leave. */
  const ZERO_REPLACEMENT: bv64 := 0xDEADBEEFDEADBEEF

  /** The number of rounds a call runs: `2 + ((state >> 3) & 3)`. */
  function Rounds(state: bv64): (n: nat)
    ensures 2 <= n <= 5
  {
    2 + ((state >> 3) & 3) as nat
  }

  /** The state a round mixes: the state itself, or the replacement when it is zero. */
  function NonZero(state: bv64): (z: bv64)
    ensures z != 0
    ensures state != 0 ==> z == state
  {
    if state != 0 then state else ZERO_REPLACEMENT
  }

  /** `z ^= z >> n`. */
  function XorRightShift(z: bv64, n: bv64): bv64
    requires n < 64
  {
    z ^ (z >> n)
  }

  /** `z ^= z << n`. */
  function XorLeftShift(z: bv64, n: bv64): bv64
    requires n < 64
  {
    z ^ (z << n)
  }

  /** `z *= MULTIPLIER`, modulo 2^64. */
  function Scramble(z: bv64): bv64
  {
    z * MULTIPLIER
  }

  /** One round: the zero state replaced, xor-shifts by 12 right, 25 left and 27
      right, then multiplication by the multiplier modulo 2^64. */
  function Round(state: bv64): bv64
  {
    Scramble(XorRightShift(XorLeftShift(XorRightShift(NonZero(state), 12), 25), 27))
  }

  /** `f` applied `k` times to `x`. */
  function Iterate<T>(f: T -> T, x: T, k: nat): T
    decreases k
  {
    if k == 0 then x else f(Iterate(f, x, k - 1))
  }

  /** The state after a call from `state`, which is also the value the call
      returns: `Rounds(state)` rounds. */
  function Next(state: bv64): bv64
  {
    Iterate(Round, state, Rounds(state))
  }

  /** The multiplier is odd, so multiplying by it modulo 2^64 sends no non-zero
      word to zero. */
  lemma ScrambleNonZero(z: bv64)
    requires z != 0
    ensures Scramble(z) != 0
  {
  }

  /** A round never produces zero: it starts from a non-zero word, each xor-shift
      maps a non-zero word to a non-zero word, and so does the multiplication. */
  lemma RoundNonZero(state: bv64)
    ensures Round(state) != 0
  {
    var a := XorRightShift(NonZero(state), 12);
    var b := XorLeftShift(a, 25);
    var c := XorRightShift(b, 27);
    assert a != 0;
    assert b != 0;
    assert c != 0;
    ScrambleNonZero(c);
  }

  /** The state a call leaves, and the value it returns, is never zero, so the
      zero-state replacement only acts on a zero seed. */
  lemma NextNonZero(state: bv64)
    ensures Next(state) != 0
  {
    RoundNonZero(Iterate(Round, state, Rounds(state) - 1));
  }

  /** The integer part of `FastRandomFloat`: the top 53 bits of the next value,
      below `2^53`, so that scaling it by `2^-53` lands in `[0, 1]`. */
  function FloatBits(value: bv64): (m: bv64)
    ensures m < 0x20_0000_0000_0000
  {
    value >> 11
  }

  /** The caller's state word. */
  class RandomState {
    var state: bv64

    constructor (seed: bv64)
      ensures state == seed
    {
      state := seed;
    }

    /** `FastRandom(state)`: the round count fixed from the entry state, then that
        many rounds; the value returned is the state written back. */
    method FastRandom() returns (result: bv64)
      modifies this
      ensures state == Next(old(state))
      ensures result == state
    {
      var n := Rounds(state);
      ghost var entry := state;
      for i := 0 to n
        invariant state == Iterate(Round, entry, i)
      {
        state := NonZero(state);
        state := XorRightShift(state, 12);
        state := XorLeftShift(state, 25);
        state := XorRightShift(state, 27);
        state := Scramble(state);
      }
      result := state;
    }

    /** The integer part of `FastRandomFloat`: the next value shifted right by 11. */
    method FastRandomFloatBits() returns (m: bv64)
      modifies this
      ensures state == Next(old(state))
      ensures m == FloatBits(state) && m < 0x20_0000_0000_0000
    {
      var value := FastRandom();
      m := FloatBits(value);
    }
  }
}
