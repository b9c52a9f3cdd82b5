/** Fixed-width integers, and their big-endian 32-bit limbs. */
module MachineWords {
  const U32_LIMIT: nat := 0x1_0000_0000
  const U64_LIMIT: nat := 0x1_0000_0000_0000_0000
  const U256_LIMIT: nat := 0x1_0000000000000000_0000000000000000_0000000000000000_0000000000000000

  type u32 = x: nat | x < 0x1_0000_0000
  type u64 = x: nat | x < 0x1_0000_0000_0000_0000
  type U256 = x: nat | x < 0x1_0000000000000000_0000000000000000_0000000000000000_0000000000000000

  // A 32-byte word, read as a number; zero is the default word.
  type Bytes32 = U256
  type Address = x: nat | x < 0x1_00000000_0000000000000000_0000000000000000

  type Byte = x: nat | x < 256

  function Power(k: nat): nat {
    if k == 0 then 1 else U32_LIMIT * Power(k - 1)
  }

  // The k low limbs of n, most significant first.
  function Limbs(n: nat, k: nat): (s: seq<u32>)
    ensures |s| == k
  {
    if k == 0 then [] else Limbs(n / U32_LIMIT, k - 1) + [n % U32_LIMIT]
  }

  // The number a big-endian limb sequence spells.
  function FromLimbs(s: seq<u32>): nat {
    if s == [] then 0 else U32_LIMIT * FromLimbs(s[..|s| - 1]) + s[|s| - 1]
  }

  /** Limbs lose nothing: a value that fits is read back from them. */
  lemma {:induction false} LimbsReadBack(n: nat, k: nat)
    requires n < Power(k)
    ensures FromLimbs(Limbs(n, k)) == n
  {
    if k > 0 {
      DivideBelow(n, Power(k - 1));
      LimbsReadBack(n / U32_LIMIT, k - 1);
      assert Limbs(n, k)[..k - 1] == Limbs(n / U32_LIMIT, k - 1);
    }
  }

  lemma DivideBelow(a: nat, p: nat)
    requires a < U32_LIMIT * p
    ensures a / U32_LIMIT < p
  {
  }

  lemma WidthPowers()
    ensures Power(1) == U32_LIMIT && Power(2) == U64_LIMIT && Power(8) == U256_LIMIT
    ensures Power(5) == 0x1_00000000_0000000000000000_0000000000000000
  {
    assert Power(3) == U32_LIMIT * Power(2);
    assert Power(5) == U32_LIMIT * (U32_LIMIT * Power(3));
    assert Power(8) == U32_LIMIT * (U32_LIMIT * (U32_LIMIT * Power(5)));
  }
}
