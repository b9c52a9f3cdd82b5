/** Fixed-width integers as bytes, least or most significant byte first. */
module ByteOrder {
  import opened MachineWords

  function BytePower(k: nat): nat { if k == 0 then 1 else 256 * BytePower(k - 1) }

  function ToLittleEndian(n: nat, k: nat): (s: seq<Byte>)
    ensures |s| == k
  {
    if k == 0 then [] else [n % 256] + ToLittleEndian(n / 256, k - 1)
  }

  function FromLittleEndian(s: seq<Byte>): nat {
    if s == [] then 0 else s[0] + 256 * FromLittleEndian(s[1..])
  }

  lemma {:induction false} ReadsBack(n: nat, k: nat)
    requires n < BytePower(k)
    ensures FromLittleEndian(ToLittleEndian(n, k)) == n
  {
    if k > 0 {
      QuotientBelow(n, BytePower(k - 1));
      ReadsBack(n / 256, k - 1);
      assert ToLittleEndian(n, k)[1..] == ToLittleEndian(n / 256, k - 1);
    }
  }

  lemma QuotientBelow(n: nat, p: nat)
    requires n < 256 * p
    ensures n / 256 < p
  {
  }

  lemma {:induction false} WritesBack(s: seq<Byte>)
    ensures ToLittleEndian(FromLittleEndian(s), |s|) == s && FromLittleEndian(s) < BytePower(|s|)
  {
    if s != [] {
      WritesBack(s[1..]);
      DivideSum(s[0], FromLittleEndian(s[1..]));
      assert s == [s[0]] + s[1..];
    }
  }

  lemma DivideSum(low: Byte, high: nat)
    ensures (low + 256 * high) % 256 == low && (low + 256 * high) / 256 == high
  {
  }

  lemma EightBytes()
    ensures BytePower(4) == U32_LIMIT && BytePower(8) == U64_LIMIT
  {
    assert BytePower(4) == 256 * (256 * (256 * BytePower(1)));
    assert BytePower(8) == 256 * (256 * (256 * (256 * BytePower(4))));
  }

  function ToBigEndian(n: nat, k: nat): (s: seq<Byte>)
    ensures |s| == k
  {
    if k == 0 then [] else ToBigEndian(n / 256, k - 1) + [n % 256]
  }

  function FromBigEndian(s: seq<Byte>): nat {
    if s == [] then 0 else 256 * FromBigEndian(s[..|s| - 1]) + s[|s| - 1]
  }

  lemma {:induction false} ReadsBackBigEndian(n: nat, k: nat)
    requires n < BytePower(k)
    ensures FromBigEndian(ToBigEndian(n, k)) == n
  {
    if k > 0 {
      QuotientBelow(n, BytePower(k - 1));
      ReadsBackBigEndian(n / 256, k - 1);
      assert ToBigEndian(n, k)[..k - 1] == ToBigEndian(n / 256, k - 1);
    }
  }
}
