/** Little-endian unsigned fields of a binary log. */
module LittleEndian {
  type Byte = x: int | 0 <= x < 256

  function Pow256(k: nat): (p: nat)
    ensures p > 0
  {
    if k == 0 then 1 else 256 * Pow256(k - 1)
  }

  function Decode(bytes: seq<Byte>): nat {
    if bytes == [] then 0 else bytes[0] + 256 * Decode(bytes[1..])
  }

  function Encode(n: nat, width: nat): (bytes: seq<Byte>)
    ensures |bytes| == width
  {
    if width == 0 then [] else [n % 256] + Encode(n / 256, width - 1)
  }

  lemma {:induction false} RoundTrip(n: nat, width: nat)
    requires n < Pow256(width)
    ensures Decode(Encode(n, width)) == n
  {
    if width > 0 {
      RoundTrip(n / 256, width - 1);
      assert Encode(n, width)[1..] == Encode(n / 256, width - 1);
    }
  }

  /** The least significant bytes come first. */
  lemma {:induction false} DecodeConcat(low: seq<Byte>, high: seq<Byte>)
    ensures Decode(low + high) == Decode(low) + Pow256(|low|) * Decode(high)
  {
    if low == [] {
      assert low + high == high;
    } else {
      DecodeConcat(low[1..], high);
      assert (low + high)[0] == low[0] && (low + high)[1..] == low[1..] + high;
      assert 256 * (Pow256(|low| - 1) * Decode(high)) == (256 * Pow256(|low| - 1)) * Decode(high);
    }
  }

  lemma DecodeOne(b: Byte)
    ensures Decode([b]) == b
  {
    assert [b][1..] == [];
  }
}
