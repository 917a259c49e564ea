/** Fixed-width little-endian integers, as Rust's `to_le_bytes`/`from_le_bytes`. */
module LittleEndian {
  import opened Prelude

  function Pow256(k: nat): (p: nat)
    ensures p > 0
  {
    if k == 0 then 1 else 256 * Pow256(k - 1)
  }

  /** The low `k` bytes of `n`, least significant first. */
  function Le(k: nat, n: nat): (bytes: seq<byte>)
    ensures |bytes| == k
  {
    if k == 0 then [] else [n % 256] + Le(k - 1, n / 256)
  }

  function FromLe(bytes: seq<byte>): nat {
    if |bytes| == 0 then 0 else bytes[0] + 256 * FromLe(bytes[1..])
  }

  lemma {:induction false} RoundTrip(k: nat, n: nat)
    requires n < Pow256(k)
    ensures FromLe(Le(k, n)) == n
  {
    if k > 0 {
      assert n / 256 < Pow256(k - 1);
      RoundTrip(k - 1, n / 256);
      assert Le(k, n)[1..] == Le(k - 1, n / 256);
    }
  }

  lemma {:induction false} FromLeBound(bytes: seq<byte>)
    ensures FromLe(bytes) < Pow256(|bytes|)
  {
    if |bytes| > 0 {
      FromLeBound(bytes[1..]);
    }
  }

  lemma {:induction false} PowerFacts()
    ensures Pow256(1) == 0x100 && Pow256(2) == 0x1_0000 && Pow256(4) == U32_LIMIT
    ensures Pow256(8) == 0x1_0000_0000_0000_0000
  {
    assert Pow256(4) == 256 * (256 * (256 * (256 * Pow256(0))));
    assert Pow256(8) == 256 * (256 * (256 * (256 * Pow256(4))));
  }
}
