/**
  Call-data cost of an operand: over the operand's fixed-width big-endian
  encoding, every zero byte costs 4 gas and every other byte 68 gas.
*/
module InputCost {
  import opened Words

  const GTXDATAZERO: nat := 4
  const GTXDATANONZERO: nat := 68

  /** The four ways to burn tokens; each token variant prices them separately. */
  datatype FreeKind = Free | FreeUpTo | FreeFrom | FreeFromUpTo

  /** Number of zero bytes in a byte string. */
  function ZeroBytes(s: seq<byte>): (z: nat)
    ensures z <= |s|
  {
    if s == [] then 0 else ZeroBytes(s[..|s| - 1]) + (if s[|s| - 1] == 0 then 1 else 0)
  }

  /**
    Independent reference count: the number of non-zero base-256 digits of x,
    read off arithmetically rather than from an encoding.
  */
  function NonZeroDigits(x: nat): nat
  {
    if x == 0 then 0 else NonZeroDigits(x / 256) + (if x % 256 != 0 then 1 else 0)
  }

  /**
    `input_data_cost(x, num_bytes)`: the per-byte call-data price summed over
    the num_bytes-wide big-endian encoding of x. `to_bytes` rejects an x that
    does not fit, hence the precondition.
  */
  function InputDataCost(x: nat, numBytes: nat := 32): (r: nat)
    requires x < Pow256(numBytes)
    ensures GTXDATAZERO * numBytes <= r <= GTXDATANONZERO * numBytes
  {
    var z := ZeroBytes(ToBytes(x, numBytes));
    GTXDATAZERO * z + GTXDATANONZERO * (numBytes - z)
  }

  /** The zero bytes of a fitting encoding are the width minus the non-zero digits. */
  lemma {:induction false} ZeroBytesOfEncoding(x: nat, n: nat)
    requires x < Pow256(n)
    ensures NonZeroDigits(x) <= n
    ensures ZeroBytes(ToBytes(x, n)) == n - NonZeroDigits(x)
    decreases n
  {
    if n > 0 {
      DivBelow(x, Pow256(n - 1));
      ZeroBytesOfEncoding(x / 256, n - 1);
      var s := ToBytes(x, n);
      assert s[..|s| - 1] == ToBytes(x / 256, n - 1);
    }
  }

  /**
    The cost depends on x only through its number of non-zero bytes: the
    width's worth of zero-byte price plus 64 for every non-zero byte.
  */
  lemma InputDataCostByDigits(x: nat, n: nat)
    requires x < Pow256(n)
    ensures NonZeroDigits(x) <= n
    ensures InputDataCost(x, n) == GTXDATAZERO * n + (GTXDATANONZERO - GTXDATAZERO) * NonZeroDigits(x)
  {
    ZeroBytesOfEncoding(x, n);
  }

  /** Shifting an operand up by one byte leaves its cost unchanged. */
  lemma ShiftKeepsInputDataCost(x: nat, n: nat)
    requires x * 256 < Pow256(n)
    ensures x < Pow256(n)
    ensures InputDataCost(x * 256, n) == InputDataCost(x, n)
  {
    assert (x * 256) / 256 == x && (x * 256) % 256 == 0;
    assert NonZeroDigits(x * 256) == NonZeroDigits(x);
    InputDataCostByDigits(x * 256, n);
    InputDataCostByDigits(x, n);
  }

  /**
    For a 32-byte operand: zero costs 128 gas, every cost lies in [128, 2176],
    and 1, 256 and 256^2 (one non-zero byte each) cost the same 192 gas.
  */
  lemma InputDataCostFacts(x: u256)
    ensures x < Pow256(32)
    ensures InputDataCost(0) == 128
    ensures 128 <= InputDataCost(x) <= 2176
    ensures InputDataCost(1) == InputDataCost(256) == InputDataCost(256 * 256) == 192
  {
    U256Fits(x);
    InputDataCostByDigits(0, 32);
    InputDataCostByDigits(1, 32);
    ShiftKeepsInputDataCost(1, 32);
    ShiftKeepsInputDataCost(256, 32);
  }
}
