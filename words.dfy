/**
  Unsigned 256-bit words, account addresses and the fixed-width big-endian
  byte encoding the token's event data and call data use.
*/
module Words {

  /** Largest value of a `uint256`. */
  const MAX_UINT256: nat := 0xffff_ffff_ffff_ffff_ffff_ffff_ffff_ffff_ffff_ffff_ffff_ffff_ffff_ffff_ffff_ffff

  type u256 = x: nat | x <= MAX_UINT256

  type byte = b: nat | b < 256

  /** An account identity; its 20-byte value is what the event topics carry. */
  type Address = nat

  /** 256 to the power k. */
  function Pow256(k: nat): (r: nat)
    ensures r >= 1
  {
    if k == 0 then 1 else 256 * Pow256(k - 1)
  }

  /** Every u256 fits in 32 bytes. */
  lemma U256Fits(x: u256)
    ensures Pow256(32) == MAX_UINT256 + 1
    ensures x < Pow256(32)
  {
    assert Pow256(4) == 0x1_0000_0000;
    assert Pow256(8) == 0x1_0000_0000_0000_0000;
    assert Pow256(12) == 0x1_0000_0000_0000_0000_0000_0000;
    assert Pow256(16) == 0x1_0000_0000_0000_0000_0000_0000_0000_0000;
    assert Pow256(24) == 0x1_0000_0000_0000_0000_0000_0000_0000_0000_0000_0000_0000_0000;
  }

  lemma {:induction false} Pow256Monotone(i: nat, j: nat)
    requires i <= j
    ensures Pow256(i) <= Pow256(j)
    decreases j
  {
    if i < j {
      Pow256Monotone(i, j - 1);
    }
  }

  /**
    The n low-order bytes of x, most significant first: `x.to_bytes(n, 'big')`
    for every x that fits in n bytes.
  */
  function ToBytes(x: nat, n: nat): (s: seq<byte>)
    ensures |s| == n
  {
    if n == 0 then [] else ToBytes(x / 256, n - 1) + [x % 256]
  }

  /** Big-endian value of a byte string: the specification of `BytesToInt`. */
  function FromBytes(s: seq<byte>): nat
  {
    if s == [] then 0 else FromBytes(s[..|s| - 1]) * 256 + s[|s| - 1]
  }

  /**
    The decoding loop of the test suite: folds the bytes, most significant
    first, into an accumulator.
  */
  method BytesToInt(bytez: seq<byte>) returns (o: nat)
    ensures o == FromBytes(bytez)
  {
    o := 0;
    for i := 0 to |bytez|
      invariant o == FromBytes(bytez[..i])
    {
      assert bytez[..i + 1][..i] == bytez[..i];
      o := o * 256 + bytez[i];
    }
    assert bytez[..|bytez|] == bytez;
  }

  lemma DivBelow(x: nat, p: nat)
    requires x < 256 * p
    ensures x / 256 < p
  {
  }

  /** Decoding a value's n-byte encoding gives the value back. */
  lemma {:induction false} FromToBytes(x: nat, n: nat)
    requires x < Pow256(n)
    ensures FromBytes(ToBytes(x, n)) == x
    decreases n
  {
    if n > 0 {
      DivBelow(x, Pow256(n - 1));
      FromToBytes(x / 256, n - 1);
      var s := ToBytes(x, n);
      assert s[..|s| - 1] == ToBytes(x / 256, n - 1);
    }
  }

  /** A byte string's value fits in as many bytes as the string has. */
  lemma {:induction false} FromBytesBound(s: seq<byte>)
    ensures FromBytes(s) < Pow256(|s|)
    decreases |s|
  {
    if s != [] {
      var p := s[..|s| - 1];
      FromBytesBound(p);
      assert FromBytes(p) <= Pow256(|p|) - 1;
      assert FromBytes(p) * 256 <= (Pow256(|p|) - 1) * 256;
    }
  }

  /** Encoding a byte string's value at the string's own width gives the string back. */
  lemma {:induction false} ToFromBytes(s: seq<byte>)
    ensures ToBytes(FromBytes(s), |s|) == s
    decreases |s|
  {
    if s != [] {
      var p := s[..|s| - 1];
      var x := FromBytes(s);
      assert x / 256 == FromBytes(p) && x % 256 == s[|s| - 1];
      ToFromBytes(p);
      assert s == p + [s[|s| - 1]];
    }
  }

  /** A byte string decodes to 0 exactly when every byte is 0. */
  lemma {:induction false} FromBytesZero(s: seq<byte>)
    ensures FromBytes(s) == 0 <==> forall i :: 0 <= i < |s| ==> s[i] == 0
    decreases |s|
  {
    if s != [] {
      var p := s[..|s| - 1];
      FromBytesZero(p);
      assert forall i :: 0 <= i < |p| ==> p[i] == s[i];
    }
  }
}
