/**
  Gas cost of deriving a child contract's address from (creator, nonce): a step
  function of the nonce's minimal big-endian byte length, plus the fixed
  transaction base and the call data of the two operands.
*/
module Rlp {
  import opened Words
  import opened InputCost

  const RLP_BASE: nat := 21000

  /** Length of the minimal big-endian encoding of n (`encode_int`); 0 has none. */
  function ByteLength(n: nat): nat
  {
    if n == 0 then 0 else 1 + ByteLength(n / 256)
  }

  /** n fits in k bytes exactly when its minimal encoding is at most k bytes long. */
  lemma {:induction false} ByteLengthAtMost(n: nat, k: nat)
    ensures n < Pow256(k) <==> ByteLength(n) <= k
    decreases k
  {
    if k > 0 && n > 0 {
      ByteLengthAtMost(n / 256, k - 1);
      assert n < Pow256(k) <==> n / 256 < Pow256(k - 1);
    }
  }

  /** The minimal encoding is k bytes long exactly on the band [256^(k-1), 256^k - 1]. */
  lemma ByteLengthBand(n: nat, k: nat)
    requires k >= 1
    ensures ByteLength(n) == k <==> Pow256(k - 1) <= n < Pow256(k)
  {
    ByteLengthAtMost(n, k);
    ByteLengthAtMost(n, k - 1);
  }

  /** `rlp_cost(nonce)`: gas of `mk_contract_address` for the given nonce. */
  function RlpCost(nonce: nat): nat
  {
    if nonce == 0 then 1036
    else if nonce <= 127 then 906
    else 1058 + ByteLength(nonce) * 60 - (if nonce >= Pow256(8) then 50 else 0)
  }

  /**
    On every byte-length band above the single-byte RLP range the cost is
    constant: 1058 + 60 k, less 50 once the nonce needs 9 or more bytes.
  */
  lemma RlpCostBand(nonce: nat, k: nat)
    requires k >= 1 && nonce >= 128
    requires Pow256(k - 1) <= nonce < Pow256(k)
    ensures RlpCost(nonce) == 1058 + 60 * k - (if k >= 9 then 50 else 0)
  {
    ByteLengthBand(nonce, k);
    if k >= 9 {
      Pow256Monotone(8, k - 1);
    } else {
      Pow256Monotone(k, 8);
    }
  }

  /** The cheapest and the dearest nonce of the 9-byte range differ by 642 gas. */
  lemma RlpCostExtremes()
    ensures Pow256(9) == 0x1_0000_0000_0000_0000_00
    ensures RlpCost(1) == 906
    ensures RlpCost(Pow256(9) - 1) == 1548
    ensures RlpCost(Pow256(9) - 1) - RlpCost(1) == 642
  {
    RlpCostBand(Pow256(9) - 1, 9);
  }

  /** Over nonces 1 .. 256^9 - 1 the cost stays between those two extremes. */
  lemma RlpCostBounds(nonce: nat)
    requires 1 <= nonce < Pow256(9)
    ensures RlpCost(1) <= RlpCost(nonce) <= RlpCost(Pow256(9) - 1)
  {
    RlpCostExtremes();
    if nonce >= 128 {
      var k := ByteLength(nonce);
      ByteLengthAtMost(nonce, 0);
      ByteLengthAtMost(nonce, 9);
      ByteLengthBand(nonce, k);
      RlpCostBand(nonce, k);
    }
  }

  /**
    `tot_rlp_cost(nonce, address)`: the whole transaction that calls
    `mk_contract_address`, with the nonce as a 32-byte and the address as a
    20-byte operand.
  */
  function TotRlpCost(nonce: nat, address: nat): nat
    requires nonce < Pow256(32) && address < Pow256(20)
  {
    RLP_BASE + RlpCost(nonce) + InputDataCost(nonce) + InputDataCost(address, 20)
  }

  /**
    Closed form: base, address-derivation step, 52 operand bytes at the zero
    price and 64 more for every non-zero byte of nonce and address.
  */
  lemma TotRlpCostByDigits(nonce: nat, address: nat)
    requires nonce < Pow256(32) && address < Pow256(20)
    ensures TotRlpCost(nonce, address)
         == 21000 + RlpCost(nonce) + 208 + 64 * (NonZeroDigits(nonce) + NonZeroDigits(address))
  {
    InputDataCostByDigits(nonce, 32);
    InputDataCostByDigits(address, 20);
  }
}
