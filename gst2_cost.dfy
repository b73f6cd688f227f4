/**
  Gas cost model of the child-contract token (GST2). Mint is a point formula;
  each free variant is an interval, because destroying a child re-derives its
  address and that step's cost depends on the child's nonce.
*/
module Gst2Cost {
  import opened Words
  import opened InputCost
  import opened Rlp

  /** Base cost of a mint transaction, transaction fee included. */
  const MINT_BASE: nat := 32254
  /** Additional mint cost per token. */
  const MINT_TOKEN_COST: nat := 36543
  /** Upper bound on the additional free cost per token. */
  const FREE_TOKEN_COST: nat := 6870
  /** Gas refunded per freed token: one self-destructed child. */
  const REFUND: nat := 24000

  /** Cheapest and dearest address derivation over nonces 1 .. 256^9 - 1. */
  const RLP_LOWER_BOUND: nat := 906
  const RLP_UPPER_BOUND: nat := 1548

  /** The two bounds are the derivation costs of nonce 1 and of nonce 256^9 - 1. */
  lemma RlpBoundsAreExtremes()
    ensures RLP_LOWER_BOUND == RlpCost(1)
    ensures RLP_UPPER_BOUND == RlpCost(Pow256(9) - 1)
  {
    RlpCostExtremes();
  }

  /** Base cost of each free variant (includes the CALL from a contract). */
  function FreeBase(kind: FreeKind): nat
  {
    match kind
    case Free => 14154
    case FreeUpTo => 14053
    case FreeFrom => 19809
    case FreeFromUpTo => 19664
  }

  /** `mint_cost(x)`; no special case for 0. */
  function MintCost(x: u256): nat
  {
    U256Fits(x);
    MINT_BASE + x * MINT_TOKEN_COST + InputDataCost(x)
  }

  /** A closed range [low, high] of gas amounts. */
  datatype Interval = Interval(low: int, high: int)
  {
    predicate Contains(g: int) { low <= g <= high }
  }

  /** `_free_cost(base, token, x)`: the predicted range of a free of x tokens. */
  function FreeCostRange(base: nat, token: nat, x: u256): Interval
  {
    U256Fits(x);
    if x == 0 then
      Interval(base - 10 + InputDataCost(x), base + 10 + InputDataCost(x))
    else
      Interval(base + x * (token - RLP_UPPER_BOUND + RLP_LOWER_BOUND) + InputDataCost(x),
               base + x * token + InputDataCost(x))
  }

  /** `free_cost`, `free_up_to_cost`, `free_from_cost`, `free_from_up_to_cost`. */
  function FreeCost(kind: FreeKind, x: u256): Interval
  {
    FreeCostRange(FreeBase(kind), FREE_TOKEN_COST, x)
  }

  /**
    Shape of the intervals: for x > 0 the low end charges 6228 gas per token
    and the range is 642 x wide; freeing nothing is a 20-gas window.
  */
  lemma FreeCostShape(kind: FreeKind, x: u256)
    ensures x < Pow256(32)
    ensures x == 0 ==> FreeCost(kind, x).high - FreeCost(kind, x).low == 20
    ensures x > 0 ==> FreeCost(kind, x).low == FreeBase(kind) + 6228 * x + InputDataCost(x)
    ensures FreeCost(kind, x).high - FreeCost(kind, x).low == (if x == 0 then 20 else 642 * x)
  {
    U256Fits(x);
  }

  /**
    Cost of destroying the child with the given nonce: the per-token bound less
    the dearest address derivation, plus this nonce's own derivation.
  */
  function ChildFreeCost(nonce: nat): int
  {
    FREE_TOKEN_COST - RLP_UPPER_BOUND + RlpCost(nonce)
  }

  /** Summed cost of destroying the x children after `tail`. */
  function ChildrenFreeCost(tail: nat, x: nat): int
  {
    if x == 0 then 0 else ChildrenFreeCost(tail, x - 1) + ChildFreeCost(tail + x)
  }

  /** Predicted cost of a free of x tokens when the queue's free counter is `tail`. */
  function FreeCostAt(kind: FreeKind, tail: nat, x: u256): int
  {
    U256Fits(x);
    FreeBase(kind) + ChildrenFreeCost(tail, x) + InputDataCost(x)
  }

  /** Destroying one child costs between 6228 and 6870 gas over the 9-byte nonce range. */
  lemma ChildFreeCostBounds(nonce: nat)
    requires 1 <= nonce < Pow256(9)
    ensures 6228 <= ChildFreeCost(nonce) <= 6870
  {
    RlpCostBounds(nonce);
    RlpBoundsAreExtremes();
  }

  lemma {:induction false} ChildrenFreeCostBounds(tail: nat, x: nat)
    requires tail + x < Pow256(9)
    ensures 6228 * x <= ChildrenFreeCost(tail, x) <= 6870 * x
    decreases x
  {
    if x > 0 {
      var before := ChildrenFreeCost(tail, x - 1);
      var last := ChildFreeCost(tail + x);
      ChildrenFreeCostBounds(tail, x - 1);
      ChildFreeCostBounds(tail + x);
      assert ChildrenFreeCost(tail, x) == before + last;
    }
  }

  /**
    The interval is sound: whatever the position of the x freed children in the
    nonce range 1 .. 256^9 - 1, the position-dependent cost lies inside it; a
    free of 0 tokens destroys nothing and costs the centre of its interval.
  */
  lemma FreeCostWithinRange(kind: FreeKind, tail: nat, x: u256)
    requires tail + x < Pow256(9)
    ensures FreeCost(kind, x).Contains(FreeCostAt(kind, tail, x))
  {
    ChildrenFreeCostBounds(tail, x);
    FreeCostShape(kind, x);
  }
}
