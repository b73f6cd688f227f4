/**
  Gas cost model of the storage-slot token (GST1): exact point formulas for
  mint and the four free variants, as functions of the amount.
*/
module Gst1Cost {
  import opened Words
  import opened InputCost

  /** Base cost of a mint transaction, transaction fee included. */
  const MINT_BASE: nat := 32259
  /** Additional mint cost per token. */
  const MINT_TOKEN_COST: nat := 20046
  /** Additional free cost per token. */
  const FREE_TOKEN_COST: nat := 5046
  /** Gas refunded per freed token: clearing one storage slot. */
  const REFUND: nat := 15000

  /** Base cost of each free variant (includes the CALL from a contract). */
  function FreeBase(kind: FreeKind): nat
  {
    match kind
    case Free => 14505
    case FreeUpTo => 14419
    case FreeFrom => 20223
    case FreeFromUpTo => 20089
  }

  /** `mint_cost(x)`; minting nothing costs a flat 21800. */
  function MintCost(x: u256): nat
  {
    U256Fits(x);
    if x == 0 then 21800 else MINT_BASE + x * MINT_TOKEN_COST + InputDataCost(x)
  }

  /** `free_cost`, `free_up_to_cost`, `free_from_cost`, `free_from_up_to_cost`. */
  function FreeCost(kind: FreeKind, x: u256): nat
  {
    U256Fits(x);
    FreeBase(kind) + x * FREE_TOKEN_COST + InputDataCost(x)
  }

  /**
    Closed forms: mint is 32387 + 20046 x plus 64 per non-zero byte of x (x > 0);
    each free variant is its base + 128 + 5046 x plus 64 per non-zero byte.
  */
  lemma CostsByDigits(kind: FreeKind, x: u256)
    ensures x > 0 ==> MintCost(x) == 32387 + 20046 * x + 64 * NonZeroDigits(x)
    ensures FreeCost(kind, x) == FreeBase(kind) + 128 + 5046 * x + 64 * NonZeroDigits(x)
  {
    U256Fits(x);
    InputDataCostByDigits(x, 32);
  }

  /**
    The four free variants share one slope and differ only by a constant:
    free is 86 dearer than freeUpTo, freeFrom 134 dearer than freeFromUpTo.
  */
  lemma FreeVariantsDiffer(x: u256)
    ensures FreeCost(Free, x) - FreeCost(FreeUpTo, x) == 86
    ensures FreeCost(FreeFrom, x) - FreeCost(FreeFromUpTo, x) == 134
    ensures FreeCost(FreeFrom, x) - FreeCost(Free, x) == 5718
  {
  }

  /** Minting more tokens always costs more gas. */
  lemma MintCostIncreasing(x: u256, y: u256)
    requires x < y
    ensures MintCost(x) < MintCost(y)
  {
    U256Fits(x);
    U256Fits(y);
    InputDataCostFacts(x);
    InputDataCostFacts(y);
  }
}
