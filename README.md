# GasToken in Dafny

GasToken turns gas into a tradeable ERC20 token. While gas is cheap you
*mint* tokens, and the contract stores something on chain for each one.
While gas is dear you *free* tokens, and the contract deletes what it
stored. The deletion earns an EVM gas refund that pays for part of the
current transaction.

There are two variants:

- **GST1** backs each token with a storage slot.
- **GST2** backs each token with a child contract. Children are created
  at consecutive nonces of the token's account and self-destructed oldest
  first. Two GST2 deployments exist:
  - on ETH, a compiler defect can leave a child alive when a free runs
    short of gas;
  - on ETC, a workaround destroys every child it frees.

The repository also contains **BTCGasToken**, a derivative on the bitcoin
transaction fee:

- A maker escrows an amount and names a trigger price and a trigger block
  height.
- A taker matches the bet before the trigger height.
- Once the height is reached, settlement asks a price oracle for the fee
  and pays the pot, less the oracle's fee, to the winner.
- An untaken bet can be cancelled by its maker.

The project models three things:

- **The ledger** (`ledger.dfy`, class `Ledger.GasToken`). It holds the
  total supply, the balance and allowance tables, the Transfer/Approval log
  and the pool behind the tokens (`pool.dfy`). It covers `mint`, `free`,
  `freeUpTo`, `freeFrom`, `freeFromUpTo`, `transfer`, `transferFrom` and
  `approve`.
  - Every call succeeds, fails softly (returns false or 0 and changes
    nothing), or reverts (changes nothing).
  - The class invariant says that the supply is the sum of the balances
    and the number of live slots or queued children.
  - The ETH defect is an input: `starved` is the set of child nonces whose
    destruction call gets too little gas. On ETH those children become
    orphans, which are burnt but keep their code. GST1 and ETC ignore the
    set.
- **The gas cost model**, as pure functions:
  - the calldata cost of a word (`input_cost.dfy`);
  - the cost of deriving a child address from a nonce (`rlp_cost.dfy`);
  - GST1's point formulas (`gst1_cost.dfy`) and GST2's interval formulas
    (`gst2_cost.dfy`) for mint and the four frees;
  - big-endian decoding of byte strings (`words.dfy`).
- **The derivative lifecycle** (`btc_gas_token.dfy`, class
  `BtcGasToken.BtcGasToken`). It covers mint, take, cancel, settle and the
  oracle callback.
  - Each call is guarded by a predicate, and the call succeeds exactly
    when the guard holds.
  - The escrow always equals what the open and taken bets lock plus any
    overpayment.
  - Phases only move forward, and a settled or cancelled bet never changes
    again.

The test suites drive these contracts through fixed scenarios. Each
scenario is a method that runs the model through the same calls
(`gas_token_traces.dfy`, `pool_traces.dfy`, `btc_traces.dfy`) and proves
that the results the test asserts come out.

The model has these inputs, since the model cannot compute them:

- the gas a transaction is given;
- the children whose destruction runs out of gas;
- the block height;
- the value sent with a call;
- the oracle's request id, error code and price.

Keccak-derived child addresses are replaced by nonces. Token amounts are
unbounded integers restricted to `u256` where the contracts store words.

## Model

| member | source | states |
|---|---|---|
| Words.BytesToInt | test/generic_ERC20_token.py:8-12 | the accumulator loop computes the big-endian value of the bytes |
| Words.FromToBytes | test/generic_ERC20_token.py:8-12 | decoding the n-byte big-endian encoding of x < 256^n gives x back |
| Words.ToFromBytes | test/generic_ERC20_token.py:8-12 | encoding the decoded value at the same width gives the bytes back |
| Words.FromBytesBound | test/generic_ERC20_token.py:8-12 | an n-byte string decodes below 256^n |
| Words.FromBytesZero | test/generic_ERC20_token.py:8-12 | a byte string decodes to 0 exactly when every byte is zero |
| Words.U256Fits | test/generic_ERC20_token.py:305 | 256^32 is MAX_UINT256 + 1, so every word has a 32-byte encoding |
| Words.Pow256Monotone | test/generic_gas_token.py:13-14 | 256^i is monotone in i |
| InputCost.InputDataCost | test/generic_gas_token.py:13-19 | the cost of an n-byte encoding lies between 4n and 68n |
| InputCost.ZeroBytesOfEncoding | test/generic_gas_token.py:14-15 | the number of zero bytes of the encoding is n minus the number of significant base-256 digits of x |
| InputCost.InputDataCostByDigits | test/generic_gas_token.py:13-19 | cost = 4n + 64 × (non-zero digits of x) |
| InputCost.ShiftKeepsInputDataCost | test/generic_gas_token.py:136-139 | multiplying by 256 (within the width) does not change the cost |
| InputCost.InputDataCostFacts | test/generic_gas_token.py:13-19 | cost(0) = 128, every word costs between 128 and 2176, and 1, 256 and 256² all cost 192 |
| Rlp.ByteLengthAtMost | test/test_rlp.py:22-23 | n < 256^k exactly when n's minimal encoding has at most k bytes |
| Rlp.ByteLengthBand | test/test_rlp.py:22-23 | the minimal encoding has exactly k bytes exactly when 256^(k-1) ≤ n < 256^k |
| Rlp.RlpCostBand | test/test_rlp.py:16-27 | for a nonce ≥ 128 in the k-byte band, the cost is 1058 + 60k, less 50 from k = 9 |
| Rlp.RlpCostExtremes | test/test_rlp.py:12-16 | rlp_cost(1) = 906, rlp_cost(256⁹−1) = 1548, and they differ by 642 |
| Rlp.RlpCostBounds | test/test_rlp.py:16-27 | for 1 ≤ nonce < 256⁹ the cost lies between rlp_cost(1) and rlp_cost(256⁹−1) |
| Rlp.TotRlpCostByDigits | test/test_rlp.py:56-64 | total = 21000 + rlp_cost + 208 + 64 × (non-zero bytes of nonce and address) |
| Gst1Cost.CostsByDigits | test/test_GST1.py:29-45 | mint (x > 0) and each free cost their base + per-token × x + calldata, written by digit count |
| Gst1Cost.FreeVariantsDiffer | test/test_GST1.py:20-24 | free − freeUpTo = 86, freeFrom − freeFromUpTo = 134 and freeFrom − free = 5718, for every x |
| Gst1Cost.MintCostIncreasing | test/test_GST1.py:29-33 | minting more tokens always costs more, including the jump from mint(0) = 21800 |
| Gst2Cost.RlpBoundsAreExtremes | test/test_GST2.py:64-67 | the RLP bounds are rlp_cost(1) and rlp_cost(256⁹−1) |
| Gst2Cost.FreeCostShape | test/test_GST2.py:87-105 | the predicted free interval is 20 wide at 0; for x > 0 it starts at base + 6228x + calldata and is 642x wide |
| Gst2Cost.ChildFreeCostBounds | test/test_GST2.py:69-75 | freeing one child at a nonce below 256⁹ costs between 6228 and 6870 |
| Gst2Cost.ChildrenFreeCostBounds | test/test_GST2.py:69-75 | freeing x consecutive children costs between 6228x and 6870x |
| Gst2Cost.FreeCostWithinRange | test/test_GST2.py:87-105 | for every x, 0 included, the cost of a free of x at any queue position falls inside the predicted interval |
| Storage.Put | test/test_GST1.py:81-83 | a write sets its key's value, leaves every other key's value alone and keeps storage free of zero words |
| Storage.PutKeys | test/test_GST1.py:81-98 | a write adds the key to storage when the value is non-zero and removes it when it is zero |
| Storage.SumPut | test/generic_ERC20_token.py:108-122 | a write changes the sum of all entries by the new value minus the old one |
| Storage.Move | test/generic_ERC20_token.py:166-178 | a move debits the sender, credits the receiver and leaves every other entry alone |
| Storage.SumMove | test/generic_ERC20_token.py:166-178 | a move leaves the sum of all entries unchanged |
| Storage.MoveIsDebitThenCredit | test/generic_ERC20_token.py:330-342 | a move is a debit of the sender followed by a credit of the receiver |
| Pool.Spared | test/test_GST2.py:304-323 | only targets of the free are spared; on ETH every starved target is; elsewhere none is |
| Pool.Destroyed | test/test_GST2.py:304-323 | a free destroys at most the number of tokens it frees |
| Pool.SparedAtMost | test/test_GST2.py:304-323 | a free spares at most the number of tokens it frees |
| Pool.AllocateSpec | test/test_GST2.py:160-194 | a mint of n adds n tokens, raises the contract nonce by n and gives code to exactly the n new children |
| Pool.DeallocateSpec | test/test_GST2.py:196-224 | a free of n removes n tokens and advances the free counter by n, leaving the mint counter alone |
| Pool.FreeEffect | test/test_GST2.py:196-224 | after a free, a child has code exactly when it had code and was not a target, or it was a spared target |
| Pool.FreeIsFifo | test/test_GST2.py:196-224 | a child a free destroyed is older than every child still queued |
| Pool.FreeDestroysTargets | test/test_GST2.py:481-500 | a free with no starved target destroys exactly the n oldest queued children and nothing else |
| Pool.StarvedTargetsOrphaned | test/test_GST2.py:304-323 | on ETH a free destroys n minus its starved targets, and exactly those targets become orphans |
| Pool.DeallocateNoneStarved | test/test_GST2.py:196-224 | with nothing starved, a free only advances the free counter |
| Pool.OrphanPermanent | test/test_GST2.py:319-323 | an orphan keeps its code through every later mint and free |
| Pool.EtcLiveIffQueued | test/test_GST2.py:481-500 | on ETC a child has code exactly when it is queued, and there are no orphans |
| Pool.CodeLostOnlyByFree | test/test_GST2.py:196-224 | a mint never takes a child's code away, and a child that loses its code in a free was an unspared target of that free |
| Ledger.LogData | test/generic_ERC20_token.py:258-280 | an event's data is one 32-byte word that decodes to its amount |
| Ledger.MintKeepsConsistent | test/generic_ERC20_token.py:108-112 | a mint within the counter's word keeps supply = sum of balances = backed tokens, and no balance overflows |
| Ledger.BurnKeepsConsistent | test/generic_ERC20_token.py:114-122 | burning held tokens keeps supply = sum of balances = backed tokens |
| Ledger.MoveKeepsConsistent | test/generic_ERC20_token.py:166-178 | moving held tokens cannot overflow the receiver and keeps the supply the sum of balances |
| Ledger.ApproveKeepsConsistent | test/generic_ERC20_token.py:189-192 | writing an allowance keeps the ledger consistent |
| Ledger.GasToken.constructor | test/generic_ERC20_token.py:86-99 | a fresh token has supply 0, no balances, no allowances, no log and an empty pool |
| Ledger.GasToken.Mint | test/generic_ERC20_token.py:108-112 | reverts out of gas exactly when the gas is below the mint cost, and reverts on overflow exactly when the counter would pass 2^256−1; otherwise adds the amount to the caller and the supply, backs it in the pool and logs nothing |
| Ledger.GasToken.Burn | test/generic_ERC20_token.py:114-122 | removes held tokens from the owner, the supply and the pool, refunding per destroyed token and logging nothing |
| Ledger.GasToken.Free | test/generic_ERC20_token.py:114-143 | succeeds exactly when the value is at most the balance, burning it; otherwise changes nothing; with no starved target the refund is value × REFUND |
| Ledger.GasToken.FreeUpTo | test/generic_gas_token.py:88-99 | burns and returns min(value, balance) |
| Ledger.GasToken.FreeFrom | test/generic_gas_token.py:60-86 | succeeds exactly when value ≤ balance and value ≤ allowance, then lowers both by value; otherwise changes nothing |
| Ledger.GasToken.FreeFromUpTo | test/generic_gas_token.py:101-123 | burns min(value, balance, allowance) and lowers balance and allowance by it |
| Ledger.GasToken.Send | test/generic_ERC20_token.py:166-178 | moves held tokens and logs Transfer, touching nothing else |
| Ledger.GasToken.Transfer | test/generic_ERC20_token.py:166-178 | succeeds exactly when value ≤ balance (so 0 always does), moving it and logging Transfer; otherwise changes nothing |
| Ledger.GasToken.TransferFrom | test/generic_ERC20_token.py:180-203 | succeeds exactly when value ≤ balance and value ≤ allowance, moving it, lowering the allowance and logging Transfer; otherwise changes nothing |
| Ledger.GasToken.Approve | test/generic_ERC20_token.py:204-224 | succeeds exactly when the value is 0 or the old allowance is 0, setting only that pair and logging Approval; otherwise changes nothing |
| GasTokenTraces.DefaultGasLimit | test/test_GST2.py:3-4 | the test chain's default start gas `STARTGAS` of 3141592 pays for a mint of up to 85 tokens on either variant and not for a GST2 mint of 86 |
| GasTokenTraces.DefaultMint | test/generic_ERC20_token.py:108-112 | a mint at the default start gas that the gas pays for succeeds with the full mint effect |
| GasTokenTraces.BigGasMint | test/generic_gas_token.py:125-152 | a mint of up to 10^6 tokens at the 10^20 start gas the scaling test passes succeeds with the full mint effect |
| GasTokenTraces.FreshLedger | test/generic_ERC20_token.py:86-99 | a fresh token reports supply 0, balance 0, allowance 0 and an empty storage |
| GasTokenTraces.MintAndFree | test/generic_ERC20_token.py:101-143 | the frees return true, true, false, false, true and the supply reads 2, 1, 0, 0, 0, 0, 0 |
| GasTokenTraces.TotalSupplyTrace | test/generic_ERC20_token.py:145-164 | the supply reads 0, 2, 1, 0, 0, 0 |
| GasTokenTraces.TransferTrace | test/generic_ERC20_token.py:166-178 | the calls return false, true, true, false, true, false, false, true |
| GasTokenTraces.TransferFromTrace | test/generic_ERC20_token.py:180-224 | every transferFrom, approve and allowance read returns what the test asserts |
| GasTokenTraces.LogValues | test/generic_ERC20_token.py:258-280 | reads the decoded data word of every log entry |
| GasTokenTraces.RawLogs | test/generic_ERC20_token.py:247-302 | the log is exactly the two Transfers, two Approvals, two Transfers and the last Approval, with data 1, 0, 1, 0, 1, 0, 2 |
| GasTokenTraces.HugeMint | test/generic_ERC20_token.py:308-310 | a mint of 10^6 or more tokens with 10^8 gas reverts out of gas and changes nothing |
| GasTokenTraces.HugeFrees | test/generic_ERC20_token.py:311-328 | free, freeUpTo, freeFrom and freeFromUpTo of a huge value free nothing |
| GasTokenTraces.Boundaries | test/generic_ERC20_token.py:304-328 | all three huge mints revert and all huge frees return false or 0 |
| GasTokenTraces.FreeFromTrace | test/generic_gas_token.py:60-86 | the freeFrom results follow the test, ending with balance 0 and allowance 0 |
| GasTokenTraces.FreeUpToTrace | test/generic_gas_token.py:88-99 | freeUpTo returns 0, 1, 19, 0 and the balance reads 0, 20, 20, 19, 0 |
| GasTokenTraces.FreeFromUpToTrace | test/generic_gas_token.py:101-123 | freeFromUpTo returns 0, 0, 0, 1, 8, 10, 0, 20, leaving balance 1 and allowance 980 |
| GasTokenTraces.TotalConcat | test/generic_gas_token.py:141-147 | the running total of a concatenation is the sum of the totals |
| GasTokenTraces.MintStep | test/generic_gas_token.py:150-163 | one mint raises supply and the minter's balance together |
| GasTokenTraces.MintScaling | test/generic_gas_token.py:141-163 | after the i-th mint, supply and balance both equal 1 + the running sum of the amounts |
| GasTokenTraces.MintScalingTrace | test/generic_gas_token.py:136-163 | after the test's mints the supply is 199330 |
| GasTokenTraces.HelperOwnFree | test/generic_gas_token.py:191-199 | the helper freeing its own tokens gets a refund of amount × REFUND |
| GasTokenTraces.HelperDelegatedFree | test/generic_gas_token.py:200-204 | the helper freeing A1's approved tokens gets amount × REFUND and spends that much allowance |
| GasTokenTraces.RefundRun | test/generic_gas_token.py:240-264 | every free in a run refunds exactly amount × REFUND |
| GasTokenTraces.FreeRefundTrace | test/generic_gas_token.py:167-264 | for all four free variants every amount is refunded exactly amount × REFUND |
| PoolTraces.DeployEmpty | test/test_GST2.py:160-168 | a fresh deployment has empty storage |
| PoolTraces.MintBy | test/test_GST2.py:172-174 | a mint raises the holder's balance and backs the tokens in the pool |
| PoolTraces.FreeBy | test/test_GST2.py:196-199 | a free of held tokens succeeds, lowers the balance and advances the pool |
| PoolTraces.HoldingWords | test/test_GST1.py:81-83 | storage words = balance and supply words + live slots (GST1), or balance + head + tail words (GST2) |
| PoolTraces.Gst1StorageTrace | test/test_GST1.py:70-98 | storage holds 0, 4, 3, 0 words |
| PoolTraces.CodeFlags | test/test_GST2.py:81-82 | flag k says whether child k+1 has code |
| PoolTraces.Observe | test/test_GST2.py:163-194 | reads the contract nonce head+1, the storage words and the code of children 1 and 2 |
| PoolTraces.Gst2StorageAndChildren | test/test_GST2.py:160-224 | the contract nonce reads 1, 3, 3, 3 and storage 0, 2, 3, 2 words; children 1 and 2 have code: neither, both, only child 2, neither |
| PoolTraces.TightFreeSpares | test/test_GST2.py:319-323 | a tight free(2) spares child 2 on ETH and nothing on ETC |
| PoolTraces.PartialFree | test/test_GST2.py:304-323 | on ETH the tight free returns true but leaves child 2 alive and destroys child 3; on ETC both die |
| Ledger.GasToken.CallChild | test/test_GST2.py:335-348 | a call to a child address without code does nothing; a call to a live child is rejected exactly when the caller is not the token; the call leaves the token's state unchanged |
| PoolTraces.ChildAddressCheck | test/test_GST2.py:335-348 | child 1 has no code before the mint and code after it; A0's call to it is rejected and leaves the child live, the supply and A0's balance unchanged |
| PoolTraces.MintOneCost | test/test_GST2.py:84-85 | mint(1) costs 68989 |
| PoolTraces.MintOne | test/test_GST2.py:396-435 | mint(1) succeeds exactly with at least 68989 gas, and a failed one changes nothing |
| PoolTraces.MintOutOfGas | test/test_GST2.py:350-439 | the largest failing gas is one below the smallest succeeding one |
| PoolTraces.Replenish | test/test_GST2.py:260-263 | mint 50 and transfer them to the example contract |
| PoolTraces.ExampleRound | test/test_GST2.py:249-263 | with no starved destruction call among its targets, one gas-limited free lowers the balance by what it frees; the child before the frontier is dead and the frontier child has code while tokens remain |
| PoolTraces.ExampleFreeTrace | test/test_GST2.py:226-263 | the first round frees what it asks for or all 50 held, every later round frees exactly what it asks for, the child behind the frontier is always dead and the frontier child has code whenever tokens remain |
| PoolTraces.DelegatedRound | test/test_GST2.py:289-302 | the same as ExampleRound with freeFromUpTo on A0's tokens, within the allowance |
| PoolTraces.DelegatedSetup | test/test_GST2.py:276-286 | after mint 1, free 1, mint 60 and approve, A0 holds 60 and the allowance is 10^9 |
| PoolTraces.DelegatedFreeTrace | test/test_GST2.py:265-302 | the freeFrom example: the first round frees what it asks for or all 60 held, every later round frees exactly what it asks for, and the frontier conditions hold as in ExampleFreeTrace |
| BtcGasToken.Decide | BTCGasToken/test/moneyHandling.js:92-106 | the outcome is an error exactly when the oracle reports one, and the maker wins exactly when the price stays below the trigger |
| BtcGasToken.Payout | BTCGasToken/test/moneyHandling.js:92-106 | the two payouts plus the oracle fee equal the pot; the loser of a decided bet gets nothing; on error the maker gets their stake back |
| BtcGasToken.Credit | BTCGasToken/test/moneyHandling.js:92-106 | only the credited account's balance grows, by exactly the amount |
| BtcGasToken.Debit | BTCGasToken/test/moneyHandling.js:30-37 | only the debited account's balance shrinks, by exactly the amount |
| BtcGasToken.Close | BTCGasToken/test/moneyHandling.js:92-106 | settlement credits the maker and the taker their payouts and nobody else |
| BtcGasToken.LockedAppend | BTCGasToken/test/rudimentaryFunctionality.js:16-32 | a new bet adds what it holds to the locked total |
| BtcGasToken.LockedUpdate | BTCGasToken/test/rudimentaryFunctionality.js:34-63 | changing one bet changes the locked total by the difference |
| BtcGasToken.LockedNonNegative | BTCGasToken/test/moneyHandling.js:164-207 | the locked total is never negative |
| BtcGasToken.ClosedHoldNothing | BTCGasToken/test/moneyHandling.js:8-107 | once every bet is settled or cancelled nothing stays locked |
| BtcGasToken.ClosedEscrowIsSurplus | BTCGasToken/test/moneyHandling.js:8-107 | once every bet is settled or cancelled the contract's balance is only the surplus sent to take |
| BtcGasToken.EvolvesTransitive | BTCGasToken/test/inputSanitization.js:141-207 | the lifecycle relation composes across calls |
| BtcGasToken.ClosedIsFinal | BTCGasToken/test/inputSanitization.js:181-207 | a settled or cancelled bet never changes again |
| BtcGasToken.BtcGasToken.constructor | BTCGasToken/test/rudimentaryFunctionality.js:8-14 | a fresh contract has no bets, an empty escrow, no pending requests and no log |
| BtcGasToken.BtcGasToken.Mint | BTCGasToken/test/inputSanitization.js:55-91 | succeeds exactly when the value is at least the minimum, the trigger height is not past, the taker amount exceeds the oracle fee and the maker can pay; the new bet gets the next id, the maker is debited and DerivativeCreated is logged; a refusal changes nothing |
| BtcGasToken.BtcGasToken.Take | BTCGasToken/test/inputSanitization.js:93-207 | succeeds exactly when the bet exists, is open, its take deadline has not passed, the value covers the taker amount and the caller can pay it; records the taker, debits them and logs DerivativeTaken |
| BtcGasToken.BtcGasToken.Cancel | BTCGasToken/test/inputSanitization.js:8-53 | succeeds exactly when the caller is the maker of an existing open bet; refunds the maker and logs DerivativeCanceled |
| BtcGasToken.BtcGasToken.Settle | BTCGasToken/test/inputSanitization.js:209-288 | succeeds exactly when the bet exists, is taken and the block has reached its trigger height, equality included; pays the oracle fee, then awaits the answer or refunds on an error |
| BtcGasToken.BtcGasToken.Request | BTCGasToken/test/moneyHandling.js:62-80 | pays the oracle its fee, records the request and logs RequestStatus |
| BtcGasToken.BtcGasToken.RefundOnError | BTCGasToken/test/moneyHandling.js:164-207 | an error answer refunds the maker in full and the taker less the fee, and logs DerivativeError with the code |
| BtcGasToken.BtcGasToken.PriceCallback | BTCGasToken/test/inputSanitization.js:290-301 | succeeds exactly when the oracle answers a pending request; pays the winner and logs DerivativeSettled, or refunds and logs DerivativeError |
| BtcTraces.MintStandard | BTCGasToken/test/rudimentaryFunctionality.js:16-32 | a standard mint gets the next id, the open terms and the DerivativeCreated event |
| BtcTraces.TakeStandard | BTCGasToken/test/rudimentaryFunctionality.js:34-63 | a standard take records the taker and logs DerivativeTaken with unchanged terms |
| BtcTraces.RudimentaryTrace | BTCGasToken/test/rudimentaryFunctionality.js:8-92 | name and symbol are as deployed, the supply is 1 after the first mint, and the five events carry ids 0, 1, 1, 2, 2 with unchanged terms |
| BtcTraces.MintRefusals | BTCGasToken/test/inputSanitization.js:55-91 | a low value, a past trigger height, a taker amount not above the fee and a take of an unknown id are all refused without effect |
| BtcTraces.SanitizationTrace | BTCGasToken/test/inputSanitization.js:8-301 | every misuse is refused, and successful mints get ids 0 to 7 despite the refusals |
| BtcTraces.MakerWinsCase | BTCGasToken/test/moneyHandling.js:8-107 | with mint, take and settle in consecutive blocks and settle at exactly the trigger height, mint costs the stake, take costs the match, and the maker gains the pot less the fee while the taker gains nothing |
| BtcTraces.TakerWinsCase | BTCGasToken/test/moneyHandling.js:109-162 | with settle again at exactly the trigger height, the taker gains the pot less the fee and the maker gains nothing |
| BtcTraces.ErrorCase | BTCGasToken/test/moneyHandling.js:164-252 | an error answer logs DerivativeError with its code, refunds the maker in full and the taker less the fee, and a late answer has no effect on the wallets or the derivatives |
| BtcTraces.MoneyTrace | BTCGasToken/test/moneyHandling.js:8-252 | the four money tests, at the blocks they run in, produce the asserted costs, gains and error events |

## Left out

- Gas metering is not modelled. A mint's cost formula is taken as the exact gas it needs. Measured `gas_used`, the ±1% tolerance checks and the half-of-transaction refund cap are left out, because they are float ratios or EVM accounting.
- The ETH defect is an input (`starved`), not derived from gas. Which children starve depends on EVM gas forwarding, which is not modelled.
- In the example-contract tests, the number of tokens a gas limit allows is an input (`request`). The contract's gas loop runs on EVM gas, which is not modelled.
- Child addresses are nonces. Keccak-based `mk_contract_address` and the RLP encoding in `contract/rlp.sol` are not part of this model; only the RLP cost function is.
- The child's bytecode and init code (test/test_GST2.py:325-333) are not modelled; only "has code" is.
- Deployment and tooling are not modelled: solc, the ABI translator, magic-nonce deployment, `.asm` loading and refund log scraping.
- Payability is not modelled (test/generic_ERC20_token.py:226-245). It is a property of the transaction envelope.
- The ABI-level hiding of `internalTransfer` (test/generic_ERC20_token.py:330-342) is not modelled. Its behaviour is `Ledger.GasToken.Send`, a method the transfer paths call and no trace calls directly.
- The miner scripts and compare_schemes.py are not modelled. They are network I/O, timing loops and float ratios.
- The Town Crier oracle is an input. Gas subtraction in the JS tests and `evm_mine` are also left out; block heights are inputs.
- BTCGasToken/test/BTCGasToken.js, test/test_BTCGasToken.py, truffle.js and the migration are left out. The first two are broken and the last two are configuration.
- BtcGasToken.Exceeds: the tests do not fix whether the minimum value, the take deadline, the mint deadline and the price comparison are strict or inclusive. Each is a `Bound` in the configuration, and the minimum value ranges over (3000, 10^16]. The settle height is fixed: the money tests settle in the block equal to the trigger height and succeed, so settle accepts that block.
- BtcGasToken.BtcGasToken.Cancel: the tests only show that the call succeeds. Refunding the maker's stake is assumed.
- BtcGasToken.BtcGasToken.Take: a taker who sends more than the taker amount is not refunded the excess. The excess stays in the contract as surplus; the tests always send the exact amount.
- BtcGasToken.BtcGasToken.Settle: an oracle response below zero is taken to be an error code. On error the taker bears the oracle fee, whoever called settle. In the tests the taker calls settle, and their messages at BTCGasToken/test/moneyHandling.js:205 and :250 say the maker is reimbursed fully because the taker submitted the transaction. That implies the submitter bears the fee. For a settle the maker submits, the model's rule therefore contradicts the implied one: the model still charges the taker. Neither the tests nor the model fix what a third party's settle does.
- BtcGasToken.BtcGasToken.RefundOnError: applies the taker-pays rule of the line above, so for a settle the maker submits it also departs from the rule those test messages imply.
- BtcGasToken.BtcGasToken.PriceCallback: a callback for a request that is not pending reverts, and any non-zero error code refunds. The tests await such a late callback without expecting a revert, so they fix only that it has no effect; the revert is the model's choice.
- GasTokenTraces.STARTGAS: the value 3141592 is the default of the Ethereum tester library the suites import; that library is not part of this model.
- PoolTraces.ExampleFreeTrace, PoolTraces.DelegatedFreeTrace: every round is taken to starve no destruction call, because the example contract sizes each free to the gas it has. The traces pass no starved nonces; `ExampleRound` and `DelegatedRound` accept any starved set that misses the round's targets.
- The ERC20 `name`, `decimals` and `symbol` getters are modelled as constants with no contract: `Ledger.NAME`, `Ledger.DECIMALS`, `Ledger.Symbol`, `BtcGasToken.NAME` and `BtcGasToken.SYMBOL`.
