/**
  The derivative test suites replayed against the model. Each suite runs
  on its own freshly deployed contract; block heights are concrete and
  start above height 100. Every transaction of a suite, the mock oracle's
  included and refused ones as well, takes one block, and so does every
  explicit mine, in the order the suite runs them.
*/
module BtcTraces {
  import opened Words
  import opened BtcGasToken

  const A0: Address := 0
  const A1: Address := 1
  const A2: Address := 2
  const A3: Address := 3
  const A4: Address := 4
  /** The mock oracle's address. */
  const ORACLE: Address := 9
  /** What each test account starts with: 100 ether. */
  const FUNDS: nat := 100_000_000_000_000_000_000

  const STAKE: nat := 10_000_000_000_000_000
  const MATCH: nat := 20_000_000_000_000_000
  const PRICE: nat := 50000

  function TestTerms(height: nat): Terms
  {
    Terms(A1, STAKE, MATCH, PRICE, height)
  }

  /**
    The contract is consistent, holds k derivatives and every test account
    still has at least `floor` wei.
  */
  ghost predicate Ready(t: BtcGasToken, k: nat, floor: nat)
    reads t
  {
    && t.Valid() && t.config.oracle == ORACLE && ConfigOk(t.config)
    && |t.derivatives| == k
    && t.WalletOf(A1) >= floor && t.WalletOf(A2) >= floor
    && t.WalletOf(A3) >= floor && t.WalletOf(A4) >= floor
  }

  method Deploy(cfg: Config) returns (t: BtcGasToken)
    requires ConfigOk(cfg) && cfg.oracle == ORACLE
    ensures fresh(t) && Ready(t, 0, FUNDS) && t.log == [] && t.config == cfg
  {
    t := new BtcGasToken(cfg, map[A1 := FUNDS, A2 := FUNDS, A3 := FUNDS, A4 := FUNDS]);
  }

  /** A mint by A1 of the standard terms that the guards accept. */
  method MintStandard(t: BtcGasToken, height: nat, block: nat, ghost k: nat, ghost floor: nat) returns (id: nat)
    requires Ready(t, k, floor) && floor >= STAKE && !Exceeds(t.config.mintTooLate, block, height)
    modifies t
    ensures Ready(t, k + 1, floor - STAKE) && id == k
    ensures t.derivatives[id] == Derivative(TestTerms(height), Open)
    ensures t.log == old(t.log) + [DerivativeCreated(id, TestTerms(height))]
    ensures t.wallets == Debit(old(t.wallets), A1, STAKE) && t.pending == old(t.pending)
  {
    var ok;
    ok, id := t.Mint(A1, STAKE, MATCH, PRICE, height, block);
  }

  /** A take by `taker` of derivative `id` that the guards accept. */
  method TakeStandard(t: BtcGasToken, taker: Address, id: nat, block: nat, ghost k: nat, ghost floor: nat)
    requires Ready(t, k, floor) && floor >= MATCH && id < k && t.derivatives[id].phase.Open?
    requires t.WalletOf(taker) >= MATCH && t.derivatives[id].terms.takerAmount == MATCH
    requires !Exceeds(t.config.takeTooLate, block, t.derivatives[id].terms.triggerHeight)
    modifies t
    ensures Ready(t, k, floor - MATCH)
    ensures t.derivatives[id] == Derivative(old(t.derivatives[id].terms), Taken(taker))
    ensures t.log == old(t.log) + [DerivativeTaken(id, old(t.derivatives[id].terms), taker)]
    ensures t.wallets == Debit(old(t.wallets), taker, MATCH) && t.pending == old(t.pending)
  {
    var ok := t.Take(taker, id, MATCH, block);
  }

  // rudimentaryFunctionality.js

  /** Minting gives id 0 and supply 1 with the DerivativeCreated event. */
  method FirstMint(t: BtcGasToken) returns (supply: nat)
    requires Ready(t, 0, FUNDS) && t.log == []
    modifies t
    ensures supply == 1 && Ready(t, 1, FUNDS - STAKE)
    ensures t.log == [DerivativeCreated(0, TestTerms(2254128))]
  {
    var id := MintStandard(t, 2254128, 101, 0, FUNDS);
    supply := t.TotalSupply();
  }

  /** A second mint gets id 1, and A2 takes it with the DerivativeTaken event. */
  method MintAndTake(t: BtcGasToken)
    requires Ready(t, 1, FUNDS - STAKE)
    modifies t
    ensures Ready(t, 2, FUNDS - 2 * STAKE - MATCH)
    ensures t.log == old(t.log) + [DerivativeCreated(1, TestTerms(1101)), DerivativeTaken(1, TestTerms(1101), A2)]
  {
    var id := MintStandard(t, 1101, 102, 1, FUNDS - STAKE);
    TakeStandard(t, A2, id, 103, 2, FUNDS - 2 * STAKE);
  }

  /** A third mint gets id 2, and its maker cancels it with the DerivativeCanceled event. */
  method MintAndCancel(t: BtcGasToken)
    requires Ready(t, 2, FUNDS - 2 * STAKE - MATCH)
    modifies t
    ensures t.log == old(t.log) + [DerivativeCreated(2, TestTerms(113)), DerivativeCanceled(2, TestTerms(113))]
  {
    var id := MintStandard(t, 113, 104, 2, FUNDS - 2 * STAKE - MATCH);
    var ok := t.Cancel(A1, id);
  }

  /**
    The rudimentary functionality suite: the token's name and symbol; the
    first mint makes the supply 1; ids are handed out 0, 1, 2; take and
    cancel log the derivative's unchanged terms.
  */
  method RudimentaryTrace(cfg: Config) returns (name: string, symbol: string, supply: nat, events: seq<Event>)
    requires ConfigOk(cfg) && cfg.oracle == ORACLE
    ensures name == "BTCFees by gastoken.io" && symbol == "BTCF" && supply == 1
    ensures events == [DerivativeCreated(0, TestTerms(2254128)),
                       DerivativeCreated(1, TestTerms(1101)), DerivativeTaken(1, TestTerms(1101), A2),
                       DerivativeCreated(2, TestTerms(113)), DerivativeCanceled(2, TestTerms(113))]
  {
    name, symbol := NAME, SYMBOL;
    var t := Deploy(cfg);
    supply := FirstMint(t);
    MintAndTake(t);
    MintAndCancel(t);
    events := t.log;
  }

  // inputSanitization.js

  /** What one test of the suite may spend from each account, at most. */
  const STEP: nat := 100_000_000_000_000_000

  /** id 0 is minted; A2, who is not its maker, cannot cancel it. */
  method CancelByOther(t: BtcGasToken) returns (id: nat, refused: bool)
    requires Ready(t, 0, FUNDS)
    modifies t
    ensures Ready(t, 1, FUNDS - STEP) && id == 0 && refused
    ensures t.derivatives[0] == Derivative(TestTerms(110), Open)
  {
    id := MintStandard(t, 110, 101, 0, FUNDS);
    var ok := t.Cancel(A2, id);
    refused := !ok;
  }

  /** Once A2 has taken id 0, not even its maker can cancel it; nor can anyone cancel an unknown id. */
  method CancelTakenOrMissing(t: BtcGasToken) returns (refused: seq<bool>)
    requires Ready(t, 1, FUNDS - STEP) && t.derivatives[0] == Derivative(TestTerms(110), Open)
    modifies t
    ensures Ready(t, 1, FUNDS - 2 * STEP) && refused == [true, true]
  {
    TakeStandard(t, A2, 0, 103, 1, FUNDS - STEP);
    var ok1 := t.Cancel(A1, 0);
    var ok2 := t.Cancel(A2, 5000000);
    refused := [!ok1, !ok2];
  }

  /**
    Three mints the guards refuse, consuming no id: 3000 wei is below the
    minimum, the trigger height is in the past, and a taker amount of
    7.4e15 does not exceed the oracle fee. A take of an unknown id fails too.
  */
  method MintRefusals(t: BtcGasToken, ghost k: nat, ghost floor: nat) returns (refused: seq<bool>)
    requires Ready(t, k, floor) && k < 5000000
    modifies t
    ensures Ready(t, k, floor) && refused == [true, true, true, true]
  {
    var ok1, _ := t.Mint(A1, 3000, MATCH, PRICE, 115, 106);
    var ok2, _ := t.Mint(A1, MATCH, MATCH, PRICE, 96, 107);
    var ok3, _ := t.Mint(A1, STAKE, 7_400_000_000_000_000, PRICE, 117, 108);
    var ok4 := t.Take(A2, 5000000, 0, 109);
    refused := [!ok1, !ok2, !ok3, !ok4];
  }

  /** id 1 cannot be taken once the block is past its trigger height (two blocks are mined in between). */
  method TakeTooLate(t: BtcGasToken) returns (id: nat, refused: bool)
    requires Ready(t, 1, FUNDS - 2 * STEP)
    modifies t
    ensures Ready(t, 2, FUNDS - 3 * STEP) && id == 1 && refused
  {
    id := MintStandard(t, 111, 110, 1, FUNDS - 2 * STEP);
    var ok := t.Take(A2, id, MATCH, 113);
    refused := !ok;
  }

  /** id 2 cannot be taken twice, and id 3 not for less than its taker amount. */
  method TakeTwiceOrShort(t: BtcGasToken) returns (ids: seq<nat>, refused: seq<bool>)
    requires Ready(t, 2, FUNDS - 3 * STEP)
    modifies t
    ensures Ready(t, 4, FUNDS - 4 * STEP) && ids == [2, 3] && refused == [true, true]
  {
    var id2 := MintStandard(t, 118, 114, 2, FUNDS - 3 * STEP);
    TakeStandard(t, A2, id2, 115, 3, FUNDS - 3 * STEP - STAKE);
    var ok1 := t.Take(A2, id2, MATCH, 116);
    var id3 := MintStandard(t, 126, 117, 3, FUNDS - 3 * STEP - STAKE - MATCH);
    var ok2 := t.Take(A2, id3, 10, 118);
    ids, refused := [id2, id3], [!ok1, !ok2];
  }

  /**
    id 4 is taken and settled two mined blocks after its trigger height, after
    which nobody can take it; an unknown id cannot be settled.
  */
  method TakeSettledOrSettleMissing(t: BtcGasToken) returns (id: nat, settled: bool, refused: seq<bool>)
    requires Ready(t, 4, FUNDS - 4 * STEP)
    modifies t
    ensures Ready(t, 5, FUNDS - 5 * STEP) && id == 4 && settled && refused == [true, true]
  {
    id := MintStandard(t, 121, 119, 4, FUNDS - 4 * STEP);
    TakeStandard(t, A2, id, 120, 5, FUNDS - 4 * STEP - STAKE);
    settled := t.Settle(id, 123, 2);
    var ok1 := t.Take(A3, id, MATCH, 124);
    var ok2 := t.Settle(303423, 125, 2);
    refused := [!ok1, !ok2];
  }

  /** id 5 cannot be settled before its trigger height, id 6 not before it is taken. */
  method SettleEarlyOrUntaken(t: BtcGasToken) returns (ids: seq<nat>, refused: seq<bool>)
    requires Ready(t, 5, FUNDS - 5 * STEP)
    modifies t
    ensures Ready(t, 7, FUNDS - 6 * STEP) && ids == [5, 6] && refused == [true, true]
  {
    var id5 := MintStandard(t, 5000, 126, 5, FUNDS - 5 * STEP);
    TakeStandard(t, A2, id5, 127, 6, FUNDS - 5 * STEP - STAKE);
    var ok1 := t.Settle(id5, 128, 2);
    var id6 := MintStandard(t, 130, 129, 6, FUNDS - 5 * STEP - STAKE - MATCH);
    var ok2 := t.Settle(id6, 133, 2);
    ids, refused := [id5, id6], [!ok1, !ok2];
  }

  /** id 7 is settled once and cannot be settled again; only the oracle may answer a request. */
  method SettleTwiceOrForeignAnswer(t: BtcGasToken) returns (id: nat, settled: bool, refused: seq<bool>)
    requires Ready(t, 7, FUNDS - 6 * STEP)
    modifies t
    ensures id == 7 && settled && refused == [true, true]
  {
    id := MintStandard(t, 136, 134, 7, FUNDS - 6 * STEP);
    TakeStandard(t, A2, id, 135, 8, FUNDS - 6 * STEP - STAKE);
    settled := t.Settle(id, 137, 2);
    var ok1 := t.Settle(id, 138, 2);
    var ok2 := t.PriceCallback(A0, 2, 0, 4);
    refused := [!ok1, !ok2];
  }

  /** The first half of the suite: cancels and refused mints. */
  method CancelsAndMints(t: BtcGasToken) returns (ids: seq<nat>, refused: seq<bool>)
    requires Ready(t, 0, FUNDS)
    modifies t
    ensures Ready(t, 2, FUNDS - 3 * STEP) && ids == [0, 1]
    ensures refused == [true, true, true, true, true, true, true, true]
  {
    var id0, r0 := CancelByOther(t);
    var r1 := CancelTakenOrMissing(t);
    var r2 := MintRefusals(t, 1, FUNDS - 2 * STEP);
    var id1, r3 := TakeTooLate(t);
    ids, refused := [id0, id1], [r0] + r1 + r2 + [r3];
  }

  /** The second half of the suite: takes and settles. */
  method TakesAndSettles(t: BtcGasToken) returns (ids: seq<nat>, settled: seq<bool>, refused: seq<bool>)
    requires Ready(t, 2, FUNDS - 3 * STEP)
    modifies t
    ensures ids == [2, 3, 4, 5, 6, 7] && settled == [true, true]
    ensures refused == [true, true, true, true, true, true, true, true]
  {
    var ids23, r4 := TakeTwiceOrShort(t);
    var id4, s4, r5 := TakeSettledOrSettleMissing(t);
    var ids56, r6 := SettleEarlyOrUntaken(t);
    var id7, s7, r7 := SettleTwiceOrForeignAnswer(t);
    ids, settled, refused := ids23 + [id4] + ids56 + [id7], [s4, s7], r4 + r5 + r6 + r7;
  }

  /**
    The input sanitization suite: every call the suite expects to revert is
    refused, the accepted settles go through, and the refused mints consume
    no id, so the accepted ones get 0 to 7 in order.
  */
  method SanitizationTrace(cfg: Config) returns (ids: seq<nat>, settled: seq<bool>, refused: seq<bool>)
    requires ConfigOk(cfg) && cfg.oracle == ORACLE
    ensures ids == [0, 1, 2, 3, 4, 5, 6, 7]
    ensures settled == [true, true]
    ensures |refused| == 16 && forall i :: 0 <= i < |refused| ==> refused[i]
  {
    var t := Deploy(cfg);
    var ids1, refused1 := CancelsAndMints(t);
    var ids2, refused2;
    ids2, settled, refused2 := TakesAndSettles(t);
    ids, refused := ids1 + ids2, refused1 + refused2;
  }

  // moneyHandling.js

  /** The request id the mock oracle hands out, and the price it reports. */
  const MOCK_REQUEST: nat := 2
  const MOCK_PRICE: nat := 52

  /** The terms of the error tests: A3 stakes 1 ether against 2 ether. */
  function BigTerms(height: nat): Terms
  {
    Terms(A3, 1_000_000_000_000_000_000, 2_000_000_000_000_000_000, PRICE, height)
  }

  /**
    Maker wins (trigger price 50000 above the reported 52): minting costs
    the maker the stake, taking costs the taker the taker amount; settling
    logs the oracle request, and the answer pays the maker both amounts
    less the oracle fee while the taker gets nothing. Settle runs in the
    block that equals the trigger height.
  */
  method MakerWinsCase(t: BtcGasToken) returns (mintCost: int, takeCost: int, makerGain: int, takerGain: int, status: Event)
    requires Ready(t, 0, FUNDS) && t.pending == map[]
    modifies t
    ensures Ready(t, 1, FUNDS - STEP) && t.pending == map[]
    ensures mintCost == STAKE && takeCost == MATCH && status == RequestStatus(2)
    ensures makerGain == STAKE + MATCH - ORACLE_FEE && takerGain == 0
  {
    var maker0: int, taker0: int := t.WalletOf(A1), t.WalletOf(A2);
    var id := MintStandard(t, 103, 101, 0, FUNDS);
    var maker1: int := t.WalletOf(A1);
    TakeStandard(t, A2, id, 102, 1, FUNDS - STAKE);
    var taker1: int := t.WalletOf(A2);
    var ok := t.Settle(id, 103, MOCK_REQUEST);
    status := t.log[|t.log| - 1];
    ok := t.PriceCallback(ORACLE, MOCK_REQUEST, 0, MOCK_PRICE);
    assert t.pending == map[];
    mintCost, takeCost := maker0 - maker1, taker0 - taker1;
    makerGain, takerGain := t.WalletOf(A1) - maker1, t.WalletOf(A2) - taker1;
  }

  /**
    Taker wins (trigger price 40 below the reported 52): the answer pays
    the taker both amounts less the oracle fee and leaves the maker as
    after minting. Settle again runs at exactly the trigger height.
  */
  method TakerWinsCase(t: BtcGasToken) returns (mintCost: int, takeCost: int, makerGain: int, takerGain: int)
    requires Ready(t, 1, FUNDS - STEP) && t.pending == map[]
    modifies t
    ensures Ready(t, 2, FUNDS - 2 * STEP) && t.pending == map[]
    ensures mintCost == STAKE && takeCost == MATCH
    ensures makerGain == 0 && takerGain == STAKE + MATCH - ORACLE_FEE
  {
    var maker0: int, taker0: int := t.WalletOf(A1), t.WalletOf(A2);
    var ok, id := t.Mint(A1, STAKE, MATCH, 40, 108, 106);
    var maker1: int := t.WalletOf(A1);
    TakeStandard(t, A2, id, 107, 2, FUNDS - STEP - STAKE);
    var taker1: int := t.WalletOf(A2);
    ok := t.Settle(id, 108, MOCK_REQUEST);
    ok := t.PriceCallback(ORACLE, MOCK_REQUEST, 0, MOCK_PRICE);
    assert t.pending == map[];
    mintCost, takeCost := maker0 - maker1, taker0 - taker1;
    makerGain, takerGain := t.WalletOf(A1) - maker1, t.WalletOf(A2) - taker1;
  }

  /**
    The oracle refuses the request with `code`. The test starts at block
    `bn`: the mint in bn+1 sets trigger height bn+3, the take is in bn+2,
    the mock is switched to failing in bn+3 and the taker settles in bn+4.
    Settling logs DerivativeError with the code, the maker gets the stake
    back in full and the taker gets the taker amount less the oracle fee.
    The mock's later answer finds no open request and has no effect: the
    gains are measured after it.
  */
  method ErrorCase(t: BtcGasToken, code: int, k: nat, bn: nat, ghost floor: nat)
    returns (makerGain: int, takerGain: int, event: Event, lateAnswer: bool)
    requires Ready(t, k, floor) && floor >= 3_000_000_000_000_000_000 && t.pending == map[] && code < 0
    modifies t
    ensures Ready(t, k + 1, floor - 3_000_000_000_000_000_000) && t.pending == map[]
    ensures event == DerivativeError(k, BigTerms(bn + 3), A4, code) && !lateAnswer
    ensures makerGain == 1_000_000_000_000_000_000 && takerGain == 2_000_000_000_000_000_000 - ORACLE_FEE
  {
    var ok, id := t.Mint(A3, 1_000_000_000_000_000_000, 2_000_000_000_000_000_000, PRICE, bn + 3, bn + 1);
    ok := t.Take(A4, id, 2_000_000_000_000_000_000, bn + 2);
    var maker0: int, taker0: int := t.WalletOf(A3), t.WalletOf(A4);
    ok := t.Settle(id, bn + 4, code);
    event := t.log[|t.log| - 1];
    lateAnswer := t.PriceCallback(ORACLE, MOCK_REQUEST, 0, MOCK_PRICE);
    makerGain, takerGain := t.WalletOf(A3) - maker0, t.WalletOf(A4) - taker0;
  }

  /**
    The money handling suite: the maker pays exactly the stake and the
    taker exactly the taker amount; the winner of a settled derivative gets
    both amounts less the 7.5e15 wei oracle fee; an oracle error (-252, or
    the upgraded-contract code) refunds the maker in full and the taker
    less the fee.
  */
  method MoneyTrace(cfg: Config) returns (costs: seq<int>, makerWins: (int, int), takerWins: (int, int),
                                          errors: seq<(int, int)>, errorEvents: seq<Event>)
    requires ConfigOk(cfg) && cfg.oracle == ORACLE
    ensures costs == [STAKE, MATCH, STAKE, MATCH]
    ensures makerWins == (22_500_000_000_000_000, 0) && takerWins == (0, 22_500_000_000_000_000)
    ensures errors == [(1_000_000_000_000_000_000, 1_992_500_000_000_000_000),
                       (1_000_000_000_000_000_000, 1_992_500_000_000_000_000)]
    ensures errorEvents == [DerivativeError(2, BigTerms(113), A4, -252),
                            DerivativeError(3, BigTerms(118), A4, -1152921504606847000)]
  {
    var t := Deploy(cfg);
    var mint1, take1, maker1, taker1, _ := MakerWinsCase(t);
    var mint2, take2, maker2, taker2 := TakerWinsCase(t);
    var maker3, taker3, event3, _ := ErrorCase(t, -252, 2, 110, FUNDS - 2 * STEP);
    var maker4, taker4, event4, _ := ErrorCase(t, -1152921504606847000, 3, 115, FUNDS - 2 * STEP - 3_000_000_000_000_000_000);
    costs := [mint1, take1, mint2, take2];
    makerWins, takerWins := (maker1, taker1), (maker2, taker2);
    errors := [(maker3, taker3), (maker4, taker4)];
    errorEvents := [event3, event4];
  }
}
