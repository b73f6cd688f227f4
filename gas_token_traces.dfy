/**
  The scenarios the generic ERC20 and gas-token test suites drive, replayed
  on a fresh token of either variant, with what each step must observe
  stated as postconditions. Each scenario is cut into stages of a few calls;
  a stage states the balances and allowances the next one starts from.
*/
module GasTokenTraces {
  import opened Words
  import opened Storage
  import opened Pool
  import opened Ledger
  import InputCost

  /** Accounts of the test chain, the token's own address and the suites' helper contract. */
  const A0: Address := 0
  const A1: Address := 1
  const A2: Address := 2
  const A3: Address := 3
  const HELPER: Address := 4
  const TOKEN: Address := 0xb3f879cb30fe243b4dfee438691c04

  /** The start gas the test chain gives a transaction unless a test says otherwise. */
  const STARTGAS: nat := 3_141_592

  /** The start gas the scaling and refund tests pass explicitly. */
  const BIG_GAS: nat := 100_000_000_000_000_000_000

  /** Every mint the scenarios make fits their start gas. */
  lemma MintCostBound(v: Variant, x: u256)
    ensures MintCost(v, x) <= 34513 + 36543 * x
  {
  }

  /** A mint of x > 0 tokens needs at least the per-token cost of the cheaper variant for each. */
  lemma MintCostAtLeast(v: Variant, x: u256)
    requires x >= 1
    ensures MintCost(v, x) >= 20046 * x
  {
  }

  /**
    The default start gas pays for a mint of up to 85 tokens on either
    variant, and not for a GST2 mint of 86.
  */
  lemma DefaultGasLimit(v: Variant, x: u256)
    requires x <= 85
    ensures MintCost(v, x) <= STARTGAS
    ensures MintCost(GST2(ETH), 86) > STARTGAS && MintCost(GST2(ETC), 86) > STARTGAS
  {
    MintCostBound(v, x);
  }

  /**
    A mint at the default start gas that the gas pays for and whose counter
    stays within a word goes through: the caller's balance, the supply and
    the pool grow by amount and nothing else changes.
  */
  method DefaultMint(t: GasToken, caller: Address, amount: u256)
    requires t.Valid() && MintCost(t.variant, amount) <= STARTGAS && t.MintCounter() + amount <= MAX_UINT256
    modifies t
    ensures t.Valid()
    ensures t.totalSupply == old(t.totalSupply) + amount
    ensures old(t.BalanceOf(caller)) + amount <= MAX_UINT256
    ensures t.balances == Put(old(t.balances), caller, old(t.BalanceOf(caller)) + amount)
    ensures t.pool == Allocate(old(t.pool), amount) && t.MintCounter() == old(t.MintCounter()) + amount
    ensures t.allowances == old(t.allowances) && t.log == old(t.log)
  {
    var r := t.Mint(caller, amount, STARTGAS);
  }

  /** The same at the 10^20 start gas the scaling and refund tests pass, for up to 10^6 tokens. */
  method BigGasMint(t: GasToken, caller: Address, amount: u256)
    requires t.Valid() && amount <= 1_000_000 && t.MintCounter() + amount <= MAX_UINT256
    modifies t
    ensures t.Valid()
    ensures t.totalSupply == old(t.totalSupply) + amount
    ensures old(t.BalanceOf(caller)) + amount <= MAX_UINT256
    ensures t.balances == Put(old(t.balances), caller, old(t.BalanceOf(caller)) + amount)
    ensures t.pool == Allocate(old(t.pool), amount) && t.MintCounter() == old(t.MintCounter()) + amount
    ensures t.allowances == old(t.allowances) && t.log == old(t.log)
  {
    MintCostBound(t.variant, amount);
    var r := t.Mint(caller, amount, BIG_GAS);
  }

  /** A deployed token in the state every call keeps, on which at most `minted` tokens were ever minted. */
  ghost predicate Ready(t: GasToken, minted: nat)
    reads t
  {
    t.Valid() && t.MintCounter() <= minted
  }

  /** A fresh token of variant v, ready for a scenario. */
  method Deploy(v: Variant) returns (t: GasToken)
    ensures fresh(t) && Ready(t, 0) && t.variant == v
    ensures t.totalSupply == 0 && t.balances == map[] && t.allowances == map[] && t.log == []
  {
    t := new GasToken(v, TOKEN);
  }

  /** A fresh ledger: supply 0 and every balance and allowance 0. */
  method FreshLedger(v: Variant, owner: Address, spender: Address)
    returns (supply: nat, balance: nat, allowance: nat, words: nat)
    ensures supply == 0 && balance == 0 && allowance == 0 && words == 0
  {
    var t := new GasToken(v, TOKEN);
    supply, balance, allowance, words := t.totalSupply, t.BalanceOf(owner), t.Allowance(owner, spender), t.StorageWords();
  }

  // Mint and free, total supply

  /** A1 mints 2 and frees 1; the supply follows the balance. */
  method MintTwoFreeOne(t: GasToken) returns (free: bool, supplies: seq<nat>)
    requires Ready(t, 0) && t.BalanceOf(A1) == 0
    modifies t
    ensures Ready(t, 2) && t.totalSupply == 1 && t.BalanceOf(A1) == 1 && t.BalanceOf(A2) == 0
    ensures free && supplies == [2, 1]
  {
    GetBelowSum(t.balances, A2);
    DefaultGasLimit(t.variant, 2);
    DefaultMint(t, A1, 2);
    var s1 := t.totalSupply;
    assert s1 == 2 && t.BalanceOf(A1) == 2;
    var outcome, _ := t.Free(A1, 1, {});
    free := outcome;
    supplies := [s1, t.totalSupply];
  }

  /** A1 frees its last token; a further free finds the balance empty. */
  method FreeLastThenEmpty(t: GasToken) returns (frees: seq<bool>, supplies: seq<nat>)
    requires Ready(t, 2) && t.totalSupply == 1 && t.BalanceOf(A1) == 1 && t.BalanceOf(A2) == 0
    modifies t
    ensures Ready(t, 2) && t.totalSupply == 0 && t.BalanceOf(A1) == 0 && t.BalanceOf(A2) == 0
    ensures frees == [true, false] && supplies == [0, 0]
  {
    var f1, _ := t.Free(A1, 1, {});
    var s1 := t.totalSupply;
    assert f1 && s1 == 0 && t.BalanceOf(A1) == 0 && t.BalanceOf(A2) == 0;
    var f2, _ := t.Free(A1, 1, {});
    frees, supplies := [f1, f2], [s1, t.totalSupply];
  }

  /** A2 mints 0; freeing 1 then fails and freeing 0 succeeds, supply and balance staying 0. */
  method ZeroMintAndFrees(t: GasToken) returns (frees: seq<bool>, supplies: seq<nat>, balance: nat)
    requires Ready(t, 2) && t.totalSupply == 0 && t.BalanceOf(A2) == 0
    modifies t
    ensures frees == [false, true] && supplies == [0, 0, 0] && balance == 0
  {
    DefaultGasLimit(t.variant, 0);
    DefaultMint(t, A2, 0);
    var s1 := t.totalSupply;
    assert s1 == 0 && t.BalanceOf(A2) == 0;
    var f1, _ := t.Free(A2, 1, {});
    var s2 := t.totalSupply;
    assert !f1 && s2 == 0 && t.BalanceOf(A2) == 0;
    var f2, _ := t.Free(A2, 0, {});
    frees, supplies, balance := [f1, f2], [s1, s2, t.totalSupply], t.BalanceOf(A2);
  }

  /**
    Mint 2, free 1 twice, free on an empty balance; then a mint of 0, a free
    of 1 that fails and a free of 0 that succeeds, all without moving supply.
  */
  method MintAndFree(v: Variant) returns (frees: seq<bool>, supplies: seq<nat>)
    ensures frees == [true, true, false, false, true]
    ensures supplies == [2, 1, 0, 0, 0, 0, 0]
  {
    var t := Deploy(v);
    var free1, supplies1 := MintTwoFreeOne(t);
    var frees2, supplies2 := FreeLastThenEmpty(t);
    var frees3, supplies3, _ := ZeroMintAndFrees(t);
    frees, supplies := [free1] + frees2 + frees3, supplies1 + supplies2 + supplies3;
  }

  /** The supply after a mint, two frees, a failed free and a mint of 0. */
  method TotalSupplyTrace(v: Variant) returns (supplies: seq<nat>)
    ensures supplies == [0, 2, 1, 0, 0, 0]
  {
    var t := Deploy(v);
    var s0 := t.totalSupply;
    var _, supplies1 := MintTwoFreeOne(t);
    var _, supplies2 := FreeLastThenEmpty(t);
    DefaultGasLimit(t.variant, 0);
    DefaultMint(t, A1, 0);
    supplies := [s0] + supplies1 + supplies2 + [t.totalSupply];
  }

  // transfer

  /** A2's free fails on an empty balance; A1 mints 2 and frees 1. */
  method TransferOpening(t: GasToken) returns (results: seq<bool>)
    requires Ready(t, 0) && t.BalanceOf(A1) == 0 && t.BalanceOf(A2) == 0
    modifies t
    ensures Ready(t, 2) && t.BalanceOf(A1) == 1 && t.BalanceOf(A2) == 0
    ensures results == [false, true]
  {
    var r1, _ := t.Free(A2, 1, {});
    assert !r1 && t.BalanceOf(A1) == 0 && t.BalanceOf(A2) == 0 && t.MintCounter() == 0;
    DefaultGasLimit(t.variant, 2);
    DefaultMint(t, A1, 2);
    assert t.BalanceOf(A1) == 2 && t.BalanceOf(A2) == 0;
    var r2, _ := t.Free(A1, 1, {});
    results := [r1, r2];
  }

  /** A1 sends its token to A2, after which only A2 can free it. */
  method TransferMiddle(t: GasToken) returns (results: seq<bool>)
    requires Ready(t, 2) && t.BalanceOf(A1) == 1 && t.BalanceOf(A2) == 0
    modifies t
    ensures Ready(t, 2) && t.BalanceOf(A1) == 0 && t.BalanceOf(A2) == 0
    ensures results == [true, false, true]
  {
    var r1 := t.Transfer(A1, A2, 1);
    assert r1 && t.BalanceOf(A1) == 0 && t.BalanceOf(A2) == 1;
    var r2, _ := t.Free(A1, 1, {});
    var r3, _ := t.Free(A2, 1, {});
    results := [r1, r2, r3];
  }

  /** With A2's balance gone, freeing and sending 1 fail and sending 0 succeeds. */
  method TransferClosing(t: GasToken) returns (results: seq<bool>)
    requires Ready(t, 2) && t.BalanceOf(A2) == 0
    modifies t
    ensures results == [false, false, true]
  {
    var r1, _ := t.Free(A2, 1, {});
    var r2 := t.Transfer(A2, A1, 1);
    var r3 := t.Transfer(A2, A1, 0);
    results := [r1, r2, r3];
  }

  /** Transfers only move covered amounts; a zero transfer always succeeds. */
  method TransferTrace(v: Variant) returns (results: seq<bool>)
    ensures results == [false, true, true, false, true, false, false, true]
  {
    var t := Deploy(v);
    var opening := TransferOpening(t);
    var middle := TransferMiddle(t);
    var closing := TransferClosing(t);
    results := opening + middle + closing;
  }

  // transferFrom and allowance

  /** A2's free fails on an empty balance; A1 and A2 mint 1 each. */
  method TransferFromOpening(t: GasToken) returns (free: bool)
    requires Ready(t, 0) && t.BalanceOf(A1) == 0 && t.BalanceOf(A2) == 0
    modifies t
    ensures Ready(t, 2) && t.BalanceOf(A1) == 1 && t.BalanceOf(A2) == 1
    ensures t.allowances == old(t.allowances)
    ensures !free
  {
    var outcome, _ := t.Free(A2, 1, {});
    free := outcome;
    assert t.BalanceOf(A1) == 0 && t.BalanceOf(A2) == 0 && t.MintCounter() == 0;
    DefaultGasLimit(t.variant, 1);
    DefaultMint(t, A1, 1);
    DefaultGasLimit(t.variant, 1);
    DefaultMint(t, A2, 1);
  }

  /** A1 frees its token; A2, with no allowance, can move 0 of A1's tokens but not 1. */
  method TransferFromUnapproved(t: GasToken) returns (results: seq<bool>)
    requires Ready(t, 2) && t.BalanceOf(A1) == 1 && t.BalanceOf(A2) == 1 && t.Allowance(A1, A2) == 0
    modifies t
    ensures Ready(t, 2) && t.BalanceOf(A1) == 0 && t.BalanceOf(A2) == 1
    ensures t.allowances == old(t.allowances)
    ensures results == [true, false, true]
  {
    var r1, _ := t.Free(A1, 1, {});
    assert t.BalanceOf(A1) == 0 && t.BalanceOf(A2) == 1;
    var r2 := t.TransferFrom(A2, A1, A3, 1);
    var r3 := t.TransferFrom(A2, A1, A3, 0);
    results := [r1, r2, r3];
  }

  /** A1's approval of A2 is not one of A2 for A1; a stranger's transferFrom of A2's token fails. */
  method TransferFromWrongPair(t: GasToken) returns (results: seq<bool>, allowances: seq<nat>, balance: nat)
    requires Ready(t, 2) && t.BalanceOf(A2) == 1
    requires t.Allowance(A1, A2) == 0 && t.Allowance(A2, A1) == 0 && t.Allowance(A2, A3) == 0
    modifies t
    ensures Ready(t, 2) && t.BalanceOf(A2) == 1 && t.Allowance(A2, A1) == 0
    ensures results == [true, false] && allowances == [1, 0] && balance == 1
  {
    var r1 := t.Approve(A1, A2, 1);
    allowances := [t.Allowance(A1, A2), t.Allowance(A2, A1)];
    var r2 := t.TransferFrom(A3, A2, A3, 1);
    results, balance := [r1, r2], t.BalanceOf(A2);
  }

  /** Once A2 approves A1, A1 moves A2's token, and that spends the allowance. */
  method TransferFromApproved(t: GasToken) returns (results: seq<bool>, allowance: nat)
    requires Ready(t, 2) && t.BalanceOf(A2) == 1 && t.Allowance(A2, A1) == 0
    modifies t
    ensures Ready(t, 2) && t.BalanceOf(A2) == 0 && t.Allowance(A2, A1) == 0
    ensures results == [true, true] && allowance == 0
  {
    var r1 := t.Approve(A2, A1, 1);
    assert t.BalanceOf(A2) == 1 && t.Allowance(A2, A1) == 1;
    var r2 := t.TransferFrom(A1, A2, A3, 1);
    results, allowance := [r1, r2], t.Allowance(A2, A1);
  }

  /** A re-granted allowance is useless without balance; a mint leaves the allowance alone. */
  method TransferFromRegrant(t: GasToken) returns (results: seq<bool>, allowances: seq<nat>)
    requires Ready(t, 2) && t.BalanceOf(A2) == 0 && t.Allowance(A2, A1) == 0
    modifies t
    ensures Ready(t, 3) && t.BalanceOf(A2) == 1 && t.Allowance(A2, A1) == 1
    ensures results == [true, false] && allowances == [1, 1]
  {
    var r1 := t.Approve(A2, A1, 1);
    var a1 := t.Allowance(A2, A1);
    var r2 := t.TransferFrom(A1, A2, A3, 1);
    assert a1 == 1 && t.BalanceOf(A2) == 0 && t.Allowance(A2, A1) == 1;
    DefaultGasLimit(t.variant, 1);
    DefaultMint(t, A2, 1);
    results, allowances := [r1, r2], [a1, t.Allowance(A2, A1)];
  }

  /** Approving 0 twice leaves 0, and then the balance cannot be moved. */
  method TransferFromZeroApprovals(t: GasToken) returns (results: seq<bool>, allowances: seq<nat>)
    requires Ready(t, 3) && t.BalanceOf(A2) == 1 && t.Allowance(A2, A1) == 1
    modifies t
    ensures Ready(t, 3) && t.Allowance(A2, A1) == 0
    ensures results == [true, true, false] && allowances == [0, 0]
  {
    var r1 := t.Approve(A2, A1, 0);
    var a1 := t.Allowance(A2, A1);
    var r2 := t.Approve(A2, A1, 0);
    var a2 := t.Allowance(A2, A1);
    assert a1 == 0 && a2 == 0;
    var r3 := t.TransferFrom(A1, A2, A3, 1);
    results, allowances := [r1, r2, r3], [a1, a2];
  }

  /** The approval countermeasure: a non-zero allowance cannot be replaced by another. */
  method ApproveCountermeasure(t: GasToken) returns (results: seq<bool>, allowances: seq<nat>)
    requires Ready(t, 3) && t.Allowance(A2, A1) == 0
    modifies t
    ensures Ready(t, 3) && t.Allowance(A2, A1) == 1
    ensures results == [true, false] && allowances == [1, 1]
  {
    var r1 := t.Approve(A2, A1, 1);
    var a1 := t.Allowance(A2, A1);
    var r2 := t.Approve(A2, A1, 2);
    results, allowances := [r1, r2], [a1, t.Allowance(A2, A1)];
  }

  /** Approving 0 and then 5 replaces the allowance. */
  method ApproveByWayOfZero(t: GasToken) returns (results: seq<bool>, allowances: seq<nat>)
    requires Ready(t, 3) && t.Allowance(A2, A1) == 1
    modifies t
    ensures results == [true, true] && allowances == [0, 5]
  {
    var r1 := t.Approve(A2, A1, 0);
    var a1 := t.Allowance(A2, A1);
    var r2 := t.Approve(A2, A1, 5);
    results, allowances := [r1, r2], [a1, t.Allowance(A2, A1)];
  }

  /** The scenario up to the first approved transferFrom, which spends A2's allowance for A1. */
  method TransferFromUntilSpent(t: GasToken)
    returns (opening: seq<bool>, spending: seq<bool>, allowances: seq<nat>, balance: nat)
    requires Ready(t, 0) && t.BalanceOf(A1) == 0 && t.BalanceOf(A2) == 0 && t.allowances == map[]
    modifies t
    ensures Ready(t, 2) && t.BalanceOf(A2) == 0 && t.Allowance(A2, A1) == 0
    ensures opening == [false, true, false, true] && spending == [true, false, true, true]
    ensures allowances == [1, 0, 0] && balance == 1
  {
    var free := TransferFromOpening(t);
    var unapproved := TransferFromUnapproved(t);
    opening := [free] + unapproved;
    var wrongPair, allowances1, b := TransferFromWrongPair(t);
    var approved, allowance2 := TransferFromApproved(t);
    spending, allowances, balance := wrongPair + approved, allowances1 + [allowance2], b;
  }

  /** The scenario from the re-grant on: zero approvals and the countermeasure. */
  method TransferFromAfterSpent(t: GasToken) returns (approving: seq<bool>, allowances: seq<nat>)
    requires Ready(t, 2) && t.BalanceOf(A2) == 0 && t.Allowance(A2, A1) == 0
    modifies t
    ensures approving == [true, false, true, true, false, true, false, true, true]
    ensures allowances == [1, 1, 0, 0, 1, 1, 0, 5]
  {
    var regrant, allowances1 := TransferFromRegrant(t);
    var zeros, allowances2 := TransferFromZeroApprovals(t);
    var counter, allowances3 := ApproveCountermeasure(t);
    var byZero, allowances4 := ApproveByWayOfZero(t);
    approving := regrant + zeros + counter + byZero;
    allowances := allowances1 + allowances2 + allowances3 + allowances4;
  }

  /**
    transferFrom needs allowance and balance (a zero amount needs neither),
    approvals are per ordered pair, the allowance drops on use, and a
    non-zero allowance is only replaced by way of 0.
  */
  method TransferFromTrace(v: Variant)
    returns (opening: seq<bool>, spending: seq<bool>, approving: seq<bool>, allowances: seq<nat>, balance: nat)
    ensures opening == [false, true, false, true]
    ensures spending == [true, false, true, true]
    ensures approving == [true, false, true, true, false, true, false, true, true]
    ensures allowances == [1, 0, 0, 1, 1, 0, 0, 1, 1, 0, 5]
    ensures balance == 1
  {
    var t := Deploy(v);
    var allowances1, allowances2;
    opening, spending, allowances1, balance := TransferFromUntilSpent(t);
    approving, allowances2 := TransferFromAfterSpent(t);
    allowances := allowances1 + allowances2;
  }

  // Events

  /** The events of the raw-logs scenario, in order. */
  const RAW_LOG: seq<Event> :=
    [Event.Transfer(A1, A2, 1), Event.Transfer(A1, A2, 0),
     Approval(A2, A1, 1), Approval(A3, A2, 0),
     Event.Transfer(A2, A3, 1), Event.Transfer(A2, A3, 0),
     Approval(A3, A2, 2)]

  /** Mint and free log nothing. */
  method RawLogsMintFree(t: GasToken)
    requires Ready(t, 0) && t.totalSupply == 0 && t.log == [] && t.BalanceOf(A1) == 0 && t.BalanceOf(A2) == 0
    modifies t
    ensures Ready(t, 2) && t.totalSupply == 1 && t.log == []
    ensures t.BalanceOf(A1) == 1 && t.BalanceOf(A2) == 0 && t.allowances == old(t.allowances)
  {
    GetBelowSum(t.balances, A2);
    DefaultGasLimit(t.variant, 2);
    DefaultMint(t, A1, 2);
    assert t.BalanceOf(A1) == 2 && t.BalanceOf(A2) == 0;
    var f, _ := t.Free(A1, 1, {});
  }

  /** Transfers log one Transfer event each, an amount of 0 included. */
  method RawLogsTransfers(t: GasToken)
    requires Ready(t, 2) && t.BalanceOf(A1) == 1 && t.BalanceOf(A2) == 0
    modifies t
    ensures Ready(t, 2) && t.totalSupply == old(t.totalSupply) && t.allowances == old(t.allowances)
    ensures t.BalanceOf(A1) == 0 && t.BalanceOf(A2) == 1
    ensures t.log == old(t.log) + [Event.Transfer(A1, A2, 1), Event.Transfer(A1, A2, 0)]
  {
    var ok := t.Transfer(A1, A2, 1);
    assert t.BalanceOf(A1) == 0 && t.BalanceOf(A2) == 1;
    ok := t.Transfer(A1, A2, 0);
  }

  /** Approvals log one Approval event each, an amount of 0 included. */
  method RawLogsApprovals(t: GasToken)
    requires Ready(t, 2) && t.Allowance(A2, A1) == 0 && t.Allowance(A3, A2) == 0
    modifies t
    ensures Ready(t, 2) && t.totalSupply == old(t.totalSupply) && t.balances == old(t.balances)
    ensures t.Allowance(A2, A1) == 1 && t.Allowance(A3, A2) == 0
    ensures t.Allowance(A1, A2) == old(t.Allowance(A1, A2))
    ensures t.log == old(t.log) + [Approval(A2, A1, 1), Approval(A3, A2, 0)]
  {
    var ok := t.Approve(A2, A1, 1);
    assert t.Allowance(A3, A2) == 0;
    ok := t.Approve(A3, A2, 0);
  }

  /** transferFrom logs like transfer; the views then read supply 1, balance 0 and allowance 0. */
  method RawLogsTransferFroms(t: GasToken) returns (views: seq<nat>)
    requires Ready(t, 2) && t.totalSupply == 1 && t.BalanceOf(A1) == 0 && t.BalanceOf(A2) == 1
    requires t.Allowance(A2, A1) == 1 && t.Allowance(A1, A2) == 0
    modifies t
    ensures Ready(t, 2) && t.BalanceOf(A1) == 0 && t.BalanceOf(A2) == 0
    ensures t.Allowance(A3, A2) == old(t.Allowance(A3, A2))
    ensures t.log == old(t.log) + [Event.Transfer(A2, A3, 1), Event.Transfer(A2, A3, 0)]
    ensures views == [1, 0, 0]
  {
    var ok := t.TransferFrom(A1, A2, A3, 1);
    assert t.BalanceOf(A1) == 0 && t.BalanceOf(A2) == 0 && t.Allowance(A2, A1) == 0;
    ok := t.TransferFrom(A1, A2, A3, 0);
    views := [t.totalSupply, t.BalanceOf(A1), t.Allowance(A1, A2)];
  }

  /** Failed transfers log nothing; a fresh approval logs once, a refused one not at all. */
  method RawLogsClosing(t: GasToken)
    requires Ready(t, 2) && t.BalanceOf(A1) == 0 && t.BalanceOf(A2) == 0 && t.Allowance(A3, A2) == 0
    modifies t
    ensures t.log == old(t.log) + [Approval(A3, A2, 2)]
  {
    var ok := t.Transfer(A1, A2, 1);
    ok := t.TransferFrom(A1, A2, A3, 1);
    assert t.log == old(t.log) && t.Allowance(A3, A2) == 0;
    ok := t.Approve(A3, A2, 2);
    ok := t.Approve(A3, A2, 3);
  }

  /** The amount each event's data word decodes to, in log order. */
  method LogValues(log: seq<Event>) returns (data: seq<nat>)
    ensures |data| == |log|
    ensures forall j :: 0 <= j < |log| ==> data[j] == log[j].value
  {
    data := [];
    for i := 0 to |log|
      invariant |data| == i
      invariant forall j :: 0 <= j < i ==> data[j] == log[j].value
    {
      var d := BytesToInt(LogData(log[i]));
      data := data + [d];
    }
  }

  /**
    Events: mint and free log nothing; each successful transfer,
    transferFrom and approve logs one event, amounts of 0 included; failed
    calls and views log nothing. Every data word decodes back to its amount.
  */
  method RawLogs(v: Variant) returns (log: seq<Event>, views: seq<nat>, data: seq<nat>)
    ensures log == RAW_LOG
    ensures views == [1, 0, 0]
    ensures data == [1, 0, 1, 0, 1, 0, 2]
  {
    var t := Deploy(v);
    RawLogsMintFree(t);
    RawLogsTransfers(t);
    RawLogsApprovals(t);
    views := RawLogsTransferFroms(t);
    RawLogsClosing(t);
    log := t.log;
    data := LogValues(log);
  }

  // Boundaries

  /** Where the storage array of GST1 slots begins. */
  const STORAGE_LOCATION_ARRAY: nat := 0xFF_FFFF_FFFF

  /** A mint of a huge amount with 10^8 gas rolls back. */
  method HugeMint(t: GasToken, x: u256) returns (m: MintResult)
    requires Ready(t, 0) && t.totalSupply == 0 && x >= 1_000_000
    modifies t
    ensures Ready(t, 0) && t.totalSupply == 0
    ensures m == Reverted(OutOfGas)
  {
    assert MintCost(t.variant, x) > 100_000_000 by { MintCostAtLeast(t.variant, x); }
    m := t.Mint(A1, x, 100_000_000);
  }

  /** No free variant burns a huge amount from an empty balance. */
  method HugeFrees(t: GasToken, x: u256) returns (frees: seq<bool>, freed: seq<nat>)
    requires Ready(t, 0) && t.totalSupply == 0 && x >= 1
    modifies t
    ensures Ready(t, 0) && t.totalSupply == 0
    ensures frees == [false, false] && freed == [0, 0]
  {
    GetBelowSum(t.balances, A1);
    GetBelowSum(t.balances, A0);
    var f1, _ := t.Free(A1, x, {});
    var u1, _ := t.FreeUpTo(A1, x, {});
    GetBelowSum(t.balances, A0);
    var f2, _ := t.FreeFrom(A1, A0, x, {});
    var u2, _ := t.FreeFromUpTo(A1, A0, x, {});
    frees, freed := [f1, f2], [u1, u2];
  }

  /**
    Boundaries: minting (almost) 2^256 tokens with 10^8 gas is rolled back,
    and no free variant can burn such amounts from an empty balance.
  */
  method Boundaries(v: Variant) returns (mints: seq<MintResult>, frees: seq<bool>, freed: seq<nat>)
    ensures mints == [Reverted(OutOfGas), Reverted(OutOfGas), Reverted(OutOfGas)]
    ensures frees == [false, false, false, false, false, false]
    ensures freed == [0, 0, 0, 0, 0, 0]
  {
    var t := Deploy(v);
    var x1, x2, x3 := MAX_UINT256, MAX_UINT256 - STORAGE_LOCATION_ARRAY, MAX_UINT256 - STORAGE_LOCATION_ARRAY - 1;
    var m1 := HugeMint(t, x1);
    var m2 := HugeMint(t, x2);
    var m3 := HugeMint(t, x3);
    var frees1, freed1 := HugeFrees(t, x1);
    var frees2, freed2 := HugeFrees(t, x2);
    var frees3, freed3 := HugeFrees(t, x3);
    mints, frees, freed := [m1, m2, m3], frees1 + frees2 + frees3, freed1 + freed2 + freed3;
  }

  // freeFrom

  /** A free with no allowance burns nothing; A0 mints 20 and lets A1 burn 10. */
  method FreeFromOpening(t: GasToken) returns (result: bool)
    requires Ready(t, 0) && t.BalanceOf(A0) == 0 && t.Allowance(A0, A1) == 0 && t.Allowance(A0, A0) == 0
    modifies t
    ensures Ready(t, 20) && t.BalanceOf(A0) == 20 && t.Allowance(A0, A1) == 10 && t.Allowance(A0, A0) == 0
    ensures result
  {
    var outcome, _ := t.FreeFrom(A1, A0, 0, {});
    result := outcome;
    assert t.BalanceOf(A0) == 0 && t.Allowance(A0, A1) == 0 && t.Allowance(A0, A0) == 0 && t.MintCounter() == 0;
    DefaultGasLimit(t.variant, 20);
    DefaultMint(t, A0, 20);
    var ok := t.Approve(A0, A1, 10);
  }

  /** A1 burns 0, 1 and 4 of A0's tokens, each from balance and allowance alike. */
  method FreeFromSmall(t: GasToken) returns (results: seq<bool>)
    requires Ready(t, 20) && t.BalanceOf(A0) == 20 && t.Allowance(A0, A1) == 10 && t.Allowance(A0, A0) == 0
    modifies t
    ensures Ready(t, 20) && t.BalanceOf(A0) == 15 && t.Allowance(A0, A1) == 5 && t.Allowance(A0, A0) == 0
    ensures results == [true, true, true]
  {
    var r1, _ := t.FreeFrom(A1, A0, 0, {});
    var r2, _ := t.FreeFrom(A1, A0, 1, {});
    assert t.BalanceOf(A0) == 19 && t.Allowance(A0, A1) == 9 && t.Allowance(A0, A0) == 0;
    var r3, _ := t.FreeFrom(A1, A0, 4, {});
    results := [r1, r2, r3];
  }

  /** A1 burns the last 5 of its allowance; A0 has no allowance on itself. */
  method FreeFromRest(t: GasToken) returns (results: seq<bool>)
    requires Ready(t, 20) && t.BalanceOf(A0) == 15 && t.Allowance(A0, A1) == 5 && t.Allowance(A0, A0) == 0
    modifies t
    ensures Ready(t, 20) && t.BalanceOf(A0) == 10 && t.Allowance(A0, A1) == 0 && t.Allowance(A0, A0) == 0
    ensures results == [true, false]
  {
    var r1, _ := t.FreeFrom(A1, A0, 5, {});
    assert t.BalanceOf(A0) == 10 && t.Allowance(A0, A1) == 0 && t.Allowance(A0, A0) == 0;
    var r2, _ := t.FreeFrom(A0, A0, 1, {});
    results := [r1, r2];
  }

  /** A re-granted allowance of 10 burns the remaining 10, and a free of 0 still succeeds. */
  method FreeFromRegrant(t: GasToken) returns (results: seq<bool>)
    requires Ready(t, 20) && t.BalanceOf(A0) == 10 && t.Allowance(A0, A1) == 0 && t.Allowance(A0, A0) == 0
    modifies t
    ensures Ready(t, 20) && t.BalanceOf(A0) == 0 && t.Allowance(A0, A1) == 0 && t.Allowance(A0, A0) == 0
    ensures results == [true, true]
  {
    var ok := t.Approve(A0, A1, 10);
    assert t.BalanceOf(A0) == 10 && t.Allowance(A0, A1) == 10 && t.Allowance(A0, A0) == 0;
    var r1, _ := t.FreeFrom(A1, A0, 10, {});
    var r2, _ := t.FreeFrom(A1, A0, 0, {});
    results := [r1, r2];
  }

  /** With the balance gone, A0's own free fails before and after a new grant to A1. */
  method FreeFromNoBalance(t: GasToken) returns (results: seq<bool>)
    requires Ready(t, 20) && t.BalanceOf(A0) == 0 && t.Allowance(A0, A1) == 0 && t.Allowance(A0, A0) == 0
    modifies t
    ensures Ready(t, 20) && t.BalanceOf(A0) == 0 && t.Allowance(A0, A1) == 10
    ensures results == [false, false]
  {
    var r1, _ := t.FreeFrom(A0, A0, 1, {});
    var ok := t.Approve(A0, A1, 10);
    assert t.BalanceOf(A0) == 0 && t.Allowance(A0, A1) == 10;
    var r2, _ := t.FreeFrom(A0, A0, 1, {});
    results := [r1, r2];
  }

  /** A0 mints 10 more, which A1 burns with the whole allowance. */
  method FreeFromClosing(t: GasToken) returns (result: bool, balance: nat, allowance: nat)
    requires Ready(t, 20) && t.BalanceOf(A0) == 0 && t.Allowance(A0, A1) == 10
    modifies t
    ensures result && balance == 0 && allowance == 0
  {
    DefaultGasLimit(t.variant, 10);
    DefaultMint(t, A0, 10);
    var outcome, _ := t.FreeFrom(A1, A0, 10, {});
    result := outcome;
    balance, allowance := t.BalanceOf(A0), t.Allowance(A0, A1);
  }

  /** The scenario until A1's first allowance is spent. */
  method FreeFromFirstGrant(t: GasToken) returns (results: seq<bool>)
    requires Ready(t, 0) && t.BalanceOf(A0) == 0 && t.allowances == map[]
    modifies t
    ensures Ready(t, 20) && t.BalanceOf(A0) == 10 && t.Allowance(A0, A1) == 0 && t.Allowance(A0, A0) == 0
    ensures results == [true, true, true, true, true, false]
  {
    var r1 := FreeFromOpening(t);
    var results2 := FreeFromSmall(t);
    var results3 := FreeFromRest(t);
    results := [r1] + results2 + results3;
  }

  /** The scenario from the second grant on. */
  method FreeFromLaterGrants(t: GasToken) returns (results: seq<bool>, balance: nat, allowance: nat)
    requires Ready(t, 20) && t.BalanceOf(A0) == 10 && t.Allowance(A0, A1) == 0 && t.Allowance(A0, A0) == 0
    modifies t
    ensures results == [true, true, false, false, true]
    ensures balance == 0 && allowance == 0
  {
    var results1 := FreeFromRegrant(t);
    var results2 := FreeFromNoBalance(t);
    var r3;
    r3, balance, allowance := FreeFromClosing(t);
    results := results1 + results2 + [r3];
  }

  /**
    freeFrom burns exactly the amount from both balance and allowance, 0
    always succeeds, and it fails without allowance or without balance.
  */
  method FreeFromTrace(v: Variant) returns (results: seq<bool>, balance: nat, allowance: nat)
    ensures results == [true, true, true, true, true, false, true, true, false, false, true]
    ensures balance == 0 && allowance == 0
  {
    var t := Deploy(v);
    var results1 := FreeFromFirstGrant(t);
    var results2;
    results2, balance, allowance := FreeFromLaterGrants(t);
    results := results1 + results2;
  }

  // freeUpTo

  /** A0 mints 20; freeing up to 0 burns nothing. */
  method FreeUpToOpening(t: GasToken) returns (freed: nat, balances: seq<nat>)
    requires Ready(t, 0) && t.BalanceOf(A0) == 0
    modifies t
    ensures Ready(t, 20) && t.BalanceOf(A0) == 20
    ensures freed == 0 && balances == [0, 20, 20]
  {
    var b0 := t.BalanceOf(A0);
    DefaultGasLimit(t.variant, 20);
    DefaultMint(t, A0, 20);
    var b1 := t.BalanceOf(A0);
    var outcome, _ := t.FreeUpTo(A0, 0, {});
    freed := outcome;
    balances := [b0, b1, t.BalanceOf(A0)];
  }

  /** Up to 1 burns 1; up to 20 burns the remaining 19; up to 100 then burns nothing. */
  method FreeUpToClosing(t: GasToken) returns (freed: seq<nat>, balances: seq<nat>)
    requires Ready(t, 20) && t.BalanceOf(A0) == 20
    modifies t
    ensures freed == [1, 19, 0] && balances == [19, 0]
  {
    var f1, _ := t.FreeUpTo(A0, 1, {});
    var b1 := t.BalanceOf(A0);
    var f2, _ := t.FreeUpTo(A0, 20, {});
    var b2 := t.BalanceOf(A0);
    assert b1 == 19 && b2 == 0;
    var f3, _ := t.FreeUpTo(A0, 100, {});
    freed, balances := [f1, f2, f3], [b1, b2];
  }

  /** freeUpTo burns and returns the smaller of the request and the balance. */
  method FreeUpToTrace(v: Variant) returns (freed: seq<nat>, balances: seq<nat>)
    ensures freed == [0, 1, 19, 0]
    ensures balances == [0, 20, 20, 19, 0]
  {
    var t := Deploy(v);
    var f1, balances1 := FreeUpToOpening(t);
    var freed2, balances2 := FreeUpToClosing(t);
    freed, balances := [f1] + freed2, balances1 + balances2;
  }

  // freeFromUpTo

  /** With neither balance nor allowance nothing is burnt; then A0 mints 20. */
  method FreeFromUpToOpening(t: GasToken) returns (freed: seq<nat>)
    requires Ready(t, 0) && t.BalanceOf(A0) == 0 && t.Allowance(A0, A1) == 0
    modifies t
    ensures Ready(t, 20) && t.BalanceOf(A0) == 20 && t.Allowance(A0, A1) == 0
    ensures freed == [0, 0]
  {
    var f1, _ := t.FreeFromUpTo(A1, A0, 0, {});
    var f2, _ := t.FreeFromUpTo(A1, A0, 10, {});
    assert t.BalanceOf(A0) == 0 && t.Allowance(A0, A1) == 0 && t.MintCounter() == 0;
    DefaultGasLimit(t.variant, 20);
    DefaultMint(t, A0, 20);
    freed := [f1, f2];
  }

  /** A0 grants A1 9; up to 0 burns nothing and up to 1 burns 1. */
  method FreeFromUpToGrant(t: GasToken) returns (freed: seq<nat>)
    requires Ready(t, 20) && t.BalanceOf(A0) == 20 && t.Allowance(A0, A1) == 0
    modifies t
    ensures Ready(t, 20) && t.BalanceOf(A0) == 19 && t.Allowance(A0, A1) == 8
    ensures freed == [0, 1]
  {
    var ok := t.Approve(A0, A1, 9);
    var f1, _ := t.FreeFromUpTo(A1, A0, 0, {});
    assert t.BalanceOf(A0) == 20 && t.Allowance(A0, A1) == 9;
    var f2, _ := t.FreeFromUpTo(A1, A0, 1, {});
    freed := [f1, f2];
  }

  /** Up to 9 is capped by the allowance of 8; a new grant of 10 is spent whole. */
  method FreeFromUpToSpend(t: GasToken) returns (freed: seq<nat>)
    requires Ready(t, 20) && t.BalanceOf(A0) == 19 && t.Allowance(A0, A1) == 8
    modifies t
    ensures Ready(t, 20) && t.BalanceOf(A0) == 1 && t.Allowance(A0, A1) == 0
    ensures freed == [8, 10]
  {
    var f1, _ := t.FreeFromUpTo(A1, A0, 9, {});
    var ok := t.Approve(A0, A1, 10);
    assert t.BalanceOf(A0) == 11 && t.Allowance(A0, A1) == 10;
    var f2, _ := t.FreeFromUpTo(A1, A0, 10, {});
    freed := [f1, f2];
  }

  /** With the allowance spent nothing is burnt; A0 mints 20 more. */
  method FreeFromUpToSpent(t: GasToken) returns (freed: nat)
    requires Ready(t, 20) && t.BalanceOf(A0) == 1 && t.Allowance(A0, A1) == 0
    modifies t
    ensures Ready(t, 40) && t.BalanceOf(A0) == 21 && t.Allowance(A0, A1) == 0
    ensures freed == 0
  {
    var outcome, _ := t.FreeFromUpTo(A1, A0, 10, {});
    freed := outcome;
    assert t.BalanceOf(A0) == 1 && t.Allowance(A0, A1) == 0;
    DefaultGasLimit(t.variant, 20);
    DefaultMint(t, A0, 20);
  }

  /** Under a grant of 1000, up to 20 burns 20 of the balance of 21. */
  method FreeFromUpToClosing(t: GasToken) returns (freed: nat, balance: nat, allowance: nat)
    requires Ready(t, 40) && t.BalanceOf(A0) == 21 && t.Allowance(A0, A1) == 0
    modifies t
    ensures freed == 20 && balance == 1 && allowance == 980
  {
    var ok := t.Approve(A0, A1, 1000);
    var outcome, _ := t.FreeFromUpTo(A1, A0, 20, {});
    freed := outcome;
    balance, allowance := t.BalanceOf(A0), t.Allowance(A0, A1);
  }

  /** freeFromUpTo burns the least of request, balance and allowance. */
  method FreeFromUpToTrace(v: Variant) returns (freed: seq<nat>, balance: nat, allowance: nat)
    ensures freed == [0, 0, 0, 1, 8, 10, 0, 20]
    ensures balance == 1 && allowance == 980
  {
    var t := Deploy(v);
    var freed1 := FreeFromUpToOpening(t);
    var freed2 := FreeFromUpToGrant(t);
    var freed3 := FreeFromUpToSpend(t);
    var f4 := FreeFromUpToSpent(t);
    var f5;
    f5, balance, allowance := FreeFromUpToClosing(t);
    freed := freed1 + freed2 + freed3 + [f4, f5];
  }

  // Mint scaling

  /** Sum of a sequence of amounts. */
  function Total(s: seq<nat>): nat
  {
    if s == [] then 0 else s[0] + Total(s[1..])
  }

  /** Totals add up over a concatenation. */
  lemma {:induction false} TotalConcat(s: seq<nat>, u: seq<nat>)
    ensures Total(s + u) == Total(s) + Total(u)
  {
    if s == [] {
      assert s + u == u;
    } else {
      assert (s + u)[1..] == s[1..] + u;
      TotalConcat(s[1..], u);
    }
  }

  /** The scaling test's amounts, grouped as the test groups them: by number of non-zero bytes. */
  const NO_NONZERO_BYTE: seq<u256> := [0]
  const ONE_NONZERO_BYTE: seq<u256> := [1, 2, 3, 4, 5, 10, 20, 50, 100, 255, 256, 256 * 256]
  const TWO_NONZERO_BYTES: seq<u256> := [257, 500, 1000, 256 * 256 + 1]
  const THREE_NONZERO_BYTES: seq<u256> := [256 * 256 + 256 + 1]
  const SCALING_MINTS: seq<u256> := NO_NONZERO_BYTE + ONE_NONZERO_BYTE + TWO_NONZERO_BYTES + THREE_NONZERO_BYTES

  lemma OneNonZeroByteTotal()
    ensures Total(ONE_NONZERO_BYTE) == 66242
  {
  }

  lemma TwoNonZeroBytesTotal()
    ensures Total(TWO_NONZERO_BYTES) == 67294
  {
  }

  /** The scaling mints add up to 199329. */
  lemma ScalingMintsTotal()
    ensures Total(SCALING_MINTS) == 199329
  {
    TotalConcat(NO_NONZERO_BYTE + ONE_NONZERO_BYTE + TWO_NONZERO_BYTES, THREE_NONZERO_BYTES);
    TotalConcat(NO_NONZERO_BYTE + ONE_NONZERO_BYTE, TWO_NONZERO_BYTES);
    TotalConcat(NO_NONZERO_BYTE, ONE_NONZERO_BYTE);
    OneNonZeroByteTotal();
    TwoNonZeroBytesTotal();
  }

  /** One mint of the scaling run: supply and balance grow by x and stay equal. */
  method MintStep(t: GasToken, x: u256)
    requires t.Valid() && x <= 65793 && t.MintCounter() <= 1 + 65793 * 99
    requires t.BalanceOf(A1) == t.totalSupply
    modifies t
    ensures t.Valid() && t.totalSupply == old(t.totalSupply) + x && t.MintCounter() == old(t.MintCounter()) + x
    ensures t.BalanceOf(A1) == t.totalSupply
  {
    BigGasMint(t, A1, x);
  }

  /**
    Repeated mints accumulate: after a first mint of 1 and then each mint of
    the list, the supply and the minter's balance both equal 1 plus the
    running sum of the list.
  */
  method MintScaling(v: Variant, mints: seq<u256>) returns (supplies: seq<nat>, balances: seq<nat>)
    requires |mints| <= 99 && forall i :: 0 <= i < |mints| ==> mints[i] <= 65793
    ensures |supplies| == |mints| && |balances| == |mints|
    ensures forall i :: 0 <= i < |mints| ==> supplies[i] == balances[i] == 1 + Total(mints[..i + 1])
  {
    var t := Deploy(v);
    GetBelowSum(t.balances, A1);
    MintStep(t, 1);
    supplies, balances := [], [];
    for i := 0 to |mints|
      invariant t.Valid() && t.BalanceOf(A1) == t.totalSupply
      invariant t.totalSupply == 1 + Total(mints[..i]) && t.MintCounter() <= 1 + 65793 * i
      invariant |supplies| == i && |balances| == i
      invariant forall j :: 0 <= j < i ==> supplies[j] == balances[j] == 1 + Total(mints[..j + 1])
    {
      assert mints[..i + 1] == mints[..i] + [mints[i]];
      TotalConcat(mints[..i], [mints[i]]);
      assert [mints[i]][1..] == [];
      MintStep(t, mints[i]);
      supplies, balances := supplies + [t.totalSupply], balances + [t.BalanceOf(A1)];
    }
  }

  /** The scaling test's own mints end at a supply of 1 plus their total. */
  method MintScalingTrace(v: Variant) returns (final: nat)
    ensures final == 199330
  {
    var supplies, _ := MintScaling(v, SCALING_MINTS);
    final := supplies[|supplies| - 1];
    assert SCALING_MINTS[..|SCALING_MINTS|] == SCALING_MINTS;
    ScalingMintsTotal();
  }

  // Refunds

  /** The amounts the refund test frees with each variant, grouped by non-zero bytes. */
  const FREE_AMOUNTS: seq<u256> := NO_NONZERO_BYTE + ONE_NONZERO_BYTE + [257, 500, 1000]

  lemma FreeAmountsTotal()
    ensures Total(FREE_AMOUNTS) == 67999
  {
    TotalConcat(NO_NONZERO_BYTE + ONE_NONZERO_BYTE, [257, 500, 1000]);
    TotalConcat(NO_NONZERO_BYTE, ONE_NONZERO_BYTE);
    OneNonZeroByteTotal();
  }

  /** The gas refunded for each token freed: REFUND of the variant's test suite. */
  function RefundPerToken(v: Variant): nat
  {
    if v.GST1? then 15000 else 24000
  }

  /** The helper burns x of its own tokens with `free` or `freeUpTo`; all of it goes, at REFUND a token. */
  method HelperOwnFree(t: GasToken, upTo: bool, x: u256) returns (refund: nat)
    requires t.Valid() && x <= t.BalanceOf(HELPER)
    modifies t
    ensures t.Valid() && t.MintCounter() <= old(t.MintCounter())
    ensures refund == x * RefundPerToken(t.variant)
    ensures t.balances == Put(old(t.balances), HELPER, old(t.BalanceOf(HELPER)) - x)
    ensures t.allowances == old(t.allowances)
  {
    if upTo {
      var _, r := t.FreeUpTo(HELPER, x, {});
      refund := r;
    } else {
      var _, r := t.Free(HELPER, x, {});
      refund := r;
    }
  }

  /**
    The helper burns x of A1's tokens under A1's allowance with `freeFrom`
    or `freeFromUpTo`; all of it goes, at REFUND a token.
  */
  method HelperDelegatedFree(t: GasToken, upTo: bool, x: u256) returns (refund: nat)
    requires t.Valid() && x <= t.BalanceOf(A1) && x <= t.Allowance(A1, HELPER)
    modifies t
    ensures t.Valid() && t.MintCounter() <= old(t.MintCounter())
    ensures refund == x * RefundPerToken(t.variant)
    ensures t.balances == Put(old(t.balances), A1, old(t.BalanceOf(A1)) - x)
    ensures t.allowances == Put(old(t.allowances), (A1, HELPER), old(t.Allowance(A1, HELPER)) - x)
  {
    if upTo {
      var _, r := t.FreeFromUpTo(HELPER, A1, x, {});
      refund := r;
    } else {
      var _, r := t.FreeFrom(HELPER, A1, x, {});
      refund := r;
    }
  }

  /** Whether the free variant burns the caller's own tokens rather than someone else's. */
  predicate OwnTokens(kind: InputCost.FreeKind)
  {
    kind.Free? || kind.FreeUpTo?
  }

  /**
    The helper frees each amount in turn with one free variant; every
    refund is the amount times REFUND, and the amounts leave the helper's
    balance, or A1's balance and allowance.
  */
  method RefundRun(t: GasToken, kind: InputCost.FreeKind, amounts: seq<u256>) returns (refunds: seq<nat>)
    requires t.Valid()
    requires OwnTokens(kind) ==> Total(amounts) <= t.BalanceOf(HELPER)
    requires !OwnTokens(kind) ==> Total(amounts) <= t.BalanceOf(A1) && Total(amounts) <= t.Allowance(A1, HELPER)
    modifies t
    ensures t.Valid() && t.MintCounter() <= old(t.MintCounter())
    ensures OwnTokens(kind) ==> t.allowances == old(t.allowances)
    ensures !OwnTokens(kind) ==> t.Allowance(A1, HELPER) == old(t.Allowance(A1, HELPER)) - Total(amounts)
    ensures |refunds| == |amounts|
    ensures forall j :: 0 <= j < |amounts| ==> refunds[j] == amounts[j] * RefundPerToken(t.variant)
  {
    refunds := [];
    for i := 0 to |amounts|
      invariant t.Valid() && t.MintCounter() <= old(t.MintCounter())
      invariant OwnTokens(kind) ==> Total(amounts[i..]) <= t.BalanceOf(HELPER) && t.allowances == old(t.allowances)
      invariant !OwnTokens(kind) ==> Total(amounts[i..]) <= t.BalanceOf(A1)
      invariant !OwnTokens(kind) ==>
                  t.Allowance(A1, HELPER) + Total(amounts) == old(t.Allowance(A1, HELPER)) + Total(amounts[i..])
      invariant |refunds| == i
      invariant forall j :: 0 <= j < i ==> refunds[j] == amounts[j] * RefundPerToken(t.variant)
    {
      assert amounts[i..][1..] == amounts[i + 1..];
      var r;
      if OwnTokens(kind) {
        r := HelperOwnFree(t, kind.FreeUpTo?, amounts[i]);
      } else {
        r := HelperDelegatedFree(t, kind.FreeFromUpTo?, amounts[i]);
      }
      refunds := refunds + [r];
    }
    assert amounts[|amounts|..] == [];
  }

  /** The allowance the refund test grants the helper: 2^128. */
  const TWO_TO_128: u256 := 0x1_0000_0000_0000_0000_0000_0000_0000_0000

  /** A1 mints 256 and frees them, then lets the helper spend 2^128 of its tokens. */
  method RefundOpening(t: GasToken) returns (free: bool, approve: bool)
    requires Ready(t, 0) && t.BalanceOf(A1) == 0 && t.Allowance(A1, HELPER) == 0
    modifies t
    ensures Ready(t, 256) && t.Allowance(A1, HELPER) == TWO_TO_128
    ensures free && approve
  {
    BigGasMint(t, A1, 256);
    assert t.BalanceOf(A1) == 256 && t.Allowance(A1, HELPER) == 0;
    var outcome, _ := t.Free(A1, 256, {});
    free := outcome;
    approve := t.Approve(A1, HELPER, TWO_TO_128);
  }

  /**
    One sub-test of the refund test: A1 mints the total of the amounts plus
    10, hands the total plus 1 to the helper when the variant burns the
    helper's own tokens, and the helper frees every amount.
  */
  method RefundCase(t: GasToken, kind: InputCost.FreeKind, minted: nat) returns (refunds: seq<nat>)
    requires Ready(t, minted) && minted <= 1_000_000 && t.Allowance(A1, HELPER) >= 67999
    modifies t
    ensures Ready(t, minted + 68009)
    ensures t.Allowance(A1, HELPER) >= old(t.Allowance(A1, HELPER)) - 67999
    ensures |refunds| == |FREE_AMOUNTS|
    ensures forall j :: 0 <= j < |FREE_AMOUNTS| ==> refunds[j] == FREE_AMOUNTS[j] * RefundPerToken(t.variant)
  {
    FreeAmountsTotal();
    GetBelowSum(t.balances, A1);
    BigGasMint(t, A1, 68009);
    if OwnTokens(kind) {
      var ok := t.Transfer(A1, HELPER, 68000);
    }
    refunds := RefundRun(t, kind, FREE_AMOUNTS);
  }

  /**
    Every free variant refunds REFUND for each token it frees, whatever the
    amount: run in turn for free, freeUpTo, freeFrom and freeFromUpTo.
  */
  method FreeRefundTrace(v: Variant) returns (refunds: seq<seq<nat>>)
    ensures |refunds| == 4
    ensures forall k, j :: 0 <= k < 4 && 0 <= j < |FREE_AMOUNTS| ==>
              |refunds[k]| == |FREE_AMOUNTS| && refunds[k][j] == FREE_AMOUNTS[j] * RefundPerToken(v)
  {
    var t := Deploy(v);
    var _, _ := RefundOpening(t);
    var r1 := RefundCase(t, InputCost.Free, 256);
    var r2 := RefundCase(t, InputCost.FreeUpTo, 256 + 68009);
    var r3 := RefundCase(t, InputCost.FreeFrom, 256 + 2 * 68009);
    var r4 := RefundCase(t, InputCost.FreeFromUpTo, 256 + 3 * 68009);
    refunds := [r1, r2, r3, r4];
  }
}
