/**
  The scenarios of the two variant-specific suites: the storage words GST1
  keeps per slot, and the child contracts GST2 creates and destroys, with the
  partial-free defect of the ETH deployment and the workaround of the ETC one.
*/
module PoolTraces {
  import opened Words
  import opened Storage
  import opened Pool
  import opened Ledger
  import opened GasTokenTraces
  import InputCost
  import Gst2Cost

  /** A fresh token of the given variant with nothing in storage. */
  method DeployEmpty(v: Variant) returns (t: GasToken)
    ensures fresh(t) && Ready(t, 0) && t.variant == v && t.self == TOKEN
    ensures Holding(t, v, A1, 0, if v.GST1? then Slots(0) else Children(0, 0, {}))
    ensures t.StorageWords() == 0
  {
    t := new GasToken(v, TOKEN);
  }

  /**
    Every token is held by one account, `who`, there are no allowances and
    the pool is p.
  */
  ghost predicate Holding(t: GasToken, v: Variant, who: Address, b: u256, p: Pool)
    reads t
  {
    && t.Valid() && t.variant == v
    && t.balances == (if b == 0 then map[] else map[who := b])
    && t.allowances == map[] && t.totalSupply == b && t.pool == p
  }

  /** The one holder mints n more. */
  method MintBy(t: GasToken, who: Address, n: u256, ghost b: u256, ghost p: Pool)
    requires Holding(t, t.variant, who, b, p) && n <= 85 && t.MintCounter() <= 1_000_000
    modifies t
    ensures b + n <= MAX_UINT256
    ensures Holding(t, t.variant, who, b + n, Allocate(p, n))
  {
    DefaultGasLimit(t.variant, n);
    DefaultMint(t, who, n);
    assert t.balances == if b + n == 0 then map[] else map[who := b + n];
  }

  /** The one holder frees n of its b tokens; it succeeds. */
  method FreeBy(t: GasToken, who: Address, n: u256, starved: set<nat>, ghost b: u256, ghost p: Pool)
    returns (ok: bool)
    requires Holding(t, t.variant, who, b, p) && n <= b
    modifies t
    ensures n <= Outstanding(p)
    ensures ok && Holding(t, t.variant, who, b - n, Deallocate(t.variant, p, n, starved))
    ensures p.Children? && starved == {} ==> t.pool == Children(p.head, p.tail + n, p.orphans)
  {
    if p.Children? {
      assert Outstanding(p) == b;
      DeallocateNoneStarved(t.variant, p, n);
    }
    var refund;
    ok, refund := t.Free(who, n, starved);
    assert t.balances == if b - n == 0 then map[] else map[who := b - n];
  }

  /** Storage words of a token held by one account. */
  lemma HoldingWords(t: GasToken, v: Variant, who: Address, b: u256, p: Pool)
    requires Holding(t, v, who, b, p)
    ensures p.Slots? ==> t.StorageWords() == (if b == 0 then 0 else 2) + p.count
    ensures p.Children? ==> t.StorageWords() == (if b == 0 then 0 else 1)
                                               + (if p.head != 0 then 1 else 0) + (if p.tail != 0 then 1 else 0)
  {
  }

  // GST1: storage slots

  /**
    GST1 storage trace: nothing stored at first; after A1 mints 2 the supply,
    A1's balance and two slots make 4 words; each free of 1 drops a slot, and
    the last one also clears the supply and the balance.
  */
  method Gst1StorageTrace() returns (words: seq<nat>, frees: seq<bool>, supplies: seq<nat>)
    ensures words == [0, 4, 3, 0]
    ensures frees == [true, true] && supplies == [0, 2, 1, 0]
  {
    var t := DeployEmpty(GST1);
    words, supplies := [t.StorageWords()], [t.totalSupply];
    MintBy(t, A1, 2, 0, Slots(0));
    HoldingWords(t, GST1, A1, 2, Slots(2));
    words, supplies := words + [t.StorageWords()], supplies + [t.totalSupply];
    var f1 := FreeBy(t, A1, 1, {}, 2, Slots(2));
    HoldingWords(t, GST1, A1, 1, Slots(1));
    words, supplies := words + [t.StorageWords()], supplies + [t.totalSupply];
    var f2 := FreeBy(t, A1, 1, {}, 1, Slots(1));
    HoldingWords(t, GST1, A1, 0, Slots(0));
    words, supplies, frees := words + [t.StorageWords()], supplies + [t.totalSupply], [f1, f2];
  }

  // GST2: child contracts

  /** Which of the children 1 .. n have code, in nonce order. */
  function CodeFlags(t: GasToken, n: nat): (flags: seq<bool>)
    reads t
    ensures |flags| == n
    ensures forall k :: 0 <= k < n ==> flags[k] == t.ChildHasCode(k + 1)
  {
    if n == 0 then [] else CodeFlags(t, n - 1) + [t.ChildHasCode(n)]
  }

  /** What the GST2 suite observes of the token: its nonce, its storage words and whether children 1 and 2 have code. */
  method Observe(t: GasToken, ghost b: u256, ghost head: nat, ghost tail: nat)
    returns (nonce: nat, words: nat, code: seq<bool>)
    requires Holding(t, t.variant, A1, b, Children(head, tail, {}))
    ensures nonce == head + 1
    ensures words == (if b == 0 then 0 else 1) + (if head != 0 then 1 else 0) + (if tail != 0 then 1 else 0)
    ensures code == [tail < 1 <= head, tail < 2 <= head]
  {
    HoldingWords(t, t.variant, A1, b, t.pool);
    nonce, words, code := ContractNonce(t.pool), t.StorageWords(), CodeFlags(t, 2);
  }

  /** Two frees of 1 by A1, each destroying the oldest queued child. */
  method FreeTwice(t: GasToken, chain: Chain) returns (nonces: seq<nat>, words: seq<nat>, code: seq<seq<bool>>)
    requires Holding(t, GST2(chain), A1, 2, Children(2, 0, {}))
    modifies t
    ensures nonces == [3, 3] && words == [3, 2] && code == [[false, true], [false, false]]
  {
    var _ := FreeBy(t, A1, 1, {}, 2, Children(2, 0, {}));
    var n1, w1, c1 := Observe(t, 1, 2, 1);
    var _ := FreeBy(t, A1, 1, {}, 1, Children(2, 1, {}));
    var n2, w2, c2 := Observe(t, 0, 2, 2);
    nonces, words, code := [n1, n2], [w1, w2], [c1, c2];
  }

  /**
    GST2 storage and children trace. The token's nonce starts at 1 and
    nothing is stored. A1 mints 2: children 1 and 2 are created, the nonce is
    3, and A1's balance and the mint counter make 2 words. The first free
    destroys child 1 only (oldest first) and adds the free counter; the
    second destroys child 2 and clears A1's balance.
  */
  method Gst2StorageAndChildren(chain: Chain) returns (nonces: seq<nat>, words: seq<nat>, code: seq<seq<bool>>)
    ensures nonces == [1, 3, 3, 3]
    ensures words == [0, 2, 3, 2]
    ensures code == [[false, false], [true, true], [false, true], [false, false]]
  {
    var t := DeployEmpty(GST2(chain));
    var n0, w0, c0 := Observe(t, 0, 0, 0);
    MintBy(t, A1, 2, 0, Children(0, 0, {}));
    var n1, w1, c1 := Observe(t, 2, 2, 0);
    var ns, ws, cs := FreeTwice(t, chain);
    nonces, words, code := [n0, n1] + ns, [w0, w1] + ws, [c0, c1] + cs;
  }

  /**
    The children whose destruction call runs short of gas when `free(2)` is
    sent with 48700 gas after the first free: the first of the two targets.
  */
  const TIGHT_FREE_STARVED: set<nat> := {2}

  /** On ETH the tight free orphans child 2; on ETC it orphans nothing. */
  lemma TightFreeSpares(chain: Chain)
    ensures Deallocate(GST2(chain), Children(18, 1, {}), 2, TIGHT_FREE_STARVED)
         == Children(18, 3, if chain == ETH then {2} else {})
  {
    var p := Children(18, 1, {});
    if chain == ETH {
      assert Target(p, 2, 2);
      assert Spared(GST2(ETH), p, 2, TIGHT_FREE_STARVED) == {2};
    }
  }

  /**
    The partial-free defect. A1 mints 18 and frees 1, destroying child 1.
    A `free(2)` with tight gas then returns true on both deployments, but on
    ETH child 2 keeps its code (its destruction ran short of gas and the
    free counter moved past it anyway) while child 3 is destroyed; the ETC
    deployment destroys both.
  */
  method PartialFree(chain: Chain) returns (supplies: seq<nat>, frees: seq<bool>, before: seq<bool>, after: seq<bool>)
    ensures supplies == [18, 17, 15]
    ensures frees == [true, true]
    ensures before == [false, true, true]
    ensures after == if chain == ETH then [false, true, false] else [false, false, false]
  {
    var t := DeployEmpty(GST2(chain));
    MintBy(t, A1, 18, 0, Children(0, 0, {}));
    var s0 := t.totalSupply;
    var f1 := FreeBy(t, A1, 1, {}, 18, Children(18, 0, {}));
    var s1 := t.totalSupply;
    before := CodeFlags(t, 3);
    var f2 := FreeBy(t, A1, 2, TIGHT_FREE_STARVED, 17, Children(18, 1, {}));
    TightFreeSpares(chain);
    supplies, frees, after := [s0, s1, t.totalSupply], [f1, f2], CodeFlags(t, 3);
  }

  /**
    Child contracts accept a call only from the token: before any mint
    child 1 has no code, after a mint it has, and a transaction that A0
    sends to it is rejected and leaves the child, the supply and A0's
    balance as they were.
  */
  method ChildAddressCheck(chain: Chain) returns (before: bool, after: bool, call: ChildCall, kept: bool)
    ensures !before && after && call == Rejected && kept
  {
    var t := DeployEmpty(GST2(chain));
    before := t.ChildHasCode(1);
    DefaultGasLimit(t.variant, 1);
    DefaultMint(t, A0, 1);
    after := t.ChildHasCode(1);
    call := t.CallChild(A0, 1);
    kept := t.ChildHasCode(1) && t.totalSupply == 1 && t.BalanceOf(A0) == 1;
  }

  /** The gas a GST2 `mint(1)` needs: 32254 + 36543 + 192. */
  lemma MintOneCost(chain: Chain)
    ensures MintCost(GST2(chain), 1) == 68989
  {
    InputCost.InputDataCostFacts(1);
  }

  /** The upper start gas of the search in `MintOutOfGas`: 2^20. */
  const SEARCH_MAX_GAS: nat := 0x10_0000

  /** The state after `minted` single mints by A1 and no free. */
  ghost predicate MintedOnly(t: GasToken, chain: Chain, minted: nat)
    reads t
  {
    && t.Valid() && t.variant == GST2(chain)
    && t.totalSupply == minted && t.BalanceOf(A1) == minted
    && t.pool == Children(minted, 0, {})
  }

  /** One `mint(1)` by A1 with the given start gas; it goes through exactly when the gas covers the mint. */
  method MintOne(t: GasToken, chain: Chain, minted: nat, gas: nat) returns (ok: bool)
    requires MintedOnly(t, chain, minted) && minted < 0x1_0000_0000
    modifies t
    ensures ok <==> gas >= 68989
    ensures MintedOnly(t, chain, if ok then minted + 1 else minted)
  {
    MintOneCost(chain);
    GetBelowSum(t.balances, A1);
    var r := t.Mint(A1, 1, gas);
    ok := r == Minted;
  }

  /**
    `mint(1)` is atomic. Each attempt either creates the next child and adds
    1 to A1's balance, the supply and the token's nonce, or fails leaving all
    of them as they were. Bisecting the start gas between 0 and 2^20, with
    these checks at every step, ends at the least gas a mint needs.
  */
  method MintOutOfGas(chain: Chain) returns (minGas: nat, maxGas: nat, minted: nat)
    ensures maxGas == 68989 && minGas == maxGas - 1
    ensures minted >= 2
  {
    var t := DeployEmpty(GST2(chain));
    assert ContractNonce(t.pool) == 1;
    GetBelowSum(t.balances, A1);
    DefaultGasLimit(t.variant, 1);
    DefaultMint(t, A1, 1);
    minted := 1;
    var ok := MintOne(t, chain, minted, SEARCH_MAX_GAS);
    minted := minted + 1;
    assert ContractNonce(t.pool) == minted + 1;
    ok := MintOne(t, chain, minted, 0);
    assert !ok && ContractNonce(t.pool) == minted + 1;
    minGas, maxGas := 0, SEARCH_MAX_GAS;
    while maxGas - minGas > 1
      invariant minGas < 68989 <= maxGas
      invariant MintedOnly(t, chain, minted)
      invariant 2 <= minted && minted + (maxGas - minGas) <= 2 + SEARCH_MAX_GAS
      decreases maxGas - minGas
    {
      var gas := (maxGas + minGas) / 2;
      ok := MintOne(t, chain, minted, gas);
      if ok {
        minted, maxGas := minted + 1, gas;
      } else {
        minGas := gas;
      }
      assert ContractNonce(t.pool) == minted + 1;
      assert forall k :: 1 <= k ==> (t.ChildHasCode(k) <==> k <= minted);
    }
  }

  // GST2 on ETH: frees limited by gas through the example contract

  /** The example contract that frees tokens with whatever gas it is given. */
  const EXAMPLE: Address := 5

  /**
    The ETH token in the example scenario: A0 holds nothing, the example
    contract holds every token, the free counter is one behind `tailNonce`
    and no child is orphaned.
  */
  ghost predicate ExampleHolds(t: GasToken, tailNonce: nat)
    reads t
  {
    && t.Valid() && t.variant == GST2(ETH)
    && t.BalanceOf(A0) == 0 && t.totalSupply == t.BalanceOf(EXAMPLE)
    && t.pool.Children? && t.pool.orphans == {} && tailNonce >= 1 && t.pool.tail == tailNonce - 1
  }

  /** A0 mints 50 and hands them to the example contract. */
  method Replenish(t: GasToken, tailNonce: nat)
    requires ExampleHolds(t, tailNonce) && t.pool.head <= 1_000_000_000
    modifies t
    ensures ExampleHolds(t, tailNonce)
    ensures t.BalanceOf(EXAMPLE) == old(t.BalanceOf(EXAMPLE)) + 50
    ensures t.pool.head == old(t.pool.head) + 50
  {
    GetBelowSum(t.balances, A0);
    DefaultGasLimit(t.variant, 50);
    DefaultMint(t, A0, 50);
    var ok := t.Transfer(A0, EXAMPLE, 50);
  }

  /**
    One round of the example-contract test: the contract frees as many of
    `request` tokens as the round's gas lets it (`request` stands for that
    number), then A0 tops its balance back up to at least 200 in steps of 50.
    No destruction call the round may make is starved.
  */
  method ExampleRound(t: GasToken, tailNonce: nat, rounds: nat, request: u256, starved: set<nat>)
    returns (freed: nat, newTail: nat, dead: bool, live: bool)
    requires ExampleHolds(t, tailNonce) && t.BalanceOf(EXAMPLE) <= 249
    requires Unstarved(GST2(ETH), t.pool, request, starved)
    requires rounds < 1_000_000 && t.pool.head <= 51 + 250 * rounds
    modifies t
    ensures ExampleHolds(t, newTail) && 200 <= t.BalanceOf(EXAMPLE) <= 249
    ensures t.pool.head <= 51 + 250 * (rounds + 1)
    ensures freed == if request <= old(t.BalanceOf(EXAMPLE)) then request else old(t.BalanceOf(EXAMPLE))
    ensures newTail == tailNonce + freed
    ensures dead && (live <==> freed < old(t.BalanceOf(EXAMPLE)))
  {
    var u, _ := t.FreeUpTo(EXAMPLE, request, starved);
    freed, newTail := u, tailNonce + u;
    dead, live := !t.ChildHasCode(newTail - 1), t.ChildHasCode(newTail);
    ghost var head0, balance0 := t.pool.head, t.BalanceOf(EXAMPLE);
    while t.BalanceOf(EXAMPLE) < 200
      invariant ExampleHolds(t, newTail) && t.BalanceOf(EXAMPLE) <= 249
      invariant t.pool.head - head0 == t.BalanceOf(EXAMPLE) - balance0
      decreases 200 - t.BalanceOf(EXAMPLE)
    {
      Replenish(t, newTail);
    }
  }

  /**
    The scenario's opening: A0 mints one token and frees it, so the free
    counter is 1, then hands 50 fresh tokens to the example contract.
  */
  method ExampleSetup() returns (t: GasToken)
    ensures fresh(t) && ExampleHolds(t, 2) && t.BalanceOf(EXAMPLE) == 50 && t.pool.head <= 51
  {
    t := DeployEmpty(GST2(ETH));
    MintAndFreeOne(t);
    Replenish(t, 2);
  }

  /** A0 mints one token and frees it again. */
  method MintAndFreeOne(t: GasToken)
    requires Holding(t, GST2(ETH), A0, 0, Children(0, 0, {})) && t.MintCounter() == 0
    modifies t
    ensures ExampleHolds(t, 2) && t.BalanceOf(EXAMPLE) == 0 && t.pool.head == 1 && t.allowances == map[]
  {
    MintBy(t, A0, 1, 0, Children(0, 0, {}));
    var _ := FreeBy(t, A0, 1, {}, 1, Children(1, 0, {}));
  }

  /**
    The example-contract free test on ETH: across rounds of freeing with
    growing gas, the example contract's balance falls by exactly what each
    round frees, the child just behind the new free frontier has no code,
    and the frontier child has code whenever tokens remain (always, after the
    first round's top-up to 200, since a round frees at most 180).
  */
  method ExampleFreeTrace(requests: seq<u256>) returns (freed: seq<nat>, dead: seq<bool>, live: seq<bool>)
    requires 1 <= |requests| <= 1000
    requires forall i :: 0 <= i < |requests| ==> requests[i] <= 180
    ensures |freed| == |dead| == |live| == |requests|
    ensures freed[0] == requests[0] || freed[0] == 50
    ensures forall i :: 1 <= i < |requests| ==> freed[i] == requests[i]
    ensures forall i :: 0 <= i < |requests| ==> dead[i]
    ensures forall i :: 1 <= i < |requests| ==> live[i]
    ensures live[0] <==> freed[0] < 50
  {
    var t := ExampleSetup();
    var tailNonce := 2;
    freed, dead, live := [], [], [];
    for i := 0 to |requests|
      invariant ExampleHolds(t, tailNonce) && t.BalanceOf(EXAMPLE) <= 249
      invariant t.pool.head <= 51 + 250 * i
      invariant i == 0 ==> t.BalanceOf(EXAMPLE) == 50
      invariant i > 0 ==> t.BalanceOf(EXAMPLE) >= 200
      invariant |freed| == |dead| == |live| == i
      invariant i > 0 ==> (freed[0] == requests[0] || freed[0] == 50) && (live[0] <==> freed[0] < 50)
      invariant forall j :: 1 <= j < i ==> freed[j] == requests[j] && live[j]
      invariant forall j :: 0 <= j < i ==> dead[j]
    {
      var u, newTail, d, l := ExampleRound(t, tailNonce, i, requests[i], {});
      tailNonce := newTail;
      freed, dead, live := freed + [u], dead + [d], live + [l];
    }
  }

  // The same scenario through freeFromUpTo: A0 keeps the tokens and lets the example contract free them

  /** The allowance A0 grants the example contract. */
  const EXAMPLE_ALLOWANCE: nat := 1_000_000_000

  /**
    The ETH token in the delegated scenario: A0 holds every token, the free
    counter is one behind `tailNonce` and no child is orphaned.
  */
  ghost predicate DelegatedHolds(t: GasToken, tailNonce: nat)
    reads t
  {
    && t.Valid() && t.variant == GST2(ETH) && t.totalSupply == t.BalanceOf(A0)
    && t.pool.Children? && t.pool.orphans == {} && tailNonce >= 1 && t.pool.tail == tailNonce - 1
  }

  /** Mint 1 and free it, mint 60, and approve the example contract for 10^9. */
  method DelegatedSetup() returns (t: GasToken)
    ensures fresh(t) && DelegatedHolds(t, 2) && t.BalanceOf(A0) == 60 && t.pool.head <= 61
    ensures t.Allowance(A0, EXAMPLE) == EXAMPLE_ALLOWANCE
  {
    t := DeployEmpty(GST2(ETH));
    MintAndFreeOne(t);
    DefaultGasLimit(t.variant, 60);
    DefaultMint(t, A0, 60);
    var ok := t.Approve(A0, EXAMPLE, EXAMPLE_ALLOWANCE);
  }

  /**
    One round of the delegated test: the example contract frees as many of
    A0's tokens as the round's gas lets it (`request`), on its allowance,
    then A0 mints 50 at a time until it holds at least 200. No destruction
    call the round may make is starved.
  */
  method DelegatedRound(t: GasToken, tailNonce: nat, rounds: nat, request: u256, starved: set<nat>)
    returns (freed: nat, newTail: nat, dead: bool, live: bool)
    requires DelegatedHolds(t, tailNonce) && t.BalanceOf(A0) <= 249 && request <= 180
    requires Unstarved(GST2(ETH), t.pool, request, starved)
    requires rounds < 1000 && t.pool.head <= 61 + 250 * rounds
    requires t.Allowance(A0, EXAMPLE) + 180 * rounds >= EXAMPLE_ALLOWANCE
    modifies t
    ensures DelegatedHolds(t, newTail) && 200 <= t.BalanceOf(A0) <= 249
    ensures t.pool.head <= 61 + 250 * (rounds + 1)
    ensures t.Allowance(A0, EXAMPLE) + 180 * (rounds + 1) >= EXAMPLE_ALLOWANCE
    ensures freed == if request <= old(t.BalanceOf(A0)) then request else old(t.BalanceOf(A0))
    ensures newTail == tailNonce + freed
    ensures dead && (live <==> freed < old(t.BalanceOf(A0)))
  {
    var u, _ := t.FreeFromUpTo(EXAMPLE, A0, request, starved);
    freed, newTail := u, tailNonce + u;
    dead, live := !t.ChildHasCode(newTail - 1), t.ChildHasCode(newTail);
    ghost var head0, balance0 := t.pool.head, t.BalanceOf(A0);
    while t.BalanceOf(A0) < 200
      invariant DelegatedHolds(t, newTail) && t.BalanceOf(A0) <= 249
      invariant t.pool.head - head0 == t.BalanceOf(A0) - balance0
      invariant t.Allowance(A0, EXAMPLE) + 180 * (rounds + 1) >= EXAMPLE_ALLOWANCE
      decreases 200 - t.BalanceOf(A0)
    {
      GetBelowSum(t.balances, A0);
      DefaultGasLimit(t.variant, 50);
      DefaultMint(t, A0, 50);
    }
  }

  /**
    The example-contract freeFrom test on ETH: across rounds of freeing with
    growing gas, A0's balance falls by exactly what each round frees, the
    child just behind the new free frontier has no code, and the frontier
    child has code whenever tokens remain.
  */
  method DelegatedFreeTrace(requests: seq<u256>) returns (freed: seq<nat>, dead: seq<bool>, live: seq<bool>)
    requires 1 <= |requests| <= 976
    requires forall i :: 0 <= i < |requests| ==> requests[i] <= 180
    ensures |freed| == |dead| == |live| == |requests|
    ensures freed[0] == requests[0] || freed[0] == 60
    ensures forall i :: 1 <= i < |requests| ==> freed[i] == requests[i]
    ensures forall i :: 0 <= i < |requests| ==> dead[i]
    ensures forall i :: 1 <= i < |requests| ==> live[i]
    ensures live[0] <==> freed[0] < 60
  {
    var t := DelegatedSetup();
    var tailNonce := 2;
    freed, dead, live := [], [], [];
    for i := 0 to |requests|
      invariant DelegatedHolds(t, tailNonce) && t.BalanceOf(A0) <= 249
      invariant t.pool.head <= 61 + 250 * i
      invariant t.Allowance(A0, EXAMPLE) + 180 * i >= EXAMPLE_ALLOWANCE
      invariant i == 0 ==> t.BalanceOf(A0) == 60
      invariant i > 0 ==> t.BalanceOf(A0) >= 200
      invariant |freed| == |dead| == |live| == i
      invariant i > 0 ==> (freed[0] == requests[0] || freed[0] == 60) && (live[0] <==> freed[0] < 60)
      invariant forall j :: 1 <= j < i ==> freed[j] == requests[j] && live[j]
      invariant forall j :: 0 <= j < i ==> dead[j]
    {
      var u, newTail, d, l := DelegatedRound(t, tailNonce, i, requests[i], {});
      tailNonce := newTail;
      freed, dead, live := freed + [u], dead + [d], live + [l];
    }
  }
}
