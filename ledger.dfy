/**
  The gas token contract as an ERC20 ledger with the free family: a total
  supply, a balance and an allowance table, an append-only event log and the
  pool that backs every token (storage slots for GST1, child contracts for
  GST2). A call either succeeds, fails softly (returns false or 0 and
  changes nothing), or aborts (the whole transaction is rolled back).
*/
module Ledger {
  import opened Words
  import opened Storage
  import opened Pool
  import Gst1Cost
  import Gst2Cost

  /** ERC20 attributes shared by both variants. */
  const NAME: string := "Gastoken.io"
  const DECIMALS: nat := 2

  function Symbol(v: Variant): string
  {
    if v.GST1? then "GST1" else "GST2"
  }

  /** The ERC20 events. Each carries its amount as one 32-byte data word. */
  datatype Event =
    | Transfer(from: Address, to: Address, value: u256)
    | Approval(owner: Address, spender: Address, value: u256)

  /** The data word of a log entry; decoding it gives the amount back. */
  function LogData(e: Event): (d: seq<byte>)
    ensures |d| == 32
    ensures FromBytes(d) == e.value
  {
    U256Fits(e.value);
    FromToBytes(e.value, 32);
    ToBytes(e.value, 32)
  }

  /** Why a transaction was rolled back. */
  datatype Abort = OutOfGas | Overflow

  datatype MintResult = Minted | Reverted(reason: Abort)

  /** Gas a mint of `amount` tokens needs, by variant. */
  function MintCost(v: Variant, amount: u256): nat
  {
    if v.GST1? then Gst1Cost.MintCost(amount) else Gst2Cost.MintCost(amount)
  }

  /** Gas refunded for the given number of destroyed slots or children. */
  function Refund(v: Variant, destroyed: nat): nat
  {
    if v.GST1? then destroyed * Gst1Cost.REFUND else destroyed * Gst2Cost.REFUND
  }

  /**
    Storage holds no zero word, the supply is the sum of all balances and
    also the number of tokens the pool backs, and the mint counter fits in
    a word.
  */
  ghost predicate Consistent(v: Variant, supply: u256, balances: map<Address, u256>,
                             allowances: map<(Address, Address), u256>, pool: Pool)
  {
    && Canonical(balances)
    && Canonical(allowances)
    && Sum(balances) == supply
    && Wf(v, pool)
    && Outstanding(pool) == supply
    && (pool.Children? ==> pool.head <= MAX_UINT256)
  }

  /** The counter a mint must not push past the word size: the supply on GST1, the mint counter on GST2. */
  function Counter(supply: u256, pool: Pool): nat
  {
    match pool
    case Slots(_) => supply
    case Children(head, _, _) => head
  }

  /**
    A mint that keeps its counter within a word keeps the state consistent,
    and the minter's balance cannot overflow (it is at most the supply).
  */
  lemma MintKeepsConsistent(v: Variant, supply: u256, balances: map<Address, u256>,
                            allowances: map<(Address, Address), u256>, pool: Pool,
                            owner: Address, amount: u256)
    requires Consistent(v, supply, balances, allowances, pool)
    requires Counter(supply, pool) + amount <= MAX_UINT256
    ensures supply + amount <= MAX_UINT256
    ensures Get(balances, owner) + amount <= MAX_UINT256
    ensures Consistent(v, supply + amount, Put(balances, owner, Get(balances, owner) + amount),
                       allowances, Allocate(pool, amount))
  {
    GetBelowSum(balances, owner);
    SumPut(balances, owner, Get(balances, owner) + amount);
    AllocateSpec(v, pool, amount);
  }

  /** Burning tokens the owner holds keeps the state consistent. */
  lemma BurnKeepsConsistent(v: Variant, supply: u256, balances: map<Address, u256>,
                            allowances: map<(Address, Address), u256>, pool: Pool,
                            owner: Address, amount: u256, starved: set<nat>)
    requires Consistent(v, supply, balances, allowances, pool)
    requires amount <= Get(balances, owner)
    ensures amount <= supply && amount <= Outstanding(pool)
    ensures Consistent(v, supply - amount, Put(balances, owner, Get(balances, owner) - amount),
                       allowances, Deallocate(v, pool, amount, starved))
  {
    GetBelowSum(balances, owner);
    SumPut(balances, owner, Get(balances, owner) - amount);
    DeallocateSpec(v, pool, amount, starved);
  }

  /** Moving tokens the sender holds cannot overflow the receiver and keeps the state consistent. */
  lemma MoveKeepsConsistent(v: Variant, supply: u256, balances: map<Address, u256>,
                            allowances: map<(Address, Address), u256>, pool: Pool,
                            from: Address, to: Address, value: u256)
    requires Consistent(v, supply, balances, allowances, pool)
    requires value <= Get(balances, from)
    ensures from != to ==> Get(balances, to) + value <= MAX_UINT256
    ensures Consistent(v, supply, Move(balances, from, to, value), allowances, pool)
  {
    if from != to {
      TwoBelowSum(balances, from, to);
    }
    SumMove(balances, from, to, value);
  }

  /** Writing an allowance keeps the state consistent. */
  lemma ApproveKeepsConsistent(v: Variant, supply: u256, balances: map<Address, u256>,
                               allowances: map<(Address, Address), u256>, pool: Pool,
                               key: (Address, Address), value: u256)
    requires Consistent(v, supply, balances, allowances, pool)
    ensures Consistent(v, supply, balances, Put(allowances, key, value), pool)
  {
  }

  class GasToken {
    const variant: Variant
    /** The token contract's own address; only it may destroy its children. */
    const self: Address
    var totalSupply: u256
    var balances: map<Address, u256>
    var allowances: map<(Address, Address), u256>
    var pool: Pool
    var log: seq<Event>

    /** The token's state is consistent (see `Consistent`). */
    ghost predicate Valid()
      reads this
    {
      Consistent(variant, totalSupply, balances, allowances, pool)
    }

    /** A freshly deployed token: no supply, no balances, no allowances, no events. */
    constructor (variant: Variant, self: Address)
      ensures Valid()
      ensures this.variant == variant && this.self == self
      ensures totalSupply == 0 && balances == map[] && allowances == map[] && log == []
      ensures pool == if variant.GST1? then Slots(0) else Children(0, 0, {})
    {
      this.variant := variant;
      this.self := self;
      totalSupply := 0;
      balances := map[];
      allowances := map[];
      pool := if variant.GST1? then Slots(0) else Children(0, 0, {});
      log := [];
    }

    function BalanceOf(owner: Address): u256
      reads this
    {
      Get(balances, owner)
    }

    function Allowance(owner: Address, spender: Address): u256
      reads this
    {
      Get(allowances, (owner, spender))
    }

    /** Whether the child with this nonce has code (always false on GST1). */
    predicate ChildHasCode(nonce: nat)
      reads this
    {
      HasCode(pool, nonce)
    }

    /**
      A call from `caller` to the child with this nonce, reporting what the
      child does: with no code at the address nothing runs; a live child
      reverts unless the caller is the token, and otherwise self-destructs.
      This method only reports the outcome and changes nothing. The token
      makes that call only from inside a free, and the destruction is part
      of that free's effect on the queue, which `Deallocate` states.
    */
    method CallChild(caller: Address, nonce: nat) returns (r: ChildCall)
      ensures r.NoCode? <==> !ChildHasCode(nonce)
      ensures r.Rejected? <==> ChildHasCode(nonce) && caller != self
    {
      if !ChildHasCode(nonce) {
        r := NoCode;
      } else if caller != self {
        r := Rejected;
      } else {
        r := SelfDestructed;
      }
    }

    /**
      Number of non-zero words in the contract's storage. GST1 stores the
      supply, the non-zero balances and allowances and one word per live
      slot; GST2 stores the balances, allowances and the two queue counters
      and keeps no supply word (it is head - tail).
    */
    function StorageWords(): nat
      reads this
    {
      match pool
      case Slots(count) => (if totalSupply != 0 then 1 else 0) + |balances| + |allowances| + count
      case Children(head, tail, _) =>
        |balances| + |allowances| + (if head != 0 then 1 else 0) + (if tail != 0 then 1 else 0)
    }

    /** The counter a mint must not push past the word size: supply, or the mint counter. */
    function MintCounter(): nat
      reads this
    {
      Counter(totalSupply, pool)
    }

    /**
      `mint(amount)`: either the whole mint takes place (caller's balance,
      supply and pool all grow by amount, no event) or the transaction is
      rolled back for lack of gas or for overflow, and nothing changes.
    */
    method Mint(caller: Address, amount: u256, startgas: nat) returns (r: MintResult)
      requires Valid()
      modifies this
      ensures Valid()
      ensures r == Reverted(OutOfGas) <==> startgas < MintCost(variant, amount)
      ensures r == Reverted(Overflow)
          <==> startgas >= MintCost(variant, amount) && old(MintCounter()) + amount > MAX_UINT256
      ensures r == Minted <==> startgas >= MintCost(variant, amount) && old(MintCounter()) + amount <= MAX_UINT256
      ensures r.Reverted? ==> unchanged(this)
      ensures r == Minted ==>
        && totalSupply == old(totalSupply) + amount
        && old(BalanceOf(caller)) + amount <= MAX_UINT256
        && balances == Put(old(balances), caller, old(BalanceOf(caller)) + amount)
        && pool == Allocate(old(pool), amount)
        && allowances == old(allowances)
        && log == old(log)
    {
      if startgas < MintCost(variant, amount) {
        return Reverted(OutOfGas);
      }
      if MintCounter() + amount > MAX_UINT256 {
        return Reverted(Overflow);
      }
      MintKeepsConsistent(variant, totalSupply, balances, allowances, pool, caller, amount);
      balances := Put(balances, caller, BalanceOf(caller) + amount);
      totalSupply := totalSupply + amount;
      pool := Allocate(pool, amount);
      r := Minted;
    }

    /**
      The common effect of every free: `amount` tokens leave `owner`'s
      balance and the supply, the pool releases them, and the refund is paid
      for each slot or child actually destroyed.
    */
    predicate Burned(supply0: u256, balances0: map<Address, u256>, pool0: Pool, log0: seq<Event>,
                     owner: Address, amount: nat, starved: set<nat>, refund: nat)
      reads this`totalSupply, this`balances, this`pool, this`log
    {
      && amount <= Get(balances0, owner)
      && amount <= Outstanding(pool0)
      && totalSupply == supply0 - amount
      && balances == Put(balances0, owner, Get(balances0, owner) - amount)
      && pool == Deallocate(variant, pool0, amount, starved)
      && refund == Refund(variant, Destroyed(variant, pool0, amount, starved))
      && log == log0
    }

    method Burn(owner: Address, amount: u256, starved: set<nat>) returns (refund: nat)
      requires Valid() && amount <= BalanceOf(owner)
      modifies this
      ensures Valid()
      ensures Burned(old(totalSupply), old(balances), old(pool), old(log), owner, amount, starved, refund)
      ensures allowances == old(allowances)
    {
      BurnKeepsConsistent(variant, totalSupply, balances, allowances, pool, owner, amount, starved);
      refund := Refund(variant, Destroyed(variant, pool, amount, starved));
      balances := Put(balances, owner, BalanceOf(owner) - amount);
      totalSupply := totalSupply - amount;
      pool := Deallocate(variant, pool, amount, starved);
    }

    /**
      `free(value)`: burns value of the caller's tokens when the balance
      covers it and returns true; otherwise returns false and changes nothing.
      `starved` names the children whose destruction call runs short of gas.
    */
    method Free(caller: Address, value: u256, starved: set<nat>) returns (ok: bool, refund: nat)
      requires Valid()
      modifies this
      ensures Valid()
      ensures ok <==> value <= old(BalanceOf(caller))
      ensures !ok ==> unchanged(this) && refund == 0
      ensures ok ==> Burned(old(totalSupply), old(balances), old(pool), old(log), caller, value, starved, refund) && allowances == old(allowances)
      ensures ok && Unstarved(variant, old(pool), value, starved) ==> refund == Refund(variant, value)
    {
      if value > BalanceOf(caller) {
        return false, 0;
      }
      GetBelowSum(balances, caller);
      if Unstarved(variant, pool, value, starved) {
        FreeDestroysTargets(variant, pool, value, starved);
      }
      refund := Burn(caller, value, starved);
      ok := true;
    }

    /** `freeUpTo(value)`: burns as many of value tokens as the caller holds and returns that number. */
    method FreeUpTo(caller: Address, value: u256, starved: set<nat>) returns (freed: u256, refund: nat)
      requires Valid()
      modifies this
      ensures Valid()
      ensures freed == if value <= old(BalanceOf(caller)) then value else old(BalanceOf(caller))
      ensures Burned(old(totalSupply), old(balances), old(pool), old(log), caller, freed, starved, refund) && allowances == old(allowances)
      ensures Unstarved(variant, old(pool), freed, starved) ==> refund == Refund(variant, freed)
    {
      freed := if value <= BalanceOf(caller) then value else BalanceOf(caller);
      GetBelowSum(balances, caller);
      if Unstarved(variant, pool, freed, starved) {
        FreeDestroysTargets(variant, pool, freed, starved);
      }
      refund := Burn(caller, freed, starved);
    }

    /**
      `freeFrom(owner, value)`: burns value of owner's tokens on the
      caller's allowance, which drops by value; false and no change unless
      both the balance and the allowance cover value.
    */
    method FreeFrom(caller: Address, owner: Address, value: u256, starved: set<nat>)
      returns (ok: bool, refund: nat)
      requires Valid()
      modifies this
      ensures Valid()
      ensures ok <==> value <= old(BalanceOf(owner)) && value <= old(Allowance(owner, caller))
      ensures !ok ==> unchanged(this) && refund == 0
      ensures ok ==> && Burned(old(totalSupply), old(balances), old(pool), old(log), owner, value, starved, refund)
                     && allowances == Put(old(allowances), (owner, caller), old(Allowance(owner, caller)) - value)
      ensures ok && Unstarved(variant, old(pool), value, starved) ==> refund == Refund(variant, value)
    {
      if value > BalanceOf(owner) || value > Allowance(owner, caller) {
        return false, 0;
      }
      var allowed := Put(allowances, (owner, caller), Allowance(owner, caller) - value);
      GetBelowSum(balances, owner);
      if Unstarved(variant, pool, value, starved) {
        FreeDestroysTargets(variant, pool, value, starved);
      }
      refund := Burn(owner, value, starved);
      ApproveKeepsConsistent(variant, totalSupply, balances, allowances, pool, (owner, caller), old(Allowance(owner, caller)) - value);
      allowances := allowed;
      ok := true;
    }

    /**
      `freeFromUpTo(owner, value)`: burns the least of value, owner's
      balance and the caller's allowance, on that allowance, and returns it.
    */
    method FreeFromUpTo(caller: Address, owner: Address, value: u256, starved: set<nat>)
      returns (freed: u256, refund: nat)
      requires Valid()
      modifies this
      ensures Valid()
      ensures freed <= value && freed <= old(BalanceOf(owner)) && freed <= old(Allowance(owner, caller))
      ensures freed == value || freed == old(BalanceOf(owner)) || freed == old(Allowance(owner, caller))
      ensures Burned(old(totalSupply), old(balances), old(pool), old(log), owner, freed, starved, refund)
      ensures allowances == Put(old(allowances), (owner, caller), old(Allowance(owner, caller)) - freed)
      ensures Unstarved(variant, old(pool), freed, starved) ==> refund == Refund(variant, freed)
    {
      var balance, allowance := BalanceOf(owner), Allowance(owner, caller);
      freed := value;
      if balance < freed {
        freed := balance;
      }
      if allowance < freed {
        freed := allowance;
      }
      var allowed := Put(allowances, (owner, caller), allowance - freed);
      GetBelowSum(balances, owner);
      if Unstarved(variant, pool, freed, starved) {
        FreeDestroysTargets(variant, pool, freed, starved);
      }
      refund := Burn(owner, freed, starved);
      ApproveKeepsConsistent(variant, totalSupply, balances, allowances, pool, (owner, caller), allowance - freed);
      allowances := allowed;
    }

    /**
      The balance effect of a transfer: value leaves `from` and reaches `to`
      (`Move` says what that does to each account).
    */
    predicate Moved(balances0: map<Address, u256>, from: Address, to: Address, value: nat)
      reads this`balances
    {
      && value <= Get(balances0, from)
      && (from != to ==> Get(balances0, to) + value <= MAX_UINT256)
      && balances == Move(balances0, from, to, value)
    }

    /** Moves value from `from` to `to` and logs the Transfer event. */
    method Send(from: Address, to: Address, value: u256)
      requires Valid() && value <= BalanceOf(from)
      modifies this
      ensures Valid()
      ensures Moved(old(balances), from, to, value)
      ensures log == old(log) + [Event.Transfer(from, to, value)]
      ensures totalSupply == old(totalSupply) && allowances == old(allowances) && pool == old(pool)
    {
      MoveKeepsConsistent(variant, totalSupply, balances, allowances, pool, from, to, value);
      balances := Move(balances, from, to, value);
      log := log + [Event.Transfer(from, to, value)];
    }

    /**
      `transfer(to, value)`: true and the amount moves, with a Transfer
      event (even for 0), when the caller's balance covers it; otherwise
      false, no change and no event.
    */
    method Transfer(caller: Address, to: Address, value: u256) returns (ok: bool)
      requires Valid()
      modifies this
      ensures Valid()
      ensures ok <==> value <= old(BalanceOf(caller))
      ensures !ok ==> unchanged(this)
      ensures ok ==> && Moved(old(balances), caller, to, value)
                     && log == old(log) + [Event.Transfer(caller, to, value)]
                     && totalSupply == old(totalSupply) && allowances == old(allowances) && pool == old(pool)
    {
      if value > BalanceOf(caller) {
        return false;
      }
      Send(caller, to, value);
      ok := true;
    }

    /**
      `transferFrom(from, to, value)`: needs both from's balance and the
      caller's allowance to cover value; then the amount moves, the allowance
      drops by value and a Transfer event is logged.
    */
    method TransferFrom(caller: Address, from: Address, to: Address, value: u256) returns (ok: bool)
      requires Valid()
      modifies this
      ensures Valid()
      ensures ok <==> value <= old(BalanceOf(from)) && value <= old(Allowance(from, caller))
      ensures !ok ==> unchanged(this)
      ensures ok ==> && Moved(old(balances), from, to, value)
                     && allowances == Put(old(allowances), (from, caller), old(Allowance(from, caller)) - value)
                     && log == old(log) + [Event.Transfer(from, to, value)]
                     && totalSupply == old(totalSupply) && pool == old(pool)
    {
      if value > BalanceOf(from) || value > Allowance(from, caller) {
        return false;
      }
      Send(from, to, value);
      ApproveKeepsConsistent(variant, totalSupply, balances, allowances, pool, (from, caller), Allowance(from, caller) - value);
      allowances := Put(allowances, (from, caller), Allowance(from, caller) - value);
      ok := true;
    }

    /**
      `approve(spender, value)`: sets the allowance and logs Approval, unless
      both the current allowance and value are non-zero, in which case it
      returns false and changes nothing (the allowance must be reset to 0
      first).
    */
    method Approve(caller: Address, spender: Address, value: u256) returns (ok: bool)
      requires Valid()
      modifies this
      ensures Valid()
      ensures ok <==> value == 0 || old(Allowance(caller, spender)) == 0
      ensures !ok ==> unchanged(this)
      ensures ok ==> && allowances == Put(old(allowances), (caller, spender), value)
                     && log == old(log) + [Approval(caller, spender, value)]
                     && totalSupply == old(totalSupply) && balances == old(balances) && pool == old(pool)
    {
      if value != 0 && Allowance(caller, spender) != 0 {
        return false;
      }
      ApproveKeepsConsistent(variant, totalSupply, balances, allowances, pool, (caller, spender), value);
      allowances := Put(allowances, (caller, spender), value);
      log := log + [Approval(caller, spender, value)];
      ok := true;
    }
  }
}
