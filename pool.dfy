/**
  What backs each token. GST1 tokens are storage slots, and only their number
  is observable. GST2 tokens are child contracts in a first-in-first-out queue.
  A mint counter `head` means the children with nonces 1 .. head were created.
  A free counter `tail` means the tokens for children 1 .. tail were burnt.
  The children tail+1 .. head are queued and have code; `orphans` are the
  burnt children whose destruction failed, which keep their code for good.
*/
module Pool {

  /** The chain a GST2 deployment targets; ETH has the partial-free defect, ETC the fix. */
  datatype Chain = ETH | ETC

  datatype Variant = GST1 | GST2(chain: Chain)

  datatype Pool = Slots(count: nat) | Children(head: nat, tail: nat, orphans: set<nat>)

  /**
    The queue's own bookkeeping: freed children form a prefix of the created
    ones, orphans are among the freed, and the fixed ETC deployment has none.
  */
  ghost predicate Wf(v: Variant, p: Pool)
  {
    match v
    case GST1 => p.Slots?
    case GST2(chain) =>
      && p.Children?
      && p.tail <= p.head
      && (forall k :: k in p.orphans ==> 1 <= k <= p.tail)
      && (chain == ETC ==> p.orphans == {})
  }

  /** Tokens backed by the pool: live slots, or children minted but not freed. */
  function Outstanding(p: Pool): nat
  {
    match p
    case Slots(count) => count
    case Children(head, tail, _) => if tail <= head then head - tail else 0
  }

  /** The contract's own account nonce: one more than the number of children it created. */
  function ContractNonce(p: Pool): nat
    requires p.Children?
  {
    p.head + 1
  }

  /** Back n more tokens: n more slots, or n children created at the next nonces. */
  function Allocate(p: Pool, n: nat): Pool
  {
    match p
    case Slots(count) => Slots(count + n)
    case Children(head, tail, orphans) => Children(head + n, tail, orphans)
  }

  /** Child k is one of the n a free turns to, the oldest queued ones. */
  predicate Target(p: Pool, n: nat, k: nat)
  {
    p.Children? && p.tail < k <= p.tail + n
  }

  /**
    The targets of a free of n tokens whose destruction call fails.
    `starved` names the nonces whose call the ETH contract forwards too
    little gas to; the ETC contract's workaround destroys every target.
  */
  function Spared(v: Variant, p: Pool, n: nat, starved: set<nat>): (r: set<nat>)
    ensures forall k :: k in r ==> Target(p, n, k)
    ensures forall k :: Target(p, n, k) && k in starved && v == GST2(ETH) ==> k in r
    ensures v != GST2(ETH) ==> r == {}
  {
    if v == GST2(ETH) && p.Children? then set k | k in starved && Target(p, n, k) else {}
  }

  /** Release n tokens. GST1 drops n slots; GST2 moves the free counter past n children. */
  function Deallocate(v: Variant, p: Pool, n: nat, starved: set<nat>): (r: Pool)
    requires n <= Outstanding(p)
  {
    match p
    case Slots(count) => Slots(count - n)
    case Children(head, tail, orphans) => Children(head, tail + n, orphans + Spared(v, p, n, starved))
  }

  /** A set of nonces inside an interval of n nonces has at most n members. */
  lemma {:induction false} IntervalSubsetSize(s: set<nat>, lo: nat, n: nat)
    requires forall k :: k in s ==> lo <= k < lo + n
    ensures |s| <= n
    decreases n
  {
    if n == 0 {
      assert s == {};
    } else {
      IntervalSubsetSize(s - {lo + n - 1}, lo, n - 1);
    }
  }

  /** At most n targets can be spared. */
  lemma SparedAtMost(v: Variant, p: Pool, n: nat, starved: set<nat>)
    requires p.Children?
    ensures |Spared(v, p, n, starved)| <= n
  {
    IntervalSubsetSize(Spared(v, p, n, starved), p.tail + 1, n);
  }

  /** Number of slots cleared or children self-destructed by `Deallocate`. */
  function Destroyed(v: Variant, p: Pool, n: nat, starved: set<nat>): (r: nat)
    requires n <= Outstanding(p)
    ensures r <= n
  {
    match p
    case Slots(_) => n
    case Children(_, _, _) =>
      SparedAtMost(v, p, n, starved);
      n - |Spared(v, p, n, starved)|
  }

  /** Whether the child with this nonce has code: it is queued, or an orphan. */
  predicate HasCode(p: Pool, nonce: nat)
  {
    p.Children? && (p.tail < nonce <= p.head || nonce in p.orphans)
  }

  /** A child whose token was burnt but whose contract survived. */
  predicate Orphan(p: Pool, nonce: nat)
  {
    p.Children? && nonce in p.orphans
  }

  /**
    Minting keeps the queue well formed, backs exactly n more tokens and
    creates the children head+1 .. head+n, leaving every other child as it was.
  */
  lemma AllocateSpec(v: Variant, p: Pool, n: nat)
    requires Wf(v, p)
    ensures Wf(v, Allocate(p, n))
    ensures Outstanding(Allocate(p, n)) == Outstanding(p) + n
    ensures p.Children? ==> && ContractNonce(Allocate(p, n)) == ContractNonce(p) + n
                            && forall k: nat :: 1 <= k ==>
                                 (HasCode(Allocate(p, n), k) <==> HasCode(p, k) || p.head < k <= p.head + n)
  {
  }

  /**
    Freeing n tokens keeps the queue well formed and backs exactly n fewer
    tokens; the free counter moves by n and the mint counter stays.
  */
  lemma DeallocateSpec(v: Variant, p: Pool, n: nat, starved: set<nat>)
    requires Wf(v, p) && n <= Outstanding(p)
    ensures Wf(v, Deallocate(v, p, n, starved))
    ensures Outstanding(Deallocate(v, p, n, starved)) == Outstanding(p) - n
    ensures p.Children? ==> (Deallocate(v, p, n, starved).head == p.head
                             && Deallocate(v, p, n, starved).tail == p.tail + n)
  {
  }

  /**
    What a free does to the children: a target loses its code unless it was
    spared, and every child that is not a target keeps its state.
  */
  lemma FreeEffect(v: Variant, p: Pool, n: nat, starved: set<nat>, k: nat)
    requires Wf(v, p) && p.Children? && n <= Outstanding(p)
    ensures HasCode(Deallocate(v, p, n, starved), k)
        <==> (HasCode(p, k) && !Target(p, n, k)) || k in Spared(v, p, n, starved)
    ensures Orphan(Deallocate(v, p, n, starved), k) <==> Orphan(p, k) || k in Spared(v, p, n, starved)
  {
  }

  /**
    Frees are first-in-first-out: the children a free destroys are older than
    every child still queued after it.
  */
  lemma FreeIsFifo(v: Variant, p: Pool, n: nat, starved: set<nat>, killed: nat, kept: nat)
    requires Wf(v, p) && p.Children? && n <= Outstanding(p)
    requires Target(p, n, killed) && killed !in Spared(v, p, n, starved)
    requires HasCode(Deallocate(v, p, n, starved), kept) && kept > Deallocate(v, p, n, starved).tail
    ensures killed < kept && !HasCode(Deallocate(v, p, n, starved), killed)
  {
  }

  /**
    No destruction call of this free is starved: always so on GST1 and on the
    fixed ETC deployment, and on ETH when no target's call runs short of gas.
  */
  predicate Unstarved(v: Variant, p: Pool, n: nat, starved: set<nat>)
  {
    v != GST2(ETH) || forall k :: k in starved ==> !Target(p, n, k)
  }

  /**
    Without a starved destruction call, every freed token takes its slot or
    child with it: exactly n are destroyed, the children destroyed are exactly
    the n oldest queued ones, and no child becomes an orphan.
  */
  lemma FreeDestroysTargets(v: Variant, p: Pool, n: nat, starved: set<nat>)
    requires Wf(v, p) && n <= Outstanding(p)
    requires Unstarved(v, p, n, starved)
    ensures Destroyed(v, p, n, starved) == n
    ensures p.Children? ==> Deallocate(v, p, n, starved).orphans == p.orphans
    ensures forall k: nat :: HasCode(Deallocate(v, p, n, starved), k) <==> HasCode(p, k) && !Target(p, n, k)
  {
    if p.Children? {
      assert Spared(v, p, n, starved) == {};
    }
  }

  /**
    The ETH defect: a starved target loses its token but keeps its code, so
    it becomes an orphan, and the destroyed count falls short of n by the
    number of starved targets.
  */
  lemma StarvedTargetsOrphaned(p: Pool, n: nat, starved: set<nat>)
    requires Wf(GST2(ETH), p) && p.Children? && n <= Outstanding(p)
    ensures Destroyed(GST2(ETH), p, n, starved) == n - |set k | k in starved && Target(p, n, k)|
    ensures forall k: nat ::
              Orphan(Deallocate(GST2(ETH), p, n, starved), k) <==> Orphan(p, k) || (k in starved && Target(p, n, k))
  {
  }

  /** A free with no starved destruction call moves the free counter by n and orphans nothing. */
  lemma DeallocateNoneStarved(v: Variant, p: Pool, n: nat)
    requires p.Children? && n <= Outstanding(p)
    ensures Deallocate(v, p, n, {}) == Children(p.head, p.tail + n, p.orphans)
  {
    assert Spared(v, p, n, {}) == {};
  }

  /** Once orphaned, a child stays live for good: no later mint or free reaches it. */
  lemma OrphanPermanent(v: Variant, p: Pool, nonce: nat, n: nat, starved: set<nat>)
    requires Wf(v, p) && Orphan(p, nonce)
    ensures Orphan(Allocate(p, n), nonce) && HasCode(Allocate(p, n), nonce)
    ensures n <= Outstanding(p) ==> (Orphan(Deallocate(v, p, n, starved), nonce)
                                     && HasCode(Deallocate(v, p, n, starved), nonce))
  {
  }

  /** On the fixed ETC deployment a child has code exactly when tail < nonce <= head. */
  lemma EtcLiveIffQueued(p: Pool, nonce: nat)
    requires Wf(GST2(ETC), p)
    ensures HasCode(p, nonce) <==> p.tail < nonce <= p.head
    ensures !Orphan(p, nonce)
  {
  }

  /**
    Only a free takes a child's code away: a mint keeps every child that has
    code, and a child that loses its code in a free was one of the free's
    targets and was not spared.
  */
  lemma CodeLostOnlyByFree(v: Variant, p: Pool, n: nat, starved: set<nat>, k: nat)
    requires Wf(v, p) && HasCode(p, k)
    ensures HasCode(Allocate(p, n), k)
    ensures n <= Outstanding(p) ==>
              (!HasCode(Deallocate(v, p, n, starved), k) ==> Target(p, n, k) && k !in Spared(v, p, n, starved))
  {
  }

  /**
    What a transaction to a child's address does: an address without code
    runs nothing; a child reverts a call from anyone but the token, and
    self-destructs on a call from the token.
  */
  datatype ChildCall = NoCode | Rejected | SelfDestructed
}
