/**
  BTCGasToken: a table of bets on the bitcoin transaction fee. A maker
  escrows makerAmount and names a trigger price and a trigger block height;
  a taker matches it with takerAmount before the trigger height; once the
  height is reached anyone may settle, which asks the price oracle for the
  fee (paying the oracle its fee out of the pot) and pays the pot to the
  maker when the price stays below the trigger price and to the taker
  otherwise. An untaken derivative can be canceled by its maker.

  Every call either succeeds or reverts with no effect. The block height,
  the value sent with a call, the oracle's request id or error code and
  the reported price are inputs.
*/
module BtcGasToken {
  import opened Words

  const NAME: string := "BTCFees by gastoken.io"
  const SYMBOL: string := "BTCF"

  /** The oracle's charge for one price request, in wei. */
  const ORACLE_FEE: nat := 7_500_000_000_000_000

  /** What the maker fixes when minting; never changed afterwards. */
  datatype Terms = Terms(maker: Address, makerAmount: nat, takerAmount: nat,
                         triggerPrice: nat, triggerHeight: nat)

  /**
    Where a derivative is in its life: created and open to takers, taken,
    waiting for the oracle's answer to `request`, settled, or canceled.
  */
  datatype Phase =
    | Open
    | Taken(taker: Address)
    | Requested(taker: Address, request: nat)
    | Settled(taker: Address)
    | Canceled

  datatype Derivative = Derivative(terms: Terms, phase: Phase)

  datatype Event =
    | DerivativeCreated(id: nat, terms: Terms)
    | DerivativeTaken(id: nat, terms: Terms, taker: Address)
    | DerivativeCanceled(id: nat, terms: Terms)
    | RequestStatus(request: int)
    | DerivativeSettled(id: nat, terms: Terms, taker: Address, price: nat)
    | DerivativeError(id: nat, terms: Terms, taker: Address, code: int)

  /** A comparison whose behaviour at equality is not pinned down. */
  datatype Bound = Strict | Inclusive

  predicate Exceeds(b: Bound, x: int, y: int)
  {
    if b == Strict then x > y else x >= y
  }

  /**
    The deployment: the oracle's address, the least value a mint must
    escrow, and how each height or price comparison whose equality case is
    open treats it (mint refuses a trigger height the block has passed,
    take refuses once the block passes the trigger height, and the maker
    wins when the trigger price exceeds the reported price).
  */
  datatype Config = Config(oracle: Address, minValue: nat, mintTooLate: Bound,
                           takeTooLate: Bound, makerWinsAt: Bound)

  /** The minimum value lies between 3000 wei (refused) and 1e16 wei (accepted). */
  predicate ConfigOk(c: Config)
  {
    3000 < c.minValue <= 10_000_000_000_000_000
  }

  /** How a taken derivative ends. */
  datatype Outcome = MakerWins | TakerWins | OracleError

  /** The outcome for a reported price, or for an oracle error code other than 0. */
  function Decide(c: Config, t: Terms, error: int, price: nat): (o: Outcome)
    ensures o == OracleError <==> error != 0
    ensures o == MakerWins <==> error == 0 && Exceeds(c.makerWinsAt, t.triggerPrice, price)
  {
    if error != 0 then OracleError
    else if Exceeds(c.makerWinsAt, t.triggerPrice, price) then MakerWins
    else TakerWins
  }

  /**
    What the maker and the taker receive when a taken derivative closes.
    The oracle's fee comes out of the pot in every outcome: the winner gets
    the rest; on an oracle error the maker gets the stake back in full and
    the taker bears the fee.
  */
  function Payout(t: Terms, o: Outcome): (p: (nat, nat))
    requires t.takerAmount > ORACLE_FEE
    ensures p.0 + p.1 + ORACLE_FEE == t.makerAmount + t.takerAmount
    ensures o == MakerWins ==> p.1 == 0
    ensures o == TakerWins ==> p.0 == 0
    ensures o == OracleError ==> p.0 == t.makerAmount
  {
    match o
    case MakerWins => (t.makerAmount + t.takerAmount - ORACLE_FEE, 0)
    case TakerWins => (0, t.makerAmount + t.takerAmount - ORACLE_FEE)
    case OracleError => (t.makerAmount, t.takerAmount - ORACLE_FEE)
  }

  // Wallets: the wei each account holds outside the contract

  function Balance(w: map<Address, nat>, a: Address): nat
  {
    if a in w then w[a] else 0
  }

  function Credit(w: map<Address, nat>, a: Address, x: nat): (w': map<Address, nat>)
    ensures forall b :: Balance(w', b) == Balance(w, b) + (if b == a then x else 0)
  {
    w[a := Balance(w, a) + x]
  }

  function Debit(w: map<Address, nat>, a: Address, x: nat): (w': map<Address, nat>)
    requires x <= Balance(w, a)
    ensures forall b :: Balance(w', b) == Balance(w, b) - (if b == a then x else 0)
  {
    w[a := Balance(w, a) - x]
  }

  /** The wallets after a taken derivative closes with outcome o. */
  function Close(w: map<Address, nat>, t: Terms, taker: Address, o: Outcome): (w': map<Address, nat>)
    requires t.takerAmount > ORACLE_FEE
    ensures forall b :: Balance(w', b) == Balance(w, b) + (if b == t.maker then Payout(t, o).0 else 0)
                                                        + (if b == taker then Payout(t, o).1 else 0)
  {
    Credit(Credit(w, t.maker, Payout(t, o).0), taker, Payout(t, o).1)
  }

  // Escrow accounting

  /** The wei the contract holds for a derivative in its current phase. */
  function Held(d: Derivative): int
  {
    match d.phase
    case Open => d.terms.makerAmount
    case Taken(_) => d.terms.makerAmount + d.terms.takerAmount
    case Requested(_, _) => d.terms.makerAmount + d.terms.takerAmount - ORACLE_FEE
    case Settled(_) => 0
    case Canceled => 0
  }

  /** The wei the contract holds for all derivatives. */
  function Locked(ds: seq<Derivative>): int
  {
    if |ds| == 0 then 0 else Locked(ds[..|ds| - 1]) + Held(ds[|ds| - 1])
  }

  lemma LockedAppend(ds: seq<Derivative>, d: Derivative)
    ensures Locked(ds + [d]) == Locked(ds) + Held(d)
  {
    assert (ds + [d])[..|ds|] == ds;
  }

  /** Changing one derivative changes the locked total by the change in what it holds. */
  lemma {:induction false} LockedUpdate(ds: seq<Derivative>, i: nat, d: Derivative)
    requires i < |ds|
    ensures Locked(ds[i := d]) == Locked(ds) - Held(ds[i]) + Held(d)
    decreases |ds|
  {
    var last := |ds| - 1;
    if i < last {
      LockedUpdate(ds[..last], i, d);
      assert ds[i := d][..last] == ds[..last][i := d];
    } else {
      assert ds[i := d][..last] == ds[..last];
    }
  }

  /** The contract never holds a negative amount for its derivatives. */
  lemma {:induction false} LockedNonNegative(ds: seq<Derivative>)
    requires forall i :: 0 <= i < |ds| ==> ds[i].terms.takerAmount > ORACLE_FEE
    ensures Locked(ds) >= 0
    decreases |ds|
  {
    if |ds| > 0 {
      LockedNonNegative(ds[..|ds| - 1]);
    }
  }

  /** Nothing is held for a closed derivative, so it can never pay out again. */
  lemma {:induction false} ClosedHoldNothing(ds: seq<Derivative>)
    requires forall i :: 0 <= i < |ds| ==> ds[i].phase.Settled? || ds[i].phase.Canceled?
    ensures Locked(ds) == 0
    decreases |ds|
  {
    if |ds| > 0 {
      ClosedHoldNothing(ds[..|ds| - 1]);
    }
  }

  /**
    Whether phase q can follow phase p, in any number of calls: forward
    along the lifecycle, keeping the taker once there is one, or not at all.
  */
  predicate Advances(p: Phase, q: Phase)
  {
    match p
    case Open => true
    case Taken(t) => q == p || q == Settled(t) || (q.Requested? && q.taker == t)
    case Requested(t, _) => q == p || q == Settled(t)
    case Settled(_) => q == p
    case Canceled => q == p
  }

  /** Every existing derivative keeps its terms and its phase only moves forward. */
  predicate Evolves(ds: seq<Derivative>, ds': seq<Derivative>)
  {
    && |ds| <= |ds'|
    && (forall i :: 0 <= i < |ds| ==> ds'[i].terms == ds[i].terms && Advances(ds[i].phase, ds'[i].phase))
  }

  /** Lifecycle steps compose: what one call after another does is again a forward move. */
  lemma EvolvesTransitive(ds: seq<Derivative>, ds': seq<Derivative>, ds'': seq<Derivative>)
    requires Evolves(ds, ds') && Evolves(ds', ds'')
    ensures Evolves(ds, ds'')
  {
    forall i | 0 <= i < |ds|
      ensures ds''[i].terms == ds[i].terms && Advances(ds[i].phase, ds''[i].phase)
    {
      assert Advances(ds[i].phase, ds'[i].phase) && Advances(ds'[i].phase, ds''[i].phase);
    }
  }

  /** A settled or canceled derivative stays so for good. */
  lemma ClosedIsFinal(ds: seq<Derivative>, ds': seq<Derivative>, i: nat)
    requires Evolves(ds, ds') && i < |ds|
    requires ds[i].phase.Settled? || ds[i].phase.Canceled?
    ensures ds'[i] == ds[i]
  {
  }

  // The guards of each call

  predicate MintAccepted(c: Config, funds: nat, value: nat, takerAmount: nat, triggerHeight: nat, block: nat)
  {
    && value >= c.minValue
    && !Exceeds(c.mintTooLate, block, triggerHeight)
    && takerAmount > ORACLE_FEE
    && value <= funds
  }

  predicate TakeAccepted(c: Config, ds: seq<Derivative>, funds: nat, id: nat, value: nat, block: nat)
  {
    && id < |ds|
    && !Exceeds(c.takeTooLate, block, ds[id].terms.triggerHeight)
    && ds[id].phase.Open?
    && value >= ds[id].terms.takerAmount
    && value <= funds
  }

  predicate CancelAccepted(ds: seq<Derivative>, caller: Address, id: nat)
  {
    id < |ds| && caller == ds[id].terms.maker && ds[id].phase.Open?
  }

  /** Settle needs a taken derivative whose trigger height the block has reached, equality included. */
  predicate SettleAccepted(ds: seq<Derivative>, id: nat, block: nat)
  {
    id < |ds| && block >= ds[id].terms.triggerHeight && ds[id].phase.Taken?
  }

  class BtcGasToken {
    const config: Config
    /** The derivative table; an id is an index, so the supply is its length. */
    var derivatives: seq<Derivative>
    var wallets: map<Address, nat>
    /** The contract's own balance in wei. */
    var escrow: nat
    /** Wei sent to `take` beyond the taker amount; it stays in the contract. */
    var surplus: nat
    /** Open oracle requests: request id to derivative id. */
    var pending: map<nat, nat>
    var log: seq<Event>

    /**
      Every derivative's taker amount covers the oracle fee, the contract
      holds exactly what its derivatives hold plus the surplus, and every
      open oracle request points at a derivative waiting for that answer.
    */
    ghost predicate Valid()
      reads this
    {
      && (forall i :: 0 <= i < |derivatives| ==> derivatives[i].terms.takerAmount > ORACLE_FEE)
      && escrow == Locked(derivatives) + surplus
      && (forall r :: r in pending ==>
            && pending[r] < |derivatives|
            && derivatives[pending[r]].phase.Requested?
            && derivatives[pending[r]].phase.request == r)
    }

    constructor (config: Config, wallets: map<Address, nat>)
      ensures Valid()
      ensures this.config == config && this.wallets == wallets
      ensures derivatives == [] && escrow == 0 && surplus == 0 && pending == map[] && log == []
    {
      this.config := config;
      this.wallets := wallets;
      derivatives := [];
      escrow := 0;
      surplus := 0;
      pending := map[];
      log := [];
    }

    /** The number of derivatives ever minted. */
    function TotalSupply(): nat
      reads this
    {
      |derivatives|
    }

    function WalletOf(a: Address): nat
      reads this
    {
      Balance(wallets, a)
    }

    /**
      `mint(takerAmount, triggerPrice, triggerHeight)` sent with `value`:
      a new open derivative with the next id, escrowing value as the
      maker's stake, and a DerivativeCreated event; it reverts when the
      value is below the minimum, the trigger height has passed, the taker
      amount does not exceed the oracle fee, or the caller cannot pay.
    */
    method Mint(caller: Address, value: nat, takerAmount: nat, triggerPrice: nat, triggerHeight: nat, block: nat)
      returns (ok: bool, id: nat)
      requires Valid()
      modifies this
      ensures Valid()
      ensures ok <==> MintAccepted(config, old(WalletOf(caller)), value, takerAmount, triggerHeight, block)
      ensures !ok ==> unchanged(this)
      ensures ok ==>
        var terms := Terms(caller, value, takerAmount, triggerPrice, triggerHeight);
        && id == old(|derivatives|)
        && derivatives == old(derivatives) + [Derivative(terms, Open)]
        && wallets == Debit(old(wallets), caller, value)
        && escrow == old(escrow) + value && surplus == old(surplus) && pending == old(pending)
        && log == old(log) + [DerivativeCreated(id, terms)]
      ensures Evolves(old(derivatives), derivatives)
    {
      if !MintAccepted(config, WalletOf(caller), value, takerAmount, triggerHeight, block) {
        return false, 0;
      }
      var terms := Terms(caller, value, takerAmount, triggerPrice, triggerHeight);
      id := |derivatives|;
      LockedAppend(derivatives, Derivative(terms, Open));
      derivatives := derivatives + [Derivative(terms, Open)];
      wallets := Debit(wallets, caller, value);
      escrow := escrow + value;
      log := log + [DerivativeCreated(id, terms)];
      ok := true;
    }

    /**
      `take(id)` sent with `value`: the caller becomes the taker of an open
      derivative whose trigger height has not passed, paying at least the
      taker amount, with a DerivativeTaken event; otherwise it reverts.
    */
    method Take(caller: Address, id: nat, value: nat, block: nat) returns (ok: bool)
      requires Valid()
      modifies this
      ensures Valid()
      ensures ok <==> TakeAccepted(config, old(derivatives), old(WalletOf(caller)), id, value, block)
      ensures !ok ==> unchanged(this)
      ensures ok ==>
        var terms := old(derivatives[id].terms);
        && derivatives == old(derivatives)[id := Derivative(terms, Taken(caller))]
        && wallets == Debit(old(wallets), caller, value)
        && escrow == old(escrow) + value
        && surplus == old(surplus) + (value - terms.takerAmount)
        && pending == old(pending)
        && log == old(log) + [DerivativeTaken(id, terms, caller)]
      ensures Evolves(old(derivatives), derivatives)
    {
      if !TakeAccepted(config, derivatives, WalletOf(caller), id, value, block) {
        return false;
      }
      var terms := derivatives[id].terms;
      LockedUpdate(derivatives, id, Derivative(terms, Taken(caller)));
      derivatives := derivatives[id := Derivative(terms, Taken(caller))];
      wallets := Debit(wallets, caller, value);
      escrow := escrow + value;
      surplus := surplus + (value - terms.takerAmount);
      log := log + [DerivativeTaken(id, terms, caller)];
      ok := true;
    }

    /**
      `cancel(id)`: the maker withdraws an untaken derivative and gets the
      stake back, with a DerivativeCanceled event; anyone else, a taken or
      closed derivative, or an unknown id, reverts.
    */
    method Cancel(caller: Address, id: nat) returns (ok: bool)
      requires Valid()
      modifies this
      ensures Valid()
      ensures ok <==> CancelAccepted(old(derivatives), caller, id)
      ensures !ok ==> unchanged(this)
      ensures ok ==>
        var terms := old(derivatives[id].terms);
        && derivatives == old(derivatives)[id := Derivative(terms, Canceled)]
        && wallets == Credit(old(wallets), caller, terms.makerAmount)
        && escrow == old(escrow) - terms.makerAmount
        && surplus == old(surplus) && pending == old(pending)
        && log == old(log) + [DerivativeCanceled(id, terms)]
      ensures Evolves(old(derivatives), derivatives)
    {
      if !CancelAccepted(derivatives, caller, id) {
        return false;
      }
      var terms := derivatives[id].terms;
      LockedUpdate(derivatives, id, Derivative(terms, Canceled));
      derivatives := derivatives[id := Derivative(terms, Canceled)];
      LockedNonNegative(derivatives);
      wallets := Credit(wallets, caller, terms.makerAmount);
      escrow := escrow - terms.makerAmount;
      log := log + [DerivativeCanceled(id, terms)];
      ok := true;
    }

    /**
      `settle(id)`, callable by anyone once the trigger height is reached on
      a taken derivative: pays the oracle its fee and asks for the price.
      `response` is what the oracle's request returns: a request id, whose
      answer later arrives through `PriceCallback`, or a negative error
      code, in which case the derivative closes at once with the error
      refund and a DerivativeError event.
    */
    method Settle(id: nat, block: nat, response: int) returns (ok: bool)
      requires Valid()
      modifies this
      ensures Valid()
      ensures ok <==> SettleAccepted(old(derivatives), id, block)
      ensures !ok ==> unchanged(this)
      ensures ok ==>
        var terms, taker := old(derivatives[id].terms), old(derivatives[id].phase.taker);
        var paid := Credit(old(wallets), config.oracle, ORACLE_FEE);
        && surplus == old(surplus)
        && (response >= 0 ==>
              && derivatives == old(derivatives)[id := Derivative(terms, Requested(taker, response))]
              && wallets == paid
              && escrow == old(escrow) - ORACLE_FEE
              && pending == old(pending)[response := id]
              && log == old(log) + [RequestStatus(response)])
        && (response < 0 ==>
              && derivatives == old(derivatives)[id := Derivative(terms, Settled(taker))]
              && wallets == Close(paid, terms, taker, OracleError)
              && escrow == old(escrow) - (terms.makerAmount + terms.takerAmount)
              && pending == old(pending)
              && log == old(log) + [DerivativeError(id, terms, taker, response)])
      ensures Evolves(old(derivatives), derivatives)
    {
      if !SettleAccepted(derivatives, id, block) {
        return false;
      }
      if response >= 0 {
        Request(id, response);
      } else {
        RefundOnError(id, response);
      }
      ok := true;
    }

    /**
      Pays the oracle its fee for `request` and waits for the answer. A
      request id the oracle hands out again is re-pointed at this derivative.
    */
    method Request(id: nat, request: nat)
      requires Valid() && id < |derivatives| && derivatives[id].phase.Taken?
      modifies this
      ensures Valid()
      ensures
        var terms, taker := old(derivatives[id].terms), old(derivatives[id].phase.taker);
        && derivatives == old(derivatives)[id := Derivative(terms, Requested(taker, request))]
        && wallets == Credit(old(wallets), config.oracle, ORACLE_FEE)
        && escrow == old(escrow) - ORACLE_FEE
        && surplus == old(surplus)
        && pending == old(pending)[request := id]
        && log == old(log) + [RequestStatus(request)]
    {
      var terms, taker := derivatives[id].terms, derivatives[id].phase.taker;
      var d := Derivative(terms, Requested(taker, request));
      LockedUpdate(derivatives, id, d);
      derivatives := derivatives[id := d];
      LockedNonNegative(derivatives);
      wallets := Credit(wallets, config.oracle, ORACLE_FEE);
      escrow := escrow - ORACLE_FEE;
      pending := pending[request := id];
      log := log + [RequestStatus(request)];
    }

    /**
      The oracle refused the request with error `code` but kept its fee:
      the derivative closes with the error refund.
    */
    method RefundOnError(id: nat, code: int)
      requires Valid() && id < |derivatives| && derivatives[id].phase.Taken?
      modifies this
      ensures Valid()
      ensures
        var terms, taker := old(derivatives[id].terms), old(derivatives[id].phase.taker);
        && derivatives == old(derivatives)[id := Derivative(terms, Settled(taker))]
        && wallets == Close(Credit(old(wallets), config.oracle, ORACLE_FEE), terms, taker, OracleError)
        && escrow == old(escrow) - (terms.makerAmount + terms.takerAmount)
        && surplus == old(surplus) && pending == old(pending)
        && log == old(log) + [DerivativeError(id, terms, taker, code)]
    {
      var terms, taker := derivatives[id].terms, derivatives[id].phase.taker;
      var d := Derivative(terms, Settled(taker));
      LockedUpdate(derivatives, id, d);
      derivatives := derivatives[id := d];
      LockedNonNegative(derivatives);
      wallets := Close(Credit(wallets, config.oracle, ORACLE_FEE), terms, taker, OracleError);
      escrow := escrow - (terms.makerAmount + terms.takerAmount);
      log := log + [DerivativeError(id, terms, taker, code)];
    }

    /**
      `tcBTCFeeHandler`: the oracle's answer to an open request. Only the
      oracle may call it. The derivative closes: with a price, the pot less
      the oracle fee goes to the maker when the trigger price exceeds the
      price and to the taker otherwise (DerivativeSettled); with an error
      code, the error refund applies (DerivativeError).
    */
    method PriceCallback(caller: Address, request: nat, error: int, price: nat) returns (ok: bool)
      requires Valid()
      modifies this
      ensures Valid()
      ensures ok <==> caller == config.oracle && request in old(pending)
      ensures !ok ==> unchanged(this)
      ensures ok ==>
        var id := old(pending[request]);
        var terms, taker := old(derivatives[id].terms), old(derivatives[id].phase.taker);
        var outcome := Decide(config, terms, error, price);
        && id < |derivatives|
        && old(derivatives[id].phase) == Requested(taker, request)
        && derivatives == old(derivatives)[id := Derivative(terms, Settled(taker))]
        && wallets == Close(old(wallets), terms, taker, outcome)
        && escrow == old(escrow) - (terms.makerAmount + terms.takerAmount - ORACLE_FEE)
        && surplus == old(surplus)
        && pending == old(pending) - {request}
        && log == old(log) + [if error != 0 then DerivativeError(id, terms, taker, error)
                                            else DerivativeSettled(id, terms, taker, price)]
      ensures Evolves(old(derivatives), derivatives)
    {
      if caller != config.oracle || request !in pending {
        return false;
      }
      var id := pending[request];
      var terms, taker := derivatives[id].terms, derivatives[id].phase.taker;
      var outcome := Decide(config, terms, error, price);
      var d := Derivative(terms, Settled(taker));
      LockedUpdate(derivatives, id, d);
      derivatives := derivatives[id := d];
      LockedNonNegative(derivatives);
      wallets := Close(wallets, terms, taker, outcome);
      escrow := escrow - (terms.makerAmount + terms.takerAmount - ORACLE_FEE);
      pending := pending - {request};
      log := log + [if error != 0 then DerivativeError(id, terms, taker, error)
                                  else DerivativeSettled(id, terms, taker, price)];
      ok := true;
    }
  }

  /**
    Once every derivative is settled or cancelled the contract's balance is
    its surplus alone: whatever the bets held has been paid out.
  */
  lemma ClosedEscrowIsSurplus(c: BtcGasToken)
    requires c.Valid()
    requires forall i :: 0 <= i < |c.derivatives| ==> c.derivatives[i].phase.Settled? || c.derivatives[i].phase.Canceled?
    ensures c.escrow == c.surplus
  {
    ClosedHoldNothing(c.derivatives);
  }
}
