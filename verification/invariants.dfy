/**
 * Invariants that tie the pallets' storage items to each other, and their
 * preservation by every dispatchable.
 *
 * The supply and the reserved-burn bookkeeping are stated as sums over the
 * request ids handed out so far (every id below the counter): `TotalSupply`
 * is what the Completed mints added minus what the Completed burns removed,
 * each account's `ReservedBurns` entry is the sum of its Reserved burn
 * requests, and the ledger's reserved balance of the account is exactly that
 * entry.
 *
 * The id counters saturate at u64::MAX, after which a new request replaces
 * the one stored under u64::MAX.  Preservation of the id invariants is
 * therefore proved under `Headroom`: the counter about to be used is below
 * u64::MAX.
 */
module Invariants {
  import opened Primitives
  import opened Storage
  import Ledger
  import Kyc
  import Compliance
  import VeloPay

  // ---------------------------------------------------- sums over ids

  /** f(0) + f(1) + ... + f(n - 1). */
  function SumBelow(f: int -> nat, n: nat): nat
  {
    if n == 0 then 0 else SumBelow(f, n - 1) + f(n - 1)
  }

  lemma {:induction false} SumBelowAgree(f: int -> nat, g: int -> nat, n: nat)
    requires forall i :: 0 <= i < n ==> f(i) == g(i)
    ensures SumBelow(f, n) == SumBelow(g, n)
  {
    if n > 0 {
      SumBelowAgree(f, g, n - 1);
    }
  }

  /** Changing one term below `n` changes the sum by the difference of that term. */
  lemma {:induction false} SumBelowUpdate(f: int -> nat, g: int -> nat, n: nat, k: int)
    requires 0 <= k < n
    requires forall i :: 0 <= i < n && i != k ==> f(i) == g(i)
    ensures SumBelow(g, n) == SumBelow(f, n) - f(k) + g(k)
  {
    if k == n - 1 {
      SumBelowAgree(f, g, n - 1);
    } else {
      SumBelowUpdate(f, g, n - 1, k);
    }
  }

  /** Every term below `n` is part of the sum. */
  lemma {:induction false} SumBelowTerm(f: int -> nat, n: nat, k: int)
    requires 0 <= k < n
    ensures f(k) <= SumBelow(f, n)
  {
    if k < n - 1 {
      SumBelowTerm(f, n - 1, k);
    }
  }

  // ----------------------------------------------- per-request terms

  /** What mint request `i` has added to the supply: its amount once Completed. */
  function MintedAt(m: map<u64, MintRequest>, i: int): nat
  {
    if 0 <= i <= U64_MAX && i in m && m[i].status.Completed? then m[i].amount else 0
  }

  /** What burn request `i` has removed from the supply: its amount once Completed. */
  function BurnedAt(m: map<u64, BurnRequest>, i: int): nat
  {
    if 0 <= i <= U64_MAX && i in m && m[i].status.Completed? then m[i].amount else 0
  }

  /** What burn request `i` still holds in reserve for `who`: its amount while Reserved. */
  function HeldAt(m: map<u64, BurnRequest>, who: AccountId, i: int): nat
  {
    if 0 <= i <= U64_MAX && i in m && m[i].status.Reserved? && m[i].requester == who then m[i].amount else 0
  }

  function MintedFn(m: map<u64, MintRequest>): int -> nat
  {
    i => MintedAt(m, i)
  }

  function BurnedFn(m: map<u64, BurnRequest>): int -> nat
  {
    i => BurnedAt(m, i)
  }

  function HeldFn(m: map<u64, BurnRequest>, who: AccountId): int -> nat
  {
    i => HeldAt(m, who, i)
  }

  /** The amount of every Completed mint so far. */
  function TotalMinted(s: State): nat
  {
    SumBelow(MintedFn(s.velopay.mintRequests), s.velopay.nextMintRequestId)
  }

  /** The amount of every Completed burn so far. */
  function TotalBurned(s: State): nat
  {
    SumBelow(BurnedFn(s.velopay.burnRequests), s.velopay.nextBurnRequestId)
  }

  /** The amount of every burn request of `who` that is still Reserved. */
  function TotalHeld(s: State, who: AccountId): nat
  {
    SumBelow(HeldFn(s.velopay.burnRequests, who), s.velopay.nextBurnRequestId)
  }

  // ------------------------------------------------------ invariants

  /** Every stored request id was handed out by its counter. */
  predicate RequestIdsBelowNext(s: State)
  {
    && (forall id :: id in s.velopay.mintRequests ==> id < s.velopay.nextMintRequestId)
    && (forall id :: id in s.velopay.burnRequests ==> id < s.velopay.nextBurnRequestId)
  }

  /** Burn requests start out Reserved: the declared Pending status never occurs. */
  predicate NoPendingBurn(s: State)
  {
    forall id :: id in s.velopay.burnRequests ==> !s.velopay.burnRequests[id].status.Pending?
  }

  /** `TotalSupply` is what Completed mints added minus what Completed burns removed. */
  predicate SupplyMatchesRequests(s: State)
  {
    s.velopay.totalSupply + TotalBurned(s) == TotalMinted(s)
  }

  /** Each `ReservedBurns` entry is the sum of the account's Reserved burn requests. */
  ghost predicate ReservedBurnsMatchRequests(s: State)
  {
    forall who :: ReservedBurnsOf(s, who) == TotalHeld(s, who)
  }

  /** The ledger holds in reserve exactly what `ReservedBurns` records. */
  ghost predicate LedgerReservesMatch(s: State)
  {
    forall who :: Ledger.Reserved(s.balances, who) == ReservedBurnsOf(s, who)
  }

  ghost predicate Valid(s: State, cfg: Config)
  {
    && RequestIdsBelowNext(s)
    && NoPendingBurn(s)
    && SupplyMatchesRequests(s)
    && ReservedBurnsMatchRequests(s)
    && LedgerReservesMatch(s)
    && Kyc.WellFormed(s)
    && Compliance.AlertIdsBelowNext(s)
    && Compliance.VolumesWithinLimit(s, cfg)
  }

  /** None of the three id counters has reached u64::MAX. */
  predicate Headroom(s: State)
  {
    && s.velopay.nextMintRequestId < U64_MAX
    && s.velopay.nextBurnRequestId < U64_MAX
    && s.compliance.nextAlertId < U64_MAX
  }

  /** Genesis storage satisfies every invariant. */
  lemma GenesisValid(cfg: Config)
    ensures Valid(Genesis, cfg)
  {
    forall who ensures ReservedBurnsOf(Genesis, who) == TotalHeld(Genesis, who) {
    }
  }

  // ------------------------------------------- invariant consequences

  /**
   * Under the invariants the burn authority can always settle a Reserved
   * request's reservation: it covers the request's amount, so approval
   * never fails with InsufficientReservedBalance and rejection returns the
   * whole amount.
   */
  lemma ReservationCoversRequest(s: State, cfg: Config, id: u64)
    requires Valid(s, cfg)
    requires VeloPay.BurnReservedAt(s, id)
    ensures var request := s.velopay.burnRequests[id];
            && request.amount <= ReservedBurnsOf(s, request.requester)
            && request.amount <= Ledger.Reserved(s.balances, request.requester)
  {
    var request := s.velopay.burnRequests[id];
    var m := s.velopay.burnRequests;
    SumBelowTerm(HeldFn(m, request.requester), s.velopay.nextBurnRequestId, id);
    assert HeldFn(m, request.requester)(id) == request.amount;
  }

  // ------------------------------------------------ frame conditions

  /** The VeloPay invariants read only the supply, the requests, `ReservedBurns` and the reserved balances. */
  lemma VeloPayInvariantsFrame(s: State, s': State)
    requires RequestIdsBelowNext(s) && NoPendingBurn(s) && SupplyMatchesRequests(s)
    requires ReservedBurnsMatchRequests(s) && LedgerReservesMatch(s)
    requires s'.velopay.totalSupply == s.velopay.totalSupply
    requires s'.velopay.mintRequests == s.velopay.mintRequests
    requires s'.velopay.nextMintRequestId == s.velopay.nextMintRequestId
    requires s'.velopay.burnRequests == s.velopay.burnRequests
    requires s'.velopay.nextBurnRequestId == s.velopay.nextBurnRequestId
    requires s'.velopay.reservedBurns == s.velopay.reservedBurns
    requires forall a :: Ledger.Reserved(s'.balances, a) == Ledger.Reserved(s.balances, a)
    ensures RequestIdsBelowNext(s') && NoPendingBurn(s') && SupplyMatchesRequests(s')
    ensures ReservedBurnsMatchRequests(s') && LedgerReservesMatch(s')
  {
    assert TotalMinted(s') == TotalMinted(s) && TotalBurned(s') == TotalBurned(s);
    forall who ensures ReservedBurnsOf(s', who) == TotalHeld(s', who) {
      assert TotalHeld(s', who) == TotalHeld(s, who);
    }
  }

  /** The compliance invariants read only the compliance storage. */
  lemma ComplianceInvariantsFrame(s: State, s': State, cfg: Config)
    requires Compliance.AlertIdsBelowNext(s) && Compliance.VolumesWithinLimit(s, cfg)
    requires s'.compliance == s.compliance
    ensures Compliance.AlertIdsBelowNext(s') && Compliance.VolumesWithinLimit(s', cfg)
  {
  }

  // ------------------------------------------------- VeloPay requests

  /**
   * A new mint request takes a fresh id and is Pending, so it adds nothing
   * to the supply sum.
   */
  lemma RequestMintPreservesValid(s: State, origin: Origin, amount: u128, block: BlockNumber, cfg: Config)
    requires Valid(s, cfg) && s.velopay.nextMintRequestId < U64_MAX
    requires VeloPay.RequestMint(s, origin, amount, block).Ok?
    ensures Valid(VeloPay.RequestMint(s, origin, amount, block).value, cfg)
  {
    var s' := VeloPay.RequestMint(s, origin, amount, block).value;
    var m, m' := s.velopay.mintRequests, s'.velopay.mintRequests;
    var id := s.velopay.nextMintRequestId;
    SumBelowAgree(MintedFn(m), MintedFn(m'), id);
    assert MintedFn(m')(id) == 0;
    assert TotalMinted(s') == TotalMinted(s);
    assert TotalBurned(s') == TotalBurned(s);
    forall who ensures ReservedBurnsOf(s', who) == TotalHeld(s', who) {
      assert TotalHeld(s', who) == TotalHeld(s, who);
    }
  }

  /**
   * Approving a mint turns a Pending term (worth nothing) into a Completed
   * one worth the amount the supply grew by.
   */
  lemma ApproveMintPreservesValid(s: State, origin: Origin, requestId: u64, block: BlockNumber, cfg: Config)
    requires Valid(s, cfg)
    requires VeloPay.ApproveMint(s, origin, requestId, block).Ok?
    ensures Valid(VeloPay.ApproveMint(s, origin, requestId, block).value, cfg)
  {
    var s' := VeloPay.ApproveMint(s, origin, requestId, block).value;
    VeloPay.ApproveMintEffect(s, origin, requestId, block);
    var m, m' := s.velopay.mintRequests, s'.velopay.mintRequests;
    SumBelowUpdate(MintedFn(m), MintedFn(m'), s.velopay.nextMintRequestId, requestId);
    assert MintedFn(m)(requestId) == 0;
    assert MintedFn(m')(requestId) == m[requestId].amount;
    assert TotalBurned(s') == TotalBurned(s);
    forall who ensures ReservedBurnsOf(s', who) == TotalHeld(s', who) {
      assert TotalHeld(s', who) == TotalHeld(s, who);
    }
    assert s'.velopay.reservedBurns == s.velopay.reservedBurns;
    forall who ensures Ledger.Reserved(s'.balances, who) == ReservedBurnsOf(s', who) {
      assert ReservedBurnsOf(s', who) == ReservedBurnsOf(s, who);
      if who != m[requestId].requester {
        assert Ledger.Account(s'.balances, who) == Ledger.Account(s.balances, who);
      } else {
        assert Ledger.Reserved(s'.balances, who) == Ledger.Reserved(s.balances, who);
      }
    }
  }

  /** Rejecting a mint turns a Pending term into a Rejected one; both are worth nothing. */
  lemma RejectMintPreservesValid(s: State, origin: Origin, requestId: u64, block: BlockNumber, cfg: Config)
    requires Valid(s, cfg)
    requires VeloPay.RejectMint(s, origin, requestId, block).Ok?
    ensures Valid(VeloPay.RejectMint(s, origin, requestId, block).value, cfg)
  {
    var s' := VeloPay.RejectMint(s, origin, requestId, block).value;
    var m, m' := s.velopay.mintRequests, s'.velopay.mintRequests;
    SumBelowUpdate(MintedFn(m), MintedFn(m'), s.velopay.nextMintRequestId, requestId);
    assert MintedFn(m)(requestId) == 0 && MintedFn(m')(requestId) == 0;
    assert TotalBurned(s') == TotalBurned(s);
    forall who ensures ReservedBurnsOf(s', who) == TotalHeld(s', who) {
      assert TotalHeld(s', who) == TotalHeld(s, who);
    }
  }

  /**
   * A new burn request takes a fresh id and is Reserved: the requester's
   * held sum, `ReservedBurns` entry and ledger reserve all grow by the
   * amount, and the burned sum is unchanged.
   */
  lemma RequestBurnPreservesValid(s: State, origin: Origin, amount: u128, block: BlockNumber, cfg: Config)
    requires Valid(s, cfg) && s.velopay.nextBurnRequestId < U64_MAX
    requires VeloPay.RequestBurn(s, origin, amount, block).Ok?
    ensures Valid(VeloPay.RequestBurn(s, origin, amount, block).value, cfg)
  {
    var s' := VeloPay.RequestBurn(s, origin, amount, block).value;
    var m, m' := s.velopay.burnRequests, s'.velopay.burnRequests;
    var id := s.velopay.nextBurnRequestId;
    var requester := origin.who;
    assert ReservedBurnsOf(s, requester) == Ledger.Reserved(s.balances, requester);
    SumBelowAgree(BurnedFn(m), BurnedFn(m'), id);
    assert BurnedFn(m')(id) == 0;
    assert TotalBurned(s') == TotalBurned(s);
    assert TotalMinted(s') == TotalMinted(s);
    forall who ensures ReservedBurnsOf(s', who) == TotalHeld(s', who) {
      SumBelowAgree(HeldFn(m, who), HeldFn(m', who), id);
      assert HeldFn(m', who)(id) == (if who == requester then amount else 0);
      assert ReservedBurnsOf(s', who) == ReservedBurnsOf(s, who) + (if who == requester then amount else 0);
    }
    forall who ensures Ledger.Reserved(s'.balances, who) == ReservedBurnsOf(s', who) {
      if who != requester {
        assert ReservedBurnsOf(s', who) == ReservedBurnsOf(s, who);
        assert Ledger.Account(s'.balances, who) == Ledger.Account(s.balances, who);
      } else {
        assert ReservedBurnsOf(s', who) == ReservedBurnsOf(s, who) + amount;
        assert Ledger.Reserved(s'.balances, who) == Ledger.Reserved(s.balances, who) + amount;
      }
    }
  }

  /**
   * Approving a burn moves its term from the held sum to the burned sum;
   * the supply, the `ReservedBurns` entry and the ledger reserve each fall
   * by the amount (the reservation covers it, so nothing saturates).
   */
  lemma ApproveBurnPreservesValid(s: State, origin: Origin, requestId: u64, block: BlockNumber, cfg: Config)
    requires Valid(s, cfg)
    requires VeloPay.ApproveBurn(s, origin, requestId, block).Ok?
    ensures Valid(VeloPay.ApproveBurn(s, origin, requestId, block).value, cfg)
  {
    var s' := VeloPay.ApproveBurn(s, origin, requestId, block).value;
    VeloPay.ApproveBurnEffect(s, origin, requestId, block);
    ReservationCoversRequest(s, cfg, requestId);
    var m, m' := s.velopay.burnRequests, s'.velopay.burnRequests;
    var request := m[requestId];
    var n := s.velopay.nextBurnRequestId;
    SumBelowUpdate(BurnedFn(m), BurnedFn(m'), n, requestId);
    assert BurnedFn(m)(requestId) == 0 && BurnedFn(m')(requestId) == request.amount;
    assert TotalMinted(s') == TotalMinted(s);
    forall who ensures ReservedBurnsOf(s', who) == TotalHeld(s', who) {
      SumBelowUpdate(HeldFn(m, who), HeldFn(m', who), n, requestId);
      assert HeldFn(m, who)(requestId) == (if who == request.requester then request.amount else 0);
      assert HeldFn(m', who)(requestId) == 0;
      if who == request.requester {
        assert ReservedBurnsOf(s', who) == ReservedBurnsOf(s, who) - request.amount;
      }
    }
    forall who ensures Ledger.Reserved(s'.balances, who) == ReservedBurnsOf(s', who) {
      if who == request.requester {
        assert ReservedBurnsOf(s', who) == ReservedBurnsOf(s, who) - request.amount;
      } else {
        assert Ledger.Account(s'.balances, who) == Ledger.Account(s.balances, who);
      }
    }
  }

  /**
   * Rejecting a burn drops its term from the held sum; the reservation
   * covers the amount, so the whole amount goes back to the free balance
   * and the `ReservedBurns` entry falls by exactly the amount.
   */
  lemma RejectBurnPreservesValid(s: State, origin: Origin, requestId: u64, block: BlockNumber, cfg: Config)
    requires Valid(s, cfg)
    requires VeloPay.RejectBurn(s, origin, requestId, block).Ok?
    ensures Valid(VeloPay.RejectBurn(s, origin, requestId, block).value, cfg)
  {
    var s' := VeloPay.RejectBurn(s, origin, requestId, block).value;
    VeloPay.RejectBurnEffect(s, origin, requestId, block);
    ReservationCoversRequest(s, cfg, requestId);
    var m, m' := s.velopay.burnRequests, s'.velopay.burnRequests;
    var request := m[requestId];
    var n := s.velopay.nextBurnRequestId;
    SumBelowUpdate(BurnedFn(m), BurnedFn(m'), n, requestId);
    assert BurnedFn(m)(requestId) == 0 && BurnedFn(m')(requestId) == 0;
    SumBelowAgree(MintedFn(s.velopay.mintRequests), MintedFn(s'.velopay.mintRequests), s.velopay.nextMintRequestId);
    forall who ensures ReservedBurnsOf(s', who) == TotalHeld(s', who) {
      SumBelowUpdate(HeldFn(m, who), HeldFn(m', who), n, requestId);
      assert HeldFn(m, who)(requestId) == (if who == request.requester then request.amount else 0);
      assert HeldFn(m', who)(requestId) == 0;
      if who == request.requester {
        assert ReservedBurnsOf(s', who) == ReservedBurnsOf(s, who) - request.amount;
      }
    }
    forall who ensures Ledger.Reserved(s'.balances, who) == ReservedBurnsOf(s', who) {
      if who == request.requester {
        assert ReservedBurnsOf(s', who) == ReservedBurnsOf(s, who) - request.amount;
      } else {
        assert Ledger.Account(s'.balances, who) == Ledger.Account(s.balances, who);
      }
    }
  }

  /**
   * A transfer leaves the VeloPay storage and every reserved balance alone
   * and only adds to volumes that stayed within the daily limit.
   */
  lemma TransferPreservesValid(s: State, origin: Origin, dest: AccountId, amount: u128, block: BlockNumber, cfg: Config)
    requires Valid(s, cfg)
    requires VeloPay.Transfer(s, origin, dest, amount, block, cfg).Ok?
    ensures Valid(VeloPay.Transfer(s, origin, dest, amount, block, cfg).value, cfg)
  {
    var s' := VeloPay.Transfer(s, origin, dest, amount, block, cfg).value;
    var s1 := Compliance.CheckTransaction(s, origin.who, amount, block, cfg).value;
    Compliance.CheckPreservesVolumesWithinLimit(s, origin.who, amount, block, cfg);
    var s2 := Compliance.CheckTransaction(s1, dest, amount, block, cfg).value;
    Compliance.CheckPreservesVolumesWithinLimit(s1, dest, amount, block, cfg);
    assert s'.compliance == s2.compliance;
    VeloPayInvariantsFrame(s, s');
  }
}
