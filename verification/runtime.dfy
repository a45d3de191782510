/**
 * The three pallets as the runtime executes them: one object whose fields
 * hold the storage of the balances ledger, of each pallet and the event
 * log, and one method per dispatchable that reads and writes that storage
 * step by step, in the order the pallets do.
 *
 * FRAME runs every dispatchable inside a storage transaction that is
 * discarded when the call returns an error.  A method here that has written
 * storage before a later step fails therefore puts back what it wrote before
 * returning the error.  Each method is proved against the matching function
 * of the pallet modules: on success the new state is the function's result,
 * on failure the error is the function's and the state is exactly the old
 * one.
 */
module Chain {
  import opened Primitives
  import opened Storage
  import Ledger
  import Kyc
  import Compliance
  import VeloPay

  /**
   * A call returning `r` took the state from `before` to `after` as `spec`
   * prescribes: the spec's state on success, nothing changed on failure.
   */
  predicate Committed<E(==)>(before: State, after: State, r: Result<(), E>, spec: Result<State, E>)
  {
    match spec
    case Ok(s') => r == Ok(()) && after == s'
    case Err(e) => r == Err(e) && after == before
  }

  class Runtime {
    /** The runtime's `#[pallet::constant]` values. */
    const cfg: Config

    /** The ledger behind `Currency` and `ReservableCurrency`. */
    var balances: Ledger.Balances
    /** The storage items of each pallet. */
    var velopay: VeloPayStore
    var compliance: ComplianceStore
    var kyc: KycStore
    /** The system event log. */
    var events: seq<Event>

    /** The storage as one value. */
    function Snapshot(): State
      reads this
    {
      State(balances, velopay, compliance, kyc, events)
    }

    /** A runtime at genesis. */
    constructor(cfg: Config)
      ensures this.cfg == cfg
      ensures Snapshot() == Genesis
    {
      this.cfg := cfg;
      balances := Genesis.balances;
      velopay := Genesis.velopay;
      compliance := Genesis.compliance;
      kyc := Genesis.kyc;
      events := [];
    }

    // ------------------------------------------------------------- KYC

    /** `is_verified`. */
    predicate IsVerified(who: AccountId)
      reads this
      ensures IsVerified(who) <==> Kyc.IsVerified(Snapshot(), who)
    {
      who in kyc.database && kyc.database[who].status.Verified?
    }

    method SetVerifier(origin: Origin, verifier: AccountId) returns (r: Result<(), DispatchError>)
      modifies this
      ensures Committed(old(Snapshot()), Snapshot(), r, Kyc.SetVerifier(old(Snapshot()), origin, verifier))
    {
      if !origin.Root? {
        return Err(BadOrigin);
      }
      kyc := kyc.(verifier := Some(verifier));
      events := events + [VerifierSet(verifier)];
      return Ok(());
    }

    method SubmitKyc(origin: Origin, documentHash: H256, block: BlockNumber) returns (r: Result<(), DispatchError>)
      modifies this
      ensures Committed(old(Snapshot()), Snapshot(), r, Kyc.SubmitKyc(old(Snapshot()), origin, documentHash, block))
    {
      if !origin.Signed? {
        return Err(BadOrigin);
      }
      var who := origin.who;
      if who in kyc.database && !kyc.database[who].status.Rejected? {
        return Err(KycErr(KycAlreadySubmitted));
      }
      kyc := kyc.(database := kyc.database[who := KycData(who, documentHash, KycStatus.Pending, block, None)]);
      events := events + [KycSubmitted(who, documentHash)];
      return Ok(());
    }

    method VerifyKyc(origin: Origin, account: AccountId, block: BlockNumber) returns (r: Result<(), DispatchError>)
      modifies this
      ensures Committed(old(Snapshot()), Snapshot(), r, Kyc.VerifyKyc(old(Snapshot()), origin, account, block))
    {
      if !origin.Signed? {
        return Err(BadOrigin);
      }
      var caller := origin.who;
      if kyc.verifier.None? || caller != kyc.verifier.value {
        return Err(KycErr(NotVerifier));
      }
      if account == caller {
        return Err(KycErr(CannotVerifySelf));
      }
      if account !in kyc.database {
        return Err(KycErr(KycNotSubmitted));
      }
      var data := kyc.database[account];
      if !data.status.Pending? {
        return Err(KycErr(InvalidStatus));
      }
      data := data.(status := KycStatus.Verified, verifiedAt := Some(block));
      kyc := kyc.(database := kyc.database[account := data]);
      events := events + [KycVerified(account)];
      return Ok(());
    }

    method RejectKyc(origin: Origin, account: AccountId) returns (r: Result<(), DispatchError>)
      modifies this
      ensures Committed(old(Snapshot()), Snapshot(), r, Kyc.RejectKyc(old(Snapshot()), origin, account))
    {
      if !origin.Signed? {
        return Err(BadOrigin);
      }
      var caller := origin.who;
      if kyc.verifier.None? || caller != kyc.verifier.value {
        return Err(KycErr(NotVerifier));
      }
      if account !in kyc.database {
        return Err(KycErr(KycNotSubmitted));
      }
      var data := kyc.database[account];
      if !data.status.Pending? {
        return Err(KycErr(InvalidStatus));
      }
      data := data.(status := KycStatus.Rejected);
      kyc := kyc.(database := kyc.database[account := data]);
      events := events + [KycRejected(account)];
      return Ok(());
    }

    // ------------------------------------------------------ Compliance

    /** `is_account_flagged`. */
    predicate IsAccountFlagged(who: AccountId)
      reads this
      ensures IsAccountFlagged(who) <==> Compliance.IsAccountFlagged(Snapshot(), who)
    {
      who in compliance.flagged
    }

    /** The officer check at the head of every officer-only call. */
    method AuthorizeOfficer(origin: Origin) returns (r: Result<AccountId, DispatchError>)
      ensures r == Compliance.AuthorizeOfficer(Snapshot(), origin)
    {
      if !origin.Signed? {
        return Err(BadOrigin);
      }
      if compliance.officer.None? {
        return Err(ComplianceErr(NoComplianceOfficer));
      }
      if origin.who != compliance.officer.value {
        return Err(ComplianceErr(NotComplianceOfficer));
      }
      return Ok(origin.who);
    }

    method SetComplianceOfficer(origin: Origin, officer: AccountId) returns (r: Result<(), DispatchError>)
      modifies this
      ensures Committed(old(Snapshot()), Snapshot(), r, Compliance.SetComplianceOfficer(old(Snapshot()), origin, officer))
    {
      if !origin.Root? {
        return Err(BadOrigin);
      }
      compliance := compliance.(officer := Some(officer));
      events := events + [ComplianceOfficerSet(officer)];
      return Ok(());
    }

    method FlagAccount(origin: Origin, account: AccountId) returns (r: Result<(), DispatchError>)
      modifies this
      ensures Committed(old(Snapshot()), Snapshot(), r, Compliance.FlagAccount(old(Snapshot()), origin, account))
    {
      var auth := AuthorizeOfficer(origin);
      if auth.Err? {
        return Err(auth.error);
      }
      if account in compliance.flagged {
        return Err(ComplianceErr(AccountAlreadyFlagged));
      }
      compliance := compliance.(flagged := compliance.flagged + {account});
      events := events + [AccountFlagged(account)];
      return Ok(());
    }

    method UnflagAccount(origin: Origin, account: AccountId) returns (r: Result<(), DispatchError>)
      modifies this
      ensures Committed(old(Snapshot()), Snapshot(), r, Compliance.UnflagAccount(old(Snapshot()), origin, account))
    {
      var auth := AuthorizeOfficer(origin);
      if auth.Err? {
        return Err(auth.error);
      }
      if account !in compliance.flagged {
        return Err(ComplianceErr(AccountNotFlagged));
      }
      compliance := compliance.(flagged := compliance.flagged - {account});
      events := events + [AccountUnflagged(account)];
      return Ok(());
    }

    method CreateAlert(origin: Origin, account: AccountId, alertLevel: AlertLevel, amount: u128,
                       reason: seq<u8>, block: BlockNumber) returns (r: Result<(), DispatchError>)
      modifies this
      ensures Committed(old(Snapshot()), Snapshot(), r,
                        Compliance.CreateAlert(old(Snapshot()), origin, account, alertLevel, amount, reason, block, cfg))
    {
      var auth := AuthorizeOfficer(origin);
      if auth.Err? {
        return Err(auth.error);
      }
      if |reason| > cfg.maxReasonLength {
        return Err(ComplianceErr(ReasonTooLong));
      }
      var alertId := compliance.nextAlertId;
      compliance := compliance.(alerts := compliance.alerts[alertId := ComplianceAlert(account, alertLevel, amount, reason, block, false)]);
      compliance := compliance.(nextAlertId := SaturatingIncrement(alertId));
      events := events + [AlertCreated(alertId, account, alertLevel)];
      return Ok(());
    }

    method ResolveAlert(origin: Origin, alertId: u64) returns (r: Result<(), DispatchError>)
      modifies this
      ensures Committed(old(Snapshot()), Snapshot(), r, Compliance.ResolveAlert(old(Snapshot()), origin, alertId))
    {
      var auth := AuthorizeOfficer(origin);
      if auth.Err? {
        return Err(auth.error);
      }
      if alertId !in compliance.alerts {
        return Err(ComplianceErr(AlertNotFound));
      }
      var alert := compliance.alerts[alertId];
      if alert.resolved {
        return Err(ComplianceErr(AlertAlreadyResolved));
      }
      compliance := compliance.(alerts := compliance.alerts[alertId := alert.(resolved := true)]);
      events := events + [AlertResolved(alertId)];
      return Ok(());
    }

    /**
     * `internal_check_transaction`: the volume for the current day is
     * written only once every test has passed.
     */
    method CheckTransaction(account: AccountId, amount: u128, block: BlockNumber) returns (r: Result<(), CheckError>)
      modifies this
      ensures Committed(old(Snapshot()), Snapshot(), r, Compliance.CheckTransaction(old(Snapshot()), account, amount, block, cfg))
    {
      if account in compliance.flagged {
        return Err(AccountIsFlagged);
      }
      if cfg.blocksPerDay == 0 {
        return Err(ZeroBlocksPerDay);
      }
      var day := block / cfg.blocksPerDay;
      var current := if (account, day) in compliance.dailyVolume then compliance.dailyVolume[(account, day)] else 0;
      var newVolume := SaturatingAdd(current, amount);
      if newVolume > cfg.dailyTransactionLimit {
        return Err(LimitExceeded);
      }
      compliance := compliance.(dailyVolume := compliance.dailyVolume[(account, day) := newVolume]);
      if amount >= cfg.suspiciousAmountThreshold {
        events := events + [SuspiciousActivityDetected(account, amount)];
      }
      return Ok(());
    }

    // --------------------------------------------------------- VeloPay

    method SetMintAuthority(origin: Origin, authority: AccountId) returns (r: Result<(), DispatchError>)
      modifies this
      ensures Committed(old(Snapshot()), Snapshot(), r, VeloPay.SetMintAuthority(old(Snapshot()), origin, authority))
    {
      if !origin.Root? {
        return Err(BadOrigin);
      }
      velopay := velopay.(mintAuthority := Some(authority));
      events := events + [MintAuthoritySet(authority)];
      return Ok(());
    }

    method SetBurnAuthority(origin: Origin, authority: AccountId) returns (r: Result<(), DispatchError>)
      modifies this
      ensures Committed(old(Snapshot()), Snapshot(), r, VeloPay.SetBurnAuthority(old(Snapshot()), origin, authority))
    {
      if !origin.Root? {
        return Err(BadOrigin);
      }
      velopay := velopay.(burnAuthority := Some(authority));
      events := events + [BurnAuthoritySet(authority)];
      return Ok(());
    }

    method SetTransactionFee(origin: Origin, feeBasisPoints: u32) returns (r: Result<(), DispatchError>)
      modifies this
      ensures Committed(old(Snapshot()), Snapshot(), r, VeloPay.SetTransactionFee(old(Snapshot()), origin, feeBasisPoints, cfg))
    {
      if !origin.Root? {
        return Err(BadOrigin);
      }
      if feeBasisPoints > cfg.maxTransactionFee {
        return Err(VeloPayErr(Overflow));
      }
      velopay := velopay.(transactionFee := feeBasisPoints);
      events := events + [TransactionFeeSet(feeBasisPoints)];
      return Ok(());
    }

    method Pause(origin: Origin) returns (r: Result<(), DispatchError>)
      modifies this
      ensures Committed(old(Snapshot()), Snapshot(), r, VeloPay.Pause(old(Snapshot()), origin))
    {
      if !origin.Root? {
        return Err(BadOrigin);
      }
      velopay := velopay.(paused := true);
      events := events + [Event.SystemPaused];
      return Ok(());
    }

    method Unpause(origin: Origin) returns (r: Result<(), DispatchError>)
      modifies this
      ensures Committed(old(Snapshot()), Snapshot(), r, VeloPay.Unpause(old(Snapshot()), origin))
    {
      if !origin.Root? {
        return Err(BadOrigin);
      }
      velopay := velopay.(paused := false);
      events := events + [SystemUnpaused];
      return Ok(());
    }

    method RequestMint(origin: Origin, amount: u128, block: BlockNumber) returns (r: Result<(), DispatchError>)
      modifies this
      ensures Committed(old(Snapshot()), Snapshot(), r, VeloPay.RequestMint(old(Snapshot()), origin, amount, block))
    {
      if !origin.Signed? {
        return Err(BadOrigin);
      }
      var requester := origin.who;
      if velopay.paused {
        return Err(VeloPayErr(VeloPayError.SystemPaused));
      }
      if amount == 0 {
        return Err(VeloPayErr(InvalidAmount));
      }
      if !IsVerified(requester) {
        return Err(VeloPayErr(KYCNotVerified));
      }
      var requestId := velopay.nextMintRequestId;
      var request := MintRequest(requester, amount, MintRequestStatus.Pending, block, None);
      velopay := velopay.(mintRequests := velopay.mintRequests[requestId := request]);
      velopay := velopay.(nextMintRequestId := SaturatingIncrement(requestId));
      events := events + [MintRequested(requestId, requester, amount)];
      return Ok(());
    }

    /** The mint-authority check shared by `approve_mint` and `reject_mint`. */
    method AuthorizeMinter(origin: Origin) returns (r: Result<AccountId, DispatchError>)
      ensures r == VeloPay.AuthorizeMinter(Snapshot(), origin)
    {
      if !origin.Signed? {
        return Err(BadOrigin);
      }
      if velopay.mintAuthority.None? {
        return Err(VeloPayErr(NoMintAuthority));
      }
      if origin.who != velopay.mintAuthority.value {
        return Err(VeloPayErr(NotMintAuthority));
      }
      return Ok(origin.who);
    }

    /**
     * `approve_mint` credits the requester before it checks the supply
     * addition; an overflow there puts the balances back.
     */
    method ApproveMint(origin: Origin, requestId: u64, block: BlockNumber) returns (r: Result<(), DispatchError>)
      modifies this
      ensures Committed(old(Snapshot()), Snapshot(), r, VeloPay.ApproveMint(old(Snapshot()), origin, requestId, block))
    {
      var savedBalances := balances;
      var auth := AuthorizeMinter(origin);
      if auth.Err? {
        return Err(auth.error);
      }
      if velopay.paused {
        return Err(VeloPayErr(VeloPayError.SystemPaused));
      }
      if requestId !in velopay.mintRequests {
        return Err(VeloPayErr(MintRequestNotFound));
      }
      var request := velopay.mintRequests[requestId];
      if !request.status.Pending? {
        return Err(VeloPayErr(InvalidMintRequestStatus));
      }
      balances := Ledger.DepositCreating(balances, request.requester, request.amount);
      if velopay.totalSupply + request.amount > U128_MAX {
        balances := savedBalances;
        return Err(VeloPayErr(Overflow));
      }
      velopay := velopay.(totalSupply := velopay.totalSupply + request.amount);
      request := request.(status := MintRequestStatus.Completed, processedAt := Some(block));
      velopay := velopay.(mintRequests := velopay.mintRequests[requestId := request]);
      events := events + [MintApproved(requestId, request.requester, request.amount)];
      return Ok(());
    }

    method RejectMint(origin: Origin, requestId: u64, block: BlockNumber) returns (r: Result<(), DispatchError>)
      modifies this
      ensures Committed(old(Snapshot()), Snapshot(), r, VeloPay.RejectMint(old(Snapshot()), origin, requestId, block))
    {
      var auth := AuthorizeMinter(origin);
      if auth.Err? {
        return Err(auth.error);
      }
      if requestId !in velopay.mintRequests {
        return Err(VeloPayErr(MintRequestNotFound));
      }
      var request := velopay.mintRequests[requestId];
      if !request.status.Pending? {
        return Err(VeloPayErr(InvalidMintRequestStatus));
      }
      request := request.(status := MintRequestStatus.Rejected, processedAt := Some(block));
      velopay := velopay.(mintRequests := velopay.mintRequests[requestId := request]);
      events := events + [MintRejected(requestId, request.requester)];
      return Ok(());
    }

    method RequestBurn(origin: Origin, amount: u128, block: BlockNumber) returns (r: Result<(), DispatchError>)
      modifies this
      ensures Committed(old(Snapshot()), Snapshot(), r, VeloPay.RequestBurn(old(Snapshot()), origin, amount, block))
    {
      if !origin.Signed? {
        return Err(BadOrigin);
      }
      var requester := origin.who;
      if velopay.paused {
        return Err(VeloPayErr(VeloPayError.SystemPaused));
      }
      if amount == 0 {
        return Err(VeloPayErr(InvalidAmount));
      }
      if !IsVerified(requester) {
        return Err(VeloPayErr(KYCNotVerified));
      }
      if Ledger.Free(balances, requester) < amount {
        return Err(VeloPayErr(InsufficientBalance));
      }
      var reserved := Ledger.Reserve(balances, requester, amount);
      if reserved.Err? {
        return Err(LedgerErr(reserved.error));
      }
      balances := reserved.value;
      var held := if requester in velopay.reservedBurns then velopay.reservedBurns[requester] else 0;
      velopay := velopay.(reservedBurns := velopay.reservedBurns[requester := SaturatingAdd(held, amount)]);
      var requestId := velopay.nextBurnRequestId;
      var request := BurnRequest(requester, amount, BurnRequestStatus.Reserved, block, None);
      velopay := velopay.(burnRequests := velopay.burnRequests[requestId := request]);
      velopay := velopay.(nextBurnRequestId := SaturatingIncrement(requestId));
      events := events + [BurnReserved(requestId, requester, amount)];
      return Ok(());
    }

    /** The burn-authority check shared by `approve_burn` and `reject_burn`. */
    method AuthorizeBurner(origin: Origin) returns (r: Result<AccountId, DispatchError>)
      ensures r == VeloPay.AuthorizeBurner(Snapshot(), origin)
    {
      if !origin.Signed? {
        return Err(BadOrigin);
      }
      if velopay.burnAuthority.None? {
        return Err(VeloPayErr(NoBurnAuthority));
      }
      if origin.who != velopay.burnAuthority.value {
        return Err(VeloPayErr(NotBurnAuthority));
      }
      return Ok(origin.who);
    }

    /**
     * `approve_burn` slashes the reserve before it checks that the whole
     * amount was slashed and that the supply covers it; either failure puts
     * the balances back.
     */
    method ApproveBurn(origin: Origin, requestId: u64, block: BlockNumber) returns (r: Result<(), DispatchError>)
      modifies this
      ensures Committed(old(Snapshot()), Snapshot(), r, VeloPay.ApproveBurn(old(Snapshot()), origin, requestId, block))
    {
      var savedBalances := balances;
      var auth := AuthorizeBurner(origin);
      if auth.Err? {
        return Err(auth.error);
      }
      if velopay.paused {
        return Err(VeloPayErr(VeloPayError.SystemPaused));
      }
      if requestId !in velopay.burnRequests {
        return Err(VeloPayErr(BurnRequestNotFound));
      }
      var request := velopay.burnRequests[requestId];
      if !request.status.Reserved? {
        return Err(VeloPayErr(InvalidBurnRequestStatus));
      }
      var slashed := Ledger.SlashReserved(balances, request.requester, request.amount);
      balances := slashed.0;
      if slashed.1 != 0 {
        balances := savedBalances;
        return Err(VeloPayErr(InsufficientReservedBalance));
      }
      if velopay.totalSupply < request.amount {
        balances := savedBalances;
        return Err(VeloPayErr(Overflow));
      }
      velopay := velopay.(totalSupply := velopay.totalSupply - request.amount);
      var held := if request.requester in velopay.reservedBurns then velopay.reservedBurns[request.requester] else 0;
      velopay := velopay.(reservedBurns := velopay.reservedBurns[request.requester := SaturatingSub(held, request.amount)]);
      request := request.(status := BurnRequestStatus.Completed, processedAt := Some(block));
      velopay := velopay.(burnRequests := velopay.burnRequests[requestId := request]);
      events := events + [BurnApproved(requestId, request.requester, request.amount)];
      return Ok(());
    }

    method RejectBurn(origin: Origin, requestId: u64, block: BlockNumber) returns (r: Result<(), DispatchError>)
      modifies this
      ensures Committed(old(Snapshot()), Snapshot(), r, VeloPay.RejectBurn(old(Snapshot()), origin, requestId, block))
    {
      var auth := AuthorizeBurner(origin);
      if auth.Err? {
        return Err(auth.error);
      }
      if requestId !in velopay.burnRequests {
        return Err(VeloPayErr(BurnRequestNotFound));
      }
      var request := velopay.burnRequests[requestId];
      if !request.status.Reserved? {
        return Err(VeloPayErr(InvalidBurnRequestStatus));
      }
      var unreserved := Ledger.Unreserve(balances, request.requester, request.amount);
      balances := unreserved.0;
      var held := if request.requester in velopay.reservedBurns then velopay.reservedBurns[request.requester] else 0;
      velopay := velopay.(reservedBurns := velopay.reservedBurns[request.requester := SaturatingSub(held, request.amount)]);
      request := request.(status := BurnRequestStatus.Rejected, processedAt := Some(block));
      velopay := velopay.(burnRequests := velopay.burnRequests[requestId := request]);
      events := events + [BurnRejected(requestId, request.requester)];
      return Ok(());
    }

    /** `calculate_fee`. */
    function CalculateFee(amount: u128): (fee: u128)
      reads this
      ensures fee == VeloPay.CalculateFee(Snapshot(), amount)
    {
      VeloPay.Fee(amount, velopay.transactionFee)
    }

    /**
     * `transfer`.  The two compliance checks write the day's volumes before
     * the fee and balance steps, any of which can still fail; every failure
     * after the first write puts back what was written, so a failed transfer
     * consumes no part of either party's daily limit.
     */
    method Transfer(origin: Origin, dest: AccountId, amount: u128, block: BlockNumber) returns (r: Result<(), DispatchError>)
      modifies this
      ensures Committed(old(Snapshot()), Snapshot(), r, VeloPay.Transfer(old(Snapshot()), origin, dest, amount, block, cfg))
    {
      var savedCompliance, savedEvents := compliance, events;
      if !origin.Signed? {
        return Err(BadOrigin);
      }
      var sender := origin.who;
      if velopay.paused {
        return Err(VeloPayErr(VeloPayError.SystemPaused));
      }
      if amount == 0 {
        return Err(VeloPayErr(InvalidAmount));
      }
      if sender == dest {
        return Err(VeloPayErr(InvalidAmount));
      }
      if !IsVerified(sender) {
        return Err(VeloPayErr(KYCNotVerified));
      }
      if !IsVerified(dest) {
        return Err(VeloPayErr(KYCNotVerified));
      }
      var check := CheckTransaction(sender, amount, block);
      if check.Err? {
        return Err(VeloPayErr(ComplianceCheckFailed));
      }
      check := CheckTransaction(dest, amount, block);
      if check.Err? {
        compliance, events := savedCompliance, savedEvents;
        return Err(VeloPayErr(ComplianceCheckFailed));
      }
      r := Settle(sender, dest, amount);
      if r.Err? {
        compliance, events := savedCompliance, savedEvents;
      }
    }

    /**
     * The fee and balance steps of `transfer`: the first balance transfer is
     * written before the fee transfer, which can still fail and then puts
     * the balances back.
     */
    method Settle(sender: AccountId, dest: AccountId, amount: u128) returns (r: Result<(), DispatchError>)
      requires sender != dest && amount != 0
      modifies this
      ensures Committed(old(Snapshot()), Snapshot(), r, VeloPay.Settle(old(Snapshot()), sender, dest, amount))
    {
      var savedBalances := balances;
      var fee := CalculateFee(amount);
      if amount + fee > U128_MAX {
        return Err(VeloPayErr(Overflow));
      }
      if Ledger.Free(balances, sender) < amount + fee {
        return Err(VeloPayErr(InsufficientBalance));
      }
      var moved := Ledger.Transfer(balances, sender, dest, amount);
      if moved.Err? {
        return Err(LedgerErr(moved.error));
      }
      balances := moved.value;
      if fee != 0 {
        if velopay.mintAuthority.None? {
          balances := savedBalances;
          return Err(VeloPayErr(NoMintAuthority));
        }
        var paid := Ledger.Transfer(balances, sender, velopay.mintAuthority.value, fee);
        if paid.Err? {
          balances := savedBalances;
          return Err(LedgerErr(paid.error));
        }
        balances := paid.value;
      }
      events := events + [Event.Transfer(sender, dest, amount, fee)];
      return Ok(());
    }
  }
}
