/**
 * The VeloPay pallet: the token's ledger workflows.  Root appoints a mint
 * authority and a burn authority, sets the transfer fee rate and pauses the
 * system.  Verified accounts request mints (Pending -> Completed | Rejected)
 * and burns (funds reserved at request time, Reserved -> Completed |
 * Rejected), and transfer tokens to each other for a fee paid to the mint
 * authority, subject to the compliance check on both parties.
 */
module VeloPay {
  import opened Primitives
  import opened Storage
  import Ledger
  import Kyc
  import Compliance

  /** Fees are quoted in basis points: units of 1/10000. */
  const FEE_DENOMINATOR: int := 10000

  /** Neither the compliance nor the KYC storage differs between `s` and `s'`. */
  predicate OtherPalletsUnchanged(s: State, s': State)
  {
    s'.compliance == s.compliance && s'.kyc == s.kyc
  }

  // ------------------------------------------------------- root settings

  /** `set_mint_authority`. */
  function SetMintAuthority(s: State, origin: Origin, authority: AccountId): (r: Result<State, DispatchError>)
    ensures r.Err? <==> !origin.Root?
    ensures r.Err? ==> r.error == BadOrigin
    ensures r.Ok? ==> r.value.velopay == s.velopay.(mintAuthority := Some(authority))
    ensures r.Ok? ==> r.value.balances == s.balances && OtherPalletsUnchanged(s, r.value)
    ensures r.Ok? ==> r.value.events == s.events + [MintAuthoritySet(authority)]
  {
    if !origin.Root? then Err(BadOrigin)
    else Ok(s.(velopay := s.velopay.(mintAuthority := Some(authority)), events := s.events + [MintAuthoritySet(authority)]))
  }

  /** `set_burn_authority`. */
  function SetBurnAuthority(s: State, origin: Origin, authority: AccountId): (r: Result<State, DispatchError>)
    ensures r.Err? <==> !origin.Root?
    ensures r.Err? ==> r.error == BadOrigin
    ensures r.Ok? ==> r.value.velopay == s.velopay.(burnAuthority := Some(authority))
    ensures r.Ok? ==> r.value.balances == s.balances && OtherPalletsUnchanged(s, r.value)
    ensures r.Ok? ==> r.value.events == s.events + [BurnAuthoritySet(authority)]
  {
    if !origin.Root? then Err(BadOrigin)
    else Ok(s.(velopay := s.velopay.(burnAuthority := Some(authority)), events := s.events + [BurnAuthoritySet(authority)]))
  }

  /** `set_transaction_fee`: a rate above `MaxTransactionFee` is refused with `Overflow`. */
  function SetTransactionFee(s: State, origin: Origin, feeBasisPoints: u32, cfg: Config): (r: Result<State, DispatchError>)
    ensures !origin.Root? ==> r == Err(BadOrigin)
    ensures origin.Root? && feeBasisPoints > cfg.maxTransactionFee ==> r == Err(VeloPayErr(Overflow))
    ensures r.Ok? <==> origin.Root? && feeBasisPoints <= cfg.maxTransactionFee
    ensures r.Ok? ==> r.value.velopay == s.velopay.(transactionFee := feeBasisPoints)
    ensures r.Ok? ==> r.value.balances == s.balances && OtherPalletsUnchanged(s, r.value)
    ensures r.Ok? ==> r.value.events == s.events + [TransactionFeeSet(feeBasisPoints)]
  {
    if !origin.Root? then Err(BadOrigin)
    else if feeBasisPoints > cfg.maxTransactionFee then Err(VeloPayErr(Overflow))
    else Ok(s.(velopay := s.velopay.(transactionFee := feeBasisPoints), events := s.events + [TransactionFeeSet(feeBasisPoints)]))
  }

  /** `pause`. */
  function Pause(s: State, origin: Origin): (r: Result<State, DispatchError>)
    ensures r.Err? <==> !origin.Root?
    ensures r.Err? ==> r.error == BadOrigin
    ensures r.Ok? ==> r.value.velopay == s.velopay.(paused := true)
    ensures r.Ok? ==> r.value.balances == s.balances && OtherPalletsUnchanged(s, r.value)
    ensures r.Ok? ==> r.value.events == s.events + [Event.SystemPaused]
  {
    if !origin.Root? then Err(BadOrigin)
    else Ok(s.(velopay := s.velopay.(paused := true), events := s.events + [Event.SystemPaused]))
  }

  /** `unpause`. */
  function Unpause(s: State, origin: Origin): (r: Result<State, DispatchError>)
    ensures r.Err? <==> !origin.Root?
    ensures r.Err? ==> r.error == BadOrigin
    ensures r.Ok? ==> r.value.velopay == s.velopay.(paused := false)
    ensures r.Ok? ==> r.value.balances == s.balances && OtherPalletsUnchanged(s, r.value)
    ensures r.Ok? ==> r.value.events == s.events + [SystemUnpaused]
  {
    if !origin.Root? then Err(BadOrigin)
    else Ok(s.(velopay := s.velopay.(paused := false), events := s.events + [SystemUnpaused]))
  }

  // --------------------------------------------------------------- mints

  /**
   * `request_mint`: a verified account asks for `amount` new tokens.  Fails
   * SystemPaused, then InvalidAmount (zero), then KYCNotVerified; otherwise
   * stores a Pending request under the current `NextMintRequestId` and
   * advances the counter (saturating).
   */
  function RequestMint(s: State, origin: Origin, amount: u128, block: BlockNumber): (r: Result<State, DispatchError>)
    ensures !origin.Signed? ==> r == Err(BadOrigin)
    ensures origin.Signed? && s.velopay.paused ==> r == Err(VeloPayErr(VeloPayError.SystemPaused))
    ensures origin.Signed? && !s.velopay.paused && amount == 0 ==> r == Err(VeloPayErr(InvalidAmount))
    ensures (origin.Signed? && !s.velopay.paused && amount != 0 && !Kyc.IsVerified(s, origin.who))
            ==> r == Err(VeloPayErr(KYCNotVerified))
    ensures r.Ok? <==> origin.Signed? && !s.velopay.paused && amount != 0 && Kyc.IsVerified(s, origin.who)
    ensures r.Ok? ==>
              var id := s.velopay.nextMintRequestId;
              && r.value.velopay == s.velopay.(
                   mintRequests := s.velopay.mintRequests[id := MintRequest(origin.who, amount, MintRequestStatus.Pending, block, None)],
                   nextMintRequestId := SaturatingIncrement(id))
              && r.value.balances == s.balances && OtherPalletsUnchanged(s, r.value)
              && r.value.events == s.events + [MintRequested(id, origin.who, amount)]
  {
    if !origin.Signed? then Err(BadOrigin)
    else
      var requester := origin.who;
      if s.velopay.paused then Err(VeloPayErr(VeloPayError.SystemPaused))
      else if amount == 0 then Err(VeloPayErr(InvalidAmount))
      else if !Kyc.IsVerified(s, requester) then Err(VeloPayErr(KYCNotVerified))
      else
        var id := s.velopay.nextMintRequestId;
        var request := MintRequest(requester, amount, MintRequestStatus.Pending, block, None);
        Ok(s.(velopay := s.velopay.(mintRequests := s.velopay.mintRequests[id := request],
                                    nextMintRequestId := SaturatingIncrement(id)),
              events := s.events + [MintRequested(id, requester, amount)]))
  }

  /** The mint-authority check shared by `approve_mint` and `reject_mint`. */
  function AuthorizeMinter(s: State, origin: Origin): (r: Result<AccountId, DispatchError>)
    ensures r.Ok? <==> origin.Signed? && s.velopay.mintAuthority == Some(origin.who)
    ensures r.Ok? ==> r.value == origin.who
    ensures !origin.Signed? ==> r == Err(BadOrigin)
    ensures origin.Signed? && s.velopay.mintAuthority.None? ==> r == Err(VeloPayErr(NoMintAuthority))
    ensures origin.Signed? && s.velopay.mintAuthority.Some? && s.velopay.mintAuthority.value != origin.who ==>
              r == Err(VeloPayErr(NotMintAuthority))
  {
    if !origin.Signed? then Err(BadOrigin)
    else if s.velopay.mintAuthority.None? then Err(VeloPayErr(NoMintAuthority))
    else if origin.who != s.velopay.mintAuthority.value then Err(VeloPayErr(NotMintAuthority))
    else Ok(origin.who)
  }

  /** Request `id` exists and is still Pending. */
  predicate MintPending(s: State, id: u64)
  {
    id in s.velopay.mintRequests && s.velopay.mintRequests[id].status.Pending?
  }

  /**
   * `approve_mint`: the mint authority completes a Pending request, crediting
   * the requester and growing `TotalSupply` (checked: an overflow fails the
   * whole call).
   */
  function ApproveMint(s: State, origin: Origin, requestId: u64, block: BlockNumber): (r: Result<State, DispatchError>)
    ensures AuthorizeMinter(s, origin).Err? ==> r == Err(AuthorizeMinter(s, origin).error)
    ensures AuthorizeMinter(s, origin).Ok? && s.velopay.paused ==> r == Err(VeloPayErr(VeloPayError.SystemPaused))
    ensures (AuthorizeMinter(s, origin).Ok? && !s.velopay.paused && requestId !in s.velopay.mintRequests)
            ==> r == Err(VeloPayErr(MintRequestNotFound))
    ensures (AuthorizeMinter(s, origin).Ok? && !s.velopay.paused && requestId in s.velopay.mintRequests
             && !MintPending(s, requestId)) ==> r == Err(VeloPayErr(InvalidMintRequestStatus))
    ensures (AuthorizeMinter(s, origin).Ok? && !s.velopay.paused && MintPending(s, requestId)
             && s.velopay.totalSupply + s.velopay.mintRequests[requestId].amount > U128_MAX)
            ==> r == Err(VeloPayErr(Overflow))
    ensures r.Ok? <==> AuthorizeMinter(s, origin).Ok? && !s.velopay.paused && MintPending(s, requestId)
                       && s.velopay.totalSupply + s.velopay.mintRequests[requestId].amount <= U128_MAX
    ensures r.Ok? ==> OtherPalletsUnchanged(s, r.value)
  {
    match AuthorizeMinter(s, origin)
    case Err(e) => Err(e)
    case Ok(_) =>
      if s.velopay.paused then Err(VeloPayErr(VeloPayError.SystemPaused))
      else if requestId !in s.velopay.mintRequests then Err(VeloPayErr(MintRequestNotFound))
      else
        var request := s.velopay.mintRequests[requestId];
        if !request.status.Pending? then Err(VeloPayErr(InvalidMintRequestStatus))
        else
          var balances := Ledger.DepositCreating(s.balances, request.requester, request.amount);
          if s.velopay.totalSupply + request.amount > U128_MAX then Err(VeloPayErr(Overflow))
          else
            var done := request.(status := MintRequestStatus.Completed, processedAt := Some(block));
            Ok(s.(balances := balances,
                  velopay := s.velopay.(totalSupply := s.velopay.totalSupply + request.amount,
                                        mintRequests := s.velopay.mintRequests[requestId := done]),
                  events := s.events + [MintApproved(requestId, request.requester, request.amount)]))
  }

  /**
   * `reject_mint`: the mint authority turns down a Pending request.  The
   * same checks as approval except the pause check, so rejection stays
   * possible while the system is paused; no balance or supply changes.
   */
  function RejectMint(s: State, origin: Origin, requestId: u64, block: BlockNumber): (r: Result<State, DispatchError>)
    ensures AuthorizeMinter(s, origin).Err? ==> r == Err(AuthorizeMinter(s, origin).error)
    ensures AuthorizeMinter(s, origin).Ok? && requestId !in s.velopay.mintRequests ==> r == Err(VeloPayErr(MintRequestNotFound))
    ensures (AuthorizeMinter(s, origin).Ok? && requestId in s.velopay.mintRequests && !MintPending(s, requestId))
            ==> r == Err(VeloPayErr(InvalidMintRequestStatus))
    ensures r.Ok? <==> AuthorizeMinter(s, origin).Ok? && MintPending(s, requestId)
    ensures r.Ok? ==>
              var request := s.velopay.mintRequests[requestId];
              && r.value.velopay == s.velopay.(mintRequests := s.velopay.mintRequests[requestId :=
                                                 request.(status := MintRequestStatus.Rejected, processedAt := Some(block))])
              && r.value.balances == s.balances && OtherPalletsUnchanged(s, r.value)
              && r.value.events == s.events + [MintRejected(requestId, request.requester)]
  {
    match AuthorizeMinter(s, origin)
    case Err(e) => Err(e)
    case Ok(_) =>
      if requestId !in s.velopay.mintRequests then Err(VeloPayErr(MintRequestNotFound))
      else
        var request := s.velopay.mintRequests[requestId];
        if !request.status.Pending? then Err(VeloPayErr(InvalidMintRequestStatus))
        else
          var done := request.(status := MintRequestStatus.Rejected, processedAt := Some(block));
          Ok(s.(velopay := s.velopay.(mintRequests := s.velopay.mintRequests[requestId := done]),
                events := s.events + [MintRejected(requestId, request.requester)]))
  }

  // --------------------------------------------------------------- burns

  /**
   * `request_burn`: a verified account sets `amount` of its free balance
   * aside for destruction.  Fails SystemPaused, InvalidAmount,
   * KYCNotVerified, then InsufficientBalance when the free balance is below
   * `amount`; otherwise reserves the funds, adds them to `ReservedBurns` and
   * stores a request that starts out Reserved.
   */
  function RequestBurn(s: State, origin: Origin, amount: u128, block: BlockNumber): (r: Result<State, DispatchError>)
    ensures !origin.Signed? ==> r == Err(BadOrigin)
    ensures origin.Signed? && s.velopay.paused ==> r == Err(VeloPayErr(VeloPayError.SystemPaused))
    ensures origin.Signed? && !s.velopay.paused && amount == 0 ==> r == Err(VeloPayErr(InvalidAmount))
    ensures (origin.Signed? && !s.velopay.paused && amount != 0 && !Kyc.IsVerified(s, origin.who))
            ==> r == Err(VeloPayErr(KYCNotVerified))
    ensures (origin.Signed? && !s.velopay.paused && amount != 0 && Kyc.IsVerified(s, origin.who)
             && Ledger.Free(s.balances, origin.who) < amount) ==> r == Err(VeloPayErr(InsufficientBalance))
    ensures (origin.Signed? && !s.velopay.paused && amount != 0 && Kyc.IsVerified(s, origin.who)
             && Ledger.Free(s.balances, origin.who) >= amount
             && Ledger.Reserved(s.balances, origin.who) + amount > U128_MAX) ==> r == Err(LedgerErr(Ledger.BalanceOverflow))
    ensures r.Ok? <==> origin.Signed? && !s.velopay.paused && amount != 0 && Kyc.IsVerified(s, origin.who)
                       && Ledger.Free(s.balances, origin.who) >= amount
                       && Ledger.Reserved(s.balances, origin.who) + amount <= U128_MAX
    ensures r.Ok? ==>
              var who := origin.who;
              var id := s.velopay.nextBurnRequestId;
              && r.value.velopay == s.velopay.(
                   reservedBurns := s.velopay.reservedBurns[who := SaturatingAdd(ReservedBurnsOf(s, who), amount)],
                   burnRequests := s.velopay.burnRequests[id := BurnRequest(who, amount, BurnRequestStatus.Reserved, block, None)],
                   nextBurnRequestId := SaturatingIncrement(id))
              && Ledger.Free(r.value.balances, who) == Ledger.Free(s.balances, who) - amount
              && Ledger.Reserved(r.value.balances, who) == Ledger.Reserved(s.balances, who) + amount
              && (forall a :: a != who ==> Ledger.Account(r.value.balances, a) == Ledger.Account(s.balances, a))
              && OtherPalletsUnchanged(s, r.value)
              && r.value.events == s.events + [BurnReserved(id, who, amount)]
  {
    if !origin.Signed? then Err(BadOrigin)
    else
      var requester := origin.who;
      if s.velopay.paused then Err(VeloPayErr(VeloPayError.SystemPaused))
      else if amount == 0 then Err(VeloPayErr(InvalidAmount))
      else if !Kyc.IsVerified(s, requester) then Err(VeloPayErr(KYCNotVerified))
      else if Ledger.Free(s.balances, requester) < amount then Err(VeloPayErr(InsufficientBalance))
      else
        match Ledger.Reserve(s.balances, requester, amount)
        case Err(e) => Err(LedgerErr(e))
        case Ok(balances) =>
          var id := s.velopay.nextBurnRequestId;
          var request := BurnRequest(requester, amount, BurnRequestStatus.Reserved, block, None);
          Ok(s.(balances := balances,
                velopay := s.velopay.(
                  reservedBurns := s.velopay.reservedBurns[requester := SaturatingAdd(ReservedBurnsOf(s, requester), amount)],
                  burnRequests := s.velopay.burnRequests[id := request],
                  nextBurnRequestId := SaturatingIncrement(id)),
                events := s.events + [BurnReserved(id, requester, amount)]))
  }

  /** The burn-authority check shared by `approve_burn` and `reject_burn`. */
  function AuthorizeBurner(s: State, origin: Origin): (r: Result<AccountId, DispatchError>)
    ensures r.Ok? <==> origin.Signed? && s.velopay.burnAuthority == Some(origin.who)
    ensures r.Ok? ==> r.value == origin.who
    ensures !origin.Signed? ==> r == Err(BadOrigin)
    ensures origin.Signed? && s.velopay.burnAuthority.None? ==> r == Err(VeloPayErr(NoBurnAuthority))
    ensures origin.Signed? && s.velopay.burnAuthority.Some? && s.velopay.burnAuthority.value != origin.who ==>
              r == Err(VeloPayErr(NotBurnAuthority))
  {
    if !origin.Signed? then Err(BadOrigin)
    else if s.velopay.burnAuthority.None? then Err(VeloPayErr(NoBurnAuthority))
    else if origin.who != s.velopay.burnAuthority.value then Err(VeloPayErr(NotBurnAuthority))
    else Ok(origin.who)
  }

  /** Request `id` exists and its funds are still reserved. */
  predicate BurnReservedAt(s: State, id: u64)
  {
    id in s.velopay.burnRequests && s.velopay.burnRequests[id].status.Reserved?
  }

  /**
   * `approve_burn`: the burn authority destroys the reserved funds of a
   * Reserved request.  The slash must take the whole amount (no partial
   * burn) and `TotalSupply` must cover it (checked subtraction); either
   * failure fails the whole call.
   */
  function ApproveBurn(s: State, origin: Origin, requestId: u64, block: BlockNumber): (r: Result<State, DispatchError>)
    ensures AuthorizeBurner(s, origin).Err? ==> r == Err(AuthorizeBurner(s, origin).error)
    ensures AuthorizeBurner(s, origin).Ok? && s.velopay.paused ==> r == Err(VeloPayErr(VeloPayError.SystemPaused))
    ensures (AuthorizeBurner(s, origin).Ok? && !s.velopay.paused && requestId !in s.velopay.burnRequests)
            ==> r == Err(VeloPayErr(BurnRequestNotFound))
    ensures (AuthorizeBurner(s, origin).Ok? && !s.velopay.paused && requestId in s.velopay.burnRequests
             && !BurnReservedAt(s, requestId)) ==> r == Err(VeloPayErr(InvalidBurnRequestStatus))
    ensures (AuthorizeBurner(s, origin).Ok? && !s.velopay.paused && BurnReservedAt(s, requestId)
             && Ledger.Reserved(s.balances, s.velopay.burnRequests[requestId].requester) < s.velopay.burnRequests[requestId].amount)
            ==> r == Err(VeloPayErr(InsufficientReservedBalance))
    ensures (AuthorizeBurner(s, origin).Ok? && !s.velopay.paused && BurnReservedAt(s, requestId)
             && Ledger.Reserved(s.balances, s.velopay.burnRequests[requestId].requester) >= s.velopay.burnRequests[requestId].amount
             && s.velopay.totalSupply < s.velopay.burnRequests[requestId].amount)
            ==> r == Err(VeloPayErr(Overflow))
    ensures r.Ok? <==> AuthorizeBurner(s, origin).Ok? && !s.velopay.paused && BurnReservedAt(s, requestId)
                       && Ledger.Reserved(s.balances, s.velopay.burnRequests[requestId].requester) >= s.velopay.burnRequests[requestId].amount
                       && s.velopay.totalSupply >= s.velopay.burnRequests[requestId].amount
    ensures r.Ok? ==> OtherPalletsUnchanged(s, r.value)
  {
    match AuthorizeBurner(s, origin)
    case Err(e) => Err(e)
    case Ok(_) =>
      if s.velopay.paused then Err(VeloPayErr(VeloPayError.SystemPaused))
      else if requestId !in s.velopay.burnRequests then Err(VeloPayErr(BurnRequestNotFound))
      else
        var request := s.velopay.burnRequests[requestId];
        if !request.status.Reserved? then Err(VeloPayErr(InvalidBurnRequestStatus))
        else
          var (balances, remaining) := Ledger.SlashReserved(s.balances, request.requester, request.amount);
          if remaining != 0 then Err(VeloPayErr(InsufficientReservedBalance))
          else if s.velopay.totalSupply < request.amount then Err(VeloPayErr(Overflow))
          else
            var who := request.requester;
            var done := request.(status := BurnRequestStatus.Completed, processedAt := Some(block));
            Ok(s.(balances := balances,
                  velopay := s.velopay.(
                    totalSupply := s.velopay.totalSupply - request.amount,
                    reservedBurns := s.velopay.reservedBurns[who := SaturatingSub(ReservedBurnsOf(s, who), request.amount)],
                    burnRequests := s.velopay.burnRequests[requestId := done]),
                  events := s.events + [BurnApproved(requestId, who, request.amount)]))
  }

  /**
   * `reject_burn`: the burn authority returns the reserved funds of a
   * Reserved request to the requester's free balance.  No pause check.
   */
  function RejectBurn(s: State, origin: Origin, requestId: u64, block: BlockNumber): (r: Result<State, DispatchError>)
    ensures AuthorizeBurner(s, origin).Err? ==> r == Err(AuthorizeBurner(s, origin).error)
    ensures AuthorizeBurner(s, origin).Ok? && requestId !in s.velopay.burnRequests ==> r == Err(VeloPayErr(BurnRequestNotFound))
    ensures (AuthorizeBurner(s, origin).Ok? && requestId in s.velopay.burnRequests && !BurnReservedAt(s, requestId))
            ==> r == Err(VeloPayErr(InvalidBurnRequestStatus))
    ensures r.Ok? <==> AuthorizeBurner(s, origin).Ok? && BurnReservedAt(s, requestId)
    ensures r.Ok? ==> OtherPalletsUnchanged(s, r.value) && r.value.velopay.totalSupply == s.velopay.totalSupply
  {
    match AuthorizeBurner(s, origin)
    case Err(e) => Err(e)
    case Ok(_) =>
      if requestId !in s.velopay.burnRequests then Err(VeloPayErr(BurnRequestNotFound))
      else
        var request := s.velopay.burnRequests[requestId];
        if !request.status.Reserved? then Err(VeloPayErr(InvalidBurnRequestStatus))
        else
          // The part that could not be unreserved is ignored, as in the source.
          var (balances, _) := Ledger.Unreserve(s.balances, request.requester, request.amount);
          var who := request.requester;
          var done := request.(status := BurnRequestStatus.Rejected, processedAt := Some(block));
          Ok(s.(balances := balances,
                velopay := s.velopay.(
                  reservedBurns := s.velopay.reservedBurns[who := SaturatingSub(ReservedBurnsOf(s, who), request.amount)],
                  burnRequests := s.velopay.burnRequests[requestId := done]),
                events := s.events + [BurnRejected(requestId, who)]))
  }

  // ----------------------------------------------------------- transfers

  /**
   * The fee for `amount` at `basisPoints`: the saturating product divided by
   * 10000, rounded down.
   */
  function Fee(amount: u128, basisPoints: u32): (fee: u128)
    ensures fee * FEE_DENOMINATOR <= amount * basisPoints
    ensures amount * basisPoints <= U128_MAX ==> amount * basisPoints < (fee + 1) * FEE_DENOMINATOR
    ensures amount * basisPoints > U128_MAX ==> fee == U128_MAX / FEE_DENOMINATOR
  {
    SaturatingMul(amount, basisPoints) / FEE_DENOMINATOR
  }

  /** `calculate_fee`: the fee the current rate charges on `amount`. */
  function CalculateFee(s: State, amount: u128): (fee: u128)
    ensures fee == Fee(amount, s.velopay.transactionFee)
    ensures fee * FEE_DENOMINATOR <= amount * s.velopay.transactionFee
    ensures s.velopay.transactionFee <= FEE_DENOMINATOR ==> fee <= amount
  {
    FeeAtMostAmount(amount, s.velopay.transactionFee);
    Fee(amount, s.velopay.transactionFee)
  }

  /** A rate of at most 100% never charges more than the amount itself. */
  lemma FeeAtMostAmount(amount: u128, basisPoints: u32)
    ensures basisPoints <= FEE_DENOMINATOR ==> Fee(amount, basisPoints) <= amount
  {
    if basisPoints <= FEE_DENOMINATOR {
      var fee := Fee(amount, basisPoints);
      MulMonotone(amount, basisPoints, FEE_DENOMINATOR);
      assert fee * 10000 <= amount * 10000;
    }
  }

  lemma MulMonotone(a: nat, b: nat, c: nat)
    requires b <= c
    ensures a * b <= a * c
  {
  }

  /**
   * `transfer`: moves `amount` from the caller to `dest` and the fee from
   * the caller to the mint authority.  Fails, in this order: SystemPaused;
   * InvalidAmount for a zero amount or a transfer to oneself; KYCNotVerified
   * for the sender, then for `dest`; ComplianceCheckFailed for the sender,
   * then for `dest`; Overflow if amount + fee overflows; InsufficientBalance
   * if the sender's free balance is below amount + fee; a ledger error if
   * crediting `dest` overflows; NoMintAuthority if a non-zero fee has no
   * recipient; a ledger error if crediting the authority overflows.  The
   * compliance volume written by the two checks is part of the call's
   * effect, so a later failure discards it with everything else.
   */
  function Transfer(s: State, origin: Origin, dest: AccountId, amount: u128, block: BlockNumber, cfg: Config)
    : (r: Result<State, DispatchError>)
    ensures !origin.Signed? ==> r == Err(BadOrigin)
    ensures origin.Signed? && s.velopay.paused ==> r == Err(VeloPayErr(VeloPayError.SystemPaused))
    ensures origin.Signed? && !s.velopay.paused && (amount == 0 || origin.who == dest) ==> r == Err(VeloPayErr(InvalidAmount))
    ensures TransferAdmitted(s, origin, dest, amount) && !Kyc.IsVerified(s, origin.who) ==> r == Err(VeloPayErr(KYCNotVerified))
    ensures (TransferAdmitted(s, origin, dest, amount) && Kyc.IsVerified(s, origin.who) && !Kyc.IsVerified(s, dest))
            ==> r == Err(VeloPayErr(KYCNotVerified))
    ensures (TransferAdmitted(s, origin, dest, amount) && Kyc.IsVerified(s, origin.who) && Kyc.IsVerified(s, dest)
             && !Compliance.PassesCheck(s, origin.who, amount, block, cfg)) ==> r == Err(VeloPayErr(ComplianceCheckFailed))
    ensures (TransferAdmitted(s, origin, dest, amount) && Kyc.IsVerified(s, origin.who) && Kyc.IsVerified(s, dest)
             && Compliance.PassesCheck(s, origin.who, amount, block, cfg) && !Compliance.PassesCheck(s, dest, amount, block, cfg))
            ==> r == Err(VeloPayErr(ComplianceCheckFailed))
    ensures TransferCleared(s, origin, dest, amount, block, cfg) && r.Err? ==> r == Settle(s, origin.who, dest, amount)
    ensures r.Ok? <==> (TransferCleared(s, origin, dest, amount, block, cfg) && Affordable(s, origin.who, amount)
                        && Ledger.Free(s.balances, dest) + amount <= U128_MAX && FeePayable(s, origin.who, dest, amount))
    ensures r.Ok? ==> r.value.velopay == s.velopay && r.value.kyc == s.kyc
    ensures r.Ok? ==> forall a :: Ledger.Reserved(r.value.balances, a) == Ledger.Reserved(s.balances, a)
  {
    if !origin.Signed? then Err(BadOrigin)
    else
      var sender := origin.who;
      if s.velopay.paused then Err(VeloPayErr(VeloPayError.SystemPaused))
      else if amount == 0 then Err(VeloPayErr(InvalidAmount))
      else if sender == dest then Err(VeloPayErr(InvalidAmount))
      else if !Kyc.IsVerified(s, sender) then Err(VeloPayErr(KYCNotVerified))
      else if !Kyc.IsVerified(s, dest) then Err(VeloPayErr(KYCNotVerified))
      else
        match Compliance.CheckTransaction(s, sender, amount, block, cfg)
        case Err(_) => Err(VeloPayErr(ComplianceCheckFailed))
        case Ok(s1) =>
          match Compliance.CheckTransaction(s1, dest, amount, block, cfg)
          case Err(_) => Err(VeloPayErr(ComplianceCheckFailed))
          case Ok(s2) =>
            SettleIgnoresCompliance(s, s2, sender, dest, amount);
            Settle(s2, sender, dest, amount)
  }

  /** The caller is signed, the system runs, and a non-zero amount goes to someone else. */
  predicate TransferAdmitted(s: State, origin: Origin, dest: AccountId, amount: u128)
  {
    origin.Signed? && !s.velopay.paused && amount != 0 && origin.who != dest
  }

  /** The transfer passes every gate before the fee and balance steps: both parties verified and compliant. */
  predicate TransferCleared(s: State, origin: Origin, dest: AccountId, amount: u128, block: BlockNumber, cfg: Config)
  {
    && TransferAdmitted(s, origin, dest, amount)
    && Kyc.IsVerified(s, origin.who) && Kyc.IsVerified(s, dest)
    && Compliance.PassesCheck(s, origin.who, amount, block, cfg)
    && Compliance.PassesCheck(s, dest, amount, block, cfg)
  }

  /** `amount` plus the fee fits in a u128 and the sender's free balance covers it. */
  predicate Affordable(s: State, sender: AccountId, amount: u128)
  {
    amount + CalculateFee(s, amount) <= U128_MAX && Ledger.Free(s.balances, sender) >= amount + CalculateFee(s, amount)
  }

  /**
   * The fee can be paid once `dest` has received `amount`: it is zero, or
   * the mint authority is set and is either the sender itself (a transfer
   * to oneself moves nothing) or can be credited without overflow.
   */
  predicate FeePayable(s: State, sender: AccountId, dest: AccountId, amount: u128)
  {
    var fee := CalculateFee(s, amount);
    fee == 0 ||
    (s.velopay.mintAuthority.Some? &&
     var m := s.velopay.mintAuthority.value;
     m == sender || Ledger.Free(s.balances, m) + (if m == dest then amount else 0) + fee <= U128_MAX)
  }

  /** Settling depends only on the balances and the VeloPay storage. */
  lemma SettleIgnoresCompliance(s: State, s2: State, sender: AccountId, dest: AccountId, amount: u128)
    requires sender != dest && amount != 0
    requires s2.balances == s.balances && s2.velopay == s.velopay
    ensures Settle(s2, sender, dest, amount).Err? <==> Settle(s, sender, dest, amount).Err?
    ensures Settle(s2, sender, dest, amount).Err? ==> Settle(s2, sender, dest, amount) == Settle(s, sender, dest, amount)
  {
  }

  /**
   * The fee and balance steps of `transfer`, once both parties have passed
   * the compliance check: the sender pays `amount` to `dest` and the fee to
   * the mint authority, and the transfer is announced.
   */
  function Settle(s: State, sender: AccountId, dest: AccountId, amount: u128): (r: Result<State, DispatchError>)
    requires sender != dest && amount != 0
    ensures amount + CalculateFee(s, amount) > U128_MAX ==> r == Err(VeloPayErr(Overflow))
    ensures (amount + CalculateFee(s, amount) <= U128_MAX && Ledger.Free(s.balances, sender) < amount + CalculateFee(s, amount))
            ==> r == Err(VeloPayErr(InsufficientBalance))
    ensures Affordable(s, sender, amount) && Ledger.Free(s.balances, dest) + amount > U128_MAX ==> r == Err(LedgerErr(Ledger.BalanceOverflow))
    ensures (Affordable(s, sender, amount) && Ledger.Free(s.balances, dest) + amount <= U128_MAX
             && CalculateFee(s, amount) > 0 && s.velopay.mintAuthority.None?) ==> r == Err(VeloPayErr(NoMintAuthority))
    ensures (Affordable(s, sender, amount) && Ledger.Free(s.balances, dest) + amount <= U128_MAX
             && s.velopay.mintAuthority.Some? && !FeePayable(s, sender, dest, amount)) ==> r == Err(LedgerErr(Ledger.BalanceOverflow))
    ensures r.Ok? <==> Affordable(s, sender, amount) && Ledger.Free(s.balances, dest) + amount <= U128_MAX
                       && FeePayable(s, sender, dest, amount)
    ensures r.Ok? ==> r.value.events == s.events + [Event.Transfer(sender, dest, amount, CalculateFee(s, amount))]
    ensures r.Ok? ==> r.value.velopay == s.velopay && r.value.kyc == s.kyc && r.value.compliance == s.compliance
    ensures r.Ok? ==> forall a :: Ledger.Reserved(r.value.balances, a) == Ledger.Reserved(s.balances, a)
  {
    var fee := Fee(amount, s.velopay.transactionFee);
    if amount + fee > U128_MAX then Err(VeloPayErr(Overflow))
    else if Ledger.Free(s.balances, sender) < amount + fee then Err(VeloPayErr(InsufficientBalance))
    else
      match Ledger.Transfer(s.balances, sender, dest, amount)
      case Err(e) => Err(LedgerErr(e))
      case Ok(b1) =>
        if fee == 0 then
          Ok(s.(balances := b1, events := s.events + [Event.Transfer(sender, dest, amount, fee)]))
        else if s.velopay.mintAuthority.None? then Err(VeloPayErr(NoMintAuthority))
        else
          match Ledger.Transfer(b1, sender, s.velopay.mintAuthority.value, fee)
          case Err(e) => Err(LedgerErr(e))
          case Ok(b2) =>
            Ok(s.(balances := b2, events := s.events + [Event.Transfer(sender, dest, amount, fee)]))
  }

  // ----------------------------------------------------------- properties

  /**
   * Reference definition of what a successful transfer does to the free
   * balance of account `a`: `dest` gains `amount`, the sender pays
   * `amount + fee`, and the fee recipient gains `fee`.
   */
  function TransferDelta(a: AccountId, sender: AccountId, dest: AccountId, amount: u128, fee: u128,
                         recipient: Option<AccountId>): int
  {
    (if a == dest then amount else 0) - (if a == sender then amount + fee else 0)
    + (if recipient == Some(a) then fee else 0)
  }

  /**
   * A successful transfer passed every gate (signed, not paused, non-zero,
   * to someone else, both parties verified and unflagged), charged exactly
   * `CalculateFee`, changed every free balance by `TransferDelta`, added the
   * amount to both parties' volume for the day and announced itself last.
   */
  lemma TransferEffect(s: State, origin: Origin, dest: AccountId, amount: u128, block: BlockNumber, cfg: Config)
    requires Transfer(s, origin, dest, amount, block, cfg).Ok?
    ensures origin.Signed? && origin.who != dest && amount > 0 && !s.velopay.paused
    ensures Kyc.IsVerified(s, origin.who) && Kyc.IsVerified(s, dest)
    ensures !Compliance.IsAccountFlagged(s, origin.who) && !Compliance.IsAccountFlagged(s, dest)
    ensures CalculateFee(s, amount) > 0 ==> s.velopay.mintAuthority.Some?
    ensures var s' := Transfer(s, origin, dest, amount, block, cfg).value;
            forall a :: Ledger.Free(s'.balances, a) ==
                        Ledger.Free(s.balances, a)
                        + TransferDelta(a, origin.who, dest, amount, CalculateFee(s, amount), s.velopay.mintAuthority)
    ensures cfg.blocksPerDay > 0
    ensures var s' := Transfer(s, origin, dest, amount, block, cfg).value;
            var day := block / cfg.blocksPerDay;
            && VolumeOf(s', origin.who, day) == SaturatingAdd(VolumeOf(s, origin.who, day), amount)
            && VolumeOf(s', dest, day) == SaturatingAdd(VolumeOf(s, dest, day), amount)
            && (forall a: AccountId, d: BlockNumber :: (a, d) != (origin.who, day) && (a, d) != (dest, day) ==>
                  VolumeOf(s', a, d) == VolumeOf(s, a, d))
            && s'.compliance.(dailyVolume := s.compliance.dailyVolume) == s.compliance
    ensures var s' := Transfer(s, origin, dest, amount, block, cfg).value;
            s'.events == s.events
                         + (if amount >= cfg.suspiciousAmountThreshold
                            then [SuspiciousActivityDetected(origin.who, amount), SuspiciousActivityDetected(dest, amount)]
                            else [])
                         + [Event.Transfer(origin.who, dest, amount, CalculateFee(s, amount))]
  {
    var sender := origin.who;
    var s1 := Compliance.CheckTransaction(s, sender, amount, block, cfg).value;
    var s2 := Compliance.CheckTransaction(s1, dest, amount, block, cfg).value;
    var fee := Fee(amount, s2.velopay.transactionFee);
    assert fee == CalculateFee(s, amount);
    var b1 := Ledger.Transfer(s2.balances, sender, dest, amount).value;
    assert s2.balances == s.balances;
    var s' := Transfer(s, origin, dest, amount, block, cfg).value;
    if fee == 0 {
      assert s'.balances == b1;
    } else {
      var m := s.velopay.mintAuthority.value;
      var b2 := Ledger.Transfer(b1, sender, m, fee).value;
      assert s'.balances == b2;
      forall a ensures Ledger.Free(b2, a) ==
                       Ledger.Free(s.balances, a) + TransferDelta(a, sender, dest, amount, fee, Some(m)) {
      }
    }
  }

  /**
   * Approving a mint grows the supply by exactly the requested amount,
   * credits the requester's free balance with it (unless that credit would
   * overflow the account, in which case the deposit is silently dropped
   * while the supply still grows), and closes the request as Completed at
   * this block; nothing else in VeloPay or in any other account changes.
   */
  lemma ApproveMintEffect(s: State, origin: Origin, requestId: u64, block: BlockNumber)
    requires ApproveMint(s, origin, requestId, block).Ok?
    ensures s.velopay.mintAuthority == Some(origin.who) && MintPending(s, requestId)
    ensures var s' := ApproveMint(s, origin, requestId, block).value;
            var request := s.velopay.mintRequests[requestId];
            && s'.velopay.totalSupply == s.velopay.totalSupply + request.amount
            && (Ledger.Free(s.balances, request.requester) + request.amount <= U128_MAX ==>
                  Ledger.Free(s'.balances, request.requester) == Ledger.Free(s.balances, request.requester) + request.amount)
            && (Ledger.Free(s.balances, request.requester) + request.amount > U128_MAX ==> s'.balances == s.balances)
            && Ledger.Reserved(s'.balances, request.requester) == Ledger.Reserved(s.balances, request.requester)
            && (forall a :: a != request.requester ==> Ledger.Account(s'.balances, a) == Ledger.Account(s.balances, a))
            && s'.velopay.mintRequests == s.velopay.mintRequests[requestId :=
                 request.(status := MintRequestStatus.Completed, processedAt := Some(block))]
            && s'.velopay.(totalSupply := s.velopay.totalSupply, mintRequests := s.velopay.mintRequests) == s.velopay
            && s'.events == s.events + [MintApproved(requestId, request.requester, request.amount)]
  {
  }

  /**
   * Approving a burn destroys exactly the requested amount: it leaves the
   * requester's reserved balance and the supply each lower by that amount,
   * the free balance and every other account as they were, the request
   * Completed at this block, and the requester's `ReservedBurns` lower by
   * that amount (saturating at zero).
   */
  lemma ApproveBurnEffect(s: State, origin: Origin, requestId: u64, block: BlockNumber)
    requires ApproveBurn(s, origin, requestId, block).Ok?
    ensures s.velopay.burnAuthority == Some(origin.who) && BurnReservedAt(s, requestId)
    ensures var s' := ApproveBurn(s, origin, requestId, block).value;
            var request := s.velopay.burnRequests[requestId];
            var who := request.requester;
            && s'.velopay.totalSupply == s.velopay.totalSupply - request.amount
            && Ledger.Reserved(s'.balances, who) == Ledger.Reserved(s.balances, who) - request.amount
            && Ledger.Free(s'.balances, who) == Ledger.Free(s.balances, who)
            && (forall a :: a != who ==> Ledger.Account(s'.balances, a) == Ledger.Account(s.balances, a))
            && ReservedBurnsOf(s', who) == SaturatingSub(ReservedBurnsOf(s, who), request.amount)
            && (forall a :: a != who ==> ReservedBurnsOf(s', a) == ReservedBurnsOf(s, a))
            && s'.velopay.burnRequests == s.velopay.burnRequests[requestId :=
                 request.(status := BurnRequestStatus.Completed, processedAt := Some(block))]
            && s'.velopay.(totalSupply := s.velopay.totalSupply, reservedBurns := s.velopay.reservedBurns,
                           burnRequests := s.velopay.burnRequests) == s.velopay
            && s'.events == s.events + [BurnApproved(requestId, who, request.amount)]
  {
  }

  /**
   * Rejecting a burn returns the reserved funds: the requester's reserved
   * balance falls and its free balance rises by the part actually reserved
   * (all of it when the reservation is intact), the supply is untouched and
   * the request is closed as Rejected.
   */
  lemma RejectBurnEffect(s: State, origin: Origin, requestId: u64, block: BlockNumber)
    requires RejectBurn(s, origin, requestId, block).Ok?
    ensures s.velopay.burnAuthority == Some(origin.who) && BurnReservedAt(s, requestId)
    ensures var s' := RejectBurn(s, origin, requestId, block).value;
            var request := s.velopay.burnRequests[requestId];
            var who := request.requester;
            && (request.amount <= Ledger.Reserved(s.balances, who) ==>
                  && Ledger.Reserved(s'.balances, who) == Ledger.Reserved(s.balances, who) - request.amount
                  && Ledger.Free(s'.balances, who) == SaturatingAdd(Ledger.Free(s.balances, who), request.amount))
            && (request.amount > Ledger.Reserved(s.balances, who) ==>
                  && Ledger.Reserved(s'.balances, who) == 0
                  && Ledger.Free(s'.balances, who) == SaturatingAdd(Ledger.Free(s.balances, who), Ledger.Reserved(s.balances, who)))
            && (forall a :: a != who ==> Ledger.Account(s'.balances, a) == Ledger.Account(s.balances, a))
            && s'.velopay.totalSupply == s.velopay.totalSupply
            && ReservedBurnsOf(s', who) == SaturatingSub(ReservedBurnsOf(s, who), request.amount)
            && (forall a :: a != who ==> ReservedBurnsOf(s', a) == ReservedBurnsOf(s, a))
            && s'.velopay.burnRequests == s.velopay.burnRequests[requestId :=
                 request.(status := BurnRequestStatus.Rejected, processedAt := Some(block))]
            && s'.velopay.(reservedBurns := s.velopay.reservedBurns, burnRequests := s.velopay.burnRequests) == s.velopay
            && s'.events == s.events + [BurnRejected(requestId, who)]
  {
  }

  /**
   * Requesting a burn and having it rejected is a round trip: the
   * requester's balances and `ReservedBurns` entry are back where they
   * started.
   */
  lemma RequestRejectBurnRoundTrip(s: State, who: AccountId, amount: u128, block: BlockNumber,
                                   authority: Origin, block': BlockNumber)
    requires RequestBurn(s, Signed(who), amount, block).Ok?
    requires AuthorizeBurner(s, authority).Ok?
    requires ReservedBurnsOf(s, who) + amount <= U128_MAX
    ensures var s1 := RequestBurn(s, Signed(who), amount, block).value;
            var id := s.velopay.nextBurnRequestId;
            var r := RejectBurn(s1, authority, id, block');
            && r.Ok?
            && Ledger.Account(r.value.balances, who) == Ledger.Account(s.balances, who)
            && ReservedBurnsOf(r.value, who) == ReservedBurnsOf(s, who)
            && r.value.velopay.burnRequests[id].status.Rejected?
  {
    var s1 := RequestBurn(s, Signed(who), amount, block).value;
    var id := s.velopay.nextBurnRequestId;
    assert BurnReservedAt(s1, id);
    var s2 := RejectBurn(s1, authority, id, block').value;
    RejectBurnEffect(s1, authority, id, block');
    assert Ledger.Free(s2.balances, who) == Ledger.Free(s.balances, who);
  }

  /**
   * While the system is paused every operation that moves tokens
   * (request_mint, approve_mint, request_burn, approve_burn, transfer) fails
   * with SystemPaused once its origin is accepted, whereas the two
   * rejections behave exactly as when the system runs.
   */
  lemma PauseBlocksTokenMovement(s: State, who: AccountId, origin: Origin, dest: AccountId, amount: u128,
                                 requestId: u64, block: BlockNumber, cfg: Config)
    requires s.velopay.paused
    ensures RequestMint(s, Signed(who), amount, block) == Err(VeloPayErr(VeloPayError.SystemPaused))
    ensures RequestBurn(s, Signed(who), amount, block) == Err(VeloPayErr(VeloPayError.SystemPaused))
    ensures Transfer(s, Signed(who), dest, amount, block, cfg) == Err(VeloPayErr(VeloPayError.SystemPaused))
    ensures AuthorizeMinter(s, origin).Ok? ==> ApproveMint(s, origin, requestId, block) == Err(VeloPayErr(VeloPayError.SystemPaused))
    ensures AuthorizeBurner(s, origin).Ok? ==> ApproveBurn(s, origin, requestId, block) == Err(VeloPayErr(VeloPayError.SystemPaused))
    ensures var running := s.(velopay := s.velopay.(paused := false));
            && RejectMint(s, origin, requestId, block).Ok? == RejectMint(running, origin, requestId, block).Ok?
            && RejectBurn(s, origin, requestId, block).Ok? == RejectBurn(running, origin, requestId, block).Ok?
  {
  }

  /**
   * The transfer-with-fee scenario: at 50 basis points, a verified sender
   * holding 10100 who sends 10000 to a verified, unflagged account within
   * the daily limit succeeds, ends with 50, the receiver gains 10000 and the
   * mint authority (a third account) gains the fee of 50.
   */
  lemma TransferWithFeeScenario(s: State, sender: AccountId, dest: AccountId, block: BlockNumber, cfg: Config)
    requires !s.velopay.paused && s.velopay.transactionFee == 50
    requires sender != dest && s.velopay.mintAuthority.Some?
    requires s.velopay.mintAuthority.value != sender && s.velopay.mintAuthority.value != dest
    requires Kyc.IsVerified(s, sender) && Kyc.IsVerified(s, dest)
    requires !Compliance.IsAccountFlagged(s, sender) && !Compliance.IsAccountFlagged(s, dest)
    requires cfg.blocksPerDay > 0
    requires VolumeOf(s, sender, block / cfg.blocksPerDay) + 10000 <= cfg.dailyTransactionLimit
    requires VolumeOf(s, dest, block / cfg.blocksPerDay) + 10000 <= cfg.dailyTransactionLimit
    requires Ledger.Free(s.balances, sender) == 10100
    requires Ledger.Free(s.balances, dest) + 10000 <= U128_MAX
    requires Ledger.Free(s.balances, s.velopay.mintAuthority.value) + 50 <= U128_MAX
    ensures var r := Transfer(s, Signed(sender), dest, 10000, block, cfg);
            && r.Ok?
            && Ledger.Free(r.value.balances, sender) == 50
            && Ledger.Free(r.value.balances, dest) == Ledger.Free(s.balances, dest) + 10000
            && Ledger.Free(r.value.balances, s.velopay.mintAuthority.value)
               == Ledger.Free(s.balances, s.velopay.mintAuthority.value) + 50
  {
    var day := block / cfg.blocksPerDay;
    var s1 := Compliance.CheckTransaction(s, sender, 10000, block, cfg).value;
    assert VolumeOf(s1, dest, day) == VolumeOf(s, dest, day);
    var s2 := Compliance.CheckTransaction(s1, dest, 10000, block, cfg).value;
    FeeExamples();
    assert Fee(10000, s2.velopay.transactionFee) == 50;
    assert Transfer(s, Signed(sender), dest, 10000, block, cfg).Ok?;
    TransferEffect(s, Signed(sender), dest, 10000, block, cfg);
  }

  /** Worked values of the fee formula: 0.5% of 10000 is 50; of 199 it rounds down to 0; a zero rate charges nothing. */
  lemma FeeExamples()
    ensures Fee(10000, 50) == 50
    ensures Fee(199, 50) == 0
    ensures Fee(1000000, 0) == 0
  {
  }

  /** Below the saturation point the fee is the exact floor of amount * rate / 10000. */
  lemma FeeIsFloorOfProduct(amount: u128, basisPoints: u32)
    requires amount * basisPoints <= U128_MAX
    ensures Fee(amount, basisPoints) == amount * basisPoints / FEE_DENOMINATOR
  {
  }
}
