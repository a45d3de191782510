/**
 * The runtime's view of the three pallets: every extrinsic names one
 * dispatchable of one pallet, is applied to the whole state, and either
 * commits its effect or is discarded in full.  The properties here are the
 * ones that hold across pallets and across sequences of extrinsics.
 */
module Dispatch {
  import opened Primitives
  import opened Storage
  import Ledger
  import Kyc
  import Compliance
  import VeloPay
  import opened Invariants

  /** The dispatchable calls of the three pallets with their arguments. */
  datatype Call =
    // KYC pallet
    | SetVerifier(verifier: AccountId)
    | SubmitKyc(documentHash: H256)
    | VerifyKyc(account: AccountId)
    | RejectKyc(account: AccountId)
    // Compliance pallet
    | SetComplianceOfficer(officer: AccountId)
    | FlagAccount(account: AccountId)
    | UnflagAccount(account: AccountId)
    | CreateAlert(account: AccountId, alertLevel: AlertLevel, amount: u128, reason: seq<u8>)
    | ResolveAlert(alertId: u64)
    // VeloPay pallet
    | SetMintAuthority(authority: AccountId)
    | SetBurnAuthority(authority: AccountId)
    | SetTransactionFee(feeBasisPoints: u32)
    | Pause
    | Unpause
    | RequestMint(amount: u128)
    | ApproveMint(requestId: u64)
    | RejectMint(requestId: u64)
    | RequestBurn(amount: u128)
    | ApproveBurn(requestId: u64)
    | RejectBurn(requestId: u64)
    | Transfer(dest: AccountId, amount: u128)

  /** A call as the host hands it over: with its origin and the current block number. */
  datatype Extrinsic = Extrinsic(origin: Origin, call: Call, block: BlockNumber)

  /** Routes an extrinsic to its pallet's dispatchable. */
  function Apply(s: State, x: Extrinsic, cfg: Config): (r: Result<State, DispatchError>)
    ensures r.Ok? && (x.call.SetVerifier? || x.call.SubmitKyc? || x.call.VerifyKyc? || x.call.RejectKyc?) ==>
              Kyc.OnlyKycChanged(s, r.value)
    ensures r.Ok? && (x.call.SetComplianceOfficer? || x.call.FlagAccount? || x.call.UnflagAccount?
                      || x.call.CreateAlert? || x.call.ResolveAlert?) ==>
              Compliance.OnlyComplianceChanged(s, r.value)
    ensures r.Ok? && !x.call.Transfer? && !x.call.SetVerifier? && !x.call.SubmitKyc? && !x.call.VerifyKyc?
            && !x.call.RejectKyc? && !x.call.SetComplianceOfficer? && !x.call.FlagAccount?
            && !x.call.UnflagAccount? && !x.call.CreateAlert? && !x.call.ResolveAlert? ==>
              VeloPay.OtherPalletsUnchanged(s, r.value)
  {
    var o, b := x.origin, x.block;
    match x.call
    case SetVerifier(verifier) => Kyc.SetVerifier(s, o, verifier)
    case SubmitKyc(documentHash) => Kyc.SubmitKyc(s, o, documentHash, b)
    case VerifyKyc(account) => Kyc.VerifyKyc(s, o, account, b)
    case RejectKyc(account) => Kyc.RejectKyc(s, o, account)
    case SetComplianceOfficer(officer) => Compliance.SetComplianceOfficer(s, o, officer)
    case FlagAccount(account) => Compliance.FlagAccount(s, o, account)
    case UnflagAccount(account) => Compliance.UnflagAccount(s, o, account)
    case CreateAlert(account, alertLevel, amount, reason) =>
      Compliance.CreateAlert(s, o, account, alertLevel, amount, reason, b, cfg)
    case ResolveAlert(alertId) => Compliance.ResolveAlert(s, o, alertId)
    case SetMintAuthority(authority) => VeloPay.SetMintAuthority(s, o, authority)
    case SetBurnAuthority(authority) => VeloPay.SetBurnAuthority(s, o, authority)
    case SetTransactionFee(feeBasisPoints) => VeloPay.SetTransactionFee(s, o, feeBasisPoints, cfg)
    case Pause => VeloPay.Pause(s, o)
    case Unpause => VeloPay.Unpause(s, o)
    case RequestMint(amount) => VeloPay.RequestMint(s, o, amount, b)
    case ApproveMint(requestId) => VeloPay.ApproveMint(s, o, requestId, b)
    case RejectMint(requestId) => VeloPay.RejectMint(s, o, requestId, b)
    case RequestBurn(amount) => VeloPay.RequestBurn(s, o, amount, b)
    case ApproveBurn(requestId) => VeloPay.ApproveBurn(s, o, requestId, b)
    case RejectBurn(requestId) => VeloPay.RejectBurn(s, o, requestId, b)
    case Transfer(dest, amount) => VeloPay.Transfer(s, o, dest, amount, b, cfg)
  }

  /**
   * Applies a sequence of extrinsics in order.  A failing extrinsic is
   * discarded: the next one sees the state as it was before it.
   */
  function ApplyAll(s: State, xs: seq<Extrinsic>, cfg: Config): (s': State)
    ensures xs == [] ==> s' == s
    decreases |xs|
  {
    if xs == [] then s
    else
      match Apply(s, xs[0], cfg)
      case Ok(s1) => ApplyAll(s1, xs[1..], cfg)
      case Err(_) => ApplyAll(s, xs[1..], cfg)
  }

  /**
   * A run of extrinsics can be split anywhere: applying `xs + ys` is
   * applying `xs` and then `ys` to the state it leaves.
   */
  lemma {:induction false} ApplyAllConcat(s: State, xs: seq<Extrinsic>, ys: seq<Extrinsic>, cfg: Config)
    ensures ApplyAll(s, xs + ys, cfg) == ApplyAll(ApplyAll(s, xs, cfg), ys, cfg)
    decreases |xs|
  {
    if xs == [] {
      assert xs + ys == ys;
    } else {
      assert (xs + ys)[0] == xs[0];
      assert (xs + ys)[1..] == xs[1..] + ys;
      match Apply(s, xs[0], cfg) {
        case Ok(s1) => ApplyAllConcat(s1, xs[1..], ys, cfg);
        case Err(_) => ApplyAllConcat(s, xs[1..], ys, cfg);
      }
    }
  }

  // ------------------------------------------------------------ counters

  /** All three id counters are at most `bound`. */
  predicate CountersAtMost(s: State, bound: int)
  {
    && s.velopay.nextMintRequestId <= bound
    && s.velopay.nextBurnRequestId <= bound
    && s.compliance.nextAlertId <= bound
  }

  /** A successful extrinsic never lowers an id counter and raises each by at most one. */
  lemma ApplyAdvancesCountersByAtMostOne(s: State, x: Extrinsic, cfg: Config)
    requires Apply(s, x, cfg).Ok?
    ensures var s' := Apply(s, x, cfg).value;
            && s.velopay.nextMintRequestId <= s'.velopay.nextMintRequestId <= s.velopay.nextMintRequestId + 1
            && s.velopay.nextBurnRequestId <= s'.velopay.nextBurnRequestId <= s.velopay.nextBurnRequestId + 1
            && s.compliance.nextAlertId <= s'.compliance.nextAlertId <= s.compliance.nextAlertId + 1
  {
    var o, b := x.origin, x.block;
    match x.call {
      case Transfer(dest, amount) =>
        var s1 := Compliance.CheckTransaction(s, o.who, amount, b, cfg).value;
        var s2 := Compliance.CheckTransaction(s1, dest, amount, b, cfg).value;
        assert Apply(s, x, cfg).value.compliance.nextAlertId == s2.compliance.nextAlertId;
      case ApproveMint(requestId) => VeloPay.ApproveMintEffect(s, o, requestId, b);
      case ApproveBurn(requestId) => VeloPay.ApproveBurnEffect(s, o, requestId, b);
      case RejectBurn(requestId) =>
      case _ =>
    }
  }

  // ---------------------------------------------------------- invariants

  /**
   * Every successful extrinsic preserves the invariants, as long as the id
   * counters have not reached u64::MAX.
   */
  lemma ApplyPreservesValid(s: State, x: Extrinsic, cfg: Config)
    requires Valid(s, cfg) && Headroom(s)
    requires Apply(s, x, cfg).Ok?
    ensures Valid(Apply(s, x, cfg).value, cfg)
  {
    var o, b := x.origin, x.block;
    var s' := Apply(s, x, cfg).value;
    match x.call {
      case SetVerifier(verifier) =>
        VeloPayInvariantsFrame(s, s');
      case SubmitKyc(documentHash) =>
        Kyc.SubmitPreservesWellFormed(s, o, documentHash, b);
        VeloPayInvariantsFrame(s, s');
      case VerifyKyc(account) =>
        Kyc.VerifyPreservesWellFormed(s, o, account, b);
        VeloPayInvariantsFrame(s, s');
      case RejectKyc(account) =>
        Kyc.RejectPreservesWellFormed(s, o, account);
        VeloPayInvariantsFrame(s, s');
      case SetComplianceOfficer(officer) =>
        VeloPayInvariantsFrame(s, s');
      case FlagAccount(account) =>
        VeloPayInvariantsFrame(s, s');
      case UnflagAccount(account) =>
        VeloPayInvariantsFrame(s, s');
      case CreateAlert(account, alertLevel, amount, reason) =>
        Compliance.CreateAlertFreshId(s, o, account, alertLevel, amount, reason, b, cfg);
        VeloPayInvariantsFrame(s, s');
      case ResolveAlert(alertId) =>
        VeloPayInvariantsFrame(s, s');
      case SetMintAuthority(authority) =>
        VeloPayInvariantsFrame(s, s');
      case SetBurnAuthority(authority) =>
        VeloPayInvariantsFrame(s, s');
      case SetTransactionFee(feeBasisPoints) =>
        VeloPayInvariantsFrame(s, s');
      case Pause =>
        VeloPayInvariantsFrame(s, s');
      case Unpause =>
        VeloPayInvariantsFrame(s, s');
      case RequestMint(amount) => RequestMintPreservesValid(s, o, amount, b, cfg);
      case ApproveMint(requestId) => ApproveMintPreservesValid(s, o, requestId, b, cfg);
      case RejectMint(requestId) => RejectMintPreservesValid(s, o, requestId, b, cfg);
      case RequestBurn(amount) => RequestBurnPreservesValid(s, o, amount, b, cfg);
      case ApproveBurn(requestId) => ApproveBurnPreservesValid(s, o, requestId, b, cfg);
      case RejectBurn(requestId) => RejectBurnPreservesValid(s, o, requestId, b, cfg);
      case Transfer(dest, amount) => TransferPreservesValid(s, o, dest, amount, b, cfg);
    }
  }

  /**
   * The invariants hold after any sequence of extrinsics short enough that
   * no id counter reaches u64::MAX on the way.
   */
  lemma {:induction false} ApplyAllPreservesValid(s: State, xs: seq<Extrinsic>, cfg: Config)
    requires Valid(s, cfg)
    requires CountersAtMost(s, U64_MAX - |xs|)
    ensures Valid(ApplyAll(s, xs, cfg), cfg)
    ensures CountersAtMost(ApplyAll(s, xs, cfg), U64_MAX)
    decreases |xs|
  {
    if xs != [] {
      match Apply(s, xs[0], cfg) {
        case Ok(s1) =>
          ApplyPreservesValid(s, xs[0], cfg);
          ApplyAdvancesCountersByAtMostOne(s, xs[0], cfg);
          ApplyAllPreservesValid(s1, xs[1..], cfg);
        case Err(_) =>
          ApplyAllPreservesValid(s, xs[1..], cfg);
      }
    }
  }

  /**
   * Every state reachable from genesis by fewer than u64::MAX extrinsics
   * satisfies the invariants; in particular its supply is exactly what
   * Completed mints added minus what Completed burns removed, and its
   * reserved balances are exactly the amounts of its Reserved burns.
   */
  lemma ReachableStatesAreValid(xs: seq<Extrinsic>, cfg: Config)
    requires |xs| <= U64_MAX
    ensures Valid(ApplyAll(Genesis, xs, cfg), cfg)
  {
    GenesisValid(cfg);
    ApplyAllPreservesValid(Genesis, xs, cfg);
  }

  // ------------------------------------------------------ finished records

  /**
   * A Verified KYC record is final: no successful extrinsic, of any pallet,
   * changes it.
   */
  lemma ApplyKeepsVerified(s: State, x: Extrinsic, cfg: Config, who: AccountId)
    requires Kyc.IsVerified(s, who)
    requires Apply(s, x, cfg).Ok?
    ensures Kyc.IsVerified(Apply(s, x, cfg).value, who)
    ensures Apply(s, x, cfg).value.kyc.database[who] == s.kyc.database[who]
  {
    var o, b := x.origin, x.block;
    match x.call {
      case SubmitKyc(documentHash) => Kyc.VerifiedIsAbsorbing(s, who, o, who, documentHash, b);
      case VerifyKyc(account) => Kyc.VerifiedIsAbsorbing(s, who, o, account, seq(32, _ => 0), b);
      case RejectKyc(account) => Kyc.VerifiedIsAbsorbing(s, who, o, account, seq(32, _ => 0), b);
      case _ =>
    }
  }

  /** Once an account is verified it stays verified, whatever extrinsics follow. */
  lemma {:induction false} VerifiedStaysVerified(s: State, xs: seq<Extrinsic>, cfg: Config, who: AccountId)
    requires Kyc.IsVerified(s, who)
    ensures Kyc.IsVerified(ApplyAll(s, xs, cfg), who)
    ensures ApplyAll(s, xs, cfg).kyc.database[who] == s.kyc.database[who]
    decreases |xs|
  {
    if xs != [] {
      match Apply(s, xs[0], cfg) {
        case Ok(s1) =>
          ApplyKeepsVerified(s, xs[0], cfg, who);
          VerifiedStaysVerified(s1, xs[1..], cfg, who);
        case Err(_) =>
          VerifiedStaysVerified(s, xs[1..], cfg, who);
      }
    }
  }

  /**
   * Finished mint requests are final: no successful extrinsic changes a
   * mint request that is Completed or Rejected.  (A new request takes an id
   * above every stored one, which is what `RequestIdsBelowNext` records.)
   */
  lemma FinishedMintsAreFrozen(s: State, x: Extrinsic, cfg: Config)
    requires RequestIdsBelowNext(s)
    requires Apply(s, x, cfg).Ok?
    ensures var s' := Apply(s, x, cfg).value;
            forall id :: id in s.velopay.mintRequests && !s.velopay.mintRequests[id].status.Pending? ==>
              id in s'.velopay.mintRequests && s'.velopay.mintRequests[id] == s.velopay.mintRequests[id]
  {
    match x.call {
      case ApproveMint(requestId) => VeloPay.ApproveMintEffect(s, x.origin, requestId, x.block);
      case ApproveBurn(requestId) => VeloPay.ApproveBurnEffect(s, x.origin, requestId, x.block);
      case _ =>
    }
  }

  /** Finished burn requests are final: none that is Completed or Rejected ever changes again. */
  lemma FinishedBurnsAreFrozen(s: State, x: Extrinsic, cfg: Config)
    requires RequestIdsBelowNext(s)
    requires Apply(s, x, cfg).Ok?
    ensures var s' := Apply(s, x, cfg).value;
            forall id :: (id in s.velopay.burnRequests
                          && (s.velopay.burnRequests[id].status.Completed? || s.velopay.burnRequests[id].status.Rejected?)) ==>
              id in s'.velopay.burnRequests && s'.velopay.burnRequests[id] == s.velopay.burnRequests[id]
  {
    match x.call {
      case ApproveMint(requestId) => VeloPay.ApproveMintEffect(s, x.origin, requestId, x.block);
      case ApproveBurn(requestId) => VeloPay.ApproveBurnEffect(s, x.origin, requestId, x.block);
      case RejectBurn(requestId) => VeloPay.RejectBurnEffect(s, x.origin, requestId, x.block);
      case _ =>
    }
  }

  /** Resolved alerts are final: no successful extrinsic changes an alert that is resolved. */
  lemma ResolvedAlertsAreFrozen(s: State, x: Extrinsic, cfg: Config)
    requires Compliance.AlertIdsBelowNext(s)
    requires Apply(s, x, cfg).Ok?
    ensures var s' := Apply(s, x, cfg).value;
            forall id :: id in s.compliance.alerts && s.compliance.alerts[id].resolved ==>
              id in s'.compliance.alerts && s'.compliance.alerts[id] == s.compliance.alerts[id]
  {
    match x.call {
      case Transfer(dest, amount) =>
        var s1 := Compliance.CheckTransaction(s, x.origin.who, amount, x.block, cfg).value;
        var s2 := Compliance.CheckTransaction(s1, dest, amount, x.block, cfg).value;
        assert Apply(s, x, cfg).value.compliance.alerts == s2.compliance.alerts == s.compliance.alerts;
      case _ =>
    }
  }
}
