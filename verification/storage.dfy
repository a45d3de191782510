/**
 * The storage, event and error declarations of the three pallets (KYC,
 * Compliance, VeloPay), gathered into one state record together with the
 * balances ledger and the system event log.
 *
 * Every storage item of the source becomes one field.  `ValueQuery` maps
 * (missing key reads as the default) are `map`s read through the lookup
 * helpers at the end of this module.
 */
module Storage {
  import opened Primitives
  import Ledger

  // ---------------------------------------------------------------- KYC

  datatype KycStatus = NotSubmitted | Pending | Verified | Rejected

  datatype KycData = KycData(
    account: AccountId,
    documentHash: H256,
    status: KycStatus,
    submittedAt: BlockNumber,
    verifiedAt: Option<BlockNumber>)

  datatype KycError = KycAlreadySubmitted | KycNotSubmitted | NotVerifier | InvalidStatus | CannotVerifySelf

  /** `KycDatabase` and `KycVerifier`. */
  datatype KycStore = KycStore(database: map<AccountId, KycData>, verifier: Option<AccountId>)

  // --------------------------------------------------------- Compliance

  datatype AlertLevel = Low | Medium | High | Critical

  datatype ComplianceAlert = ComplianceAlert(
    account: AccountId,
    alertLevel: AlertLevel,
    amount: u128,
    reason: seq<u8>,
    createdAt: BlockNumber,
    resolved: bool)

  datatype ComplianceError =
    | NotComplianceOfficer
    | AccountAlreadyFlagged
    | AccountNotFlagged
    | AlertNotFound
    | AlertAlreadyResolved
    | ReasonTooLong
    | NoComplianceOfficer
    | DailyLimitExceeded
    | InvalidConfiguration

  /**
   * The three failures of the transaction check, which the source reports as
   * static strings rather than pallet errors.
   */
  datatype CheckError = AccountIsFlagged | ZeroBlocksPerDay | LimitExceeded

  /**
   * `ComplianceOfficer`, `FlaggedAccounts` (a map to `true`, here the set of
   * its keys), `DailyTransactionVolume` keyed by (account, day),
   * `Alerts` and `NextAlertId`.
   */
  datatype ComplianceStore = ComplianceStore(
    officer: Option<AccountId>,
    flagged: set<AccountId>,
    dailyVolume: map<(AccountId, BlockNumber), u128>,
    alerts: map<u64, ComplianceAlert>,
    nextAlertId: u64)

  // ------------------------------------------------------------ VeloPay

  datatype MintRequestStatus = Pending | Completed | Rejected

  /** `Pending` is declared by the source but no operation produces it. */
  datatype BurnRequestStatus = Pending | Reserved | Completed | Rejected

  datatype MintRequest = MintRequest(
    requester: AccountId,
    amount: u128,
    status: MintRequestStatus,
    createdAt: BlockNumber,
    processedAt: Option<BlockNumber>)

  datatype BurnRequest = BurnRequest(
    requester: AccountId,
    amount: u128,
    status: BurnRequestStatus,
    createdAt: BlockNumber,
    processedAt: Option<BlockNumber>)

  datatype VeloPayError =
    | NoMintAuthority
    | NoBurnAuthority
    | NotMintAuthority
    | NotBurnAuthority
    | SystemPaused
    | InsufficientBalance
    | Overflow
    | MintRequestNotFound
    | InvalidMintRequestStatus
    | BurnRequestNotFound
    | InvalidBurnRequestStatus
    | InsufficientReservedBalance
    | KYCNotVerified
    | FeeCalculationFailed
    | InvalidAmount
    | ComplianceCheckFailed

  datatype VeloPayStore = VeloPayStore(
    totalSupply: u128,
    mintAuthority: Option<AccountId>,
    burnAuthority: Option<AccountId>,
    transactionFee: u32,
    paused: bool,
    mintRequests: map<u64, MintRequest>,
    nextMintRequestId: u64,
    burnRequests: map<u64, BurnRequest>,
    nextBurnRequestId: u64,
    reservedBurns: map<AccountId, u128>)

  // ------------------------------------------------------------ runtime

  /** The events of all three pallets, as the runtime's aggregated event log sees them. */
  datatype Event =
    // KYC pallet
    | KycSubmitted(account: AccountId, documentHash: H256)
    | KycVerified(account: AccountId)
    | KycRejected(account: AccountId)
    | VerifierSet(verifier: AccountId)
    // Compliance pallet
    | ComplianceOfficerSet(officer: AccountId)
    | AccountFlagged(account: AccountId)
    | AccountUnflagged(account: AccountId)
    | AlertCreated(alertId: u64, account: AccountId, alertLevel: AlertLevel)
    | AlertResolved(alertId: u64)
    | SuspiciousActivityDetected(account: AccountId, amount: u128)
    // VeloPay pallet
    | MintAuthoritySet(authority: AccountId)
    | BurnAuthoritySet(authority: AccountId)
    | TransactionFeeSet(basisPoints: u32)
    | SystemPaused
    | SystemUnpaused
    | MintRequested(requestId: u64, requester: AccountId, amount: u128)
    | MintApproved(requestId: u64, requester: AccountId, amount: u128)
    | MintRejected(requestId: u64, requester: AccountId)
    | BurnRequested(requestId: u64, requester: AccountId, amount: u128)
    | BurnReserved(requestId: u64, requester: AccountId, amount: u128)
    | BurnApproved(requestId: u64, requester: AccountId, amount: u128)
    | BurnRejected(requestId: u64, requester: AccountId)
    | Transfer(from: AccountId, to: AccountId, amount: u128, fee: u128)

  /**
   * What a dispatchable returns on failure: a bad origin, or a pallet's (or
   * the balances ledger's) own error.
   */
  datatype DispatchError =
    | BadOrigin
    | KycErr(kyc: KycError)
    | ComplianceErr(compliance: ComplianceError)
    | VeloPayErr(velopay: VeloPayError)
    | LedgerErr(ledger: Ledger.LedgerError)

  /** The `#[pallet::constant]` values of the runtime. */
  datatype Config = Config(
    maxTransactionFee: u32,
    dailyTransactionLimit: u128,
    suspiciousAmountThreshold: u128,
    maxReasonLength: u32,
    blocksPerDay: BlockNumber)

  /** The whole key space the three pallets read and write. */
  datatype State = State(
    balances: Ledger.Balances,
    velopay: VeloPayStore,
    compliance: ComplianceStore,
    kyc: KycStore,
    events: seq<Event>)

  /** Storage before any extrinsic: every map empty, every counter zero, no role holder. */
  const Genesis: State :=
    State(
      map[],
      VeloPayStore(0, None, None, 0, false, map[], 0, map[], 0, map[]),
      ComplianceStore(None, {}, map[], map[], 0),
      KycStore(map[], None),
      [])

  // ---------------------------------------------------- ValueQuery reads

  /** `ReservedBurns` reads as zero for an account never written. */
  function ReservedBurnsOf(s: State, who: AccountId): u128
  {
    if who in s.velopay.reservedBurns then s.velopay.reservedBurns[who] else 0
  }

  /** `DailyTransactionVolume` reads as zero for a key never written. */
  function VolumeOf(s: State, who: AccountId, day: BlockNumber): u128
  {
    if (who, day) in s.compliance.dailyVolume then s.compliance.dailyVolume[(who, day)] else 0
  }
}
