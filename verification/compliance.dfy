/**
 * The Compliance pallet: a compliance officer set by root, a set of flagged
 * accounts, manual alerts with increasing ids that resolve once, and the
 * per-account, per-day volume check the VeloPay pallet runs on both parties
 * of every transfer.
 */
module Compliance {
  import opened Primitives
  import opened Storage

  /** `is_account_flagged`. */
  predicate IsAccountFlagged(s: State, who: AccountId)
  {
    who in s.compliance.flagged
  }

  /** Only the compliance storage and the event log differ between `s` and `s'`. */
  predicate OnlyComplianceChanged(s: State, s': State)
  {
    s'.balances == s.balances && s'.velopay == s.velopay && s'.kyc == s.kyc
  }

  /** `set_compliance_officer`: root installs (or replaces) the officer. */
  function SetComplianceOfficer(s: State, origin: Origin, officer: AccountId): (r: Result<State, DispatchError>)
    ensures r.Err? <==> !origin.Root?
    ensures r.Err? ==> r.error == BadOrigin
    ensures r.Ok? ==> r.value.compliance == s.compliance.(officer := Some(officer))
    ensures r.Ok? ==> OnlyComplianceChanged(s, r.value) && r.value.events == s.events + [ComplianceOfficerSet(officer)]
  {
    if !origin.Root? then Err(BadOrigin)
    else Ok(s.(compliance := s.compliance.(officer := Some(officer)),
               events := s.events + [ComplianceOfficerSet(officer)]))
  }

  /**
   * The officer check that opens every officer-only call: an officer must be
   * set, and the caller must be it.
   */
  function AuthorizeOfficer(s: State, origin: Origin): (r: Result<AccountId, DispatchError>)
    ensures r.Ok? <==> origin.Signed? && s.compliance.officer == Some(origin.who)
    ensures r.Ok? ==> r.value == origin.who
    ensures !origin.Signed? ==> r == Err(BadOrigin)
    ensures origin.Signed? && s.compliance.officer.None? ==> r == Err(ComplianceErr(NoComplianceOfficer))
    ensures origin.Signed? && s.compliance.officer.Some? && s.compliance.officer.value != origin.who ==>
              r == Err(ComplianceErr(NotComplianceOfficer))
  {
    if !origin.Signed? then Err(BadOrigin)
    else if s.compliance.officer.None? then Err(ComplianceErr(NoComplianceOfficer))
    else if origin.who != s.compliance.officer.value then Err(ComplianceErr(NotComplianceOfficer))
    else Ok(origin.who)
  }

  /** `flag_account`: the officer puts an account under review. */
  function FlagAccount(s: State, origin: Origin, account: AccountId): (r: Result<State, DispatchError>)
    ensures AuthorizeOfficer(s, origin).Err? ==> r == Err(AuthorizeOfficer(s, origin).error)
    ensures AuthorizeOfficer(s, origin).Ok? && account in s.compliance.flagged ==>
              r == Err(ComplianceErr(AccountAlreadyFlagged))
    ensures r.Ok? <==> AuthorizeOfficer(s, origin).Ok? && account !in s.compliance.flagged
    ensures r.Ok? ==> r.value.compliance == s.compliance.(flagged := s.compliance.flagged + {account})
    ensures r.Ok? ==> OnlyComplianceChanged(s, r.value) && r.value.events == s.events + [AccountFlagged(account)]
  {
    match AuthorizeOfficer(s, origin)
    case Err(e) => Err(e)
    case Ok(_) =>
      if account in s.compliance.flagged then Err(ComplianceErr(AccountAlreadyFlagged))
      else Ok(s.(compliance := s.compliance.(flagged := s.compliance.flagged + {account}),
                 events := s.events + [AccountFlagged(account)]))
  }

  /** `unflag_account`: the officer lifts the review of a flagged account. */
  function UnflagAccount(s: State, origin: Origin, account: AccountId): (r: Result<State, DispatchError>)
    ensures AuthorizeOfficer(s, origin).Err? ==> r == Err(AuthorizeOfficer(s, origin).error)
    ensures AuthorizeOfficer(s, origin).Ok? && account !in s.compliance.flagged ==>
              r == Err(ComplianceErr(AccountNotFlagged))
    ensures r.Ok? <==> AuthorizeOfficer(s, origin).Ok? && account in s.compliance.flagged
    ensures r.Ok? ==> r.value.compliance == s.compliance.(flagged := s.compliance.flagged - {account})
    ensures r.Ok? ==> OnlyComplianceChanged(s, r.value) && r.value.events == s.events + [AccountUnflagged(account)]
  {
    match AuthorizeOfficer(s, origin)
    case Err(e) => Err(e)
    case Ok(_) =>
      if account !in s.compliance.flagged then Err(ComplianceErr(AccountNotFlagged))
      else Ok(s.(compliance := s.compliance.(flagged := s.compliance.flagged - {account}),
                 events := s.events + [AccountUnflagged(account)]))
  }

  /**
   * `create_alert`: the officer files an unresolved alert under the current
   * `NextAlertId`, which then advances (saturating at u64::MAX).
   */
  function CreateAlert(s: State, origin: Origin, account: AccountId, alertLevel: AlertLevel, amount: u128,
                       reason: seq<u8>, block: BlockNumber, cfg: Config): (r: Result<State, DispatchError>)
    ensures AuthorizeOfficer(s, origin).Err? ==> r == Err(AuthorizeOfficer(s, origin).error)
    ensures AuthorizeOfficer(s, origin).Ok? && |reason| > cfg.maxReasonLength ==> r == Err(ComplianceErr(ReasonTooLong))
    ensures r.Ok? <==> AuthorizeOfficer(s, origin).Ok? && |reason| <= cfg.maxReasonLength
    ensures r.Ok? ==>
              var id := s.compliance.nextAlertId;
              && r.value.compliance.alerts == s.compliance.alerts[id := ComplianceAlert(account, alertLevel, amount, reason, block, false)]
              && r.value.compliance.nextAlertId == SaturatingIncrement(id)
              && r.value.compliance.officer == s.compliance.officer
              && r.value.compliance.flagged == s.compliance.flagged
              && r.value.compliance.dailyVolume == s.compliance.dailyVolume
              && r.value.events == s.events + [AlertCreated(id, account, alertLevel)]
    ensures r.Ok? ==> OnlyComplianceChanged(s, r.value)
  {
    match AuthorizeOfficer(s, origin)
    case Err(e) => Err(e)
    case Ok(_) =>
      if |reason| > cfg.maxReasonLength then Err(ComplianceErr(ReasonTooLong))
      else
        // The conversion to a bounded vector cannot fail after the length check above.
        var id := s.compliance.nextAlertId;
        var alert := ComplianceAlert(account, alertLevel, amount, reason, block, false);
        Ok(s.(compliance := s.compliance.(alerts := s.compliance.alerts[id := alert],
                                          nextAlertId := SaturatingIncrement(id)),
              events := s.events + [AlertCreated(id, account, alertLevel)]))
  }

  /** `resolve_alert`: the officer marks an existing, unresolved alert as resolved. */
  function ResolveAlert(s: State, origin: Origin, alertId: u64): (r: Result<State, DispatchError>)
    ensures AuthorizeOfficer(s, origin).Err? ==> r == Err(AuthorizeOfficer(s, origin).error)
    ensures AuthorizeOfficer(s, origin).Ok? && alertId !in s.compliance.alerts ==> r == Err(ComplianceErr(AlertNotFound))
    ensures (AuthorizeOfficer(s, origin).Ok? && alertId in s.compliance.alerts
             && s.compliance.alerts[alertId].resolved) ==> r == Err(ComplianceErr(AlertAlreadyResolved))
    ensures r.Ok? <==> AuthorizeOfficer(s, origin).Ok? && alertId in s.compliance.alerts
                       && !s.compliance.alerts[alertId].resolved
    ensures r.Ok? ==>
              && r.value.compliance.alerts == s.compliance.alerts[alertId := s.compliance.alerts[alertId].(resolved := true)]
              && r.value.compliance.(alerts := s.compliance.alerts) == s.compliance
              && r.value.events == s.events + [AlertResolved(alertId)]
    ensures r.Ok? ==> OnlyComplianceChanged(s, r.value)
  {
    match AuthorizeOfficer(s, origin)
    case Err(e) => Err(e)
    case Ok(_) =>
      if alertId !in s.compliance.alerts then Err(ComplianceErr(AlertNotFound))
      else
        var alert := s.compliance.alerts[alertId];
        if alert.resolved then Err(ComplianceErr(AlertAlreadyResolved))
        else Ok(s.(compliance := s.compliance.(alerts := s.compliance.alerts[alertId := alert.(resolved := true)]),
                   events := s.events + [AlertResolved(alertId)]))
  }

  /**
   * The account passes the compliance check for `amount` at `block`: it is
   * not flagged, days have a length, and the day's volume with `amount`
   * added stays within the daily limit.
   */
  predicate PassesCheck(s: State, account: AccountId, amount: u128, block: BlockNumber, cfg: Config)
  {
    && !IsAccountFlagged(s, account)
    && cfg.blocksPerDay > 0
    && SaturatingAdd(VolumeOf(s, account, block / cfg.blocksPerDay), amount) <= cfg.dailyTransactionLimit
  }

  /**
   * `internal_check_transaction`: rejects a flagged account, rejects a zero
   * day length, then adds `amount` (saturating) to the account's volume for
   * the day `block / BlocksPerDay` and rejects a total above the daily limit.
   * Only a passing check writes the new volume; a large amount additionally
   * emits a suspicious-activity event.
   */
  function CheckTransaction(s: State, account: AccountId, amount: u128, block: BlockNumber, cfg: Config)
    : (r: Result<State, CheckError>)
    ensures IsAccountFlagged(s, account) ==> r == Err(AccountIsFlagged)
    ensures !IsAccountFlagged(s, account) && cfg.blocksPerDay == 0 ==> r == Err(ZeroBlocksPerDay)
    ensures (!IsAccountFlagged(s, account) && cfg.blocksPerDay > 0
             && SaturatingAdd(VolumeOf(s, account, block / cfg.blocksPerDay), amount) > cfg.dailyTransactionLimit)
            ==> r == Err(LimitExceeded)
    ensures r.Ok? <==> (!IsAccountFlagged(s, account) && cfg.blocksPerDay > 0
                        && SaturatingAdd(VolumeOf(s, account, block / cfg.blocksPerDay), amount) <= cfg.dailyTransactionLimit)
    ensures r.Ok? ==>
              var day := block / cfg.blocksPerDay;
              && VolumeOf(r.value, account, day) == SaturatingAdd(VolumeOf(s, account, day), amount)
              && VolumeOf(r.value, account, day) <= cfg.dailyTransactionLimit
              && (forall a: AccountId, d: BlockNumber :: (a, d) != (account, day) ==> VolumeOf(r.value, a, d) == VolumeOf(s, a, d))
              && r.value.compliance.dailyVolume.Keys == s.compliance.dailyVolume.Keys + {(account, day)}
              && r.value.compliance.(dailyVolume := s.compliance.dailyVolume) == s.compliance
              && r.value.events == s.events + (if amount >= cfg.suspiciousAmountThreshold
                                               then [SuspiciousActivityDetected(account, amount)] else [])
    ensures r.Ok? ==> OnlyComplianceChanged(s, r.value)
  {
    if IsAccountFlagged(s, account) then Err(AccountIsFlagged)
    else if cfg.blocksPerDay == 0 then Err(ZeroBlocksPerDay)
    else
      var day := block / cfg.blocksPerDay;
      var newVolume := SaturatingAdd(VolumeOf(s, account, day), amount);
      if newVolume > cfg.dailyTransactionLimit then Err(LimitExceeded)
      else
        var s1 := s.(compliance := s.compliance.(dailyVolume := s.compliance.dailyVolume[(account, day) := newVolume]));
        if amount >= cfg.suspiciousAmountThreshold
        then Ok(s1.(events := s.events + [SuspiciousActivityDetected(account, amount)]))
        else Ok(s1)
  }

  // ------------------------------------------------------------- properties

  /** Flagging and then unflagging an account restores the compliance storage exactly. */
  lemma FlagUnflagRoundTrip(s: State, origin: Origin, account: AccountId)
    requires FlagAccount(s, origin, account).Ok?
    ensures var s1 := FlagAccount(s, origin, account).value;
            var r := UnflagAccount(s1, origin, account);
            r.Ok? && r.value.compliance == s.compliance && r.value.kyc == s.kyc && r.value.velopay == s.velopay
  {
    var s1 := FlagAccount(s, origin, account).value;
    assert s1.compliance.flagged - {account} == s.compliance.flagged;
  }

  /** Resolving an alert succeeds at most once: the second call on the same id fails. */
  lemma ResolveTwiceFails(s: State, origin: Origin, alertId: u64)
    requires ResolveAlert(s, origin, alertId).Ok?
    ensures ResolveAlert(ResolveAlert(s, origin, alertId).value, origin, alertId) == Err(ComplianceErr(AlertAlreadyResolved))
  {
  }

  /**
   * A flagged account fails the check for every amount, whatever volume it
   * has accumulated, and the check writes nothing.
   */
  lemma FlaggedAlwaysFails(s: State, account: AccountId, block: BlockNumber, cfg: Config)
    requires IsAccountFlagged(s, account)
    ensures forall amount: u128, vol: map<(AccountId, BlockNumber), u128> ::
              CheckTransaction(s.(compliance := s.compliance.(dailyVolume := vol)), account, amount, block, cfg)
                == Err(AccountIsFlagged)
  {
  }

  /**
   * The suspicious-amount threshold only decides whether an event is
   * emitted: two configurations differing only in it give the same verdict
   * and the same storage.
   */
  lemma SuspicionIsInformational(s: State, account: AccountId, amount: u128, block: BlockNumber, cfg: Config,
                                 threshold: u128)
    ensures var cfg' := cfg.(suspiciousAmountThreshold := threshold);
            var r := CheckTransaction(s, account, amount, block, cfg);
            var r' := CheckTransaction(s, account, amount, block, cfg');
            && r.Ok? == r'.Ok?
            && (r.Err? ==> r.error == r'.error)
            && (r.Ok? ==> r.value.(events := []) == r'.value.(events := []))
  {
  }

  // ------------------------------------------------------------ invariants

  /** Every stored alert id lies below the counter, so the next alert gets a fresh id. */
  predicate AlertIdsBelowNext(s: State)
  {
    forall id :: id in s.compliance.alerts ==> id < s.compliance.nextAlertId
  }

  /** No stored daily volume exceeds the daily limit. */
  predicate VolumesWithinLimit(s: State, cfg: Config)
  {
    forall k :: k in s.compliance.dailyVolume ==> s.compliance.dailyVolume[k] <= cfg.dailyTransactionLimit
  }

  /**
   * Alert ids strictly increase: a new alert takes an id no stored alert has
   * and every earlier alert is kept as it was, as long as the counter has
   * not reached u64::MAX.
   */
  lemma CreateAlertFreshId(s: State, origin: Origin, account: AccountId, alertLevel: AlertLevel, amount: u128,
                           reason: seq<u8>, block: BlockNumber, cfg: Config)
    requires AlertIdsBelowNext(s)
    requires s.compliance.nextAlertId < U64_MAX
    requires CreateAlert(s, origin, account, alertLevel, amount, reason, block, cfg).Ok?
    ensures var s' := CreateAlert(s, origin, account, alertLevel, amount, reason, block, cfg).value;
            && AlertIdsBelowNext(s')
            && s'.compliance.nextAlertId == s.compliance.nextAlertId + 1
            && s.compliance.nextAlertId !in s.compliance.alerts
            && (forall id :: id in s.compliance.alerts ==>
                  id in s'.compliance.alerts && s'.compliance.alerts[id] == s.compliance.alerts[id])
  {
  }

  /**
   * At the saturated counter the id is reused: creating an alert when
   * `NextAlertId` is u64::MAX replaces the alert already stored there.
   */
  lemma SaturatedAlertIdIsReused(s: State, origin: Origin, account: AccountId, alertLevel: AlertLevel, amount: u128,
                                 reason: seq<u8>, block: BlockNumber, cfg: Config)
    requires s.compliance.nextAlertId == U64_MAX && U64_MAX in s.compliance.alerts
    requires s.compliance.alerts[U64_MAX].resolved
    requires CreateAlert(s, origin, account, alertLevel, amount, reason, block, cfg).Ok?
    ensures var s' := CreateAlert(s, origin, account, alertLevel, amount, reason, block, cfg).value;
            && s'.compliance.nextAlertId == U64_MAX
            && !s'.compliance.alerts[U64_MAX].resolved
  {
  }

  lemma CheckPreservesVolumesWithinLimit(s: State, account: AccountId, amount: u128, block: BlockNumber, cfg: Config)
    requires VolumesWithinLimit(s, cfg)
    requires CheckTransaction(s, account, amount, block, cfg).Ok?
    ensures VolumesWithinLimit(CheckTransaction(s, account, amount, block, cfg).value, cfg)
  {
    var s' := CheckTransaction(s, account, amount, block, cfg).value;
    forall k | k in s'.compliance.dailyVolume
      ensures s'.compliance.dailyVolume[k] <= cfg.dailyTransactionLimit
    {
      assert VolumeOf(s', k.0, k.1) == s'.compliance.dailyVolume[k];
    }
  }
}
