/**
 * The KYC pallet: a per-account verification record that moves
 * (absent) -> Pending -> Verified | Rejected, with Rejected -> Pending on
 * resubmission, driven by a single verifier account set by root.
 *
 * Each dispatchable is a function from the state before the call to either
 * the state after it or the error it returns; an error carries no state, so
 * a failed call changes nothing.
 */
module Kyc {
  import opened Primitives
  import opened Storage

  /** `is_verified`: a record exists and its status is Verified. */
  predicate IsVerified(s: State, who: AccountId)
    ensures IsVerified(s, who) ==> !MaySubmit(s, who)
  {
    who in s.kyc.database && s.kyc.database[who].status.Verified?
  }

  /** A (re)submission is allowed when there is no record or the record was rejected. */
  predicate MaySubmit(s: State, who: AccountId)
  {
    who !in s.kyc.database || s.kyc.database[who].status.Rejected?
  }

  /** Only the KYC storage and the event log differ between `s` and `s'`. */
  predicate OnlyKycChanged(s: State, s': State)
  {
    s'.balances == s.balances && s'.velopay == s.velopay && s'.compliance == s.compliance
  }

  /** `set_verifier`: root installs (or replaces) the verifier. */
  function SetVerifier(s: State, origin: Origin, verifier: AccountId): (r: Result<State, DispatchError>)
    ensures r.Err? <==> !origin.Root?
    ensures r.Err? ==> r.error == BadOrigin
    ensures r.Ok? ==> r.value.kyc.verifier == Some(verifier) && r.value.kyc.database == s.kyc.database
    ensures r.Ok? ==> OnlyKycChanged(s, r.value) && r.value.events == s.events + [VerifierSet(verifier)]
  {
    if !origin.Root? then Err(BadOrigin)
    else Ok(s.(kyc := s.kyc.(verifier := Some(verifier)), events := s.events + [VerifierSet(verifier)]))
  }

  /** `submit_kyc`: the caller files a fresh Pending record with its document hash. */
  function SubmitKyc(s: State, origin: Origin, documentHash: H256, block: BlockNumber): (r: Result<State, DispatchError>)
    ensures !origin.Signed? ==> r == Err(BadOrigin)
    ensures origin.Signed? ==> (r.Ok? <==> MaySubmit(s, origin.who))
    ensures origin.Signed? && !MaySubmit(s, origin.who) ==> r == Err(KycErr(KycAlreadySubmitted))
    ensures r.Ok? ==>
              var who := origin.who;
              && who in r.value.kyc.database
              && r.value.kyc.database[who] == KycData(who, documentHash, KycStatus.Pending, block, None)
              && (forall a :: a != who ==> (a in r.value.kyc.database <==> a in s.kyc.database))
              && (forall a :: a != who && a in s.kyc.database ==> r.value.kyc.database[a] == s.kyc.database[a])
              && r.value.kyc.verifier == s.kyc.verifier
              && r.value.events == s.events + [KycSubmitted(who, documentHash)]
    ensures r.Ok? ==> OnlyKycChanged(s, r.value)
  {
    if !origin.Signed? then Err(BadOrigin)
    else
      var who := origin.who;
      if !MaySubmit(s, who) then Err(KycErr(KycAlreadySubmitted))
      else
        var data := KycData(who, documentHash, KycStatus.Pending, block, None);
        Ok(s.(kyc := s.kyc.(database := s.kyc.database[who := data]),
              events := s.events + [KycSubmitted(who, documentHash)]))
  }

  /** The verifier check shared by `verify_kyc` and `reject_kyc`: the caller must be the configured verifier. */
  function AuthorizeVerifier(s: State, origin: Origin): (r: Result<AccountId, DispatchError>)
    ensures r.Ok? <==> origin.Signed? && s.kyc.verifier == Some(origin.who)
    ensures r.Ok? ==> r.value == origin.who
    ensures r.Err? ==> r.error == (if origin.Signed? then KycErr(NotVerifier) else BadOrigin)
  {
    if !origin.Signed? then Err(BadOrigin)
    else if s.kyc.verifier.None? then Err(KycErr(NotVerifier))
    else if origin.who != s.kyc.verifier.value then Err(KycErr(NotVerifier))
    else Ok(origin.who)
  }

  /** `verify_kyc`: the verifier approves another account's Pending record. */
  function VerifyKyc(s: State, origin: Origin, account: AccountId, block: BlockNumber): (r: Result<State, DispatchError>)
    ensures AuthorizeVerifier(s, origin).Err? ==> r == Err(AuthorizeVerifier(s, origin).error)
    ensures AuthorizeVerifier(s, origin).Ok? && account == origin.who ==> r == Err(KycErr(CannotVerifySelf))
    ensures AuthorizeVerifier(s, origin).Ok? && account != origin.who && account !in s.kyc.database ==>
              r == Err(KycErr(KycNotSubmitted))
    ensures (AuthorizeVerifier(s, origin).Ok? && account != origin.who && account in s.kyc.database
             && !s.kyc.database[account].status.Pending?) ==> r == Err(KycErr(InvalidStatus))
    ensures r.Ok? <==> AuthorizeVerifier(s, origin).Ok? && account != origin.who
                       && account in s.kyc.database && s.kyc.database[account].status.Pending?
    ensures r.Ok? ==>
              && IsVerified(r.value, account)
              && r.value.kyc.database[account] == s.kyc.database[account].(status := KycStatus.Verified, verifiedAt := Some(block))
              && r.value.kyc.database.Keys == s.kyc.database.Keys
              && (forall a :: a != account && a in s.kyc.database ==> r.value.kyc.database[a] == s.kyc.database[a])
              && r.value.kyc.verifier == s.kyc.verifier
              && r.value.events == s.events + [KycVerified(account)]
    ensures r.Ok? ==> OnlyKycChanged(s, r.value)
  {
    match AuthorizeVerifier(s, origin)
    case Err(e) => Err(e)
    case Ok(verifier) =>
      if account == verifier then Err(KycErr(CannotVerifySelf))
      else if account !in s.kyc.database then Err(KycErr(KycNotSubmitted))
      else
        var data := s.kyc.database[account];
        if !data.status.Pending? then Err(KycErr(InvalidStatus))
        else
          var data' := data.(status := KycStatus.Verified, verifiedAt := Some(block));
          Ok(s.(kyc := s.kyc.(database := s.kyc.database[account := data']),
                events := s.events + [KycVerified(account)]))
  }

  /** `reject_kyc`: the verifier turns down a Pending record; `verified_at` is left as it was. */
  function RejectKyc(s: State, origin: Origin, account: AccountId): (r: Result<State, DispatchError>)
    ensures AuthorizeVerifier(s, origin).Err? ==> r == Err(AuthorizeVerifier(s, origin).error)
    ensures AuthorizeVerifier(s, origin).Ok? && account !in s.kyc.database ==> r == Err(KycErr(KycNotSubmitted))
    ensures (AuthorizeVerifier(s, origin).Ok? && account in s.kyc.database
             && !s.kyc.database[account].status.Pending?) ==> r == Err(KycErr(InvalidStatus))
    ensures r.Ok? <==> AuthorizeVerifier(s, origin).Ok? && account in s.kyc.database
                       && s.kyc.database[account].status.Pending?
    ensures r.Ok? ==>
              && account in r.value.kyc.database
              && r.value.kyc.database[account] == s.kyc.database[account].(status := KycStatus.Rejected)
              && r.value.kyc.database.Keys == s.kyc.database.Keys
              && (forall a :: a != account && a in s.kyc.database ==> r.value.kyc.database[a] == s.kyc.database[a])
              && r.value.kyc.verifier == s.kyc.verifier
              && r.value.events == s.events + [KycRejected(account)]
    ensures r.Ok? ==> OnlyKycChanged(s, r.value)
  {
    match AuthorizeVerifier(s, origin)
    case Err(e) => Err(e)
    case Ok(_) =>
      if account !in s.kyc.database then Err(KycErr(KycNotSubmitted))
      else
        var data := s.kyc.database[account];
        if !data.status.Pending? then Err(KycErr(InvalidStatus))
        else
          Ok(s.(kyc := s.kyc.(database := s.kyc.database[account := data.(status := KycStatus.Rejected)]),
                events := s.events + [KycRejected(account)]))
  }

  // ------------------------------------------------------------ invariant

  /**
   * Shape of every stored record: it is filed under its own account, it is
   * never NotSubmitted, and it carries a verification block exactly when it
   * is Verified.
   */
  predicate WellFormed(s: State)
  {
    forall a :: a in s.kyc.database ==>
      && s.kyc.database[a].account == a
      && !s.kyc.database[a].status.NotSubmitted?
      && (s.kyc.database[a].verifiedAt.Some? <==> s.kyc.database[a].status.Verified?)
  }

  lemma SubmitPreservesWellFormed(s: State, origin: Origin, documentHash: H256, block: BlockNumber)
    requires WellFormed(s)
    requires SubmitKyc(s, origin, documentHash, block).Ok?
    ensures WellFormed(SubmitKyc(s, origin, documentHash, block).value)
  {
  }

  lemma VerifyPreservesWellFormed(s: State, origin: Origin, account: AccountId, block: BlockNumber)
    requires WellFormed(s)
    requires VerifyKyc(s, origin, account, block).Ok?
    ensures WellFormed(VerifyKyc(s, origin, account, block).value)
  {
  }

  /**
   * Rejection leaves `verified_at` untouched; it is still None because only
   * a Pending record can be rejected.
   */
  lemma RejectPreservesWellFormed(s: State, origin: Origin, account: AccountId)
    requires WellFormed(s)
    requires RejectKyc(s, origin, account).Ok?
    ensures WellFormed(RejectKyc(s, origin, account).value)
    ensures RejectKyc(s, origin, account).value.kyc.database[account].verifiedAt.None?
  {
  }

  // ----------------------------------------------------------- lifecycle

  /**
   * Verified is absorbing: once an account is verified, no KYC call can
   * change its record, whoever makes it and with whatever arguments.
   */
  lemma VerifiedIsAbsorbing(s: State, who: AccountId, origin: Origin, account: AccountId,
                            documentHash: H256, block: BlockNumber)
    requires IsVerified(s, who)
    ensures origin.Signed? && origin.who == who ==> SubmitKyc(s, origin, documentHash, block) == Err(KycErr(KycAlreadySubmitted))
    ensures account == who && AuthorizeVerifier(s, origin).Ok? && origin.who != who ==>
              VerifyKyc(s, origin, account, block) == Err(KycErr(InvalidStatus))
    ensures account == who && AuthorizeVerifier(s, origin).Ok? ==>
              RejectKyc(s, origin, account) == Err(KycErr(InvalidStatus))
    ensures SubmitKyc(s, origin, documentHash, block).Ok? ==>
              SubmitKyc(s, origin, documentHash, block).value.kyc.database[who] == s.kyc.database[who]
    ensures VerifyKyc(s, origin, account, block).Ok? ==>
              VerifyKyc(s, origin, account, block).value.kyc.database[who] == s.kyc.database[who]
    ensures RejectKyc(s, origin, account).Ok? ==>
              RejectKyc(s, origin, account).value.kyc.database[who] == s.kyc.database[who]
  {
  }

  /**
   * A rejected applicant may resubmit: after a successful rejection the
   * account's own submission succeeds and puts it back to Pending.
   */
  lemma RejectThenResubmit(s: State, verifier: Origin, applicant: AccountId, documentHash: H256, block: BlockNumber)
    requires RejectKyc(s, verifier, applicant).Ok?
    ensures var s1 := RejectKyc(s, verifier, applicant).value;
            var r := SubmitKyc(s1, Signed(applicant), documentHash, block);
            && r.Ok?
            && r.value.kyc.database[applicant].status.Pending?
            && !IsVerified(r.value, applicant)
  {
  }

  /** Submitting twice without a rejection in between fails the second time. */
  lemma SubmitTwiceFails(s: State, who: AccountId, h1: H256, h2: H256, b1: BlockNumber, b2: BlockNumber)
    requires SubmitKyc(s, Signed(who), h1, b1).Ok?
    ensures SubmitKyc(SubmitKyc(s, Signed(who), h1, b1).value, Signed(who), h2, b2) == Err(KycErr(KycAlreadySubmitted))
  {
  }
}
