# VeloPay chain core in Dafny

This project models the on-chain core of the VeloPay payment system: three
FRAME pallets that run as one sequential, deterministic state machine, and
the gateway's e-mail check.

- **VeloPay** is the token ledger and its workflows:
  - root appoints a mint authority and a burn authority, sets the fee rate
    (basis points) and pauses the system;
  - KYC-verified accounts request mints (`Pending -> Completed | Rejected`);
  - they request burns, which reserve the funds at once
    (`Reserved -> Completed | Rejected`);
  - they transfer tokens to each other for a fee paid to the mint authority,
    after the compliance check on both parties.
- **Compliance** keeps an officer, a set of flagged accounts and manual
  alerts that are resolved once. It also runs the per-account, per-day volume
  check that every transfer goes through.
- **KYC** keeps one verification record per account
  (`(absent) -> Pending -> Verified | Rejected`, and `Rejected -> Pending` on
  resubmission), managed by a single verifier.
- **`validate_email`** is the gateway's syntactic e-mail check.

Layout, module by module:

- `Primitives` holds the integer widths (u8, u32, u64, u128 as bounded
  subsets of `int`), the saturating arithmetic and the caller `Origin`.
- `Ledger` is an abstract free/reserved balance ledger. It offers
  `deposit_creating`, `reserve`, `unreserve`, `slash_reserved` and `transfer`,
  each with FRAME's observable result.
- `Storage` holds every storage item, event and error of the three pallets,
  gathered in one `State` value, plus the runtime constants in `Config`.
- `Kyc`, `Compliance` and `VeloPay` model each dispatchable as a function
  from the state before the call to either the state after it or the error
  it returns. An error carries no state, so a failed call commits nothing,
  which is the result of FRAME's transactional storage layer. The contracts
  give the complete error order and the success condition; the new state is
  given by the contracts or, for approve_burn, reject_burn and transfer, by
  the `*Effect` lemmas.
- `Invariants` holds the cross-item invariants and their preservation by
  every successful call:
  - `TotalSupply` equals the Completed mint amounts minus the Completed burn
    amounts;
  - each `ReservedBurns` entry is the sum of the account's Reserved requests;
  - the ledger's reserved balance equals that entry;
  - request and alert ids lie below their counters;
  - KYC records are well formed;
  - stored daily volumes stay within the limit.
- `Dispatch` routes a `Call` to its pallet. It proves the invariants over
  every sequence of extrinsics from genesis, and that finished records
  (Verified KYC, Completed or Rejected requests, resolved alerts) never change
  again.
- `Chain` is the imperative form of the same core. `Runtime` is a class whose
  fields hold the storage. It has one method per dispatchable, which reads and
  writes those fields step by step in the source's order, including the
  writes made before a later check fails, which it puts back. Each method is
  proved to commit exactly the matching pallet function's result, or to
  return that function's error with the state untouched.
- `Email` models `validate_email`. Lengths are UTF-8 byte lengths, as Rust's
  `str::len` measures them.

Source cells below are paths relative to the repository root.

## Model

| member | source | states |
|---|---|---|
| Ledger.DepositCreating | velo-chain/pallets/velopay/src/lib.rs:334 | the requester's free balance grows by the amount when it fits in u128; otherwise the ledger is unchanged; no other account and no reserve changes |
| Ledger.Reserve | velo-chain/pallets/velopay/src/lib.rs:414 | fails exactly when free < value (BalanceTooLow) or the reserve would overflow; on success free falls and reserved rises by value, other accounts unchanged |
| Ledger.Unreserve | velo-chain/pallets/velopay/src/lib.rs:511 | moves min(value, reserved) back to free (free side saturating) and returns the part not unreserved |
| Ledger.SlashReserved | velo-chain/pallets/velopay/src/lib.rs:463 | destroys min(value, reserved) of the reserve, leaves free untouched, and the remainder is 0 iff the reserve covered value |
| Ledger.Transfer | velo-chain/pallets/velopay/src/lib.rs:579-594 | zero or self transfers are no-ops; otherwise fails iff the sender lacks value or the receiver would overflow; moves value between the two free balances, all reserves unchanged |
| Ledger.TransferConserves | velo-chain/pallets/velopay/src/lib.rs:579-586 | a transfer keeps the two parties' combined free balance |
| Ledger.ReserveUnreserveRoundTrip | velo-chain/pallets/velopay/src/lib.rs:511 | unreserving what was just reserved restores the account exactly, with nothing left over |
| Kyc.SetVerifier | velocity-chain/pallets/kyc/src/lib.rs:87-92 | root-only (BadOrigin otherwise); installs the verifier and touches only KYC storage and the event log |
| Kyc.IsVerified | velocity-chain/pallets/kyc/src/lib.rs:184-190 | an account is verified iff it has a record whose status is Verified; a verified account may not submit again |
| Kyc.SubmitKyc | velocity-chain/pallets/kyc/src/lib.rs:96-129 | succeeds iff the caller has no record or a Rejected one (else KycAlreadySubmitted); stores Pending with the hash, the block and no verification block; other records unchanged |
| Kyc.AuthorizeVerifier | velocity-chain/pallets/kyc/src/lib.rs:133-139 | accepts exactly the configured verifier; NotVerifier when none is set or the caller differs |
| Kyc.VerifyKyc | velocity-chain/pallets/kyc/src/lib.rs:133-157 | error order NotVerifier, CannotVerifySelf, KycNotSubmitted, InvalidStatus; success iff the target is another account with a Pending record, which becomes Verified at this block |
| Kyc.RejectKyc | velocity-chain/pallets/kyc/src/lib.rs:161-180 | same verifier check without the self check; success iff the record is Pending; sets Rejected and leaves verified_at as it was |
| Kyc.SubmitPreservesWellFormed | velocity-chain/pallets/kyc/src/lib.rs:96-129 | submission keeps every record filed under its own account, never NotSubmitted, verified_at set iff Verified |
| Kyc.VerifyPreservesWellFormed | velocity-chain/pallets/kyc/src/lib.rs:141-152 | verification keeps the record shape invariant |
| Kyc.RejectPreservesWellFormed | velocity-chain/pallets/kyc/src/lib.rs:161-180 | rejection keeps the record shape invariant, and the rejected record has no verification block |
| Kyc.VerifiedIsAbsorbing | velocity-chain/pallets/kyc/src/lib.rs:103-171 | a Verified record cannot be resubmitted, verified or rejected again, and no successful KYC call changes it |
| Kyc.RejectThenResubmit | velocity-chain/pallets/kyc/src/lib.rs:103-108 | after a rejection the applicant's own resubmission succeeds and puts the record back to Pending |
| Kyc.SubmitTwiceFails | velocity-chain/pallets/kyc/src/lib.rs:103-108 | a second submission without a rejection in between fails KycAlreadySubmitted |
| Compliance.SetComplianceOfficer | velo-chain/pallets/compliance/src/lib.rs:170-181 | root-only; installs the officer and touches only compliance storage and the event log |
| Compliance.AuthorizeOfficer | velo-chain/pallets/compliance/src/lib.rs:186-190 | BadOrigin for an unsigned caller, NoComplianceOfficer when none is set, NotComplianceOfficer for anyone else; success iff the caller is the officer |
| Compliance.IsAccountFlagged | velo-chain/pallets/compliance/src/lib.rs:294-296 | an account is flagged iff it is in the flagged set |
| Compliance.FlagAccount | velo-chain/pallets/compliance/src/lib.rs:185-202 | after the officer check, fails AccountAlreadyFlagged on a flagged account; otherwise adds it to the flagged set and changes nothing else |
| Compliance.UnflagAccount | velo-chain/pallets/compliance/src/lib.rs:206-223 | after the officer check, fails AccountNotFlagged on an unflagged account; otherwise removes it and changes nothing else |
| Compliance.CreateAlert | velo-chain/pallets/compliance/src/lib.rs:227-269 | fails ReasonTooLong above MaxReasonLength; otherwise stores an unresolved alert under the old NextAlertId and bumps the counter (saturating) |
| Compliance.ResolveAlert | velo-chain/pallets/compliance/src/lib.rs:273-290 | AlertNotFound for an unknown id, AlertAlreadyResolved for a resolved one; otherwise sets resolved and keeps the alert's other fields and all other alerts |
| Compliance.CheckTransaction | velo-chain/pallets/compliance/src/lib.rs:298-342 | flagged accounts fail first, a zero BlocksPerDay fails before any division, a saturated total above the limit fails, and the check passes iff none of these applies; on success exactly the (account, block / BlocksPerDay) volume becomes the new total (at most the limit), and a suspicious-activity event is added iff amount >= threshold |
| Compliance.FlagUnflagRoundTrip | velo-chain/pallets/compliance/src/lib.rs:185-223 | flag followed by unflag succeeds and restores the compliance storage exactly |
| Compliance.ResolveTwiceFails | velo-chain/pallets/compliance/src/lib.rs:273-290 | resolving the same alert a second time fails AlertAlreadyResolved |
| Compliance.FlaggedAlwaysFails | velo-chain/pallets/compliance/src/lib.rs:303-305 | a flagged account fails the check for every amount and every stored volume, and the check writes nothing |
| Compliance.SuspicionIsInformational | velo-chain/pallets/compliance/src/lib.rs:334-341 | the suspicious-amount threshold changes neither the verdict nor the storage, only the events |
| Compliance.CreateAlertFreshId | velo-chain/pallets/compliance/src/lib.rs:246-262 | below u64::MAX a new alert takes an id no stored alert has, the counter rises by one, and earlier alerts are kept |
| Compliance.SaturatedAlertIdIsReused | velo-chain/pallets/compliance/src/lib.rs:246-262 | at NextAlertId = u64::MAX the counter stays put and the new alert replaces the one stored under u64::MAX |
| Compliance.CheckPreservesVolumesWithinLimit | velo-chain/pallets/compliance/src/lib.rs:316-331 | a passing check keeps every stored daily volume within DailyTransactionLimit |
| VeloPay.SetMintAuthority | velo-chain/pallets/velopay/src/lib.rs:219-227 | root-only; sets the mint authority, nothing else in any pallet or balance |
| VeloPay.SetBurnAuthority | velo-chain/pallets/velopay/src/lib.rs:231-239 | root-only; sets the burn authority, nothing else |
| VeloPay.SetTransactionFee | velo-chain/pallets/velopay/src/lib.rs:243-254 | root-only; a rate above MaxTransactionFee fails Overflow; success iff within it, setting only the rate |
| VeloPay.Pause | velo-chain/pallets/velopay/src/lib.rs:258-263 | root-only; sets the pause flag, nothing else |
| VeloPay.Unpause | velo-chain/pallets/velopay/src/lib.rs:267-272 | root-only; clears the pause flag, nothing else |
| VeloPay.RequestMint | velo-chain/pallets/velopay/src/lib.rs:276-313 | error order SystemPaused, InvalidAmount (zero), KYCNotVerified; success iff none applies; stores a Pending request under the old counter with no processing block, bumps the counter (saturating), nothing else changes |
| VeloPay.AuthorizeMinter | velo-chain/pallets/velopay/src/lib.rs:321-323 | NoMintAuthority when none is set, NotMintAuthority for another caller, success iff the caller is the mint authority |
| VeloPay.ApproveMint | velo-chain/pallets/velopay/src/lib.rs:317-358 | error order authority, SystemPaused, MintRequestNotFound, InvalidMintRequestStatus, Overflow on the supply addition; success iff the request is Pending and the supply does not overflow |
| VeloPay.RejectMint | velo-chain/pallets/velopay/src/lib.rs:362-391 | the approval checks without the pause check; success iff Pending; sets Rejected and the block, with no balance or supply change |
| VeloPay.RequestBurn | velo-chain/pallets/velopay/src/lib.rs:395-441 | error order SystemPaused, InvalidAmount, KYCNotVerified, InsufficientBalance, then the ledger's BalanceOverflow when the reserve cannot grow by amount; success iff none applies; on success free falls and reserved rises by amount, ReservedBurns grows by amount, and a Reserved request is stored under the next burn id |
| VeloPay.AuthorizeBurner | velo-chain/pallets/velopay/src/lib.rs:449-451 | NoBurnAuthority when none is set, NotBurnAuthority for another caller, success iff the caller is the burn authority |
| VeloPay.ApproveBurn | velo-chain/pallets/velopay/src/lib.rs:445-491 | error order authority, SystemPaused, BurnRequestNotFound, InvalidBurnRequestStatus, InsufficientReservedBalance when the reserve does not cover the amount (no partial burn), Overflow when the supply does not; success iff none applies |
| VeloPay.RejectBurn | velo-chain/pallets/velopay/src/lib.rs:495-530 | no pause check; success iff the request is Reserved; supply unchanged, other pallets unchanged |
| VeloPay.Fee | velo-chain/pallets/velopay/src/lib.rs:564-568 | the fee is the saturating product divided by 10000, rounded down: without saturation the largest value with fee * 10000 <= amount * rate, and u128::MAX / 10000 once the product saturates |
| VeloPay.CalculateFee | velo-chain/pallets/velopay/src/lib.rs:608-614 | the fee charged is Fee at the stored rate (so exact in both the unsaturated and the saturated case), at most amount * rate / 10000, and at most the amount when the rate is at most 100% |
| VeloPay.FeeAtMostAmount | velo-chain/pallets/velopay/src/lib.rs:608-614 | a rate of at most 10000 basis points never charges more than the amount |
| VeloPay.FeeIsFloorOfProduct | velo-chain/pallets/velopay/src/lib.rs:608-614 | below saturation the fee is exactly floor(amount * rate / 10000) |
| VeloPay.FeeExamples | velo-chain/pallets/velopay/src/lib.rs:608-614 | 50 bp of 10000 is 50, of 199 is 0, and a zero rate charges nothing |
| VeloPay.Transfer | velo-chain/pallets/velopay/src/lib.rs:534-604 | error order BadOrigin, SystemPaused, InvalidAmount (zero or to oneself), KYCNotVerified for the sender then dest, ComplianceCheckFailed for the sender then dest, then the fee and balance errors of Settle on the state before the call; success iff every gate passes, amount + fee fits and is covered, dest can be credited and the fee can be paid; VeloPay and KYC storage unchanged |
| VeloPay.Settle | velo-chain/pallets/velopay/src/lib.rs:564-600 | Overflow when amount + fee exceeds u128, InsufficientBalance when free balance is below it, the ledger's BalanceOverflow when dest cannot be credited, NoMintAuthority for a non-zero fee without an authority, BalanceOverflow when the authority cannot be credited; success iff none applies; only balances change, never a reserve, and the Transfer event is appended |
| VeloPay.TransferEffect | velo-chain/pallets/velopay/src/lib.rs:534-604 | a successful transfer passed every gate (signed, unpaused, non-zero, to another, both verified and unflagged), charged CalculateFee, changed each free balance by the TransferDelta reference (sender -amount-fee, dest +amount, mint authority +fee), added amount to both parties' daily volume and left every other volume and all other compliance storage alone, and emitted the two suspicious-activity events (iff amount >= threshold) followed by Transfer |
| VeloPay.ApproveMintEffect | velo-chain/pallets/velopay/src/lib.rs:334-349 | supply grows by the amount; the requester is credited when the credit fits (otherwise balances are unchanged); the request becomes Completed at this block; nothing else in VeloPay or other accounts changes |
| VeloPay.ApproveBurnEffect | velo-chain/pallets/velopay/src/lib.rs:463-482 | supply and the requester's reserve fall by exactly the amount, free balances unchanged, ReservedBurns falls by the amount, the request becomes Completed; nothing else in VeloPay changes |
| VeloPay.RejectBurnEffect | velo-chain/pallets/velopay/src/lib.rs:511-522 | the reserved amount returns to free (saturating) when the reserve covers the request, and otherwise the whole reserve returns and reserved becomes zero; supply unchanged, ReservedBurns falls by the amount, the request becomes Rejected; nothing else in VeloPay changes |
| VeloPay.RequestRejectBurnRoundTrip | velo-chain/pallets/velopay/src/lib.rs:495-530 | request_burn followed by reject_burn restores the requester's balances and ReservedBurns entry |
| VeloPay.PauseBlocksTokenMovement | velo-chain/pallets/velopay/src/lib.rs:281 | while paused, request_mint, request_burn, transfer, approve_mint and approve_burn fail SystemPaused, and the two rejections behave as when running |
| VeloPay.TransferWithFeeScenario | velo-chain/pallets/velopay/src/lib.rs:564-594 | at 50 bp, sending 10000 from 10100 leaves the sender 50, credits 10000 to dest and 50 to the mint authority |
| Invariants.GenesisValid | velo-chain/pallets/velopay/src/lib.rs:92-140 | empty storage with zero counters satisfies every invariant |
| Invariants.ReservationCoversRequest | velo-chain/pallets/velopay/src/lib.rs:463-465 | under the invariants a Reserved request's amount is covered by ReservedBurns and by the ledger reserve, so InsufficientReservedBalance cannot occur |
| Invariants.RequestMintPreservesValid | velo-chain/pallets/velopay/src/lib.rs:276-313 | request_mint preserves all invariants |
| Invariants.ApproveMintPreservesValid | velo-chain/pallets/velopay/src/lib.rs:317-358 | approve_mint preserves all invariants; supply and Completed mints grow together |
| Invariants.RejectMintPreservesValid | velo-chain/pallets/velopay/src/lib.rs:362-391 | reject_mint preserves all invariants |
| Invariants.RequestBurnPreservesValid | velo-chain/pallets/velopay/src/lib.rs:395-441 | request_burn preserves all invariants; reserve, ReservedBurns and Reserved requests grow together |
| Invariants.ApproveBurnPreservesValid | velo-chain/pallets/velopay/src/lib.rs:445-491 | approve_burn preserves all invariants; supply falls as the Completed burns grow |
| Invariants.RejectBurnPreservesValid | velo-chain/pallets/velopay/src/lib.rs:495-530 | reject_burn preserves all invariants |
| Invariants.TransferPreservesValid | velo-chain/pallets/velopay/src/lib.rs:534-604 | transfer preserves all invariants, including the daily-limit bound on volumes |
| Dispatch.Apply | velo-chain/pallets/velopay/src/lib.rs:215-216 | the runtime's call routing: KYC calls change only KYC storage, compliance calls only compliance storage, VeloPay calls other than transfer neither of those |
| Dispatch.ApplyAll | velo-chain/pallets/velopay/src/lib.rs:215-216 | extrinsics apply in order and a failed one is discarded; the empty run leaves the state unchanged |
| Dispatch.ApplyAllConcat | velo-chain/pallets/velopay/src/lib.rs:215-216 | a run can be split anywhere: applying xs + ys is applying ys to the state xs leaves |
| Dispatch.ApplyAdvancesCountersByAtMostOne | velo-chain/pallets/velopay/src/lib.rs:303-304 | a successful call never lowers an id counter and raises each by at most one |
| Dispatch.ApplyPreservesValid | velo-chain/pallets/velopay/src/lib.rs:276-604 | every successful call of the three pallets preserves the invariants while the counters are below u64::MAX |
| Dispatch.ApplyAllPreservesValid | velo-chain/pallets/velopay/src/lib.rs:336-339 | the invariants survive any sequence of extrinsics with enough counter headroom; failed calls are discarded |
| Dispatch.ReachableStatesAreValid | velo-chain/pallets/velopay/src/lib.rs:466-469 | every state reachable from genesis has TotalSupply = Completed mints - Completed burns and reserves matching the Reserved burns |
| Dispatch.ApplyKeepsVerified | velocity-chain/pallets/kyc/src/lib.rs:143-146 | no successful call of any pallet changes a Verified record |
| Dispatch.VerifiedStaysVerified | velocity-chain/pallets/kyc/src/lib.rs:103-108 | a verified account stays verified, with the same record, after any sequence of extrinsics |
| Dispatch.FinishedMintsAreFrozen | velo-chain/pallets/velopay/src/lib.rs:329-332 | no successful call changes a Completed or Rejected mint request |
| Dispatch.FinishedBurnsAreFrozen | velo-chain/pallets/velopay/src/lib.rs:457-460 | no successful call changes a Completed or Rejected burn request |
| Dispatch.ResolvedAlertsAreFrozen | velo-chain/pallets/compliance/src/lib.rs:282 | no successful call changes a resolved alert |
| Chain.Runtime.constructor | velo-chain/pallets/velopay/src/lib.rs:92-140 | a new runtime holds the genesis storage |
| Chain.Runtime.IsVerified | velocity-chain/pallets/kyc/src/lib.rs:184-190 | true iff a record exists and is Verified |
| Chain.Runtime.IsAccountFlagged | velo-chain/pallets/compliance/src/lib.rs:294-296 | true iff the account is in the flagged set |
| Chain.Runtime.SetVerifier | velocity-chain/pallets/kyc/src/lib.rs:87-92 | commits Kyc.SetVerifier's result, or returns its error with storage unchanged |
| Chain.Runtime.SubmitKyc | velocity-chain/pallets/kyc/src/lib.rs:96-129 | commits Kyc.SubmitKyc's result, or returns its error with storage unchanged |
| Chain.Runtime.VerifyKyc | velocity-chain/pallets/kyc/src/lib.rs:133-157 | commits Kyc.VerifyKyc's result, or returns its error with storage unchanged |
| Chain.Runtime.RejectKyc | velocity-chain/pallets/kyc/src/lib.rs:161-180 | commits Kyc.RejectKyc's result, or returns its error with storage unchanged |
| Chain.Runtime.AuthorizeOfficer | velo-chain/pallets/compliance/src/lib.rs:186-190 | returns Compliance.AuthorizeOfficer's verdict on the current storage |
| Chain.Runtime.SetComplianceOfficer | velo-chain/pallets/compliance/src/lib.rs:170-181 | commits Compliance.SetComplianceOfficer's result, or its error with storage unchanged |
| Chain.Runtime.FlagAccount | velo-chain/pallets/compliance/src/lib.rs:185-202 | commits Compliance.FlagAccount's result, or its error with storage unchanged |
| Chain.Runtime.UnflagAccount | velo-chain/pallets/compliance/src/lib.rs:206-223 | commits Compliance.UnflagAccount's result, or its error with storage unchanged |
| Chain.Runtime.CreateAlert | velo-chain/pallets/compliance/src/lib.rs:227-269 | commits Compliance.CreateAlert's result, or its error with storage unchanged |
| Chain.Runtime.ResolveAlert | velo-chain/pallets/compliance/src/lib.rs:273-290 | commits Compliance.ResolveAlert's result, or its error with storage unchanged |
| Chain.Runtime.CheckTransaction | velo-chain/pallets/compliance/src/lib.rs:298-342 | writes the day's volume only after every test passed, committing Compliance.CheckTransaction's result, or its error with storage unchanged |
| Chain.Runtime.SetMintAuthority | velo-chain/pallets/velopay/src/lib.rs:219-227 | commits VeloPay.SetMintAuthority's result, or its error with storage unchanged |
| Chain.Runtime.SetBurnAuthority | velo-chain/pallets/velopay/src/lib.rs:231-239 | commits VeloPay.SetBurnAuthority's result, or its error with storage unchanged |
| Chain.Runtime.SetTransactionFee | velo-chain/pallets/velopay/src/lib.rs:243-254 | commits VeloPay.SetTransactionFee's result, or its error with storage unchanged |
| Chain.Runtime.Pause | velo-chain/pallets/velopay/src/lib.rs:258-263 | commits VeloPay.Pause's result, or its error with storage unchanged |
| Chain.Runtime.Unpause | velo-chain/pallets/velopay/src/lib.rs:267-272 | commits VeloPay.Unpause's result, or its error with storage unchanged |
| Chain.Runtime.RequestMint | velo-chain/pallets/velopay/src/lib.rs:276-313 | commits VeloPay.RequestMint's result, or its error with storage unchanged |
| Chain.Runtime.AuthorizeMinter | velo-chain/pallets/velopay/src/lib.rs:321-323 | returns VeloPay.AuthorizeMinter's verdict on the current storage |
| Chain.Runtime.ApproveMint | velo-chain/pallets/velopay/src/lib.rs:317-358 | credits the requester before the supply check and puts the balances back on Overflow; commits VeloPay.ApproveMint's result, or its error with storage unchanged |
| Chain.Runtime.RejectMint | velo-chain/pallets/velopay/src/lib.rs:362-391 | commits VeloPay.RejectMint's result, or its error with storage unchanged |
| Chain.Runtime.RequestBurn | velo-chain/pallets/velopay/src/lib.rs:395-441 | commits VeloPay.RequestBurn's result, or its error with storage unchanged |
| Chain.Runtime.AuthorizeBurner | velo-chain/pallets/velopay/src/lib.rs:449-451 | returns VeloPay.AuthorizeBurner's verdict on the current storage |
| Chain.Runtime.ApproveBurn | velo-chain/pallets/velopay/src/lib.rs:445-491 | slashes before the remainder and supply checks and puts the balances back when either fails; commits VeloPay.ApproveBurn's result, or its error with storage unchanged |
| Chain.Runtime.RejectBurn | velo-chain/pallets/velopay/src/lib.rs:495-530 | commits VeloPay.RejectBurn's result, or its error with storage unchanged |
| Chain.Runtime.CalculateFee | velo-chain/pallets/velopay/src/lib.rs:608-614 | equals VeloPay.CalculateFee on the current storage |
| Chain.Runtime.Transfer | velo-chain/pallets/velopay/src/lib.rs:534-604 | runs both compliance checks (which write volumes) before the fee and balance steps and undoes those writes on any later failure; commits VeloPay.Transfer's result, or its error with storage unchanged |
| Chain.Runtime.Settle | velo-chain/pallets/velopay/src/lib.rs:564-600 | writes the first balance transfer before the fee transfer and puts it back if the fee step fails; commits VeloPay.Settle's result, or its error with storage unchanged |
| Email.Utf8Width | velopay-api/src/utils.rs:20 | a character takes 1 to 4 bytes, and exactly 1 iff it is ASCII |
| Email.Utf8Length | velopay-api/src/utils.rs:20 | Rust's str::len: the UTF-8 byte length, between the character count and four times it |
| Email.ValidateEmail | velopay-api/src/utils.rs:14-25 | accepted iff the string contains '@' and '.' and its UTF-8 length is 5 to 255 bytes; InvalidFormat is reported before InvalidLength |
| Email.Utf8LengthBounds | velopay-api/src/utils.rs:20 | the byte length lies between the character count and four times it, and equals the count iff the string is ASCII |
| Email.AsciiAddressesCountCharacters | velopay-api/src/utils.rs:20-22 | for ASCII input the bounds are 5 to 255 characters |
| Email.LongAddressesRejected | velopay-api/src/utils.rs:20-22 | a well-formed address (with '@' and '.') of more than 255 characters is always too long |
| Email.LengthCountsBytes | velopay-api/src/utils.rs:20-22 | a four-character address with one two-byte character is accepted while an all-ASCII one of the same shape is too short |
| Email.ValidateEmailExamples | velopay-api/src/utils.rs:33-34 | "user@example.com" is accepted and "invalid" fails InvalidFormat |

## Left out

- FRAME `Currency` internals are replaced by the abstract ledger in
  `Ledger`. Not modelled: the existential deposit, account reaping,
  `KeepAlive`, imbalances and total issuance. `deposit_creating` drops a
  credit that would overflow the account, as FRAME does.
- There is no invariant relating `TotalSupply` to the sum of all balances.
  Genesis endowments (`velocity-chain/node/src/chain_spec.rs` is not part of
  this model) give balances that no mint accounts for, so on the real chain
  approve_burn's Overflow branch is reachable, and the model keeps it. From
  the model's own `Genesis`, where every balance is zero, tokens come only
  from mints, the sum of balances stays at or below `TotalSupply`, and the
  branch is not reached; no lemma here states that sum bound.
- Invariants.RequestMintPreservesValid: stated only while
  `NextMintRequestId` < u64::MAX. At u64::MAX the saturating counter makes
  the next request overwrite the one stored under u64::MAX (see
  `Compliance.SaturatedAlertIdIsReused` for the same effect on alerts).
- Invariants.RequestBurnPreservesValid: stated only while
  `NextBurnRequestId` < u64::MAX, for the same reason.
- Dispatch.ApplyPreservesValid: requires all three counters below u64::MAX.
  Dispatch.ReachableStatesAreValid therefore covers runs of at most u64::MAX
  extrinsics.
- Origins, the block number and the `#[pallet::constant]` values are
  parameters: `Origin`, `block`, `Config`. Weights, `ensure_root` and
  `ensure_signed` internals and the system pallet's `ExtrinsicFailed`
  events are not modelled.
- FRAME's transactional storage layer is not modelled as a mechanism. The
  pallet functions return an error without a state. The `Runtime` methods put
  back exactly the storage items they wrote before the failing step.
- `Chain.Runtime` holds each pallet's storage as one field of the pallet's
  storage record and replaces items inside it; it does not give every
  storage item a field of its own.
- `velo-chain/pallets/velopay/src/lib.rs:40`: `BurnRequestStatus::Pending`
  is declared but never produced. `Invariants.NoPendingBurn` records that no
  stored request has it. The `BurnRequested` event is likewise never emitted.
- `VeloPayError::FeeCalculationFailed` is never returned: it guards a
  checked division by the constant 10000, which cannot fail
  (`velo-chain/pallets/velopay/src/lib.rs:565-568`). The model has no step
  that produces it.
- `validate_wallet_address` (`velopay-api/src/utils.rs:5-11`) relies on an
  SS58 decoder whose code is not part of this model.
- The test at `velopay-api/src/utils.rs:35` expects "@example.com" to be
  rejected. The code accepts it: it has '@', '.' and 12 bytes. The model
  follows the code.
- The off-chain gateway (HTTP routes, services, database, JWT, RPC
  submission, the decimal fee mirror), the explorer and the node
  configuration are outside the modelled core.
