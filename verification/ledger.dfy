/**
 * An abstract free/reserved balance ledger.
 *
 * The pallets move funds through FRAME's `Currency` and `ReservableCurrency`
 * traits, whose implementation (the balances pallet) is not part of this
 * model.  This module keeps only what the pallets rely on: per-account free
 * and reserved u128 amounts, and the six primitives the VeloPay pallet calls
 * (deposit, reserve, unreserve, slash-reserved, transfer, and the balance
 * reads).  Existential deposits and imbalances are not modelled: every
 * account may hold any amount, including zero.
 */
module Ledger {
  import opened Primitives

  datatype AccountData = AccountData(free: u128, reserved: u128)

  /** Accounts absent from the map hold nothing. */
  type Balances = map<AccountId, AccountData>

  /** Failures of the ledger primitives (the balances pallet's own errors). */
  datatype LedgerError = BalanceTooLow | BalanceOverflow

  function Account(b: Balances, who: AccountId): AccountData
  {
    if who in b then b[who] else AccountData(0, 0)
  }

  function Free(b: Balances, who: AccountId): u128
  {
    Account(b, who).free
  }

  function Reserved(b: Balances, who: AccountId): u128
  {
    Account(b, who).reserved
  }

  /**
   * `Currency::deposit_creating`: credits `value` to the free balance.  The
   * operation is infallible; if the credit would overflow the account it is
   * silently dropped and the ledger is unchanged.
   */
  function DepositCreating(b: Balances, who: AccountId, value: u128): (r: Balances)
    ensures Free(b, who) + value <= U128_MAX ==> Free(r, who) == Free(b, who) + value
    ensures Free(b, who) + value > U128_MAX ==> r == b
    ensures Reserved(r, who) == Reserved(b, who)
    ensures forall a :: a != who ==> Account(r, a) == Account(b, a)
  {
    var acc := Account(b, who);
    if acc.free + value <= U128_MAX then b[who := acc.(free := acc.free + value)] else b
  }

  /**
   * `ReservableCurrency::reserve`: moves `value` from free to reserved.
   * Fails if the free balance is too low or the reserved balance would
   * overflow; on failure nothing changes.
   */
  function Reserve(b: Balances, who: AccountId, value: u128): (r: Result<Balances, LedgerError>)
    ensures r.Err? <==> Free(b, who) < value || Reserved(b, who) + value > U128_MAX
    ensures r.Err? ==> r.error == (if Free(b, who) < value then BalanceTooLow else BalanceOverflow)
    ensures r.Ok? ==> Free(r.value, who) == Free(b, who) - value
    ensures r.Ok? ==> Reserved(r.value, who) == Reserved(b, who) + value
    ensures r.Ok? ==> forall a :: a != who ==> Account(r.value, a) == Account(b, a)
  {
    var acc := Account(b, who);
    if acc.free < value then Err(BalanceTooLow)
    else if acc.reserved + value > U128_MAX then Err(BalanceOverflow)
    else Ok(b[who := AccountData(acc.free - value, acc.reserved + value)])
  }

  /**
   * `ReservableCurrency::unreserve`: moves as much of `value` as is reserved
   * back to free (the free side saturates) and returns the part that could
   * not be unreserved.
   */
  function Unreserve(b: Balances, who: AccountId, value: u128): (r: (Balances, u128))
    ensures var moved := if value <= Reserved(b, who) then value else Reserved(b, who);
            && r.1 == value - moved
            && Reserved(r.0, who) == Reserved(b, who) - moved
            && Free(r.0, who) == SaturatingAdd(Free(b, who), moved)
    ensures forall a :: a != who ==> Account(r.0, a) == Account(b, a)
  {
    var acc := Account(b, who);
    var moved := if value <= acc.reserved then value else acc.reserved;
    (b[who := AccountData(SaturatingAdd(acc.free, moved), acc.reserved - moved)], value - moved)
  }

  /**
   * `ReservableCurrency::slash_reserved`: destroys as much of `value` as is
   * reserved and returns the part that could not be slashed.  The free
   * balance is untouched.
   */
  function SlashReserved(b: Balances, who: AccountId, value: u128): (r: (Balances, u128))
    ensures var slashed := if value <= Reserved(b, who) then value else Reserved(b, who);
            && r.1 == value - slashed
            && Reserved(r.0, who) == Reserved(b, who) - slashed
            && Free(r.0, who) == Free(b, who)
    ensures r.1 == 0 <==> value <= Reserved(b, who)
    ensures forall a :: a != who ==> Account(r.0, a) == Account(b, a)
  {
    var acc := Account(b, who);
    var slashed := if value <= acc.reserved then value else acc.reserved;
    (b[who := acc.(reserved := acc.reserved - slashed)], value - slashed)
  }

  /**
   * `Currency::transfer` between free balances.  A zero amount or a transfer
   * to oneself succeeds without effect; otherwise the sender must hold
   * `value` and the receiver must not overflow.
   */
  function Transfer(b: Balances, from: AccountId, to: AccountId, value: u128): (r: Result<Balances, LedgerError>)
    ensures (value == 0 || from == to) ==> r == Ok(b)
    ensures value != 0 && from != to ==>
              (r.Err? <==> Free(b, from) < value || Free(b, to) + value > U128_MAX)
    ensures r.Err? ==> r.error == (if Free(b, from) < value then BalanceTooLow else BalanceOverflow)
    ensures r.Ok? && from != to ==> Free(r.value, from) == Free(b, from) - value
    ensures r.Ok? && from != to ==> Free(r.value, to) == Free(b, to) + value
    ensures r.Ok? ==> forall a :: Reserved(r.value, a) == Reserved(b, a)
    ensures r.Ok? ==> forall a :: a != from && a != to ==> Account(r.value, a) == Account(b, a)
  {
    if value == 0 || from == to then Ok(b)
    else
      var src := Account(b, from);
      var dst := Account(b, to);
      if src.free < value then Err(BalanceTooLow)
      else if dst.free + value > U128_MAX then Err(BalanceOverflow)
      else Ok(b[from := src.(free := src.free - value)][to := dst.(free := dst.free + value)])
  }

  /** A transfer conserves the combined free balance of the two parties. */
  lemma TransferConserves(b: Balances, from: AccountId, to: AccountId, value: u128)
    requires Transfer(b, from, to, value).Ok?
    ensures var b' := Transfer(b, from, to, value).value;
            Free(b', from) + Free(b', to) == Free(b, from) + Free(b, to)
  {
  }

  /** A reservation followed by an unreservation of the same amount restores the account. */
  lemma ReserveUnreserveRoundTrip(b: Balances, who: AccountId, value: u128)
    requires Reserve(b, who, value).Ok?
    ensures var u := Unreserve(Reserve(b, who, value).value, who, value);
            u.1 == 0 && Account(u.0, who) == Account(b, who)
  {
  }
}
