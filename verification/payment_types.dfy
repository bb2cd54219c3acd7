/**
 * Values of the escrow payment ledger: principals, currencies, payment
 * records, transfer intents, replies and the numeric error codes.
 */
module PaymentTypes {

  datatype Option<T> = None | Some(value: T)

  /** An opaque account identity, compared only for equality. */
  type Principal = string

  /** The closed set of currencies a payment may be denominated in. */
  datatype Currency = STX | BTC | USD

  /** Lifecycle of one payment: pending, then exactly one terminal status. */
  datatype Status = Pending | Completed | Refunded

  /** A stored payment; `amount` is the net amount (gross minus fee). */
  datatype Payment = Payment(
    customer: Principal,
    vendor: Principal,
    amount: int,
    status: Status,
    timestamp: int,
    fee: int,
    currency: Currency,
    location: string,
    gracePeriod: int,
    interestRate: int)

  /** The record of the last status change of a payment. */
  datatype PaymentUpdate = PaymentUpdate(updateStatus: Status, updateTimestamp: int, updater: Principal)

  /** An intent to move `amount` from `from` to `to`; nothing is moved here. */
  datatype Transfer = Transfer(amount: int, from: Principal, to: Principal)

  /** The `{ ok, value }` shape every operation of the ledger answers with. */
  datatype Reply<T> = Reply(ok: bool, value: T)

  /** The spelling of each currency accepted by `processPayment`. */
  function CurrencyName(c: Currency): (s: string)
    ensures ParseCurrency(s) == Some(c)
  {
    match c
    case STX => "STX"
    case BTC => "BTC"
    case USD => "USD"
  }

  /** Accepts exactly the three listed spellings, case-sensitively. */
  function ParseCurrency(s: string): (r: Option<Currency>)
    ensures r.Some? <==> (s == "STX" || s == "BTC" || s == "USD")
  {
    if s == "STX" then Some(STX)
    else if s == "BTC" then Some(BTC)
    else if s == "USD" then Some(USD)
    else None
  }

  /** The ways `processPayment` can refuse, in the order it checks them. */
  datatype ProcessError =
    | MaxPaymentsExceeded
    | InvalidAmount
    | InvalidVendor
    | InvalidCurrency
    | InvalidLocation
    | InvalidGracePeriod
    | InvalidInterestRate
    | OrderAlreadyPaid
    | EscrowNotSet

  /**
   * The numeric code a refusal is reported with. Since every code decodes
   * back to its refusal, no two refusals share a code.
   */
  function ErrorCode(e: ProcessError): (code: int)
    ensures 101 <= code <= 118
    ensures ErrorOf(code) == Some(e)
  {
    match e
    case MaxPaymentsExceeded => 114
    case InvalidAmount => 101
    case InvalidVendor => 107
    case InvalidCurrency => 115
    case InvalidLocation => 116
    case InvalidGracePeriod => 117
    case InvalidInterestRate => 118
    case OrderAlreadyPaid => 103
    case EscrowNotSet => 111
  }

  /** Decodes a numeric code back to the refusal it stands for, if any. */
  function ErrorOf(code: int): (r: Option<ProcessError>)
    ensures r.Some? ==> 101 <= code <= 118
  {
    if code == 114 then Some(MaxPaymentsExceeded)
    else if code == 101 then Some(InvalidAmount)
    else if code == 107 then Some(InvalidVendor)
    else if code == 115 then Some(InvalidCurrency)
    else if code == 116 then Some(InvalidLocation)
    else if code == 117 then Some(InvalidGracePeriod)
    else if code == 118 then Some(InvalidInterestRate)
    else if code == 103 then Some(OrderAlreadyPaid)
    else if code == 111 then Some(EscrowNotSet)
    else None
  }

  /**
   * The fee withheld from a gross `amount` at `rate` percent: the floor of
   * amount * rate / 100.
   */
  function Fee(amount: int, rate: int): (fee: int)
    ensures fee * 100 <= amount * rate < fee * 100 + 100
  {
    (amount * rate) / 100
  }

  /**
   * With a positive amount and a rate in 0..10, the fee is at most a tenth
   * of the amount, so the net amount stays positive and fee plus net is
   * the gross amount.
   */
  lemma FeeWithheld(amount: int, rate: int)
    requires amount > 0 && 0 <= rate <= 10
    ensures 0 <= Fee(amount, rate) && Fee(amount, rate) * 10 <= amount
    ensures 0 < amount - Fee(amount, rate) <= amount
  {
  }
}
