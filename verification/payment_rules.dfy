/**
 * The rules of the ledger stated on values: the validation chain of
 * `processPayment`, the payment it admits, who may settle a payment, and
 * the relation every state change keeps between the old and the new ledger.
 */
module PaymentRules {
  import opened PaymentTypes

  /**
   * The escrow principal counts as set only when present and non-empty:
   * the source tests it for truthiness, and the empty string is falsy.
   */
  predicate EscrowSet(escrow: Option<Principal>) {
    escrow.Some? && escrow.value != ""
  }

  /** The arguments of one `processPayment` call. */
  datatype PaymentRequest = PaymentRequest(
    orderId: int,
    vendor: Principal,
    amount: int,
    currency: string,
    location: string,
    gracePeriod: int,
    interestRate: int)

  /** What `processPayment` reads of the ledger before it admits a request. */
  datatype Gate = Gate(
    nextPaymentId: int,
    maxPayments: int,
    caller: Principal,
    orderTaken: bool,
    escrowSet: bool)

  /**
   * Whether `request` fails the single check that reports `e`. The chain
   * itself is `Screen` below; `ScreenIsFirstFailure` ties the two together,
   * and `Ledger.PaymentProcessor.ProcessPayment` runs the same checks as
   * early returns and is proved to answer as `Screen` does.
   */
  predicate Violates(gate: Gate, request: PaymentRequest, e: ProcessError) {
    match e
    case MaxPaymentsExceeded => gate.nextPaymentId >= gate.maxPayments
    case InvalidAmount => request.amount <= 0
    case InvalidVendor => request.vendor == gate.caller
    case InvalidCurrency => ParseCurrency(request.currency).None?
    case InvalidLocation => |request.location| == 0 || |request.location| > 50
    case InvalidGracePeriod => request.gracePeriod > 30
    case InvalidInterestRate => request.interestRate > 20
    case OrderAlreadyPaid => gate.orderTaken
    case EscrowNotSet => !gate.escrowSet
  }

  /** The position of each check in the chain; smaller runs first. */
  function Rank(e: ProcessError): nat {
    match e
    case MaxPaymentsExceeded => 0
    case InvalidAmount => 1
    case InvalidVendor => 2
    case InvalidCurrency => 3
    case InvalidLocation => 4
    case InvalidGracePeriod => 5
    case InvalidInterestRate => 6
    case OrderAlreadyPaid => 7
    case EscrowNotSet => 8
  }

  /** The validation chain of `processPayment`: None admits the request. */
  function Screen(gate: Gate, request: PaymentRequest): (verdict: Option<ProcessError>)
    ensures verdict.Some? ==> Violates(gate, request, verdict.value)
    ensures verdict.None? ==> gate.escrowSet && !gate.orderTaken && request.amount > 0
  {
    if gate.nextPaymentId >= gate.maxPayments then Some(MaxPaymentsExceeded)
    else if request.amount <= 0 then Some(InvalidAmount)
    else if request.vendor == gate.caller then Some(InvalidVendor)
    else if ParseCurrency(request.currency).None? then Some(InvalidCurrency)
    else if |request.location| == 0 || |request.location| > 50 then Some(InvalidLocation)
    else if request.gracePeriod > 30 then Some(InvalidGracePeriod)
    else if request.interestRate > 20 then Some(InvalidInterestRate)
    else if gate.orderTaken then Some(OrderAlreadyPaid)
    else if !gate.escrowSet then Some(EscrowNotSet)
    else None
  }

  /**
   * The first failing check wins: the chain reports `e` exactly when `e`'s
   * check fails and every earlier one passes, and admits the request
   * exactly when no check fails.
   */
  lemma ScreenIsFirstFailure(gate: Gate, request: PaymentRequest, e: ProcessError)
    ensures Screen(gate, request) == Some(e) <==>
              Violates(gate, request, e) &&
              forall d :: Rank(d) < Rank(e) ==> !Violates(gate, request, d)
    ensures Screen(gate, request).None? <==> forall d :: !Violates(gate, request, d)
  {
  }

  /** An order id already in the ledger is never admitted again. */
  lemma OrderIdNeverReused(gate: Gate, request: PaymentRequest)
    requires gate.orderTaken
    ensures Screen(gate, request).Some?
    ensures Rank(Screen(gate, request).value) <= Rank(OrderAlreadyPaid)
  {
  }

  /** The payment `processPayment` stores for an admitted request. */
  function NewPayment(request: PaymentRequest, customer: Principal, rate: int, now: int): (p: Payment)
    requires ParseCurrency(request.currency).Some?
    ensures p.status == Pending && p.timestamp == now
    ensures p.customer == customer && p.vendor == request.vendor
    ensures p.fee == Fee(request.amount, rate) && p.amount + p.fee == request.amount
    ensures CurrencyName(p.currency) == request.currency
  {
    var fee := Fee(request.amount, rate);
    Payment(customer, request.vendor, request.amount - fee, Pending, now, fee,
            ParseCurrency(request.currency).value, request.location,
            request.gracePeriod, request.interestRate)
  }

  /** What every stored payment satisfies. */
  predicate Sound(p: Payment) {
    && p.customer != p.vendor
    && p.amount > 0
    && p.fee >= 0
    && 0 < |p.location| <= 50
    && p.gracePeriod <= 30
    && p.interestRate <= 20
  }

  /** A request that passes the chain yields a sound payment. */
  lemma AdmittedPaymentIsSound(gate: Gate, request: PaymentRequest, rate: int, now: int)
    requires Screen(gate, request).None? && 0 <= rate <= 10
    ensures ParseCurrency(request.currency).Some?
    ensures Sound(NewPayment(request, gate.caller, rate, now))
  {
  }

  /** Only the vendor of a pending payment may complete it, once escrow is set. */
  predicate MayComplete(p: Payment, caller: Principal, escrowSet: bool) {
    p.vendor == caller && p.status == Pending && escrowSet
  }

  /** The customer or the vendor of a pending payment may refund it, once escrow is set. */
  predicate MayRefund(p: Payment, caller: Principal, escrowSet: bool) {
    (p.customer == caller || p.vendor == caller) && p.status == Pending && escrowSet
  }

  /**
   * `u` records the transition that gave `p` its current terminal status:
   * the same status and time, made by a party allowed to make it.
   */
  predicate Records(p: Payment, u: PaymentUpdate) {
    && u.updateStatus == p.status
    && u.updateTimestamp == p.timestamp
    && (p.status == Completed ==> u.updater == p.vendor)
    && (p.status == Refunded ==> u.updater == p.customer || u.updater == p.vendor)
  }

  /** `q` is `p` with possibly another status and timestamp, and nothing else changed. */
  predicate SameTerms(p: Payment, q: Payment) {
    p.(status := q.status, timestamp := q.timestamp) == q
  }

  /** The payment after it moves to the terminal `status` at time `now`. */
  function Settle(p: Payment, status: Status, now: int): (q: Payment)
    requires p.status == Pending && status != Pending
    ensures SameTerms(p, q) && q.status == status && q.timestamp == now
    ensures forall caller :: !MayComplete(q, caller, true) && !MayRefund(q, caller, true)
  {
    p.(status := status, timestamp := now)
  }

  /** The part of the ledger that payments and settlements change. */
  datatype Snapshot = Snapshot(
    payments: map<int, Payment>,
    updates: map<int, PaymentUpdate>,
    nextPaymentId: int,
    transfers: seq<Transfer>)

  /** One payment's record may only move from pending to a terminal status. */
  predicate Successor(p: Payment, q: Payment) {
    SameTerms(p, q) && (p.status != Pending ==> q == p)
  }

  /**
   * From `a` to `b` the ledger only grew: no payment or update record was
   * removed, no update record was overwritten, every payment kept its
   * terms and a settled one its status, the counter did not go down and
   * the transfer log was only appended to.
   */
  ghost predicate Evolves(a: Snapshot, b: Snapshot) {
    && a.payments.Keys <= b.payments.Keys
    && (forall id :: id in a.payments ==> Successor(a.payments[id], b.payments[id]))
    && a.updates.Keys <= b.updates.Keys
    && (forall id :: id in a.updates ==> b.updates[id] == a.updates[id])
    && a.nextPaymentId <= b.nextPaymentId
    && a.transfers <= b.transfers
  }

  lemma EvolvesTransitive(a: Snapshot, b: Snapshot, c: Snapshot)
    requires Evolves(a, b) && Evolves(b, c)
    ensures Evolves(a, c)
  {
  }

  /**
   * Over any run of operations, each of which evolves the ledger, the
   * first state evolves into the last: once settled, a payment stays
   * settled with the same status forever, and no order id disappears.
   */
  lemma {:induction false} RunEvolves(run: seq<Snapshot>)
    requires |run| > 0
    requires forall i :: 0 <= i < |run| - 1 ==> Evolves(run[i], run[i + 1])
    ensures Evolves(run[0], run[|run| - 1])
  {
    if |run| > 1 {
      RunEvolves(run[1..]);
      assert run[1..][0] == run[1] && run[1..][|run| - 2] == run[|run| - 1];
      assert Evolves(run[0], run[1]);
      EvolvesTransitive(run[0], run[1], run[|run| - 1]);
    }
  }
}
