/**
 * The in-memory escrow payment ledger of a food-truck ordering system: one
 * object holding the configuration, the payments and their last updates
 * keyed by order id, the log of transfer intents, and the ambient caller
 * and block height every operation reads.
 */
module Ledger {
  import opened PaymentTypes
  import opened PaymentRules

  const DefaultOwner: Principal := "ST1OWNER"
  const DefaultCaller: Principal := "ST1CUSTOMER"
  const DefaultFeeRate := 1
  const DefaultMaxPayments := 10000
  const DefaultCreationFee := 500

  class PaymentProcessor {
    // Configuration.
    var contractOwner: Principal
    var escrowContract: Option<Principal>
    var paymentFeeRate: int
    var maxPayments: int
    var nextPaymentId: nat
    var creationFee: int
    // Records keyed by order id.
    var payments: map<int, Payment>
    var paymentUpdates: map<int, PaymentUpdate>
    // Ambient context, assigned by whoever drives the ledger.
    var blockHeight: int
    var caller: Principal
    // Transfer intents, in the order they were made.
    var stxTransfers: seq<Transfer>

    /**
     * The ledger's invariant: configuration in range; one payment per
     * successful creation; an update record exactly for the settled
     * payments, agreeing with them; two transfers per creation and one
     * per settlement.
     */
    ghost predicate Valid()
      reads this
    {
      && 0 <= paymentFeeRate <= 10
      && maxPayments > 0
      && creationFee >= 0
      && |payments| == nextPaymentId
      && |stxTransfers| == 2 * nextPaymentId + |paymentUpdates|
      && paymentUpdates.Keys <= payments.Keys
      && (forall id :: id in payments ==> Sound(payments[id]))
      && (forall id :: id in payments ==> (payments[id].status == Pending <==> id !in paymentUpdates))
      && (forall id :: id in paymentUpdates ==> Records(payments[id], paymentUpdates[id]))
    }

    /** The state a fresh or reset ledger is in. */
    ghost predicate Initial()
      reads this
    {
      && contractOwner == DefaultOwner
      && escrowContract == None
      && paymentFeeRate == DefaultFeeRate
      && maxPayments == DefaultMaxPayments
      && nextPaymentId == 0
      && creationFee == DefaultCreationFee
      && payments == map[]
      && paymentUpdates == map[]
      && blockHeight == 0
      && caller == DefaultCaller
      && stxTransfers == []
    }

    /** The part of the state that payments and settlements change. */
    ghost function Snap(): Snapshot
      reads this
    {
      Snapshot(payments, paymentUpdates, nextPaymentId, stxTransfers)
    }

    /** What `ProcessPayment` consults before admitting `orderId`. */
    function GateFor(orderId: int): Gate
      reads this
    {
      Gate(nextPaymentId, maxPayments, caller, orderId in payments, EscrowSet(escrowContract))
    }

    constructor ()
      ensures Initial() && Valid()
    {
      contractOwner := DefaultOwner;
      escrowContract := None;
      paymentFeeRate := DefaultFeeRate;
      maxPayments := DefaultMaxPayments;
      nextPaymentId := 0;
      creationFee := DefaultCreationFee;
      payments := map[];
      paymentUpdates := map[];
      blockHeight := 0;
      caller := DefaultCaller;
      stxTransfers := [];
    }

    /**
     * Rebuilds every field, configuration and context included. This is
     * the one operation that does not keep `Evolves`: the ledger starts over.
     */
    method Reset()
      modifies this
      ensures Initial() && Valid()
    {
      contractOwner := DefaultOwner;
      escrowContract := None;
      paymentFeeRate := DefaultFeeRate;
      maxPayments := DefaultMaxPayments;
      nextPaymentId := 0;
      creationFee := DefaultCreationFee;
      payments := map[];
      paymentUpdates := map[];
      blockHeight := 0;
      caller := DefaultCaller;
      stxTransfers := [];
    }

    /** Owner only; any principal is accepted. */
    method SetEscrowContract(principal: Principal) returns (r: Reply<bool>)
      requires Valid()
      modifies this`escrowContract
      ensures Valid() && Evolves(old(Snap()), Snap())
      ensures r.ok == (caller == contractOwner) && r.value == r.ok
      ensures escrowContract == if r.ok then Some(principal) else old(escrowContract)
    {
      if caller != contractOwner {
        return Reply(false, false);
      }
      escrowContract := Some(principal);
      r := Reply(true, true);
    }

    /** Owner only; the rate is a percentage between 0 and 10. */
    method SetPaymentFeeRate(newRate: int) returns (r: Reply<bool>)
      requires Valid()
      modifies this`paymentFeeRate
      ensures Valid() && Evolves(old(Snap()), Snap())
      ensures r.ok == (caller == contractOwner && 0 <= newRate <= 10) && r.value == r.ok
      ensures paymentFeeRate == if r.ok then newRate else old(paymentFeeRate)
    {
      if caller != contractOwner {
        return Reply(false, false);
      }
      if newRate < 0 || newRate > 10 {
        return Reply(false, false);
      }
      paymentFeeRate := newRate;
      r := Reply(true, true);
    }

    /** Owner only; the cap must be positive. */
    method SetMaxPayments(newMax: int) returns (r: Reply<bool>)
      requires Valid()
      modifies this`maxPayments
      ensures Valid() && Evolves(old(Snap()), Snap())
      ensures r.ok == (caller == contractOwner && newMax > 0) && r.value == r.ok
      ensures maxPayments == if r.ok then newMax else old(maxPayments)
    {
      if caller != contractOwner {
        return Reply(false, false);
      }
      if newMax <= 0 {
        return Reply(false, false);
      }
      maxPayments := newMax;
      r := Reply(true, true);
    }

    /** Owner only; the fee must not be negative. */
    method SetCreationFee(newFee: int) returns (r: Reply<bool>)
      requires Valid()
      modifies this`creationFee
      ensures Valid() && Evolves(old(Snap()), Snap())
      ensures r.ok == (caller == contractOwner && newFee >= 0) && r.value == r.ok
      ensures creationFee == if r.ok then newFee else old(creationFee)
    {
      if caller != contractOwner {
        return Reply(false, false);
      }
      if newFee < 0 {
        return Reply(false, false);
      }
      creationFee := newFee;
      r := Reply(true, true);
    }

    /**
     * The caller pays `amount` for `orderId` to `vendor`. A refused request
     * answers with the code of the first failing check and changes
     * nothing; an admitted one records the gross payment into escrow and
     * the fee out of escrow to the owner, stores the net payment as
     * pending and counts it.
     */
    method ProcessPayment(orderId: int, vendor: Principal, amount: int, currency: string,
                          location: string, gracePeriod: int, interestRate: int)
      returns (r: Reply<int>)
      requires Valid()
      modifies this`payments, this`nextPaymentId, this`stxTransfers
      ensures Valid()
      ensures Evolves(old(Snap()), Snap())
      ensures
        var request := PaymentRequest(orderId, vendor, amount, currency, location, gracePeriod, interestRate);
        match Screen(old(GateFor(orderId)), request)
        case Some(e) =>
          && r == Reply(false, ErrorCode(e))
          && payments == old(payments)
          && nextPaymentId == old(nextPaymentId)
          && stxTransfers == old(stxTransfers)
        case None =>
          && r == Reply(true, orderId)
          && ParseCurrency(currency).Some?
          && EscrowSet(escrowContract)
          && orderId !in old(payments)
          && payments == old(payments)[orderId := NewPayment(request, caller, paymentFeeRate, blockHeight)]
          && nextPaymentId == old(nextPaymentId) + 1
          && stxTransfers == old(stxTransfers) + [
               Transfer(amount, caller, escrowContract.value),
               Transfer(Fee(amount, paymentFeeRate), escrowContract.value, contractOwner)]
    {
      if nextPaymentId >= maxPayments { return Reply(false, ErrorCode(MaxPaymentsExceeded)); }
      if amount <= 0 { return Reply(false, ErrorCode(InvalidAmount)); }
      if vendor == caller { return Reply(false, ErrorCode(InvalidVendor)); }
      if ParseCurrency(currency).None? { return Reply(false, ErrorCode(InvalidCurrency)); }
      if |location| == 0 || |location| > 50 { return Reply(false, ErrorCode(InvalidLocation)); }
      if gracePeriod > 30 { return Reply(false, ErrorCode(InvalidGracePeriod)); }
      if interestRate > 20 { return Reply(false, ErrorCode(InvalidInterestRate)); }
      if orderId in payments { return Reply(false, ErrorCode(OrderAlreadyPaid)); }
      if !EscrowSet(escrowContract) { return Reply(false, ErrorCode(EscrowNotSet)); }

      var request := PaymentRequest(orderId, vendor, amount, currency, location, gracePeriod, interestRate);
      AdmittedPaymentIsSound(GateFor(orderId), request, paymentFeeRate, blockHeight);
      var escrow := escrowContract.value;
      var fee := Fee(amount, paymentFeeRate);
      stxTransfers := stxTransfers + [Transfer(amount, caller, escrow)];
      stxTransfers := stxTransfers + [Transfer(fee, escrow, contractOwner)];
      payments := payments[orderId := NewPayment(request, caller, paymentFeeRate, blockHeight)];
      nextPaymentId := nextPaymentId + 1;
      r := Reply(true, orderId);
    }

    /**
     * The vendor of a pending payment claims its net amount from escrow.
     * Every refusal looks the same and changes nothing.
     */
    method CompletePayment(orderId: int) returns (r: Reply<bool>)
      requires Valid()
      modifies this`payments, this`paymentUpdates, this`stxTransfers
      ensures Valid()
      ensures Evolves(old(Snap()), Snap())
      ensures r.value == r.ok
      ensures r.ok <==> orderId in old(payments) && MayComplete(old(payments)[orderId], caller, EscrowSet(escrowContract))
      ensures !r.ok ==> payments == old(payments) && paymentUpdates == old(paymentUpdates) && stxTransfers == old(stxTransfers)
      ensures r.ok ==>
        var p := old(payments)[orderId];
        && payments == old(payments)[orderId := Settle(p, Completed, blockHeight)]
        && paymentUpdates == old(paymentUpdates)[orderId := PaymentUpdate(Completed, blockHeight, caller)]
        && stxTransfers == old(stxTransfers) + [Transfer(p.amount, escrowContract.value, p.vendor)]
    {
      if orderId !in payments { return Reply(false, false); }
      var payment := payments[orderId];
      if payment.vendor != caller { return Reply(false, false); }
      if payment.status != Pending { return Reply(false, false); }
      if !EscrowSet(escrowContract) { return Reply(false, false); }

      stxTransfers := stxTransfers + [Transfer(payment.amount, escrowContract.value, payment.vendor)];
      payments := payments[orderId := Settle(payment, Completed, blockHeight)];
      paymentUpdates := paymentUpdates[orderId := PaymentUpdate(Completed, blockHeight, caller)];
      r := Reply(true, true);
    }

    /**
     * The customer or the vendor of a pending payment returns its net
     * amount from escrow to the customer. Every refusal looks the same and
     * changes nothing.
     */
    method RefundPayment(orderId: int) returns (r: Reply<bool>)
      requires Valid()
      modifies this`payments, this`paymentUpdates, this`stxTransfers
      ensures Valid()
      ensures Evolves(old(Snap()), Snap())
      ensures r.value == r.ok
      ensures r.ok <==> orderId in old(payments) && MayRefund(old(payments)[orderId], caller, EscrowSet(escrowContract))
      ensures !r.ok ==> payments == old(payments) && paymentUpdates == old(paymentUpdates) && stxTransfers == old(stxTransfers)
      ensures r.ok ==>
        var p := old(payments)[orderId];
        && payments == old(payments)[orderId := Settle(p, Refunded, blockHeight)]
        && paymentUpdates == old(paymentUpdates)[orderId := PaymentUpdate(Refunded, blockHeight, caller)]
        && stxTransfers == old(stxTransfers) + [Transfer(p.amount, escrowContract.value, p.customer)]
    {
      if orderId !in payments { return Reply(false, false); }
      var payment := payments[orderId];
      if payment.customer != caller && payment.vendor != caller { return Reply(false, false); }
      if payment.status != Pending { return Reply(false, false); }
      if !EscrowSet(escrowContract) { return Reply(false, false); }

      stxTransfers := stxTransfers + [Transfer(payment.amount, escrowContract.value, payment.customer)];
      payments := payments[orderId := Settle(payment, Refunded, blockHeight)];
      paymentUpdates := paymentUpdates[orderId := PaymentUpdate(Refunded, blockHeight, caller)];
      r := Reply(true, true);
    }

    /** Always succeeds with the number of payments ever created. */
    method GetPaymentCount() returns (r: Reply<int>)
      requires Valid()
      ensures r.ok && r.value == |payments| && r.value == nextPaymentId
    {
      r := Reply(true, nextPaymentId);
    }
  }
}
