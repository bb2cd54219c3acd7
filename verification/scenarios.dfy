/**
 * The ledger driven the way its test suite drives it: each method starts
 * from a fresh, reset ledger, sets the ambient caller, calls operations
 * and checks the replies, the stored payments and the transfer log. The
 * two generic methods at the end show that a settlement is final for any
 * ledger and any order id.
 */
module Scenarios {
  import opened PaymentTypes
  import opened PaymentRules
  import opened Ledger

  method Fresh() returns (c: PaymentProcessor)
    ensures fresh(c) && c.Initial() && c.Valid()
  {
    c := new PaymentProcessor();
    c.Reset();
  }

  /** Owner sets escrow, then the customer pays 1000 STX at the default 1% fee. */
  method FundedLedger() returns (c: PaymentProcessor)
    ensures fresh(c) && c.Valid()
    ensures c.escrowContract == Some("ST2ESCROW") && c.caller == "ST1CUSTOMER"
    ensures c.payments.Keys == {1} && c.nextPaymentId == 1
    ensures c.payments[1] == Payment("ST1CUSTOMER", "ST3VENDOR", 990, Pending, 0, 10, STX, "TruckLocation", 7, 5)
    ensures c.paymentUpdates == map[]
    ensures c.contractOwner == "ST1OWNER" && c.paymentFeeRate == 1 && c.maxPayments == 10000
    ensures c.stxTransfers == [Transfer(1000, "ST1CUSTOMER", "ST2ESCROW"), Transfer(10, "ST2ESCROW", "ST1OWNER")]
  {
    c := Fresh();
    c.caller := "ST1OWNER";
    var escrowSet := c.SetEscrowContract("ST2ESCROW");
    assert escrowSet.ok;
    c.caller := "ST1CUSTOMER";
    var r := c.ProcessPayment(1, "ST3VENDOR", 1000, "STX", "TruckLocation", 7, 5);
    assert r == Reply(true, 1);
  }

  method ProcessesPaymentSuccessfully() {
    var c := FundedLedger();
    assert c.payments[1].amount == 990 && c.payments[1].fee == 10;
    assert c.payments[1].status == Pending;
  }

  method RejectsPaymentWithoutEscrow() {
    var c := Fresh();
    var r := c.ProcessPayment(1, "ST3VENDOR", 1000, "STX", "TruckLocation", 7, 5);
    assert r == Reply(false, 111);
    assert c.stxTransfers == [] && c.payments == map[];
  }

  method RejectsInvalidAmount() {
    var c := Fresh();
    c.caller := "ST1OWNER";
    var escrowSet := c.SetEscrowContract("ST2ESCROW");
    c.caller := "ST1CUSTOMER";
    var r := c.ProcessPayment(1, "ST3VENDOR", 0, "STX", "TruckLocation", 7, 5);
    assert r == Reply(false, 101);
    assert c.stxTransfers == [];
  }

  method CompletesPaymentSuccessfully() {
    var c := FundedLedger();
    c.caller := "ST3VENDOR";
    var r := c.CompletePayment(1);
    assert r == Reply(true, true);
    assert c.payments[1].status == Completed;
    assert c.stxTransfers[2] == Transfer(990, "ST2ESCROW", "ST3VENDOR");
    var again := c.CompletePayment(1);
    assert again == Reply(false, false);
  }

  method RejectsCompleteByNonVendor() {
    var c := FundedLedger();
    c.caller := "ST4UNAUTH";
    var r := c.CompletePayment(1);
    assert r == Reply(false, false);
    assert c.payments[1].status == Pending && |c.stxTransfers| == 2;
  }

  method RefundsPaymentSuccessfully() {
    var c := FundedLedger();
    c.caller := "ST1CUSTOMER";
    var r := c.RefundPayment(1);
    assert r == Reply(true, true);
    assert c.payments[1].status == Refunded;
    assert c.stxTransfers[2] == Transfer(990, "ST2ESCROW", "ST1CUSTOMER");
  }

  method RejectsRefundByUnauthorized() {
    var c := FundedLedger();
    c.caller := "ST4UNAUTH";
    var r := c.RefundPayment(1);
    assert r == Reply(false, false);
  }

  method SetsFeeRateSuccessfully() {
    var c := Fresh();
    c.caller := "ST1OWNER";
    var r := c.SetPaymentFeeRate(2);
    assert r == Reply(true, true);
    assert c.paymentFeeRate == 2;
  }

  method RejectsFeeRateByNonOwner() {
    var c := Fresh();
    c.caller := "ST1CUSTOMER";
    var r := c.SetPaymentFeeRate(2);
    assert r == Reply(false, false);
    assert c.paymentFeeRate == 1;
  }

  method ReturnsCorrectPaymentCount() {
    var c := FundedLedger();
    var r := c.ProcessPayment(2, "ST3VENDOR", 2000, "STX", "TruckLocation", 7, 5);
    assert r == Reply(true, 2);
    var count := c.GetPaymentCount();
    assert count == Reply(true, 2);
  }

  /** The cap is lowered through the owner's setter rather than by a direct write. */
  method RejectsMaxPaymentsExceeded() {
    var c := Fresh();
    c.caller := "ST1OWNER";
    var escrowSet := c.SetEscrowContract("ST2ESCROW");
    var cap := c.SetMaxPayments(1);
    assert cap.ok;
    c.caller := "ST1CUSTOMER";
    var first := c.ProcessPayment(1, "ST3VENDOR", 1000, "STX", "TruckLocation", 7, 5);
    assert first.ok;
    var second := c.ProcessPayment(2, "ST3VENDOR", 2000, "STX", "TruckLocation", 7, 5);
    assert second == Reply(false, 114);
    var count := c.GetPaymentCount();
    assert count.value == 1;
  }

  /** After a successful completion, neither operation can settle the order again. */
  method CompletionIsFinal(c: PaymentProcessor, orderId: int) returns (first: Reply<bool>, second: Reply<bool>, third: Reply<bool>)
    requires c.Valid()
    modifies c
    ensures first.ok ==> !second.ok && !third.ok
  {
    first := c.CompletePayment(orderId);
    second := c.CompletePayment(orderId);
    third := c.RefundPayment(orderId);
  }

  /** After a successful refund, neither operation can settle the order again. */
  method RefundIsFinal(c: PaymentProcessor, orderId: int) returns (first: Reply<bool>, second: Reply<bool>, third: Reply<bool>)
    requires c.Valid()
    modifies c
    ensures first.ok ==> !second.ok && !third.ok
  {
    first := c.RefundPayment(orderId);
    second := c.RefundPayment(orderId);
    third := c.CompletePayment(orderId);
  }
}
