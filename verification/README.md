# Escrow payment ledger for food-truck orders, in Dafny

This project models the in-memory payment processor of a food-truck ordering
system. Customers pay for orders into an escrow principal. The contract
owner takes a percentage fee at creation. The vendor later claims the net
amount, or the customer or vendor has it refunded. The processor keeps:

- configuration: the contract owner, an optional escrow principal, the fee
  rate in percent, the cap on payments, a creation fee, and the counter
  `nextPaymentId`;
- two maps keyed by order id: the payments and the record of each
  payment's last status change;
- an append-only log of transfer intents (amount, from, to). Funds are
  never moved here; the log is what an escrow custodian would act on;
- the ambient caller and block height that every operation reads.

Files:

- `payment_types.dfy` (module `PaymentTypes`): principals, the closed
  currency and status sets, payment and update records, transfer intents,
  the `{ ok, value }` reply, the numeric error codes and the fee.
- `payment_rules.dfy` (module `PaymentRules`): the rules stated on values.
  This covers the validation chain of `processPayment` and its
  first-failure characterisation, and the payment an admitted request
  yields. It also covers who may complete or refund, and `Evolves`: what
  every operation except `Reset` keeps between the old and the new ledger
  (no order id lost, terms fixed, terminal statuses final, log
  append-only).
- `ledger.dfy` (module `Ledger`): the class `PaymentProcessor`. It has
  the source's fields and its operations, which update those fields in
  place. `Valid()` is the object invariant. It holds after construction
  and after every operation, and it does not mention the ambient caller or
  block height, which clients assign directly. Each mutating method names
  the fields it may change and states their new values. Completing or
  refunding an unknown order, a non-pending order, an order the caller is
  not party to, or an order while escrow is unset all give the same
  refusal, as in the source. Escrow counts as set only when it is present
  and non-empty (`PaymentRules.EscrowSet`), because the source tests it
  for truthiness and the empty string is falsy. So the owner may set the
  escrow principal to "", and payments are then refused with code 111 and
  settlements refused as for an unset escrow.
- `scenarios.dfy` (module `Scenarios`): the source's test cases, replayed
  as client methods. They cover a successful payment (1000 at 1% gives
  net 990 and fee 10), a refusal without escrow (111) and for a zero
  amount (101). They cover completion and refusal by a non-vendor, refund
  and refusal by a stranger, and setting the fee rate by the owner and by
  a non-owner. They also cover the payment count and the cap on payments
  (114). Two generic methods show that a settled order cannot be settled
  again.

## Model

| member | source | states |
|---|---|---|
| PaymentTypes.CurrencyName | tests/PaymentProcessor.test.ts:123 | each currency's spelling is accepted by the parser and parses back to that currency |
| PaymentTypes.ParseCurrency | tests/PaymentProcessor.test.ts:123 | a currency string is accepted iff it is exactly "STX", "BTC" or "USD" |
| PaymentTypes.ErrorCode | tests/PaymentProcessor.test.ts:4-18 | each refusal of `processPayment` is reported with a code between 101 and 118 that decodes back to that refusal |
| PaymentTypes.ErrorOf | tests/PaymentProcessor.test.ts:4-18 | only codes in the declared 101..118 range decode to a refusal |
| PaymentTypes.Fee | tests/PaymentProcessor.test.ts:130 | the fee is the floor of amount * rate / 100: fee*100 <= amount*rate < fee*100 + 100 |
| PaymentTypes.FeeWithheld | tests/PaymentProcessor.test.ts:130-131 | for a positive amount and a rate in 0..10, the fee is non-negative and at most a tenth of the amount, so the net amount is positive |
| PaymentRules.Screen | tests/PaymentProcessor.test.ts:120-128 | a refusal names a check the request fails; an admitted request has escrow set, a fresh order id and a positive amount; escrow counts as set only when present and non-empty |
| PaymentRules.ScreenIsFirstFailure | tests/PaymentProcessor.test.ts:120-128 | the chain reports `e` iff `e`'s check fails and every earlier check passes, and admits iff no check fails |
| PaymentRules.OrderIdNeverReused | tests/PaymentProcessor.test.ts:127 | a request for an order id already stored is always refused, at the order-id check or an earlier one |
| PaymentRules.NewPayment | tests/PaymentProcessor.test.ts:130-146 | the stored payment is pending, stamped with the current block height, customer is the caller, fee is the computed fee, net plus fee equals the gross amount, and its currency spells the requested one |
| PaymentRules.AdmittedPaymentIsSound | tests/PaymentProcessor.test.ts:120-146 | an admitted request gives a payment with distinct customer and vendor, positive net amount, non-negative fee, location of 1..50 characters, grace period <= 30 and interest rate <= 20 |
| PaymentRules.Settle | tests/PaymentProcessor.test.ts:160-161 | settling changes only status and timestamp, and afterwards nobody may complete or refund the payment |
| PaymentRules.EvolvesTransitive | tests/PaymentProcessor.test.ts:147-148 | two successive ledger changes that each keep the history relation together keep it |
| PaymentRules.RunEvolves | tests/PaymentProcessor.test.ts:147-186 | over any run of operations without `Reset` (every other operation keeps the relation) no order id disappears, terms never change, a settled payment keeps its status, no update record is overwritten, the counter never decreases and the transfer log only grows |
| Ledger.PaymentProcessor.constructor | tests/PaymentProcessor.test.ts:45-66 | a new ledger has owner ST1OWNER, no escrow, rate 1, cap 10000, creation fee 500, no payments, no transfers, caller ST1CUSTOMER, block height 0, and is valid |
| Ledger.PaymentProcessor.Reset | tests/PaymentProcessor.test.ts:68-82 | every field returns to the initial state; this is the one operation outside the history relation |
| Ledger.PaymentProcessor.SetEscrowContract | tests/PaymentProcessor.test.ts:84-88 | succeeds iff the caller is the owner; then escrow is the given principal (the empty string included), otherwise unchanged; no other field may change, and the history relation is kept |
| Ledger.PaymentProcessor.SetPaymentFeeRate | tests/PaymentProcessor.test.ts:90-95 | succeeds iff the caller is the owner and the rate is in 0..10; only the rate changes, and only on success |
| Ledger.PaymentProcessor.SetMaxPayments | tests/PaymentProcessor.test.ts:97-102 | succeeds iff the caller is the owner and the cap is positive; only the cap changes, and only on success |
| Ledger.PaymentProcessor.SetCreationFee | tests/PaymentProcessor.test.ts:104-109 | succeeds iff the caller is the owner and the fee is non-negative; only the creation fee changes, and only on success |
| Ledger.PaymentProcessor.ProcessPayment | tests/PaymentProcessor.test.ts:111-150 | the reply is the code of the first failing check (state untouched) or the order id. Escrow counts as set only when present and non-empty. On success the new pending net payment is stored under a fresh id and the counter goes up by one. Exactly two transfers are appended: gross caller to escrow, then fee escrow to owner. The invariant and the history relation are kept |
| Ledger.PaymentProcessor.CompletePayment | tests/PaymentProcessor.test.ts:152-168 | succeeds iff the order exists, the caller is its vendor, it is pending and escrow is set (present and non-empty); otherwise nothing changes. On success the net amount goes escrow to vendor, status becomes completed and the update record names the caller |
| Ledger.PaymentProcessor.RefundPayment | tests/PaymentProcessor.test.ts:170-186 | succeeds iff the order exists, the caller is its customer or vendor, it is pending and escrow is set (present and non-empty); otherwise nothing changes. On success the net amount goes escrow to customer, status becomes refunded and the update record names the caller |
| Ledger.PaymentProcessor.GetPaymentCount | tests/PaymentProcessor.test.ts:188-190 | always succeeds, with the counter, which equals the number of stored payments |
| Scenarios.FundedLedger | tests/PaymentProcessor.test.ts:201-216 | escrow ST2ESCROW, then 1000 STX from ST1CUSTOMER to ST3VENDOR: payment net 990, fee 10, pending; transfers (1000, customer to escrow), (10, escrow to owner) |
| Scenarios.CompletionIsFinal | tests/PaymentProcessor.test.ts:152-186 | after a successful completion, a second completion and a refund of the same order both fail |
| Scenarios.RefundIsFinal | tests/PaymentProcessor.test.ts:152-186 | after a successful refund, a second refund and a completion of the same order both fail |

## Left out

- PaymentRules.RunEvolves: covers runs without `Reset`. `Reset` rebuilds
  the ledger (payments, updates, counter and log start over), so it is
  outside the history relation by design, as in the source.
- The test harness and the test that parses Clarity values through a
  foreign library (tests/PaymentProcessor.test.ts:1-2, 309-314): there is
  no ledger behaviour in them.
- Numbers are unbounded integers. JavaScript's fractional values, NaN,
  infinities and loss of precision above 2^53 are not modelled.
- PaymentTypes.Fee: the source computes `Math.floor(amount * (rate / 100))`
  in floating point. The model uses exact integer arithmetic, which is the
  evidently intended floor. Floating-point rounding, which could differ
  by one for some inputs, is not reproduced.
- Location length is the number of characters of a Dafny string. The
  source measures UTF-16 code units, which differ for characters outside
  the Basic Multilingual Plane.
- Admin setters report failure as `{ ok: false, value: false }`, as the
  code does. The declared codes for unauthorized callers, bad fee rates and
  bad update parameters are never returned, so they are not modelled.
  Neither are the declared but unused codes for "order not found",
  "payment already processed" and "not owner".
- A test lowers the cap by writing the field directly
  (tests/PaymentProcessor.test.ts:320). The scenario lowers it through
  `SetMaxPayments` instead. Direct writes to any field other than the
  ambient caller and block height are not modelled.
- The escrow custodian and any real movement of funds: only the transfer
  intents are recorded.
- Block height is whatever the client assigns. The model does not assume
  that it never decreases.
