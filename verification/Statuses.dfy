/** Statuses, event types and texts that several parts of the program share. */
module Statuses {
  const SUCCEEDED := "succeeded"
  const CANCELED := "canceled"
  const REQUIRES_PAYMENT_METHOD := "requires_payment_method"
  const REQUIRES_ACTION := "requires_action"
  const FAILED_EVENT := "payment_intent.payment_failed"
  const FAILURE_TEXT := "Payment failed; the charge was rejected by the gateway."
  const PROVIDER_FAILED := "provider request failed"
  const ACTIVE := "active"
  const INCOMPLETE := "incomplete"
  const OPEN := "open"
  const PAID := "paid"
  const PAYMENT_SUCCEEDED := "invoice.payment_succeeded"
}
