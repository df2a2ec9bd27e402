/** What a Lightning backend reports for a settled payment. */
module Payment {
  datatype PaymentResult = PaymentResult(preimage: string, paymentHash: string, amountSats: nat, feeSats: nat)
}
