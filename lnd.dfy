/**
 * The shapes of the node's RPC messages that the core reads and writes.
 * A protobuf `map<uint64, bytes>` of custom records is a sequence of pairs in
 * its iteration order (the source iterates a HashMap, whose order is not
 * fixed; each sequence stands for one such order).
 */
module Lnd {
  import opened Wrappers
  import opened Numbers

  type CustomRecords = seq<(u64, seq<byte>)>

  datatype InvoiceHtlc = InvoiceHtlc(customRecords: CustomRecords)

  datatype Invoice = Invoice(addIndex: u64, settleDate: i64, amtPaidSat: i64, htlcs: seq<InvoiceHtlc>)

  datatype Hop = Hop(pubKey: string, customRecords: CustomRecords)

  datatype Route = Route(hops: seq<Hop>)

  datatype PaymentHtlc = PaymentHtlc(route: Option<Route>)

  datatype Payment = Payment(
    paymentHash: string,
    paymentIndex: u64,
    creationTimeNs: i64,
    valueMsat: i64,
    feeMsat: i64,
    htlcs: seq<PaymentHtlc>)

  datatype SendRequest = SendRequest(
    dest: seq<byte>,
    amt: i64,
    paymentHash: seq<byte>,
    destCustomRecords: map<u64, seq<byte>>)

  datatype SendResponse = SendResponse(paymentError: string, paymentHash: seq<byte>)

  /** `custom_records.contains_key(key)`. */
  predicate HasRecord(records: CustomRecords, key: u64) {
    exists i :: 0 <= i < |records| && records[i].0 == key
  }
}
