/** The records the core hands to the store (the `dbif` crate's types). */
module Records {
  import opened Wrappers
  import opened Numbers

  /** Who an outgoing boost went to, carried only by payment-side records. */
  datatype PaymentRecord = PaymentRecord(pubkey: string, customKey: u64, customValue: string, feeMsat: i64)

  datatype BoostRecord = BoostRecord(
    index: u64,
    time: i64,
    valueMsat: i64,
    valueMsatTotal: i64,
    action: nat,
    sender: string,
    app: string,
    message: string,
    podcast: string,
    episode: string,
    tlv: string,
    remotePodcast: Option<string>,
    remoteEpisode: Option<string>,
    paymentInfo: Option<PaymentRecord>)

  datatype SentBoostRecord = SentBoostRecord(
    pubkey: string,
    customKey: Option<u64>,
    customValue: Option<string>,
    sender: string,
    message: string,
    podcast: string,
    episode: string,
    totalAmtMsat: i64,
    totalFeesMsat: i64,
    paymentHash: string,
    replyBoostIndex: Option<u64>,
    tlv: string)
}
