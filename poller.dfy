/**
 * The poll cycle: list new invoices and payments from the node, decode the
 * Podcasting 2.0 record of each into a `BoostRecord`, enrich it from the
 * remote-guid cache and append it to the store; then move the watermarks.
 *
 * Every loop of the source is a method here, proved against a fold over the
 * same sequence (each fold recurses on its last element, so "the first i
 * elements are done" is the loop invariant).
 */
module Poller {
  import opened Wrappers
  import opened Numbers
  import opened Json
  import opened Lnd
  import opened Records
  import opened BoostDecoder
  import opened RemoteGuid
  import opened Store
  import opened Lightning

  /**
   * UTF-8 decoding of a record value, the JSON text parser, and the HTTP
   * request of the episode lookup (both guids as query parameters).
   */
  datatype Env = Env(
    utf8: seq<byte> -> Option<string>,
    parseJson: string -> Option<Json>,
    episodeHttpGet: (string, string) -> Result<string, string>)

  /** The node's answers to the three calls of a cycle. */
  datatype Node = Node(
    channelBalance: Result<Option<u64>, string>,
    listInvoices: (u64, u64) -> Result<seq<Invoice>, string>,
    listPayments: (u64, u64) -> Result<seq<Payment>, string>)

  /** Page size of both listings. */
  const PAGE: u64 := 500

  function EpisodeApiOf(env: Env): EpisodeApi {
    (p: string, e: string) => FetchApiPodcastEpisodeByGuid(env.episodeHttpGet, env.parseJson, p, e)
  }

  /** A record being built, and the remote-guid cache. */
  type Progress = (BoostRecord, CacheEntries)

  // ---------------------------------------------------------------- one TLV record

  /**
   * `parse_podcast_tlv` on values: the raw text is kept whatever happens; a
   * payload that parses and decodes overrides the record's fields, and a
   * payload naming both remote guids is looked up through the cache.
   */
  function TlvStep(boost: BoostRecord, text: string, entries: CacheEntries, env: Env): (r: Progress)
    ensures r.0.tlv == text
    ensures r.0.index == boost.index && r.0.time == boost.time && r.0.paymentInfo == boost.paymentInfo
    ensures entries.Keys <= r.1.Keys && forall k :: k in entries ==> r.1[k] == entries[k]
  {
    var b := boost.(tlv := text);
    var raw := if env.parseJson(text).Some? then DecodeRawBoost(env.parseJson(text).value) else None;
    if raw.None? then (b, entries)
    else
      var applied := ApplyRawBoost(b, raw.value);
      if raw.value.remoteFeedGuid.Some? && raw.value.remoteItemGuid.Some? then
        ResolveExtends(entries, raw.value.remoteFeedGuid.value, raw.value.remoteItemGuid.value, EpisodeApiOf(env));
        var (found, entries') := Resolve(entries, raw.value.remoteFeedGuid.value, raw.value.remoteItemGuid.value, EpisodeApiOf(env));
        if found.Some? then
          (applied.(remotePodcast := Some(found.value.podcast), remoteEpisode := Some(found.value.episode)), entries')
        else (applied, entries')
      else (applied, entries)
  }

  /** A payload that does not parse, or does not decode, changes only the raw text. */
  lemma TlvStepUndecodable(boost: BoostRecord, text: string, entries: CacheEntries, env: Env)
    requires env.parseJson(text).None? || DecodeRawBoost(env.parseJson(text).value).None?
    ensures TlvStep(boost, text, entries, env) == (boost.(tlv := text), entries)
  {
  }

  /**
   * A decoded payload overrides as the decoder's rules say; the remote names
   * are set exactly when both guids are present and the lookup finds them.
   */
  lemma TlvStepDecoded(boost: BoostRecord, text: string, entries: CacheEntries, env: Env)
    requires env.parseJson(text).Some? && DecodeRawBoost(env.parseJson(text).value).Some?
    ensures var raw := DecodeRawBoost(env.parseJson(text).value).value;
      var r := TlvStep(boost, text, entries, env).0;
      var remote := raw.remoteFeedGuid.Some? && raw.remoteItemGuid.Some?;
      var found := if remote then Resolve(entries, raw.remoteFeedGuid.value, raw.remoteItemGuid.value, EpisodeApiOf(env)).0 else None;
      r.(remotePodcast := boost.remotePodcast, remoteEpisode := boost.remoteEpisode)
        == ApplyRawBoost(boost.(tlv := text), raw) &&
      (found.Some? ==> r.remotePodcast == Some(found.value.podcast) && r.remoteEpisode == Some(found.value.episode)) &&
      (found.None? ==> r.remotePodcast == boost.remotePodcast && r.remoteEpisode == boost.remoteEpisode) &&
      (!remote ==> TlvStep(boost, text, entries, env).1 == entries)
  {
  }

  /** The override block of `parse_podcast_tlv`, one field at a time. */
  method ApplyOverrides(boost: BoostRecord, raw: RawBoost) returns (b: BoostRecord)
    ensures b == ApplyRawBoost(boost, raw)
  {
    b := boost;
    if raw.valueMsat.Some? {
      b := b.(valueMsat := U64AsI64(raw.valueMsat.value));
    }
    if raw.action.Some? {
      b := b.(action := ActionCode(raw.action.value));
    }
    if raw.senderName.Some? && raw.senderName.value != "" {
      b := b.(sender := raw.senderName.value);
    }
    if raw.message.Some? {
      b := b.(message := raw.message.value);
    }
    if raw.appName.Some? {
      b := b.(app := raw.appName.value);
    }
    if raw.podcast.Some? {
      b := b.(podcast := raw.podcast.value);
    }
    if raw.episode.Some? {
      b := b.(episode := raw.episode.value);
    }
    if raw.valueMsatTotal.Some? {
      b := b.(valueMsatTotal := U64AsI64(raw.valueMsatTotal.value));
    }
  }

  /** `parse_podcast_tlv`, updating the record field by field and the cache in place. */
  method ParsePodcastTlv(boost: BoostRecord, val: seq<byte>, cache: RemoteCache, env: Env) returns (b: BoostRecord)
    requires env.utf8(val).Some?
    modifies cache
    ensures (b, cache.entries) == TlvStep(boost, env.utf8(val).value, old(cache.entries), env)
  {
    var tlv := env.utf8(val).value;
    b := boost.(tlv := tlv);
    var parsed := env.parseJson(tlv);
    if parsed.None? {
      return;
    }
    var decoded := DecodeRawBoost(parsed.value);
    if decoded.None? {
      return;
    }
    var raw := decoded.value;
    b := ApplyOverrides(b, raw);
    if raw.remoteFeedGuid.Some? && raw.remoteItemGuid.Some? {
      var guid := cache.FetchPodcastEpisodeByGuid(raw.remoteFeedGuid.value, raw.remoteItemGuid.value, EpisodeApiOf(env));
      if guid.Some? {
        b := b.(remotePodcast := Some(guid.value.podcast), remoteEpisode := Some(guid.value.episode));
      }
    }
  }

  // ---------------------------------------------------------------- invoices

  /** Every Podcasting 2.0 record value is UTF-8 (the source unwraps the decoding). */
  predicate TlvTextsDecode(records: CustomRecords, env: Env) {
    forall k :: 0 <= k < |records| && records[k].0 == TLV_PODCASTING20 ==> env.utf8(records[k].1).Some?
  }

  predicate InvoiceDecodes(inv: Invoice, env: Env) {
    forall h :: 0 <= h < |inv.htlcs| ==> TlvTextsDecode(inv.htlcs[h].customRecords, env)
  }

  predicate InvoicesDecode(invoices: seq<Invoice>, env: Env) {
    forall i :: 0 <= i < |invoices| ==> InvoiceDecodes(invoices[i], env)
  }

  /** The record an invoice starts from; the amount is multiplied in wrapping i64 arithmetic. */
  function InitialInvoiceBoost(inv: Invoice): BoostRecord {
    BoostRecord(
      index := inv.addIndex,
      time := inv.settleDate,
      valueMsat := WrapI64(inv.amtPaidSat * 1000),
      valueMsatTotal := WrapI64(inv.amtPaidSat * 1000),
      action := 0,
      sender := "", app := "", message := "", podcast := "", episode := "", tlv := "",
      remotePodcast := None, remoteEpisode := None, paymentInfo := None)
  }

  /** The records of one invoice HTLC, in iteration order: only Podcasting 2.0 records act. */
  function InvoiceRecordsFold(st: Progress, records: CustomRecords, env: Env): (r: Progress)
    requires TlvTextsDecode(records, env)
    ensures r.0.index == st.0.index && r.0.time == st.0.time && r.0.paymentInfo == st.0.paymentInfo
    ensures st.1.Keys <= r.1.Keys
    decreases |records|
  {
    if records == [] then st
    else
      var prev := InvoiceRecordsFold(st, records[..|records| - 1], env);
      var (idx, val) := records[|records| - 1];
      if idx == TLV_PODCASTING20 then TlvStep(prev.0, env.utf8(val).value, prev.1, env) else prev
  }

  function InvoiceHtlcsFold(st: Progress, htlcs: seq<InvoiceHtlc>, env: Env): (r: Progress)
    requires forall h :: 0 <= h < |htlcs| ==> TlvTextsDecode(htlcs[h].customRecords, env)
    ensures r.0.index == st.0.index && r.0.time == st.0.time && r.0.paymentInfo == st.0.paymentInfo
    ensures st.1.Keys <= r.1.Keys
    decreases |htlcs|
  {
    if htlcs == [] then st
    else InvoiceRecordsFold(InvoiceHtlcsFold(st, htlcs[..|htlcs| - 1], env), htlcs[|htlcs| - 1].customRecords, env)
  }

  /** The record an invoice is stored as, and the cache after decoding it. */
  function InvoiceBoost(inv: Invoice, entries: CacheEntries, env: Env): Progress
    requires InvoiceDecodes(inv, env)
  {
    InvoiceHtlcsFold((InitialInvoiceBoost(inv), entries), inv.htlcs, env)
  }

  /** The text of the last Podcasting 2.0 record, if any. */
  function LastTlvText(records: CustomRecords, env: Env): Option<string>
    requires TlvTextsDecode(records, env)
    decreases |records|
  {
    if records == [] then None
    else if records[|records| - 1].0 == TLV_PODCASTING20 then Some(env.utf8(records[|records| - 1].1).value)
    else LastTlvText(records[..|records| - 1], env)
  }

  /** The stored raw text is that of the last Podcasting 2.0 record; without one it stays as it was. */
  lemma {:induction false} InvoiceRecordsFoldTlv(st: Progress, records: CustomRecords, env: Env)
    requires TlvTextsDecode(records, env)
    ensures InvoiceRecordsFold(st, records, env).0.tlv == LastTlvText(records, env).GetOr(st.0.tlv)
    decreases |records|
  {
    if records != [] {
      InvoiceRecordsFoldTlv(st, records[..|records| - 1], env);
    }
  }

  /** Records without a Podcasting 2.0 record change neither the record nor the cache. */
  lemma {:induction false} InvoiceRecordsFoldInert(st: Progress, records: CustomRecords, env: Env)
    requires forall k :: 0 <= k < |records| ==> records[k].0 != TLV_PODCASTING20
    ensures InvoiceRecordsFold(st, records, env) == st
    decreases |records|
  {
    if records != [] {
      InvoiceRecordsFoldInert(st, records[..|records| - 1], env);
    }
  }

  /** An invoice with no Podcasting 2.0 record is stored exactly as initialised, and consults no cache. */
  lemma {:induction false} PlainInvoice(inv: Invoice, entries: CacheEntries, env: Env)
    requires forall h, k :: 0 <= h < |inv.htlcs| && 0 <= k < |inv.htlcs[h].customRecords| ==>
               inv.htlcs[h].customRecords[k].0 != TLV_PODCASTING20
    ensures InvoiceDecodes(inv, env)
    ensures InvoiceBoost(inv, entries, env) == (InitialInvoiceBoost(inv), entries)
  {
    PlainHtlcs((InitialInvoiceBoost(inv), entries), inv.htlcs, env);
  }

  lemma {:induction false} PlainHtlcs(st: Progress, htlcs: seq<InvoiceHtlc>, env: Env)
    requires forall h, k :: 0 <= h < |htlcs| && 0 <= k < |htlcs[h].customRecords| ==>
               htlcs[h].customRecords[k].0 != TLV_PODCASTING20
    ensures forall h :: 0 <= h < |htlcs| ==> TlvTextsDecode(htlcs[h].customRecords, env)
    ensures InvoiceHtlcsFold(st, htlcs, env) == st
    decreases |htlcs|
  {
    if htlcs != [] {
      PlainHtlcs(st, htlcs[..|htlcs| - 1], env);
      InvoiceRecordsFoldInert(st, htlcs[|htlcs| - 1].customRecords, env);
    }
  }

  /** All invoices of a listing, in order: the records appended and the cache after. */
  function InvoicesFold(entries: CacheEntries, invoices: seq<Invoice>, env: Env): (seq<BoostRecord>, CacheEntries)
    requires InvoicesDecode(invoices, env)
    decreases |invoices|
  {
    if invoices == [] then ([], entries)
    else
      var (added, c) := InvoicesFold(entries, invoices[..|invoices| - 1], env);
      var (b, c') := InvoiceBoost(invoices[|invoices| - 1], c, env);
      (added + [b], c')
  }

  /**
   * One record per listed invoice, in listing order, each carrying its
   * invoice's add index and settle date and no payment details.
   */
  lemma {:induction false} InvoicesFoldRecords(entries: CacheEntries, invoices: seq<Invoice>, env: Env)
    requires InvoicesDecode(invoices, env)
    ensures var added := InvoicesFold(entries, invoices, env).0;
      |added| == |invoices| &&
      forall i :: 0 <= i < |invoices| ==>
        added[i].index == invoices[i].addIndex && added[i].time == invoices[i].settleDate && added[i].paymentInfo.None?
    decreases |invoices|
  {
    if invoices != [] {
      InvoicesFoldRecords(entries, invoices[..|invoices| - 1], env);
    }
  }

  /** the inner loop of the invoice listing */
  method ScanInvoiceRecords(st: BoostRecord, records: CustomRecords, cache: RemoteCache, env: Env) returns (b: BoostRecord)
    requires TlvTextsDecode(records, env)
    modifies cache
    ensures (b, cache.entries) == InvoiceRecordsFold((st, old(cache.entries)), records, env)
  {
    b := st;
    var k := 0;
    while k < |records|
      invariant 0 <= k <= |records|
      invariant (b, cache.entries) == InvoiceRecordsFold((st, old(cache.entries)), records[..k], env)
    {
      assert records[..k + 1][..k] == records[..k];
      var (idx, val) := records[k];
      if idx == TLV_PODCASTING20 {
        b := ParsePodcastTlv(b, val, cache, env);
      }
      k := k + 1;
    }
    assert records[..k] == records;
  }

  /** Decoding one invoice: initialise its record, then scan every HTLC's records. */
  method DecodeInvoice(inv: Invoice, cache: RemoteCache, env: Env) returns (b: BoostRecord)
    requires InvoiceDecodes(inv, env)
    modifies cache
    ensures (b, cache.entries) == InvoiceBoost(inv, old(cache.entries), env)
  {
    b := InitialInvoiceBoost(inv);
    var h := 0;
    while h < |inv.htlcs|
      invariant 0 <= h <= |inv.htlcs|
      invariant (b, cache.entries) == InvoiceHtlcsFold((InitialInvoiceBoost(inv), old(cache.entries)), inv.htlcs[..h], env)
    {
      assert inv.htlcs[..h + 1][..h] == inv.htlcs[..h];
      b := ScanInvoiceRecords(b, inv.htlcs[h].customRecords, cache, env);
      h := h + 1;
    }
    assert inv.htlcs[..h] == inv.htlcs;
  }

  /** The invoice half of a cycle: every listed invoice is decoded and appended. */
  method PollInvoices(store: Store, cache: RemoteCache, invoices: seq<Invoice>, env: Env)
    requires InvoicesDecode(invoices, env)
    modifies store, cache
    ensures var (added, entries) := InvoicesFold(old(cache.entries), invoices, env);
      store.invoices == old(store.invoices) + added && cache.entries == entries
    ensures store.payments == old(store.payments) && store.balances == old(store.balances)
    ensures store.sentBoosts == old(store.sentBoosts)
  {
    var i := 0;
    while i < |invoices|
      invariant 0 <= i <= |invoices|
      invariant var (added, entries) := InvoicesFold(old(cache.entries), invoices[..i], env);
        store.invoices == old(store.invoices) + added && cache.entries == entries
      invariant store.payments == old(store.payments) && store.balances == old(store.balances)
      invariant store.sentBoosts == old(store.sentBoosts)
    {
      assert invoices[..i + 1][..i] == invoices[..i];
      var boost := DecodeInvoice(invoices[i], cache, env);
      store.AddInvoice(boost);
      i := i + 1;
    }
    assert invoices[..i] == invoices;
  }

  // ---------------------------------------------------------------- payments

  predicate IsWalletKey(idx: u64) {
    idx == TLV_WALLET_KEY || idx == TLV_WALLET_ID || idx == TLV_HIVE_ACCOUNT
  }

  /** Every Podcasting 2.0 and wallet record value is UTF-8 (the source unwraps both decodings). */
  predicate HopTextsDecode(records: CustomRecords, env: Env) {
    forall k :: 0 <= k < |records| && (records[k].0 == TLV_PODCASTING20 || IsWalletKey(records[k].0)) ==>
      env.utf8(records[k].1).Some?
  }

  /** A routed HTLC has a hop (the source indexes `len() - 1`). */
  predicate RouteHasHop(htlc: PaymentHtlc) {
    htlc.route.Some? ==> |htlc.route.value.hops| > 0
  }

  function LastHop(htlc: PaymentHtlc): Hop
    requires htlc.route.Some? && |htlc.route.value.hops| > 0
  {
    htlc.route.value.hops[|htlc.route.value.hops| - 1]
  }

  predicate HtlcDecodes(htlc: PaymentHtlc, env: Env) {
    RouteHasHop(htlc) && (htlc.route.Some? ==> HopTextsDecode(LastHop(htlc).customRecords, env))
  }

  predicate PaymentDecodes(p: Payment, env: Env) {
    forall h :: 0 <= h < |p.htlcs| ==> HtlcDecodes(p.htlcs[h], env)
  }

  predicate PaymentsDecode(payments: seq<Payment>, env: Env) {
    forall i :: 0 <= i < |payments| ==> PaymentDecodes(payments[i], env)
  }

  /** Whether an HTLC is a sent boost: routed, with a Podcasting 2.0 record at its last hop. */
  predicate IsBoostHtlc(htlc: PaymentHtlc)
    requires RouteHasHop(htlc)
  {
    htlc.route.Some? && HasRecord(LastHop(htlc).customRecords, TLV_PODCASTING20)
  }

  /** The record a sent boost starts from: nanoseconds truncated to seconds, the payee's pubkey. */
  function InitialPaymentBoost(p: Payment, hop: Hop): BoostRecord {
    BoostRecord(
      index := p.paymentIndex,
      time := TruncDiv(p.creationTimeNs, 1000000000),
      valueMsat := p.valueMsat,
      valueMsatTotal := p.valueMsat,
      action := 0,
      sender := "", app := "", message := "", podcast := "", episode := "", tlv := "",
      remotePodcast := None, remoteEpisode := None,
      paymentInfo := Some(PaymentRecord(hop.pubKey, 0, "", p.feeMsat)))
  }

  /** The records of a last hop: Podcasting 2.0 records decode, wallet records replace the payment details. */
  function HopRecordsFold(st: Progress, hop: Hop, feeMsat: i64, records: CustomRecords, env: Env): (r: Progress)
    requires HopTextsDecode(records, env)
    ensures r.0.index == st.0.index && r.0.time == st.0.time
    ensures st.1.Keys <= r.1.Keys
    decreases |records|
  {
    if records == [] then st
    else
      var prev := HopRecordsFold(st, hop, feeMsat, records[..|records| - 1], env);
      var (idx, val) := records[|records| - 1];
      if idx == TLV_PODCASTING20 then TlvStep(prev.0, env.utf8(val).value, prev.1, env)
      else if IsWalletKey(idx) then
        (prev.0.(paymentInfo := Some(PaymentRecord(hop.pubKey, idx, env.utf8(val).value, feeMsat))), prev.1)
      else prev
  }

  /** The last wallet record of a hop, if any. */
  function LastWalletRecord(records: CustomRecords): (r: Option<(u64, seq<byte>)>)
    ensures r.Some? ==> IsWalletKey(r.value.0) && r.value in records
    decreases |records|
  {
    if records == [] then None
    else if IsWalletKey(records[|records| - 1].0) then Some(records[|records| - 1])
    else LastWalletRecord(records[..|records| - 1])
  }

  /**
   * The payment details name the hop's pubkey and the payment's fee, with the
   * key and text of the last wallet record, or key 0 and empty text without one.
   */
  lemma {:induction false} HopPaymentInfo(p: Payment, hop: Hop, entries: CacheEntries, records: CustomRecords, env: Env)
    requires HopTextsDecode(records, env)
    ensures var r := HopRecordsFold((InitialPaymentBoost(p, hop), entries), hop, p.feeMsat, records, env).0;
      match LastWalletRecord(records)
      case None => r.paymentInfo == Some(PaymentRecord(hop.pubKey, 0, "", p.feeMsat))
      case Some((key, val)) =>
        env.utf8(val).Some? && r.paymentInfo == Some(PaymentRecord(hop.pubKey, key, env.utf8(val).value, p.feeMsat))
    decreases |records|
  {
    if records != [] {
      HopPaymentInfo(p, hop, entries, records[..|records| - 1], env);
    }
  }

  /** The sent boosts among one payment's HTLCs, in order, and the cache after. */
  function PaymentHtlcsFold(entries: CacheEntries, p: Payment, htlcs: seq<PaymentHtlc>, env: Env)
    : (seq<BoostRecord>, CacheEntries)
    requires forall h :: 0 <= h < |htlcs| ==> HtlcDecodes(htlcs[h], env)
    decreases |htlcs|
  {
    if htlcs == [] then ([], entries)
    else
      var (added, c) := PaymentHtlcsFold(entries, p, htlcs[..|htlcs| - 1], env);
      var htlc := htlcs[|htlcs| - 1];
      assert HtlcDecodes(htlc, env);
      if IsBoostHtlc(htlc) then
        var hop := LastHop(htlc);
        var (b, c') := HopRecordsFold((InitialPaymentBoost(p, hop), c), hop, p.feeMsat, hop.customRecords, env);
        (added + [b], c')
      else (added, c)
  }

  /** How many of the HTLCs are sent boosts. */
  function BoostHtlcCount(htlcs: seq<PaymentHtlc>): nat
    requires forall h :: 0 <= h < |htlcs| ==> RouteHasHop(htlcs[h])
    decreases |htlcs|
  {
    if htlcs == [] then 0
    else BoostHtlcCount(htlcs[..|htlcs| - 1]) + (if IsBoostHtlc(htlcs[|htlcs| - 1]) then 1 else 0)
  }

  /**
   * A payment yields one record per sent-boost HTLC, each carrying the
   * payment's index and time in seconds and payment details with its fee.
   */
  lemma {:induction false} PaymentHtlcsFoldRecords(entries: CacheEntries, p: Payment, htlcs: seq<PaymentHtlc>, env: Env)
    requires forall h :: 0 <= h < |htlcs| ==> HtlcDecodes(htlcs[h], env)
    ensures var added := PaymentHtlcsFold(entries, p, htlcs, env).0;
      |added| == BoostHtlcCount(htlcs) &&
      forall k :: 0 <= k < |added| ==>
        added[k].index == p.paymentIndex && added[k].time == TruncDiv(p.creationTimeNs, 1000000000) &&
        added[k].paymentInfo.Some? && added[k].paymentInfo.value.feeMsat == p.feeMsat
    decreases |htlcs|
  {
    if htlcs != [] {
      PaymentHtlcsFoldRecords(entries, p, htlcs[..|htlcs| - 1], env);
      var htlc := htlcs[|htlcs| - 1];
      if IsBoostHtlc(htlc) {
        var hop := LastHop(htlc);
        var c := PaymentHtlcsFold(entries, p, htlcs[..|htlcs| - 1], env).1;
        HopPaymentInfo(p, hop, c, hop.customRecords, env);
      }
    }
  }

  function PaymentsFold(entries: CacheEntries, payments: seq<Payment>, env: Env): (seq<BoostRecord>, CacheEntries)
    requires PaymentsDecode(payments, env)
    decreases |payments|
  {
    if payments == [] then ([], entries)
    else
      var (added, c) := PaymentsFold(entries, payments[..|payments| - 1], env);
      var p := payments[|payments| - 1];
      var (more, c') := PaymentHtlcsFold(c, p, p.htlcs, env);
      (added + more, c')
  }

  /** the record loop of one sent-boost hop */
  method ScanHopRecords(st: BoostRecord, hop: Hop, feeMsat: i64, cache: RemoteCache, env: Env) returns (b: BoostRecord)
    requires HopTextsDecode(hop.customRecords, env)
    modifies cache
    ensures (b, cache.entries) == HopRecordsFold((st, old(cache.entries)), hop, feeMsat, hop.customRecords, env)
  {
    var records := hop.customRecords;
    b := st;
    var k := 0;
    while k < |records|
      invariant 0 <= k <= |records|
      invariant (b, cache.entries) == HopRecordsFold((st, old(cache.entries)), hop, feeMsat, records[..k], env)
    {
      assert records[..k + 1][..k] == records[..k];
      var (idx, val) := records[k];
      if idx == TLV_PODCASTING20 {
        b := ParsePodcastTlv(b, val, cache, env);
      } else if idx == TLV_WALLET_KEY || idx == TLV_WALLET_ID || idx == TLV_HIVE_ACCOUNT {
        var customValue := env.utf8(val).value;
        b := b.(paymentInfo := Some(PaymentRecord(hop.pubKey, idx, customValue, feeMsat)));
      }
      k := k + 1;
    }
    assert records[..k] == records;
  }

  /** The HTLC loop of one payment: each sent-boost HTLC is decoded and appended. */
  method PollPayment(store: Store, cache: RemoteCache, p: Payment, env: Env)
    requires PaymentDecodes(p, env)
    modifies store, cache
    ensures var (added, entries) := PaymentHtlcsFold(old(cache.entries), p, p.htlcs, env);
      store.payments == old(store.payments) + added && cache.entries == entries
    ensures store.invoices == old(store.invoices) && store.balances == old(store.balances)
    ensures store.sentBoosts == old(store.sentBoosts)
  {
    var h := 0;
    while h < |p.htlcs|
      invariant 0 <= h <= |p.htlcs|
      invariant var (added, entries) := PaymentHtlcsFold(old(cache.entries), p, p.htlcs[..h], env);
        store.payments == old(store.payments) + added && cache.entries == entries
      invariant store.invoices == old(store.invoices) && store.balances == old(store.balances)
      invariant store.sentBoosts == old(store.sentBoosts)
    {
      assert p.htlcs[..h + 1][..h] == p.htlcs[..h];
      var htlc := p.htlcs[h];
      if htlc.route.Some? {
        var hops := htlc.route.value.hops;
        var hop := hops[|hops| - 1];
        if HasRecord(hop.customRecords, TLV_PODCASTING20) {
          var boost := InitialPaymentBoost(p, hop);
          boost := ScanHopRecords(boost, hop, p.feeMsat, cache, env);
          store.AddPayment(boost);
        }
      }
      h := h + 1;
    }
    assert p.htlcs[..h] == p.htlcs;
  }

  /** The payment half of a cycle. */
  method PollPayments(store: Store, cache: RemoteCache, payments: seq<Payment>, env: Env)
    requires PaymentsDecode(payments, env)
    modifies store, cache
    ensures var (added, entries) := PaymentsFold(old(cache.entries), payments, env);
      store.payments == old(store.payments) + added && cache.entries == entries
    ensures store.invoices == old(store.invoices) && store.balances == old(store.balances)
    ensures store.sentBoosts == old(store.sentBoosts)
  {
    var i := 0;
    while i < |payments|
      invariant 0 <= i <= |payments|
      invariant var (added, entries) := PaymentsFold(old(cache.entries), payments[..i], env);
        store.payments == old(store.payments) + added && cache.entries == entries
      invariant store.invoices == old(store.invoices) && store.balances == old(store.balances)
      invariant store.sentBoosts == old(store.sentBoosts)
    {
      assert payments[..i + 1][..i] == payments[..i];
      PollPayment(store, cache, payments[i], env);
      i := i + 1;
    }
    assert payments[..i] == payments;
  }

  // ---------------------------------------------------------------- one cycle

  /** The balance sample stored: the local balance cast to i64, or 0 when the node reports none. */
  function BalanceSample(local: Option<u64>): (sat: i64)
    ensures local.None? ==> sat == 0
    ensures local.Some? && local.value < I64_LIMIT ==> sat == local.value
    ensures local.Some? ==> (sat - local.value) % U64_LIMIT == 0
    ensures local.Some? && local.value >= I64_LIMIT ==> sat < 0
  {
    if local.Some? then U64AsI64(local.value) else 0
  }

  /** What a listing contributes: nothing when the call failed. */
  function ListedInvoices(listing: Result<seq<Invoice>, string>, entries: CacheEntries, env: Env)
    : (seq<BoostRecord>, CacheEntries)
    requires listing.Ok? ==> InvoicesDecode(listing.value, env)
  {
    if listing.Ok? then InvoicesFold(entries, listing.value, env) else ([], entries)
  }

  function ListedPayments(listing: Result<seq<Payment>, string>, entries: CacheEntries, env: Env)
    : (seq<BoostRecord>, CacheEntries)
    requires listing.Ok? ==> PaymentsDecode(listing.value, env)
  {
    if listing.Ok? then PaymentsFold(entries, listing.value, env) else ([], entries)
  }

  /** The payment indices of a listing. */
  function PaymentIndices(payments: seq<Payment>): set<u64> {
    set p | p in payments :: p.paymentIndex
  }

  /** Every record a payment listing adds carries the index of one of the listed payments. */
  lemma {:induction false} PaymentsFoldIndices(entries: CacheEntries, payments: seq<Payment>, env: Env)
    requires PaymentsDecode(payments, env)
    ensures var added := PaymentsFold(entries, payments, env).0;
      forall k :: 0 <= k < |added| ==> added[k].index in PaymentIndices(payments)
    decreases |payments|
  {
    if payments != [] {
      var init := payments[..|payments| - 1];
      var p := payments[|payments| - 1];
      PaymentsFoldIndices(entries, init, env);
      assert forall k :: 0 <= k < |PaymentsFold(entries, init, env).0| ==> PaymentsFold(entries, init, env).0[k].index in PaymentIndices(init);
      var added: seq<BoostRecord> := PaymentsFold(entries, init, env).0;
      var c: CacheEntries := PaymentsFold(entries, init, env).1;
      PaymentHtlcsFoldRecords(c, p, p.htlcs, env);
      var more := PaymentHtlcsFold(c, p, p.htlcs, env).0;
      assert PaymentsFold(entries, payments, env).0 == added + more;
      assert PaymentIndices(init) <= PaymentIndices(payments);
      assert p.paymentIndex in PaymentIndices(payments);
      forall k | 0 <= k < |added + more|
        ensures (added + more)[k].index in PaymentIndices(payments)
      {
        if k < |added| {
          assert (added + more)[k] == added[k];
        } else {
          assert (added + more)[k] == more[k - |added|];
        }
      }
    }
  }

  /**
   * A cycle started from the stored watermark adds no invoice record whose
   * index is already stored, provided the node lists only invoices after
   * the index it was given (the meaning of `index_offset`).
   */
  lemma InvoiceCycleAddsNewIndices(stored: seq<BoostRecord>, listing: Result<seq<Invoice>, string>,
                                   entries: CacheEntries, env: Env)
    requires listing.Ok? ==> InvoicesDecode(listing.value, env)
    requires listing.Ok? ==> forall i :: 0 <= i < |listing.value| ==> listing.value[i].addIndex > MaxIndex(stored)
    ensures var added := ListedInvoices(listing, entries, env).0;
      (forall k :: 0 <= k < |added| ==> added[k].index > MaxIndex(stored)) &&
      forall k, s :: 0 <= k < |added| && 0 <= s < |stored| ==> added[k].index != stored[s].index
  {
    if listing.Ok? {
      InvoicesFoldRecords(entries, listing.value, env);
    }
  }

  /** The same for payments, after the stored payment watermark. */
  lemma PaymentCycleAddsNewIndices(stored: seq<BoostRecord>, listing: Result<seq<Payment>, string>,
                                   entries: CacheEntries, env: Env)
    requires listing.Ok? ==> PaymentsDecode(listing.value, env)
    requires listing.Ok? ==> forall i :: 0 <= i < |listing.value| ==> listing.value[i].paymentIndex > MaxIndex(stored)
    ensures var added := ListedPayments(listing, entries, env).0;
      (forall k :: 0 <= k < |added| ==> added[k].index > MaxIndex(stored)) &&
      forall k, s :: 0 <= k < |added| && 0 <= s < |stored| ==> added[k].index != stored[s].index
  {
    if listing.Ok? {
      PaymentsFoldIndices(entries, listing.value, env);
    }
  }

  /** The balance step: a sample is stored only when the node answered. */
  method RecordBalance(store: Store, node: Node)
    modifies store
    ensures store.balances == old(store.balances) +
              (if node.channelBalance.Ok? then [BalanceSample(node.channelBalance.value)] else [])
    ensures store.invoices == old(store.invoices) && store.payments == old(store.payments)
    ensures store.sentBoosts == old(store.sentBoosts)
  {
    if node.channelBalance.Ok? {
      var currentBalance: i64 := 0;
      if node.channelBalance.value.Some? {
        currentBalance := U64AsI64(node.channelBalance.value.value);
      }
      store.AddWalletBalance(currentBalance);
    }
  }

  /** The invoice step: list after the watermark, store, and re-read the watermark. */
  method InvoiceStage(store: Store, cache: RemoteCache, node: Node, env: Env, currentIndex: u64)
    returns (nextIndex: u64)
    requires node.listInvoices(currentIndex, PAGE).Ok? ==> InvoicesDecode(node.listInvoices(currentIndex, PAGE).value, env)
    modifies store, cache
    ensures var (added, entries) := ListedInvoices(node.listInvoices(currentIndex, PAGE), old(cache.entries), env);
      store.invoices == old(store.invoices) + added && cache.entries == entries
    ensures store.payments == old(store.payments) && store.balances == old(store.balances)
    ensures store.sentBoosts == old(store.sentBoosts)
    ensures nextIndex == MaxIndex(store.invoices) && old(MaxIndex(store.invoices)) <= nextIndex
  {
    var listing := node.listInvoices(currentIndex, PAGE);
    if listing.Ok? {
      PollInvoices(store, cache, listing.value, env);
    }
    var added := ListedInvoices(listing, old(cache.entries), env).0;
    MaxIndexAppend(old(store.invoices), added);
    nextIndex := store.LastBoostIndex();
  }

  /** The payment step: list after the watermark, store, and re-read the watermark. */
  method PaymentStage(store: Store, cache: RemoteCache, node: Node, env: Env, currentPayment: u64)
    returns (nextPayment: u64)
    requires node.listPayments(currentPayment, PAGE).Ok? ==> PaymentsDecode(node.listPayments(currentPayment, PAGE).value, env)
    modifies store, cache
    ensures var (added, entries) := ListedPayments(node.listPayments(currentPayment, PAGE), old(cache.entries), env);
      store.payments == old(store.payments) + added && cache.entries == entries
    ensures store.invoices == old(store.invoices) && store.balances == old(store.balances)
    ensures store.sentBoosts == old(store.sentBoosts)
    ensures nextPayment == MaxIndex(store.payments) && old(MaxIndex(store.payments)) <= nextPayment
  {
    var listing := node.listPayments(currentPayment, PAGE);
    if listing.Ok? {
      PollPayments(store, cache, listing.value, env);
    }
    var added := ListedPayments(listing, old(cache.entries), env).0;
    MaxIndexAppend(old(store.payments), added);
    nextPayment := store.LastPaymentIndex();
  }

  /**
   * One iteration of the main loop: a balance sample, the invoices after the
   * boost watermark, the payments after the payment watermark; the new
   * watermarks are re-read from the store, so they never move backwards.
   */
  method PollCycle(store: Store, cache: RemoteCache, node: Node, env: Env, currentIndex: u64, currentPayment: u64)
    returns (nextIndex: u64, nextPayment: u64)
    requires node.listInvoices(currentIndex, PAGE).Ok? ==> InvoicesDecode(node.listInvoices(currentIndex, PAGE).value, env)
    requires node.listPayments(currentPayment, PAGE).Ok? ==> PaymentsDecode(node.listPayments(currentPayment, PAGE).value, env)
    modifies store, cache
    ensures store.balances == old(store.balances) +
              (if node.channelBalance.Ok? then [BalanceSample(node.channelBalance.value)] else [])
    ensures var (newInvoices, entries1) := ListedInvoices(node.listInvoices(currentIndex, PAGE), old(cache.entries), env);
      var (newPayments, entries2) := ListedPayments(node.listPayments(currentPayment, PAGE), entries1, env);
      store.invoices == old(store.invoices) + newInvoices &&
      store.payments == old(store.payments) + newPayments &&
      cache.entries == entries2
    ensures store.sentBoosts == old(store.sentBoosts)
    ensures nextIndex == MaxIndex(store.invoices) && nextPayment == MaxIndex(store.payments)
    ensures old(MaxIndex(store.invoices)) <= nextIndex && old(MaxIndex(store.payments)) <= nextPayment
  {
    RecordBalance(store, node);
    nextIndex := InvoiceStage(store, cache, node, env, currentIndex);
    nextPayment := PaymentStage(store, cache, node, env, currentPayment);
  }
}
