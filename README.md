# Helipad boost receiver — a Dafny model

Helipad watches a Lightning (LND) node for Podcasting 2.0 "boosts". A boost
is a payment with a JSON payload in custom TLV record 7629169. Helipad stores
each boost it receives and sends. It can also boost back to a sender over
keysend, either to a raw node pubkey or to a lightning address.

This project models the core of that program and proves properties of the
model:

- **TLV decoder** (`BoostDecoder`, `Poller.ParsePodcastTlv`). The payload is
  decoded into a record of optional fields. A numeric field may arrive as a
  string or as a number. Each present field overrides one field of the boost
  record by a fixed rule.
- **Remote identity resolver** (`RemoteGuid`). Podcast and episode titles are
  looked up by guid pair, and the results are memoised in a cache that the
  resolver updates in place.
- **One poll cycle** (`Poller`). The cycle stores a balance sample, then lists
  the invoices after the boost watermark and builds one record per invoice. It
  then lists the payments after the payment watermark and builds one record
  per boost HTLC. Both watermarks are re-read from the store.
- **Keysend construction** (`Lightning`). This covers lightning-address
  validation and the URL, and how a resolved address overrides the pubkey and
  the custom record. It also covers the custom-record map, the pre-image hash
  and the dispatch through the node.
- **Handler rules** (`Handler`). These are the paging parameters of the
  listing endpoints, the reply endpoint and the CSV export loop.

Supporting modules:

- `Numbers` models Rust's `u64`/`i64`, `str::parse`, `Display`, wrapping
  multiplication, `as` casts and truncating division.
- `Json` is a small `serde_json::Value`. `Json.Field`, `Json.AsStr`,
  `Json.AsU64`, `Json.AsObject` and `Json.FromI64` define serde_json's
  `value[key]`, `as_str`, `as_u64`, `as_object` and `json!` of an i64.
  `Handler.Param` defines the handler's `get(..).unwrap_or(&"")` on form
  fields. `Numbers.ParseU64` defines Rust's `str::parse::<u64>` and
  `BoostDecoder.DecodeRawBoost` serde's derived decoder for the TLV payload.
  These are definitions of library behaviour; only the lemmas about them
  are listed below.
- `Base16` is `HEXLOWER`, as in section 8 of RFC 4648.
- `Lnd` holds the node's RPC messages.
- `Records` holds the store's record types.
- `Store` is the store, as a class with append and last-index operations.

Code that changes state in Rust is modelled as Dafny classes and methods.
This covers the cache, the store, the in-place record updates, and the loops
of the poll cycle, `send_boost` and the CSV export. The methods of the poll
cycle, the cache, the address resolution and the reply handler are proved
equal to functions on values, and the lemmas are about those functions.
`Handler.CsvRows`, `Lightning.Dispatch` and the two `send_boost` methods are
proved against postconditions that give their result case by case.

The model treats the following as oracles, passed in as function-valued
parameters:

- the node's RPCs;
- the HTTP requests;
- JSON text parsing and printing;
- UTF-8 decoding and encoding;
- SHA-256 (FIPS 180-4);
- the email-address validator;
- the store's queries.

The 32 random pre-image bytes are a parameter.

## Model

| member | source | states |
|---|---|---|
| Numbers.WrapI64 | src/lnd_poller.rs:333-334 | an i64 product is reduced modulo 2^64 into the i64 range (release-mode wrap-around) |
| Numbers.WrapI64Fits | src/lnd_poller.rs:333-334 | a product that fits in i64 is unchanged by the wrap-around |
| Numbers.U64AsI64 | src/lnd_poller.rs:210 | `u64 as i64` keeps values below 2^63 and maps larger ones to negatives congruent modulo 2^64 |
| Numbers.TruncDiv | src/lnd_poller.rs:394 | i64 division rounds toward zero for either sign of the dividend |
| Numbers.ParseDecimal | src/lnd_poller.rs:90-91 | every u64's decimal text parses back to that u64 |
| Numbers.ParseU64Prefixes | src/lnd_poller.rs:90-94 | `parse::<u64>` accepts a leading '+' and leading zeros, each giving the number's own value |
| Numbers.ParseU64RejectsSignAndOverflow | src/lnd_poller.rs:90-94 | `parse::<u64>` rejects a leading '-' and the decimal text of any value of 2^64 or more |
| Base16.HexLowerEncode | src/lightning.rs:185 | the encoding has two lowercase digits per byte |
| Base16.DecodeEncode | src/lightning.rs:151 | decoding an encoding gives back the bytes |
| Base16.EncodeDecode | src/lightning.rs:151 | a text that decodes is the encoding of its decoding, so only lowercase digits are accepted |
| Base16.DecodeFails | src/lightning.rs:151 | decoding fails exactly on odd length or a character that is not a lowercase hex digit |
| Store.MaxIndex | src/lnd_poller.rs:374 | the last index is the largest stored index, attained, and 0 for an empty table |
| Store.MaxIndexAppend | src/lnd_poller.rs:374 | appending records moves the last index to the larger of the two maxima, never down |
| Store.Store.AddInvoice | src/lnd_poller.rs:362-365 | the invoice table gains exactly the record and every other table is unchanged |
| Store.Store.AddPayment | src/lnd_poller.rs:433-436 | the payment table gains exactly the record and every other table is unchanged |
| Store.Store.AddWalletBalance | src/lnd_poller.rs:315-317 | the balance table gains exactly the sample and every other table is unchanged |
| Store.Store.AddSentBoost | src/handler.rs:746 | the sent-boost table gains exactly the record and every other table is unchanged |
| Store.Store.LastBoostIndex | src/lnd_poller.rs:374 | no stored invoice lies above the returned index, which is stored or 0 |
| Store.Store.LastPaymentIndex | src/lnd_poller.rs:447 | no stored payment lies above the returned index, which is stored or 0 |
| BoostDecoder.StringOrNumberCases | src/lnd_poller.rs:83-111 | "" gives None; a u64 string or number gives it; a non-numeric string, a negative or a fraction gives None; any other value gives Some(0) |
| BoostDecoder.StringAndNumberAgree | src/lnd_poller.rs:86-99 | the text "n" and the number n decode to the same Some(n) |
| BoostDecoder.NegativeOrFractionIsNone | src/lnd_poller.rs:96-105 | a negative or fractional number gives None |
| BoostDecoder.MistypedTextFieldFails | src/lnd_poller.rs:19-20 | a number in `app_version` spoils the whole payload |
| BoostDecoder.ActionMapping | src/lnd_poller.rs:214-220 | absent action gives 1, "stream" 1, "boost" 2, any other text 3, and null leaves the action as it was |
| BoostDecoder.SenderRule | src/lnd_poller.rs:223-225 | the sender is replaced only by a present, non-empty `sender_name` |
| BoostDecoder.TextFieldsRule | src/lnd_poller.rs:228-245 | message, app, podcast and episode are replaced whenever present, even when empty |
| BoostDecoder.AmountRule | src/lnd_poller.rs:209-250 | each amount is replaced by any accepted numeric value, cast to i64, and kept otherwise |
| BoostDecoder.ApplyKeepsIdentity | src/lnd_poller.rs:208-250 | the overrides never touch index, time, raw text, remote names or payment details |
| RemoteGuid.CacheKey | src/lnd_poller.rs:124 | the key is the podcast guid, then one '_', then the episode guid |
| RemoteGuid.CacheKeyCollides | src/lnd_poller.rs:124 | two different guid pairs can share a key |
| RemoteGuid.EpisodeFromResponseFound | src/lnd_poller.rs:169-196 | a result exists exactly when status is "true" and `query` and `value` are objects; its four texts are the named members or "" |
| RemoteGuid.AsWrittenAgreesWhenNoPanic | src/lnd_poller.rs:185-189 | where the check as written does not panic, it agrees with the corrected one |
| RemoteGuid.MissingKeyPanics | src/lnd_poller.rs:185-189 | status "true" with empty `query`/`value` objects panics as written and yields four empty texts when corrected |
| RemoteGuid.FetchApiPodcastEpisodeByGuid | src/lnd_poller.rs:150-197 | a request or JSON error is an Err; a fetched text that parses is Ok of the response check |
| RemoteGuid.ResolveHit | src/lnd_poller.rs:126-129 | a cached key answers from the cache and leaves it unchanged |
| RemoteGuid.ResolveMiss | src/lnd_poller.rs:131-146 | on a miss, found and not-found answers are cached and returned; an error returns None and caches nothing |
| RemoteGuid.ResolveTwice | src/lnd_poller.rs:124-146 | a second lookup of an answered pair needs no API call and agrees with the first |
| RemoteGuid.ResolveExtends | src/lnd_poller.rs:131-146 | the cache only grows and never rewrites an entry |
| RemoteGuid.RemoteCache.FetchPodcastEpisodeByGuid | src/lnd_poller.rs:123-147 | result and new cache are those of the memoised lookup; the API is asked exactly on a miss |
| Lightning.TlvKeysDistinct | src/lightning.rs:11-15 | the five record types are 7629169, 696969, 112111100, 818818, 5482373484, pairwise different |
| Lightning.SplitJoin | src/lightning.rs:91 | the pieces of `split('@')` joined with '@' restore the address |
| Lightning.SplitCount | src/lightning.rs:91 | there is one more piece than '@' characters |
| Lightning.SplitAround | src/lightning.rs:91 | `local@domain` with no other '@' splits into exactly local and domain |
| Lightning.KeysendUrlAccepts | src/lightning.rs:83-95 | an address is accepted exactly when it is a valid email holding exactly one '@'; otherwise "Invalid lightning address" |
| Lightning.KeysendUrlShape | src/lightning.rs:91-97 | the URL is "https://" + domain + "/.well-known/keysend/" + local |
| Lightning.DecodeLnAddressResponse | src/lightning.rs:18-32 | decoding succeeds exactly on an object whose `status`, `tag` and `pubkey` are texts and whose `customData` is an array of objects with text `customKey` and `customValue`; the result holds those members, entries in order |
| Lightning.DecodeCustomData | src/lightning.rs:24-32 | a `customData` array decodes exactly when every entry does, keeping length and order |
| Lightning.ResolveKeysendAddress | src/lightning.rs:82-116 | an invalid address is InvalidAddress and a failed fetch FetchFailed; after a fetch the result is Ok exactly when the text parses and decodes, and is then that decoding, otherwise BadResponse |
| Lightning.ResolveKeysendAddressOk | src/lightning.rs:82-116 | a valid `local@domain` whose fetched answer parses and has every required member resolves to that answer's pubkey and to its custom entries, in order and member by member |
| Lightning.AddressInfoPlainKey | src/lightning.rs:119-122 | without '@' the pubkey, key and value are unchanged and the result is Ok |
| Lightning.AddressInfoOverride | src/lightning.rs:124-135 | with '@' the pubkey is the resolved one; a first custom entry overrides key and value, and a non-numeric key is an error; otherwise they are kept |
| Lightning.AddressInfoFailure | src/lightning.rs:125 | a failed resolution leaves the target unchanged and is returned |
| Lightning.ResolveAddressInfo | src/lightning.rs:118-136 | the three written-through parameters and the result are those of the resolution rules |
| Lightning.KeysendRecordsContents | src/lightning.rs:164-172 | the map holds the pre-image and the payload, plus the custom key only when key and value are both given; the custom key wins |
| Lightning.KeysendRequestHash | src/lightning.rs:151-181 | the request pays `sats` to the decoded pubkey under SHA-256 of the pre-image, which travels in record 5482373484 unless a custom key displaced it |
| Lightning.KeysendRequestBuilt | src/lightning.rs:148-151 | a request is built exactly when resolution succeeds and the pubkey is lowercase hex; a bad pubkey panics |
| Lightning.ResolvedCustomRecordWins | src/lightning.rs:129-172 | an address whose first custom entry is ("696969", "abc") yields record 696969 = "abc", whatever the caller passed |
| Lightning.Dispatch | src/lightning.rs:143-195 | resolution errors and panics end the call; a transport error or a non-empty `payment_error` is an Err; otherwise the payment list is fetched |
| Lightning.SendBoostAsWritten | src/lightning.rs:143-206 | every outcome before the payment listing is Dispatch's, and once the listing is fetched the result is "Failed to find payment sent" even when the payment is found; no path returns Ok |
| Lightning.FirstWithHash | src/lightning.rs:197-203 | the first listed position carrying the hash, or none exactly when no payment carries it |
| Lightning.SendBoost | src/lightning.rs:143-206 | corrected: every outcome before the payment listing is Dispatch's; once listed, the result is Ok of the first payment with the sent hash, or PaymentNotFound exactly when none has it |
| Poller.TlvStep | src/lnd_poller.rs:199-269 | the raw text is always stored; index, time and payment details are kept; the cache only grows |
| Poller.TlvStepUndecodable | src/lnd_poller.rs:203-267 | a payload that does not parse or decode changes only the raw text, and not the cache |
| Poller.TlvStepDecoded | src/lnd_poller.rs:207-263 | a decoded payload applies the override rules; remote names are set exactly when both guids are given and the lookup finds them |
| Poller.ApplyOverrides | src/lnd_poller.rs:208-250 | the field-by-field assignments produce the override rules' record |
| Poller.ParsePodcastTlv | src/lnd_poller.rs:199-269 | the updated record and cache are those of the value-level step |
| Poller.InvoiceRecordsFold | src/lnd_poller.rs:349-354 | decoding records keeps index, time and payment details, and the cache only grows |
| Poller.InvoiceHtlcsFold | src/lnd_poller.rs:348-355 | the same across all HTLCs of an invoice |
| Poller.InvoiceRecordsFoldTlv | src/lnd_poller.rs:349-353 | the stored raw text is that of the last Podcasting 2.0 record, if any |
| Poller.InvoiceRecordsFoldInert | src/lnd_poller.rs:349-355 | records without a Podcasting 2.0 record change nothing |
| Poller.PlainInvoice | src/lnd_poller.rs:330-355 | an invoice with no Podcasting 2.0 record is stored exactly as initialised and the cache is untouched |
| Poller.PlainHtlcs | src/lnd_poller.rs:348-355 | HTLCs without Podcasting 2.0 records leave the record and cache unchanged |
| Poller.InvoicesFoldRecords | src/lnd_poller.rs:327-366 | one record per listed invoice, in order, with its add index, settle date and no payment details |
| Poller.ScanInvoiceRecords | src/lnd_poller.rs:349-354 | the record loop computes the records fold |
| Poller.DecodeInvoice | src/lnd_poller.rs:330-355 | the record built for an invoice is its value-level decoding |
| Poller.PollInvoices | src/lnd_poller.rs:325-371 | the invoice table gains exactly the decoded listing; other tables are unchanged |
| Poller.HopRecordsFold | src/lnd_poller.rs:414-428 | decoding a hop's records keeps index and time; the cache only grows |
| Poller.LastWalletRecord | src/lnd_poller.rs:418-427 | the chosen record is a wallet-key, wallet-id or hive record of the hop |
| Poller.HopPaymentInfo | src/lnd_poller.rs:391-427 | payment details carry the hop's pubkey, the payment's fee and the last wallet record's key and text, or 0 and "" |
| Poller.PaymentHtlcsFoldRecords | src/lnd_poller.rs:381-437 | one record per boost HTLC, with the payment's index, time in seconds and fee |
| Poller.ScanHopRecords | src/lnd_poller.rs:414-428 | the record loop computes the hop fold |
| Poller.PollPayment | src/lnd_poller.rs:381-438 | the payment table gains exactly the decoded boost HTLCs, by last hop only |
| Poller.PollPayments | src/lnd_poller.rs:377-444 | the payment table gains exactly the decoded listing |
| Poller.PaymentsFoldIndices | src/lnd_poller.rs:377-444 | every record a payment listing adds carries the index of one of the listed payments |
| Poller.BalanceSample | src/lnd_poller.rs:309-313 | the sample is 0 without a balance; otherwise it is congruent to the balance modulo 2^64, equal to it below 2^63 and negative from 2^63 up, as `as i64` wraps |
| Poller.RecordBalance | src/lnd_poller.rs:307-322 | one sample is stored exactly when the balance call succeeds |
| Poller.InvoiceStage | src/lnd_poller.rs:324-375 | listing from the watermark with page 500; the new watermark is the store's last index, never lower |
| Poller.PaymentStage | src/lnd_poller.rs:377-448 | listing from the watermark with page 500; the new watermark is the store's last index, never lower |
| Poller.PollCycle | src/lnd_poller.rs:304-448 | one loop iteration: balance, invoices, payments, and both watermarks re-read and monotone |
| Poller.InvoiceCycleAddsNewIndices | src/lnd_poller.rs:302-375 | when the node lists only invoices after the watermark and the watermark is the stored maximum, every added record's index exceeds it, so none repeats a stored index |
| Poller.PaymentCycleAddsNewIndices | src/lnd_poller.rs:303-448 | the same for payment records after the payment watermark |
| Handler.PagingParamsRules | src/handler.rs:288-347 | index and count must be present u64 texts, index checked first, else 400; `old` is set by presence alone |
| Handler.ApiV1Boosts | src/handler.rs:282-368 | parameter errors answer first; a store error is 500 "** Error getting boosts."; otherwise the page |
| Handler.BadPagingSkipsStore | src/handler.rs:288-350 | a bad request is a 400 independent of the store |
| Handler.CsvParams | src/handler.rs:826-906 | paging as above, plus `end`: absent gives 0, non-numeric gives 400 "** 'endex' parameter must be an integer." |
| Handler.MsatToSat | src/handler.rs:923-931 | only amounts above 1000 msat give a positive sat count, rounded down |
| Handler.MsatToSatThreshold | src/handler.rs:924-927 | 1000 msat exports as 0 sats, 1001 as 1 |
| Handler.CsvRows | src/handler.rs:916-962 | rows are numbered from 1 in order and end after the first row reaching the stop index; without `end` or `old` at most one row |
| Handler.CsvExportBoosts | src/handler.rs:820-980 | parameter errors and store errors answer as stated; otherwise the header and the row loop's rows |
| Handler.ReplyRequestRules | src/handler.rs:641-668 | missing or empty index or sats is a 400, then an unreachable node a 503; sender defaults to "Anonymous", message to "" |
| Handler.CheckCustomValue | src/handler.rs:706-708 | a custom key without a value is a 400 "** No reply_custom_value found in boost" |
| Handler.ReplyToPubkey | src/handler.rs:670-679 | a plain reply address is used with the boost's own custom key and value |
| Handler.ReplyToLightningAddress | src/handler.rs:683-704 | a lightning address is replaced by the resolved pubkey; its first custom entry overrides key and value; a bad key or failed resolution is a 503 |
| Handler.ReplyDestinationComplete | src/handler.rs:674-708 | an accepted destination never has a key without a value; a missing address is a 400 |
| Handler.ReplyTlvFields | src/handler.rs:710-719 | the reply payload is action "boost" from "Helipad" for sats*1000 msat, echoing podcast and episode |
| Handler.ReplyStoresSent | src/handler.rs:721-753 | a record is stored exactly when a payment came back; it links the replied-to boost and takes the route's totals, or sats*1000 and fee -1 |
| Handler.ReplyFailuresStoreNothing | src/handler.rs:641-780 | every other path answers 400 or 503, or panics, and stores nothing |
| Handler.ApiV1Reply | src/handler.rs:638-781 | the answer and the stored sent boost are those of the value-level reply; other tables unchanged |

## Left out

- Logging to stdout and stderr is not modelled. The node-info call at `src/lnd_poller.rs:289-296` only logs, so it is left out too.
- `connect_to_lnd` (`src/lightning.rs:45-80`) reads files and opens a TLS connection. The handler sees it only as a boolean `connects`.
- The main loop's repetition, its 9-second sleep and the process exit on a failed connection are left out. One iteration is modelled, with the two starting watermarks as inputs.
- The LRU crate's capacity and eviction order are not modelled. The cache is a plain map.
- The store's idempotency is not modelled. Its query semantics (`get_boosts_from_db` paging) are left to the store as oracle queries. The last index is taken to be the largest stored index.
- Store write failures are only logged by the poller, and the reply handler unwraps them. Here every write succeeds.
- Store.Store.LastBoostIndex and Store.Store.LastPaymentIndex: always succeed. The poller unwraps both reads (`src/lnd_poller.rs:302-303`, `374` and `447`), so a database read error panics the poller in the source. The store here is a value in memory and has no read errors.
- JSON text syntax is not modelled: parsing and printing are oracles. serde's rejection of duplicate keys is not modelled. serde also accepts a JSON array for a struct, positionally. The model treats a non-object as a decode failure for the TLV payload (`BoostDecoder.DecodeRawBoost`), for the keysend answer (`Lightning.DecodeLnAddressResponse`) and for each of its `customData` entries (`Lightning.DecodeCustomData`).
- The source iterates custom records from a hash map, in an order that is not fixed. Each record sequence in the model stands for one such order.
- RemoteGuid.FetchApiPodcastEpisodeByGuid: applies the corrected response check, and so do `Poller.TlvStep`, `Poller.ParsePodcastTlv` and `Poller.PollCycle` through it. On a status-"true" answer lacking one of the four members, the source panics at `src/lnd_poller.rs:185-189`. The model instead caches four empty texts, and the record's remote podcast and episode become empty. The code as written is `RemoteGuid.CheckEpisodeResponseAsWritten`, and `RemoteGuid.AsWrittenAgreesWhenNoPanic` shows the two checks agree on every other answer. The panic is not carried as an outcome through the poller's folds and stage methods.
- Poller.PollCycle: the node's listing order and completeness are not modelled, so the cycle's contract does not say that a following cycle leaves no gap. It only says that the next watermark is the stored maximum. `Poller.InvoiceCycleAddsNewIndices` and `Poller.PaymentCycleAddsNewIndices` give the no-repeat half, under the hypothesis that the node lists only entries after the offset it is given.
- Poller.ParsePodcastTlv: requires the record to decode as UTF-8, because the source unwraps the decoding and panics otherwise (`src/lnd_poller.rs:200`).
- Poller.ScanHopRecords: requires wallet records to decode as UTF-8, because the source unwraps them (`src/lnd_poller.rs:419`).
- Poller.PollPayment: requires every route to have a hop, because `len() - 1` underflows and panics otherwise (`src/lnd_poller.rs:384`).
- The pre-image comes from the thread RNG in the source. Here it is a 32-byte parameter.
- Arithmetic is modelled as release-mode i64 wrap-around. A debug build would panic instead.
- The handler's `send_boost`, `resolve_lightning_address` and `connect_to_lnd(config)` are not the functions of `src/lightning.rs`. Their signatures differ: the payment there carries `payment_route` and `payment_error`. So `Handler` models them as oracles from its own text, and the Lightning and Handler models are not composed.
- Response headers, Handlebars pages, static assets and other endpoints are not modelled. The streams and sent-boost listings share `Handler.PagingParams` and differ only in the query made.
- CSV dates (chrono formatting), `escape_for_csv` and `strip_tags` are not modelled. Rows keep the raw texts.
- The browser script under `webroot/` is not part of this model.

Behaviour of the code that is easy to misread, modelled as written:

- A failed episode lookup (a network or JSON error) is not cached. The next boost with the same guids asks again (`RemoteGuid.ResolveMiss`).
- The `.well-known/keysend` answer is decoded whatever its HTTP status.
- Without an `end` parameter the stop index is 0. A default, non-`old` export therefore stops after its first row (`Handler.CsvRows`).

## Findings

| source | as written | input that shows it | evidently intended | confidence | as-written member | corrected member |
|---|---|---|---|---|---|---|
| src/lightning.rs:197-206 | `Ok(payment);` inside the loop is a discarded expression, so the function falls through to the "Failed to find payment sent" error | any send whose node response has an empty `payment_error` and whose payment list contains a payment with the sent hash | return the first listed payment whose hash equals the sent hash | high, not executed | Lightning.SendBoostAsWritten | Lightning.SendBoost |
| src/lnd_poller.rs:185-189 | `query["podcastguid"]` and the other three lookups index a serde_json `Map`, which panics on a missing key; `unwrap_or_default` never sees it | `{"status": "true", "query": {}, "value": {}}` | a missing member reads as "", like a non-string member | medium, not executed | RemoteGuid.MissingKeyPanics | RemoteGuid.EpisodeFromResponseFound |
