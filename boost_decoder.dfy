/**
 * The typed view of a Podcasting 2.0 boost payload (`RawBoost`) and the
 * rules by which it overrides the fields of a `BoostRecord`.
 *
 * Every payload field is optional. A text field must be a JSON string or
 * null when present (anything else makes the whole payload fail to decode);
 * an absent `action` stands for "stream"; a numeric field goes through the
 * string-or-number coercion and never fails.
 */
module BoostDecoder {
  import opened Wrappers
  import opened Numbers
  import opened Json
  import opened Records

  /** The fields of the payload the decoder acts on. */
  datatype RawBoost = RawBoost(
    action: Option<string>,
    appName: Option<string>,
    message: Option<string>,
    senderName: Option<string>,
    podcast: Option<string>,
    episode: Option<string>,
    feedId: Option<u64>,
    itemId: Option<u64>,
    ts: Option<u64>,
    valueMsat: Option<u64>,
    valueMsatTotal: Option<u64>,
    remoteFeedGuid: Option<string>,
    remoteItemGuid: Option<string>)

  /** Every field the payload type declares as an optional string. */
  const StringFields: seq<string> := [
    "action", "app_name", "app_version", "boost_link", "message", "name", "pubkey",
    "sender_key", "sender_name", "sender_id", "sig_fields", "signature", "speed", "uuid",
    "podcast", "guid", "url", "episode", "episode_guid", "time",
    "remote_feed_guid", "remote_item_guid"]

  /** `de_optional_string_or_number`: coerce any JSON value into an optional u64. */
  function StringOrNumber(v: Json): (r: Option<u64>)
  {
    match v
    case Str(s) => if s == "" then None else ParseU64(s)
    case Num(n) => if n.UInt? && n.u < U64_LIMIT then Some(n.u) else None
    case _ => Some(0)
  }

  /** The five cases of the coercion, as the payload format promises them. */
  lemma StringOrNumberCases(v: Json)
    ensures v == Str("") ==> StringOrNumber(v) == None
    ensures v.Str? && ParseU64(v.s).Some? ==> StringOrNumber(v) == ParseU64(v.s)
    ensures v.Str? && ParseU64(v.s).None? ==> StringOrNumber(v) == None
    ensures v.Num? ==> (StringOrNumber(v).Some? <==> v.n.UInt? && v.n.u < U64_LIMIT)
    ensures v.Num? && v.n.UInt? && v.n.u < U64_LIMIT ==> StringOrNumber(v) == Some(v.n.u)
    ensures !v.Str? && !v.Num? ==> StringOrNumber(v) == Some(0)
  {
  }

  /** "42" and 42 decode identically: a number and its decimal text agree. */
  lemma StringAndNumberAgree(n: u64)
    ensures StringOrNumber(Str(Decimal(n))) == StringOrNumber(Num(UInt(n))) == Some(n)
  {
    ParseDecimal(n);
  }

  /** A negative or fractional number is no count of millisatoshis. */
  lemma NegativeOrFractionIsNone(v: Json)
    requires v.Num? && (v.n.NegInt? || v.n.Float?)
    ensures StringOrNumber(v) == None
  {
  }

  /** An optional-string slot: absent or null is `None`, a string is `Some`, anything else fails. */
  predicate StringSlotOk(obj: map<string, Json>, name: string) {
    name !in obj || obj[name].Null? || obj[name].Str?
  }

  function StringSlot(obj: map<string, Json>, name: string): Option<string> {
    if name in obj && obj[name].Str? then Some(obj[name].s) else None
  }

  predicate StringSlotsOk(obj: map<string, Json>) {
    forall k :: 0 <= k < |StringFields| ==> StringSlotOk(obj, StringFields[k])
  }

  /** A numeric slot: absent is `None`; a present value is coerced. */
  function NumberSlot(obj: map<string, Json>, name: string): Option<u64> {
    if name in obj then StringOrNumber(obj[name]) else None
  }

  /** `action` defaults to "stream" only when the key is absent; null gives `None`. */
  function ActionSlot(obj: map<string, Json>): Option<string> {
    if "action" in obj then StringSlot(obj, "action") else Some("stream")
  }

  /** Typed decoding of a parsed payload into a `RawBoost`; `None` is a decode error. */
  function DecodeRawBoost(j: Json): (r: Option<RawBoost>)
  {
    if j.Obj? && StringSlotsOk(j.fields) then
      var o := j.fields;
      Some(RawBoost(
        action := ActionSlot(o),
        appName := StringSlot(o, "app_name"),
        message := StringSlot(o, "message"),
        senderName := StringSlot(o, "sender_name"),
        podcast := StringSlot(o, "podcast"),
        episode := StringSlot(o, "episode"),
        feedId := NumberSlot(o, "feedID"),
        itemId := NumberSlot(o, "itemID"),
        ts := NumberSlot(o, "ts"),
        valueMsat := NumberSlot(o, "value_msat"),
        valueMsatTotal := NumberSlot(o, "value_msat_total"),
        remoteFeedGuid := StringSlot(o, "remote_feed_guid"),
        remoteItemGuid := StringSlot(o, "remote_item_guid")))
    else None
  }

  /** Decoding fails exactly when the payload is no object or a text field holds a non-text value. */
  lemma DecodeRawBoostFails(j: Json)
    ensures DecodeRawBoost(j).None? <==>
      !j.Obj? || exists k :: 0 <= k < |StringFields| && !StringSlotOk(j.fields, StringFields[k])
  {
  }

  /** A number where a text field belongs (here `app_version`) spoils the whole payload. */
  lemma MistypedTextFieldFails(o: map<string, Json>, n: Number)
    ensures DecodeRawBoost(Obj(o["app_version" := Num(n)])).None?
  {
    assert StringFields[2] == "app_version";
    assert !StringSlotOk(o["app_version" := Num(n)], StringFields[2]);
  }

  /** The action code stored for a given action text. */
  function ActionCode(a: string): (code: nat)
  {
    match a
    case "stream" => 1
    case "boost" => 2
    case _ => 3
  }

  /** The override rules: each present payload field replaces the record's field. */
  function ApplyRawBoost(boost: BoostRecord, raw: RawBoost): (r: BoostRecord)
  {
    boost.(
      valueMsat := if raw.valueMsat.Some? then U64AsI64(raw.valueMsat.value) else boost.valueMsat,
      action := if raw.action.Some? then ActionCode(raw.action.value) else boost.action,
      sender := if raw.senderName.Some? && raw.senderName.value != "" then raw.senderName.value else boost.sender,
      message := raw.message.GetOr(boost.message),
      app := raw.appName.GetOr(boost.app),
      podcast := raw.podcast.GetOr(boost.podcast),
      episode := raw.episode.GetOr(boost.episode),
      valueMsatTotal := if raw.valueMsatTotal.Some? then U64AsI64(raw.valueMsatTotal.value) else boost.valueMsatTotal)
  }

  /** The parsed payload object a decoded record came from, applied to `boost`. */
  function ApplyObject(boost: BoostRecord, o: map<string, Json>): BoostRecord
    requires StringSlotsOk(o)
  {
    ApplyRawBoost(boost, DecodeRawBoost(Obj(o)).value)
  }

  /** Action mapping, stated on the payload object. */
  lemma ActionMapping(boost: BoostRecord, o: map<string, Json>)
    requires StringSlotsOk(o)
    ensures "action" !in o ==> ApplyObject(boost, o).action == 1
    ensures "action" in o && o["action"] == Str("stream") ==> ApplyObject(boost, o).action == 1
    ensures "action" in o && o["action"] == Str("boost") ==> ApplyObject(boost, o).action == 2
    ensures "action" in o && o["action"].Str? && o["action"].s != "stream" && o["action"].s != "boost" ==>
              ApplyObject(boost, o).action == 3
    ensures "action" in o && o["action"] == Null ==> ApplyObject(boost, o).action == boost.action
  {
  }

  /** The sender is replaced only by a present, non-empty `sender_name`. */
  lemma SenderRule(boost: BoostRecord, o: map<string, Json>)
    requires StringSlotsOk(o)
    ensures ApplyObject(boost, o).sender ==
      if "sender_name" in o && o["sender_name"].Str? && o["sender_name"].s != "" then o["sender_name"].s
      else boost.sender
  {
  }

  /** The other texts are replaced whenever present as a string, even an empty one. */
  lemma TextFieldsRule(boost: BoostRecord, o: map<string, Json>)
    requires StringSlotsOk(o)
    ensures ApplyObject(boost, o).message == if "message" in o && o["message"].Str? then o["message"].s else boost.message
    ensures ApplyObject(boost, o).app == if "app_name" in o && o["app_name"].Str? then o["app_name"].s else boost.app
    ensures ApplyObject(boost, o).podcast == if "podcast" in o && o["podcast"].Str? then o["podcast"].s else boost.podcast
    ensures ApplyObject(boost, o).episode == if "episode" in o && o["episode"].Str? then o["episode"].s else boost.episode
  {
  }

  /** The amounts are replaced by any present value the coercion accepts (a u64 cast to i64). */
  lemma AmountRule(boost: BoostRecord, o: map<string, Json>)
    requires StringSlotsOk(o)
    ensures NumberSlot(o, "value_msat").Some? ==>
              ApplyObject(boost, o).valueMsat == U64AsI64(NumberSlot(o, "value_msat").value)
    ensures NumberSlot(o, "value_msat").None? ==> ApplyObject(boost, o).valueMsat == boost.valueMsat
    ensures NumberSlot(o, "value_msat_total").Some? ==>
              ApplyObject(boost, o).valueMsatTotal == U64AsI64(NumberSlot(o, "value_msat_total").value)
    ensures NumberSlot(o, "value_msat_total").None? ==> ApplyObject(boost, o).valueMsatTotal == boost.valueMsatTotal
  {
  }

  /** The override rules never touch the record's identity, raw text or enrichment. */
  lemma ApplyKeepsIdentity(boost: BoostRecord, raw: RawBoost)
    ensures var r := ApplyRawBoost(boost, raw);
      r.index == boost.index && r.time == boost.time && r.tlv == boost.tlv &&
      r.remotePodcast == boost.remotePodcast && r.remoteEpisode == boost.remoteEpisode &&
      r.paymentInfo == boost.paymentInfo
  {
  }
}
