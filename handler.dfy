/**
 * The request-handling rules of the web interface: paging parameters of the
 * listing endpoints, the reply endpoint that boosts back to a sender, and
 * the CSV export loop.
 *
 * Query strings and form bodies arrive already decoded into a map. The
 * store queries, the node connection, the record's own TLV parser, the
 * lightning-address resolver and the send call are oracles in `ReplyEnv`
 * or parameters; their signatures are the ones this file calls.
 */
module Handler {
  import opened Wrappers
  import opened Numbers
  import opened Json
  import opened Base16
  import opened Records
  import opened Store
  import opened Lightning

  type Params = map<string, string>

  datatype CsvRow = CsvRow(
    count: nat,
    index: u64,
    time: i64,
    valueMsat: i64,
    valueSat: i64,
    valueMsatTotal: i64,
    valueSatTotal: i64,
    action: nat,
    sender: string,
    app: string,
    message: string,
    podcast: string,
    episode: string,
    remotePodcast: string,
    remoteEpisode: string)

  /** Response bodies, kept as the values that would be serialised. */
  datatype Body = Text(text: string) | BoostList(boosts: seq<BoostRecord>) | JsonDoc(doc: Json)
                | CsvDoc(header: string, rows: seq<CsvRow>)

  datatype Response = Response(status: nat, body: Body)

  function BadRequest(message: string): Response { Response(400, Text(message)) }
  function Unavailable(message: string): Response { Response(503, Text(message)) }

  const INDEX_REQUIRED := "** 'index' is a required parameter and must be an unsigned integer."
  const COUNT_REQUIRED := "** 'count' is a required parameter and must be an unsigned integer."
  const END_NOT_INTEGER := "** 'endex' parameter must be an integer."
  const BOOSTS_FAILED := "** Error getting boosts."

  // ---------------------------------------------------------------- paging

  datatype Paging = Paging(index: u64, count: u64, older: bool)

  /** The `index`, `count` and `old` parameters of the listing endpoints. */
  function PagingParams(params: Params): (r: Result<Paging, Response>)
  {
    if "index" !in params || ParseU64(params["index"]).None? then Err(BadRequest(INDEX_REQUIRED))
    else if "count" !in params || ParseU64(params["count"]).None? then Err(BadRequest(COUNT_REQUIRED))
    else Ok(Paging(ParseU64(params["index"]).value, ParseU64(params["count"]).value, "old" in params))
  }

  /**
   * Both numbers must be present and unsigned decimals, `index` checked
   * first; `old` is set by the key alone, whatever its value.
   */
  lemma PagingParamsRules(params: Params)
    ensures PagingParams(params).Ok? <==>
      "index" in params && ParseU64(params["index"]).Some? && "count" in params && ParseU64(params["count"]).Some?
    ensures PagingParams(params).Ok? ==>
      var p := PagingParams(params).value;
      Some(p.index) == ParseU64(params["index"]) && Some(p.count) == ParseU64(params["count"]) &&
      (p.older <==> "old" in params)
    ensures ("index" !in params || ParseU64(params["index"]).None?) ==> PagingParams(params) == Err(BadRequest(INDEX_REQUIRED))
    ensures PagingParams(params).Err? ==> PagingParams(params).error.status == 400
  {
  }

  /** A query the store answers with a page of records: (index, count, old, descending). */
  type BoostQuery = (u64, u64, bool, bool) -> Result<seq<BoostRecord>, string>

  /** `api_v1_boosts`. */
  function ApiV1Boosts(params: Params, getBoosts: BoostQuery): (r: Response)
    ensures PagingParams(params).Err? ==> r == PagingParams(params).error
    ensures PagingParams(params).Ok? ==>
      var p := PagingParams(params).value;
      match getBoosts(p.index, p.count, p.older, true)
      case Ok(boosts) => r == Response(200, BoostList(boosts))
      case Err(_) => r == Response(500, Text(BOOSTS_FAILED))
  {
    match PagingParams(params)
    case Err(resp) => resp
    case Ok(p) =>
      match getBoosts(p.index, p.count, p.older, true)
      case Ok(boosts) => Response(200, BoostList(boosts))
      case Err(_) => Response(500, Text(BOOSTS_FAILED))
  }

  /** A malformed request is answered 400 before the store is asked: any two stores give the same answer. */
  lemma BadPagingSkipsStore(params: Params, db1: BoostQuery, db2: BoostQuery)
    requires PagingParams(params).Err?
    ensures ApiV1Boosts(params, db1) == ApiV1Boosts(params, db2) && ApiV1Boosts(params, db1).status == 400
  {
  }

  // ---------------------------------------------------------------- csv export

  const CSV_HEADER := "count,index,time,value_msat,value_sat,value_msat_total,value_sat_total,action,sender,app,message,podcast,episode,remote_podcast,remote_episode\n"

  /** The export parameters: paging, plus an optional stop index `end` (0 when absent). */
  function CsvParams(params: Params): (r: Result<(Paging, u64), Response>)
    ensures PagingParams(params).Err? ==> r == Err(PagingParams(params).error)
    ensures PagingParams(params).Ok? && "end" !in params ==> r == Ok((PagingParams(params).value, 0))
    ensures PagingParams(params).Ok? && "end" in params ==>
      match ParseU64(params["end"])
      case None => r == Err(BadRequest(END_NOT_INTEGER))
      case Some(e) => r == Ok((PagingParams(params).value, e))
  {
    match PagingParams(params)
    case Err(resp) => Err(resp)
    case Ok(p) =>
      if "end" in params then
        match ParseU64(params["end"])
        case None => Err(BadRequest(END_NOT_INTEGER))
        case Some(e) => Ok((p, e))
      else Ok((p, 0))
  }

  /** Whole satoshis of an amount: only amounts above 1000 msat round down to a positive count. */
  function MsatToSat(msat: i64): (sat: i64)
    ensures msat > 1000 ==> sat > 0 && sat * 1000 <= msat < sat * 1000 + 1000
    ensures msat <= 1000 ==> sat == 0
  {
    if msat > 1000 then msat / 1000 else 0
  }

  /** Exactly one satoshi's worth is exported as 0, one more millisatoshi than that as 1. */
  lemma MsatToSatThreshold()
    ensures MsatToSat(1000) == 0 && MsatToSat(1001) == 1 && MsatToSat(1999) == 1 && MsatToSat(2000) == 2
  {
  }

  /** The row exported for a boost, numbered `count`; dates and CSV escaping are not modelled. */
  function CsvRowOf(b: BoostRecord, count: nat): CsvRow {
    CsvRow(count, b.index, b.time, b.valueMsat, MsatToSat(b.valueMsat), b.valueMsatTotal, MsatToSat(b.valueMsatTotal),
           b.action, b.sender, b.app, b.message, b.podcast, b.episode,
           b.remotePodcast.GetOr(""), b.remoteEpisode.GetOr(""))
  }

  /** The export stops after a row at or past the stop index, in the direction of the listing. */
  predicate StopsAt(b: BoostRecord, older: bool, endex: u64) {
    (older && b.index <= endex) || (!older && b.index >= endex)
  }

  /**
   * The row loop of `csv_export_boosts`: rows are numbered from 1 in listing
   * order, and the loop ends after the first row that reaches the stop index.
   */
  method CsvRows(boosts: seq<BoostRecord>, older: bool, endex: u64) returns (rows: seq<CsvRow>)
    ensures |rows| <= |boosts|
    ensures forall i :: 0 <= i < |rows| ==> rows[i] == CsvRowOf(boosts[i], i + 1)
    ensures forall i :: 0 <= i < |rows| - 1 ==> !StopsAt(boosts[i], older, endex)
    ensures |rows| < |boosts| ==> |rows| > 0 && StopsAt(boosts[|rows| - 1], older, endex)
    ensures !older && endex == 0 ==> |rows| == if boosts == [] then 0 else 1
  {
    rows := [];
    var count: nat := 1;
    var i := 0;
    while i < |boosts|
      invariant 0 <= i <= |boosts|
      invariant |rows| == i && count == i + 1
      invariant forall j :: 0 <= j < i ==> rows[j] == CsvRowOf(boosts[j], j + 1)
      invariant forall j :: 0 <= j < i ==> !StopsAt(boosts[j], older, endex)
    {
      var boost := boosts[i];
      rows := rows + [CsvRowOf(boost, count)];
      count := count + 1;
      if (older && boost.index <= endex) || (!older && boost.index >= endex) {
        break;
      }
      i := i + 1;
    }
    if !older && endex == 0 && boosts != [] {
      assert StopsAt(boosts[0], older, endex);
    }
  }

  /** `csv_export_boosts`: parameters, then one ascending-order query, then the row loop. */
  method CsvExportBoosts(params: Params, getBoosts: BoostQuery) returns (r: Response)
    ensures CsvParams(params).Err? ==> r == CsvParams(params).error
    ensures CsvParams(params).Ok? ==>
      var (p, endex) := CsvParams(params).value;
      match getBoosts(p.index, p.count, p.older, false)
      case Err(_) => r == Response(500, Text(BOOSTS_FAILED))
      case Ok(boosts) =>
        r.status == 200 && r.body.CsvDoc? && r.body.header == CSV_HEADER &&
        var rows := r.body.rows;
        |rows| <= |boosts| &&
        (forall i :: 0 <= i < |rows| ==> rows[i] == CsvRowOf(boosts[i], i + 1)) &&
        (forall i :: 0 <= i < |rows| - 1 ==> !StopsAt(boosts[i], p.older, endex)) &&
        (|rows| < |boosts| ==> |rows| > 0 && StopsAt(boosts[|rows| - 1], p.older, endex))
  {
    var parsed := CsvParams(params);
    if parsed.Err? {
      return parsed.error;
    }
    var (p, endex) := parsed.value;
    var answer := getBoosts(p.index, p.count, p.older, false);
    if answer.Err? {
      return Response(500, Text(BOOSTS_FAILED));
    }
    var rows := CsvRows(answer.value, p.older, endex);
    r := Response(200, CsvDoc(CSV_HEADER, rows));
  }

  // ---------------------------------------------------------------- reply

  const NO_INDEX := "** No index specified."
  const NO_SATS := "** No sats specified."
  const LND_UNREACHABLE := "** Error connecting to LND."
  const NO_REPLY_ADDRESS := "** No reply_address found in boost"
  const UNRESOLVED := "** Unable to resolve lightning address: "
  const BAD_CUSTOM_KEY := "** Unable to parse lightning address custom key"
  const NO_CUSTOM_VALUE := "** No reply_custom_value found in boost"
  const SEND_FAILED := "** Error sending boost: "

  /** Totals of the route a payment took. */
  datatype RouteTotals = RouteTotals(totalAmtMsat: i64, totalFeesMsat: i64)

  /** The payment the send call returns, as this file reads it. */
  datatype SentPayment = SentPayment(paymentHash: seq<byte>, paymentRoute: Option<RouteTotals>, paymentError: string)

  datatype ReplyEnv = ReplyEnv(
    connects: bool,
    singleBoost: u64 -> Option<BoostRecord>,
    parseTlv: BoostRecord -> Option<Json>,
    resolveLightningAddress: string -> Result<LnAddressResponse, string>,
    sendBoost: (string, Option<u64>, Option<string>, i64, Json) -> Result<SentPayment, string>,
    jsonText: Json -> string,
    version: string)

  /** A handler either answers, or panics on an `unwrap`. */
  datatype ReplyOutcome = Responded(response: Response) | HandlerPanicked

  /** The validated inputs of a reply. */
  datatype ReplyRequest = ReplyRequest(index: u64, sats: i64, sender: string, message: string, tlv: Json)

  /** A form field, reading a missing one as empty. */
  function Param(post: Params, key: string): (v: string)
    ensures key in post ==> v == post[key]
    ensures key !in post ==> v == ""
  {
    if key in post then post[key] else ""
  }

  /**
   * The first part of `api_v1_reply`: both required fields, the node
   * connection, the two numeric parses, the original boost and its TLV
   * (the last four unwrapped, so a failure panics).
   */
  function ReplyRequestOf(post: Params, env: ReplyEnv): Result<ReplyRequest, ReplyOutcome>
  {
    if Param(post, "index") == "" then Err(Responded(BadRequest(NO_INDEX)))
    else if Param(post, "sats") == "" then Err(Responded(BadRequest(NO_SATS)))
    else if !env.connects then Err(Responded(Unavailable(LND_UNREACHABLE)))
    else
      match (ParseU64(post["index"]), ParseI64(post["sats"]))
      case (Some(index), Some(sats)) =>
        (match env.singleBoost(index)
         case None => Err(HandlerPanicked)
         case Some(boost) =>
           match env.parseTlv(boost)
           case None => Err(HandlerPanicked)
           case Some(tlv) =>
             Ok(ReplyRequest(index, sats,
               if "sender" in post then post["sender"] else "Anonymous",
               if "message" in post then post["message"] else "",
               tlv)))
      case _ => Err(HandlerPanicked)
  }

  /** Missing or empty `index` or `sats` is a 400, checked before anything else. */
  lemma ReplyRequestRules(post: Params, env: ReplyEnv)
    ensures Param(post, "index") == "" ==> ReplyRequestOf(post, env) == Err(Responded(BadRequest(NO_INDEX)))
    ensures Param(post, "index") != "" && Param(post, "sats") == "" ==>
              ReplyRequestOf(post, env) == Err(Responded(BadRequest(NO_SATS)))
    ensures Param(post, "index") != "" && Param(post, "sats") != "" && !env.connects ==>
              ReplyRequestOf(post, env) == Err(Responded(Unavailable(LND_UNREACHABLE)))
    ensures ReplyRequestOf(post, env).Ok? ==>
      var req := ReplyRequestOf(post, env).value;
      Some(req.index) == ParseU64(post["index"]) && Some(req.sats) == ParseI64(post["sats"]) &&
      req.sender == (if "sender" in post then post["sender"] else "Anonymous") &&
      req.message == (if "message" in post then post["message"] else "")
  {
  }

  /** A custom key needs a value to go with it. */
  function CheckCustomValue(t: Target): (r: Result<Target, Response>)
    ensures r.Ok? <==> !(t.customKey.Some? && t.customValue.None?)
    ensures r.Ok? ==> r.value == t
    ensures r.Err? ==> r.error == BadRequest(NO_CUSTOM_VALUE)
  {
    if t.customKey.Some? && t.customValue.None? then Err(BadRequest(NO_CUSTOM_VALUE)) else Ok(t)
  }

  /**
   * Where the reply goes: the boost's `reply_address`, `reply_custom_key` (an
   * unsigned JSON number) and `reply_custom_value` (a JSON string); a
   * lightning address is resolved, and its first custom entry overrides both.
   */
  function ReplyDestination(tlv: Json, env: ReplyEnv): Result<Target, Response>
  {
    match AsStr(Field(tlv, "reply_address"))
    case None => Err(BadRequest(NO_REPLY_ADDRESS))
    case Some(address) =>
      var key := AsU64(Field(tlv, "reply_custom_key"));
      var value := AsStr(Field(tlv, "reply_custom_value"));
      if '@' !in address then CheckCustomValue(Target(address, key, value))
      else
        match env.resolveLightningAddress(address)
        case Err(e) => Err(Unavailable(UNRESOLVED + e))
        case Ok(info) =>
          if |info.customData| == 0 then CheckCustomValue(Target(info.pubkey, key, value))
          else
            match ParseU64(info.customData[0].customKey)
            case None => Err(Unavailable(BAD_CUSTOM_KEY))
            case Some(k) => CheckCustomValue(Target(info.pubkey, Some(k), Some(info.customData[0].customValue)))
  }

  /** A plain pubkey is used as given, with the boost's own custom key and value. */
  lemma ReplyToPubkey(tlv: Json, env: ReplyEnv, address: string)
    requires Field(tlv, "reply_address") == Str(address) && '@' !in address
    ensures var t := Target(address, AsU64(Field(tlv, "reply_custom_key")), AsStr(Field(tlv, "reply_custom_value")));
      ReplyDestination(tlv, env) == CheckCustomValue(t)
  {
  }

  /**
   * A lightning address is replaced by the resolved pubkey; a first custom
   * entry overrides key and value (a non-numeric key is a 503), otherwise the
   * boost's own are kept; a failed resolution is a 503 naming the error.
   */
  lemma ReplyToLightningAddress(tlv: Json, env: ReplyEnv, address: string)
    requires Field(tlv, "reply_address") == Str(address) && '@' in address
    ensures match env.resolveLightningAddress(address)
      case Err(e) => ReplyDestination(tlv, env) == Err(Unavailable(UNRESOLVED + e))
      case Ok(info) =>
        var d := ReplyDestination(tlv, env);
        (d.Ok? ==> d.value.pubKey == info.pubkey) &&
        (|info.customData| > 0 ==>
          (ParseU64(info.customData[0].customKey).None? ==> d == Err(Unavailable(BAD_CUSTOM_KEY))) &&
          (ParseU64(info.customData[0].customKey).Some? ==>
            d == Ok(Target(info.pubkey, ParseU64(info.customData[0].customKey), Some(info.customData[0].customValue))))) &&
        (|info.customData| == 0 ==>
          d == CheckCustomValue(Target(info.pubkey, AsU64(Field(tlv, "reply_custom_key")), AsStr(Field(tlv, "reply_custom_value")))))
  {
  }

  /** Every accepted destination has a value when it has a custom key; a missing address is a 400. */
  lemma ReplyDestinationComplete(tlv: Json, env: ReplyEnv)
    ensures ReplyDestination(tlv, env).Ok? ==>
      !(ReplyDestination(tlv, env).value.customKey.Some? && ReplyDestination(tlv, env).value.customValue.None?)
    ensures !Field(tlv, "reply_address").Str? ==> ReplyDestination(tlv, env) == Err(BadRequest(NO_REPLY_ADDRESS))
  {
  }

  /** The Podcasting 2.0 payload of the reply; the amount is multiplied in wrapping i64 arithmetic. */
  function ReplyTlv(req: ReplyRequest, version: string): Json {
    Obj(map[
      "app_name" := Str("Helipad"),
      "app_version" := Str(version),
      "podcast" := Field(req.tlv, "podcast"),
      "episode" := Field(req.tlv, "episode"),
      "sender_name" := Str(req.sender),
      "message" := Str(req.message),
      "action" := Str("boost"),
      "value_msat_total" := FromI64(WrapI64(req.sats * 1000))])
  }

  /** The reply is a boost from "Helipad" for sats*1000 msat, echoing the original's podcast and episode. */
  lemma ReplyTlvFields(req: ReplyRequest, version: string)
    ensures var j := ReplyTlv(req, version);
      Field(j, "action") == Str("boost") && Field(j, "app_name") == Str("Helipad") &&
      Field(j, "sender_name") == Str(req.sender) && Field(j, "message") == Str(req.message) &&
      Field(j, "podcast") == Field(req.tlv, "podcast") && Field(j, "episode") == Field(req.tlv, "episode") &&
      Field(j, "value_msat_total") == FromI64(WrapI64(req.sats * 1000)) &&
      (I64_MIN <= req.sats * 1000 < I64_LIMIT ==> Field(j, "value_msat_total") == FromI64(req.sats * 1000))
  {
    if I64_MIN <= req.sats * 1000 < I64_LIMIT {
      WrapI64Fits(req.sats * 1000);
    }
  }

  /** The record of a sent reply: the route's totals replace the defaults when there is a route. */
  function SentBoostOf(t: Target, req: ReplyRequest, replyTlv: Json, payment: SentPayment, env: ReplyEnv)
    : SentBoostRecord
  {
    var initial := SentBoostRecord(
      pubkey := t.pubKey,
      customKey := t.customKey,
      customValue := t.customValue,
      sender := req.sender,
      message := req.message,
      podcast := AsStr(Field(req.tlv, "podcast")).GetOr(""),
      episode := AsStr(Field(req.tlv, "episode")).GetOr(""),
      totalAmtMsat := WrapI64(req.sats * 1000),
      totalFeesMsat := -1,
      paymentHash := HexLowerEncode(payment.paymentHash),
      replyBoostIndex := Some(req.index),
      tlv := env.jsonText(replyTlv));
    match payment.paymentRoute
    case Some(route) => initial.(totalAmtMsat := route.totalAmtMsat, totalFeesMsat := route.totalFeesMsat)
    case None => initial
  }

  /** The answer of a successful send: success exactly when the node reported no error. */
  function ReplyAnswer(payment: SentPayment): Response {
    Response(200, JsonDoc(Obj(map["success" := Bool(payment.paymentError == ""), "message" := Str(payment.paymentError)])))
  }

  /** `api_v1_reply` on values: its outcome and the sent-boost records it stores. */
  function Reply(post: Params, env: ReplyEnv): (ReplyOutcome, seq<SentBoostRecord>)
  {
    match ReplyRequestOf(post, env)
    case Err(o) => (o, [])
    case Ok(req) =>
      match ReplyDestination(req.tlv, env)
      case Err(resp) => (Responded(resp), [])
      case Ok(t) =>
        var replyTlv := ReplyTlv(req, env.version);
        match env.sendBoost(t.pubKey, t.customKey, t.customValue, req.sats, replyTlv)
        case Err(e) => (Responded(Unavailable(SEND_FAILED + e)), [])
        case Ok(payment) => (Responded(ReplyAnswer(payment)), [SentBoostOf(t, req, replyTlv, payment, env)])
  }

  /**
   * A record is stored exactly when the send call returned a payment, and then
   * the answer is 200; it points back at the replied-to boost, goes where the
   * destination rules said, and carries the route's totals, or sats*1000 and
   * a fee of -1 when the payment has no route.
   */
  lemma ReplyStoresSent(post: Params, env: ReplyEnv)
    ensures var (outcome, stored) := Reply(post, env);
      |stored| <= 1 &&
      (|stored| == 1 ==> outcome.Responded? && outcome.response.status == 200)
    ensures var (outcome, stored) := Reply(post, env);
      |stored| == 1 ==>
        ReplyRequestOf(post, env).Ok? &&
        var req := ReplyRequestOf(post, env).value;
        ReplyDestination(req.tlv, env).Ok? &&
        var t := ReplyDestination(req.tlv, env).value;
        var sent := env.sendBoost(t.pubKey, t.customKey, t.customValue, req.sats, ReplyTlv(req, env.version));
        sent.Ok? &&
        stored[0].replyBoostIndex == Some(req.index) && Some(req.index) == ParseU64(post["index"]) &&
        stored[0].pubkey == t.pubKey && stored[0].customKey == t.customKey && stored[0].customValue == t.customValue &&
        stored[0].paymentHash == HexLowerEncode(sent.value.paymentHash) &&
        (sent.value.paymentRoute.Some? ==>
          stored[0].totalAmtMsat == sent.value.paymentRoute.value.totalAmtMsat &&
          stored[0].totalFeesMsat == sent.value.paymentRoute.value.totalFeesMsat) &&
        (sent.value.paymentRoute.None? ==>
          stored[0].totalAmtMsat == WrapI64(req.sats * 1000) && stored[0].totalFeesMsat == -1) &&
        outcome == Responded(ReplyAnswer(sent.value))
  {
  }

  /** Every path that does not send answers with an error status, or panics, and stores nothing. */
  lemma ReplyFailuresStoreNothing(post: Params, env: ReplyEnv)
    ensures var (outcome, stored) := Reply(post, env);
      stored == [] ==> outcome == HandlerPanicked || (outcome.Responded? && outcome.response.status in {400, 503})
  {
  }

  /** `api_v1_reply`, reassigning the destination in place and storing the sent boost. */
  method ApiV1Reply(post: Params, store: Store, env: ReplyEnv) returns (out: ReplyOutcome)
    modifies store
    ensures var (outcome, stored) := Reply(post, env);
      out == outcome && store.sentBoosts == old(store.sentBoosts) + stored
    ensures store.invoices == old(store.invoices) && store.payments == old(store.payments)
    ensures store.balances == old(store.balances)
  {
    var request := ReplyRequestOf(post, env);
    if request.Err? {
      return request.error;
    }
    var req := request.value;
    var tlv := req.tlv;

    var replyAddress := AsStr(Field(tlv, "reply_address"));
    var customKey := AsU64(Field(tlv, "reply_custom_key"));
    var customValue := AsStr(Field(tlv, "reply_custom_value"));
    if replyAddress.None? {
      return Responded(BadRequest(NO_REPLY_ADDRESS));
    }
    var pubKey := replyAddress.value;
    if '@' in pubKey {
      var resolved := env.resolveLightningAddress(pubKey);
      if resolved.Err? {
        return Responded(Unavailable(UNRESOLVED + resolved.error));
      }
      var info := resolved.value;
      pubKey := info.pubkey;
      if |info.customData| > 0 {
        var key := ParseU64(info.customData[0].customKey);
        if key.None? {
          return Responded(Unavailable(BAD_CUSTOM_KEY));
        }
        customKey := key;
        customValue := Some(info.customData[0].customValue);
      }
    }
    if customKey.Some? && customValue.None? {
      return Responded(BadRequest(NO_CUSTOM_VALUE));
    }
    assert ReplyDestination(tlv, env) == Ok(Target(pubKey, customKey, customValue));

    var replyTlv := ReplyTlv(req, env.version);
    var sent := env.sendBoost(pubKey, customKey, customValue, req.sats, replyTlv);
    if sent.Err? {
      return Responded(Unavailable(SEND_FAILED + sent.error));
    }
    var payment := sent.value;
    var sentBoost := SentBoostRecord(
      pubkey := pubKey,
      customKey := customKey,
      customValue := customValue,
      sender := req.sender,
      message := req.message,
      podcast := AsStr(Field(tlv, "podcast")).GetOr(""),
      episode := AsStr(Field(tlv, "episode")).GetOr(""),
      totalAmtMsat := WrapI64(req.sats * 1000),
      totalFeesMsat := -1,
      paymentHash := HexLowerEncode(payment.paymentHash),
      replyBoostIndex := Some(req.index),
      tlv := env.jsonText(replyTlv));
    if payment.paymentRoute.Some? {
      sentBoost := sentBoost.(totalAmtMsat := payment.paymentRoute.value.totalAmtMsat,
                              totalFeesMsat := payment.paymentRoute.value.totalFeesMsat);
    }
    store.AddSentBoost(sentBoost);
    out := Responded(ReplyAnswer(payment));
  }
}
