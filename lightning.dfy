/**
 * Outbound keysend construction: lightning-address resolution, the custom
 * records of a keysend payment, and dispatch through the node.
 *
 * The HTTP fetch, JSON text parsing and printing, UTF-8 encoding, SHA-256
 * (FIPS 180-4), the email-address validator and the node's RPCs are oracles
 * gathered in `LnEnv`; the 32 random pre-image bytes are a parameter.
 */
module Lightning {
  import opened Wrappers
  import opened Numbers
  import opened Json
  import opened Base16
  import opened Lnd

  // TLV record types of the satoshis.stream registry
  const TLV_PODCASTING20: u64 := 7629169
  const TLV_WALLET_KEY: u64 := 696969
  const TLV_WALLET_ID: u64 := 112111100
  const TLV_HIVE_ACCOUNT: u64 := 818818
  const TLV_KEYSEND: u64 := 5482373484

  /** The five record types are pairwise different, so no two roles share a key. */
  lemma TlvKeysDistinct()
    ensures |{TLV_PODCASTING20, TLV_WALLET_KEY, TLV_WALLET_ID, TLV_HIVE_ACCOUNT, TLV_KEYSEND}| == 5
  {
  }

  datatype LnAddressCustomData = LnAddressCustomData(customKey: string, customValue: string)

  datatype LnAddressResponse = LnAddressResponse(
    status: string,
    tag: string,
    pubkey: string,
    customData: seq<LnAddressCustomData>)

  datatype LnError = InvalidAddress | FetchFailed(reason: string) | BadResponse | BadCustomKey

  datatype LnEnv = LnEnv(
    isValidEmail: string -> bool,
    httpGet: string -> Result<string, string>,
    parseJson: string -> Option<Json>,
    toJsonPretty: Json -> string,
    utf8Bytes: string -> seq<byte>,
    sha256: seq<byte> -> seq<byte>,
    sendPaymentSync: SendRequest -> Result<SendResponse, string>,
    listPayments: (u64, u64) -> Result<seq<Payment>, string>)

  // ---------------------------------------------------------------- splitting on '@'

  function Count(s: string, c: char): nat {
    if s == [] then 0 else (if s[0] == c then 1 else 0) + Count(s[1..], c)
  }

  lemma {:induction false} CountZero(s: string, c: char)
    ensures Count(s, c) == 0 <==> c !in s
  {
    if s != [] {
      CountZero(s[1..], c);
      assert c in s <==> s[0] == c || c in s[1..];
    }
  }

  /** `s.split(sep)`: the pieces between separators, empty ones included. */
  function Split(s: string, sep: char): (parts: seq<string>)
    ensures |parts| >= 1
  {
    if s == [] then [""]
    else
      var rest := Split(s[1..], sep);
      if s[0] == sep then [""] + rest else [[s[0]] + rest[0]] + rest[1..]
  }

  function Join(parts: seq<string>, sep: char): string
    requires |parts| >= 1
  {
    if |parts| == 1 then parts[0] else parts[0] + [sep] + Join(parts[1..], sep)
  }

  /** Joining the pieces back with the separator restores the text. */
  lemma {:induction false} SplitJoin(s: string, sep: char)
    ensures Join(Split(s, sep), sep) == s
  {
    if s != [] {
      SplitJoin(s[1..], sep);
      var rest := Split(s[1..], sep);
      if s[0] != sep && |rest| > 1 {
        var parts := Split(s, sep);
        assert parts[1..] == rest[1..];
        assert Join(rest, sep) == rest[0] + [sep] + Join(rest[1..], sep);
      }
    }
  }

  /** There is one more piece than separators. */
  lemma {:induction false} SplitCount(s: string, sep: char)
    ensures |Split(s, sep)| == Count(s, sep) + 1
  {
    if s != [] {
      SplitCount(s[1..], sep);
    }
  }

  lemma {:induction false} SplitWithout(s: string, sep: char)
    requires sep !in s
    ensures Split(s, sep) == [s]
  {
    if s != [] {
      assert sep !in s[1..] && s[0] != sep;
      SplitWithout(s[1..], sep);
      assert [s[0]] + s[1..] == s;
    }
  }

  /** Text with one separator splits into the parts around it. */
  lemma {:induction false} SplitAround(local: string, domain: string, sep: char)
    requires sep !in local && sep !in domain
    ensures Split(local + [sep] + domain, sep) == [local, domain]
  {
    var s := local + [sep] + domain;
    if local == [] {
      assert s[1..] == domain;
      SplitWithout(domain, sep);
    } else {
      assert s[1..] == local[1..] + [sep] + domain;
      SplitAround(local[1..], domain, sep);
      assert [local[0]] + local[1..] == local;
    }
  }

  // ---------------------------------------------------------------- address resolution

  /** The validation and URL part of `resolve_keysend_address`. */
  function KeysendUrl(address: string, isValidEmail: string -> bool): (r: Result<string, LnError>)
  {
    if '@' !in address then Err(InvalidAddress)
    else if !isValidEmail(address) then Err(InvalidAddress)
    else
      var parts := Split(address, '@');
      if |parts| != 2 then Err(InvalidAddress)
      else Ok("https://" + parts[1] + "/.well-known/keysend/" + parts[0])
  }

  /** An address is accepted exactly when the validator accepts it and it holds exactly one '@'. */
  lemma KeysendUrlAccepts(address: string, isValidEmail: string -> bool)
    ensures KeysendUrl(address, isValidEmail).Ok? <==> isValidEmail(address) && Count(address, '@') == 1
    ensures KeysendUrl(address, isValidEmail).Err? ==> KeysendUrl(address, isValidEmail).error == InvalidAddress
  {
    SplitCount(address, '@');
    CountZero(address, '@');
  }

  /** The URL names the domain, then the well-known keysend path, then the local part. */
  lemma KeysendUrlShape(local: string, domain: string, isValidEmail: string -> bool)
    requires '@' !in local && '@' !in domain && isValidEmail(local + "@" + domain)
    ensures KeysendUrl(local + "@" + domain, isValidEmail) == Ok("https://" + domain + "/.well-known/keysend/" + local)
  {
    SplitAround(local, domain, '@');
    assert '@' in local + "@" + domain by {
      assert (local + "@" + domain)[|local|] == '@';
    }
  }

  /** One `customData` entry: an object with text members `customKey` and `customValue`. */
  predicate IsCustomDatum(j: Json) {
    j.Obj? && Field(j, "customKey").Str? && Field(j, "customValue").Str?
  }

  function DecodeCustomDatum(j: Json): Option<LnAddressCustomData> {
    if IsCustomDatum(j)
    then Some(LnAddressCustomData(Field(j, "customKey").s, Field(j, "customValue").s))
    else None
  }

  /** `Vec<LnAddressCustomData>`: every entry must decode, and the entries keep their order. */
  function DecodeCustomData(items: seq<Json>): (r: Option<seq<LnAddressCustomData>>)
    ensures r.Some? <==> forall k :: 0 <= k < |items| ==> IsCustomDatum(items[k])
    ensures r.Some? ==> |r.value| == |items|
    ensures r.Some? ==> forall k :: 0 <= k < |items| ==>
              r.value[k] == LnAddressCustomData(Field(items[k], "customKey").s, Field(items[k], "customValue").s)
  {
    if items == [] then Some([])
    else if DecodeCustomDatum(items[0]).None? then None
    else
      match DecodeCustomData(items[1..])
      case None =>
        assert exists k :: 0 <= k < |items[1..]| && !IsCustomDatum(items[1..][k]);
        None
      case Some(rest) =>
        assert forall k :: 1 <= k < |items| ==> items[k] == items[1..][k - 1];
        Some([DecodeCustomDatum(items[0]).value] + rest)
  }

  /** The member list of a `.well-known/keysend` answer (in camelCase, all required, extra ones ignored). */
  predicate IsLnAddressResponse(j: Json) {
    j.Obj? && Field(j, "status").Str? && Field(j, "tag").Str? && Field(j, "pubkey").Str? &&
    Field(j, "customData").Arr? &&
    forall k :: 0 <= k < |Field(j, "customData").items| ==> IsCustomDatum(Field(j, "customData").items[k])
  }

  /** Typed decoding of a `.well-known/keysend` answer. */
  function DecodeLnAddressResponse(j: Json): (r: Option<LnAddressResponse>)
    ensures r.Some? <==> IsLnAddressResponse(j)
    ensures r.Some? ==>
      var items := Field(j, "customData").items;
      r.value.status == Field(j, "status").s && r.value.tag == Field(j, "tag").s &&
      r.value.pubkey == Field(j, "pubkey").s && |r.value.customData| == |items| &&
      forall k :: 0 <= k < |items| ==>
        r.value.customData[k] == LnAddressCustomData(Field(items[k], "customKey").s, Field(items[k], "customValue").s)
  {
    if j.Obj? && Field(j, "status").Str? && Field(j, "tag").Str? && Field(j, "pubkey").Str?
       && Field(j, "customData").Arr? && DecodeCustomData(Field(j, "customData").items).Some?
    then Some(LnAddressResponse(Field(j, "status").s, Field(j, "tag").s, Field(j, "pubkey").s,
                                DecodeCustomData(Field(j, "customData").items).value))
    else None
  }

  /** `resolve_keysend_address`. */
  function ResolveKeysendAddress(address: string, env: LnEnv): (r: Result<LnAddressResponse, LnError>)
    ensures KeysendUrl(address, env.isValidEmail).Err? ==> r == Err(InvalidAddress)
    ensures KeysendUrl(address, env.isValidEmail).Ok? && env.httpGet(KeysendUrl(address, env.isValidEmail).value).Err? ==>
              r.Err? && r.error.FetchFailed?
    ensures KeysendUrl(address, env.isValidEmail).Ok? && env.httpGet(KeysendUrl(address, env.isValidEmail).value).Ok? ==>
              var text := env.httpGet(KeysendUrl(address, env.isValidEmail).value).value;
              (r.Ok? <==> env.parseJson(text).Some? && DecodeLnAddressResponse(env.parseJson(text).value).Some?) &&
              (r.Ok? ==> Some(r.value) == DecodeLnAddressResponse(env.parseJson(text).value)) &&
              (r.Err? ==> r.error == BadResponse)
  {
    match KeysendUrl(address, env.isValidEmail)
    case Err(e) => Err(e)
    case Ok(url) =>
      match env.httpGet(url)
      case Err(reason) => Err(FetchFailed(reason))
      case Ok(text) =>
        match env.parseJson(text)
        case None => Err(BadResponse)
        case Some(j) =>
          match DecodeLnAddressResponse(j)
          case None => Err(BadResponse)
          case Some(info) => Ok(info)
  }

  /**
   * A well-formed address whose `.well-known/keysend` answer is fetched,
   * parses and has every required member resolves to that answer.
   */
  lemma ResolveKeysendAddressOk(local: string, domain: string, env: LnEnv, text: string, j: Json)
    requires '@' !in local && '@' !in domain && env.isValidEmail(local + "@" + domain)
    requires env.httpGet("https://" + domain + "/.well-known/keysend/" + local) == Ok(text)
    requires env.parseJson(text) == Some(j) && IsLnAddressResponse(j)
    ensures var r := ResolveKeysendAddress(local + "@" + domain, env);
      r.Ok? && r.value.pubkey == Field(j, "pubkey").s &&
      |r.value.customData| == |Field(j, "customData").items| &&
      forall k :: 0 <= k < |Field(j, "customData").items| ==>
        r.value.customData[k] == LnAddressCustomData(Field(Field(j, "customData").items[k], "customKey").s,
                                                     Field(Field(j, "customData").items[k], "customValue").s)
  {
    KeysendUrlShape(local, domain, env.isValidEmail);
  }

  /** Destination and custom record of a payment, before or after resolution. */
  datatype Target = Target(pubKey: string, customKey: Option<u64>, customValue: Option<string>)

  /** What `resolve_address_info` leaves in its three in-out parameters, and its result. */
  function AddressInfo(t: Target, env: LnEnv): (Target, Result<(), LnError>)
  {
    if '@' !in t.pubKey then (t, Ok(()))
    else
      match ResolveKeysendAddress(t.pubKey, env)
      case Err(e) => (t, Err(e))
      case Ok(info) =>
        var resolved := t.(pubKey := info.pubkey);
        if |info.customData| == 0 then (resolved, Ok(()))
        else
          match ParseU64(info.customData[0].customKey)
          case None => (resolved, Err(BadCustomKey))
          case Some(k) => (resolved.(customKey := Some(k), customValue := Some(info.customData[0].customValue)), Ok(()))
  }

  /** Without '@' the target passes through unchanged. */
  lemma AddressInfoPlainKey(t: Target, env: LnEnv)
    requires '@' !in t.pubKey
    ensures AddressInfo(t, env) == (t, Ok(()))
  {
  }

  /**
   * With '@', a resolved address supplies the pubkey; its first custom entry,
   * when there is one, overrides the caller's key and value, whatever they were.
   */
  lemma AddressInfoOverride(t: Target, env: LnEnv)
    requires '@' in t.pubKey && ResolveKeysendAddress(t.pubKey, env).Ok?
    ensures var info := ResolveKeysendAddress(t.pubKey, env).value;
      var (t', r) := AddressInfo(t, env);
      t'.pubKey == info.pubkey &&
      (|info.customData| == 0 ==> r.Ok? && t'.customKey == t.customKey && t'.customValue == t.customValue) &&
      (|info.customData| > 0 ==>
        (r.Ok? <==> ParseU64(info.customData[0].customKey).Some?) &&
        (r.Ok? ==> t'.customKey == ParseU64(info.customData[0].customKey) &&
                   t'.customValue == Some(info.customData[0].customValue)))
  {
  }

  /** A failed resolution leaves the target as it was. */
  lemma AddressInfoFailure(t: Target, env: LnEnv)
    requires '@' in t.pubKey && ResolveKeysendAddress(t.pubKey, env).Err?
    ensures AddressInfo(t, env) == (t, Err(ResolveKeysendAddress(t.pubKey, env).error))
  {
  }

  /** `resolve_address_info`, writing through its three in-out parameters. */
  method ResolveAddressInfo(pubKey: string, customKey: Option<u64>, customValue: Option<string>, env: LnEnv)
    returns (pubKeyOut: string, customKeyOut: Option<u64>, customValueOut: Option<string>, r: Result<(), LnError>)
    ensures (Target(pubKeyOut, customKeyOut, customValueOut), r) == AddressInfo(Target(pubKey, customKey, customValue), env)
  {
    pubKeyOut, customKeyOut, customValueOut := pubKey, customKey, customValue;
    if '@' !in pubKey {
      r := Ok(());
      return;
    }
    var info := ResolveKeysendAddress(pubKey, env);
    if info.Err? {
      r := Err(info.error);
      return;
    }
    pubKeyOut := info.value.pubkey;
    if |info.value.customData| > 0 {
      var key := ParseU64(info.value.customData[0].customKey);
      if key.None? {
        r := Err(BadCustomKey);
        return;
      }
      customKeyOut := Some(key.value);
      customValueOut := Some(info.value.customData[0].customValue);
    }
    r := Ok(());
  }

  // ---------------------------------------------------------------- the keysend request

  /** The custom records of a keysend payment, inserted in the source's order. */
  function KeysendRecords(preImage: seq<byte>, tlvBytes: seq<byte>, key: Option<u64>, value: Option<seq<byte>>)
    : map<u64, seq<byte>>
  {
    var fixed := map[TLV_KEYSEND := preImage][TLV_PODCASTING20 := tlvBytes];
    if key.Some? && value.Some? then fixed[key.value := value.value] else fixed
  }

  /**
   * The keys are the two fixed ones plus the custom key when both it and its
   * value are given; the custom key, inserted last, wins over a fixed one.
   */
  lemma KeysendRecordsContents(preImage: seq<byte>, tlvBytes: seq<byte>, key: Option<u64>, value: Option<seq<byte>>)
    ensures var m := KeysendRecords(preImage, tlvBytes, key, value);
      var custom := key.Some? && value.Some?;
      m.Keys == {TLV_KEYSEND, TLV_PODCASTING20} + (if custom then {key.value} else {}) &&
      (custom ==> m[key.value] == value.value) &&
      (!(custom && key.value == TLV_KEYSEND) ==> m[TLV_KEYSEND] == preImage) &&
      (!(custom && key.value == TLV_PODCASTING20) ==> m[TLV_PODCASTING20] == tlvBytes)
  {
  }

  datatype SendError = ResolveFailed(reason: LnError) | Transport(message: string) | PaymentFailed(paymentError: string) | PaymentNotFound

  datatype SendOutcome = Returned(result: Result<Payment, SendError>) | Panicked

  /**
   * The request `send_boost` hands to the node, or the outcome that ends the
   * call before it: a resolution error, or the panic of decoding a pubkey that
   * is not lowercase base16.
   */
  function KeysendRequest(t: Target, sats: i64, tlv: Json, preImage: seq<byte>, env: LnEnv): (r: Result<SendRequest, SendOutcome>)
  {
    var (resolved, status) := AddressInfo(t, env);
    if status.Err? then Err(Returned(Err(ResolveFailed(status.error))))
    else
      match HexLowerDecode(resolved.pubKey)
      case None => Err(Panicked)
      case Some(dest) =>
        var value := if resolved.customValue.Some? then Some(env.utf8Bytes(resolved.customValue.value)) else None;
        Ok(SendRequest(dest, sats, env.sha256(preImage),
          KeysendRecords(preImage, env.utf8Bytes(env.toJsonPretty(tlv)), resolved.customKey, value)))
  }

  /**
   * The request pays the resolved destination `sats`, under the SHA-256 of the
   * pre-image that travels in the keysend record, so the receiver can check
   * the one against the other (unless a custom key displaced that record).
   */
  lemma KeysendRequestHash(t: Target, sats: i64, tlv: Json, preImage: seq<byte>, env: LnEnv)
    requires KeysendRequest(t, sats, tlv, preImage, env).Ok?
    ensures var req := KeysendRequest(t, sats, tlv, preImage, env).value;
      var resolved := AddressInfo(t, env).0;
      req.amt == sats && req.paymentHash == env.sha256(preImage) &&
      HexLowerEncode(req.dest) == resolved.pubKey &&
      TLV_KEYSEND in req.destCustomRecords && TLV_PODCASTING20 in req.destCustomRecords &&
      (resolved.customKey != Some(TLV_KEYSEND) || resolved.customValue.None? ==>
        env.sha256(req.destCustomRecords[TLV_KEYSEND]) == req.paymentHash)
  {
    var resolved := AddressInfo(t, env).0;
    EncodeDecode(resolved.pubKey);
  }

  /** The request is built exactly when resolution succeeds and the pubkey is lowercase base16. */
  lemma KeysendRequestBuilt(t: Target, sats: i64, tlv: Json, preImage: seq<byte>, env: LnEnv)
    ensures var (resolved, status) := AddressInfo(t, env);
      (KeysendRequest(t, sats, tlv, preImage, env).Ok? <==> status.Ok? && HexLowerDecode(resolved.pubKey).Some?) &&
      (status.Ok? && HexLowerDecode(resolved.pubKey).None? ==> KeysendRequest(t, sats, tlv, preImage, env) == Err(Panicked))
  {
  }

  /**
   * Sending to a lightning address whose answer carries custom data keyed
   * "696969" with value "abc" puts exactly that record in the payment,
   * whatever custom key and value the caller passed.
   */
  lemma ResolvedCustomRecordWins(t: Target, sats: i64, tlv: Json, preImage: seq<byte>, env: LnEnv)
    requires '@' in t.pubKey && ResolveKeysendAddress(t.pubKey, env).Ok?
    requires |ResolveKeysendAddress(t.pubKey, env).value.customData| > 0
    requires ResolveKeysendAddress(t.pubKey, env).value.customData[0] == LnAddressCustomData("696969", "abc")
    requires HexLowerDecode(ResolveKeysendAddress(t.pubKey, env).value.pubkey).Some?
    ensures KeysendRequest(t, sats, tlv, preImage, env).Ok?
    ensures 696969 in KeysendRequest(t, sats, tlv, preImage, env).value.destCustomRecords
    ensures KeysendRequest(t, sats, tlv, preImage, env).value.destCustomRecords[696969] == env.utf8Bytes("abc")
  {
    ParseDecimal(696969);
    assert Decimal(696969) == "696969";
  }

  // ---------------------------------------------------------------- dispatch

  /** Where a send stands once the node has answered: finished, or the payment list to search. */
  datatype Dispatched = Finished(outcome: SendOutcome) | Listed(sentPaymentHash: string, payments: seq<Payment>)

  /** The part of `send_boost` up to the `list_payments` call. */
  method Dispatch(pubKey: string, customKey: Option<u64>, customValue: Option<string>, sats: i64, tlv: Json,
                  preImage: seq<byte>, env: LnEnv)
    returns (d: Dispatched)
    requires |preImage| == 32
    ensures var req := KeysendRequest(Target(pubKey, customKey, customValue), sats, tlv, preImage, env);
      (req.Err? ==> d == Finished(req.error)) &&
      (req.Ok? ==>
        match env.sendPaymentSync(req.value)
        case Err(e) => d == Finished(Returned(Err(Transport(e))))
        case Ok(resp) =>
          if resp.paymentError != "" then d == Finished(Returned(Err(PaymentFailed(resp.paymentError))))
          else
            match env.listPayments(0, 500)
            case Err(e) => d == Finished(Returned(Err(Transport(e))))
            case Ok(payments) => d == Listed(HexLowerEncode(resp.paymentHash), payments))
  {
    var realPubKey, realCustomKey, realCustomValue, resolved := ResolveAddressInfo(pubKey, customKey, customValue, env);
    if resolved.Err? {
      return Finished(Returned(Err(ResolveFailed(resolved.error))));
    }
    var rawPubKey := HexLowerDecode(realPubKey);
    if rawPubKey.None? {
      return Finished(Panicked);
    }
    var paymentHash := env.sha256(preImage);
    var tlvJson := env.toJsonPretty(tlv);
    var records: map<u64, seq<byte>> := map[];
    records := records[TLV_KEYSEND := preImage];
    records := records[TLV_PODCASTING20 := env.utf8Bytes(tlvJson)];
    if realCustomKey.Some? && realCustomValue.Some? {
      records := records[realCustomKey.value := env.utf8Bytes(realCustomValue.value)];
    }
    var req := SendRequest(rawPubKey.value, sats, paymentHash, records);
    assert records == KeysendRequest(Target(pubKey, customKey, customValue), sats, tlv, preImage, env).value.destCustomRecords;
    var response := env.sendPaymentSync(req);
    if response.Err? {
      return Finished(Returned(Err(Transport(response.error))));
    }
    var sentPaymentHash := HexLowerEncode(response.value.paymentHash);
    if response.value.paymentError != "" {
      return Finished(Returned(Err(PaymentFailed(response.value.paymentError))));
    }
    var paymentList := env.listPayments(0, 500);
    if paymentList.Err? {
      return Finished(Returned(Err(Transport(paymentList.error))));
    }
    d := Listed(sentPaymentHash, paymentList.value);
  }

  /**
   * `send_boost` as written: the loop finds the sent payment but discards
   * `Ok(payment)` instead of returning it, so every path ends in an error.
   */
  method SendBoostAsWritten(pubKey: string, customKey: Option<u64>, customValue: Option<string>, sats: i64, tlv: Json,
                            preImage: seq<byte>, env: LnEnv)
    returns (r: SendOutcome)
    requires |preImage| == 32
    ensures !(r.Returned? && r.result.Ok?)
    ensures var req := KeysendRequest(Target(pubKey, customKey, customValue), sats, tlv, preImage, env);
      (req.Err? ==> r == req.error) &&
      (req.Ok? ==>
        match env.sendPaymentSync(req.value)
        case Err(e) => r == Returned(Err(Transport(e)))
        case Ok(resp) =>
          if resp.paymentError != "" then r == Returned(Err(PaymentFailed(resp.paymentError)))
          else
            match env.listPayments(0, 500)
            case Err(e) => r == Returned(Err(Transport(e)))
            case Ok(_) => r == Returned(Err(PaymentNotFound)))
  {
    var d := Dispatch(pubKey, customKey, customValue, sats, tlv, preImage, env);
    if d.Finished? {
      return d.outcome;
    }
    var i := 0;
    while i < |d.payments|
      invariant 0 <= i <= |d.payments|
    {
      // the source compares the hashes and evaluates `Ok(payment);` here, then drops it
      i := i + 1;
    }
    r := Returned(Err(PaymentNotFound));
  }

  /** The position of the first payment carrying hash `h`, if any. */
  function FirstWithHash(payments: seq<Payment>, h: string): (r: Option<nat>)
    ensures r.None? <==> forall j :: 0 <= j < |payments| ==> payments[j].paymentHash != h
    ensures r.Some? ==> r.value < |payments| && payments[r.value].paymentHash == h &&
                        forall j :: 0 <= j < r.value ==> payments[j].paymentHash != h
  {
    if payments == [] then None
    else if payments[0].paymentHash == h then Some(0)
    else
      match FirstWithHash(payments[1..], h)
      case None => None
      case Some(i) => Some(i + 1)
  }

  /** `send_boost` as evidently intended: the first listed payment with the sent hash is returned. */
  method SendBoost(pubKey: string, customKey: Option<u64>, customValue: Option<string>, sats: i64, tlv: Json,
                   preImage: seq<byte>, env: LnEnv)
    returns (r: SendOutcome)
    requires |preImage| == 32
    ensures var req := KeysendRequest(Target(pubKey, customKey, customValue), sats, tlv, preImage, env);
      (req.Err? ==> r == req.error) &&
      (req.Ok? ==>
        match env.sendPaymentSync(req.value)
        case Err(e) => r == Returned(Err(Transport(e)))
        case Ok(resp) =>
          if resp.paymentError != "" then r == Returned(Err(PaymentFailed(resp.paymentError)))
          else
            match env.listPayments(0, 500)
            case Err(e) => r == Returned(Err(Transport(e)))
            case Ok(payments) =>
              match FirstWithHash(payments, HexLowerEncode(resp.paymentHash))
              case Some(i) => r == Returned(Ok(payments[i]))
              case None => r == Returned(Err(PaymentNotFound)))
  {
    var d := Dispatch(pubKey, customKey, customValue, sats, tlv, preImage, env);
    if d.Finished? {
      return d.outcome;
    }
    var i := 0;
    while i < |d.payments|
      invariant 0 <= i <= |d.payments|
      invariant forall j :: 0 <= j < i ==> d.payments[j].paymentHash != d.sentPaymentHash
    {
      if d.payments[i].paymentHash == d.sentPaymentHash {
        return Returned(Ok(d.payments[i]));
      }
      i := i + 1;
    }
    r := Returned(Err(PaymentNotFound));
  }
}
