/** The deserializer: turns a server response (its raw text and the parsed
  * JSON document) into result objects. Each reader is a method that creates
  * the result object and assigns its attributes in the order the SDK does;
  * beside it a function states the object it must end up with, or the
  * exception that must escape instead. A value of the wrong JSON shape (a
  * number where a string is expected) is a `TypeError` here, where Python
  * would store the value as it is. */
module Deserialize {

  import opened Wrappers
  import opened Exceptions
  import opened Json
  import opened Timestamps
  import opened Encoding
  import opened Api

  /** A `requests` response: the body as text and the outcome of parsing it
    * as JSON (the parser's message on failure). */
  datatype Response = Response(text: string, json: Result<Json, string>)

  const MT_TEXT := "mt_text"
  const MT_BINARY := "mt_binary"
  const MO_TEXT := "mo_text"
  const MO_BINARY := "mo_binary"
  const DELIVERY_REPORT_SMS := "delivery_report_sms"
  const RECIPIENT_DELIVERY_REPORT_SMS := "recipient_delivery_report_sms"
  const UNEXPECTED_BATCH_TYPE := "Received unexpected batch type "
  const UNEXPECTED_INBOUND_TYPE := "Received unexpected inbound type "
  const EXPECTED_DELIVERY_REPORT := "Expected delivery report"
  const EXPECTED_RECIPIENT_DELIVERY_REPORT := "Expected recipient delivery report"
  const CANNOT_CONCATENATE := "can only concatenate str to str"

  /** The document is an object with a member `key`. */
  predicate Has(d: Json, key: string)
  {
    d.JObject? && key in d.members
  }

  // ------------------------------------------------------------ responses

  /** `_check_response`: the parsed document, or an unexpected-response
    * exception carrying the parser's message and the raw text. */
  function CheckResponse(resp: Response): (r: Result<Json, Failure>)
    ensures r.Success? <==> resp.json.Success?
    ensures r.Success? ==> r.value == resp.json.value
    ensures r.Failure? ==> r.error == Api(UnexpectedResponse(resp.json.error, resp.text))
  {
    match resp.json
    case Success(d) => Success(d)
    case Failure(msg) => Failure(Api(UnexpectedResponse(msg, resp.text)))
  }

  /** `response.json()` called directly: a parse failure escapes as the
    * parser's `ValueError`. */
  function ParsedJson(resp: Response): (r: Result<Json, Failure>)
    ensures r.Success? <==> resp.json.Success?
    ensures r.Success? ==> r.value == resp.json.value
    ensures r.Failure? ==> r.error == ValueError(resp.json.error)
  {
    match resp.json
    case Success(d) => Success(d)
    case Failure(msg) => Failure(ValueError(msg))
  }

  /** `_date_time`: the parsed timestamp, or an unexpected-response exception
    * carrying the parser's message and the whole document. */
  function DateTimeOf(text: string, v: Json, iso: Iso8601): (r: Result<DateTime, Failure>)
    ensures r.Success? <==> iso.parse(v).Success?
    ensures r.Success? ==> r.value == iso.parse(v).value
    ensures r.Failure? ==> r.error == Api(UnexpectedResponse(iso.parse(v).error, text))
  {
    match iso.parse(v)
    case Success(t) => Success(t)
    case Failure(msg) => Failure(Api(UnexpectedResponse(msg, text)))
  }

  /** `_date_time(json, fields[key])`. */
  function DateTimeField(text: string, m: Fields, key: string, iso: Iso8601): Result<DateTime, Failure>
  {
    var v :- Field(m, key);
    DateTimeOf(text, v, iso)
  }

  /** `binascii.unhexlify(v)`; `binascii.Error` is a `ValueError`. */
  function HexOf(v: Json): (r: Result<Bytes, Failure>)
    ensures v.JString? && Unhexlify(v.s).Success? ==> r == Success(Unhexlify(v.s).value)
    ensures v.JString? && Unhexlify(v.s).Failure? ==> r == Failure(ValueError(Unhexlify(v.s).error))
    ensures !v.JString? ==> r == Failure(TypeError(NOT_A_STRING))
  {
    var s :- AsString(v);
    match Unhexlify(s)
    case Success(b) => Success(b)
    case Failure(msg) => Failure(ValueError(msg))
  }

  /** `binascii.a2b_base64(v)`. */
  function Base64Of(v: Json): (r: Result<Bytes, Failure>)
    ensures v.JString? && A2bBase64(v.s).Success? ==> r == Success(A2bBase64(v.s).value)
    ensures v.JString? && A2bBase64(v.s).Failure? ==> r == Failure(ValueError(A2bBase64(v.s).error))
    ensures !v.JString? ==> r == Failure(TypeError(NOT_A_STRING))
  {
    var s :- AsString(v);
    match A2bBase64(s)
    case Success(b) => Success(b)
    case Failure(msg) => Failure(ValueError(msg))
  }

  /** `prefix + fields['type']` in the message of an unknown type: a
    * `TypeError` when the type is no string. */
  function UnknownType<T>(text: string, prefix: string, t: Json): (r: Result<T, Failure>)
    ensures t.JString? ==> r == Failure(Api(UnexpectedResponse(prefix + t.s, text)))
    ensures !t.JString? ==> r == Failure(TypeError(CANNOT_CONCATENATE))
  {
    match t
    case JString(s) => Failure(Api(UnexpectedResponse(prefix + s, text)))
    case _ => Failure(TypeError(CANNOT_CONCATENATE))
  }

  function HexField(m: Fields, key: string): (r: Result<Bytes, Failure>)
    ensures key !in m ==> r == Failure(KeyError(key))
    ensures key in m ==> r == HexOf(m[key])
  {
    var v :- Field(m, key);
    HexOf(v)
  }

  function Base64Field(m: Fields, key: string): (r: Result<Bytes, Failure>)
    ensures key !in m ==> r == Failure(KeyError(key))
    ensures key in m ==> r == Base64Of(m[key])
  {
    var v :- Field(m, key);
    Base64Of(v)
  }

  // `if key in fields: attr = fields[key]`: the attribute keeps `current`
  // when the key is missing.

  /** `after` is the string read from `m[key]` when the key is given, and
    * `before` otherwise. */
  predicate ReadIfGiven(m: Fields, key: string, before: Option<string>, after: Option<string>)
  {
    if key in m then AsNullableString(m[key]) == Success(after) else after == before
  }

  /** `after` is the timestamp parsed from `m[key]` when the key is given,
    * and `before` otherwise. */
  predicate ParsedIfGiven(m: Fields, key: string, before: Option<DateTime>, after: Option<DateTime>, iso: Iso8601)
  {
    if key in m then after.Some? && iso.parse(m[key]) == Success(after.value) else after == before
  }

  function OptionalString(m: Fields, key: string, current: Option<string>): (r: Result<Option<string>, Failure>)
    ensures key !in m ==> r == Success(current)
    ensures key in m ==> r == AsNullableString(m[key])
  {
    if key in m then AsNullableString(m[key]) else Success(current)
  }

  function OptionalDateTime(text: string, m: Fields, key: string, current: Option<DateTime>, iso: Iso8601)
    : (r: Result<Option<DateTime>, Failure>)
    ensures key !in m ==> r == Success(current)
    ensures key in m ==> r.Success? == iso.parse(m[key]).Success?
    ensures key in m && r.Success? ==> r.value == Some(iso.parse(m[key]).value)
    ensures key in m && r.Failure? ==> r.error == Api(UnexpectedResponse(iso.parse(m[key]).error, text))
  {
    if key in m then
      var t :- DateTimeOf(text, m[key], iso);
      Success(Some(t))
    else Success(current)
  }

  // ------------------------------------------------------------ batches

  /** `_batch_response_helper`: the common attributes of a batch result read
    * over `b`, in the order the SDK reads them. */
  function BatchCommon(text: string, m: Fields, b: Batch, iso: Iso8601): (r: Result<Batch, Failure>)
    ensures "id" !in m ==> r == Failure(KeyError("id"))
    ensures r.Success? ==> "id" in m && AsNullableString(m["id"]) == Success(r.value.batchId)
    ensures r.Success? ==> "to" in m && AsStringSet(m["to"]) == Success(r.value.recipients)
    ensures r.Success? ==> "from" in m && AsNullableString(m["from"]) == Success(r.value.sender)
    ensures r.Success? ==> "canceled" in m && AsNullableBool(m["canceled"]) == Success(r.value.canceled)
    ensures r.Success? ==> r.value.payload == b.payload
    ensures r.Success? ==> ReadIfGiven(m, "delivery_report", b.deliveryReport, r.value.deliveryReport)
    ensures r.Success? ==> ParsedIfGiven(m, "send_at", b.sendAt, r.value.sendAt, iso)
    ensures r.Success? ==> ParsedIfGiven(m, "expire_at", b.expireAt, r.value.expireAt, iso)
    ensures r.Success? ==> ParsedIfGiven(m, "created_at", b.createdAt, r.value.createdAt, iso)
    ensures r.Success? ==> ParsedIfGiven(m, "modified_at", b.modifiedAt, r.value.modifiedAt, iso)
    ensures r.Success? ==> ReadIfGiven(m, "callback_url", b.callbackUrl, r.value.callbackUrl)
  {
    var b :- BatchRequired(m, b);
    var b :- BatchSchedule(text, m, b, iso);
    BatchTrail(text, m, b, iso)
  }

  /** The attributes every batch document has. */
  function BatchRequired(m: Fields, b: Batch): (r: Result<Batch, Failure>)
    ensures r.Success? <==> "id" in m && AsNullableString(m["id"]).Success? && "to" in m && AsStringSet(m["to"]).Success? &&
                            "from" in m && AsNullableString(m["from"]).Success? &&
                            "canceled" in m && AsNullableBool(m["canceled"]).Success?
    ensures r.Success? ==> "id" in m && AsNullableString(m["id"]) == Success(r.value.batchId)
    ensures r.Success? ==> "to" in m && AsStringSet(m["to"]) == Success(r.value.recipients)
    ensures r.Success? ==> "from" in m && AsNullableString(m["from"]) == Success(r.value.sender)
    ensures r.Success? ==> "canceled" in m && AsNullableBool(m["canceled"]) == Success(r.value.canceled)
    ensures r.Success? ==> r.value.(batchId := b.batchId, recipients := b.recipients, sender := b.sender, canceled := b.canceled) == b
  {
    var batchId :- NullableStringField(m, "id");
    var recipients :- StringSetField(m, "to");
    var sender :- NullableStringField(m, "from");
    var canceled :- NullableBoolField(m, "canceled");
    Success(b.(batchId := batchId, recipients := recipients, sender := sender, canceled := canceled))
  }

  /** The delivery report type and the send window, when given. */
  function BatchSchedule(text: string, m: Fields, b: Batch, iso: Iso8601): (r: Result<Batch, Failure>)
    ensures r.Success? ==> ReadIfGiven(m, "delivery_report", b.deliveryReport, r.value.deliveryReport)
    ensures r.Success? ==> ParsedIfGiven(m, "send_at", b.sendAt, r.value.sendAt, iso)
    ensures r.Success? ==> ParsedIfGiven(m, "expire_at", b.expireAt, r.value.expireAt, iso)
    ensures r.Success? ==> r.value.(deliveryReport := b.deliveryReport, sendAt := b.sendAt, expireAt := b.expireAt) == b
  {
    var deliveryReport :- OptionalString(m, "delivery_report", b.deliveryReport);
    var sendAt :- OptionalDateTime(text, m, "send_at", b.sendAt, iso);
    var expireAt :- OptionalDateTime(text, m, "expire_at", b.expireAt, iso);
    Success(b.(deliveryReport := deliveryReport, sendAt := sendAt, expireAt := expireAt))
  }

  /** The creation and modification times and the callback URL, when given. */
  function BatchTrail(text: string, m: Fields, b: Batch, iso: Iso8601): (r: Result<Batch, Failure>)
    ensures r.Success? ==> ParsedIfGiven(m, "created_at", b.createdAt, r.value.createdAt, iso)
    ensures r.Success? ==> ParsedIfGiven(m, "modified_at", b.modifiedAt, r.value.modifiedAt, iso)
    ensures r.Success? ==> ReadIfGiven(m, "callback_url", b.callbackUrl, r.value.callbackUrl)
    ensures r.Success? ==> r.value.(createdAt := b.createdAt, modifiedAt := b.modifiedAt, callbackUrl := b.callbackUrl) == b
  {
    var createdAt :- OptionalDateTime(text, m, "created_at", b.createdAt, iso);
    var modifiedAt :- OptionalDateTime(text, m, "modified_at", b.modifiedAt, iso);
    var callbackUrl :- OptionalString(m, "callback_url", b.callbackUrl);
    Success(b.(createdAt := createdAt, modifiedAt := modifiedAt, callbackUrl := callbackUrl))
  }

  /** `_batch_response_from_fields`: a text or binary batch result, by the
    * document's `type`. */
  function BatchOf(text: string, d: Json, iso: Iso8601): (r: Result<Batch, Failure>)
    ensures r.Success? ==> Has(d, "type")
    ensures r.Success? ==> (r.value.payload.TextResult? <==> d.members["type"] == JString(MT_TEXT))
    ensures r.Success? ==> (r.value.payload.BinaryResult? <==> d.members["type"] == JString(MT_BINARY))
    ensures Has(d, "type") && d.members["type"].JString? && d.members["type"].s != MT_TEXT && d.members["type"].s != MT_BINARY
            ==> r == Failure(Api(UnexpectedResponse(UNEXPECTED_BATCH_TYPE + d.members["type"].s, text)))
    ensures r.Success? ==> BatchCommon(text, d.members, DefaultBatch(r.value.payload), iso) == Success(r.value)
    ensures r.Success? && r.value.payload.TextResult? ==>
              "body" in d.members && AsNullableString(d.members["body"]) == Success(r.value.payload.body) &&
              r.value.payload.parameters == (if "parameters" in d.members then Some(d.members["parameters"]) else None)
    ensures r.Success? && r.value.payload.BinaryResult? ==>
              "udh" in d.members && r.value.payload.udh.Some? && HexOf(d.members["udh"]) == Success(r.value.payload.udh.value) &&
              "body" in d.members && r.value.payload.binaryBody.Some? &&
              Base64Of(d.members["body"]) == Success(r.value.payload.binaryBody.value)
  {
    var m :- AsObject(d);
    var t :- Field(m, "type");
    if t == JString(MT_TEXT) then
      var body :- NullableStringField(m, "body");
      var parameters := if "parameters" in m then Some(m["parameters"]) else None;
      BatchCommon(text, m, DefaultBatch(TextResult(body, parameters)), iso)
    else if t == JString(MT_BINARY) then
      var udh :- HexField(m, "udh");
      var body :- Base64Field(m, "body");
      BatchCommon(text, m, DefaultBatch(BinaryResult(Some(body), Some(udh))), iso)
    else
      UnknownType(text, UNEXPECTED_BATCH_TYPE, t)
  }

  /** `_batch_response_helper`: reads the common attributes into `batch`,
    * in three stretches. */
  method BatchResponseHelper(text: string, m: Fields, batch: MtBatchSmsResult, iso: Iso8601)
    returns (r: Result<(), Failure>)
    modifies batch
    ensures r.Success? ==> BatchCommon(text, m, old(batch.View()), iso) == Success(batch.View())
    ensures r.Failure? ==> BatchCommon(text, m, old(batch.View()), iso) == Failure(r.error)
  {
    var _ :- ReadBatchRequired(m, batch);
    var _ :- ReadBatchSchedule(text, m, batch, iso);
    r := ReadBatchTrail(text, m, batch, iso);
  }

  method ReadBatchRequired(m: Fields, batch: MtBatchSmsResult) returns (r: Result<(), Failure>)
    modifies batch
    ensures r.Success? ==> BatchRequired(m, old(batch.View())) == Success(batch.View())
    ensures r.Failure? ==> BatchRequired(m, old(batch.View())) == Failure(r.error)
  {
    var batchId :- NullableStringField(m, "id");
    batch.batchId := batchId;
    var recipients :- StringSetField(m, "to");
    batch.recipients := recipients;
    var sender :- NullableStringField(m, "from");
    batch.sender := sender;
    var canceled :- NullableBoolField(m, "canceled");
    batch.canceled := canceled;
    return Success(());
  }

  method ReadBatchSchedule(text: string, m: Fields, batch: MtBatchSmsResult, iso: Iso8601) returns (r: Result<(), Failure>)
    modifies batch
    ensures r.Success? ==> BatchSchedule(text, m, old(batch.View()), iso) == Success(batch.View())
    ensures r.Failure? ==> BatchSchedule(text, m, old(batch.View()), iso) == Failure(r.error)
  {
    var deliveryReport :- OptionalString(m, "delivery_report", batch.deliveryReport);
    batch.deliveryReport := deliveryReport;
    var sendAt :- OptionalDateTime(text, m, "send_at", batch.sendAt, iso);
    batch.sendAt := sendAt;
    var expireAt :- OptionalDateTime(text, m, "expire_at", batch.expireAt, iso);
    batch.expireAt := expireAt;
    return Success(());
  }

  method ReadBatchTrail(text: string, m: Fields, batch: MtBatchSmsResult, iso: Iso8601) returns (r: Result<(), Failure>)
    modifies batch
    ensures r.Success? ==> BatchTrail(text, m, old(batch.View()), iso) == Success(batch.View())
    ensures r.Failure? ==> BatchTrail(text, m, old(batch.View()), iso) == Failure(r.error)
  {
    var createdAt :- OptionalDateTime(text, m, "created_at", batch.createdAt, iso);
    batch.createdAt := createdAt;
    var modifiedAt :- OptionalDateTime(text, m, "modified_at", batch.modifiedAt, iso);
    batch.modifiedAt := modifiedAt;
    var callbackUrl :- OptionalString(m, "callback_url", batch.callbackUrl);
    batch.callbackUrl := callbackUrl;
    return Success(());
  }

  /** `_batch_response_from_fields`: creates the result object of the
    * document's variant, then reads the common attributes into it. */
  method BatchResponseFromFields(text: string, d: Json, iso: Iso8601) returns (r: Result<MtBatchSmsResult, Failure>)
    ensures r.Success? ==> fresh(r.value) && BatchOf(text, d, iso) == Success(r.value.View())
    ensures r.Failure? ==> BatchOf(text, d, iso) == Failure(r.error)
  {
    var m :- AsObject(d);
    var t :- Field(m, "type");
    var result: MtBatchSmsResult;
    if t == JString(MT_TEXT) {
      result := new MtBatchSmsResult.Text();
      var body :- NullableStringField(m, "body");
      result.payload := result.payload.(body := body);
      if "parameters" in m {
        result.payload := result.payload.(parameters := Some(m["parameters"]));
      }
    } else if t == JString(MT_BINARY) {
      result := new MtBatchSmsResult.Binary();
      var udh :- HexField(m, "udh");
      result.payload := result.payload.(udh := Some(udh));
      var body :- Base64Field(m, "body");
      result.payload := result.payload.(binaryBody := Some(body));
    } else {
      return UnknownType(text, UNEXPECTED_BATCH_TYPE, t);
    }
    var _ :- BatchResponseHelper(text, m, result, iso);
    return Success(result);
  }

  /** `batch_result`. */
  method ReadBatchResult(resp: Response, iso: Iso8601) returns (r: Result<MtBatchSmsResult, Failure>)
    ensures r.Success? ==> fresh(r.value) && BatchResultOf(resp, iso) == Success(r.value.View())
    ensures r.Failure? ==> BatchResultOf(resp, iso) == Failure(r.error)
  {
    var d :- CheckResponse(resp);
    r := BatchResponseFromFields(resp.text, d, iso);
  }

  /** `batch_result`: the document checked, then read as a batch. */
  function BatchResultOf(resp: Response, iso: Iso8601): (r: Result<Batch, Failure>)
    ensures resp.json.Failure? ==> r == Failure(Api(UnexpectedResponse(resp.json.error, resp.text)))
    ensures resp.json.Success? ==> r == BatchOf(resp.text, resp.json.value, iso)
  {
    var d :- CheckResponse(resp);
    BatchOf(resp.text, d, iso)
  }

  // ------------------------------------------------------------ lists

  /** `[read(s) for s in items]`: the elements read in order; the first one
    * that cannot be read ends the comprehension with its exception. */
  function ReadAll<T>(items: seq<Json>, read: Json -> Result<T, Failure>): Result<seq<T>, Failure>
    decreases |items|
  {
    if |items| == 0 then Success([])
    else
      var init :- ReadAll(items[..|items| - 1], read);
      var last :- read(items[|items| - 1]);
      Success(init + [last])
  }

  /** The list is read exactly when every element is, and then it holds the
    * elements' readings, in order and no more. */
  lemma {:induction false} ReadAllElements<T>(items: seq<Json>, read: Json -> Result<T, Failure>)
    ensures ReadAll(items, read).Success? <==> forall i :: 0 <= i < |items| ==> read(items[i]).Success?
    ensures ReadAll(items, read).Success? ==>
      |ReadAll(items, read).value| == |items| &&
      forall i :: 0 <= i < |items| ==> read(items[i]) == Success(ReadAll(items, read).value[i])
    decreases |items|
  {
    if |items| > 0 {
      var init := items[..|items| - 1];
      ReadAllElements(init, read);
      assert forall i :: 0 <= i < |init| ==> init[i] == items[i];
    }
  }

  /** A list that cannot be read fails with the exception of its first
    * unreadable element. */
  lemma {:induction false} ReadAllFirstFailure<T>(items: seq<Json>, read: Json -> Result<T, Failure>)
    requires ReadAll(items, read).Failure?
    ensures exists i :: (0 <= i < |items| && read(items[i]) == Failure(ReadAll(items, read).error) &&
                         forall j :: 0 <= j < i ==> read(items[j]).Success?)
    decreases |items|
  {
    var init := items[..|items| - 1];
    assert forall i :: 0 <= i < |init| ==> init[i] == items[i];
    if ReadAll(init, read).Failure? {
      ReadAllFirstFailure(init, read);
    } else {
      ReadAllElements(init, read);
      var i := |items| - 1;
      assert read(items[i]) == Failure(ReadAll(items, read).error);
    }
  }

  /** A failure among the first `k` elements is the failure of the whole list. */
  lemma {:induction false} ReadAllPrefixFailure<T>(items: seq<Json>, k: nat, read: Json -> Result<T, Failure>)
    requires k <= |items|
    requires ReadAll(items[..k], read).Failure?
    ensures ReadAll(items, read) == ReadAll(items[..k], read)
    decreases |items|
  {
    if k < |items| {
      var init := items[..|items| - 1];
      assert init[..k] == items[..k];
      ReadAllPrefixFailure(init, k, read);
    } else {
      assert items[..k] == items;
    }
  }

  /** Reading one more element extends the reading of the prefix. */
  lemma ReadAllStep<T>(items: seq<Json>, i: nat, read: Json -> Result<T, Failure>)
    requires i < |items|
    requires ReadAll(items[..i], read).Success? && read(items[i]).Success?
    ensures ReadAll(items[..i + 1], read) == Success(ReadAll(items[..i], read).value + [read(items[i]).value])
  {
    assert items[..i + 1][..i] == items[..i];
  }

  /** One page of a listing, as the document reports it. */
  datatype Listing<T> = Listing(page: Option<int>, size: Option<int>, totalSize: Option<int>, content: seq<T>)

  /** The page readers: `page`, `page_size` and `count` are copied, the list
    * under `key` is read element by element. */
  function ListingOf<T>(d: Json, key: string, read: Json -> Result<T, Failure>): (r: Result<Listing<T>, Failure>)
    ensures !d.JObject? ==> r == Failure(TypeError(NOT_SUBSCRIPTABLE))
    ensures r.Success? ==> Has(d, "page") && AsNullableInt(d.members["page"]) == Success(r.value.page)
    ensures r.Success? ==> Has(d, "page_size") && AsNullableInt(d.members["page_size"]) == Success(r.value.size)
    ensures r.Success? ==> Has(d, "count") && AsNullableInt(d.members["count"]) == Success(r.value.totalSize)
    ensures r.Success? ==> Has(d, key) && d.members[key].JArray? &&
                           ReadAll(d.members[key].items, read) == Success(r.value.content)
  {
    var m :- AsObject(d);
    var page :- NullableIntField(m, "page");
    var size :- NullableIntField(m, "page_size");
    var totalSize :- NullableIntField(m, "count");
    var items :- ListField(m, key);
    var content :- ReadAll(items, read);
    Success(Listing(page, size, totalSize, content))
  }

  /** A page's size is the one the document declares, whatever the length of
    * its content; the content holds one reading per listed element, in order. */
  lemma ListingReadsEveryElement<T>(d: Json, key: string, read: Json -> Result<T, Failure>)
    requires ListingOf(d, key, read).Success?
    ensures Has(d, "page") && Has(d, "page_size") && Has(d, key) && d.members[key].JArray?
    ensures ListingOf(d, key, read).value.page == AsNullableInt(d.members["page"]).value
    ensures ListingOf(d, key, read).value.size == AsNullableInt(d.members["page_size"]).value
    ensures ListingOf(d, key, read).value.totalSize == AsNullableInt(d.members["count"]).value
    ensures |ListingOf(d, key, read).value.content| == |d.members[key].items|
    ensures forall i :: 0 <= i < |d.members[key].items| ==>
      read(d.members[key].items[i]) == Success(ListingOf(d, key, read).value.content[i])
  {
    ReadAllElements(d.members[key].items, read);
  }

  function BatchReader(text: string, iso: Iso8601): Json -> Result<Batch, Failure>
  {
    j => BatchOf(text, j, iso)
  }

  /** `[_batch_response_from_fields(json, s) for s in items]`. */
  method ReadBatches(text: string, items: seq<Json>, iso: Iso8601) returns (r: Result<seq<MtBatchSmsResult>, Failure>)
    ensures r.Success? ==> forall b | b in r.value :: fresh(b)
    ensures r.Success? ==> ReadAll(items, BatchReader(text, iso)) == Success(BatchViews(r.value))
    ensures r.Failure? ==> ReadAll(items, BatchReader(text, iso)) == Failure(r.error)
  {
    var content: seq<MtBatchSmsResult> := [];
    for i := 0 to |items|
      invariant forall b | b in content :: fresh(b)
      invariant ReadAll(items[..i], BatchReader(text, iso)) == Success(BatchViews(content))
    {
      var batch := BatchResponseFromFields(text, items[i], iso);
      if batch.Failure? {
        assert items[..i + 1][..i] == items[..i];
        ReadAllPrefixFailure(items, i + 1, BatchReader(text, iso));
        return Failure(batch.error);
      }
      ReadAllStep(items, i, BatchReader(text, iso));
      assert (content + [batch.value])[..|content|] == content;
      content := content + [batch.value];
    }
    assert items[..|items|] == items;
    return Success(content);
  }

  function BatchesPageOf(resp: Response, iso: Iso8601): (r: Result<Listing<Batch>, Failure>)
    ensures resp.json.Failure? ==> r == Failure(Api(UnexpectedResponse(resp.json.error, resp.text)))
    ensures resp.json.Success? ==> r == ListingOf(resp.json.value, "batches", BatchReader(resp.text, iso))
  {
    var d :- CheckResponse(resp);
    ListingOf(d, "batches", BatchReader(resp.text, iso))
  }

  /** `batches_page`. */
  method ReadBatchesPage(resp: Response, iso: Iso8601) returns (r: Result<Page<MtBatchSmsResult>, Failure>)
    ensures r.Success? ==> fresh(r.value) && (forall b | b in r.value.content :: fresh(b))
    ensures r.Success? ==> (BatchesPageOf(resp, iso) ==
                            Success(Listing(r.value.page, r.value.size, r.value.totalSize, BatchViews(r.value.content))))
    ensures r.Failure? ==> BatchesPageOf(resp, iso) == Failure(r.error)
  {
    var d :- CheckResponse(resp);
    var m :- AsObject(d);
    var result := new Page<MtBatchSmsResult>();
    var page :- NullableIntField(m, "page");
    result.page := page;
    var size :- NullableIntField(m, "page_size");
    result.size := size;
    var totalSize :- NullableIntField(m, "count");
    result.totalSize := totalSize;
    var items :- ListField(m, "batches");
    var content :- ReadBatches(resp.text, items, iso);
    result.content := content;
    return Success(result);
  }

  // ------------------------------------------------------------ dry runs

  /** The nested `recipient` helper of `batch_dry_run_result`. */
  function PerRecipientOf(j: Json): (r: Result<PerRecipient, Failure>)
    ensures !j.JObject? ==> r == Failure(TypeError(NOT_SUBSCRIPTABLE))
    ensures r.Success? ==> Has(j, "recipient") && AsNullableString(j.members["recipient"]) == Success(r.value.recipient)
    ensures r.Success? ==> Has(j, "number_of_parts") && AsNullableInt(j.members["number_of_parts"]) == Success(r.value.numberOfParts)
    ensures r.Success? ==> Has(j, "body") && AsNullableString(j.members["body"]) == Success(r.value.body)
    ensures r.Success? ==> Has(j, "encoding") && AsNullableString(j.members["encoding"]) == Success(r.value.encoding)
  {
    var m :- AsObject(j);
    var recipient :- NullableStringField(m, "recipient");
    var numberOfParts :- NullableIntField(m, "number_of_parts");
    var body :- NullableStringField(m, "body");
    var encoding :- NullableStringField(m, "encoding");
    Success(PerRecipient(recipient, numberOfParts, body, encoding))
  }

  /** `batch_dry_run_result`: the two counts, and the per-recipient list
    * only when the document has one. */
  function DryRunOf(resp: Response): (r: Result<DryRun, Failure>)
    ensures r.Success? ==> resp.json.Success?
    ensures r.Success? ==> Has(resp.json.value, "number_of_recipients") && Has(resp.json.value, "number_of_messages")
    ensures r.Success? ==> AsNullableInt(resp.json.value.members["number_of_recipients"]) == Success(r.value.numberOfRecipients)
    ensures r.Success? ==> AsNullableInt(resp.json.value.members["number_of_messages"]) == Success(r.value.numberOfMessages)
    ensures r.Success? ==> (r.value.perRecipient.Some? <==> Has(resp.json.value, "per_recipient"))
    ensures r.Success? && r.value.perRecipient.Some? ==>
              resp.json.value.members["per_recipient"].JArray? &&
              ReadAll(resp.json.value.members["per_recipient"].items, PerRecipientOf) == Success(r.value.perRecipient.value)
    ensures resp.json.Failure? ==> r == Failure(ValueError(resp.json.error))
  {
    var d :- ParsedJson(resp);
    var m :- AsObject(d);
    var numberOfRecipients :- NullableIntField(m, "number_of_recipients");
    var numberOfMessages :- NullableIntField(m, "number_of_messages");
    if "per_recipient" in m then
      var items :- AsList(m["per_recipient"]);
      var details :- ReadAll(items, PerRecipientOf);
      Success(DryRun(numberOfRecipients, numberOfMessages, Some(details)))
    else
      Success(DryRun(numberOfRecipients, numberOfMessages, None))
  }

  method RecipientDetail(j: Json) returns (r: Result<DryRunPerRecipient, Failure>)
    ensures r.Success? ==> fresh(r.value) && PerRecipientOf(j) == Success(r.value.View())
    ensures r.Failure? ==> PerRecipientOf(j) == Failure(r.error)
  {
    var m :- AsObject(j);
    var recipient := new DryRunPerRecipient();
    var v :- NullableStringField(m, "recipient");
    recipient.recipient := v;
    var n :- NullableIntField(m, "number_of_parts");
    recipient.numberOfParts := n;
    v :- NullableStringField(m, "body");
    recipient.body := v;
    v :- NullableStringField(m, "encoding");
    recipient.encoding := v;
    return Success(recipient);
  }

  method ReadPerRecipients(items: seq<Json>) returns (r: Result<seq<DryRunPerRecipient>, Failure>)
    ensures r.Success? ==> forall x | x in r.value :: fresh(x)
    ensures r.Success? ==> ReadAll(items, PerRecipientOf) == Success(PerRecipientViews(r.value))
    ensures r.Failure? ==> ReadAll(items, PerRecipientOf) == Failure(r.error)
  {
    var details: seq<DryRunPerRecipient> := [];
    for i := 0 to |items|
      invariant forall x | x in details :: fresh(x)
      invariant ReadAll(items[..i], PerRecipientOf) == Success(PerRecipientViews(details))
    {
      var detail := RecipientDetail(items[i]);
      assert items[..i + 1][..i] == items[..i];
      if detail.Failure? {
        ReadAllPrefixFailure(items, i + 1, PerRecipientOf);
        return Failure(detail.error);
      }
      assert (details + [detail.value])[..|details|] == details;
      details := details + [detail.value];
    }
    assert items[..|items|] == items;
    return Success(details);
  }

  /** `batch_dry_run_result`. */
  method ReadDryRunResult(resp: Response) returns (r: Result<MtBatchDryRunResult, Failure>)
    ensures r.Success? ==> fresh(r.value) && forall x | x in r.value.Details() :: fresh(x)
    ensures r.Success? ==> DryRunOf(resp) == Success(r.value.View())
    ensures r.Failure? ==> DryRunOf(resp) == Failure(r.error)
  {
    var d :- ParsedJson(resp);
    var m :- AsObject(d);
    var result := new MtBatchDryRunResult();
    var n :- NullableIntField(m, "number_of_recipients");
    result.numberOfRecipients := n;
    n :- NullableIntField(m, "number_of_messages");
    result.numberOfMessages := n;
    if "per_recipient" in m {
      var items :- AsList(m["per_recipient"]);
      var details :- ReadPerRecipients(items);
      result.perRecipient := Some(details);
    }
    return Success(result);
  }

  // ------------------------------------------------------- delivery reports

  /** The `type` check of the two delivery report readers: a document
    * without `type`, or with another one, is refused with `message`. */
  function ExpectType(text: string, d: Json, expected: string, message: string): (r: Result<Fields, Failure>)
    ensures r.Success? <==> Has(d, "type") && d.members["type"] == JString(expected)
    ensures r.Success? ==> r.value == d.members
    ensures d.JObject? && !(Has(d, "type") && d.members["type"] == JString(expected)) ==>
              r == Failure(Api(UnexpectedResponse(message, text)))
  {
    var present :- Contains(d, "type");
    if !present then Failure(Api(UnexpectedResponse(message, text)))
    else
      var m :- AsObject(d);
      if m["type"] != JString(expected) then Failure(Api(UnexpectedResponse(message, text)))
      else Success(m)
  }

  /** The nested `report_status` helper of `batch_delivery_report`. */
  function StatusOf(j: Json): (r: Result<DeliveryStatus, Failure>)
    ensures !j.JObject? ==> r == Failure(TypeError(NOT_SUBSCRIPTABLE))
    ensures r.Success? ==> Has(j, "code") && AsNullableInt(j.members["code"]) == Success(r.value.code)
    ensures r.Success? ==> Has(j, "status") && AsNullableString(j.members["status"]) == Success(r.value.status)
    ensures r.Success? ==> Has(j, "count") && AsNullableInt(j.members["count"]) == Success(r.value.count)
    ensures r.Success? ==> (r.value.recipients.Some? <==> Has(j, "recipients"))
    ensures r.Success? && r.value.recipients.Some? ==> AsStringSet(j.members["recipients"]) == Success(r.value.recipients.value)
  {
    var m :- AsObject(j);
    var code :- NullableIntField(m, "code");
    var status :- NullableStringField(m, "status");
    var count :- NullableIntField(m, "count");
    if "recipients" in m then
      var recipients :- AsStringSet(m["recipients"]);
      Success(DeliveryStatus(code, status, count, Some(recipients)))
    else
      Success(DeliveryStatus(code, status, count, None))
  }

  /** `batch_delivery_report`. */
  function DeliveryReportOf(resp: Response): (r: Result<DeliveryReport, Failure>)
    ensures r.Success? ==> resp.json.Success?
    ensures r.Success? ==> Has(resp.json.value, "type") && resp.json.value.members["type"] == JString(DELIVERY_REPORT_SMS)
    ensures r.Success? ==> Has(resp.json.value, "batch_id") &&
                           AsNullableString(resp.json.value.members["batch_id"]) == Success(r.value.batchId)
    ensures r.Success? ==> Has(resp.json.value, "total_message_count") &&
                           AsNullableInt(resp.json.value.members["total_message_count"]) == Success(r.value.totalMessageCount)
    ensures r.Success? ==> Has(resp.json.value, "statuses") && resp.json.value.members["statuses"].JArray? &&
                           ReadAll(resp.json.value.members["statuses"].items, StatusOf) == Success(r.value.statuses)
    ensures resp.json.Success? && resp.json.value.JObject? &&
            !(Has(resp.json.value, "type") && resp.json.value.members["type"] == JString(DELIVERY_REPORT_SMS)) ==>
              r == Failure(Api(UnexpectedResponse(EXPECTED_DELIVERY_REPORT, resp.text)))
    ensures resp.json.Failure? ==> r == Failure(ValueError(resp.json.error))
  {
    var d :- ParsedJson(resp);
    var m :- ExpectType(resp.text, d, DELIVERY_REPORT_SMS, EXPECTED_DELIVERY_REPORT);
    var batchId :- NullableStringField(m, "batch_id");
    var totalMessageCount :- NullableIntField(m, "total_message_count");
    var items :- ListField(m, "statuses");
    var statuses :- ReadAll(items, StatusOf);
    Success(DeliveryReport(batchId, totalMessageCount, statuses))
  }

  method ReportStatus(j: Json) returns (r: Result<BatchDeliveryReportStatus, Failure>)
    ensures r.Success? ==> fresh(r.value) && StatusOf(j) == Success(r.value.View())
    ensures r.Failure? ==> StatusOf(j) == Failure(r.error)
  {
    var m :- AsObject(j);
    var result := new BatchDeliveryReportStatus();
    var code :- NullableIntField(m, "code");
    result.code := code;
    var status :- NullableStringField(m, "status");
    result.status := status;
    var count :- NullableIntField(m, "count");
    result.count := count;
    if "recipients" in m {
      var recipients :- AsStringSet(m["recipients"]);
      result.recipients := Some(recipients);
    }
    return Success(result);
  }

  method ReadStatuses(items: seq<Json>) returns (r: Result<seq<BatchDeliveryReportStatus>, Failure>)
    ensures r.Success? ==> forall x | x in r.value :: fresh(x)
    ensures r.Success? ==> ReadAll(items, StatusOf) == Success(StatusViews(r.value))
    ensures r.Failure? ==> ReadAll(items, StatusOf) == Failure(r.error)
  {
    var statuses: seq<BatchDeliveryReportStatus> := [];
    for i := 0 to |items|
      invariant forall x | x in statuses :: fresh(x)
      invariant ReadAll(items[..i], StatusOf) == Success(StatusViews(statuses))
    {
      var status := ReportStatus(items[i]);
      assert items[..i + 1][..i] == items[..i];
      if status.Failure? {
        ReadAllPrefixFailure(items, i + 1, StatusOf);
        return Failure(status.error);
      }
      assert (statuses + [status.value])[..|statuses|] == statuses;
      statuses := statuses + [status.value];
    }
    assert items[..|items|] == items;
    return Success(statuses);
  }

  /** `batch_delivery_report`. */
  method ReadDeliveryReport(resp: Response) returns (r: Result<BatchDeliveryReport, Failure>)
    ensures r.Success? ==> fresh(r.value) && forall x | x in r.value.statuses :: fresh(x)
    ensures r.Success? ==> DeliveryReportOf(resp) == Success(r.value.View())
    ensures r.Failure? ==> DeliveryReportOf(resp) == Failure(r.error)
  {
    var d :- ParsedJson(resp);
    var m :- ExpectType(resp.text, d, DELIVERY_REPORT_SMS, EXPECTED_DELIVERY_REPORT);
    var result := new BatchDeliveryReport();
    var batchId :- NullableStringField(m, "batch_id");
    result.batchId := batchId;
    var total :- NullableIntField(m, "total_message_count");
    result.totalMessageCount := total;
    var items :- ListField(m, "statuses");
    var statuses :- ReadStatuses(items);
    result.statuses := statuses;
    return Success(result);
  }

  /** `batch_recipient_delivery_report`. */
  function RecipientReportOf(resp: Response, iso: Iso8601): (r: Result<RecipientReport, Failure>)
    ensures r.Success? ==> resp.json.Success?
    ensures r.Success? ==> Has(resp.json.value, "type") && resp.json.value.members["type"] == JString(RECIPIENT_DELIVERY_REPORT_SMS)
    ensures r.Success? ==> Has(resp.json.value, "at") && r.value.statusAt.Some?
    ensures r.Success? ==> iso.parse(resp.json.value.members["at"]) == Success(r.value.statusAt.value)
    ensures resp.json.Success? && resp.json.value.JObject? &&
            !(Has(resp.json.value, "type") && resp.json.value.members["type"] == JString(RECIPIENT_DELIVERY_REPORT_SMS)) ==>
              r == Failure(Api(UnexpectedResponse(EXPECTED_RECIPIENT_DELIVERY_REPORT, resp.text)))
    ensures r.Success? ==>
      RecipientRequired(resp.text, resp.json.value.members, RecipientReport(None, None, None, None, None, None, None, None), iso)
        == Success(r.value.(statusMessage := None, operator := None, operatorStatusAt := None))
    ensures r.Success? ==> ReadIfGiven(resp.json.value.members, "status_message", None, r.value.statusMessage)
    ensures r.Success? ==> ReadIfGiven(resp.json.value.members, "operator", None, r.value.operator)
    ensures r.Success? ==> ParsedIfGiven(resp.json.value.members, "operator_status_at", None, r.value.operatorStatusAt, iso)
    ensures resp.json.Failure? ==> r == Failure(ValueError(resp.json.error))
  {
    var d :- ParsedJson(resp);
    var m :- ExpectType(resp.text, d, RECIPIENT_DELIVERY_REPORT_SMS, EXPECTED_RECIPIENT_DELIVERY_REPORT);
    var report :- RecipientRequired(resp.text, m, RecipientReport(None, None, None, None, None, None, None, None), iso);
    RecipientOptional(resp.text, m, report, iso)
  }

  /** The attributes every recipient report has. */
  function RecipientRequired(text: string, m: Fields, rep: RecipientReport, iso: Iso8601): (r: Result<RecipientReport, Failure>)
    ensures "batch_id" !in m ==> r == Failure(KeyError("batch_id"))
    ensures r.Success? ==> "batch_id" in m && AsNullableString(m["batch_id"]) == Success(r.value.batchId)
    ensures r.Success? ==> "recipient" in m && AsNullableString(m["recipient"]) == Success(r.value.recipient)
    ensures r.Success? ==> "code" in m && AsNullableInt(m["code"]) == Success(r.value.code)
    ensures r.Success? ==> "status" in m && AsNullableString(m["status"]) == Success(r.value.status)
    ensures r.Success? ==> "at" in m && r.value.statusAt.Some? && iso.parse(m["at"]) == Success(r.value.statusAt.value)
    ensures r.Success? ==> r.value.statusMessage == rep.statusMessage && r.value.operator == rep.operator &&
                           r.value.operatorStatusAt == rep.operatorStatusAt
  {
    var batchId :- NullableStringField(m, "batch_id");
    var recipient :- NullableStringField(m, "recipient");
    var code :- NullableIntField(m, "code");
    var status :- NullableStringField(m, "status");
    var statusAt :- DateTimeField(text, m, "at", iso);
    Success(rep.(batchId := batchId, recipient := recipient, code := code, status := status, statusAt := Some(statusAt)))
  }

  /** The attributes of a recipient report that are read only when given. */
  function RecipientOptional(text: string, m: Fields, rep: RecipientReport, iso: Iso8601): (r: Result<RecipientReport, Failure>)
    ensures r.Success? ==> ReadIfGiven(m, "status_message", rep.statusMessage, r.value.statusMessage)
    ensures r.Success? ==> ReadIfGiven(m, "operator", rep.operator, r.value.operator)
    ensures r.Success? ==> ParsedIfGiven(m, "operator_status_at", rep.operatorStatusAt, r.value.operatorStatusAt, iso)
    ensures r.Success? ==> r.value.(statusMessage := rep.statusMessage, operator := rep.operator,
                                    operatorStatusAt := rep.operatorStatusAt) == rep
  {
    var statusMessage :- OptionalString(m, "status_message", rep.statusMessage);
    var operator :- OptionalString(m, "operator", rep.operator);
    var operatorStatusAt :- OptionalDateTime(text, m, "operator_status_at", rep.operatorStatusAt, iso);
    Success(rep.(statusMessage := statusMessage, operator := operator, operatorStatusAt := operatorStatusAt))
  }

  method ReadRecipientRequired(text: string, m: Fields, report: BatchRecipientDeliveryReport, iso: Iso8601)
    returns (r: Result<(), Failure>)
    modifies report
    ensures r.Success? ==> RecipientRequired(text, m, old(report.View()), iso) == Success(report.View())
    ensures r.Failure? ==> RecipientRequired(text, m, old(report.View()), iso) == Failure(r.error)
  {
    var batchId :- NullableStringField(m, "batch_id");
    report.batchId := batchId;
    var recipient :- NullableStringField(m, "recipient");
    report.recipient := recipient;
    var code :- NullableIntField(m, "code");
    report.code := code;
    var status :- NullableStringField(m, "status");
    report.status := status;
    var statusAt :- DateTimeField(text, m, "at", iso);
    report.statusAt := Some(statusAt);
    return Success(());
  }

  method ReadRecipientOptional(text: string, m: Fields, report: BatchRecipientDeliveryReport, iso: Iso8601)
    returns (r: Result<(), Failure>)
    modifies report
    ensures r.Success? ==> RecipientOptional(text, m, old(report.View()), iso) == Success(report.View())
    ensures r.Failure? ==> RecipientOptional(text, m, old(report.View()), iso) == Failure(r.error)
  {
    var statusMessage :- OptionalString(m, "status_message", report.statusMessage);
    report.statusMessage := statusMessage;
    var operator :- OptionalString(m, "operator", report.operator);
    report.operator := operator;
    var operatorStatusAt :- OptionalDateTime(text, m, "operator_status_at", report.operatorStatusAt, iso);
    report.operatorStatusAt := operatorStatusAt;
    return Success(());
  }

  /** `batch_recipient_delivery_report`. */
  method ReadRecipientDeliveryReport(resp: Response, iso: Iso8601) returns (r: Result<BatchRecipientDeliveryReport, Failure>)
    ensures r.Success? ==> fresh(r.value) && RecipientReportOf(resp, iso) == Success(r.value.View())
    ensures r.Failure? ==> RecipientReportOf(resp, iso) == Failure(r.error)
  {
    var d :- ParsedJson(resp);
    var m :- ExpectType(resp.text, d, RECIPIENT_DELIVERY_REPORT_SMS, EXPECTED_RECIPIENT_DELIVERY_REPORT);
    var result := new BatchRecipientDeliveryReport();
    var _ :- ReadRecipientRequired(resp.text, m, result, iso);
    var _ :- ReadRecipientOptional(resp.text, m, result, iso);
    return Success(result);
  }

  // ------------------------------------------------------------ errors

  /** `error`: the error document's code and text. */
  function ErrorOf(resp: Response): (r: Result<Error, Failure>)
    ensures r.Success? ==> resp.json.Success?
    ensures r.Success? ==> Has(resp.json.value, "code") && Has(resp.json.value, "text")
    ensures r.Success? ==> resp.json.value.members["code"] == JString(r.value.code)
    ensures r.Success? ==> resp.json.value.members["text"] == JString(r.value.text)
    ensures resp.json.Failure? ==> r == Failure(ValueError(resp.json.error))
    ensures r.Failure? ==> !r.error.Api?
  {
    var d :- ParsedJson(resp);
    var m :- AsObject(d);
    var code :- StringField(m, "code");
    var text :- StringField(m, "text");
    Success(Error(code, text))
  }

  // ------------------------------------------------------------ groups

  /** `d.get(key, None)` on a word pair map, read as an optional string. */
  function WordOf(pair: Fields, key: string): (r: Result<Option<string>, Failure>)
    ensures key !in pair ==> r == Success(None)
    ensures key in pair ==> r == AsNullableString(pair[key])
  {
    AsNullableString(if key in pair then pair[key] else JNull)
  }

  /** `_auto_update_from_fields`: `to` is required; a missing `add` or
    * `remove` map, or a missing word in it, reads as `None`. */
  function AutoUpdateOf(j: Json): (r: Result<GroupAutoUpdate, Failure>)
    ensures !j.JObject? ==> r == Failure(AttributeError(NO_GET))
    ensures j.JObject? && "to" !in j.members ==> r == Failure(KeyError("to"))
    ensures r.Success? ==> Has(j, "to") && j.members["to"] == JString(r.value.recipient)
    ensures r.Success? && !Has(j, "add") ==> r.value.addWordPair == (None, None)
    ensures r.Success? && !Has(j, "remove") ==> r.value.removeWordPair == (None, None)
    ensures r.Success? && Has(j, "add") ==>
              j.members["add"].JObject? &&
              WordOf(j.members["add"].members, "first_word") == Success(r.value.addWordPair.0) &&
              WordOf(j.members["add"].members, "second_word") == Success(r.value.addWordPair.1)
    ensures r.Success? && Has(j, "remove") ==>
              j.members["remove"].JObject? &&
              WordOf(j.members["remove"].members, "first_word") == Success(r.value.removeWordPair.0) &&
              WordOf(j.members["remove"].members, "second_word") == Success(r.value.removeWordPair.1)
  {
    if !j.JObject? then Failure(AttributeError(NO_GET)) else
    var m := j.members;
    var addMap := if "add" in m then m["add"] else JObject(map[]);
    var removeMap := if "remove" in m then m["remove"] else JObject(map[]);
    var recipient :- StringField(m, "to");
    match (addMap, removeMap)
    case (JObject(add), JObject(remove)) =>
      var addFirst :- WordOf(add, "first_word");
      var addSecond :- WordOf(add, "second_word");
      var removeFirst :- WordOf(remove, "first_word");
      var removeSecond :- WordOf(remove, "second_word");
      Success(GroupAutoUpdate(recipient, (addFirst, addSecond), (removeFirst, removeSecond)))
    case _ => Failure(AttributeError(NO_GET))
  }

  /** `_group_result_from_fields`. */
  function GroupOf(text: string, d: Json, iso: Iso8601): (r: Result<Group, Failure>)
    ensures !d.JObject? ==> r == Failure(TypeError(NOT_SUBSCRIPTABLE))
    ensures r.Success? ==> Has(d, "child_groups") && AsStringSet(d.members["child_groups"]) == Success(r.value.childGroups)
    ensures r.Success? ==> Has(d, "id") && AsNullableString(d.members["id"]) == Success(r.value.groupId)
    ensures r.Success? ==> Has(d, "size") && AsNullableInt(d.members["size"]) == Success(r.value.size)
    ensures r.Success? ==> Has(d, "created_at") && r.value.createdAt.Some? &&
                           iso.parse(d.members["created_at"]) == Success(r.value.createdAt.value)
    ensures r.Success? ==> Has(d, "modified_at") && r.value.modifiedAt.Some? &&
                           iso.parse(d.members["modified_at"]) == Success(r.value.modifiedAt.value)
    ensures r.Success? ==> ReadIfGiven(d.members, "name", None, r.value.name)
    ensures r.Success? ==> (r.value.autoUpdate.Some? <==> Has(d, "auto_update"))
    ensures r.Success? && r.value.autoUpdate.Some? ==> AutoUpdateOf(d.members["auto_update"]) == Success(r.value.autoUpdate.value)
  {
    var m :- AsObject(d);
    var g :- GroupRequired(text, m, Group(None, None, None, {}, None, None, None), iso);
    GroupOptional(m, g)
  }

  /** The attributes every group document has. */
  function GroupRequired(text: string, m: Fields, g: Group, iso: Iso8601): (r: Result<Group, Failure>)
    ensures "child_groups" !in m ==> r == Failure(KeyError("child_groups"))
    ensures r.Success? ==> "child_groups" in m && AsStringSet(m["child_groups"]) == Success(r.value.childGroups)
    ensures r.Success? ==> "id" in m && AsNullableString(m["id"]) == Success(r.value.groupId)
    ensures r.Success? ==> "size" in m && AsNullableInt(m["size"]) == Success(r.value.size)
    ensures r.Success? ==> "created_at" in m && r.value.createdAt.Some? && iso.parse(m["created_at"]) == Success(r.value.createdAt.value)
    ensures r.Success? ==> "modified_at" in m && r.value.modifiedAt.Some? && iso.parse(m["modified_at"]) == Success(r.value.modifiedAt.value)
    ensures r.Success? ==> r.value.name == g.name && r.value.autoUpdate == g.autoUpdate
  {
    var childGroups :- StringSetField(m, "child_groups");
    var groupId :- NullableStringField(m, "id");
    var size :- NullableIntField(m, "size");
    var createdAt :- DateTimeField(text, m, "created_at", iso);
    var modifiedAt :- DateTimeField(text, m, "modified_at", iso);
    Success(g.(childGroups := childGroups, groupId := groupId, size := size,
               createdAt := Some(createdAt), modifiedAt := Some(modifiedAt)))
  }

  /** The name and the auto update rule, when given. */
  function GroupOptional(m: Fields, g: Group): (r: Result<Group, Failure>)
    ensures r.Success? ==> ReadIfGiven(m, "name", g.name, r.value.name)
    ensures r.Success? ==> (r.value.autoUpdate.Some? <==> "auto_update" in m || g.autoUpdate.Some?)
    ensures r.Success? && "auto_update" in m ==> AutoUpdateOf(m["auto_update"]) == Success(r.value.autoUpdate.value)
    ensures r.Success? ==> r.value.(name := g.name, autoUpdate := g.autoUpdate) == g
  {
    var name :- OptionalString(m, "name", g.name);
    var autoUpdate :- if "auto_update" in m then (var a :- AutoUpdateOf(m["auto_update"]); Success(Some(a)))
                      else Success(g.autoUpdate);
    Success(g.(name := name, autoUpdate := autoUpdate))
  }

  method ReadGroupRequired(text: string, m: Fields, group: GroupResult, iso: Iso8601) returns (r: Result<(), Failure>)
    modifies group
    ensures r.Success? ==> GroupRequired(text, m, old(group.View()), iso) == Success(group.View())
    ensures r.Failure? ==> GroupRequired(text, m, old(group.View()), iso) == Failure(r.error)
  {
    var childGroups :- StringSetField(m, "child_groups");
    group.childGroups := childGroups;
    var groupId :- NullableStringField(m, "id");
    group.groupId := groupId;
    var size :- NullableIntField(m, "size");
    group.size := size;
    var createdAt :- DateTimeField(text, m, "created_at", iso);
    group.createdAt := Some(createdAt);
    var modifiedAt :- DateTimeField(text, m, "modified_at", iso);
    group.modifiedAt := Some(modifiedAt);
    return Success(());
  }

  method ReadGroupOptional(m: Fields, group: GroupResult) returns (r: Result<(), Failure>)
    modifies group
    ensures r.Success? ==> GroupOptional(m, old(group.View())) == Success(group.View())
    ensures r.Failure? ==> GroupOptional(m, old(group.View())) == Failure(r.error)
  {
    if "name" in m {
      var name :- AsNullableString(m["name"]);
      group.name := name;
    }
    if "auto_update" in m {
      var autoUpdate :- AutoUpdateOf(m["auto_update"]);
      group.autoUpdate := Some(autoUpdate);
    }
    return Success(());
  }

  /** `_group_result_from_fields`. */
  method GroupResultFromFields(text: string, d: Json, iso: Iso8601) returns (r: Result<GroupResult, Failure>)
    ensures r.Success? ==> fresh(r.value) && GroupOf(text, d, iso) == Success(r.value.View())
    ensures r.Failure? ==> GroupOf(text, d, iso) == Failure(r.error)
  {
    var m :- AsObject(d);
    var result := new GroupResult();
    var _ :- ReadGroupRequired(text, m, result, iso);
    var _ :- ReadGroupOptional(m, result);
    return Success(result);
  }

  /** `group_result`: a parse failure escapes as the parser's `ValueError`. */
  function GroupResultOf(resp: Response, iso: Iso8601): (r: Result<Group, Failure>)
    ensures resp.json.Failure? ==> r == Failure(ValueError(resp.json.error))
    ensures resp.json.Success? ==> r == GroupOf(resp.text, resp.json.value, iso)
  {
    var d :- ParsedJson(resp);
    GroupOf(resp.text, d, iso)
  }

  /** `group_result`: parses with `response.json()` directly. */
  method ReadGroupResult(resp: Response, iso: Iso8601) returns (r: Result<GroupResult, Failure>)
    ensures r.Success? ==> fresh(r.value) && GroupResultOf(resp, iso) == Success(r.value.View())
    ensures r.Failure? ==> GroupResultOf(resp, iso) == Failure(r.error)
  {
    var d :- ParsedJson(resp);
    r := GroupResultFromFields(resp.text, d, iso);
  }

  function GroupReader(text: string, iso: Iso8601): Json -> Result<Group, Failure>
  {
    j => GroupOf(text, j, iso)
  }

  method ReadGroups(text: string, items: seq<Json>, iso: Iso8601) returns (r: Result<seq<GroupResult>, Failure>)
    ensures r.Success? ==> forall g | g in r.value :: fresh(g)
    ensures r.Success? ==> ReadAll(items, GroupReader(text, iso)) == Success(GroupViews(r.value))
    ensures r.Failure? ==> ReadAll(items, GroupReader(text, iso)) == Failure(r.error)
  {
    var content: seq<GroupResult> := [];
    for i := 0 to |items|
      invariant forall g | g in content :: fresh(g)
      invariant ReadAll(items[..i], GroupReader(text, iso)) == Success(GroupViews(content))
    {
      var group := GroupResultFromFields(text, items[i], iso);
      if group.Failure? {
        assert items[..i + 1][..i] == items[..i];
        ReadAllPrefixFailure(items, i + 1, GroupReader(text, iso));
        return Failure(group.error);
      }
      ReadAllStep(items, i, GroupReader(text, iso));
      assert (content + [group.value])[..|content|] == content;
      content := content + [group.value];
    }
    assert items[..|items|] == items;
    return Success(content);
  }

  function GroupsPageOf(resp: Response, iso: Iso8601): (r: Result<Listing<Group>, Failure>)
    ensures resp.json.Failure? ==> r == Failure(Api(UnexpectedResponse(resp.json.error, resp.text)))
    ensures resp.json.Success? ==> r == ListingOf(resp.json.value, "groups", GroupReader(resp.text, iso))
  {
    var d :- CheckResponse(resp);
    ListingOf(d, "groups", GroupReader(resp.text, iso))
  }

  /** `groups_page`. */
  method ReadGroupsPage(resp: Response, iso: Iso8601) returns (r: Result<Page<GroupResult>, Failure>)
    ensures r.Success? ==> fresh(r.value) && (forall g | g in r.value.content :: fresh(g))
    ensures r.Success? ==> (GroupsPageOf(resp, iso) ==
                            Success(Listing(r.value.page, r.value.size, r.value.totalSize, GroupViews(r.value.content))))
    ensures r.Failure? ==> GroupsPageOf(resp, iso) == Failure(r.error)
  {
    var d :- CheckResponse(resp);
    var m :- AsObject(d);
    var result := new Page<GroupResult>();
    var page :- NullableIntField(m, "page");
    result.page := page;
    var size :- NullableIntField(m, "page_size");
    result.size := size;
    var totalSize :- NullableIntField(m, "count");
    result.totalSize := totalSize;
    var items :- ListField(m, "groups");
    var content :- ReadGroups(resp.text, items, iso);
    result.content := content;
    return Success(result);
  }

  /** `group_members`: the document is the list of members. */
  function GroupMembersOf(resp: Response): (r: Result<set<string>, Failure>)
    ensures resp.json.Failure? ==> r == Failure(Api(UnexpectedResponse(resp.json.error, resp.text)))
    ensures resp.json.Success? ==> r == AsStringSet(resp.json.value)
  {
    var d :- CheckResponse(resp);
    AsStringSet(d)
  }

  /** `tags`: the set of the `tags` list. */
  function TagsOf(resp: Response): (r: Result<set<string>, Failure>)
    ensures resp.json.Failure? ==> r == Failure(Api(UnexpectedResponse(resp.json.error, resp.text)))
    ensures r.Success? ==> Has(resp.json.value, "tags") && AsStringSet(resp.json.value.members["tags"]) == r
  {
    var d :- CheckResponse(resp);
    var m :- AsObject(d);
    StringSetField(m, "tags")
  }

  // ------------------------------------------------------- inbound messages

  /** The variant part of `_mo_sms_from_fields`, by the document's `type`. */
  function MoPayloadOf(text: string, m: Fields): (r: Result<MoPayload, Failure>)
    ensures r.Success? ==> "type" in m
    ensures r.Success? ==> (r.value.MoText? <==> m["type"] == JString(MO_TEXT))
    ensures r.Success? ==> (r.value.MoBinary? <==> m["type"] == JString(MO_BINARY))
    ensures "type" !in m ==> r == Failure(KeyError("type"))
    ensures r.Success? && r.value.MoText? ==> "body" in m && AsNullableString(m["body"]) == Success(r.value.body)
    ensures r.Success? && r.value.MoText? ==> ReadIfGiven(m, "keyword", None, r.value.keyword)
    ensures r.Success? && r.value.MoBinary? ==>
              "udh" in m && r.value.udh.Some? && HexOf(m["udh"]) == Success(r.value.udh.value)
    ensures r.Success? && r.value.MoBinary? ==>
              "body" in m && r.value.binaryBody.Some? && Base64Of(m["body"]) == Success(r.value.binaryBody.value)
    ensures "type" in m && m["type"].JString? && m["type"].s != MO_TEXT && m["type"].s != MO_BINARY
            ==> r == Failure(Api(UnexpectedResponse(UNEXPECTED_INBOUND_TYPE + m["type"].s, text)))
  {
    var t :- Field(m, "type");
    if t == JString(MO_TEXT) then
      var body :- NullableStringField(m, "body");
      var keyword :- OptionalString(m, "keyword", None);
      Success(MoText(body, keyword))
    else if t == JString(MO_BINARY) then
      var udh :- HexField(m, "udh");
      var body :- Base64Field(m, "body");
      Success(MoBinary(Some(body), Some(udh)))
    else
      UnknownType(text, UNEXPECTED_INBOUND_TYPE, t)
  }

  /** `_mo_sms_from_fields`. */
  function MoOf(text: string, d: Json, iso: Iso8601): (r: Result<Mo, Failure>)
    ensures !d.JObject? ==> r == Failure(TypeError(NOT_SUBSCRIPTABLE))
    ensures r.Success? ==> MoPayloadOf(text, d.members) == Success(r.value.payload)
    ensures r.Success? ==> Has(d, "id") && AsNullableString(d.members["id"]) == Success(r.value.messageId)
    ensures r.Success? ==> Has(d, "from") && AsNullableString(d.members["from"]) == Success(r.value.sender)
    ensures r.Success? ==> Has(d, "to") && AsNullableString(d.members["to"]) == Success(r.value.recipient)
    ensures r.Success? ==> ReadIfGiven(d.members, "operator", None, r.value.operator)
    ensures r.Success? ==> ParsedIfGiven(d.members, "sent_at", None, r.value.sentAt, iso)
    ensures r.Success? ==> ParsedIfGiven(d.members, "received_at", None, r.value.receivedAt, iso)
  {
    var m :- AsObject(d);
    var payload :- MoPayloadOf(text, m);
    var mo :- MoRequired(m, Mo(None, None, None, None, None, None, payload));
    MoOptional(text, m, mo, iso)
  }

  /** The identifier and the two parties, which every inbound message has. */
  function MoRequired(m: Fields, mo: Mo): (r: Result<Mo, Failure>)
    ensures "id" !in m ==> r == Failure(KeyError("id"))
    ensures r.Success? ==> "id" in m && AsNullableString(m["id"]) == Success(r.value.messageId)
    ensures r.Success? ==> "from" in m && AsNullableString(m["from"]) == Success(r.value.sender)
    ensures r.Success? ==> "to" in m && AsNullableString(m["to"]) == Success(r.value.recipient)
    ensures r.Success? ==> r.value.(messageId := mo.messageId, sender := mo.sender, recipient := mo.recipient) == mo
  {
    var messageId :- NullableStringField(m, "id");
    var sender :- NullableStringField(m, "from");
    var recipient :- NullableStringField(m, "to");
    Success(mo.(messageId := messageId, sender := sender, recipient := recipient))
  }

  /** The operator and the two timestamps, when given. */
  function MoOptional(text: string, m: Fields, mo: Mo, iso: Iso8601): (r: Result<Mo, Failure>)
    ensures r.Success? ==> ReadIfGiven(m, "operator", mo.operator, r.value.operator)
    ensures r.Success? ==> ParsedIfGiven(m, "sent_at", mo.sentAt, r.value.sentAt, iso)
    ensures r.Success? ==> ParsedIfGiven(m, "received_at", mo.receivedAt, r.value.receivedAt, iso)
    ensures r.Success? ==> r.value.(operator := mo.operator, sentAt := mo.sentAt, receivedAt := mo.receivedAt) == mo
  {
    var operator :- OptionalString(m, "operator", mo.operator);
    var sentAt :- OptionalDateTime(text, m, "sent_at", mo.sentAt, iso);
    var receivedAt :- OptionalDateTime(text, m, "received_at", mo.receivedAt, iso);
    Success(mo.(operator := operator, sentAt := sentAt, receivedAt := receivedAt))
  }

  method ReadMoRequired(m: Fields, mo: MoSms) returns (r: Result<(), Failure>)
    modifies mo
    ensures r.Success? ==> MoRequired(m, old(mo.View())) == Success(mo.View())
    ensures r.Failure? ==> MoRequired(m, old(mo.View())) == Failure(r.error)
  {
    var messageId :- NullableStringField(m, "id");
    mo.messageId := messageId;
    var sender :- NullableStringField(m, "from");
    mo.sender := sender;
    var recipient :- NullableStringField(m, "to");
    mo.recipient := recipient;
    return Success(());
  }

  method ReadMoOptional(text: string, m: Fields, mo: MoSms, iso: Iso8601) returns (r: Result<(), Failure>)
    modifies mo
    ensures r.Success? ==> MoOptional(text, m, old(mo.View()), iso) == Success(mo.View())
    ensures r.Failure? ==> MoOptional(text, m, old(mo.View()), iso) == Failure(r.error)
  {
    var operator :- OptionalString(m, "operator", mo.operator);
    mo.operator := operator;
    var sentAt :- OptionalDateTime(text, m, "sent_at", mo.sentAt, iso);
    mo.sentAt := sentAt;
    var receivedAt :- OptionalDateTime(text, m, "received_at", mo.receivedAt, iso);
    mo.receivedAt := receivedAt;
    return Success(());
  }

  /** `_mo_sms_from_fields`: creates the message object of the document's
    * variant, then reads the common attributes into it. */
  method MoSmsFromFields(text: string, d: Json, iso: Iso8601) returns (r: Result<MoSms, Failure>)
    ensures r.Success? ==> fresh(r.value) && MoOf(text, d, iso) == Success(r.value.View())
    ensures r.Failure? ==> MoOf(text, d, iso) == Failure(r.error)
  {
    var m :- AsObject(d);
    var t :- Field(m, "type");
    var result: MoSms;
    if t == JString(MO_TEXT) {
      result := new MoSms.Text();
      var body :- NullableStringField(m, "body");
      result.payload := result.payload.(body := body);
      if "keyword" in m {
        var keyword :- AsNullableString(m["keyword"]);
        result.payload := result.payload.(keyword := keyword);
      }
    } else if t == JString(MO_BINARY) {
      result := new MoSms.Binary();
      var udh :- HexField(m, "udh");
      result.payload := result.payload.(udh := Some(udh));
      var body :- Base64Field(m, "body");
      result.payload := result.payload.(binaryBody := Some(body));
    } else {
      return UnknownType(text, UNEXPECTED_INBOUND_TYPE, t);
    }
    var _ :- ReadMoRequired(m, result);
    var _ :- ReadMoOptional(text, m, result, iso);
    return Success(result);
  }

  /** `mo_sms`: the document checked, then read as an inbound message. */
  function MoSmsOf(resp: Response, iso: Iso8601): (r: Result<Mo, Failure>)
    ensures resp.json.Failure? ==> r == Failure(Api(UnexpectedResponse(resp.json.error, resp.text)))
    ensures resp.json.Success? ==> r == MoOf(resp.text, resp.json.value, iso)
  {
    var d :- CheckResponse(resp);
    MoOf(resp.text, d, iso)
  }

  /** `mo_sms`. */
  method ReadMoSms(resp: Response, iso: Iso8601) returns (r: Result<MoSms, Failure>)
    ensures r.Success? ==> fresh(r.value) && MoSmsOf(resp, iso) == Success(r.value.View())
    ensures r.Failure? ==> MoSmsOf(resp, iso) == Failure(r.error)
  {
    var d :- CheckResponse(resp);
    r := MoSmsFromFields(resp.text, d, iso);
  }

  function MoReader(text: string, iso: Iso8601): Json -> Result<Mo, Failure>
  {
    j => MoOf(text, j, iso)
  }

  method ReadInbounds(text: string, items: seq<Json>, iso: Iso8601) returns (r: Result<seq<MoSms>, Failure>)
    ensures r.Success? ==> forall x | x in r.value :: fresh(x)
    ensures r.Success? ==> ReadAll(items, MoReader(text, iso)) == Success(MoViews(r.value))
    ensures r.Failure? ==> ReadAll(items, MoReader(text, iso)) == Failure(r.error)
  {
    var content: seq<MoSms> := [];
    for i := 0 to |items|
      invariant forall x | x in content :: fresh(x)
      invariant ReadAll(items[..i], MoReader(text, iso)) == Success(MoViews(content))
    {
      var mo := MoSmsFromFields(text, items[i], iso);
      if mo.Failure? {
        assert items[..i + 1][..i] == items[..i];
        ReadAllPrefixFailure(items, i + 1, MoReader(text, iso));
        return Failure(mo.error);
      }
      ReadAllStep(items, i, MoReader(text, iso));
      assert (content + [mo.value])[..|content|] == content;
      content := content + [mo.value];
    }
    assert items[..|items|] == items;
    return Success(content);
  }

  function InboundsPageOf(resp: Response, iso: Iso8601): (r: Result<Listing<Mo>, Failure>)
    ensures resp.json.Failure? ==> r == Failure(Api(UnexpectedResponse(resp.json.error, resp.text)))
    ensures resp.json.Success? ==> r == ListingOf(resp.json.value, "inbounds", MoReader(resp.text, iso))
  {
    var d :- CheckResponse(resp);
    ListingOf(d, "inbounds", MoReader(resp.text, iso))
  }

  /** `inbounds_page`. */
  method ReadInboundsPage(resp: Response, iso: Iso8601) returns (r: Result<Page<MoSms>, Failure>)
    ensures r.Success? ==> fresh(r.value) && (forall x | x in r.value.content :: fresh(x))
    ensures r.Success? ==> (InboundsPageOf(resp, iso) ==
                            Success(Listing(r.value.page, r.value.size, r.value.totalSize, MoViews(r.value.content))))
    ensures r.Failure? ==> InboundsPageOf(resp, iso) == Failure(r.error)
  {
    var d :- CheckResponse(resp);
    var m :- AsObject(d);
    var result := new Page<MoSms>();
    var page :- NullableIntField(m, "page");
    result.page := page;
    var size :- NullableIntField(m, "page_size");
    result.size := size;
    var totalSize :- NullableIntField(m, "count");
    result.totalSize := totalSize;
    var items :- ListField(m, "inbounds");
    var content :- ReadInbounds(resp.text, items, iso);
    result.content := content;
    return Success(result);
  }
}
