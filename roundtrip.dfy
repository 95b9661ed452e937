/** How the serializer and the deserializer fit together: what the SDK
  * writes for a batch or an auto update rule, once the server has echoed it
  * back with the attributes it assigns, reads back as the object that was
  * written — except for attributes that are false in Python's sense, which
  * the serializer leaves out and which therefore come back unset. */
module RoundTrip {

  import opened Wrappers
  import opened Exceptions
  import opened Json
  import opened Timestamps
  import opened Encoding
  import opened Api
  import Serialize
  import Deserialize

  /** What the server adds to a batch it accepts. */
  datatype ServerAttributes = ServerAttributes(batchId: string, canceled: bool, createdAt: DateTime, modifiedAt: DateTime)

  /** The batch document the server answers with: the attributes the SDK
    * sent, plus the ones the server assigns. */
  function Echo(fields: Fields, s: ServerAttributes, iso: Iso8601): Json
  {
    JObject(fields + map[
      "id" := JString(s.batchId),
      "canceled" := JBool(s.canceled),
      "created_at" := JString(iso.formatDateTime(s.createdAt)),
      "modified_at" := JString(iso.formatDateTime(s.modifiedAt))])
  }

  /** A string attribute after a round trip: a false one was not sent. */
  function Kept(o: Option<string>): (r: Option<string>)
    ensures r.Some? <==> TruthyString(o)
    ensures r.Some? ==> r == o
  {
    if TruthyString(o) then o else None
  }

  /** The timestamp library gives back every timestamp the round trip passes
    * through. */
  ghost predicate Faithful(iso: Iso8601, o: Option<DateTime>)
  {
    o.Some? ==> FaithfulOn(iso, o.value)
  }

  /** The common attributes the SDK wrote under `m`, as the batch result
    * reads them back. */
  function CommonReadBack(b: MtBatchSmsCreate, s: ServerAttributes, payload: ResultPayload): Batch
    reads b
  {
    Batch(Some(s.batchId), b.recipients, b.sender, Some(s.canceled),
          Kept(b.deliveryReport), b.sendAt, b.expireAt, Some(s.createdAt), Some(s.modifiedAt),
          Kept(b.callbackUrl), payload)
  }

  /** The echo keeps what the SDK sent under every key the server does not
    * assign. */
  lemma EchoKeeps(fields: Fields, s: ServerAttributes, iso: Iso8601, k: string)
    requires k != "id" && k != "canceled" && k != "created_at" && k != "modified_at"
    ensures Serialize.At(Echo(fields, s, iso).members, k) == Serialize.At(fields, k)
  {
  }

  /** `id`, `to`, `from` and `canceled` read back. */
  lemma RequiredReadBack(m: Fields, b0: Batch, s: ServerAttributes, recipients: set<string>, sender: Option<string>)
    requires Serialize.At(m, "id") == Some(JString(s.batchId))
    requires Serialize.At(m, "canceled") == Some(JBool(s.canceled))
    requires Serialize.At(m, "to") == Some(Serialize.SortedArray(recipients))
    requires Serialize.At(m, "from") == Some(NullableString(sender))
    ensures Deserialize.BatchRequired(m, b0)
         == Success(b0.(batchId := Some(s.batchId), recipients := recipients, sender := sender, canceled := Some(s.canceled)))
  {
    Serialize.SortedArrayReadsBack(recipients);
  }

  /** The delivery report type and the send window read back; a false
    * delivery report type was not sent and stays unset. */
  lemma ScheduleReadBack(text: string, m: Fields, b0: Batch, iso: Iso8601,
                         deliveryReport: Option<string>, sendAt: Option<DateTime>, expireAt: Option<DateTime>)
    requires b0.deliveryReport == None && b0.sendAt == None && b0.expireAt == None
    requires Serialize.At(m, "delivery_report") == Serialize.IfTruthy(deliveryReport)
    requires Serialize.At(m, "send_at") == Serialize.DateTimeIfGiven(sendAt, iso)
    requires Serialize.At(m, "expire_at") == Serialize.DateTimeIfGiven(expireAt, iso)
    requires Faithful(iso, sendAt) && Faithful(iso, expireAt)
    ensures Deserialize.BatchSchedule(text, m, b0, iso)
         == Success(b0.(deliveryReport := Kept(deliveryReport), sendAt := sendAt, expireAt := expireAt))
  {
  }

  /** The server's timestamps and the callback URL read back. */
  lemma TrailReadBack(text: string, m: Fields, b0: Batch, iso: Iso8601, s: ServerAttributes, callbackUrl: Option<string>)
    requires b0.callbackUrl == None
    requires Serialize.At(m, "created_at") == Some(JString(iso.formatDateTime(s.createdAt)))
    requires Serialize.At(m, "modified_at") == Some(JString(iso.formatDateTime(s.modifiedAt)))
    requires Serialize.At(m, "callback_url") == Serialize.IfTruthy(callbackUrl)
    requires FaithfulOn(iso, s.createdAt) && FaithfulOn(iso, s.modifiedAt)
    ensures Deserialize.BatchTrail(text, m, b0, iso)
         == Success(b0.(createdAt := Some(s.createdAt), modifiedAt := Some(s.modifiedAt), callbackUrl := Kept(callbackUrl)))
  {
  }

  /** What `_create_batch_helper` wrote, key by key. */
  predicate WroteCommon(b: MtBatchSmsCreate, iso: Iso8601, fields: Fields)
    reads b
  {
    && Serialize.At(fields, "to") == Some(Serialize.SortedArray(b.recipients))
    && Serialize.At(fields, "from") == Some(NullableString(b.sender))
    && Serialize.At(fields, "delivery_report") == Serialize.IfTruthy(b.deliveryReport)
    && Serialize.At(fields, "send_at") == Serialize.DateTimeIfGiven(b.sendAt, iso)
    && Serialize.At(fields, "expire_at") == Serialize.DateTimeIfGiven(b.expireAt, iso)
    && Serialize.At(fields, "callback_url") == Serialize.IfTruthy(b.callbackUrl)
    && Serialize.At(fields, "id").None? && Serialize.At(fields, "canceled").None?
    && Serialize.At(fields, "created_at").None? && Serialize.At(fields, "modified_at").None?
  }

  /** `_batch_response_helper` on the echo of `_create_batch_helper`'s
    * output gives back the batch's common attributes. */
  lemma CommonAttributesReadBack(text: string, b: MtBatchSmsCreate, iso: Iso8601, fields: Fields,
                                 s: ServerAttributes, payload: ResultPayload)
    requires WroteCommon(b, iso, fields)
    requires Faithful(iso, b.sendAt) && Faithful(iso, b.expireAt)
    requires FaithfulOn(iso, s.createdAt) && FaithfulOn(iso, s.modifiedAt)
    ensures Echo(fields, s, iso).JObject?
    ensures Deserialize.BatchCommon(text, Echo(fields, s, iso).members, DefaultBatch(payload), iso)
         == Success(CommonReadBack(b, s, payload))
  {
    var m := Echo(fields, s, iso).members;
    EchoKeeps(fields, s, iso, "to");
    EchoKeeps(fields, s, iso, "from");
    EchoKeeps(fields, s, iso, "delivery_report");
    EchoKeeps(fields, s, iso, "send_at");
    EchoKeeps(fields, s, iso, "expire_at");
    EchoKeeps(fields, s, iso, "callback_url");
    var b0 := DefaultBatch(payload);
    RequiredReadBack(m, b0, s, b.recipients, b.sender);
    var b1 := b0.(batchId := Some(s.batchId), recipients := b.recipients, sender := b.sender, canceled := Some(s.canceled));
    ScheduleReadBack(text, m, b1, iso, b.deliveryReport, b.sendAt, b.expireAt);
    var b2 := b1.(deliveryReport := Kept(b.deliveryReport), sendAt := b.sendAt, expireAt := b.expireAt);
    TrailReadBack(text, m, b2, iso, s, b.callbackUrl);
  }

  /** What `text_batch` wrote, key by key. */
  lemma TextWrote(b: MtBatchSmsCreate, iso: Iso8601, fields: Fields)
    requires b.payload.TextCreate?
    requires forall k :: Serialize.At(fields, k) == Serialize.TextExpected(b, iso, k)
    ensures WroteCommon(b, iso, fields)
    ensures Serialize.At(fields, "type") == Some(JString(Serialize.MT_TEXT))
    ensures Serialize.At(fields, "body") == Some(NullableString(b.payload.body))
    ensures Serialize.At(fields, "parameters") == Serialize.ParametersIfNonEmpty(b.payload.parameters)
  {
    assert Serialize.At(fields, "type") == Serialize.TextExpected(b, iso, "type");
    assert Serialize.At(fields, "body") == Serialize.TextExpected(b, iso, "body");
    assert Serialize.At(fields, "parameters") == Serialize.TextExpected(b, iso, "parameters");
    assert Serialize.At(fields, "to") == Serialize.TextExpected(b, iso, "to");
    assert Serialize.At(fields, "from") == Serialize.TextExpected(b, iso, "from");
    assert Serialize.At(fields, "delivery_report") == Serialize.TextExpected(b, iso, "delivery_report");
    assert Serialize.At(fields, "send_at") == Serialize.TextExpected(b, iso, "send_at");
    assert Serialize.At(fields, "expire_at") == Serialize.TextExpected(b, iso, "expire_at");
    assert Serialize.At(fields, "callback_url") == Serialize.TextExpected(b, iso, "callback_url");
    assert Serialize.At(fields, "id") == Serialize.TextExpected(b, iso, "id");
    assert Serialize.At(fields, "canceled") == Serialize.TextExpected(b, iso, "canceled");
    assert Serialize.At(fields, "created_at") == Serialize.TextExpected(b, iso, "created_at");
    assert Serialize.At(fields, "modified_at") == Serialize.TextExpected(b, iso, "modified_at");
  }

  /** What `binary_batch` wrote, key by key. */
  lemma BinaryWrote(b: MtBatchSmsCreate, iso: Iso8601, fields: Fields)
    requires b.payload.BinaryCreate? && b.payload.binaryBody.Some? && b.payload.udh.Some?
    requires forall k :: Serialize.At(fields, k) == Serialize.BinaryExpected(b, iso, k)
    ensures WroteCommon(b, iso, fields)
    ensures Serialize.At(fields, "type") == Some(JString(Serialize.MT_BINARY))
    ensures Serialize.At(fields, "body") == Some(JString(B2aBase64(b.payload.binaryBody.value)))
    ensures Serialize.At(fields, "udh") == Some(JString(Hexlify(b.payload.udh.value)))
  {
    assert Serialize.At(fields, "type") == Serialize.BinaryExpected(b, iso, "type");
    assert Serialize.At(fields, "body") == Serialize.BinaryExpected(b, iso, "body");
    assert Serialize.At(fields, "udh") == Serialize.BinaryExpected(b, iso, "udh");
    assert Serialize.At(fields, "to") == Serialize.BinaryExpected(b, iso, "to");
    assert Serialize.At(fields, "from") == Serialize.BinaryExpected(b, iso, "from");
    assert Serialize.At(fields, "delivery_report") == Serialize.BinaryExpected(b, iso, "delivery_report");
    assert Serialize.At(fields, "send_at") == Serialize.BinaryExpected(b, iso, "send_at");
    assert Serialize.At(fields, "expire_at") == Serialize.BinaryExpected(b, iso, "expire_at");
    assert Serialize.At(fields, "callback_url") == Serialize.BinaryExpected(b, iso, "callback_url");
    assert Serialize.At(fields, "id") == Serialize.BinaryExpected(b, iso, "id");
    assert Serialize.At(fields, "canceled") == Serialize.BinaryExpected(b, iso, "canceled");
    assert Serialize.At(fields, "created_at") == Serialize.BinaryExpected(b, iso, "created_at");
    assert Serialize.At(fields, "modified_at") == Serialize.BinaryExpected(b, iso, "modified_at");
  }

  /** A text batch document whose common attributes read back as `expected`
    * reads back as `expected`. */
  lemma TextDocumentReadsBack(text: string, m: Fields, iso: Iso8601, body: Option<string>, parameters: Option<Json>, expected: Batch)
    requires Serialize.At(m, "type") == Some(JString(Deserialize.MT_TEXT))
    requires Serialize.At(m, "body") == Some(NullableString(body))
    requires Serialize.At(m, "parameters") == parameters
    requires Deserialize.BatchCommon(text, m, DefaultBatch(TextResult(body, parameters)), iso) == Success(expected)
    ensures Deserialize.BatchOf(text, JObject(m), iso) == Success(expected)
  {
  }

  /** Likewise for a binary batch document whose body and UDH decode to the
    * given bytes. */
  lemma BinaryDocumentReadsBack(text: string, m: Fields, iso: Iso8601, body: Bytes, udh: Bytes, expected: Batch)
    requires Serialize.At(m, "type") == Some(JString(Deserialize.MT_BINARY))
    requires Serialize.At(m, "body") == Some(JString(B2aBase64(body)))
    requires Serialize.At(m, "udh") == Some(JString(Hexlify(udh)))
    requires Deserialize.BatchCommon(text, m, DefaultBatch(BinaryResult(Some(body), Some(udh))), iso) == Success(expected)
    ensures Deserialize.BatchOf(text, JObject(m), iso) == Success(expected)
  {
    Base64RoundTrip(body);
    HexRoundTrip(udh);
  }

  /** A text batch, as `text_batch` writes it and the server echoes it,
    * reads back as a text result with the same body and recipients; the
    * template parameters come back as the document sent them. */
  lemma TextBatchReadsBack(text: string, b: MtBatchSmsCreate, iso: Iso8601, fields: Fields, s: ServerAttributes)
    requires b.payload.TextCreate?
    requires forall k :: Serialize.At(fields, k) == Serialize.TextExpected(b, iso, k)
    requires Faithful(iso, b.sendAt) && Faithful(iso, b.expireAt)
    requires FaithfulOn(iso, s.createdAt) && FaithfulOn(iso, s.modifiedAt)
    ensures Deserialize.BatchOf(text, Echo(fields, s, iso), iso)
         == Success(CommonReadBack(b, s, TextResult(b.payload.body, Serialize.ParametersIfNonEmpty(b.payload.parameters))))
  {
    TextWrote(b, iso, fields);
    TextEchoReadsBack(text, b, iso, fields, s);
  }

  lemma TextEchoReadsBack(text: string, b: MtBatchSmsCreate, iso: Iso8601, fields: Fields, s: ServerAttributes)
    requires b.payload.TextCreate? && WroteCommon(b, iso, fields)
    requires Serialize.At(fields, "type") == Some(JString(Serialize.MT_TEXT))
    requires Serialize.At(fields, "body") == Some(NullableString(b.payload.body))
    requires Serialize.At(fields, "parameters") == Serialize.ParametersIfNonEmpty(b.payload.parameters)
    requires Faithful(iso, b.sendAt) && Faithful(iso, b.expireAt)
    requires FaithfulOn(iso, s.createdAt) && FaithfulOn(iso, s.modifiedAt)
    ensures Deserialize.BatchOf(text, Echo(fields, s, iso), iso)
         == Success(CommonReadBack(b, s, TextResult(b.payload.body, Serialize.ParametersIfNonEmpty(b.payload.parameters))))
  {
    var payload := TextResult(b.payload.body, Serialize.ParametersIfNonEmpty(b.payload.parameters));
    CommonAttributesReadBack(text, b, iso, fields, s, payload);
    EchoKeeps(fields, s, iso, "type");
    EchoKeeps(fields, s, iso, "body");
    EchoKeeps(fields, s, iso, "parameters");
    TextDocumentReadsBack(text, Echo(fields, s, iso).members, iso, b.payload.body, payload.parameters,
                          CommonReadBack(b, s, payload));
  }

  /** A binary batch reads back with the bytes of its body and of its UDH. */
  lemma BinaryBatchReadsBack(text: string, b: MtBatchSmsCreate, iso: Iso8601, fields: Fields, s: ServerAttributes)
    requires b.payload.BinaryCreate? && b.payload.binaryBody.Some? && b.payload.udh.Some?
    requires forall k :: Serialize.At(fields, k) == Serialize.BinaryExpected(b, iso, k)
    requires Faithful(iso, b.sendAt) && Faithful(iso, b.expireAt)
    requires FaithfulOn(iso, s.createdAt) && FaithfulOn(iso, s.modifiedAt)
    ensures Deserialize.BatchOf(text, Echo(fields, s, iso), iso)
         == Success(CommonReadBack(b, s, BinaryResult(b.payload.binaryBody, b.payload.udh)))
  {
    BinaryWrote(b, iso, fields);
    BinaryEchoReadsBack(text, b, iso, fields, s);
  }

  lemma BinaryEchoReadsBack(text: string, b: MtBatchSmsCreate, iso: Iso8601, fields: Fields, s: ServerAttributes)
    requires b.payload.BinaryCreate? && b.payload.binaryBody.Some? && b.payload.udh.Some?
    requires WroteCommon(b, iso, fields)
    requires Serialize.At(fields, "type") == Some(JString(Serialize.MT_BINARY))
    requires Serialize.At(fields, "body") == Some(JString(B2aBase64(b.payload.binaryBody.value)))
    requires Serialize.At(fields, "udh") == Some(JString(Hexlify(b.payload.udh.value)))
    requires Faithful(iso, b.sendAt) && Faithful(iso, b.expireAt)
    requires FaithfulOn(iso, s.createdAt) && FaithfulOn(iso, s.modifiedAt)
    ensures Deserialize.BatchOf(text, Echo(fields, s, iso), iso)
         == Success(CommonReadBack(b, s, BinaryResult(b.payload.binaryBody, b.payload.udh)))
  {
    var payload := BinaryResult(b.payload.binaryBody, b.payload.udh);
    CommonAttributesReadBack(text, b, iso, fields, s, payload);
    EchoKeeps(fields, s, iso, "type");
    EchoKeeps(fields, s, iso, "body");
    EchoKeeps(fields, s, iso, "udh");
    BinaryDocumentReadsBack(text, Echo(fields, s, iso).members, iso, b.payload.binaryBody.value, b.payload.udh.value,
                            CommonReadBack(b, s, payload));
  }

  /** The tags the SDK sends read back as the same set. */
  lemma TagsReadBack(text: string, tags: set<string>)
    ensures Deserialize.TagsOf(Deserialize.Response(text, Success(JObject(Serialize.Tags(tags))))) == Success(tags)
  {
    var m := Serialize.Tags(tags);
    assert m["tags"] == Serialize.SortedArray(tags);
  }

  /** An auto update rule reads back as written, a false word as `None`. */
  lemma AutoUpdateReadsBack(a: GroupAutoUpdate)
    ensures Deserialize.AutoUpdateOf(JObject(Serialize.AutoUpdateMembers(a)))
         == Success(GroupAutoUpdate(a.recipient,
                                    (Kept(a.addWordPair.0), Kept(a.addWordPair.1)),
                                    (Kept(a.removeWordPair.0), Kept(a.removeWordPair.1))))
  {
    var m := Serialize.AutoUpdateMembers(a);
    assert m["to"] == JString(a.recipient);
    WordPairReadsBack(m, "add", a.addWordPair);
    WordPairReadsBack(m, "remove", a.removeWordPair);
  }

  /** One word pair of an auto update rule reads back from its sub-object,
    * or from the empty default when none was written. */
  lemma WordPairReadsBack(m: Fields, key: string, pair: (Option<string>, Option<string>))
    requires Serialize.At(m, key) == Serialize.WordPairIfTruthy(pair)
    ensures var sub := if key in m then m[key] else JObject(map[]);
      && sub.JObject?
      && Deserialize.WordOf(sub.members, "first_word") == Success(Kept(pair.0))
      && Deserialize.WordOf(sub.members, "second_word") == Success(Kept(pair.1))
  {
  }

  /** `binascii.b2a_base64(b'\x00\x01\x02\x03')`, as the serializer writes
    * a binary body. */
  lemma Base64Example()
    ensures B2aBase64([0, 1, 2, 3]) == "AAECAw==\n"
  {
    Base64OfExample();
  }

  /** The Base64 text of the same bytes, before the newline. */
  lemma Base64OfExample()
    ensures Base64([0, 1, 2, 3]) == "AAECAw=="
  {
    var b: seq<byte> := [0, 1, 2, 3];
    assert b[0] == 0 && b[1] == 1 && b[2] == 2 && b[3..] == [3];
    assert Base64(b) == EncodeTriple(0, 1, 2) + Base64([3]);
    assert Base64([3]) == EncodeTail([3]);
    TripleExample();
    TailExample();
  }

  /** The first group of the example, `AAEC`. */
  lemma TripleExample()
    ensures EncodeTriple(0, 1, 2) == "AAEC"
  {
    TripleSplits();
    assert EncodeTriple(0, 1, 2) == [EncodeSextet(0), EncodeSextet(0), EncodeSextet(4), EncodeSextet(2)];
    assert EncodeSextet(0) == 'A';
    assert EncodeSextet(4) == 'E';
    assert EncodeSextet(2) == 'C';
  }

  /** The sextets of the bytes 0, 1 and 2. */
  lemma TripleSplits()
    ensures Split0(0) == 0 && Split1(0, 1) == 0 && Split2(1, 2) == 4 && Split3(2) == 2
  {
    assert Split0(0) == 0;
    assert Split1(0, 1) == 0;
    assert Split2(1, 2) == 4;
  }

  /** The padded last group of the example, `Aw==`. */
  lemma TailExample()
    ensures EncodeTail([3]) == "Aw=="
  {
    assert Split0(3) == 0 && Split1(3, 0) == 48;
  }

  /** `binascii.a2b_base64("AwE=")`, as the deserializer reads a binary body. */
  lemma A2bBase64Example()
    ensures A2bBase64("AwE=") == Success([3, 1])
  {
    Base64DataKeeps("AwE=");
    assert DecodeSextet('A') == 0 && DecodeSextet('w') == 48 && DecodeSextet('E') == 4;
  }

  /** `binascii.hexlify(b'\xff\xfe\xfd')`, as the serializer writes a UDH. */
  lemma HexExample()
    ensures Hexlify([255, 254, 253]) == "fffefd"
  {
    var b: seq<byte> := [255, 254, 253];
    assert b[1..] == [254, 253] && b[1..][1..] == [253] && b[1..][1..][1..] == [];
  }

  /** `binascii.unhexlify("00010203")`, as the deserializer reads a UDH. */
  lemma UnhexlifyExample()
    ensures Unhexlify("00010203") == Success([0, 1, 2, 3])
  {
    var s := "00010203";
    assert s[2..] == "010203" && s[2..][2..] == "0203" && s[2..][2..][2..] == "03" && s[2..][2..][2..][2..] == "";
    assert HexValue('0') == Some(0) && HexValue('1') == Some(1) && HexValue('2') == Some(2) && HexValue('3') == Some(3);
    var x3: seq<byte> := [(0 * 16 + 3) as byte] + [];
    assert HexPairs("03") == Success(x3);
    var x2: seq<byte> := [(0 * 16 + 2) as byte] + x3;
    assert HexPairs("0203") == Success(x2);
    var x1: seq<byte> := [(0 * 16 + 1) as byte] + x2;
    assert HexPairs("010203") == Success(x1);
    var x0: seq<byte> := [(0 * 16 + 0) as byte] + x1;
    assert HexPairs(s) == Success(x0);
    assert x0 == [0, 1, 2, 3];
  }
}
