/** The serializers: from the value classes to the JSON objects sent to the
  * REST API. Each builds its `fields` map the way the SDK does, one
  * conditional insertion at a time, and promises the rule each key obeys:
  * a plain attribute is written only when it is true in Python's sense, a
  * tri-state attribute of an update is written as `null` when reset, with
  * its value when set to a true value, and left out otherwise; a set is
  * written as a sorted array; a timestamp without a UTC offset is refused. */
module Serialize {

  import opened Wrappers
  import opened Exceptions
  import opened Json
  import opened Timestamps
  import opened Encoding
  import opened Ordering
  import opened Api

  const NAIVE_DATETIME := "Expected datetime with time zone"
  /** What `binascii` says when given `None` instead of bytes. */
  const NOT_BYTES := "a bytes-like object is required, not 'NoneType'"

  const MT_TEXT := "mt_text"
  const MT_BINARY := "mt_binary"

  // ------------------------------------------------------- single values

  /** A timestamp the API refuses: one without a UTC offset. */
  predicate Naive(d: DateTime)
  {
    d.utcOffset.None?
  }

  /** `_write_datetime`: the ISO-8601 text of an aware timestamp. */
  function WriteDateTime(d: DateTime, iso: Iso8601): (r: Result<Json, Failure>)
    ensures r.Success? <==> !Naive(d)
    ensures r.Failure? ==> r.error == ValueError(NAIVE_DATETIME)
    ensures r.Success? ==> r.value == JString(iso.formatDateTime(d))
    ensures r.Success? && FaithfulOn(iso, d) ==> iso.parse(r.value) == Success(d)
  {
    if d.utcOffset.None? then Failure(ValueError(NAIVE_DATETIME))
    else Success(JString(iso.formatDateTime(d)))
  }

  /** `_write_base64`: Base64 text that decodes to the given bytes. */
  function WriteBase64(o: Option<Bytes>): (r: Result<Json, Failure>)
    ensures r.Success? <==> o.Some?
    ensures r.Failure? ==> r.error == TypeError(NOT_BYTES)
    ensures r.Success? ==> r.value.JString? && A2bBase64(r.value.s) == Success(o.value)
  {
    match o
    case None => Failure(TypeError(NOT_BYTES))
    case Some(b) => Base64RoundTrip(b); Success(JString(B2aBase64(b)))
  }

  /** `_write_hex`: lower-case hexadecimal text that decodes to the given
    * bytes. */
  function WriteHex(o: Option<Bytes>): (r: Result<Json, Failure>)
    ensures r.Success? <==> o.Some?
    ensures r.Failure? ==> r.error == TypeError(NOT_BYTES)
    ensures r.Success? ==> r.value.JString? && Unhexlify(r.value.s) == Success(o.value)
    ensures r.Success? ==> forall i :: 0 <= i < |r.value.s| ==> IsLowerHexDigit(r.value.s[i])
  {
    match o
    case None => Failure(TypeError(NOT_BYTES))
    case Some(b) => HexRoundTrip(b); Success(JString(Hexlify(b)))
  }

  /** `sorted(s)` as a JSON array. */
  function SortedArray(s: set<string>): Json
  {
    StringArray(SortedStrings(s))
  }

  /** The array holds each element of `s` once, in ascending order, and
    * reads back as `s`. */
  lemma SortedArrayReadsBack(s: set<string>)
    ensures SortedArray(s).JArray? && |SortedArray(s).items| == |s|
    ensures StringElements(SortedArray(s).items) == Some(SortedStrings(s))
    ensures AsStringSet(SortedArray(s)) == Success(s)
  {
    SortedStringsIsSorted(s);
    StringArrayItems(SortedStrings(s));
    StringElementsOfArray(SortedStrings(s));
    StringSetOfArray(SortedStrings(s));
    assert (set x | x in SortedStrings(s)) == s;
  }

  /** Template parameters as nested JSON objects. */
  function ParametersJson(p: Parameters): (j: Json)
    ensures j.JObject? && j.members.Keys == p.Keys
    ensures forall k :: k in p ==> j.members[k].JObject? && j.members[k].members.Keys == p[k].Keys
    ensures forall k, x :: k in p && x in p[k] ==> j.members[k].members[x] == JString(p[k][x])
  {
    JObject(map k | k in p :: JObject(map r | r in p[k] :: JString(p[k][r])))
  }

  // ------------------------------------------------------- rules per key

  /** `fields.get(k)`: what has been written under `k`, if anything. */
  function At(m: Fields, k: string): Option<Json>
  {
    if k in m then Some(m[k]) else None
  }

  // What one conditional insertion writes under its key, or `None` when it
  // writes nothing.

  /** `if value: fields[key] = value` for a string. */
  function IfTruthy(o: Option<string>): Option<Json>
  {
    if TruthyString(o) then Some(JString(o.value)) else None
  }

  /** `if value: fields[key] = sorted(value)` for a set. */
  function SortedIfNonEmpty(s: set<string>): Option<Json>
  {
    if s != {} then Some(SortedArray(s)) else None
  }

  /** `if value: fields[key] = _write_datetime(value)`, once the timestamp has
    * been accepted; a `datetime` is always true. */
  function DateTimeIfGiven(o: Option<DateTime>, iso: Iso8601): Option<Json>
  {
    if o.Some? then Some(JString(iso.formatDateTime(o.value))) else None
  }

  /** `if value: fields[key] = value` for template parameters. */
  function ParametersIfNonEmpty(p: Parameters): Option<Json>
  {
    if p != map[] then Some(ParametersJson(p)) else None
  }

  /** `if value: fields[key] = _write_base64(value)`. */
  function Base64IfTruthy(o: Option<Bytes>): Option<Json>
  {
    if TruthyBytes(o) then Some(JString(B2aBase64(o.value))) else None
  }

  /** `if value: fields[key] = _write_hex(value)`. */
  function HexIfTruthy(o: Option<Bytes>): Option<Json>
  {
    if TruthyBytes(o) then Some(JString(Hexlify(o.value))) else None
  }

  /** `if value == RESET: fields[key] = None elif value: fields[key] = value`
    * for a string. */
  function TriString(t: TriState<string>): Option<Json>
  {
    match t
    case Unset => None
    case Reset => Some(JNull)
    case Set(v) => if v != "" then Some(JString(v)) else None
  }

  /** The same for a timestamp, once accepted. */
  function TriDateTime(t: TriState<DateTime>, iso: Iso8601): Option<Json>
  {
    match t
    case Unset => None
    case Reset => Some(JNull)
    case Set(d) => Some(JString(iso.formatDateTime(d)))
  }

  /** The same for template parameters. */
  function TriParameters(t: TriState<Parameters>): Option<Json>
  {
    match t
    case Unset => None
    case Reset => Some(JNull)
    case Set(p) => if p != map[] then Some(ParametersJson(p)) else None
  }

  /** A timestamp attribute that `_write_datetime` refuses. */
  predicate NaiveGiven(o: Option<DateTime>)
  {
    o.Some? && Naive(o.value)
  }

  predicate NaiveSet(t: TriState<DateTime>)
  {
    t.Set? && Naive(t.value)
  }

  // One insertion into `fields`, as the serializers write it for each
  // attribute: each writes its own key, not yet written, by its rule, and
  // leaves every other key as it was.

  /** `fields[key] = v`. */
  method Put(m: Fields, key: string, v: Json) returns (r: Fields)
    requires At(m, key).None?
    ensures forall k :: At(r, k) == if k == key then Some(v) else At(m, k)
  {
    r := m[key := v];
  }

  /** `if value: fields[key] = value`. */
  method PutIfTruthy(m: Fields, key: string, o: Option<string>) returns (r: Fields)
    requires At(m, key).None?
    ensures forall k :: At(r, k) == if k == key then IfTruthy(o) else At(m, k)
  {
    r := m;
    if TruthyString(o) {
      r := r[key := JString(o.value)];
    }
  }

  /** `if value: fields[key] = sorted(value)`. */
  method PutSorted(m: Fields, key: string, s: set<string>) returns (r: Fields)
    requires At(m, key).None?
    ensures forall k :: At(r, k) == if k == key then SortedIfNonEmpty(s) else At(m, k)
  {
    r := m;
    if s != {} {
      r := r[key := SortedArray(s)];
    }
  }

  /** `if value: fields[key] = _write_datetime(value)`. */
  method PutDateTime(m: Fields, key: string, o: Option<DateTime>, iso: Iso8601) returns (r: Result<Fields, Failure>)
    requires At(m, key).None?
    ensures r.Failure? <==> NaiveGiven(o)
    ensures r.Failure? ==> r.error == ValueError(NAIVE_DATETIME)
    ensures r.Success? ==> forall k :: At(r.value, k) == if k == key then DateTimeIfGiven(o, iso) else At(m, k)
  {
    var fields := m;
    if o.Some? {
      var v :- WriteDateTime(o.value, iso);
      fields := fields[key := v];
    }
    return Success(fields);
  }

  /** `if value: fields[key] = value` for template parameters. */
  method PutParameters(m: Fields, key: string, p: Parameters) returns (r: Fields)
    requires At(m, key).None?
    ensures forall k :: At(r, k) == if k == key then ParametersIfNonEmpty(p) else At(m, k)
  {
    r := m;
    if p != map[] {
      r := r[key := ParametersJson(p)];
    }
  }

  /** `if value: fields[key] = _write_base64(value)`: the encoder never sees
    * `None`. */
  method PutBase64IfTruthy(m: Fields, key: string, o: Option<Bytes>) returns (r: Fields)
    requires At(m, key).None?
    ensures forall k :: At(r, k) == if k == key then Base64IfTruthy(o) else At(m, k)
  {
    r := m;
    if TruthyBytes(o) {
      var v := WriteBase64(o);
      r := r[key := v.value];
    }
  }

  /** `if value: fields[key] = _write_hex(value)`. */
  method PutHexIfTruthy(m: Fields, key: string, o: Option<Bytes>) returns (r: Fields)
    requires At(m, key).None?
    ensures forall k :: At(r, k) == if k == key then HexIfTruthy(o) else At(m, k)
  {
    r := m;
    if TruthyBytes(o) {
      var v := WriteHex(o);
      r := r[key := v.value];
    }
  }

  /** `if value == RESET: fields[key] = None elif value: fields[key] = value`. */
  method PutTriString(m: Fields, key: string, t: TriState<string>) returns (r: Fields)
    requires At(m, key).None?
    ensures forall k :: At(r, k) == if k == key then TriString(t) else At(m, k)
  {
    r := m;
    if t.Reset? {
      r := r[key := JNull];
    } else if t.Set? && t.value != "" {
      r := r[key := JString(t.value)];
    }
  }

  /** The same for a timestamp, written by `_write_datetime`. */
  method PutTriDateTime(m: Fields, key: string, t: TriState<DateTime>, iso: Iso8601) returns (r: Result<Fields, Failure>)
    requires At(m, key).None?
    ensures r.Failure? <==> NaiveSet(t)
    ensures r.Failure? ==> r.error == ValueError(NAIVE_DATETIME)
    ensures r.Success? ==> forall k :: At(r.value, k) == if k == key then TriDateTime(t, iso) else At(m, k)
  {
    var fields := m;
    if t.Reset? {
      fields := fields[key := JNull];
    } else if t.Set? {
      var v :- WriteDateTime(t.value, iso);
      fields := fields[key := v];
    }
    return Success(fields);
  }

  /** The same for template parameters. */
  method PutTriParameters(m: Fields, key: string, t: TriState<Parameters>) returns (r: Fields)
    requires At(m, key).None?
    ensures forall k :: At(r, k) == if k == key then TriParameters(t) else At(m, k)
  {
    r := m;
    if t.Reset? {
      r := r[key := JNull];
    } else if t.Set? && t.value != map[] {
      r := r[key := ParametersJson(t.value)];
    }
  }

  // ------------------------------------------------------- batch creation

  /** What `_create_batch_helper` writes under each key: `from` and `to`
    * always, the other attributes only when true, and no other key. */
  function CreateExpected(b: MtBatchSmsCreate, iso: Iso8601, k: string): Option<Json>
    reads b
  {
    if k == "from" then Some(NullableString(b.sender))
    else if k == "to" then Some(SortedArray(b.recipients))
    else if k == "delivery_report" then IfTruthy(b.deliveryReport)
    else if k == "send_at" then DateTimeIfGiven(b.sendAt, iso)
    else if k == "expire_at" then DateTimeIfGiven(b.expireAt, iso)
    else if k == "tags" then SortedIfNonEmpty(b.tags)
    else if k == "callback_url" then IfTruthy(b.callbackUrl)
    else None
  }

  /** `_create_batch_helper`: the attributes common to text and binary
    * batches; a timestamp without a UTC offset is refused. */
  method CreateBatchHelper(b: MtBatchSmsCreate, iso: Iso8601) returns (r: Result<Fields, Failure>)
    ensures r.Failure? <==> NaiveGiven(b.sendAt) || NaiveGiven(b.expireAt)
    ensures r.Failure? ==> r.error == ValueError(NAIVE_DATETIME)
    ensures r.Success? ==> forall k :: At(r.value, k) == CreateExpected(b, iso, k)
  {
    var fields := map["from" := NullableString(b.sender), "to" := SortedArray(b.recipients)];
    fields := PutIfTruthy(fields, "delivery_report", b.deliveryReport);
    fields :- PutDateTime(fields, "send_at", b.sendAt, iso);
    fields :- PutDateTime(fields, "expire_at", b.expireAt, iso);
    fields := PutSorted(fields, "tags", b.tags);
    fields := PutIfTruthy(fields, "callback_url", b.callbackUrl);
    return Success(fields);
  }

  /** What `text_batch` writes: the common attributes, the type, the body
    * (`null` when there is none) and the parameters when there are any. */
  function TextExpected(b: MtBatchSmsCreate, iso: Iso8601, k: string): Option<Json>
    reads b
    requires b.payload.TextCreate?
  {
    if k == "type" then Some(JString(MT_TEXT))
    else if k == "body" then Some(NullableString(b.payload.body))
    else if k == "parameters" then ParametersIfNonEmpty(b.payload.parameters)
    else CreateExpected(b, iso, k)
  }

  /** `text_batch`. */
  method TextBatch(b: MtBatchSmsCreate, iso: Iso8601) returns (r: Result<Fields, Failure>)
    requires b.payload.TextCreate?
    ensures r.Failure? <==> NaiveGiven(b.sendAt) || NaiveGiven(b.expireAt)
    ensures r.Failure? ==> r.error == ValueError(NAIVE_DATETIME)
    ensures r.Success? ==> forall k :: At(r.value, k) == TextExpected(b, iso, k)
  {
    var fields :- CreateBatchHelper(b, iso);
    fields := Put(fields, "type", JString(MT_TEXT));
    fields := Put(fields, "body", NullableString(b.payload.body));
    fields := PutParameters(fields, "parameters", b.payload.parameters);
    return Success(fields);
  }

  /** What `binary_batch` writes, once body and UDH are known to be given. */
  function BinaryExpected(b: MtBatchSmsCreate, iso: Iso8601, k: string): Option<Json>
    reads b
    requires b.payload.BinaryCreate? && b.payload.binaryBody.Some? && b.payload.udh.Some?
  {
    if k == "type" then Some(JString(MT_BINARY))
    else if k == "body" then Some(JString(B2aBase64(b.payload.binaryBody.value)))
    else if k == "udh" then Some(JString(Hexlify(b.payload.udh.value)))
    else CreateExpected(b, iso, k)
  }

  /** `binary_batch`: a missing body or UDH is refused by the encoders, after
    * the timestamps have been checked. */
  method BinaryBatch(b: MtBatchSmsCreate, iso: Iso8601) returns (r: Result<Fields, Failure>)
    requires b.payload.BinaryCreate?
    ensures r.Failure? <==>
      NaiveGiven(b.sendAt) || NaiveGiven(b.expireAt) || b.payload.binaryBody.None? || b.payload.udh.None?
    ensures r.Failure? ==>
      r.error == if NaiveGiven(b.sendAt) || NaiveGiven(b.expireAt) then ValueError(NAIVE_DATETIME) else TypeError(NOT_BYTES)
    ensures r.Success? ==> forall k :: At(r.value, k) == BinaryExpected(b, iso, k)
  {
    var fields :- CreateBatchHelper(b, iso);
    fields := Put(fields, "type", JString(MT_BINARY));
    var body :- WriteBase64(b.payload.binaryBody);
    fields := Put(fields, "body", body);
    var udh :- WriteHex(b.payload.udh);
    fields := Put(fields, "udh", udh);
    return Success(fields);
  }

  // ------------------------------------------------------- batch updates

  /** What `_batch_update_helper` writes under each key: only the attributes
    * that change, a cleared one as `null`. */
  function UpdateExpected(b: MtBatchSmsUpdate, iso: Iso8601, k: string): Option<Json>
    reads b
  {
    if k == "to_add" then SortedIfNonEmpty(b.recipientInsertions)
    else if k == "to_remove" then SortedIfNonEmpty(b.recipientRemovals)
    else if k == "from" then IfTruthy(b.sender)
    else if k == "delivery_report" then TriString(b.deliveryReport)
    else if k == "send_at" then TriDateTime(b.sendAt, iso)
    else if k == "expire_at" then TriDateTime(b.expireAt, iso)
    else if k == "callback_url" then TriString(b.callbackUrl)
    else None
  }

  /** `_batch_update_helper`. */
  method BatchUpdateHelper(b: MtBatchSmsUpdate, iso: Iso8601) returns (r: Result<Fields, Failure>)
    ensures r.Failure? <==> NaiveSet(b.sendAt) || NaiveSet(b.expireAt)
    ensures r.Failure? ==> r.error == ValueError(NAIVE_DATETIME)
    ensures r.Success? ==> forall k :: At(r.value, k) == UpdateExpected(b, iso, k)
  {
    var fields := PutSorted(map[], "to_add", b.recipientInsertions);
    fields := PutSorted(fields, "to_remove", b.recipientRemovals);
    fields := PutIfTruthy(fields, "from", b.sender);
    fields := PutTriString(fields, "delivery_report", b.deliveryReport);
    fields :- PutTriDateTime(fields, "send_at", b.sendAt, iso);
    fields :- PutTriDateTime(fields, "expire_at", b.expireAt, iso);
    fields := PutTriString(fields, "callback_url", b.callbackUrl);
    return Success(fields);
  }

  /** What `text_batch_update` writes. */
  function TextUpdateExpected(b: MtBatchSmsUpdate, iso: Iso8601, k: string): Option<Json>
    reads b
    requires b.payload.TextUpdate?
  {
    if k == "type" then Some(JString(MT_TEXT))
    else if k == "body" then IfTruthy(b.payload.body)
    else if k == "parameters" then TriParameters(b.payload.parameters)
    else UpdateExpected(b, iso, k)
  }

  /** `text_batch_update`. */
  method TextBatchUpdate(b: MtBatchSmsUpdate, iso: Iso8601) returns (r: Result<Fields, Failure>)
    requires b.payload.TextUpdate?
    ensures r.Failure? <==> NaiveSet(b.sendAt) || NaiveSet(b.expireAt)
    ensures r.Failure? ==> r.error == ValueError(NAIVE_DATETIME)
    ensures r.Success? ==> forall k :: At(r.value, k) == TextUpdateExpected(b, iso, k)
  {
    var fields :- BatchUpdateHelper(b, iso);
    fields := Put(fields, "type", JString(MT_TEXT));
    fields := PutIfTruthy(fields, "body", b.payload.body);
    fields := PutTriParameters(fields, "parameters", b.payload.parameters);
    return Success(fields);
  }

  /** What `binary_batch_update` writes: body and UDH only when non-empty. */
  function BinaryUpdateExpected(b: MtBatchSmsUpdate, iso: Iso8601, k: string): Option<Json>
    reads b
    requires b.payload.BinaryUpdate?
  {
    if k == "type" then Some(JString(MT_BINARY))
    else if k == "body" then Base64IfTruthy(b.payload.binaryBody)
    else if k == "udh" then HexIfTruthy(b.payload.udh)
    else UpdateExpected(b, iso, k)
  }

  /** `binary_batch_update`: body and UDH are encoded only when non-empty, so
    * the encoders never see `None`. */
  method BinaryBatchUpdate(b: MtBatchSmsUpdate, iso: Iso8601) returns (r: Result<Fields, Failure>)
    requires b.payload.BinaryUpdate?
    ensures r.Failure? <==> NaiveSet(b.sendAt) || NaiveSet(b.expireAt)
    ensures r.Failure? ==> r.error == ValueError(NAIVE_DATETIME)
    ensures r.Success? ==> forall k :: At(r.value, k) == BinaryUpdateExpected(b, iso, k)
  {
    var fields :- BatchUpdateHelper(b, iso);
    fields := Put(fields, "type", JString(MT_BINARY));
    fields := PutBase64IfTruthy(fields, "body", b.payload.binaryBody);
    fields := PutHexIfTruthy(fields, "udh", b.payload.udh);
    return Success(fields);
  }

  // ------------------------------------------------------- groups

  /** The words of a pair that are true, under `first_word` and
    * `second_word`. */
  function WordPairMembers(pair: (Option<string>, Option<string>)): Fields
  {
    var first := if TruthyString(pair.0) then map["first_word" := JString(pair.0.value)] else map[];
    if TruthyString(pair.1) then first["second_word" := JString(pair.1.value)] else first
  }

  /** What `_group_auto_update_helper` writes for one word pair: a
    * sub-object only when some word is true. */
  function WordPairIfTruthy(pair: (Option<string>, Option<string>)): Option<Json>
  {
    if TruthyString(pair.0) || TruthyString(pair.1) then Some(JObject(WordPairMembers(pair))) else None
  }

  /** What `_group_auto_update_helper` writes under each key. */
  function AutoUpdateExpected(a: GroupAutoUpdate, k: string): Option<Json>
  {
    if k == "to" then Some(JString(a.recipient))
    else if k == "add" then WordPairIfTruthy(a.addWordPair)
    else if k == "remove" then WordPairIfTruthy(a.removeWordPair)
    else None
  }

  /** `fields.setdefault(outer, {})[inner] = v`. */
  function SetDefaultPut(m: Fields, outer: string, inner: string, v: Json): (r: Fields)
    requires outer in m ==> m[outer].JObject?
    ensures forall k :: k != outer ==> At(r, k) == At(m, k)
    ensures outer in r && r[outer].JObject?
    ensures r[outer].members == (if outer in m then m[outer].members else map[])[inner := v]
  {
    var sub := if outer in m then m[outer].members else map[];
    m[outer := JObject(sub[inner := v])]
  }

  /** The object `_group_auto_update_helper` returns: exactly the expected
    * entries. */
  function AutoUpdateMembers(a: GroupAutoUpdate): Fields
  {
    map k | k in {"to", "add", "remove"} && AutoUpdateExpected(a, k).Some? :: AutoUpdateExpected(a, k).value
  }

  /** The two `setdefault` insertions of one word pair under `key`. */
  method PutWordPair(m: Fields, key: string, pair: (Option<string>, Option<string>)) returns (r: Fields)
    requires At(m, key).None?
    ensures forall k :: At(r, k) == if k == key then WordPairIfTruthy(pair) else At(m, k)
  {
    r := m;
    if TruthyString(pair.0) {
      r := SetDefaultPut(r, key, "first_word", JString(pair.0.value));
    }
    if TruthyString(pair.1) {
      r := SetDefaultPut(r, key, "second_word", JString(pair.1.value));
    }
    assert At(r, key) == WordPairIfTruthy(pair);
  }

  /** `_group_auto_update_helper`. */
  method GroupAutoUpdateHelper(a: GroupAutoUpdate) returns (m: Fields)
    ensures forall k :: At(m, k) == AutoUpdateExpected(a, k)
    ensures m == AutoUpdateMembers(a)
  {
    m := map["to" := JString(a.recipient)];
    m := PutWordPair(m, "add", a.addWordPair);
    m := PutWordPair(m, "remove", a.removeWordPair);
    SameEntries(m, AutoUpdateMembers(a));
  }

  /** Two objects with the same entry under every key are equal. */
  lemma SameEntries(m: Fields, n: Fields)
    requires forall k :: At(m, k) == At(n, k)
    ensures m == n
  {
    assert m.Keys == n.Keys by {
      forall k ensures k in m <==> k in n {
        assert At(m, k) == At(n, k);
      }
    }
    forall k | k in m ensures m[k] == n[k] {
      assert At(m, k) == At(n, k);
    }
  }

  /** `if value: fields[key] = _group_auto_update_helper(value)`; a
    * `GroupAutoUpdate` is always true. */
  function AutoUpdateIfGiven(o: Option<GroupAutoUpdate>): Option<Json>
  {
    if o.Some? then Some(JObject(AutoUpdateMembers(o.value))) else None
  }

  /** The tri-state rule for an auto-update rule. */
  function TriAutoUpdate(t: TriState<GroupAutoUpdate>): Option<Json>
  {
    match t
    case Unset => None
    case Reset => Some(JNull)
    case Set(a) => Some(JObject(AutoUpdateMembers(a)))
  }

  method PutAutoUpdate(m: Fields, key: string, o: Option<GroupAutoUpdate>) returns (r: Fields)
    requires At(m, key).None?
    ensures forall k :: At(r, k) == if k == key then AutoUpdateIfGiven(o) else At(m, k)
  {
    r := m;
    if o.Some? {
      var a := GroupAutoUpdateHelper(o.value);
      r := r[key := JObject(a)];
    }
  }

  method PutTriAutoUpdate(m: Fields, key: string, t: TriState<GroupAutoUpdate>) returns (r: Fields)
    requires At(m, key).None?
    ensures forall k :: At(r, k) == if k == key then TriAutoUpdate(t) else At(m, k)
  {
    r := m;
    if t.Reset? {
      r := r[key := JNull];
    } else if t.Set? {
      var a := GroupAutoUpdateHelper(t.value);
      r := r[key := JObject(a)];
    }
  }

  /** What `group_create` writes under each key. */
  function GroupCreateExpected(g: GroupCreate, k: string): Option<Json>
    reads g
  {
    if k == "name" then IfTruthy(g.name)
    else if k == "members" then SortedIfNonEmpty(g.members)
    else if k == "child_groups" then SortedIfNonEmpty(g.childGroups)
    else if k == "auto_update" then AutoUpdateIfGiven(g.autoUpdate)
    else if k == "tags" then SortedIfNonEmpty(g.tags)
    else None
  }

  /** `group_create`. */
  method GroupCreateJson(g: GroupCreate) returns (m: Fields)
    ensures forall k :: At(m, k) == GroupCreateExpected(g, k)
  {
    m := PutIfTruthy(map[], "name", g.name);
    m := PutSorted(m, "members", g.members);
    m := PutSorted(m, "child_groups", g.childGroups);
    m := PutAutoUpdate(m, "auto_update", g.autoUpdate);
    m := PutSorted(m, "tags", g.tags);
  }

  /** What `group_update` writes under each key. */
  function GroupUpdateExpected(g: GroupUpdate, k: string): Option<Json>
    reads g
  {
    if k == "name" then TriString(g.name)
    else if k == "add" then SortedIfNonEmpty(g.memberInsertions)
    else if k == "remove" then SortedIfNonEmpty(g.memberRemovals)
    else if k == "child_groups_add" then SortedIfNonEmpty(g.childGroupInsertions)
    else if k == "child_groups_remove" then SortedIfNonEmpty(g.childGroupRemovals)
    else if k == "add_from_group" then IfTruthy(g.addFromGroup)
    else if k == "remove_from_group" then IfTruthy(g.removeFromGroup)
    else if k == "auto_update" then TriAutoUpdate(g.autoUpdate)
    else None
  }

  /** `group_update`. */
  method GroupUpdateJson(g: GroupUpdate) returns (m: Fields)
    ensures forall k :: At(m, k) == GroupUpdateExpected(g, k)
  {
    m := PutTriString(map[], "name", g.name);
    m := PutSorted(m, "add", g.memberInsertions);
    m := PutSorted(m, "remove", g.memberRemovals);
    m := PutSorted(m, "child_groups_add", g.childGroupInsertions);
    m := PutSorted(m, "child_groups_remove", g.childGroupRemovals);
    m := PutIfTruthy(m, "add_from_group", g.addFromGroup);
    m := PutIfTruthy(m, "remove_from_group", g.removeFromGroup);
    m := PutTriAutoUpdate(m, "auto_update", g.autoUpdate);
  }

  // ------------------------------------------------------- what is written

  /** The three states of an updatable attribute are told apart on the wire:
    * a reset is `null`, a non-empty value is itself, and anything else
    * leaves the key out. */
  lemma TriStringLaw(t: TriState<string>)
    ensures TriString(t) == Some(JNull) <==> t.Reset?
    ensures TriString(t).None? <==> t.Unset? || t == Set("")
    ensures forall v :: TriString(t) == Some(JString(v)) <==> t == Set(v) && v != ""
  {
  }

  /** A text batch with only sender, recipients and body set is written as
    * exactly `from`, `to`, `type` and `body`. */
  lemma MinimalTextBatchKeys(b: MtBatchSmsCreate, iso: Iso8601)
    requires b.payload.TextCreate? && b.payload.parameters == map[]
    requires b.deliveryReport == None && b.callbackUrl == None
    requires b.sendAt == None && b.expireAt == None && b.tags == {}
    ensures forall k :: TextExpected(b, iso, k).Some? <==> k in {"from", "to", "type", "body"}
  {
  }

  /** An update in which nothing changes: no attribute but the type. */
  predicate Unchanged(b: MtBatchSmsUpdate)
    reads b
  {
    && b.recipientInsertions == {} && b.recipientRemovals == {} && b.sender == None
    && b.deliveryReport == Unset && b.sendAt == Unset && b.expireAt == Unset && b.callbackUrl == Unset
    && match b.payload
       case TextUpdate(body, parameters) => body == None && parameters == Unset
       case BinaryUpdate(binaryBody, udh) => binaryBody == None && udh == None
  }

  /** An update that changes nothing is written as the batch type alone. */
  lemma UnchangedUpdateWritesType(b: MtBatchSmsUpdate, iso: Iso8601)
    requires Unchanged(b)
    ensures b.payload.TextUpdate? ==>
      forall k :: TextUpdateExpected(b, iso, k) == if k == "type" then Some(JString(MT_TEXT)) else None
    ensures b.payload.BinaryUpdate? ==>
      forall k :: BinaryUpdateExpected(b, iso, k) == if k == "type" then Some(JString(MT_BINARY)) else None
  {
  }

  /** A group update that changes nothing is written as an empty object. */
  lemma UnchangedGroupUpdateWritesNothing(g: GroupUpdate)
    requires g.name == Unset && g.autoUpdate == Unset
    requires g.memberInsertions == {} && g.memberRemovals == {}
    requires g.childGroupInsertions == {} && g.childGroupRemovals == {}
    requires g.addFromGroup == None && g.removeFromGroup == None
    ensures forall k :: GroupUpdateExpected(g, k).None?
  {
  }

  // ------------------------------------------------------- tags

  /** `tags`: the whole tag set, sorted, even when empty. */
  function Tags(tags: set<string>): (m: Fields)
    ensures m.Keys == {"tags"}
    ensures AsStringSet(m["tags"]) == Success(tags)
    ensures m["tags"].JArray? && StringElements(m["tags"].items) == Some(SortedStrings(tags))
  {
    SortedArrayReadsBack(tags);
    map["tags" := SortedArray(tags)]
  }

  /** `tags_update`: both sets, sorted, even when empty. */
  function TagsUpdate(add: set<string>, remove: set<string>): (m: Fields)
    ensures m.Keys == {"add", "remove"}
    ensures AsStringSet(m["add"]) == Success(add) && AsStringSet(m["remove"]) == Success(remove)
    ensures m["add"].JArray? && StringElements(m["add"].items) == Some(SortedStrings(add))
    ensures m["remove"].JArray? && StringElements(m["remove"].items) == Some(SortedStrings(remove))
  {
    SortedArrayReadsBack(add);
    SortedArrayReadsBack(remove);
    map["add" := SortedArray(add), "remove" := SortedArray(remove)]
  }
}
