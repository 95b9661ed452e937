# XMS SDK for Python — a Dafny model of its core

The `clx.xms` package is a client for CLX Communications' XMS
messaging REST API. An application builds batch, update and group
objects. The SDK turns them into JSON request bodies (`serialize.py`).
It checks every HTTP response and turns the status into an exception
(`client.py`). It then turns the JSON answer back into result objects
(`deserialize.py`). The value classes are in `api.py` and the exceptions
in `exceptions.py`.

This project models those five files in Dafny:

- `exceptions.dfy`: the exception hierarchy. It is one datatype plus the
  built-in Python exceptions the SDK lets escape (`ValueError`,
  `KeyError`, `TypeError`, `AttributeError`).
- `json.dfy`: decoded JSON documents and the Python operations the SDK
  applies to them (`d[key]`, `key in d`, `d.get`, `set(...)`).
- `timestamps.dfy`: timestamps and the ISO-8601 routines. The routines
  are a parameter record.
- `encoding.dfy`: `binascii.b2a_base64`, `a2b_base64`, `hexlify` and
  `unhexlify`, with their round trips.
- `ordering.dfy`: Python's `sorted` on sets of strings and integers,
  `','.join`, and `str` of an integer.
- `api.dfy`: the value classes. A class whose attributes the
  deserializer fills one by one is a Dafny `class` with a `View()`
  datatype. Error and auto-update values are datatypes.
- `serialize.dfy`: the serializers. Each is a method that builds the
  field map step by step. Its contract gives, key by key, what is
  written, and the timestamp errors.
- `deserialize.dfy`: the readers. Each method creates and fills result
  objects. It is proved against a pure function of the document, so the
  object it returns, or the exception it raises, is exactly what that
  function gives.
- `client.dfy`: the decisions the client takes around each exchange:
  - the status check;
  - URL building and the empty-identifier errors;
  - the query parameters of the listings and of the delivery report;
  - the dry-run path;
  - the serializer chosen for a batch.
- `roundtrip.dfy`: properties that span modules. A batch written by the
  serializer and echoed by the server reads back with the attributes it
  was sent with. Tags and auto-update rules read back. Concrete Base64
  and hex examples from the SDK's tests are proved as lemmas
  (`RoundTrip.Base64Example`, `RoundTrip.A2bBase64Example`,
  `RoundTrip.HexExample`, `RoundTrip.UnhexlifyExample`).

## Model

| member | source | states |
|---|---|---|
| Exceptions.UnexpectedResponse | clx/xms/exceptions.py:15-33 | the exception keeps both the message and the raw HTTP body |
| Exceptions.ErrorResponse | clx/xms/exceptions.py:35-53 | the server's error text becomes the message; its code becomes `error_code` |
| Exceptions.NotFound | clx/xms/exceptions.py:55-75 | the exception keeps the URL; the message is `No resource found at "<url>"` |
| Exceptions.Unauthorized | clx/xms/exceptions.py:77-105 | the exception keeps plan and token; the message names the plan between quotes |
| Exceptions.NotFoundMessageNamesUrl | clx/xms/exceptions.py:73-75 | the URL reads back from the message, so distinct URLs give distinct messages |
| Exceptions.UnauthorizedMessageNamesPlan | clx/xms/exceptions.py:100-105 | the plan reads back from the message; two messages are equal iff the plans are, and the token never shows |
| Json.StringArrayItems | clx/xms/serialize.py:37-40 | a list of strings written as JSON holds exactly those strings, in order |
| Json.Contains | clx/xms/deserialize.py:51-67 | `key in fields` on an object is membership among its keys |
| Json.Get | clx/xms/deserialize.py:301-302 | `d.get(key, default)` succeeds iff `d` is an object; it gives the member, or the default when the key is absent |
| Json.AsStringSet | clx/xms/deserialize.py:380 | `set(d)` of an object is the set of its keys |
| Json.StringElementsOfArray | clx/xms/deserialize.py:47 | the strings of a written string array read back in order |
| Json.StringSetOfArray | clx/xms/deserialize.py:47 | `set(...)` of a written string array is exactly its elements |
| Json.AsObject | clx/xms/deserialize.py:46 | subscripting a document succeeds iff it is an object |
| Json.Field | clx/xms/deserialize.py:46-49 | `fields[key]` succeeds iff the key is present; otherwise `KeyError(key)` |
| Encoding.EncodeSextet | clx/xms/serialize.py:23-24 | every 6-bit value maps to a character of the Base64 alphabet |
| Encoding.DecodeSextet | clx/xms/deserialize.py:106 | every character is given a 6-bit value; the alphabet's own values are the inverse of the encoder (see `SextetRoundTrip`) |
| Encoding.SextetRoundTrip | clx/xms/serialize.py:23-24 | decoding an encoded 6-bit value gives it back |
| Encoding.JoinSplit | clx/xms/serialize.py:23-24 | three bytes split into four sextets join back into the same three bytes |
| Encoding.EncodeTail | clx/xms/serialize.py:23-24 | the padded last group has only alphabet characters and `=` |
| Encoding.Base64 | clx/xms/serialize.py:23-24 | Base64 text has only alphabet characters and `=` |
| Encoding.Base64Length | clx/xms/serialize.py:23-24 | Base64 text has four characters per started group of three bytes |
| Encoding.B2aBase64 | clx/xms/serialize.py:23-24 | `b2a_base64` writes four alphabet or `=` characters per started group of three bytes, then one newline |
| Encoding.Base64Data | clx/xms/deserialize.py:106 | what `a2b_base64` keeps has only alphabet characters and `=` |
| Encoding.DecodeGroups | clx/xms/deserialize.py:106 | the only failure of group decoding is "Incorrect padding" |
| Encoding.DecodeGroupsLength | clx/xms/deserialize.py:106 | a decoding has at most three bytes for every four characters |
| Encoding.A2bBase64 | clx/xms/deserialize.py:106 | non-ASCII text is refused; any other failure is "Incorrect padding"; a decoding has at most three bytes per four characters of input |
| Encoding.Base64DataKeeps | clx/xms/deserialize.py:106 | text of alphabet characters and `=` is kept whole |
| Encoding.Base64DataDropsNewline | clx/xms/deserialize.py:106 | the newline `b2a_base64` appends is ignored when decoding |
| Encoding.Base64IsAscii | clx/xms/serialize.py:24 | Base64 text is ASCII, so `.decode('ascii')` cannot fail |
| Encoding.DecodeGroupsOfBase64 | clx/xms/deserialize.py:106 | the groups of a Base64 text decode to the bytes that were encoded |
| Encoding.Base64RoundTrip | clx/xms/serialize.py:23-24 | `a2b_base64(b2a_base64(b)) == b` for every byte string |
| Encoding.HexDigit | clx/xms/serialize.py:26-27 | every nibble becomes a lower-case hexadecimal digit |
| Encoding.Hexlify | clx/xms/serialize.py:26-27 | two lower-case hexadecimal digits per byte |
| Encoding.Unhexlify | clx/xms/deserialize.py:105 | a successful decoding has half as many bytes as the text has characters |
| Encoding.HexPairsLength | clx/xms/deserialize.py:105 | decoding pairs of digits halves the length |
| Encoding.HexPairsOfHexlify | clx/xms/deserialize.py:105 | the digit pairs `hexlify` writes decode to the original bytes |
| Encoding.HexRoundTrip | clx/xms/serialize.py:26-27 | `unhexlify(hexlify(b)) == b` for every byte string |
| Ordering.SortedSetIsSorted | clx/xms/serialize.py:39 | `sorted(s)` holds every element of `s` exactly once, in ascending order |
| Ordering.StringLeIsTotalOrder | clx/xms/serialize.py:39 | Python's order on strings is a total order |
| Ordering.SortedStringsIsSorted | clx/xms/serialize.py:39 | sorting a set of strings gives each element once, ascending |
| Ordering.SortedIntsIncreasing | clx/xms/client.py:527 | sorting a set of codes gives each code once, strictly increasing |
| Ordering.NaturalString | clx/xms/client.py:439 | `%d` of a natural number is a non-empty string of digits |
| Ordering.DecimalString | clx/xms/client.py:218 | `%s` of an integer is non-empty, digits only when non-negative, with a leading `-` otherwise |
| Ordering.SplitJoin | clx/xms/client.py:397 | splitting a comma-joined list at the commas gives the list back, when no element holds a comma |
| Ordering.NaturalStringInjective | clx/xms/client.py:439 | different natural numbers are written differently |
| Ordering.DecimalStringInjective | clx/xms/client.py:218 | different integers are written differently |
| Api.ReportTypes | clx/xms/api.py:16-19 | the four delivery report types are four distinct strings |
| Api.MtBatchSmsCreate.Text | clx/xms/api.py:135-138 | a new text batch has no recipients, sender, report type, times, callback, tags or body, and empty parameters |
| Api.MtBatchSmsCreate.Binary | clx/xms/api.py:161-164 | a new binary batch has the same empty attributes, and neither body nor UDH |
| Api.MtBatchSmsUpdate.Text | clx/xms/serialize.py:135-156 | a new text update changes nothing: empty sets, no sender, every tri-state attribute unset |
| Api.MtBatchSmsUpdate.Binary | clx/xms/serialize.py:158-177 | a new binary update changes nothing |
| Api.DefaultBatch | clx/xms/api.py:196-201 | a fresh batch result has every attribute `None`, no recipients, and the payload it is given |
| Api.MtBatchSmsResult.Text | clx/xms/api.py:225-228 | a new text result is the default batch with neither body nor parameters |
| Api.MtBatchSmsResult.Binary | clx/xms/api.py:248-251 | a new binary result is the default batch with neither body nor UDH |
| Api.DryRunPerRecipient.constructor | clx/xms/deserialize.py:187 | a new per-recipient detail has every attribute unset |
| Api.MtBatchDryRunResult.constructor | clx/xms/deserialize.py:196 | a new dry-run result has no counts and no per-recipient list |
| Api.BatchDeliveryReportStatus.constructor | clx/xms/api.py:326-330 | code, status, count and recipients start as `None` |
| Api.BatchDeliveryReport.constructor | clx/xms/api.py:285-288 | batch id and total start as `None`; there are no statuses |
| Api.BatchRecipientDeliveryReport.constructor | clx/xms/api.py:389-397 | every attribute starts as `None` |
| Api.GroupCreate.constructor | clx/xms/serialize.py:212-237 | a new group has no name, members, child groups, auto update or tags |
| Api.GroupUpdate.constructor | clx/xms/serialize.py:239-278 | a new group update changes nothing |
| Api.GroupResult.constructor | clx/xms/deserialize.py:321 | every attribute of a new group result is unset |
| Api.MoSms.Text | clx/xms/deserialize.py:407 | a new inbound text message has every attribute unset |
| Api.MoSms.Binary | clx/xms/deserialize.py:413 | a new inbound binary message has every attribute unset |
| Api.Page.constructor | clx/xms/deserialize.py:165 | a new page has no numbers and no content |
| Serialize.WriteDateTime | clx/xms/serialize.py:15-21 | refuses with `ValueError` exactly a timestamp without UTC offset; otherwise writes the string `isoformat()` gives, which parses back to the timestamp wherever the ISO routines are faithful |
| Serialize.WriteBase64 | clx/xms/serialize.py:23-24 | the Base64 text of the bytes; `None` is a `TypeError` |
| Serialize.WriteHex | clx/xms/serialize.py:26-27 | the hexadecimal text of the bytes; `None` is a `TypeError` |
| Serialize.SortedArrayReadsBack | clx/xms/serialize.py:39 | a set written as a sorted array reads back as the same set, and its elements are in ascending order |
| Serialize.ParametersJson | clx/xms/serialize.py:72-73 | template parameters are written as an object of objects with the same keys, each value as the JSON string of the given one |
| Serialize.PutIfTruthy | clx/xms/serialize.py:41-42 | a string attribute is written only when non-empty; every other key is unchanged |
| Serialize.PutSorted | clx/xms/serialize.py:50-51 | a set is written sorted, only when non-empty; every other key is unchanged |
| Serialize.PutDateTime | clx/xms/serialize.py:44-48 | a given timestamp is written as ISO text; a naive one is refused |
| Serialize.PutTriString | clx/xms/serialize.py:113-116 | a reset attribute is written as `null`, a non-empty one as itself, anything else not at all |
| Serialize.PutTriDateTime | clx/xms/serialize.py:118-121 | a reset time is `null` and a set time is ISO text; a naive one is refused |
| Serialize.PutTriParameters | clx/xms/serialize.py:151-154 | reset parameters are `null`; non-empty ones are written |
| Serialize.CreateBatchHelper | clx/xms/serialize.py:29-57 | `from` and `to` always, the other attributes only when true, no other key; fails iff a given time is naive |
| Serialize.TextBatch | clx/xms/serialize.py:59-75 | the common attributes, `type` `mt_text`, `body` (`null` if none), and `parameters` only when non-empty |
| Serialize.BinaryBatch | clx/xms/serialize.py:77-91 | `type` `mt_binary`, body in Base64, UDH in hex; fails iff a time is naive (`ValueError`) or body or UDH is missing (`TypeError`) |
| Serialize.BatchUpdateHelper | clx/xms/serialize.py:93-133 | only attributes that change are written; a reset one is `null`; fails iff a set time is naive |
| Serialize.TextBatchUpdate | clx/xms/serialize.py:135-156 | update keys, `type`, a non-empty body, parameters by the tri-state rule |
| Serialize.BinaryBatchUpdate | clx/xms/serialize.py:158-177 | update keys, `type`; body and UDH only when non-empty, so the encoders never see `None` |
| Serialize.PutWordPair | clx/xms/serialize.py:194-200 | the words of a pair go into a sub-object that exists iff one of them is true |
| Serialize.GroupAutoUpdateHelper | clx/xms/serialize.py:179-210 | `to` always; `add` and `remove` sub-objects only with their true words |
| Serialize.PutAutoUpdate | clx/xms/serialize.py:231-232 | a given rule is written as its object |
| Serialize.PutTriAutoUpdate | clx/xms/serialize.py:273-276 | a reset rule is `null`; a set rule is written as its object |
| Serialize.GroupCreateJson | clx/xms/serialize.py:212-237 | name, members, child groups, auto update and tags, each only when true; no other key |
| Serialize.GroupUpdateJson | clx/xms/serialize.py:239-278 | only changes are written; name and auto update by the tri-state rule; sets sorted |
| Serialize.TriStringLaw | clx/xms/serialize.py:113-116 | `null` iff reset; a value iff set to that non-empty value; absent iff unset or set to `""` |
| Serialize.MinimalTextBatchKeys | clx/xms/serialize.py:29-75 | a text batch with only sender, recipients and body has exactly the keys `from`, `to`, `type`, `body` |
| Serialize.UnchangedUpdateWritesType | clx/xms/serialize.py:135-177 | an update that changes nothing is written as its `type` alone |
| Serialize.UnchangedGroupUpdateWritesNothing | clx/xms/serialize.py:239-278 | a group update that changes nothing is written as `{}` |
| Serialize.Tags | clx/xms/serialize.py:280-289 | the only key is `tags`; it reads back as the same set, sorted, even when empty |
| Serialize.TagsUpdate | clx/xms/serialize.py:291-304 | the only keys are `add` and `remove`; both read back as their sets, sorted |
| Deserialize.CheckResponse | clx/xms/deserialize.py:118-131 | the parsed document, or `UnexpectedResponseException` with the parser's message and the raw body |
| Deserialize.ParsedJson | clx/xms/deserialize.py:194 | a direct `response.json()`: a parse failure escapes as `ValueError` |
| Deserialize.DateTimeOf | clx/xms/deserialize.py:17-31 | the parsed timestamp, or `UnexpectedResponseException` with the parser's message and the body |
| Deserialize.HexOf | clx/xms/deserialize.py:105 | a hexadecimal string decodes to its bytes; a bad one is a `ValueError` with the decoder's message; a non-string is a `TypeError` |
| Deserialize.Base64Of | clx/xms/deserialize.py:106 | a Base64 string decodes to its bytes; a bad one is a `ValueError` with the decoder's message; a non-string is a `TypeError` |
| Deserialize.UnknownType | clx/xms/deserialize.py:107-111 | an unknown string type gives `UnexpectedResponseException` with the prefix and the type; a non-string is a `TypeError` |
| Deserialize.HexField | clx/xms/deserialize.py:105 | a missing key is a `KeyError`; a present one is decoded as hexadecimal |
| Deserialize.Base64Field | clx/xms/deserialize.py:106 | a missing key is a `KeyError`; a present one is decoded as Base64 |
| Deserialize.OptionalString | clx/xms/deserialize.py:51-52 | an absent key keeps the current value; a present one is read (`null` as `None`) |
| Deserialize.OptionalDateTime | clx/xms/deserialize.py:54-55 | an absent key keeps the current value; a present one is parsed or raises `UnexpectedResponseException` |
| Deserialize.BatchCommon | clx/xms/deserialize.py:33-67 | `id`, `to`, `from` and `canceled` are required (`KeyError` first on `id`) and hold the document's values, `to` as `set(...)`; each optional key is read or parsed when given and keeps the default otherwise; the payload is untouched |
| Deserialize.BatchRequired | clx/xms/deserialize.py:46-49 | succeeds iff the four keys are present and readable; the id, `set(to)`, sender and canceled flag are the document's; nothing else changes |
| Deserialize.BatchSchedule | clx/xms/deserialize.py:51-58 | report type, send time and expiry are read or parsed when given and kept otherwise; nothing else changes |
| Deserialize.BatchTrail | clx/xms/deserialize.py:60-67 | creation and modification times and callback URL are parsed or read when given and kept otherwise; nothing else changes |
| Deserialize.BatchOf | clx/xms/deserialize.py:83-116 | a text result iff `type` is `mt_text`, a binary one iff `mt_binary`; any other type gives "Received unexpected batch type …"; the text body and parameters, or the decoded `udh` and body, are the document's; the common attributes are what `BatchCommon` reads |
| Deserialize.BatchResponseHelper | clx/xms/deserialize.py:33-67 | the batch object's new state is what `BatchCommon` reads, or it raises what `BatchCommon` raises |
| Deserialize.ReadBatchRequired | clx/xms/deserialize.py:46-49 | the four required attributes are read into the object |
| Deserialize.ReadBatchSchedule | clx/xms/deserialize.py:51-58 | report type and send window are read into the object when present |
| Deserialize.ReadBatchTrail | clx/xms/deserialize.py:60-67 | creation and modification times and the callback URL are read into the object when present |
| Deserialize.BatchResponseFromFields | clx/xms/deserialize.py:83-116 | returns a fresh object whose view is `BatchOf` of the document, or raises what `BatchOf` raises |
| Deserialize.ReadBatchResult | clx/xms/deserialize.py:133-150 | the batch of a response after the JSON check |
| Deserialize.BatchResultOf | clx/xms/deserialize.py:133-150 | an unparsable body gives `UnexpectedResponseException`; a parsed one is read as a batch |
| Deserialize.ReadAllElements | clx/xms/deserialize.py:169-171 | the contract of `ReadAll`, the list comprehension: it succeeds iff every element reads, and then holds exactly one reading per element, in order |
| Deserialize.ReadAllFirstFailure | clx/xms/deserialize.py:169-171 | a failing list raises the exception of its first failing element |
| Deserialize.ReadAllPrefixFailure | clx/xms/deserialize.py:169-171 | a failure within a prefix is the failure of the whole list |
| Deserialize.ReadAllStep | clx/xms/deserialize.py:169-171 | reading one more element appends its reading to that of the prefix |
| Deserialize.ListingOf | clx/xms/deserialize.py:165-171 | `page`, `page_size` and `count` are the document's numbers; the content is the list under the key read element by element; a non-object is a `TypeError` |
| Deserialize.ListingReadsEveryElement | clx/xms/deserialize.py:165-171 | a page copies `page`, `page_size` and `count`, and holds one element per list item, each read from it |
| Deserialize.ReadBatches | clx/xms/deserialize.py:169-171 | the loop builds fresh batch objects whose views are the list read element by element |
| Deserialize.BatchesPageOf | clx/xms/deserialize.py:152-173 | an unparsable body gives `UnexpectedResponseException`; otherwise the `batches` listing of the document |
| Deserialize.ReadBatchesPage | clx/xms/deserialize.py:152-173 | a fresh page whose numbers and content are what `BatchesPageOf` reads |
| Deserialize.DryRunOf | clx/xms/deserialize.py:175-203 | the two counts are the document's values; per-recipient detail is present iff the document has it, and is then its list read element by element; a parse error escapes as `ValueError` |
| Deserialize.RecipientDetail | clx/xms/deserialize.py:184-192 | a fresh per-recipient object read from the element |
| Deserialize.ReadPerRecipients | clx/xms/deserialize.py:201 | the per-recipient list, element by element |
| Deserialize.ReadDryRunResult | clx/xms/deserialize.py:175-203 | a fresh dry-run result whose view is `DryRunOf` of the response |
| Deserialize.PerRecipientOf | clx/xms/deserialize.py:184-192 | recipient, number of parts, body and encoding are the element's values; a non-object is a `TypeError` |
| Deserialize.ExpectType | clx/xms/deserialize.py:219-220 | accepts exactly a document whose `type` is the expected one; any other object gives the given message |
| Deserialize.StatusOf | clx/xms/deserialize.py:222-231 | code, status and count are the element's values; `recipients` is present iff the element has it, and is then `set` of its list |
| Deserialize.DeliveryReportOf | clx/xms/deserialize.py:205-238 | success needs `type` `delivery_report_sms`; a missing or other type gives "Expected delivery report"; batch id and total are the document's; the statuses are its list read in order; a parse error escapes as `ValueError` |
| Deserialize.ReportStatus | clx/xms/deserialize.py:222-231 | a fresh status object whose view is `StatusOf` of the element |
| Deserialize.ReadStatuses | clx/xms/deserialize.py:236 | the statuses, element by element |
| Deserialize.ReadDeliveryReport | clx/xms/deserialize.py:205-238 | a fresh report whose view is `DeliveryReportOf` of the response |
| Deserialize.RecipientReportOf | clx/xms/deserialize.py:240-277 | success needs type `recipient_delivery_report_sms`; a missing or other type gives "Expected recipient delivery report"; batch id, recipient, code and status are the document's and `at` is parsed, as `RecipientRequired` reads them; status message, operator and operator time are read when given and `None` otherwise; a parse error escapes as `ValueError` |
| Deserialize.RecipientRequired | clx/xms/deserialize.py:259-265 | batch id, recipient, code and status are the document's values and `at` is parsed (`KeyError` first on `batch_id`); the optional attributes are untouched |
| Deserialize.RecipientOptional | clx/xms/deserialize.py:267-275 | status message, operator and operator time are read or parsed when given and kept otherwise; nothing else changes |
| Deserialize.ReadRecipientRequired | clx/xms/deserialize.py:259-265 | the required attributes are read into the report object |
| Deserialize.ReadRecipientOptional | clx/xms/deserialize.py:267-275 | status message, operator and operator time are read when present |
| Deserialize.ReadRecipientDeliveryReport | clx/xms/deserialize.py:240-277 | a fresh recipient report whose view is `RecipientReportOf` of the response |
| Deserialize.ErrorOf | clx/xms/deserialize.py:279-289 | the error's code and text are the document's `code` and `text`; a parse error escapes as `ValueError` |
| Deserialize.WordOf | clx/xms/deserialize.py:306-309 | `get(key, None)`: a missing word is `None`, a present one is read |
| Deserialize.AutoUpdateOf | clx/xms/deserialize.py:291-309 | `to` is required; a missing `add` or `remove` gives an empty word pair, a given one holds the words it has; a non-object is an `AttributeError` |
| Deserialize.GroupOf | clx/xms/deserialize.py:311-334 | child groups (as `set(...)`), id and size are the document's and both times are parsed; the name is read when given; the auto update is present iff the document has it, and is then read from it; a non-object is a `TypeError` |
| Deserialize.GroupRequired | clx/xms/deserialize.py:321-326 | `set(child_groups)`, id and size are the document's and both times are parsed (`KeyError` first on `child_groups`); name and auto update are untouched |
| Deserialize.GroupOptional | clx/xms/deserialize.py:328-332 | the name and the auto update are read when given and kept otherwise; nothing else changes |
| Deserialize.ReadGroupRequired | clx/xms/deserialize.py:321-326 | the group object's new state is `GroupRequired` of the old one |
| Deserialize.ReadGroupOptional | clx/xms/deserialize.py:328-332 | the group object's new state is `GroupOptional` of the old one |
| Deserialize.GroupResultFromFields | clx/xms/deserialize.py:311-334 | a fresh group whose view is `GroupOf` of the document |
| Deserialize.ReadGroupResult | clx/xms/deserialize.py:336-347 | the group of a response parsed directly |
| Deserialize.GroupResultOf | clx/xms/deserialize.py:336-347 | a parse error escapes as `ValueError`; a parsed document is read as a group |
| Deserialize.ReadGroups | clx/xms/deserialize.py:364-366 | the groups of a page, element by element |
| Deserialize.GroupsPageOf | clx/xms/deserialize.py:349-368 | an unparsable body gives `UnexpectedResponseException`; otherwise the `groups` listing of the document |
| Deserialize.ReadGroupsPage | clx/xms/deserialize.py:349-368 | a fresh page whose numbers and content are what `GroupsPageOf` reads |
| Deserialize.GroupMembersOf | clx/xms/deserialize.py:370-380 | the members are `set` of the whole document |
| Deserialize.TagsOf | clx/xms/deserialize.py:382-392 | the tags are `set` of the `tags` member |
| Deserialize.MoPayloadOf | clx/xms/deserialize.py:406-419 | text iff `type` is `mo_text`, binary iff `mo_binary`, else "Received unexpected inbound type …"; a text body is the document's and the keyword is read when given; a binary `udh` and body are the decoded hexadecimal and Base64 |
| Deserialize.MoOf | clx/xms/deserialize.py:394-434 | the payload is `MoPayloadOf`'s; id, from and to are the document's values; operator and both times are read or parsed when given and `None` otherwise |
| Deserialize.MoRequired | clx/xms/deserialize.py:421-423 | id, from and to are the document's values (`KeyError` first on `id`); nothing else changes |
| Deserialize.MoOptional | clx/xms/deserialize.py:425-432 | operator and both times are read or parsed when given and kept otherwise; nothing else changes |
| Deserialize.ReadMoRequired | clx/xms/deserialize.py:421-423 | the message object's new state is `MoRequired` of the old one |
| Deserialize.ReadMoOptional | clx/xms/deserialize.py:425-432 | the message object's new state is `MoOptional` of the old one |
| Deserialize.MoSmsFromFields | clx/xms/deserialize.py:394-434 | a fresh message of the document's type whose view is `MoOf` of the document |
| Deserialize.ReadMoSms | clx/xms/deserialize.py:436-448 | the message of a response after the JSON check |
| Deserialize.MoSmsOf | clx/xms/deserialize.py:436-448 | an unparsable body gives `UnexpectedResponseException`; a parsed one is read as an inbound message |
| Deserialize.ReadInbounds | clx/xms/deserialize.py:467 | the inbound messages of a page, element by element |
| Deserialize.InboundsPageOf | clx/xms/deserialize.py:450-469 | an unparsable body gives `UnexpectedResponseException`; otherwise the `inbounds` listing of the document |
| Deserialize.ReadInboundsPage | clx/xms/deserialize.py:450-469 | a fresh page whose numbers and content are what `InboundsPageOf` reads |
| Client.NewClient | clx/xms/client.py:83-90 | a client keeps its plan and token, and uses the default endpoint |
| Client.CheckStatus | clx/xms/client.py:187-218 | 2xx passes; 400/403 raise the error document; 404 names the URL; 401 names the plan; any other status gives "Unexpected HTTP status <code>" |
| Client.StatusNamesException | clx/xms/client.py:201-218 | exactly the non-2xx statuses fail, and the exception kind tells the status class |
| Client.ErrorDocumentRaised | clx/xms/client.py:205-208 | a `{code, text}` document under 400 or 403 raises `ErrorResponseException(text, code)` |
| Client.Url | clx/xms/client.py:140-149 | the URL is the endpoint, `/v1/`, the plan, then the sub-path |
| Client.UrlDeterminesSubPath | clx/xms/client.py:149 | two sub-paths of one client never give the same URL |
| Client.ResourceUrl | clx/xms/client.py:162-167 | fails exactly when the encoded identifier is empty; otherwise gives the URL of the encoded identifier |
| Client.BatchUrl | clx/xms/client.py:151-167 | "Empty batch ID given" exactly when the batch id encodes to nothing |
| Client.GroupUrl | clx/xms/client.py:169-185 | "Empty group ID given" exactly when the group id encodes to nothing |
| Client.InboundUrl | clx/xms/client.py:711-716 | "Empty inbound ID given" exactly when the inbound id encodes to nothing |
| Client.ResourceUrlDeterminesId | clx/xms/client.py:162-167 | within one collection and sub-path, the URL tells which encoded id was requested |
| Client.BatchAndGroupUrlsDiffer | clx/xms/client.py:167 | a batch URL is never a group URL |
| Client.AddParam | clx/xms/client.py:391-394 | adding a parameter changes that key only |
| Client.AddParamIf | clx/xms/client.py:393-406 | a parameter is added only when its filter is true |
| Client.BatchesPageRequest | clx/xms/client.py:388-409 | `page` always; page size, senders, tags and dates only when true, sets sorted and comma-joined; the URL is `/batches?` plus the encoded query |
| Client.GroupsPageRequest | clx/xms/client.py:630-642 | `page` always; page size and tags only when true |
| Client.InboundsPageRequest | clx/xms/client.py:745-763 | `page` always; page size, recipients and dates only when true |
| Client.SetFilterReadsBack | clx/xms/client.py:397 | a comma-free set filter splits back into its members, each once, ascending |
| Client.DecimalStrings | clx/xms/client.py:527 | each code is written out in decimal, in order |
| Client.ReportQueryEmpty | clx/xms/client.py:518-531 | the report query is empty iff kind, statuses and codes are all false |
| Client.DeliveryReportRequest | clx/xms/client.py:518-534 | the query holds the true filters; `?` and the query are added iff there is one |
| Client.RecipientReportUrl | clx/xms/client.py:546-547 | the recipient is encoded into the batch's delivery report path; only an empty batch id is refused |
| Client.DecimalStringHasNoComma | clx/xms/client.py:527 | no decimal number holds a comma |
| Client.CodeFilterReadsBack | clx/xms/client.py:527 | the `code` parameter splits back into the codes in increasing order |
| Client.DryRunPath | clx/xms/client.py:435-439 | per-recipient detail is requested, with the count, exactly when a non-zero count is given |
| Client.DryRunPathNamesCount | clx/xms/client.py:439 | the requested count reads back off the path |
| Client.SerializeCreate | clx/xms/client.py:292-295 | the binary serializer exactly for a binary batch; the written `type` tells which was used; creation fails exactly when a given send or expiry time is naive (`ValueError`) or, for a binary batch, the body or UDH is missing (`TypeError`) |
| Client.SerializeUpdate | clx/xms/client.py:330-333 | the binary update serializer exactly for a binary update |
| RoundTrip.Kept | clx/xms/serialize.py:41-42 | a string attribute survives the round trip iff it is non-empty |
| RoundTrip.EchoKeeps | clx/xms/deserialize.py:46-67 | the server's echo keeps every key it does not set itself |
| RoundTrip.RequiredReadBack | clx/xms/deserialize.py:46-49 | recipients and sender read back as sent; id and canceled as the server assigned them |
| RoundTrip.ScheduleReadBack | clx/xms/deserialize.py:51-58 | report type and send window read back; a false one as `None` |
| RoundTrip.TrailReadBack | clx/xms/deserialize.py:60-67 | the server's times and the callback URL read back |
| RoundTrip.CommonAttributesReadBack | clx/xms/deserialize.py:33-67 | what `_create_batch_helper` wrote reads back through `_batch_response_helper` |
| RoundTrip.TextWrote | clx/xms/serialize.py:59-75 | what `text_batch` wrote, key by key |
| RoundTrip.BinaryWrote | clx/xms/serialize.py:77-91 | what `binary_batch` wrote, key by key |
| RoundTrip.TextDocumentReadsBack | clx/xms/deserialize.py:97-102 | a text document reads as a text result with its body and parameters |
| RoundTrip.BinaryDocumentReadsBack | clx/xms/deserialize.py:103-106 | a binary document reads back with the bytes of body and UDH |
| RoundTrip.TextBatchReadsBack | clx/xms/deserialize.py:83-116 | a text batch, once written and echoed, reads back with its attributes and the server's |
| RoundTrip.TextEchoReadsBack | clx/xms/deserialize.py:83-116 | the same, from the written keys |
| RoundTrip.BinaryBatchReadsBack | clx/xms/deserialize.py:83-116 | a binary batch, once written and echoed, reads back with the same body and UDH bytes |
| RoundTrip.BinaryEchoReadsBack | clx/xms/deserialize.py:83-116 | the same, from the written keys |
| RoundTrip.TagsReadBack | clx/xms/deserialize.py:382-392 | tags written by `tags` read back as the same set |
| RoundTrip.AutoUpdateReadsBack | clx/xms/deserialize.py:291-309 | an auto-update rule reads back as written, a false word as `None` |
| RoundTrip.WordPairReadsBack | clx/xms/deserialize.py:301-309 | one word pair reads back from its sub-object |
| RoundTrip.Base64Example | clx/xms/serialize.py:23-24 | `b2a_base64` of bytes 0,1,2,3 is `AAECAw==` followed by a newline |
| RoundTrip.A2bBase64Example | clx/xms/deserialize.py:415 | `AwE=` decodes to the bytes 3,1 |
| RoundTrip.HexExample | clx/xms/serialize.py:26-27 | `hexlify` of bytes 255,254,253 is `fffefd` |
| RoundTrip.UnhexlifyExample | clx/xms/deserialize.py:414 | `00010203` decodes to the bytes 0,1,2,3 |

## Left out

- The HTTP session, request headers, logging and timeouts are not
  modelled. `_get`, `_post`, `_put` and `_delete` only combine a URL
  built here, a body serialized here and a reader modelled here. They
  are not separate members, and neither are the public client methods
  that chain them.
- Parsing JSON text is not modelled. A response carries its text and
  the outcome of `response.json()`.
- `iso8601.parse_date`, `datetime.isoformat` and `date.isoformat` are
  not modelled; they are parameters. The round-trip lemmas assume only
  that parsing a formatted aware timestamp gives it back.
- `quote_plus` and `urlencode` are parameters. A query is a map, so the
  order in which `urlencode` writes the parameters is not modelled.
- `Pages` iteration and the `fetcher` closures are left out. The model
  covers one page request and one page reader. The convenience wrappers
  `create_text_message` and `create_binary_message` are left out: they
  only fill a batch and call `create_batch`.
- Python's dynamic typing: the readers refuse documents that Python
  accepts. Where Python stores a value of any shape in an attribute (an
  id that is a number, a `code` that is a string), the model requires
  the type the attribute is documented to have, and refuses anything
  else with a `TypeError`. Where Python itself fails on a wrong shape,
  the precise built-in exception is not modelled.
- Deserialize.AutoUpdateOf: reads `to` as a string, so a non-string
  recipient is a `TypeError`. Python would store any value.
- Deserialize.HexOf and Deserialize.Base64Of: the message of
  `binascii.Error` on bad input is modelled by fixed strings.
- Encoding.A2bBase64: approximates `a2b_base64`'s non-strict mode. It
  skips every character outside the alphabet and the pad, and stops at
  the first padded group. It refuses some text CPython accepts: CPython
  skips a `=` that comes before the second data character of a group,
  so `AAAA=` and `=AAAA` decode to three zero bytes there, and it skips
  a lone `=` after two data characters when more data follows. The
  model refuses all of these with "Incorrect padding". The exact error
  messages are not modelled either.
- The group, auto-update, inbound message, dry-run and page classes
  (`GroupCreate`, `GroupUpdate`, `GroupResult`, `GroupAutoUpdate`,
  `MoTextSms`, `MoBinarySms`, `MtBatchDryRunResult`,
  `DryRunPerRecipient`, `Page`, `Pages`) and the batch update classes
  are modelled from their uses in `clx/xms/serialize.py` and
  `clx/xms/deserialize.py`, because `clx/xms/api.py` does not define
  them. Their attributes are the ones those files read and write, and
  their defaults are taken to be `None` or empty. Behaviour of their
  own (validation, methods) is not captured.
- Several single Python functions are split into helper methods, each
  proved against its own function, to keep the proofs small. Examples
  are `_batch_response_helper` and `_group_result_from_fields`.
- Some of the SDK's tests expect request bodies that the code cannot
  produce. For example, a `to` list in insertion order where the code
  sorts it. The model follows the code.
