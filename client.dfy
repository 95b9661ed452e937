/** The decisions the `Client` takes around each HTTP exchange: which
  * exception a response status raises, how request URLs are built, which
  * query parameters a listing or report request carries, and which
  * serializer a batch goes through. The HTTP session, the headers and the
  * logging are not modelled; `quote_plus` and `urlencode` are passed in. */
module Client {

  import opened Wrappers
  import opened Exceptions
  import opened Json
  import opened Timestamps
  import opened Ordering
  import opened Api
  import Serialize
  import Deserialize

  const DEFAULT_ENDPOINT := "https://api.clxcommunications.com/xms"

  /** The `Client` attributes the modelled logic reads; none of them changes
    * after construction. */
  datatype Client = Client(servicePlanId: string, token: string, endpoint: string)

  /** A client for the default endpoint. */
  function NewClient(servicePlanId: string, token: string): (c: Client)
    ensures c.servicePlanId == servicePlanId && c.token == token
    ensures c.endpoint == DEFAULT_ENDPOINT
  {
    Client(servicePlanId, token, DEFAULT_ENDPOINT)
  }

  /** `urllib`'s `quote_plus` and `urlencode`. A query is handed over as a
    * map from parameter name to the `str` of its value. */
  datatype UrlLib = UrlLib(quotePlus: string -> string, urlencode: map<string, string> -> string)

  /** A response of the HTTP library: status, body text, what
    * `response.json()` gives, and the URL that was requested. */
  datatype HttpResponse = HttpResponse(statusCode: int, text: string, json: Result<Json, string>, requestUrl: string)

  /** The response as the deserializer sees it. */
  function Body(resp: HttpResponse): Deserialize.Response
  {
    Deserialize.Response(resp.text, resp.json)
  }

  // ------------------------------------------------- status classification

  const UNEXPECTED_STATUS := "Unexpected HTTP status "

  /** `Client._check_response`: a 2xx response is passed on; 400 and 403
    * carry an error document; 404 names the URL; 401 names the plan. */
  function CheckStatus(c: Client, resp: HttpResponse): (r: Result<HttpResponse, Failure>)
    ensures r.Success? <==> 200 <= resp.statusCode < 300
    ensures r.Success? ==> r.value == resp
    ensures (resp.statusCode == 400 || resp.statusCode == 403) && Deserialize.ErrorOf(Body(resp)).Success? ==>
      var e := Deserialize.ErrorOf(Body(resp)).value;
      r == Failure(Api(ErrorResponse(e.text, e.code)))
    ensures (resp.statusCode == 400 || resp.statusCode == 403) && Deserialize.ErrorOf(Body(resp)).Failure? ==>
      r == Failure(Deserialize.ErrorOf(Body(resp)).error)
    ensures resp.statusCode == 404 ==> r == Failure(Api(NotFound(resp.requestUrl)))
    ensures resp.statusCode == 401 ==> r == Failure(Api(Unauthorized(c.servicePlanId, c.token)))
    ensures !(200 <= resp.statusCode < 300) && resp.statusCode !in {400, 401, 403, 404} ==>
      r == Failure(Api(UnexpectedResponse(UNEXPECTED_STATUS + DecimalString(resp.statusCode), resp.text)))
  {
    if 200 <= resp.statusCode < 300 then Success(resp)
    else if resp.statusCode == 400 || resp.statusCode == 403 then
      var error :- Deserialize.ErrorOf(Body(resp));
      Failure(Api(ErrorResponse(error.text, error.code)))
    else if resp.statusCode == 404 then Failure(Api(NotFound(resp.requestUrl)))
    else if resp.statusCode == 401 then Failure(Api(Unauthorized(c.servicePlanId, c.token)))
    else Failure(Api(UnexpectedResponse(UNEXPECTED_STATUS + DecimalString(resp.statusCode), resp.text)))
  }

  /** Every status outside 2xx fails, and when it fails with an SDK exception
    * the kind of the exception tells the status class apart. */
  lemma StatusNamesException(c: Client, resp: HttpResponse)
    ensures var r := CheckStatus(c, resp);
      && (r.Failure? <==> !(200 <= resp.statusCode < 300))
      && (r.Failure? && r.error.Api? ==>
           && (r.error.exception.ErrorResponseException? <==> resp.statusCode == 400 || resp.statusCode == 403)
           && (r.error.exception.NotFoundException? <==> resp.statusCode == 404)
           && (r.error.exception.UnauthorizedException? <==> resp.statusCode == 401)
           && (r.error.exception.UnexpectedResponseException? <==> resp.statusCode !in {400, 401, 403, 404}))
      && (r.Failure? && !r.error.Api? ==> resp.statusCode == 400 || resp.statusCode == 403)
  {
  }

  /** An error document `{"code": c, "text": t}` under status 400 or 403
    * raises an `ErrorResponseException` whose message is `t` and whose code
    * is `c`. */
  lemma ErrorDocumentRaised(c: Client, resp: HttpResponse, code: string, text: string)
    requires resp.statusCode == 400 || resp.statusCode == 403
    requires resp.json.Success? && resp.json.value.JObject?
    requires var m := resp.json.value.members;
      "code" in m && "text" in m && m["code"] == JString(code) && m["text"] == JString(text)
    ensures CheckStatus(c, resp) == Failure(Api(ErrorResponseException(text, code)))
  {
  }

  // ---------------------------------------------------------------- URLs

  const API_VERSION := "/v1/"

  /** `_url`: the endpoint, the API version, the service plan, the sub-path. */
  function Url(c: Client, subPath: string): (r: string)
    ensures |r| == |c.endpoint| + |API_VERSION| + |c.servicePlanId| + |subPath|
    ensures r[..|c.endpoint|] == c.endpoint
    ensures r[|c.endpoint|..|c.endpoint| + |API_VERSION|] == API_VERSION
    ensures r[|c.endpoint| + |API_VERSION|..|r| - |subPath|] == c.servicePlanId
    ensures r[|r| - |subPath|..] == subPath
  {
    c.endpoint + API_VERSION + c.servicePlanId + subPath
  }

  /** Two sub-paths of the same client never give the same URL. */
  lemma UrlDeterminesSubPath(c: Client, a: string, b: string)
    requires Url(c, a) == Url(c, b)
    ensures a == b
  {
    var ua, ub := Url(c, a), Url(c, b);
    assert a == ua[|ua| - |a|..] && b == ub[|ub| - |b|..];
  }

  const EMPTY_BATCH_ID := "Empty batch ID given"
  const EMPTY_GROUP_ID := "Empty group ID given"
  const EMPTY_INBOUND_ID := "Empty inbound ID given"
  const BATCHES := "/batches/"
  const GROUPS := "/groups/"
  const INBOUNDS := "/inbounds/"

  /** The URL of one resource in a collection: the identifier is
    * percent-encoded, and one that encodes to nothing is refused. */
  function ResourceUrl(c: Client, lib: UrlLib, collection: string, id: string, subPath: string, empty: string)
    : (r: Result<string, Failure>)
    ensures r.Failure? <==> lib.quotePlus(id) == ""
    ensures r.Failure? ==> r.error == ValueError(empty)
    ensures r.Success? ==> r.value == Url(c, collection + lib.quotePlus(id) + subPath)
  {
    var encoded := lib.quotePlus(id);
    if encoded == "" then Failure(ValueError(empty))
    else Success(Url(c, collection + encoded + subPath))
  }

  /** `_batch_url`. */
  function BatchUrl(c: Client, lib: UrlLib, batchId: string, subPath: string): (r: Result<string, Failure>)
    ensures r.Failure? <==> lib.quotePlus(batchId) == ""
    ensures r.Failure? ==> r.error == ValueError(EMPTY_BATCH_ID)
    ensures r.Success? ==> r.value == Url(c, BATCHES + lib.quotePlus(batchId) + subPath)
  {
    ResourceUrl(c, lib, BATCHES, batchId, subPath, EMPTY_BATCH_ID)
  }

  /** `_group_url`. */
  function GroupUrl(c: Client, lib: UrlLib, groupId: string, subPath: string): (r: Result<string, Failure>)
    ensures r.Failure? <==> lib.quotePlus(groupId) == ""
    ensures r.Failure? ==> r.error == ValueError(EMPTY_GROUP_ID)
    ensures r.Success? ==> r.value == Url(c, GROUPS + lib.quotePlus(groupId) + subPath)
  {
    ResourceUrl(c, lib, GROUPS, groupId, subPath, EMPTY_GROUP_ID)
  }

  /** The URL `fetch_inbound` requests. */
  function InboundUrl(c: Client, lib: UrlLib, inboundId: string): (r: Result<string, Failure>)
    ensures r.Failure? <==> lib.quotePlus(inboundId) == ""
    ensures r.Failure? ==> r.error == ValueError(EMPTY_INBOUND_ID)
    ensures r.Success? ==> r.value == Url(c, INBOUNDS + lib.quotePlus(inboundId))
  {
    ResourceUrl(c, lib, INBOUNDS, inboundId, "", EMPTY_INBOUND_ID)
  }

  /** Within one collection and for one sub-path, the URL tells which encoded
    * identifier was asked for. */
  lemma ResourceUrlDeterminesId(c: Client, lib: UrlLib, collection: string, a: string, b: string, subPath: string, empty: string)
    requires ResourceUrl(c, lib, collection, a, subPath, empty).Success?
    requires ResourceUrl(c, lib, collection, a, subPath, empty) == ResourceUrl(c, lib, collection, b, subPath, empty)
    ensures lib.quotePlus(a) == lib.quotePlus(b)
  {
    var qa, qb := lib.quotePlus(a), lib.quotePlus(b);
    UrlDeterminesSubPath(c, collection + qa + subPath, collection + qb + subPath);
    var pa, pb := collection + qa + subPath, collection + qb + subPath;
    assert qa == pa[|collection|..|pa| - |subPath|] && qb == pb[|collection|..|pb| - |subPath|];
  }

  /** A batch URL is never a group URL. */
  lemma BatchAndGroupUrlsDiffer(c: Client, lib: UrlLib, batchId: string, groupId: string, a: string, b: string)
    requires BatchUrl(c, lib, batchId, a).Success? && GroupUrl(c, lib, groupId, b).Success?
    ensures BatchUrl(c, lib, batchId, a).value != GroupUrl(c, lib, groupId, b).value
  {
    var pa, pb := BATCHES + lib.quotePlus(batchId) + a, GROUPS + lib.quotePlus(groupId) + b;
    assert pa[1] == 'b' && pb[1] == 'g';
    if Url(c, pa) == Url(c, pb) {
      UrlDeterminesSubPath(c, pa, pb);
    }
  }

  // ------------------------------------------------------ query parameters

  /** A query under construction: parameter name to the `str` of its value. */
  type Params = map<string, string>

  function ParamAt(p: Params, k: string): Option<string>
  {
    if k in p then Some(p[k]) else None
  }

  function IntParam(o: Option<int>): Option<string>
  {
    if TruthyInt(o) then Some(DecimalString(o.value)) else None
  }

  /** `','.join(sorted(s))`, when `s` is a non-empty set. */
  function SortedJoinParam(o: Option<set<string>>): Option<string>
  {
    if TruthySet(o) then Some(Join(",", SortedStrings(o.value))) else None
  }

  /** `date.isoformat()`; a `date` is always true. */
  function DateParam(o: Option<Date>, iso: Iso8601): Option<string>
  {
    if o.Some? then Some(iso.formatDate(o.value)) else None
  }

  /** `params[key] = value` on a key the query does not have yet. */
  method AddParam(p: Params, key: string, value: string) returns (r: Params)
    requires ParamAt(p, key).None?
    ensures forall k :: ParamAt(r, k) == if k == key then Some(value) else ParamAt(p, k)
  {
    r := p[key := value];
  }

  /** `if present: params[key] = value`. */
  method AddParamIf(p: Params, key: string, o: Option<string>) returns (r: Params)
    requires ParamAt(p, key).None?
    ensures forall k :: ParamAt(r, k) == if k == key then o else ParamAt(p, k)
  {
    r := p;
    if o.Some? {
      r := AddParam(p, key, o.value);
    }
  }

  /** The filter arguments of `fetch_batches`. */
  datatype BatchFilter = BatchFilter(
    pageSize: Option<int>,
    senders: Option<set<string>>,
    tags: Option<set<string>>,
    startDate: Option<Date>,
    endDate: Option<Date>)

  /** The query of one page of `fetch_batches`: the page always, every other
    * filter only when it is true. */
  function BatchesParam(f: BatchFilter, page: int, iso: Iso8601, k: string): Option<string>
  {
    if k == "page" then Some(DecimalString(page))
    else if k == "page_size" then IntParam(f.pageSize)
    else if k == "from" then SortedJoinParam(f.senders)
    else if k == "tags" then SortedJoinParam(f.tags)
    else if k == "start_date" then DateParam(f.startDate, iso)
    else if k == "end_date" then DateParam(f.endDate, iso)
    else None
  }

  /** The `fetcher` of `fetch_batches`: the query and the URL of a page. */
  method BatchesPageRequest(c: Client, lib: UrlLib, f: BatchFilter, page: int, iso: Iso8601)
    returns (params: Params, url: string)
    ensures forall k :: ParamAt(params, k) == BatchesParam(f, page, iso, k)
    ensures url == Url(c, "/batches?" + lib.urlencode(params))
  {
    params := map["page" := DecimalString(page)];
    params := AddParamIf(params, "page_size", IntParam(f.pageSize));
    params := AddParamIf(params, "from", SortedJoinParam(f.senders));
    params := AddParamIf(params, "tags", SortedJoinParam(f.tags));
    params := AddParamIf(params, "start_date", DateParam(f.startDate, iso));
    params := AddParamIf(params, "end_date", DateParam(f.endDate, iso));
    url := Url(c, "/batches?" + lib.urlencode(params));
  }

  /** The filter arguments of `fetch_groups`. */
  datatype GroupFilter = GroupFilter(pageSize: Option<int>, tags: Option<set<string>>)

  function GroupsParam(f: GroupFilter, page: int, k: string): Option<string>
  {
    if k == "page" then Some(DecimalString(page))
    else if k == "page_size" then IntParam(f.pageSize)
    else if k == "tags" then SortedJoinParam(f.tags)
    else None
  }

  /** The `fetcher` of `fetch_groups`. */
  method GroupsPageRequest(c: Client, lib: UrlLib, f: GroupFilter, page: int)
    returns (params: Params, url: string)
    ensures forall k :: ParamAt(params, k) == GroupsParam(f, page, k)
    ensures url == Url(c, "/groups?" + lib.urlencode(params))
  {
    params := map["page" := DecimalString(page)];
    params := AddParamIf(params, "page_size", IntParam(f.pageSize));
    params := AddParamIf(params, "tags", SortedJoinParam(f.tags));
    url := Url(c, "/groups?" + lib.urlencode(params));
  }

  /** The filter arguments of `fetch_inbounds`. */
  datatype InboundFilter = InboundFilter(
    pageSize: Option<int>,
    recipients: Option<set<string>>,
    startDate: Option<Date>,
    endDate: Option<Date>)

  function InboundsParam(f: InboundFilter, page: int, iso: Iso8601, k: string): Option<string>
  {
    if k == "page" then Some(DecimalString(page))
    else if k == "page_size" then IntParam(f.pageSize)
    else if k == "to" then SortedJoinParam(f.recipients)
    else if k == "start_date" then DateParam(f.startDate, iso)
    else if k == "end_date" then DateParam(f.endDate, iso)
    else None
  }

  /** The `fetcher` of `fetch_inbounds`. */
  method InboundsPageRequest(c: Client, lib: UrlLib, f: InboundFilter, page: int, iso: Iso8601)
    returns (params: Params, url: string)
    ensures forall k :: ParamAt(params, k) == InboundsParam(f, page, iso, k)
    ensures url == Url(c, "/inbounds?" + lib.urlencode(params))
  {
    params := map["page" := DecimalString(page)];
    params := AddParamIf(params, "page_size", IntParam(f.pageSize));
    params := AddParamIf(params, "to", SortedJoinParam(f.recipients));
    params := AddParamIf(params, "start_date", DateParam(f.startDate, iso));
    params := AddParamIf(params, "end_date", DateParam(f.endDate, iso));
    url := Url(c, "/inbounds?" + lib.urlencode(params));
  }

  /** A set filter reads back from its parameter: split at the commas it is
    * the set in ascending order, each member once — provided no member
    * holds a comma. */
  lemma SetFilterReadsBack(s: set<string>)
    requires s != {}
    requires forall x | x in s :: ',' !in x
    ensures SortedJoinParam(Some(s)).Some?
    ensures var pieces := Split(SortedJoinParam(Some(s)).value, ',');
      && |pieces| == |s|
      && (forall x :: x in pieces <==> x in s)
      && SortedBy(pieces, StringLe) && Distinct(pieces)
  {
    var xs := SortedStrings(s);
    SortedStringsIsSorted(s);
    forall i | 0 <= i < |xs| ensures ',' !in xs[i] {
      assert xs[i] in s;
    }
    SplitJoin(xs, ',');
  }

  // ------------------------------------------------------ delivery reports

  /** The filter arguments of `fetch_delivery_report`. */
  datatype ReportFilter = ReportFilter(kind: Option<string>, status: Option<set<string>>, code: Option<set<int>>)

  function DecimalStrings(xs: seq<int>): (r: seq<string>)
    ensures |r| == |xs|
    ensures forall i :: 0 <= i < |xs| ==> r[i] == DecimalString(xs[i])
  {
    if |xs| == 0 then [] else DecimalStrings(xs[..|xs| - 1]) + [DecimalString(xs[|xs| - 1])]
  }

  /** `','.join([str(i) for i in sorted(code)])`: sorted as numbers, then
    * written out. */
  function CodesParam(o: Option<set<int>>): Option<string>
  {
    if TruthySet(o) then Some(Join(",", DecimalStrings(SortedInts(o.value)))) else None
  }

  function ReportParam(f: ReportFilter, k: string): Option<string>
  {
    if k == "type" then (if TruthyString(f.kind) then f.kind else None)
    else if k == "status" then SortedJoinParam(f.status)
    else if k == "code" then CodesParam(f.code)
    else None
  }

  const DELIVERY_REPORT_PATH := "/delivery_report"

  /** A delivery report query is empty exactly when no filter is true. */
  lemma ReportQueryEmpty(f: ReportFilter, params: Params)
    requires forall k :: ParamAt(params, k) == ReportParam(f, k)
    ensures params == map[] <==> !TruthyString(f.kind) && !TruthySet(f.status) && !TruthySet(f.code)
  {
    assert ParamAt(params, "type") == ReportParam(f, "type");
    assert ParamAt(params, "status") == ReportParam(f, "status");
    assert ParamAt(params, "code") == ReportParam(f, "code");
    forall k | k in params ensures k == "type" || k == "status" || k == "code" {
      assert ParamAt(params, k).Some?;
    }
    if !TruthyString(f.kind) && !TruthySet(f.status) && !TruthySet(f.code) {
      assert params.Keys == {};
    }
  }

  /** `fetch_delivery_report`: the query holds the filters that are true;
    * the `?` and the query are added only when there is one. */
  method DeliveryReportRequest(c: Client, lib: UrlLib, batchId: string, f: ReportFilter)
    returns (params: Params, url: Result<string, Failure>)
    ensures forall k :: ParamAt(params, k) == ReportParam(f, k)
    ensures params == map[] <==> !TruthyString(f.kind) && !TruthySet(f.status) && !TruthySet(f.code)
    ensures params == map[] ==> url == BatchUrl(c, lib, batchId, DELIVERY_REPORT_PATH)
    ensures params != map[] ==> url == BatchUrl(c, lib, batchId, DELIVERY_REPORT_PATH + "?" + lib.urlencode(params))
  {
    params := map[];
    if TruthyString(f.kind) {
      params := AddParam(params, "type", f.kind.value);
    }
    params := AddParamIf(params, "status", SortedJoinParam(f.status));
    params := AddParamIf(params, "code", CodesParam(f.code));
    ReportQueryEmpty(f, params);
    var path := DELIVERY_REPORT_PATH;
    if params != map[] {
      path := path + "?" + lib.urlencode(params);
    }
    url := BatchUrl(c, lib, batchId, path);
  }

  /** The URL `fetch_recipient_delivery_report` requests: the recipient is
    * percent-encoded into the delivery report path of the batch, and only an
    * empty batch identifier is refused. */
  function RecipientReportUrl(c: Client, lib: UrlLib, batchId: string, recipient: string): (r: Result<string, Failure>)
    ensures r.Failure? <==> lib.quotePlus(batchId) == ""
    ensures r.Failure? ==> r.error == ValueError(EMPTY_BATCH_ID)
    ensures r.Success? ==>
      r.value == Url(c, BATCHES + lib.quotePlus(batchId) + DELIVERY_REPORT_PATH + "/" + lib.quotePlus(recipient))
  {
    BatchUrl(c, lib, batchId, DELIVERY_REPORT_PATH + "/" + lib.quotePlus(recipient))
  }

  /** No decimal string holds a comma. */
  lemma DecimalStringHasNoComma(n: int)
    ensures ',' !in DecimalString(n)
  {
    var d := DecimalString(n);
    if n < 0 {
      var digits := NaturalString(-n);
      assert d == "-" + digits;
      assert forall j :: 0 < j < |d| ==> d[j] == digits[j - 1];
    }
  }

  /** The `code` parameter reads back as the codes in increasing order
    * (`SortedIntsIncreasing`), each written out in decimal. */
  lemma CodeFilterReadsBack(s: set<int>)
    requires s != {}
    ensures CodesParam(Some(s)).Some?
    ensures Split(CodesParam(Some(s)).value, ',') == DecimalStrings(SortedInts(s))
    ensures |DecimalStrings(SortedInts(s))| == |s|
  {
    var xs := SortedInts(s);
    SortedIntsIncreasing(s);
    var strs := DecimalStrings(xs);
    forall i | 0 <= i < |strs| ensures ',' !in strs[i] {
      DecimalStringHasNoComma(xs[i]);
    }
    SplitJoin(strs, ',');
  }

  // ---------------------------------------------------------------- dry run

  const DRY_RUN_PATH := "/batches/dry_run"
  const PER_RECIPIENT_QUERY := "?per_recipient=true"
  const NUMBER_OF_RECIPIENTS := "&number_of_recipients="

  /** The path `create_batch_dry_run` posts to: per-recipient detail is asked
    * for only when a non-zero number of recipients is given. */
  method DryRunPath(numRecipients: Option<int>) returns (path: string)
    ensures !TruthyInt(numRecipients) ==> path == DRY_RUN_PATH
    ensures TruthyInt(numRecipients) ==>
      path == DRY_RUN_PATH + PER_RECIPIENT_QUERY + NUMBER_OF_RECIPIENTS + DecimalString(numRecipients.value)
  {
    path := DRY_RUN_PATH;
    if TruthyInt(numRecipients) {
      path := path + PER_RECIPIENT_QUERY;
      path := path + NUMBER_OF_RECIPIENTS + DecimalString(numRecipients.value);
    }
  }

  /** The number of recipients can be read back off the path. */
  lemma DryRunPathNamesCount(a: int, b: int)
    requires DRY_RUN_PATH + PER_RECIPIENT_QUERY + NUMBER_OF_RECIPIENTS + DecimalString(a)
          == DRY_RUN_PATH + PER_RECIPIENT_QUERY + NUMBER_OF_RECIPIENTS + DecimalString(b)
    ensures a == b
  {
    var prefix := DRY_RUN_PATH + PER_RECIPIENT_QUERY + NUMBER_OF_RECIPIENTS;
    assert DecimalString(a) == (prefix + DecimalString(a))[|prefix|..];
    assert DecimalString(b) == (prefix + DecimalString(b))[|prefix|..];
    DecimalStringInjective(a, b);
  }

  // ------------------------------------------------------ serializer choice

  /** `create_batch`, `replace_batch` and `create_batch_dry_run` serialize a
    * batch with `binary_batch` exactly when it has a UDH, that is when it is
    * the binary variant. */
  method SerializeCreate(b: MtBatchSmsCreate, iso: Iso8601) returns (r: Result<Fields, Failure>)
    ensures b.payload.TextCreate? ==>
      (r.Failure? <==> Serialize.NaiveGiven(b.sendAt) || Serialize.NaiveGiven(b.expireAt))
    ensures b.payload.BinaryCreate? ==>
      (r.Failure? <==> Serialize.NaiveGiven(b.sendAt) || Serialize.NaiveGiven(b.expireAt) ||
                       b.payload.binaryBody.None? || b.payload.udh.None?)
    ensures r.Failure? ==>
      r.error == if Serialize.NaiveGiven(b.sendAt) || Serialize.NaiveGiven(b.expireAt)
                 then ValueError(Serialize.NAIVE_DATETIME) else TypeError(Serialize.NOT_BYTES)
    ensures r.Success? ==>
      Serialize.At(r.value, "type") == Some(JString(if b.payload.BinaryCreate? then Serialize.MT_BINARY else Serialize.MT_TEXT))
    ensures r.Success? && b.payload.TextCreate? ==> forall k :: Serialize.At(r.value, k) == Serialize.TextExpected(b, iso, k)
    ensures r.Success? && b.payload.BinaryCreate? ==>
      b.payload.binaryBody.Some? && b.payload.udh.Some? &&
      forall k :: Serialize.At(r.value, k) == Serialize.BinaryExpected(b, iso, k)
  {
    if b.payload.BinaryCreate? {
      r := Serialize.BinaryBatch(b, iso);
    } else {
      r := Serialize.TextBatch(b, iso);
    }
  }

  /** `update_batch` chooses `binary_batch_update` exactly for the binary
    * variant. */
  method SerializeUpdate(b: MtBatchSmsUpdate, iso: Iso8601) returns (r: Result<Fields, Failure>)
    ensures r.Failure? <==> Serialize.NaiveSet(b.sendAt) || Serialize.NaiveSet(b.expireAt)
    ensures r.Success? ==>
      Serialize.At(r.value, "type") == Some(JString(if b.payload.BinaryUpdate? then Serialize.MT_BINARY else Serialize.MT_TEXT))
    ensures r.Success? && b.payload.TextUpdate? ==> forall k :: Serialize.At(r.value, k) == Serialize.TextUpdateExpected(b, iso, k)
    ensures r.Success? && b.payload.BinaryUpdate? ==> forall k :: Serialize.At(r.value, k) == Serialize.BinaryUpdateExpected(b, iso, k)
  {
    if b.payload.BinaryUpdate? {
      r := Serialize.BinaryBatchUpdate(b, iso);
    } else {
      r := Serialize.TextBatchUpdate(b, iso);
    }
  }
}
