/** The SDK's value classes. Each `__init__` gives every attribute a default
  * (`None`, an empty set or list), after which the deserializer or the user
  * assigns attributes one by one; so each Python class hierarchy is a Dafny
  * class with mutable fields. A text and a binary variant of the same class
  * share one Dafny class: their common attributes are fields, and the
  * attributes proper to a variant sit in a `payload` datatype whose
  * constructor names the variant. Objects built whole and never changed
  * (`Error`, `GroupAutoUpdate`) are datatypes. */
module Api {

  import opened Wrappers
  import opened Timestamps
  import opened Encoding
  import opened Json

  // ------------------------------------------------------------ ReportType

  /** The delivery report types known to be valid for a batch. */
  const REPORT_NONE := "none"
  const REPORT_SUMMARY := "summary"
  const REPORT_FULL := "full"
  const REPORT_PER_RECIPIENT := "per_recipient"

  /** The known delivery report types, one set. */
  function ReportTypes(): (r: set<string>)
    ensures |r| == 4
    ensures REPORT_NONE in r && REPORT_SUMMARY in r && REPORT_FULL in r && REPORT_PER_RECIPIENT in r
  {
    assert REPORT_NONE != REPORT_SUMMARY && REPORT_NONE != REPORT_FULL && REPORT_FULL != REPORT_SUMMARY;
    assert REPORT_PER_RECIPIENT[0] == 'p';
    {REPORT_NONE, REPORT_SUMMARY, REPORT_FULL, REPORT_PER_RECIPIENT}
  }

  // ------------------------------------------------------- shared vocabulary

  type Bytes = seq<byte>

  /** Template parameters: parameter key, then recipient (or "default"), then
    * the substitution. */
  type Parameters = map<string, map<string, string>>

  /** An attribute of an update object: left alone (`None`), cleared
    * (`RESET`), or given a new value. */
  datatype TriState<+T> = Unset | Reset | Set(value: T)

  // Python truthiness of the attribute types: `None`, the empty string, the
  // empty byte string, zero and an empty collection are false; a `datetime`,
  // a `date` and any other object are true.

  predicate TruthyString(o: Option<string>)
  {
    o.Some? && o.value != ""
  }

  predicate TruthyBytes(o: Option<Bytes>)
  {
    o.Some? && o.value != []
  }

  predicate TruthyInt(o: Option<int>)
  {
    o.Some? && o.value != 0
  }

  predicate TruthySet<T>(o: Option<set<T>>)
  {
    o.Some? && o.value != {}
  }

  // ------------------------------------------------------------ plain values

  /** An error document of the REST API. */
  datatype Error = Error(code: string, text: string)

  /** The keyword rule of a group that recipients join or leave by texting
    * one or two words to `recipient`. */
  datatype GroupAutoUpdate = GroupAutoUpdate(
    recipient: string,
    addWordPair: (Option<string>, Option<string>),
    removeWordPair: (Option<string>, Option<string>))

  // ------------------------------------------------------------ batches

  /** The variant attributes of a batch to create. */
  datatype CreatePayload =
    | TextCreate(body: Option<string>, parameters: Parameters)
    | BinaryCreate(binaryBody: Option<Bytes>, udh: Option<Bytes>)

  /** `MtBatchTextSmsCreate` and `MtBatchBinarySmsCreate`. */
  class MtBatchSmsCreate {
    var recipients: set<string>
    var sender: Option<string>
    var deliveryReport: Option<string>
    var sendAt: Option<DateTime>
    var expireAt: Option<DateTime>
    var callbackUrl: Option<string>
    var tags: set<string>
    var payload: CreatePayload

    /** A text batch with no recipients, no sender, no body and no template
      * parameters. */
    constructor Text()
      ensures recipients == {} && sender == None && deliveryReport == None
      ensures sendAt == None && expireAt == None && callbackUrl == None
      ensures tags == {}
      ensures payload == TextCreate(None, map[])
    {
      recipients, sender, deliveryReport := {}, None, None;
      sendAt, expireAt, callbackUrl := None, None, None;
      tags := {};
      payload := TextCreate(None, map[]);
    }

    /** A binary batch with no recipients, no sender, no body and no UDH. */
    constructor Binary()
      ensures recipients == {} && sender == None && deliveryReport == None
      ensures sendAt == None && expireAt == None && callbackUrl == None
      ensures tags == {}
      ensures payload == BinaryCreate(None, None)
    {
      recipients, sender, deliveryReport := {}, None, None;
      sendAt, expireAt, callbackUrl := None, None, None;
      tags := {};
      payload := BinaryCreate(None, None);
    }
  }

  /** The variant attributes of a batch update. */
  datatype UpdatePayload =
    | TextUpdate(body: Option<string>, parameters: TriState<Parameters>)
    | BinaryUpdate(binaryBody: Option<Bytes>, udh: Option<Bytes>)

  /** `MtBatchTextSmsUpdate` and `MtBatchBinarySmsUpdate`: the changes to
    * apply to an existing batch. */
  class MtBatchSmsUpdate {
    var recipientInsertions: set<string>
    var recipientRemovals: set<string>
    var sender: Option<string>
    var deliveryReport: TriState<string>
    var sendAt: TriState<DateTime>
    var expireAt: TriState<DateTime>
    var callbackUrl: TriState<string>
    var payload: UpdatePayload

    /** A text update that changes nothing. */
    constructor Text()
      ensures recipientInsertions == {} && recipientRemovals == {} && sender == None
      ensures deliveryReport == Unset && sendAt == Unset && expireAt == Unset && callbackUrl == Unset
      ensures payload == TextUpdate(None, Unset)
    {
      recipientInsertions, recipientRemovals, sender := {}, {}, None;
      deliveryReport, sendAt, expireAt, callbackUrl := Unset, Unset, Unset, Unset;
      payload := TextUpdate(None, Unset);
    }

    /** A binary update that changes nothing. */
    constructor Binary()
      ensures recipientInsertions == {} && recipientRemovals == {} && sender == None
      ensures deliveryReport == Unset && sendAt == Unset && expireAt == Unset && callbackUrl == Unset
      ensures payload == BinaryUpdate(None, None)
    {
      recipientInsertions, recipientRemovals, sender := {}, {}, None;
      deliveryReport, sendAt, expireAt, callbackUrl := Unset, Unset, Unset, Unset;
      payload := BinaryUpdate(None, None);
    }
  }

  /** The variant attributes of a batch as the server reports it. The
    * template parameters are kept as the document gave them. */
  datatype ResultPayload =
    | TextResult(body: Option<string>, parameters: Option<Json>)
    | BinaryResult(binaryBody: Option<Bytes>, udh: Option<Bytes>)

  /** The attributes of an `MtBatchSmsResult` at one moment. */
  datatype Batch = Batch(
    batchId: Option<string>,
    recipients: set<string>,
    sender: Option<string>,
    canceled: Option<bool>,
    deliveryReport: Option<string>,
    sendAt: Option<DateTime>,
    expireAt: Option<DateTime>,
    createdAt: Option<DateTime>,
    modifiedAt: Option<DateTime>,
    callbackUrl: Option<string>,
    payload: ResultPayload)

  /** A fresh result object of the given variant: every common attribute is
    * unset. */
  function DefaultBatch(payload: ResultPayload): (b: Batch)
    ensures b.payload == payload && b.recipients == {}
    ensures b.batchId == None && b.sender == None && b.canceled == None
    ensures b.deliveryReport == None && b.callbackUrl == None
    ensures b.sendAt == None && b.expireAt == None && b.createdAt == None && b.modifiedAt == None
  {
    Batch(None, {}, None, None, None, None, None, None, None, None, payload)
  }

  /** The attributes of each batch of a list, in order. */
  function BatchViews(bs: seq<MtBatchSmsResult>): seq<Batch>
    reads bs
  {
    if |bs| == 0 then [] else BatchViews(bs[..|bs| - 1]) + [bs[|bs| - 1].View()]
  }

  /** `MtBatchTextSmsResult` and `MtBatchBinarySmsResult`. */
  class MtBatchSmsResult {
    var batchId: Option<string>
    var recipients: set<string>
    var sender: Option<string>
    var canceled: Option<bool>
    var deliveryReport: Option<string>
    var sendAt: Option<DateTime>
    var expireAt: Option<DateTime>
    var createdAt: Option<DateTime>
    var modifiedAt: Option<DateTime>
    var callbackUrl: Option<string>
    var payload: ResultPayload

    function View(): Batch
      reads this
    {
      Batch(batchId, recipients, sender, canceled, deliveryReport, sendAt, expireAt,
            createdAt, modifiedAt, callbackUrl, payload)
    }

    /** A text batch result with no attribute set yet. */
    constructor Text()
      ensures batchId == None && recipients == {} && sender == None && canceled == None
      ensures deliveryReport == None && sendAt == None && expireAt == None
      ensures createdAt == None && modifiedAt == None && callbackUrl == None
      ensures payload == TextResult(None, None)
      ensures View() == DefaultBatch(TextResult(None, None))
    {
      batchId, recipients, sender, canceled := None, {}, None, None;
      deliveryReport, sendAt, expireAt := None, None, None;
      createdAt, modifiedAt, callbackUrl := None, None, None;
      payload := TextResult(None, None);
    }

    /** A binary batch result with no attribute set yet. */
    constructor Binary()
      ensures batchId == None && recipients == {} && sender == None && canceled == None
      ensures deliveryReport == None && sendAt == None && expireAt == None
      ensures createdAt == None && modifiedAt == None && callbackUrl == None
      ensures payload == BinaryResult(None, None)
      ensures View() == DefaultBatch(BinaryResult(None, None))
    {
      batchId, recipients, sender, canceled := None, {}, None, None;
      deliveryReport, sendAt, expireAt := None, None, None;
      createdAt, modifiedAt, callbackUrl := None, None, None;
      payload := BinaryResult(None, None);
    }
  }

  // ------------------------------------------------------------ dry runs

  datatype PerRecipient = PerRecipient(
    recipient: Option<string>,
    numberOfParts: Option<int>,
    body: Option<string>,
    encoding: Option<string>)

  /** `DryRunPerRecipient`: how one recipient's message would be sent. */
  class DryRunPerRecipient {
    var recipient: Option<string>
    var numberOfParts: Option<int>
    var body: Option<string>
    var encoding: Option<string>

    function View(): PerRecipient
      reads this
    {
      PerRecipient(recipient, numberOfParts, body, encoding)
    }

    constructor ()
      ensures View() == PerRecipient(None, None, None, None)
    {
      recipient, numberOfParts, body, encoding := None, None, None, None;
    }
  }

  /** The attributes of each object of a list, in order. */
  function PerRecipientViews(rs: seq<DryRunPerRecipient>): seq<PerRecipient>
    reads rs
  {
    if |rs| == 0 then [] else PerRecipientViews(rs[..|rs| - 1]) + [rs[|rs| - 1].View()]
  }

  datatype DryRun = DryRun(
    numberOfRecipients: Option<int>,
    numberOfMessages: Option<int>,
    perRecipient: Option<seq<PerRecipient>>)

  /** `MtBatchDryRunResult`: what sending a batch would amount to. */
  class MtBatchDryRunResult {
    var numberOfRecipients: Option<int>
    var numberOfMessages: Option<int>
    var perRecipient: Option<seq<DryRunPerRecipient>>

    /** The per-recipient list, empty while unset. */
    function Details(): seq<DryRunPerRecipient>
      reads this
    {
      if perRecipient.Some? then perRecipient.value else []
    }

    function View(): DryRun
      reads this, Details()
    {
      DryRun(numberOfRecipients, numberOfMessages,
        if perRecipient.None? then None else Some(PerRecipientViews(perRecipient.value)))
    }

    constructor ()
      ensures View() == DryRun(None, None, None)
    {
      numberOfRecipients, numberOfMessages, perRecipient := None, None, None;
    }
  }

  // ------------------------------------------------------- delivery reports

  datatype DeliveryStatus = DeliveryStatus(
    code: Option<int>,
    status: Option<string>,
    count: Option<int>,
    recipients: Option<set<string>>)

  /** `BatchDeliveryReportStatus`: one bucket of a batch delivery report. */
  class BatchDeliveryReportStatus {
    var code: Option<int>
    var status: Option<string>
    var count: Option<int>
    var recipients: Option<set<string>>

    function View(): DeliveryStatus
      reads this
    {
      DeliveryStatus(code, status, count, recipients)
    }

    constructor ()
      ensures code == None && status == None && count == None && recipients == None
      ensures View() == DeliveryStatus(None, None, None, None)
    {
      code, status, count, recipients := None, None, None, None;
    }
  }

  function StatusViews(ss: seq<BatchDeliveryReportStatus>): seq<DeliveryStatus>
    reads ss
  {
    if |ss| == 0 then [] else StatusViews(ss[..|ss| - 1]) + [ss[|ss| - 1].View()]
  }

  datatype DeliveryReport = DeliveryReport(
    batchId: Option<string>,
    totalMessageCount: Option<int>,
    statuses: seq<DeliveryStatus>)

  /** `BatchDeliveryReport`: the buckets of a batch, in the server's order. */
  class BatchDeliveryReport {
    var batchId: Option<string>
    var totalMessageCount: Option<int>
    var statuses: seq<BatchDeliveryReportStatus>

    function View(): DeliveryReport
      reads this, statuses
    {
      DeliveryReport(batchId, totalMessageCount, StatusViews(statuses))
    }

    constructor ()
      ensures batchId == None && totalMessageCount == None && statuses == []
      ensures View() == DeliveryReport(None, None, [])
    {
      batchId, totalMessageCount, statuses := None, None, [];
    }
  }

  datatype RecipientReport = RecipientReport(
    batchId: Option<string>,
    recipient: Option<string>,
    code: Option<int>,
    status: Option<string>,
    statusMessage: Option<string>,
    operator: Option<string>,
    statusAt: Option<DateTime>,
    operatorStatusAt: Option<DateTime>)

  /** `BatchRecipientDeliveryReport`: the delivery of one recipient. */
  class BatchRecipientDeliveryReport {
    var batchId: Option<string>
    var recipient: Option<string>
    var code: Option<int>
    var status: Option<string>
    var statusMessage: Option<string>
    var operator: Option<string>
    var statusAt: Option<DateTime>
    var operatorStatusAt: Option<DateTime>

    function View(): RecipientReport
      reads this
    {
      RecipientReport(batchId, recipient, code, status, statusMessage, operator, statusAt, operatorStatusAt)
    }

    constructor ()
      ensures batchId == None && recipient == None && code == None && status == None
      ensures statusMessage == None && operator == None && statusAt == None && operatorStatusAt == None
      ensures View() == RecipientReport(None, None, None, None, None, None, None, None)
    {
      batchId, recipient, code, status := None, None, None, None;
      statusMessage, operator, statusAt, operatorStatusAt := None, None, None, None;
    }
  }

  // ------------------------------------------------------------ groups

  /** `GroupCreate`: a group to create. */
  class GroupCreate {
    var name: Option<string>
    var members: set<string>
    var childGroups: set<string>
    var autoUpdate: Option<GroupAutoUpdate>
    var tags: set<string>

    constructor ()
      ensures name == None && members == {} && childGroups == {} && autoUpdate == None && tags == {}
    {
      name, members, childGroups, autoUpdate, tags := None, {}, {}, None, {};
    }
  }

  /** `GroupUpdate`: the changes to apply to an existing group. */
  class GroupUpdate {
    var name: TriState<string>
    var memberInsertions: set<string>
    var memberRemovals: set<string>
    var childGroupInsertions: set<string>
    var childGroupRemovals: set<string>
    var addFromGroup: Option<string>
    var removeFromGroup: Option<string>
    var autoUpdate: TriState<GroupAutoUpdate>

    constructor ()
      ensures name == Unset && autoUpdate == Unset
      ensures memberInsertions == {} && memberRemovals == {}
      ensures childGroupInsertions == {} && childGroupRemovals == {}
      ensures addFromGroup == None && removeFromGroup == None
    {
      name, autoUpdate := Unset, Unset;
      memberInsertions, memberRemovals := {}, {};
      childGroupInsertions, childGroupRemovals := {}, {};
      addFromGroup, removeFromGroup := None, None;
    }
  }

  datatype Group = Group(
    groupId: Option<string>,
    name: Option<string>,
    size: Option<int>,
    childGroups: set<string>,
    autoUpdate: Option<GroupAutoUpdate>,
    createdAt: Option<DateTime>,
    modifiedAt: Option<DateTime>)

  function GroupViews(gs: seq<GroupResult>): seq<Group>
    reads gs
  {
    if |gs| == 0 then [] else GroupViews(gs[..|gs| - 1]) + [gs[|gs| - 1].View()]
  }

  /** `GroupResult`: a group as the server reports it. */
  class GroupResult {
    var groupId: Option<string>
    var name: Option<string>
    var size: Option<int>
    var childGroups: set<string>
    var autoUpdate: Option<GroupAutoUpdate>
    var createdAt: Option<DateTime>
    var modifiedAt: Option<DateTime>

    function View(): Group
      reads this
    {
      Group(groupId, name, size, childGroups, autoUpdate, createdAt, modifiedAt)
    }

    constructor ()
      ensures View() == Group(None, None, None, {}, None, None, None)
    {
      groupId, name, size, childGroups := None, None, None, {};
      autoUpdate, createdAt, modifiedAt := None, None, None;
    }
  }

  // ------------------------------------------------------- inbound messages

  /** The variant attributes of an inbound (mobile originated) message. */
  datatype MoPayload =
    | MoText(body: Option<string>, keyword: Option<string>)
    | MoBinary(binaryBody: Option<Bytes>, udh: Option<Bytes>)

  datatype Mo = Mo(
    messageId: Option<string>,
    recipient: Option<string>,
    sender: Option<string>,
    operator: Option<string>,
    sentAt: Option<DateTime>,
    receivedAt: Option<DateTime>,
    payload: MoPayload)

  function MoViews(ms: seq<MoSms>): seq<Mo>
    reads ms
  {
    if |ms| == 0 then [] else MoViews(ms[..|ms| - 1]) + [ms[|ms| - 1].View()]
  }

  /** `MoTextSms` and `MoBinarySms`. */
  class MoSms {
    var messageId: Option<string>
    var recipient: Option<string>
    var sender: Option<string>
    var operator: Option<string>
    var sentAt: Option<DateTime>
    var receivedAt: Option<DateTime>
    var payload: MoPayload

    function View(): Mo
      reads this
    {
      Mo(messageId, recipient, sender, operator, sentAt, receivedAt, payload)
    }

    constructor Text()
      ensures View() == Mo(None, None, None, None, None, None, MoText(None, None))
    {
      messageId, recipient, sender, operator := None, None, None, None;
      sentAt, receivedAt := None, None;
      payload := MoText(None, None);
    }

    constructor Binary()
      ensures View() == Mo(None, None, None, None, None, None, MoBinary(None, None))
    {
      messageId, recipient, sender, operator := None, None, None, None;
      sentAt, receivedAt := None, None;
      payload := MoBinary(None, None);
    }
  }

  // ------------------------------------------------------------ pages

  /** `Page`: one page of a listing; `size` is the page size the server
    * declares and `totalSize` the number of items over all pages. */
  class Page<T> {
    var page: Option<int>
    var size: Option<int>
    var totalSize: Option<int>
    var content: seq<T>

    constructor ()
      ensures page == None && size == None && totalSize == None && content == []
    {
      page, size, totalSize, content := None, None, None, [];
    }
  }
}
