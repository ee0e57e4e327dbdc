/**
 * The synchronous gateway client `SmsService` (app/services/sms_service.py)
 * with its HTTP client removed: each operation receives the device's reply
 * (or the connect timeout) as a parameter and returns what the client
 * decides from it. The request payloads are built as strings exactly as the
 * client's templates write them; the timestamp is a parameter.
 */
module SmsService {
  import opened Wrappers
  import opened Text
  import opened Gateway

  /** The parsed body of a `send-sms` reply: the text of its `response` element, or no such element. */
  datatype SendSmsBody = ResponseText(text: string) | WithoutResponse

  /** `is_hilink`: the device is there iff `/api/device/information` answers 200 in time. */
  function IsHilink(reply: Fetch<()>): (ok: bool)
    ensures ok <==> reply.Completed? && reply.response.statusCode == 200
  {
    match reply
    case ConnectTimeout => false
    case Completed(response) => response.statusCode == 200
  }

  /**
   * `send_sms` on the device's reply: a connect timeout or a status other
   * than 200 is a failed send; a 200 reply is a success iff its `response`
   * element reads "OK", and a reply without that element raises `KeyError`.
   */
  function SendSms(reply: Fetch<SendSmsBody>): (r: Result<bool, PyError>)
    ensures r == Ok(true) <==> CompletedOk(reply) && reply.response.body == ResponseText("OK")
    ensures r.Err? <==> CompletedOk(reply) && reply.response.body.WithoutResponse?
    ensures r.Err? ==> r.error == KeyError
    ensures !CompletedOk(reply) ==> r == Ok(false)
  {
    match reply
    case ConnectTimeout => Ok(false)
    case Completed(response) =>
      if response.statusCode != 200 then Ok(false)
      else
        match response.body
        case WithoutResponse => Err(KeyError)
        case ResponseText(text) => Ok(text == "OK")
  }

  /** The pieces of the `send-sms` request template, with the fields filled in. */
  function SendPayloadParts(phone: string, content: string, timestamp: string): seq<string> {
    [ "\n        <request>\n            ",
      "<Index>-1</Index>",
      "\n            <Phones>\n                ",
      "<Phone>" + phone + "</Phone>",
      "\n            </Phones>\n            <Sca></Sca>\n            ",
      "<Content>" + content + "</Content>",
      "\n            ",
      "<Length>" + IntToDecimal(|content|) + "</Length>",
      "\n            ",
      "<Reserved>1</Reserved>",
      "\n            ",
      "<Date>" + timestamp + "</Date>",
      "\n        </request>" ]
  }

  /** `_build_sms_send_payload`; `timestamp` stands for `datetime.now()` formatted. */
  function SendPayload(phone: string, content: string, timestamp: string): string {
    Concat(SendPayloadParts(phone, content, timestamp))
  }

  /**
   * The send request carries the phone and the content verbatim, the content
   * length in characters, index -1, reserved 1 and the timestamp.
   */
  lemma SendPayloadFields(phone: string, content: string, timestamp: string)
    ensures var p := SendPayload(phone, content, timestamp);
      && Contains(p, "<Index>-1</Index>")
      && Contains(p, "<Phone>" + phone + "</Phone>")
      && Contains(p, "<Content>" + content + "</Content>")
      && Contains(p, "<Length>" + IntToDecimal(|content|) + "</Length>")
      && Contains(p, "<Reserved>1</Reserved>")
      && Contains(p, "<Date>" + timestamp + "</Date>")
  {
    var parts := SendPayloadParts(phone, content, timestamp);
    ContainsPart(parts, 1);
    ContainsPart(parts, 3);
    ContainsPart(parts, 5);
    ContainsPart(parts, 7);
    ContainsPart(parts, 9);
    ContainsPart(parts, 11);
  }

  /** `_build_sms_delete_payload`. */
  function DeletePayload(index: int): string {
    Concat(["\n        <request>\n            ", "<Index>" + IntToDecimal(index) + "</Index>", "\n        </request>"])
  }

  /** The delete request names the given index, and that index can be read back from it. */
  lemma DeletePayloadIndex(index: int)
    ensures exists text :: Contains(DeletePayload(index), "<Index>" + text + "</Index>") && ParseInt(text) == Some(index)
  {
    ContainsPart(["\n        <request>\n            ", "<Index>" + IntToDecimal(index) + "</Index>", "\n        </request>"], 1);
    IntRoundTrip(index);
  }

  /** The line `_get_content` writes for one inbox record. */
  function InboxLine(record: SmsRecord): string {
    "Message from " + PyStr(record.phone) + " received " + PyStr(record.date) + ": " + PyStr(record.content)
  }

  /**
   * A line names the sender first and ends with the message text; an empty
   * element is written as "None".
   */
  lemma InboxLineShape(record: SmsRecord)
    ensures var line, phone, text := InboxLine(record), PyStr(record.phone), PyStr(record.content);
      && |line| == 13 + |phone| + 10 + |PyStr(record.date)| + 2 + |text|
      && line[..13 + |phone|] == "Message from " + phone
      && line[|line| - |text|..] == text
  {
    var text := PyStr(record.content);
    var head := "Message from " + PyStr(record.phone);
    var line := InboxLine(record);
    assert line == head + (" received " + PyStr(record.date) + ": " + text);
    assert line == ("Message from " + PyStr(record.phone) + " received " + PyStr(record.date) + ": ") + text;
  }

  /**
   * `_get_content`: one line per record of the listing, in order; the
   * count argument is not used. Iterating a lone dict or a nested list and
   * indexing its elements by "Phone" raises `TypeError`.
   */
  method GetContent(data: Listing, numMessages: int) returns (r: Result<seq<string>, PyError>)
    ensures r.Ok? <==> data.AsList?
    ensures r.Err? ==> r.error == TypeError
    ensures r.Ok? ==> |r.value| == |data.records|
    ensures r.Ok? ==> forall i :: 0 <= i < |r.value| ==> r.value[i] == InboxLine(data.records[i])
  {
    match data {
      case AsDict(_) => return Err(TypeError);
      case NestedList(_) => return Err(TypeError);
      case AsList(records) =>
        var messages: seq<string> := [];
        for i := 0 to |records|
          invariant |messages| == i
          invariant forall k :: 0 <= k < i ==> messages[k] == InboxLine(records[k])
        {
          messages := messages + [InboxLine(records[i])];
        }
        return Ok(messages);
    }
  }

  /**
   * `get_sms` on the `sms-list` reply: a connect timeout gives no messages;
   * otherwise the listing is read and normalised (a count of 1 wraps the lone
   * record into a list) and formatted line by line. The status code is not
   * looked at.
   */
  method GetSms(reply: Fetch<SmsListReply>) returns (r: Result<seq<string>, PyError>)
    ensures reply.ConnectTimeout? ==> r == Ok([])
    ensures reply.Completed? ==>
      (r.Ok? <==> ReadListing(reply.response.body).Ok? && ReadListing(reply.response.body).value.1.AsList?)
    ensures reply.Completed? && ReadListing(reply.response.body).Err? ==>
      r == Err(ReadListing(reply.response.body).error)
    ensures reply.Completed? && ReadListing(reply.response.body).Ok? && !ReadListing(reply.response.body).value.1.AsList? ==>
      r == Err(TypeError)
    ensures reply.Completed? && r.Ok? ==>
      var records := ReadListing(reply.response.body).value.1.records;
      |r.value| == |records| && forall i :: 0 <= i < |records| ==> r.value[i] == InboxLine(records[i])
  {
    if reply.ConnectTimeout? {
      return Ok([]);
    }
    var listing := ReadListing(reply.response.body);
    if listing.Err? {
      return Err(listing.error);
    }
    var (numMessages, messages) := listing.value;
    r := GetContent(messages, numMessages);
  }

  /**
   * `wait_send_sms`: a connect timeout is a failure; otherwise the five-field
   * send-status decision for `phoneNumber`, whatever the status code.
   */
  function WaitSendSms(reply: Fetch<SendStatus>, phoneNumber: string): (ok: bool)
    ensures ok <==> reply.Completed? && SendStatusOk(reply.response.body, phoneNumber)
  {
    match reply
    case ConnectTimeout => false
    case Completed(response) => SendStatusOk(response.body, phoneNumber)
  }

  /**
   * `send_sms_and_wait`: the send's verdict is discarded and the answer is
   * the send-status check; only an exception from the send propagates.
   */
  function SendSmsAndWait(sendReply: Fetch<SendSmsBody>, statusReply: Fetch<SendStatus>, phone: string): (r: Result<bool, PyError>)
    ensures r.Err? <==> SendSms(sendReply).Err?
    ensures r.Ok? ==> r.value == (statusReply.Completed? && SendStatusOk(statusReply.response.body, phone))
  {
    match SendSms(sendReply)
    case Err(e) => Err(e)
    case Ok(_) => Ok(WaitSendSms(statusReply, phone))
  }

  /** A send the device refused is still reported as delivered when the status reply accepts it. */
  lemma FailedSendCanBeReportedSent(status: int, phone: string, count: string)
    requires status != 200
    ensures SendSms(Completed(Response(status, ResponseText("OK")))) == Ok(false)
    ensures SendSmsAndWait(Completed(Response(status, ResponseText("OK"))),
                           Completed(Response(200, SendStatus(phone, phone, "", count, count))), phone) == Ok(true)
  {
    StrLessIrreflexive(count);
  }
}
