/**
 * The module-level asynchronous gateway functions of app/services/sms.py
 * with the HTTP client removed: each function receives the completed reply
 * of the device (these functions catch no transport error) and returns what
 * the code decides from it. Payloads follow the module's own templates; the
 * timestamp is a parameter.
 */
module Sms {
  import opened Wrappers
  import opened Text
  import opened Gateway
  import SmsService

  /** `MAX_CHARS_IN_MESSAGE`: declared by the module, never consulted by it. */
  const MaxCharsInMessage: int := 160

  /** A send request as it leaves the client, and the client's verdict on the reply. */
  datatype Attempt = Attempt(payload: string, sent: bool)

  /** `is_hilink`: the device is there iff `/api/device/information` answers 200. */
  function IsHilink(reply: Response<()>): (ok: bool)
    ensures ok <==> reply.statusCode == 200
  {
    reply.statusCode == 200
  }

  /** `get_headers`: the request token from `TokInfo`, the cookie from `SesInfo`. */
  function GetHeaders(reply: Response<SesTokBody>): (r: Result<SessionHeaders, PyError>)
    ensures r == SessionHeadersOf(reply)
    ensures r.Ok? && reply.statusCode == 200 && reply.body.ResponseElement? ==>
      r.value == SessionHeaders(Field(reply.body.fields, "TokInfo"), Field(reply.body.fields, "SesInfo"))
  {
    SessionHeadersOf(reply)
  }

  /**
   * The line `get_content` writes for one inbox record (the source spells it "recieved"). The
   * phone and the date are added to strings with `+`, so both must be present.
   */
  function InboxLine(record: SmsRecord): string
    requires Concatenable(record)
  {
    "Message from " + record.phone.value + " recieved " + record.date.value + " : " + PyStr(record.content)
  }

  /**
   * `get_content`: indexes the listing `numMessages` times and stops at the
   * first error. On a list this yields the first `numMessages` records'
   * lines, in order; a list that is too short raises `IndexError`, and a
   * record whose phone or date is empty raises `TypeError` when its line is
   * built. Indexing a lone dict by 0 raises `KeyError`; a nested list's
   * element indexed by "Phone" raises `TypeError`. A count of zero or less
   * reads nothing.
   */
  method GetContent(data: Listing, numMessages: int) returns (r: Result<seq<string>, PyError>)
    ensures numMessages <= 0 ==> r == Ok([])
    ensures numMessages > 0 ==>
      (r.Ok? <==> data.AsList? && numMessages <= |data.records| && ConcatenablePrefix(data.records, numMessages))
    ensures numMessages > 0 && data.AsList? && r.Err? ==> r.error == IndexError || r.error == TypeError
    ensures numMessages > 0 && data.AsList? && r.Err? ==>
      (r.error == IndexError <==> numMessages > |data.records| && ConcatenablePrefix(data.records, |data.records|))
    ensures numMessages > 0 && data.AsDict? ==> r == Err(KeyError)
    ensures numMessages > 0 && data.NestedList? ==> r == Err(TypeError)
    ensures r.Ok? && numMessages > 0 ==> |r.value| == numMessages
    ensures r.Ok? && numMessages > 0 ==>
      forall i :: 0 <= i < numMessages ==> Concatenable(data.records[i]) && r.value[i] == InboxLine(data.records[i])
  {
    var messages: seq<string> := [];
    var i := 0;
    while i < numMessages
      invariant 0 <= i && (i <= numMessages || i == 0)
      invariant i > 0 ==> data.AsList? && i <= |data.records| && ConcatenablePrefix(data.records, i)
      invariant |messages| == i
      invariant forall k :: 0 <= k < i ==>
        data.AsList? && Concatenable(data.records[k]) && messages[k] == InboxLine(data.records[k])
    {
      match data {
        case AsDict(_) => return Err(KeyError);
        case NestedList(_) => return Err(TypeError);
        case AsList(records) =>
          if i >= |records| {
            return Err(IndexError);
          }
          if !Concatenable(records[i]) {
            return Err(TypeError);
          }
          messages := messages + [InboxLine(records[i])];
      }
      i := i + 1;
    }
    return Ok(messages);
  }

  /**
   * `get_sms`: reads and normalises the listing, then formats it with
   * `get_content`; returns the lines and the normalised listing.
   */
  method GetSms(reply: Response<SmsListReply>) returns (r: Result<(seq<string>, Listing), PyError>)
    ensures r.Ok? <==> (
      && ReadListing(reply.body).Ok?
      && var (count, listing) := ReadListing(reply.body).value;
         count <= 0 || (listing.AsList? && count <= |listing.records| && ConcatenablePrefix(listing.records, count)))
    ensures ReadListing(reply.body).Err? ==> r == Err(ReadListing(reply.body).error)
    ensures r.Ok? ==> ReadListing(reply.body).Ok? && r.value.1 == ReadListing(reply.body).value.1
    ensures r.Ok? ==>
      var (count, listing) := ReadListing(reply.body).value;
      |r.value.0| == (if count <= 0 then 0 else count) &&
      (count > 0 ==> listing.AsList? && count <= |listing.records|) &&
      forall i :: 0 <= i < |r.value.0| && listing.AsList? && i < |listing.records| ==>
        Concatenable(listing.records[i]) && r.value.0[i] == InboxLine(listing.records[i])
  {
    var read := ReadListing(reply.body);
    if read.Err? {
      return Err(read.error);
    }
    var (numMessages, messagesR) := read.value;
    var lines := GetContent(messagesR, numMessages);
    if lines.Err? {
      return Err(lines.error);
    }
    return Ok((lines.value, messagesR));
  }

  /** `wait_send_sms_to_phone`: the five-field send-status decision; the status code is not looked at. */
  function WaitSendSmsToPhone(reply: Response<SendStatus>, phoneNumber: string): (ok: bool)
    ensures ok <==>
      && (reply.body.phone == "" || reply.body.phone == phoneNumber)
      && (reply.body.sucPhone == "" || reply.body.sucPhone == phoneNumber)
      && (reply.body.failPhone == "" || reply.body.failPhone != phoneNumber)
      && !StrLess(reply.body.curIndex, reply.body.totalCount)
  {
    SendStatusOk(reply.body, phoneNumber)
  }

  /** `SMS_SEND_TEMPLATE` with its fields filled in. */
  function SendPayloadParts(phone: string, message: string, timestamp: string): seq<string> {
    [ "<request>\n    ",
      "<Index>-1</Index>",
      "\n    <Phones>",
      "<Phone>" + phone + "</Phone>",
      "</Phones>\n    <Sca></Sca>\n    ",
      "<Content>" + message + "</Content>",
      "\n    ",
      "<Length>" + IntToDecimal(|message|) + "</Length>",
      "\n    ",
      "<Reserved>1</Reserved>",
      "\n    ",
      "<Date>" + timestamp + "</Date>",
      "\n    </request>" ]
  }

  function SendPayload(phone: string, message: string, timestamp: string): string {
    Concat(SendPayloadParts(phone, message, timestamp))
  }

  /** The send request carries the phone and the message verbatim and the message length in characters. */
  lemma SendPayloadFields(phone: string, message: string, timestamp: string)
    ensures var p := SendPayload(phone, message, timestamp);
      && Contains(p, "<Index>-1</Index>")
      && Contains(p, "<Phone>" + phone + "</Phone>")
      && Contains(p, "<Content>" + message + "</Content>")
      && Contains(p, "<Length>" + IntToDecimal(|message|) + "</Length>")
      && Contains(p, "<Reserved>1</Reserved>")
      && Contains(p, "<Date>" + timestamp + "</Date>")
  {
    var parts := SendPayloadParts(phone, message, timestamp);
    ContainsPart(parts, 1);
    ContainsPart(parts, 3);
    ContainsPart(parts, 5);
    ContainsPart(parts, 7);
    ContainsPart(parts, 9);
    ContainsPart(parts, 11);
  }

  /**
   * `send_sms_to_phone`: posts the filled template; the send counts as done
   * iff the reply's status is 200. The reply body is not read.
   */
  function SendSmsToPhone(phone: string, message: string, timestamp: string, reply: Response<SmsService.SendSmsBody>): (a: Attempt)
    ensures a.payload == SendPayload(phone, message, timestamp)
    ensures a.sent <==> reply.statusCode == 200
  {
    Attempt(SendPayload(phone, message, timestamp), reply.statusCode == 200)
  }

  /**
   * The limit is not enforced: a message longer than `MaxCharsInMessage` is
   * posted whole, with its full length, and counts as sent on a 200 reply.
   */
  lemma LongMessageSentWhole(phone: string, message: string, timestamp: string, reply: Response<SmsService.SendSmsBody>)
    requires |message| > MaxCharsInMessage
    ensures var a := SendSmsToPhone(phone, message, timestamp, reply);
      && Contains(a.payload, "<Content>" + message + "</Content>")
      && Contains(a.payload, "<Length>" + IntToDecimal(|message|) + "</Length>")
      && (a.sent <==> reply.statusCode == 200)
  {
    SendPayloadFields(phone, message, timestamp);
  }

  /**
   * Every reply the synchronous client accepts this one accepts too, but not
   * conversely: a 200 reply whose `response` is not "OK" counts as sent here.
   */
  lemma SendVerdictWeakerThanSmsService(phone: string, message: string, timestamp: string, reply: Response<SmsService.SendSmsBody>)
    ensures SmsService.SendSms(Completed(reply)) == Ok(true) ==> SendSmsToPhone(phone, message, timestamp, reply).sent
    ensures var refused := Response(200, SmsService.ResponseText("ERROR"));
      SendSmsToPhone(phone, message, timestamp, refused).sent && SmsService.SendSms(Completed(refused)) == Ok(false)
  {
  }

  /** The text `send_verify_code_to_phone` sends for `code`. */
  function VerificationMessage(code: int): string {
    IntToDecimal(code) + " is your verification code."
  }

  /** `send_verify_code_to_phone`: sends the verification text to the same phone. */
  function SendVerifyCodeToPhone(phone: string, code: int, timestamp: string, reply: Response<SmsService.SendSmsBody>): Attempt {
    SendSmsToPhone(phone, VerificationMessage(code), timestamp, reply)
  }

  /**
   * A verification request goes to the given phone, and the code can be read
   * back from the front of the message it carries.
   */
  lemma VerifyCodeRequest(phone: string, code: int, timestamp: string, reply: Response<SmsService.SendSmsBody>)
    ensures var a := SendVerifyCodeToPhone(phone, code, timestamp, reply);
      var m := VerificationMessage(code);
      && Contains(a.payload, "<Phone>" + phone + "</Phone>")
      && Contains(a.payload, "<Content>" + m + "</Content>")
      && ParseInt(m[..|IntToDecimal(code)|]) == Some(code)
      && |m| == |IntToDecimal(code)| + 27
      && (a.sent <==> reply.statusCode == 200)
  {
    var m := VerificationMessage(code);
    SendPayloadFields(phone, m, timestamp);
    assert m[..|IntToDecimal(code)|] == IntToDecimal(code);
    IntRoundTrip(code);
  }
}
