/**
 * The gateway client class `HiLinkAssistant` (app/services/hilink.py) with
 * the HTTP client removed. Its fields are set only by the constructor and no
 * method changes them, so the object is a value here: a datatype whose
 * member functions receive the device's completed reply as a parameter.
 */
module HiLink {
  import opened Wrappers
  import opened Text
  import opened Gateway
  import Sms
  import SmsService

  datatype HiLinkAssistant = HiLinkAssistant(host: string, user: string, password: string, maxCharsInMessage: int)
  {
    /** The constructor: stores its arguments; the message limit defaults to 160. */
    static function New(host: string, user: string, password: string, maxCharInMessage: int := 160): (a: HiLinkAssistant)
      ensures a.host == host && a.user == user && a.password == password
      ensures a.maxCharsInMessage == maxCharInMessage
    {
      HiLinkAssistant(host, user, password, maxCharInMessage)
    }

    /** `is_hilink`: the device is there iff `/api/device/information` answers 200. */
    function IsHilink(reply: Response<()>): (ok: bool)
      ensures ok <==> reply.statusCode == 200
    {
      reply.statusCode == 200
    }

    /** `get_headers`: the same extraction as the module-level client's. */
    function GetHeaders(reply: Response<SesTokBody>): (r: Result<SessionHeaders, PyError>)
      ensures r == Sms.GetHeaders(reply)
      ensures reply.statusCode != 200 ==> r == Ok(SessionHeaders(None, None))
    {
      SessionHeadersOf(reply)
    }

    /**
     * The line `get_content` writes for one inbox record. The
     * phone and the date are added to strings with `+`, so both must be present.
     */
    function InboxLine(record: SmsRecord): string
      requires Concatenable(record)
    {
      "Message from " + record.phone.value + " received " + record.date.value + " : " + PyStr(record.content)
    }

    /**
     * `get_content`: indexes the listing `numMessages` times and stops at the
     * first error. On a list this yields the first `numMessages` records'
     * lines, in order; a list that is too short raises `IndexError`, and a
     * record whose phone or date is empty raises `TypeError` when its line is
     * built. Indexing a lone dict by 0 raises `KeyError`; a nested list's
     * element indexed by "Phone" raises `TypeError`. A count of zero or less
     * reads nothing.
     */
    method GetContent(data: Listing, numMessages: int) returns (r: Result<seq<string>, PyError>)
      ensures numMessages <= 0 ==> r == Ok([])
      ensures numMessages > 0 ==>
        (r.Ok? <==> data.AsList? && numMessages <= |data.records| && ConcatenablePrefix(data.records, numMessages))
      ensures numMessages > 0 && data.AsList? && r.Err? ==> r.error == IndexError || r.error == TypeError
      ensures numMessages > 0 && data.AsList? && r.Err? ==>
        (r.error == IndexError <==> numMessages > |data.records| && ConcatenablePrefix(data.records, |data.records|))
      ensures numMessages > 0 && data.AsDict? ==> r == Err(KeyError)
      ensures numMessages > 0 && data.NestedList? ==> r == Err(TypeError)
      ensures r.Ok? && numMessages > 0 ==> |r.value| == numMessages
      ensures r.Ok? && numMessages > 0 ==>
        forall i :: 0 <= i < numMessages ==> Concatenable(data.records[i]) && r.value[i] == InboxLine(data.records[i])
    {
      var messages: seq<string> := [];
      var i := 0;
      while i < numMessages
        invariant 0 <= i && (i <= numMessages || i == 0)
        invariant i > 0 ==> data.AsList? && i <= |data.records| && ConcatenablePrefix(data.records, i)
        invariant |messages| == i
        invariant forall k :: 0 <= k < i ==>
          data.AsList? && Concatenable(data.records[k]) && messages[k] == InboxLine(data.records[k])
      {
        match data {
          case AsDict(_) => return Err(KeyError);
          case NestedList(_) => return Err(TypeError);
          case AsList(records) =>
            if i >= |records| {
              return Err(IndexError);
            }
            if !Concatenable(records[i]) {
              return Err(TypeError);
            }
            messages := messages + [InboxLine(records[i])];
        }
        i := i + 1;
      }
      return Ok(messages);
    }

    /**
     * `get_sms`: reads and normalises the listing, then formats it with
     * `get_content` (a count of 1 wraps a lone record into a list); returns the lines and the normalised listing.
     */
    method GetSms(reply: Response<SmsListReply>) returns (r: Result<(seq<string>, Listing), PyError>)
      ensures r.Ok? <==> (
        && ReadListing(reply.body).Ok?
        && var (count, listing) := ReadListing(reply.body).value;
           count <= 0 || (listing.AsList? && count <= |listing.records| && ConcatenablePrefix(listing.records, count)))
      ensures ReadListing(reply.body).Err? ==> r == Err(ReadListing(reply.body).error)
      ensures r.Ok? ==> ReadListing(reply.body).Ok? && r.value.1 == ReadListing(reply.body).value.1
      ensures r.Ok? ==>
        var (count, listing) := ReadListing(reply.body).value;
        |r.value.0| == (if count <= 0 then 0 else count) &&
        (count > 0 ==> listing.AsList? && count <= |listing.records|) &&
        forall i :: 0 <= i < |r.value.0| && listing.AsList? && i < |listing.records| ==>
          Concatenable(listing.records[i]) && r.value.0[i] == InboxLine(listing.records[i])
    {
      var read := ReadListing(reply.body);
      if read.Err? {
        return Err(read.error);
      }
      var (numMessages, messagesR) := read.value;
      var lines := GetContent(messagesR, numMessages);
      if lines.Err? {
        return Err(lines.error);
      }
      return Ok((lines.value, messagesR));
    }

    /** `wait_send_sms_to_phone`: the five-field send-status decision; the status code is not looked at. */
    function WaitSendSmsToPhone(reply: Response<SendStatus>, phoneNumber: string): (ok: bool)
      ensures ok == Sms.WaitSendSmsToPhone(reply, phoneNumber)
      ensures reply.body.failPhone != "" && reply.body.failPhone == phoneNumber ==> !ok
      ensures (reply.body.phone == phoneNumber && reply.body.sucPhone == phoneNumber &&
               reply.body.failPhone != phoneNumber && reply.body.curIndex == reply.body.totalCount) ==> ok
    {
      StrLessIrreflexive(reply.body.curIndex);
      SendStatusOk(reply.body, phoneNumber)
    }

    /** The send template of this class, with its fields filled in. */
    function SendPayloadParts(phone: string, message: string, timestamp: string): seq<string> {
      [ "<request>\n        ",
        "<Index>-1</Index>",
        "\n        <Phones>",
        "<Phone>" + phone + "</Phone>",
        "</Phones>\n        <Sca></Sca>\n        ",
        "<Content>" + message + "</Content>",
        "\n        ",
        "<Length>" + IntToDecimal(|message|) + "</Length>",
        "\n        ",
        "<Reserved>1</Reserved>",
        "\n        ",
        "<Date>" + timestamp + "</Date>",
        "\n        </request>" ]
    }

    function SendPayload(phone: string, message: string, timestamp: string): string {
      Concat(SendPayloadParts(phone, message, timestamp))
    }

    /**
     * `send_sms_to_phone`: the request carries the phone and the message
     * verbatim and the full message length, even past `maxCharsInMessage`;
     * the send counts as done iff the reply's status is 200.
     */
    function SendSmsToPhone(phone: string, message: string, timestamp: string, reply: Response<SmsService.SendSmsBody>): (a: Sms.Attempt)
      ensures a.sent <==> reply.statusCode == 200
      ensures Contains(a.payload, "<Phone>" + phone + "</Phone>")
      ensures Contains(a.payload, "<Content>" + message + "</Content>")
      ensures Contains(a.payload, "<Length>" + IntToDecimal(|message|) + "</Length>")
      ensures Contains(a.payload, "<Index>-1</Index>") && Contains(a.payload, "<Reserved>1</Reserved>")
      ensures Contains(a.payload, "<Date>" + timestamp + "</Date>")
    {
      var parts := SendPayloadParts(phone, message, timestamp);
      ContainsPart(parts, 1);
      ContainsPart(parts, 3);
      ContainsPart(parts, 5);
      ContainsPart(parts, 7);
      ContainsPart(parts, 9);
      ContainsPart(parts, 11);
      Sms.Attempt(SendPayload(phone, message, timestamp), reply.statusCode == 200)
    }
  }

  /**
   * The three clients' device probes agree on every completed request: each
   * is true iff the status is 200. Only the synchronous client also sees a
   * connect timeout, which it turns into `false`.
   */
  lemma ProbesAgree(a: HiLinkAssistant, reply: Response<()>)
    ensures a.IsHilink(reply) == Sms.IsHilink(reply) == SmsService.IsHilink(Completed(reply))
    ensures SmsService.IsHilink(Completed(reply)) == CompletedOk(Completed(reply))
    ensures !SmsService.IsHilink(ConnectTimeout)
  {
  }

  /** Two assistants that differ only in their message limit send the same requests with the same verdicts. */
  lemma MessageLimitNotEnforced(a: HiLinkAssistant, b: HiLinkAssistant, phone: string, message: string,
                                timestamp: string, reply: Response<SmsService.SendSmsBody>)
    requires a.host == b.host && a.user == b.user && a.password == b.password
    requires |message| > a.maxCharsInMessage
    ensures a.SendSmsToPhone(phone, message, timestamp, reply) == b.SendSmsToPhone(phone, message, timestamp, reply)
    ensures a.SendSmsToPhone(phone, message, timestamp, reply).sent <==> reply.statusCode == 200
  {
  }
}
