/**
 * What the three HiLink gateway clients (app/services/sms_service.py,
 * app/services/sms.py, app/services/hilink.py) share once the HTTP and XML
 * layers are taken away: the shape of a device reply, the Python errors the
 * clients let escape, the five-field send-status decision, the
 * "one record becomes a one-element list" normalisation of the inbox
 * listing, and the extraction of the session headers.
 */
module Gateway {
  import opened Wrappers
  import opened Text

  /** The Python exceptions the gateway clients let escape to their callers. */
  datatype PyError = ValueError | TypeError | KeyError | IndexError | UnboundLocalError

  /** A completed HTTP exchange: the status code and the parsed body. */
  datatype Response<T> = Response(statusCode: int, body: T)

  /** An HTTP request that either timed out while connecting or completed. */
  datatype Fetch<T> = ConnectTimeout | Completed(response: Response<T>)

  /** True iff the request completed with status 200 (the `is_hilink` probe). */
  predicate CompletedOk<T>(f: Fetch<T>) {
    f.Completed? && f.response.statusCode == 200
  }

  // ---------------------------------------------------------------- send status

  /**
   * The fields of a `/api/sms/send-status` reply. An empty element parses to
   * `None`, which is falsy exactly as the empty string is, so both are "".
   * `TotalCount` and `CurIndex` stay strings: the clients never convert them.
   */
  datatype SendStatus = SendStatus(
    phone: string, sucPhone: string, failPhone: string, totalCount: string, curIndex: string)

  /**
   * The decision the clients take on a send-status reply for `target`:
   * reject a different non-empty `Phone`, a different non-empty `SucPhone`,
   * a `FailPhone` equal to the target, and a `CurIndex` that sorts before
   * `TotalCount` as a string; accept everything else.
   */
  function SendStatusOk(s: SendStatus, target: string): (ok: bool)
    ensures ok <==>
      && (s.phone == "" || s.phone == target)
      && (s.sucPhone == "" || s.sucPhone == target)
      && (s.failPhone == "" || s.failPhone != target)
      && !StrLess(s.curIndex, s.totalCount)
  {
    if s.phone != "" && s.phone != target then false
    else if s.sucPhone != "" && s.sucPhone != target then false
    else if s.failPhone != "" && s.failPhone == target then false
    else if StrLess(s.curIndex, s.totalCount) then false
    else true
  }

  /** A finished send to the target (same counters, target reported as sent) is accepted. */
  lemma FinishedSendAccepted(target: string, count: string, failPhone: string)
    requires failPhone != target
    ensures SendStatusOk(SendStatus(target, target, failPhone, count, count), target)
  {
    StrLessIrreflexive(count);
  }

  /** Once the counters are compared, a send still in progress is rejected whatever the phones say. */
  lemma UnfinishedSendRejected(s: SendStatus, target: string)
    requires StrLess(s.curIndex, s.totalCount)
    ensures !SendStatusOk(s, target)
  {
  }

  /**
   * Because the counters are compared as strings, a reply saying that
   * message 2 of 10 is being sent is accepted as finished.
   */
  lemma StringCountersAcceptUnfinishedSend(target: string)
    ensures var s := SendStatus(target, target, "", NatToDecimal(10), NatToDecimal(2));
      SendStatusOk(s, target)
  {
    StrLessIsNotNumericLess();
  }

  // --------------------------------------------------------------- inbox listing

  /**
   * One record of an `sms-list` reply. Any of the three elements may be
   * empty, and an empty element parses to `None`.
   */
  datatype SmsRecord = SmsRecord(phone: Option<string>, date: Option<string>, content: Option<string>)

  /** `str(x)` and `{x}` of an element that may be empty: `None` renders as "None". */
  function PyStr(c: Option<string>): (t: string)
    ensures c.Some? ==> t == c.value
  {
    if c.None? then "None" else c.value
  }

  /**
   * Whether `'…' + phone` and `'…' + date` can be evaluated: adding `None` to
   * a string raises `TypeError`.
   */
  predicate Concatenable(record: SmsRecord) {
    record.phone.Some? && record.date.Some?
  }

  /** The first `n` records (or all of them, if fewer) can be concatenated. */
  predicate ConcatenablePrefix(records: seq<SmsRecord>, n: int) {
    forall k :: 0 <= k < n && k < |records| ==> Concatenable(records[k])
  }

  /** The `Messages/Message` node: a single record (a dict) or a list of records. */
  datatype MessageNode = OneRecord(record: SmsRecord) | RecordList(records: seq<SmsRecord>)

  /** The records a node holds, in document order. */
  function NodeRecords(n: MessageNode): seq<SmsRecord> {
    match n
    case OneRecord(r) => [r]
    case RecordList(rs) => rs
  }

  /**
   * The part of an `sms-list` reply that `get_sms` reads: the `Count` text and
   * the `Messages` element, `None` when that element is empty.
   */
  datatype SmsListReply = SmsListReply(count: string, messages: Option<MessageNode>)

  /**
   * The Python value `messages_r` holds after normalisation: a list of
   * records, a lone dict, or a list whose one element is itself a list.
   */
  datatype Listing = AsList(records: seq<SmsRecord>) | AsDict(record: SmsRecord) | NestedList(inner: seq<SmsRecord>)

  /** The normalisation step of `get_sms`: when `Count` is 1 the node is wrapped in a list. */
  function WrapSingle(numMessages: int, node: MessageNode): (l: Listing)
    ensures (numMessages == 1 <==> node.OneRecord?) ==> l == AsList(NodeRecords(node))
    ensures l.AsList? ==> (numMessages == 1 <==> node.OneRecord?)
  {
    if numMessages == 1 then
      match node
      case OneRecord(r) => AsList([r])
      case RecordList(rs) => NestedList(rs)
    else
      match node
      case OneRecord(r) => AsDict(r)
      case RecordList(rs) => AsList(rs)
  }

  /**
   * Reading an `sms-list` reply: `int(Count)` raises `ValueError` on a
   * non-numeric count, an empty `Messages` element makes the lookup of
   * `Message` raise `TypeError`, and otherwise the node is normalised.
   */
  function ReadListing(reply: SmsListReply): (r: Result<(int, Listing), PyError>)
    ensures r.Ok? <==> ParseInt(reply.count).Some? && reply.messages.Some?
    ensures r.Ok? ==> r.value.0 == ParseInt(reply.count).value
    ensures ParseInt(reply.count).None? ==> r == Err(ValueError)
    ensures ParseInt(reply.count).Some? && reply.messages.None? ==> r == Err(TypeError)
    ensures r.Ok? ==> r.value.1 == WrapSingle(r.value.0, reply.messages.value)
    ensures r.Ok? && (r.value.0 == 1 <==> reply.messages.value.OneRecord?) ==>
      r.value.1 == AsList(NodeRecords(reply.messages.value))
  {
    match ParseInt(reply.count)
    case None => Err(ValueError)
    case Some(n) =>
      match reply.messages
      case None => Err(TypeError)
      case Some(node) => Ok((n, WrapSingle(n, node)))
  }

  /** A reply whose count agrees with its node yields every record, in order. */
  lemma ConsistentListingKeepsRecords(records: seq<SmsRecord>)
    requires |records| != 1
    ensures var reply := SmsListReply(IntToDecimal(|records|), Some(RecordList(records)));
      ReadListing(reply) == Ok((|records|, AsList(records)))
  {
    IntRoundTrip(|records|);
  }

  /** A single-message reply becomes a one-element list. */
  lemma SingleListingBecomesList(record: SmsRecord)
    ensures ReadListing(SmsListReply("1", Some(OneRecord(record)))) == Ok((1, AsList([record])))
  {
    assert ParseInt("1") == Some(1) by {
      assert AllDigits("1");
      assert "1"[..0] == "";
    }
  }

  /** An empty inbox (`<Messages/>`, read as `None`) makes reading the listing raise `TypeError`, whatever the count. */
  lemma {:induction false} EmptyInboxRaises(count: int)
    ensures ReadListing(SmsListReply(IntToDecimal(count), None)) == Err(TypeError)
  {
    IntRoundTrip(count);
  }

  /** `Count` 1 over a list of records wraps the list itself, giving a nested list. */
  lemma CountOneOverListNests(records: seq<SmsRecord>)
    ensures ReadListing(SmsListReply("1", Some(RecordList(records)))) == Ok((1, NestedList(records)))
  {
    assert ParseInt("1") == Some(1) by {
      assert AllDigits("1");
      assert "1"[..0] == "";
    }
  }

  // ------------------------------------------------------------ session headers

  /** The body of a `/api/webserver/SesTokInfo` reply after parsing. */
  datatype SesTokBody =
    | Unparsable                                  // the XML parser raises
    | NoResponseElement                           // no `response` element
    | EmptyResponseElement                        // `<response/>`, parsed to None
    | ResponseElement(fields: map<string, string>)

  /** The two request headers: `__RequestVerificationToken` and `Cookie`. */
  datatype SessionHeaders = SessionHeaders(token: Option<string>, cookie: Option<string>)

  function Field(fields: map<string, string>, key: string): Option<string> {
    if key in fields then Some(fields[key]) else None
  }

  /**
   * `get_headers` without the request: a non-200 status gives two `None`
   * headers; otherwise the body is read inside `contextlib.suppress`, so a
   * body that makes parsing or the `in` test raise leaves `headers`
   * unassigned and the `return` raises `UnboundLocalError`.
   */
  function SessionHeadersOf(reply: Response<SesTokBody>): (r: Result<SessionHeaders, PyError>)
    ensures reply.statusCode != 200 ==> r == Ok(SessionHeaders(None, None))
    ensures r.Err? <==> reply.statusCode == 200 && (reply.body.Unparsable? || reply.body.EmptyResponseElement?)
    ensures r.Err? ==> r.error == UnboundLocalError
    ensures r.Ok? && r.value.token.Some? ==>
      reply.statusCode == 200 && reply.body.ResponseElement? &&
      "TokInfo" in reply.body.fields && r.value.token.value == reply.body.fields["TokInfo"]
    ensures r.Ok? && r.value.cookie.Some? ==>
      reply.statusCode == 200 && reply.body.ResponseElement? &&
      "SesInfo" in reply.body.fields && r.value.cookie.value == reply.body.fields["SesInfo"]
    ensures reply.statusCode == 200 && reply.body.ResponseElement? ==>
      r.Ok? &&
      ("TokInfo" in reply.body.fields ==> r.value.token.Some?) &&
      ("SesInfo" in reply.body.fields ==> r.value.cookie.Some?)
  {
    if reply.statusCode != 200 then Ok(SessionHeaders(None, None))
    else
      match reply.body
      case Unparsable => Err(UnboundLocalError)
      case EmptyResponseElement => Err(UnboundLocalError)
      case NoResponseElement => Ok(SessionHeaders(None, None))
      case ResponseElement(fields) => Ok(SessionHeaders(Field(fields, "TokInfo"), Field(fields, "SesInfo")))
  }
}
