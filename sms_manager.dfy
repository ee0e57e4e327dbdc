/**
 * `SmsManager` (app/sms_manager.py): parses a queued JSON payload into a
 * message and runs the check chain parse, validate phone, probe device,
 * send, stopping at the first failure. The collaborators are parameters:
 * the phone validator is a predicate, the device is a value saying whether
 * it answers the probe and which sends it accepts. Each run also reports the
 * collaborator calls it made, in order.
 */
module SmsManager {
  import opened Wrappers

  /** A queued payload as the JSON parser sees it: not a JSON object, or an object with string members. */
  datatype Payload = NotJson | JsonObject(members: map<string, string>)

  /** `Message`: the parsed request. */
  datatype Message = Message(phone: string, text: string)

  /** The device behind the gateway functions: does it answer `is_hilink`, and does it accept a send? */
  datatype Device = Device(alive: bool, accepts: (string, string) -> bool)

  /** A call the pipeline makes to a collaborator. */
  datatype Call = ValidatePhone(phone: string) | ProbeDevice | SendSms(phone: string, text: string)

  /** The verdict of one run of the pipeline and the calls it made. */
  datatype Outcome = Outcome(ok: bool, calls: seq<Call>)

  /** The calls of a run that passes every check. */
  function AllCalls(m: Message): seq<Call> {
    [ValidatePhone(m.phone), ProbeDevice, SendSms(m.phone, m.text)]
  }

  /** `Message.parse_raw`: needs a JSON object with both a `phone` and a `text` member. */
  function ParseMessage(p: Payload): (r: Option<Message>)
    ensures r.Some? <==> p.JsonObject? && "phone" in p.members && "text" in p.members
    ensures r.Some? ==> r.value.phone == p.members["phone"] && r.value.text == p.members["text"]
  {
    match p
    case NotJson => None
    case JsonObject(members) =>
      if "phone" in members && "text" in members then Some(Message(members["phone"], members["text"]))
      else None
  }

  /**
   * `process`, with the probe and the send awaited as intended: parse, then
   * validate the phone, then probe the device, then send; the first failing
   * step ends the run with `false` and nothing after it is called.
   */
  function Process(data: Payload, isValid: string -> bool, device: Device): (r: Outcome)
    ensures r.ok <==>
      && ParseMessage(data).Some?
      && isValid(ParseMessage(data).value.phone)
      && device.alive
      && device.accepts(ParseMessage(data).value.phone, ParseMessage(data).value.text)
    ensures ParseMessage(data).None? ==> r.calls == []
    ensures ParseMessage(data).Some? ==>
      var m := ParseMessage(data).value;
      && 1 <= |r.calls| <= 3
      && r.calls == AllCalls(m)[..|r.calls|]
      && (|r.calls| == 1 <==> !isValid(m.phone))
      && (|r.calls| == 2 <==> isValid(m.phone) && !device.alive)
      && (r.ok ==> |r.calls| == 3)
  {
    match ParseMessage(data)
    case None => Outcome(false, [])
    case Some(m) =>
      if !isValid(m.phone) then Outcome(false, [ValidatePhone(m.phone)])
      else if !device.alive then Outcome(false, [ValidatePhone(m.phone), ProbeDevice])
      else if !device.accepts(m.phone, m.text) then Outcome(false, AllCalls(m))
      else Outcome(true, AllCalls(m))
  }

  /** A payload naming its text `message` instead of `text` is rejected before any check runs. */
  lemma MessageFieldNameRejected(phone: string, text: string, isValid: string -> bool, device: Device)
    ensures Process(JsonObject(map["phone" := phone, "message" := text]), isValid, device) == Outcome(false, [])
  {
  }

  /**
   * `run`: takes the queued payloads one at a time, in order, and hands each
   * to `process` exactly once; a failed payload is not put back. `devices[i]`
   * is the device as the i-th payload finds it. The real loop never ends;
   * this one stops when the queue is empty. Each payload goes through the
   * intended chain `Process`; the loop as written calls the unawaited
   * version, `ProcessAsWritten`, which never makes the `ProbeDevice` or
   * `SendSms` calls reported here.
   */
  method Run(queue: seq<Payload>, isValid: string -> bool, devices: seq<Device>) returns (outcomes: seq<Outcome>)
    requires |devices| >= |queue|
    ensures |outcomes| == |queue|
    ensures forall i :: 0 <= i < |queue| ==> outcomes[i] == Process(queue[i], isValid, devices[i])
  {
    var pending := queue;
    outcomes := [];
    while pending != []
      invariant |outcomes| + |pending| == |queue|
      invariant pending == queue[|outcomes|..]
      invariant forall i :: 0 <= i < |outcomes| ==> outcomes[i] == Process(queue[i], isValid, devices[i])
      decreases |pending|
    {
      var data := pending[0];
      pending := pending[1..];
      outcomes := outcomes + [Process(data, isValid, devices[|outcomes|])];
    }
  }

  /**
   * `process` as written: `is_hilink` and `send_sms_to_phone` are coroutine
   * functions called without `await`, so each check sees a coroutine object,
   * which is truthy, and the device is never contacted. Only parsing and the
   * phone check can fail.
   */
  function ProcessAsWritten(data: Payload, isValid: string -> bool, device: Device): (r: Outcome)
    ensures r.ok <==> ParseMessage(data).Some? && isValid(ParseMessage(data).value.phone)
    ensures forall k :: 0 <= k < |r.calls| ==> r.calls[k].ValidatePhone?
  {
    match ParseMessage(data)
    case None => Outcome(false, [])
    case Some(m) => Outcome(isValid(m.phone), [ValidatePhone(m.phone)])
  }

  /**
   * The discrepancy: with a valid message and a dead device, the code as
   * written reports success without sending anything, where the intended
   * chain reports failure after the probe.
   */
  lemma ProcessAsWrittenIgnoresDeadDevice(data: Payload, isValid: string -> bool, device: Device)
    requires ParseMessage(data).Some? && isValid(ParseMessage(data).value.phone)
    requires !device.alive
    ensures ProcessAsWritten(data, isValid, device).ok
    ensures forall k :: 0 <= k < |ProcessAsWritten(data, isValid, device).calls| ==>
      !ProcessAsWritten(data, isValid, device).calls[k].SendSms?
    ensures !Process(data, isValid, device).ok
    ensures Process(data, isValid, device).calls == [ValidatePhone(ParseMessage(data).value.phone), ProbeDevice]
  {
  }
}
