/**
 * `Service.send` (app/service.py): the gRPC handler that runs the same check
 * chain as `SmsManager.process` on an already-typed request and maps the
 * first failing check to an error status. The response's `is_send` flag is
 * never set, so it keeps its default `false`.
 */
module Service {
  import SmsManager
  import opened Wrappers

  /** `SmsSendRequest`; a missing field is the empty string. */
  datatype SmsSendRequest = SmsSendRequest(phone: string, message: string)

  /** `Status` of the response. */
  datatype Status = Status(inError: bool, errorMessage: string)

  /** `SmsSendResponse`. */
  datatype SmsSendResponse = SmsSendResponse(status: Status, isSend: bool)

  /** `PHONE_NUMBER_INVALID_ERROR`. */
  const PhoneNumberInvalidError := "Invalid phone number"
  /** `VERIFICATION_SERVICE_TEMPORARY_UNAVAILABLE`. */
  const ServiceTemporaryUnavailable := "Phone validation service temporary unavailable"
  /** `VERIFICATION_SERVICE_SEND_SMS_ERROR`. */
  const SendSmsError := "Error sending sms to phone"

  /** A response reporting `message` as the error. */
  function Failure(message: string): SmsSendResponse {
    SmsSendResponse(Status(true, message), false)
  }

  /** The response of a request for which every check passed. */
  const Success := SmsSendResponse(Status(false, ""), false)

  /** The calls a request makes when every check passes. */
  function AllCalls(r: SmsSendRequest): seq<SmsManager.Call> {
    [SmsManager.ValidatePhone(r.phone), SmsManager.ProbeDevice, SmsManager.SendSms(r.phone, r.message)]
  }

  /**
   * `send`, with the probe and the send awaited as intended: validate the
   * phone, probe the device, send; the first failing check decides the
   * error message and nothing after it is called. Returns the response and
   * the calls made.
   */
  function Send(request: SmsSendRequest, isValid: string -> bool, device: SmsManager.Device): (r: (SmsSendResponse, seq<SmsManager.Call>))
    ensures !r.0.isSend
    ensures !r.0.status.inError <==> isValid(request.phone) && device.alive && device.accepts(request.phone, request.message)
    ensures !r.0.status.inError ==> r.0.status.errorMessage == ""
    ensures !isValid(request.phone) ==>
      r.0.status.errorMessage == PhoneNumberInvalidError && r.1 == [SmsManager.ValidatePhone(request.phone)]
    ensures isValid(request.phone) && !device.alive ==>
      r.0.status.errorMessage == ServiceTemporaryUnavailable && r.1 == AllCalls(request)[..2]
    ensures isValid(request.phone) && device.alive && !device.accepts(request.phone, request.message) ==>
      r.0.status.errorMessage == SendSmsError
    ensures isValid(request.phone) && device.alive ==> r.1 == AllCalls(request)
  {
    if !isValid(request.phone) then (Failure(PhoneNumberInvalidError), [SmsManager.ValidatePhone(request.phone)])
    else if !device.alive then (Failure(ServiceTemporaryUnavailable), AllCalls(request)[..2])
    else if !device.accepts(request.phone, request.message) then (Failure(SendSmsError), AllCalls(request))
    else (Success, AllCalls(request))
  }

  /**
   * `Service.send` and `SmsManager.process` agree: on the message a request
   * carries, the handler succeeds iff the pipeline does, and makes the same
   * calls.
   */
  lemma SendAgreesWithProcess(request: SmsSendRequest, isValid: string -> bool, device: SmsManager.Device)
    ensures var m := map["phone" := request.phone, "text" := request.message];
      var o := SmsManager.Process(SmsManager.JsonObject(m), isValid, device);
      && (!Send(request, isValid, device).0.status.inError <==> o.ok)
      && Send(request, isValid, device).1 == o.calls
  {
    var m := map["phone" := request.phone, "text" := request.message];
    assert SmsManager.ParseMessage(SmsManager.JsonObject(m)) == Some(SmsManager.Message(request.phone, request.message));
  }

  /** A request whose phone the validator rejects is answered with an error and not sent. */
  lemma InvalidRequestRejected(request: SmsSendRequest, isValid: string -> bool, device: SmsManager.Device)
    requires !isValid(request.phone)
    ensures Send(request, isValid, device).0 == Failure(PhoneNumberInvalidError)
    ensures forall k :: 0 <= k < |Send(request, isValid, device).1| ==> !Send(request, isValid, device).1[k].SendSms?
  {
  }

  /**
   * An empty request (both fields default to "") is rejected as an invalid
   * phone, given that the validator rejects the empty string, as it does when
   * the phone fails to parse.
   */
  lemma EmptyRequestRejected(message: string, isValid: string -> bool, device: SmsManager.Device)
    requires !isValid("")
    ensures Send(SmsSendRequest("", message), isValid, device) ==
      (Failure(PhoneNumberInvalidError), [SmsManager.ValidatePhone("")])
  {
  }

  /**
   * `send` as written: `is_hilink` and `send_sms_to_phone` are coroutine
   * functions called without `await`, so both checks see a truthy coroutine
   * object and the device is never contacted. Only the phone check can fail.
   */
  function SendAsWritten(request: SmsSendRequest, isValid: string -> bool, device: SmsManager.Device): (r: (SmsSendResponse, seq<SmsManager.Call>))
    ensures !r.0.status.inError <==> isValid(request.phone)
    ensures r.1 == [SmsManager.ValidatePhone(request.phone)]
  {
    if !isValid(request.phone) then (Failure(PhoneNumberInvalidError), [SmsManager.ValidatePhone(request.phone)])
    else (Success, [SmsManager.ValidatePhone(request.phone)])
  }

  /**
   * The discrepancy: with a valid phone and a device that does not answer,
   * the handler as written reports success without sending, where the
   * intended chain reports the device as unavailable.
   */
  lemma SendAsWrittenIgnoresDeadDevice(request: SmsSendRequest, isValid: string -> bool, device: SmsManager.Device)
    requires isValid(request.phone) && !device.alive
    ensures SendAsWritten(request, isValid, device).0 == Success
    ensures Send(request, isValid, device).0 == Failure(ServiceTemporaryUnavailable)
  {
  }
}
