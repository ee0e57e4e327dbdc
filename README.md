# rideonline_sms: the SMS dispatch core in Dafny

This project models the part of rideonline_sms that turns send requests into
calls to a Huawei HiLink USB modem:

- **the dispatch worker** (`Worker`): a FIFO queue of SMS tasks; an
  `enabled` gate on submissions; and a loop that hands the head task to the
  gateway, drops it on success, re-queues it at the tail on failure and
  sleeps 15 seconds after every attempt;
- **the two send pipelines** (`SmsManager.process`, `Service.send`): parse,
  validate the phone, probe the device, send, stopping at the first failure;
  `Service.send` maps each failure to its error message;
- **the three gateway clients** (`SmsService`, the module-level functions of
  `app/services/sms.py`, and `HiLinkAssistant`), with HTTP and XML removed.
  Each operation receives the device's reply, already parsed, and returns
  what the client decides from it. The request payloads are built as strings
  from the clients' own templates;
- **the authentication dependencies**: split the `Authorization` header on
  single spaces, check the prefix, decode the token to a user id and look
  the user up.

Modules follow the source files: `Worker`, `SmsManager`, `Service`,
`SmsService`, `Sms`, `HiLink`, `Authentication`. Three shared modules hold
what the clients repeat:

- `Gateway`: reply shapes, the Python exceptions that escape, the send-status
  decision, inbox-listing normalisation and session-header extraction;
- `Text`: decimal rendering and `int()` parsing, Python's string ordering,
  substrings;
- `Wrappers`: `Option` and `Result`.

Collaborators the code cannot see are parameters:

- the phone validator is a predicate `string -> bool`;
- the device is a value saying whether it answers the probe and which sends
  it accepts;
- the token decoder and the user repository are functions returning `Option`;
- `datetime.now()` is a `timestamp` string;
- the gateway's verdict in each worker iteration is a `Turn`.

Python exceptions that escape an operation are `Err(PyError)` results:
`KeyError`, `TypeError`, `IndexError`, `ValueError`, `UnboundLocalError`.

What the worker and the authentication dependencies do, as the code has it:

- The worker sends the head task without validating its phone or probing
  the device first (`app/worker/worker.py:46-49`).
- It sleeps 15 seconds after every attempt, successful or not
  (`app/worker/worker.py:50-57`).
- A failed task goes back at the tail (`app/worker/worker.py:53-55`), so
  later tasks are not starved: `Worker.RetryGoesBehindLaterTasks` shows the
  next task delivered before the retry.
- A malformed header or a wrong token prefix is rejected with 401
  (`app/api/dependencies/authentication.py:44-47`), and so is a user that no
  longer exists (`app/api/dependencies/authentication.py:70`). The route
  tests expect 403 in both cases
  (`tests/test_api/test_routes/test_authentication.py:33` and `:52`), where
  this module raises 401.

Behaviour of the code that the model keeps and states outright:

- The send-status check compares `CurIndex` and `TotalCount` as strings
  (`app/services/sms_service.py:145`, `app/services/sms.py:151`,
  `app/services/hilink.py:141`). So "2" of "10" counts as finished:
  `Gateway.StringCountersAcceptUnfinishedSend`, `Text.StrLessIsNotNumericLess`.
- `send_sms_and_wait` discards the send's result: `SmsService.FailedSendCanBeReportedSent`.
- An empty inbox (`<Messages/>` parses to `None`) makes `get_sms` raise `TypeError`
  (`Gateway.EmptyInboxRaises`). A count of 1 over a list of records gives a
  nested list (`Gateway.CountOneOverListNests`), on which `SmsService.GetSms`
  raises `TypeError`.
- `get_headers` returns an unbound `headers` when parsing fails inside
  `contextlib.suppress`, which raises `UnboundLocalError`.

## Model

| member | source | states |
|---|---|---|
| Worker.StepQueueMovesHead | app/worker/worker.py:47-55 | a delivered head leaves the queue, a failed head goes to the tail, later tasks keep their order, and no task is lost or duplicated (multiset) |
| Worker.RunConserves | app/worker/worker.py:43-57 | over any run of `loop()`, what is left queued plus what was delivered is exactly what was queued at the start (as multisets) |
| Worker.RunDelay | app/worker/worker.py:46-57 | every attempt costs exactly one 15-unit delay, success included; deliveries are at most the attempts, and attempts are at most the iterations |
| Worker.AllSucceedDeliversInOrder | app/worker/worker.py:46-52 | with a gateway that always succeeds, every queued task is sent once and delivered in submission order, leaving the queue empty |
| Worker.AllFailRotates | app/worker/worker.py:46-57 | with a gateway that always fails, nothing is delivered and after n attempts the first n tasks have moved, in order, behind the others |
| Worker.RetryGoesBehindLaterTasks | app/worker/worker.py:53-55 | a task that fails is retried only after its successor has been sent |
| Worker.FailOnceThenDelivered | app/worker/worker.py:47-57 | a task that fails once and then succeeds is sent twice, delivered once, after two delays |
| Worker.Worker.constructor | app/worker/worker.py:25-29 | a new worker has an empty queue and accepts submissions |
| Worker.Worker.AddTask | app/worker/worker.py:31-38 | accepted iff the worker is enabled; an accepted task is appended at the tail, a refused one leaves the queue unchanged |
| Worker.Worker.TaskCount | app/worker/worker.py:40-41 | the number of queued tasks |
| Worker.Worker.Step | app/worker/worker.py:47-57 | one iteration takes the head, applies the gateway's verdict to the queue as `StepQueue` does, and adds one delay |
| Worker.Worker.Stop | app/worker/worker.py:59-60 | clears the gate and leaves the queue alone |
| Worker.Worker.Loop | app/worker/worker.py:43-57 | the queue, every task sent, the delay and the gate afterwards are those of `Run` on the initial queue, whose properties the lemmas above prove |
| Worker.SubmitAfterStop | app/worker/worker.py:31-33 | after `stop()` a submission is refused and nothing is queued |
| SmsManager.ParseMessage | app/sms_manager.py:37-41 | a payload parses iff it is a JSON object with both `phone` and `text`; the message carries those two values |
| SmsManager.Process | app/sms_manager.py:36-57 | true iff parse, phone validation, device probe and send all succeed; the calls made are the prefix of validate, probe, send up to the first failing check; an unparsable payload makes no call |
| SmsManager.MessageFieldNameRejected | app/sms_manager.py:37-41 | a payload naming its text `message` is rejected with no call to any collaborator |
| SmsManager.Run | app/sms_manager.py:31-34 | every dequeued payload is processed exactly once, in queue order, by the intended chain `SmsManager.Process`, and none is put back |
| SmsManager.ProcessAsWritten | app/sms_manager.py:49-55 | as written, only parsing and validation can fail, and the only call made is the phone validation |
| SmsManager.ProcessAsWrittenIgnoresDeadDevice | app/sms_manager.py:49-51 | for a valid message and a dead device, the code as written succeeds without sending; the intended chain fails after the probe |
| Service.Send | app/service.py:31-52 | `in_error` is false iff all three checks pass; the error message is the one of the first failing check, or empty on success; `is_send` stays false; later checks are not called |
| Service.SendAgreesWithProcess | app/service.py:31-52 | on the message a request carries, `send` succeeds iff `SmsManager.process` does and makes the same calls |
| Service.InvalidRequestRejected | app/service.py:34-38 | a request whose phone the validator rejects gets `Invalid phone number` and nothing is sent |
| Service.EmptyRequestRejected | app/service.py:34-38 | an empty request gets `Invalid phone number` after the validation call alone, given that the validator rejects "" (it returns false when the phone does not parse, app/services/phone_number_validator.py:24-29) |
| Service.SendAsWritten | app/service.py:40-50 | as written, only the phone check can fail and the device is never called |
| Service.SendAsWrittenIgnoresDeadDevice | app/service.py:40-44 | for a valid phone and a dead device, the code as written answers success; the intended chain answers `Phone validation service temporary unavailable` |
| Gateway.SendStatusOk | app/services/sms_service.py:136-148 | accepted iff `Phone` is empty or the target, `SucPhone` is empty or the target, `FailPhone` is empty or not the target, and `CurIndex` does not sort before `TotalCount` as a string |
| Gateway.FinishedSendAccepted | app/services/sms_service.py:136-148 | a status naming the target as sent, with equal counters and another fail phone, is accepted |
| Gateway.UnfinishedSendRejected | app/services/sms_service.py:145-146 | a `CurIndex` that sorts before `TotalCount` is rejected whatever the phones say |
| Gateway.StringCountersAcceptUnfinishedSend | app/services/sms_service.py:133-146 | a status reporting message 2 of 10 is accepted as finished, because the counters are compared as strings |
| Text.StrLessIsNotNumericLess | app/services/sms_service.py:145 | Python's string `<` disagrees with numeric order: 2 < 10 but "2" does not sort before "10" |
| Text.IntRoundTrip | app/services/sms_service.py:103 | `int()` of the decimal rendering of any integer gives the integer back |
| Gateway.WrapSingle | app/services/sms_service.py:106-108 | when `Count` agrees with the node's shape the records become a list in document order, and only then is the result a list |
| Gateway.ReadListing | app/services/sms_service.py:102-108 | `ValueError` on a non-numeric `Count`, `TypeError` on an empty `Messages` element; otherwise the count, and the node normalised by `WrapSingle` |
| Gateway.ConsistentListingKeepsRecords | app/services/sms_service.py:102-108 | a reply listing n records (n not 1) with `Count` n yields all n records in order |
| Gateway.SingleListingBecomesList | app/services/sms_service.py:103-108 | a reply with `Count` 1 and a lone record yields a one-element list |
| Gateway.EmptyInboxRaises | app/services/sms_service.py:103-104 | an empty `Messages` element raises `TypeError`, whatever the count |
| Gateway.CountOneOverListNests | app/services/sms_service.py:103-108 | `Count` 1 over a list of records gives a list nested inside a list |
| Gateway.SessionHeadersOf | app/services/sms.py:60-80 | a non-200 reply gives two `None` headers; a body that fails to parse raises `UnboundLocalError`; otherwise the token and the cookie are the `TokInfo` and `SesInfo` fields when present |
| SmsService.IsHilink | app/services/sms_service.py:29-39 | true iff the request completes with status 200 |
| SmsService.SendSms | app/services/sms_service.py:54-66 | false on a connect timeout or a non-200 status; otherwise true iff `response` reads "OK"; `KeyError` iff a 200 reply lacks `response` |
| SmsService.SendPayloadFields | app/services/sms_service.py:169-197 | the send payload carries `<Index>-1`, the phone and the content verbatim, the content length, `<Reserved>1` and the timestamp |
| SmsService.DeletePayloadIndex | app/services/sms_service.py:200-213 | the delete payload carries an `<Index>` from which the given index parses back |
| SmsService.InboxLineShape | app/services/sms_service.py:248-252 | an inbox line starts with "Message from " and the sender, and ends with the message text; an empty phone, date or content is written as "None" |
| SmsService.GetContent | app/services/sms_service.py:233-254 | on a list, one line per record in order, the count ignored, an empty element written as "None"; a lone dict or a nested list raises `TypeError` |
| SmsService.GetSms | app/services/sms_service.py:86-111 | a connect timeout gives no messages; otherwise the lines of every record of the normalised listing; a failed read returns its error, and a listing that is not a list raises `TypeError` |
| SmsService.WaitSendSms | app/services/sms_service.py:113-148 | false on a connect timeout; otherwise the send-status decision, whatever the status code |
| SmsService.SendSmsAndWait | app/services/sms_service.py:150-162 | raises iff `send_sms` raises; otherwise the result is the wait result, whatever the send returned |
| SmsService.FailedSendCanBeReportedSent | app/services/sms_service.py:161-162 | a send refused with a non-200 status is reported as sent when the status reply accepts it |
| Sms.IsHilink | app/services/sms.py:50-57 | true iff the status is 200 |
| Sms.GetHeaders | app/services/sms.py:60-80 | the session headers of the reply, the token from `TokInfo` and the cookie from `SesInfo` |
| Sms.GetContent | app/services/sms.py:101-110 | a count of 0 or less reads nothing; on a list of at least that many records, their lines in order; `KeyError` on a lone dict, `TypeError` on a nested list; on a list the first failing index decides: `IndexError` past its end, `TypeError` at a record with an empty phone or date |
| Sms.GetSms | app/services/sms.py:83-98 | succeeds iff the listing reads and, for a positive count, is a list holding at least that many records whose phone and date are all present; returns their lines and the normalised listing; a failed read returns its error |
| Sms.WaitSendSmsToPhone | app/services/sms.py:133-154 | the four rejection conditions (other phone, other success phone, matching fail phone, `CurIndex` sorting before `TotalCount`), and acceptance otherwise |
| Sms.SendPayloadFields | app/services/sms.py:39-47 | the send template carries `<Index>-1`, the phone, the message, its length, `<Reserved>1` and the timestamp |
| Sms.SendSmsToPhone | app/services/sms.py:157-170 | the payload is the filled template, and the send counts as done iff the status is 200 |
| Sms.LongMessageSentWhole | app/services/sms.py:24 | `MAX_CHARS_IN_MESSAGE` is not enforced: a longer message is posted whole with its full length, and counts as sent on a 200 reply |
| Sms.SendVerdictWeakerThanSmsService | app/services/sms.py:165-170 | every send `SmsService.send_sms` accepts is accepted here too, but a 200 reply reading "ERROR" is accepted here and refused there |
| Sms.VerifyCodeRequest | app/services/sms.py:173-176 | the verification request goes to the given phone; its message starts with the code, which parses back; it is the code's digits plus 27 characters; sent iff the status is 200 |
| HiLink.HiLinkAssistant.New | app/services/hilink.py:31-35 | the constructor stores host, user, password and the message limit, 160 by default |
| HiLink.HiLinkAssistant.IsHilink | app/services/hilink.py:37-44 | true iff the status is 200 |
| HiLink.ProbesAgree | app/services/hilink.py:37-44 | the three clients' device probes give the same answer on every completed request (status 200); only the synchronous client also turns a connect timeout into `false` (app/services/sms_service.py:29-39) |
| HiLink.HiLinkAssistant.GetHeaders | app/services/hilink.py:46-66 | the same extraction as the module-level `get_headers`; two `None` headers on a non-200 reply |
| HiLink.HiLinkAssistant.GetContent | app/services/hilink.py:92-101 | the same indexing errors as the module-level `get_content` (`KeyError`, `TypeError`, `IndexError`, `TypeError` on an empty phone or date), with this class's " received " line |
| HiLink.HiLinkAssistant.GetSms | app/services/hilink.py:68-90 | a count of 1 wraps a lone record into a list; succeeds iff the listing reads and, for a positive count, is a list holding at least that many records whose phone and date are all present; a failed read returns its error |
| HiLink.HiLinkAssistant.WaitSendSmsToPhone | app/services/hilink.py:123-144 | the same decision as the module-level function; a matching fail phone rejects; a finished send to the target is accepted |
| HiLink.HiLinkAssistant.SendSmsToPhone | app/services/hilink.py:146-167 | the payload carries the phone, the message, its full length, index -1, reserved 1 and the timestamp; sent iff the status is 200 |
| HiLink.MessageLimitNotEnforced | app/services/hilink.py:146-167 | a message longer than the stored limit is sent exactly as it would be under any other limit |
| Authentication.SplitJoin | app/api/dependencies/authentication.py:41 | joining the pieces of `split(" ")` with spaces gives the header back |
| Authentication.SplitPieces | app/api/dependencies/authentication.py:41 | `split(" ")` gives one piece more than there are spaces, and no piece holds a space |
| Authentication.GetAuthorizationHeader | app/api/dependencies/authentication.py:36-49 | on success the header is the configured prefix, one space and the returned token, which holds no space; every rejection is 401 "Unsupported authorization type" |
| Authentication.WellFormedHeaderAccepted | app/api/dependencies/authentication.py:40-49 | prefix, space and a token without spaces yields that token unchanged |
| Authentication.WrongSpaceCountRejected | app/api/dependencies/authentication.py:40-44 | a header that does not split into exactly two pieces is rejected with 401 |
| Authentication.WrongPrefixRejected | app/api/dependencies/authentication.py:46-47 | a first piece other than the configured prefix is rejected |
| Authentication.GetUserIdFromToken | app/api/dependencies/authentication.py:52-60 | the decoded id iff it is present and non-zero; otherwise 401 "Could not validate credentials" |
| Authentication.GetCurrentUser | app/api/dependencies/authentication.py:63-72 | the repository's user iff there is one; otherwise 401 "user does not exist" |
| Authentication.AuthorizeCharacterized | app/api/dependencies/authentication.py:36-72 | a well-formed header is authorized iff its token decodes to a non-zero id naming a user; that user is returned; each failure carries the detail of its step |
| Authentication.RejectedHeaderStopsChain | app/api/dependencies/authentication.py:36-49 | a rejected header ends the chain with its 401 before the decoder or the repository is consulted |

## Left out

- HTTP, XML and timeouts: every reply reaches the model already parsed. A
  missing XML element the code indexes is not modelled, except the
  `response` element of `send_sms`, the empty `Messages` element and the
  session-token body.
- Transport exceptions in `app/services/sms.py` and `app/services/hilink.py`
  (those functions catch none), and those other than `httpx.ConnectTimeout`
  in `app/services/sms_service.py` (such as `ConnectError` or `ReadTimeout`,
  which escape `is_hilink`, `send_sms`, `get_sms` and `wait_send_sms`): only
  completed replies and connect timeouts are modelled.
- `asyncio` scheduling, `to_thread`, `task_done` and real sleeping: the
  worker is one sequential consumer, and the sleep is a counter.
- Logging, `print`, the broker, the gRPC and HTTP routes, `app/app.py`,
  `app/worker/events.py` and the settings: I/O and wiring.
- `delete_sms` and `del_message`: requests whose results are only logged or
  printed. The delete payload of `SmsService` is modelled.
- `get_unread` (`app/services/sms.py:123-130`, `app/services/hilink.py:114-121`),
  which returns `int()` of the `UnreadMessage` element: no part of the
  worker, the gRPC service or the SMS manager calls it, so it is outside
  the modelled core.
- The constant list-request payloads and `_build_headers`: fixed strings
  with no logic.
- Python's `int()` accepts spaces, `+` and underscores; the model's
  `Text.ParseInt` accepts an optional `-` followed by digits only.
- The phone validator (a wrapper over the `phonenumbers` library) and the
  JWT decoder are parameters. The user object is always truthy, so a found
  user is returned.
- Worker.Worker.Loop: ends when the queue is empty or the turns run out,
  where the real loop would block in `get()` or go on for ever.
- Worker.Worker.Loop: an exception from the gateway call, which would end
  the real loop, is not modelled.
- Worker.Worker.Loop: submissions made while the loop runs are not
  interleaved with its iterations.
- SmsManager.Run: the real loop never ends; here it stops when the queue is
  empty, and the device state each payload meets is an input.
- SmsManager.Run: each payload goes through the corrected `Process`. The
  loop as written calls the unawaited chain (see Findings), which never
  probes the device or sends.
- Empty `Phone`, `SucPhone` and `FailPhone` elements (parsed to `None`) are
  modelled as empty strings, which are equally falsy. An empty counter
  element is not modelled: comparing `None` with `<` would raise `TypeError`.

## Findings

| source | as written | input that shows it | evidently intended | confidence | as-written member | corrected member |
|---|---|---|---|---|---|---|
| app/sms_manager.py:49-55 | `is_hilink` and `send_sms_to_phone` are coroutine functions called without `await`. Each check sees a truthy coroutine object, so neither can fail and no request reaches the device | a valid message while the device is unreachable: `process` returns true | await both calls; fail on a dead device or a refused send | high (not executed) | SmsManager.ProcessAsWritten, SmsManager.ProcessAsWrittenIgnoresDeadDevice | SmsManager.Process |
| app/service.py:40-50 | the same coroutine calls without `await` in the synchronous `send` | a valid phone while the device is unreachable: the response has `in_error` false | map a dead device and a refused send to their error messages | high (not executed) | Service.SendAsWritten, Service.SendAsWrittenIgnoresDeadDevice | Service.Send |
