# django-datadog-logger request logging, modelled in Dafny

This project models `RequestLoggingMiddleware`, the Django middleware in
django-datadog-logger that writes one structured log record for each HTTP
request/response pair. It covers:

- The record (`LogRecord`). `http.status_code` is always present. `duration`
  is present only when the request carries `request_start_time`. When the
  response has no `response_start_time`, the clock reading `now` stands in
  for it. `error.kind` and `error.message` are set for 4xx and 5xx responses.
  `error.stack` is set only for a 4xx response whose `data` is a list, a dict
  or a `ReturnDict`.
- The severity (`Level`): WARNING for 400–499, ERROR for 500–599, INFO for
  every other integer.
- The message text (`Message`): `"HTTP <status> <reason>"` in every branch.
  `Decimal.IntToString` models Python's `str()` on the status code.
- The middleware class (`RequestLoggingMiddleware`). Its constructor records
  whether the upstream handler is a coroutine function. `LogResponse` builds
  the record one key at a time, as the source does, and emits it once to the
  logging facility. `ProcessResponse` and the synchronous `Call` log once and
  hand back the response unchanged.
- The logging facility (`LogSink`): an append-only sequence of
  (severity, message, fields) emissions, so "exactly one emission per call"
  can be stated.

The partners that the properties rest on:

- `ParseMessage` and `Decimal.ParseInt` invert the message text. The round
  trip shows the status code and reason phrase can be recovered from it.
- `LogRecord`'s contract states, key by key, when each key is present and what
  it holds, in both directions.
- `LogResponse`'s postcondition ties the step-by-step construction to
  `Entry`, the function that gives the level, message and record together.

Files: `wrappers.dfy` (Option), `decimal.dfy` (integer formatting and its
parser), `request_log.dfy` (datatypes, specification functions and lemmas,
the sink and the middleware class).

Inputs the source reads from its environment become values:

- `time.time()` is the `now` parameter.
- The request is reduced to its optional `request_start_time`.
- The response is reduced to its status code, reason phrase, optional
  `response_start_time` and optional `data`.
- The upstream `get_response` is an optional `Handler`, tagged as synchronous
  or coroutine.

`data` is attached only when it is a `list`, a `dict` or a `ReturnDict`
(request_log.py:48). Any other value, a tuple included, is `OtherData` here
and is never attached.

## Model

| member | source | states |
|---|---|---|
| `Decimal.IntToString` | django_datadog_logger/middleware/request_log.py:51 | The status code's text in the message is never empty and contains no space. It starts with `-` exactly when the code is negative, and the digits that follow never have a leading zero. A non-negative code is all digits with a leading `0` only for zero, as Python's `str()` writes it |
| `Decimal.NatToString` | django_datadog_logger/middleware/request_log.py:51 | The digits of a non-negative status code are all decimal digits, with a leading `0` only for zero itself; a single-digit number is one character, so zero is exactly "0" |
| `Decimal.NatToStringRoundTrip` | django_datadog_logger/middleware/request_log.py:51 | Reading the digits back gives the original number |
| `Decimal.IntToStringRoundTrip` | django_datadog_logger/middleware/request_log.py:51 | Parsing the formatted status code gives back the same integer, negatives included |
| `Decimal.IntToStringInjective` | django_datadog_logger/middleware/request_log.py:51 | Different status codes never format to the same text |
| `RequestLog.Payload.IsStructured` | django_datadog_logger/middleware/request_log.py:48 | The `isinstance(data, (list, dict, ReturnDict))` test holds for every payload kind except `OtherData` |
| `RequestLog.Message` | django_datadog_logger/middleware/request_log.py:50-65 | The message of every branch is "HTTP ", then the status code as Python prints it, then one space, then the reason phrase, ending exactly with the reason phrase |
| `RequestLog.Level` | django_datadog_logger/middleware/request_log.py:45-65 | WARNING iff 400 ≤ s < 500, ERROR iff 500 ≤ s < 600, INFO iff neither; the three buckets are disjoint and cover every integer |
| `RequestLog.DurationNanos` | django_datadog_logger/middleware/request_log.py:41-43 | A duration exists iff the request has a start time; it is (response start − request start) × 1e9, or (now − request start) × 1e9 when the response has no start time |
| `RequestLog.ErrorStack` | django_datadog_logger/middleware/request_log.py:45-49 | A payload is attached iff the status is in [400,500) and `data` is present and is a list, dict or ReturnDict; it is then exactly `data` |
| `RequestLog.LogRecord` | django_datadog_logger/middleware/request_log.py:38-65 | `http.status_code` is always the status code. `duration` is present iff the request start time is. `error.kind`/`error.message` are present iff the status is 4xx or 5xx and hold the code and reason. `error.stack` is present iff the 4xx structured-data condition holds and holds `data`. No other keys exist |
| `RequestLog.MessageRoundTrip` | django_datadog_logger/middleware/request_log.py:50-53 | The message "HTTP <status> <reason>" parses back to exactly that status code and reason phrase, for any reason text, spaces included |
| `RequestLog.MessageDeterminesStatusAndReason` | django_datadog_logger/middleware/request_log.py:51 | Two responses produce the same message only if they have the same status code and reason phrase |
| `RequestLog.Entry` | django_datadog_logger/middleware/request_log.py:38-65 | The (level, message, `extra`) triple handed to the logger: it is INFO exactly when it carries no `error.kind` and no `error.message`, and only a WARNING can carry `error.stack` |
| `RequestLog.NotFoundRecord` | django_datadog_logger/middleware/request_log.py:39-49 | The 404 example's record holds exactly the status code, the duration 250000000.0, error kind 404, the reason phrase and the dict payload |
| `RequestLog.ServerErrorRecord` | django_datadog_logger/middleware/request_log.py:54-56 | The 500 example's record holds exactly the status code, error kind and reason phrase: no duration, and no stack despite the list data |
| `RequestLog.ScenarioNotFound` | django_datadog_logger/middleware/request_log.py:38-53 | A 404 with start times 1000.0 and 1000.25 and a dict payload is the WARNING "HTTP 404 Not Found" with duration 250000000.0, error kind 404, message and the payload as stack |
| `RequestLog.ScenarioServerError` | django_datadog_logger/middleware/request_log.py:54-60 | A 500 without a request start time is the ERROR "HTTP 500 Internal Server Error" with only status code, error kind and message, even though its data is a list |
| `RequestLog.ScenarioOk` | django_datadog_logger/middleware/request_log.py:61-65 | A 200 is the INFO "HTTP 200 OK" whose record holds only the status code |
| `RequestLog.LogSink.Emit` | django_datadog_logger/middleware/request_log.py:50-53 | A call into the logging facility appends exactly one (level, message, fields) emission and changes nothing else |
| `RequestLog.RequestLoggingMiddleware.constructor` | django_datadog_logger/middleware/request_log.py:14-20 | Stores the upstream handler; async mode is on iff a handler is given and it is a coroutine function |
| `RequestLog.RequestLoggingMiddleware.LogResponse` | django_datadog_logger/middleware/request_log.py:38-65 | Building the record key by key and emitting it appends exactly one emission: the level `Level` selects, the message text and the record `LogRecord` describes |
| `RequestLog.RequestLoggingMiddleware.ProcessResponse` | django_datadog_logger/middleware/request_log.py:34-36 | Logs the pair exactly once and returns the same response |
| `RequestLog.RequestLoggingMiddleware.Call` | django_datadog_logger/middleware/request_log.py:22-27 | In async mode, returns the pending coroutine and logs nothing. In sync mode, only a non-coroutine handler is ever called; Call returns the upstream handler's response unchanged after exactly one emission for it. With no handler, the call fails and nothing is logged |
| `RequestLog.LogTwice` | django_datadog_logger/middleware/request_log.py:38-65 | Logging the same request/response twice keeps every earlier emission and appends `Entry(request, response, now)` twice: the logger keeps no per-call state |

## Left out

- `__acall__` (the awaited coroutine path) is not modelled. Async-mode `Call` ends at the `Pending` outcome, as `__call__` does before the coroutine is awaited.
- `iscoroutinefunction` and `markcoroutinefunction` are not modelled. The handler's coroutine-ness is a tag on `Handler`, and marking the middleware itself is not modelled because it only affects how the framework schedules it.
- `sync_capable` and `async_capable` are framework configuration with no behaviour, so they are not modelled.
- `RequestLog.DurationNanos`: the duration uses exact real arithmetic, so floating-point rounding of `(t1 - t0) * 1e9` is not modelled.
- `time.time()` is the `now` parameter. Python reads the clock even when `response_start_time` is present, but that reading is then unused, so it has no observable effect.
- The Python `logging` machinery is reduced to `LogSink`. It records every call into the facility before any level filtering, so a `logger.info` call is recorded even when the configured level would drop it. Formatting, handlers, log-record attributes and exceptions raised by the facility are not modelled, because the facility is external.
- `ReturnDict` is only a tag on `Payload`. The payload's elements are an abstract JSON-like tree, because its serializer behaviour is outside this component.
- The record is a `map`, so the insertion order of the Python dict is not modelled. The keys and values are.
- Duck-typed attributes with values of other types are not modelled. The model covers a `request_start_time` or `response_start_time` that is a real number, an integer `status_code` and a string `reason_phrase`.
- The upstream handler is a pure function of the request. Its own side effects and exceptions belong to the framework and are not modelled. In particular, `log_response` reads `request_start_time` from the request object after `get_response` has returned (request_log.py:25-26, 41-42), so a handler that sets or changes that attribute changes the Python record; `Call` logs the `Request` value it was given.
