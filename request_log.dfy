/**
 * The request-logging middleware of django_datadog_logger: for every
 * request/response pair it builds one structured record (status code,
 * optional duration, error fields) and hands it, with a severity and the
 * text "HTTP <status> <reason>", to the logging facility.
 */
module RequestLog {
  import opened Wrappers
  import Decimal

  /** What a response's `data` attribute may hold. Only the list, dict and
      ReturnDict kinds are attached to a record; anything else is `OtherData`. */
  datatype Payload =
    | ListData(items: seq<Payload>)
    | DictData(entries: map<string, Payload>)
    | ReturnDictData(fields: seq<(string, Payload)>)
    | OtherData(text: string)
  {
    /** The `isinstance(data, (list, dict, ReturnDict))` test: every kind but `OtherData`. */
    predicate IsStructured()
      ensures IsStructured() <==> !OtherData?
    {
      ListData? || DictData? || ReturnDictData?
    }
  }

  /** A value stored under a key of the log record. */
  datatype Value =
    | IntValue(i: int)
    | RealValue(x: real)
    | TextValue(s: string)
    | PayloadValue(p: Payload)

  /** The only request attribute the logger reads: when processing began. */
  datatype Request = Request(requestStartTime: Option<real>)

  datatype Response = Response(
    statusCode: int,
    reasonPhrase: string,
    responseStartTime: Option<real>,
    data: Option<Payload>)

  datatype Severity = Info | Warning | Error

  /** One call into the logging facility: level, message and `extra` fields. */
  datatype Emission = Emission(level: Severity, message: string, extra: map<string, Value>)

  const StatusCodeKey: string := "http.status_code"
  const DurationKey: string := "duration"
  const ErrorKindKey: string := "error.kind"
  const ErrorMessageKey: string := "error.message"
  const ErrorStackKey: string := "error.stack"
  const NanosPerSecond: real := 1000000000.0

  predicate IsClientError(s: int) {
    400 <= s < 500
  }

  predicate IsServerError(s: int) {
    500 <= s < 600
  }

  /** The severity the status code selects; the three buckets partition the integers. */
  function Level(s: int): (sev: Severity)
    ensures sev == Warning <==> IsClientError(s)
    ensures sev == Error <==> IsServerError(s)
    ensures sev == Info <==> !IsClientError(s) && !IsServerError(s)
  {
    if IsClientError(s) then Warning else if IsServerError(s) then Error else Info
  }

  /** The log message text, the same in every branch: "HTTP ", the status code
      as Python prints it, one space, then the reason phrase. */
  function Message(response: Response): (m: string)
    ensures |m| > 6 + |response.reasonPhrase| && m[..5] == "HTTP "
    ensures m[5..|m| - |response.reasonPhrase| - 1] == Decimal.IntToString(response.statusCode)
    ensures m[|m| - |response.reasonPhrase| - 1] == ' '
    ensures m[|m| - |response.reasonPhrase|..] == response.reasonPhrase
  {
    "HTTP " + Decimal.IntToString(response.statusCode) + " " + response.reasonPhrase
  }

  /** The duration in nanoseconds, present only when the request carries a
      start time; a response without a start time is measured up to `now`. */
  function DurationNanos(request: Request, response: Response, now: real): (d: Option<real>)
    ensures d.Some? <==> request.requestStartTime.Some?
    ensures d.Some? && response.responseStartTime.Some? ==>
      d.value == (response.responseStartTime.value - request.requestStartTime.value) * NanosPerSecond
    ensures d.Some? && response.responseStartTime.None? ==>
      d.value == (now - request.requestStartTime.value) * NanosPerSecond
  {
    match request.requestStartTime
    case None => None
    case Some(t0) => Some((response.responseStartTime.GetOr(now) - t0) * NanosPerSecond)
  }

  /** The payload attached as `error.stack`: only a structured `data` of a 4xx response. */
  function ErrorStack(response: Response): (p: Option<Payload>)
    ensures p.Some? <==>
      IsClientError(response.statusCode) && response.data.Some? && response.data.value.IsStructured()
    ensures p.Some? ==> p == response.data
  {
    if IsClientError(response.statusCode) && response.data.Some? && response.data.value.IsStructured()
    then response.data else None
  }

  /** The fields of the record, as the union of the groups each condition contributes. */
  function LogRecord(request: Request, response: Response, now: real): (r: map<string, Value>)
    ensures StatusCodeKey in r && r[StatusCodeKey] == IntValue(response.statusCode)
    ensures DurationKey in r <==> request.requestStartTime.Some?
    ensures DurationKey in r ==> r[DurationKey] == RealValue(DurationNanos(request, response, now).value)
    ensures ErrorKindKey in r <==> IsClientError(response.statusCode) || IsServerError(response.statusCode)
    ensures ErrorKindKey in r ==> r[ErrorKindKey] == IntValue(response.statusCode)
    ensures ErrorMessageKey in r <==> IsClientError(response.statusCode) || IsServerError(response.statusCode)
    ensures ErrorMessageKey in r ==> r[ErrorMessageKey] == TextValue(response.reasonPhrase)
    ensures ErrorStackKey in r <==>
      IsClientError(response.statusCode) && response.data.Some? && response.data.value.IsStructured()
    ensures ErrorStackKey in r ==> r[ErrorStackKey] == PayloadValue(response.data.value)
    ensures r.Keys <= {StatusCodeKey, DurationKey, ErrorKindKey, ErrorMessageKey, ErrorStackKey}
  {
    var s := response.statusCode;
    map[StatusCodeKey := IntValue(s)]
    + (match DurationNanos(request, response, now)
       case Some(d) => map[DurationKey := RealValue(d)]
       case None => map[])
    + (if IsClientError(s) || IsServerError(s)
       then map[ErrorKindKey := IntValue(s), ErrorMessageKey := TextValue(response.reasonPhrase)]
       else map[])
    + (match ErrorStack(response)
       case Some(p) => map[ErrorStackKey := PayloadValue(p)]
       case None => map[])
  }

  /** Position of the first space in `s`, or `|s|` when there is none. */
  function SpaceIndex(s: string): (k: nat)
    ensures k <= |s|
    ensures k < |s| ==> s[k] == ' '
    ensures forall j :: 0 <= j < k ==> s[j] != ' '
  {
    if s == [] || s[0] == ' ' then 0 else 1 + SpaceIndex(s[1..])
  }

  /** Splits "HTTP <status> <reason>" back into status code and reason phrase. */
  function ParseMessage(m: string): Option<(int, string)> {
    if |m| < 5 || m[..5] != "HTTP " then None
    else
      var rest := m[5..];
      var k := SpaceIndex(rest);
      if k == |rest| then None
      else
        match Decimal.ParseInt(rest[..k])
        case None => None
        case Some(s) => Some((s, rest[k + 1..]))
  }

  /** The message text carries the status code and reason phrase recoverably. */
  lemma MessageRoundTrip(response: Response)
    ensures ParseMessage(Message(response)) == Some((response.statusCode, response.reasonPhrase))
  {
    var code := Decimal.IntToString(response.statusCode);
    var m := Message(response);
    var rest := code + " " + response.reasonPhrase;
    assert m[..5] == "HTTP " && m[5..] == rest;
    var k := SpaceIndex(rest);
    assert rest[|code|] == ' ';
    assert k == |code|;
    assert rest[..k] == code && rest[k + 1..] == response.reasonPhrase;
    Decimal.IntToStringRoundTrip(response.statusCode);
  }

  /** Two responses give the same message text only when they agree on status and reason. */
  lemma MessageDeterminesStatusAndReason(a: Response, b: Response)
    ensures Message(a) == Message(b) ==>
      a.statusCode == b.statusCode && a.reasonPhrase == b.reasonPhrase
  {
    MessageRoundTrip(a);
    MessageRoundTrip(b);
  }

  /** The one emission a request/response pair produces. Its level agrees with its
      fields: INFO exactly when no error field is set, a stack only at WARNING. */
  function Entry(request: Request, response: Response, now: real): (e: Emission)
    ensures e.level == Info <==> ErrorKindKey !in e.extra && ErrorMessageKey !in e.extra
    ensures e.level != Warning ==> ErrorStackKey !in e.extra
  {
    Emission(Level(response.statusCode), Message(response), LogRecord(request, response, now))
  }

  /** The record of a 404 with both start times and a dict payload. */
  lemma NotFoundRecord(request: Request, response: Response, now: real)
    requires request == Request(Some(1000.0))
    requires response == Response(404, "Not Found", Some(1000.25),
                                  Some(DictData(map["detail" := OtherData("no such id")])))
    ensures LogRecord(request, response, now)
      == map[StatusCodeKey := IntValue(404), DurationKey := RealValue(250000000.0),
             ErrorKindKey := IntValue(404), ErrorMessageKey := TextValue("Not Found"),
             ErrorStackKey := PayloadValue(response.data.value)]
  {
    assert DurationNanos(request, response, now) == Some(250000000.0);
    assert LogRecord(request, response, now).Keys
      == {StatusCodeKey, DurationKey, ErrorKindKey, ErrorMessageKey, ErrorStackKey};
  }

  /** A 404 with a duration and a dict payload. */
  lemma ScenarioNotFound(now: real)
    ensures var detail := DictData(map["detail" := OtherData("no such id")]);
      Entry(Request(Some(1000.0)), Response(404, "Not Found", Some(1000.25), Some(detail)), now)
      == Emission(Warning, "HTTP 404 " + "Not Found",
                  map[StatusCodeKey := IntValue(404), DurationKey := RealValue(250000000.0),
                      ErrorKindKey := IntValue(404), ErrorMessageKey := TextValue("Not Found"),
                      ErrorStackKey := PayloadValue(detail)])
  {
    var response := Response(404, "Not Found", Some(1000.25),
                             Some(DictData(map["detail" := OtherData("no such id")])));
    assert Message(response) == "HTTP 404 " + "Not Found" by {
      assert Decimal.IntToString(404) == "404";
      assert "HTTP " + "404" + " " == "HTTP 404 ";
    }
    NotFoundRecord(Request(Some(1000.0)), response, now);
  }

  /** The record of a 500 without a request start time and with list data. */
  lemma ServerErrorRecord(request: Request, response: Response, now: real)
    requires request == Request(None)
    requires response == Response(500, "Internal Server Error", None, Some(ListData([])))
    ensures LogRecord(request, response, now)
      == map[StatusCodeKey := IntValue(500), ErrorKindKey := IntValue(500),
             ErrorMessageKey := TextValue("Internal Server Error")]
  {
    assert LogRecord(request, response, now).Keys == {StatusCodeKey, ErrorKindKey, ErrorMessageKey};
  }

  /** A 500 with no request start time: no duration and no stack, even with a payload. */
  lemma ScenarioServerError(now: real)
    ensures Entry(Request(None), Response(500, "Internal Server Error", None, Some(ListData([]))), now)
      == Emission(Error, "HTTP 500 " + "Internal Server Error",
                  map[StatusCodeKey := IntValue(500), ErrorKindKey := IntValue(500),
                      ErrorMessageKey := TextValue("Internal Server Error")])
  {
    var response := Response(500, "Internal Server Error", None, Some(ListData([])));
    assert Message(response) == "HTTP 500 " + "Internal Server Error" by {
      assert Decimal.IntToString(500) == "500";
      assert "HTTP " + "500" + " " == "HTTP 500 ";
    }
    ServerErrorRecord(Request(None), response, now);
  }

  /** A 200: only the status code. */
  lemma ScenarioOk(now: real)
    ensures Entry(Request(None), Response(200, "OK", None, None), now)
      == Emission(Info, "HTTP 200 " + "OK", map[StatusCodeKey := IntValue(200)])
  {
    var response := Response(200, "OK", None, None);
    assert Message(response) == "HTTP 200 " + "OK" by {
      assert Decimal.IntToString(200) == "200";
      assert "HTTP " + "200" + " " == "HTTP 200 ";
    }
    assert LogRecord(Request(None), response, now) == map[StatusCodeKey := IntValue(200)] by {
      assert LogRecord(Request(None), response, now).Keys == {StatusCodeKey};
    }
  }

  /** The logging facility, seen as an append-only sink of emissions. */
  class LogSink {
    var emitted: seq<Emission>

    constructor ()
      ensures emitted == []
    {
      emitted := [];
    }

    /** `logger.info`, `logger.warning` or `logger.error` with `extra=`. */
    method Emit(level: Severity, message: string, extra: map<string, Value>)
      modifies this
      ensures emitted == old(emitted) + [Emission(level, message, extra)]
    {
      emitted := emitted + [Emission(level, message, extra)];
    }
  }

  /** The upstream handler, tagged with whether it is a coroutine function. */
  datatype Handler =
    | SyncHandler(handle: Request -> Response)
    | AsyncHandler(handle: Request -> Response)

  /** What `__call__` hands back to the framework. */
  datatype CallOutcome =
    | Completed(response: Response)
    | Pending(request: Request)   // the coroutine `__acall__(request)`, not yet awaited
    | NotCallable                 // `get_response` is None: calling it raises TypeError

  class RequestLoggingMiddleware {
    const getResponse: Option<Handler>
    const asyncMode: bool
    const logger: LogSink

    ghost predicate Valid() {
      asyncMode == (getResponse.Some? && getResponse.value.AsyncHandler?)
    }

    constructor (getResponse: Option<Handler>, logger: LogSink)
      ensures Valid()
      ensures this.getResponse == getResponse && this.logger == logger
      ensures asyncMode == (getResponse.Some? && getResponse.value.AsyncHandler?)
    {
      this.getResponse := getResponse;
      this.asyncMode := getResponse.Some? && getResponse.value.AsyncHandler?;
      this.logger := logger;
    }

    /** Builds the record field by field and emits it once, at the level the status selects. */
    method LogResponse(request: Request, response: Response, now: real)
      modifies logger
      ensures logger.emitted == old(logger.emitted) + [Entry(request, response, now)]
    {
      var entry := map[StatusCodeKey := IntValue(response.statusCode)];
      if request.requestStartTime.Some? {
        var responseStart := if response.responseStartTime.Some? then response.responseStartTime.value else now;
        var durationSeconds := responseStart - request.requestStartTime.value;
        entry := entry[DurationKey := RealValue(durationSeconds * NanosPerSecond)];
      }
      if 400 <= response.statusCode < 500 {
        entry := entry[ErrorKindKey := IntValue(response.statusCode)];
        entry := entry[ErrorMessageKey := TextValue(response.reasonPhrase)];
        if response.data.Some? && response.data.value.IsStructured() {
          entry := entry[ErrorStackKey := PayloadValue(response.data.value)];
        }
        assert entry == LogRecord(request, response, now);
        logger.Emit(Warning, Message(response), entry);
      } else if 500 <= response.statusCode < 600 {
        entry := entry[ErrorKindKey := IntValue(response.statusCode)];
        entry := entry[ErrorMessageKey := TextValue(response.reasonPhrase)];
        assert entry == LogRecord(request, response, now);
        logger.Emit(Error, Message(response), entry);
      } else {
        assert entry == LogRecord(request, response, now);
        logger.Emit(Info, Message(response), entry);
      }
    }

    /** The old-style middleware hook: log, then pass the response on unchanged. */
    method ProcessResponse(request: Request, response: Response, now: real) returns (r: Response)
      modifies logger
      ensures r == response
      ensures logger.emitted == old(logger.emitted) + [Entry(request, response, now)]
    {
      LogResponse(request, response, now);
      r := response;
    }

    /** `__call__`: in async mode returns the pending coroutine; otherwise asks
        upstream for the response, logs it once and returns it unchanged. */
    method Call(request: Request, now: real) returns (outcome: CallOutcome)
      requires Valid()
      modifies logger
      ensures asyncMode ==> outcome == Pending(request) && logger.emitted == old(logger.emitted)
      ensures !asyncMode && getResponse.None? ==>
        outcome == NotCallable && logger.emitted == old(logger.emitted)
      ensures !asyncMode && getResponse.Some? ==> getResponse.value.SyncHandler?
      ensures !asyncMode && getResponse.Some? ==>
        var response := getResponse.value.handle(request);
        outcome == Completed(response) &&
        logger.emitted == old(logger.emitted) + [Entry(request, response, now)]
    {
      if asyncMode {
        return Pending(request);
      }
      match getResponse
      case None =>
        outcome := NotCallable;
      case Some(handler) =>
        var response := handler.handle(request);
        LogResponse(request, response, now);
        outcome := Completed(response);
    }
  }

  /** Logging the same exchange twice emits two equal entries: no per-call state. */
  method LogTwice(middleware: RequestLoggingMiddleware, request: Request, response: Response, now: real)
    modifies middleware.logger
    ensures middleware.logger.emitted ==
      old(middleware.logger.emitted) + [Entry(request, response, now), Entry(request, response, now)]
  {
    middleware.LogResponse(request, response, now);
    middleware.LogResponse(request, response, now);
  }
}
