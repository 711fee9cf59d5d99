/**
  The prober of the network monitor: one HTTP GET against the monitored URI,
  classified into "a response arrived" or "no response", and the record that
  carries a probe's result to observers.

  The HTTP transport is not modelled. What `HttpWebRequest.GetResponse` did is
  an input (`Transport`), and the two readings of the clock that bracket the
  call are integer inputs.
 */
module NetworkProbe {

  datatype Option<+T> = None | Some(value: T)

  /** A parsed, non-null URI; its syntax is not modelled. */
  type Uri = string

  /** An HTTP response handle; only its status code is visible to observers. */
  datatype Response = Response(statusCode: int)

  /**
    The exception classes that the monitor raises, catches or lets through.
    Each kind stands for the class and its subclasses that no kind above it in
    this list covers: `InvalidOperation` is any other `InvalidOperationException`
    (such as `ObjectDisposedException`), `NotSupported` any `NotSupportedException`
    (such as `PlatformNotSupportedException`). `Other` is a class outside all the
    named hierarchies.
   */
  datatype ExceptionKind =
    | ProtocolViolation   // ProtocolViolationException
    | WebFailure          // WebException: DNS, refused connection, timeout, non-2xx status
    | InvalidOperation    // InvalidOperationException
    | NotSupported        // NotSupportedException
    | ArgumentNull        // ArgumentNullException
    | Argument            // ArgumentException other than ArgumentNullException
    | NullReference       // NullReferenceException
    | Other(name: string) // any class outside the hierarchies above

  /** The exception classes that a probe swallows and reports as "no response". */
  function IsTransportFailure(k: ExceptionKind): (caught: bool)
    ensures caught <==> k in {ProtocolViolation, WebFailure, InvalidOperation, NotSupported}
  {
    k.ProtocolViolation? || k.WebFailure? || k.InvalidOperation? || k.NotSupported?
  }

  /** A computation that yields a value or throws an exception of the given class. */
  datatype Raising<+T> = Value(value: T) | Raised(kind: ExceptionKind)

  /**
    What one call of `GetResponse` did: it returned (a response, or null when the
    result is not an `HttpWebResponse`), or it threw.
   */
  datatype Transport = Returned(response: Option<Response>) | Threw(kind: ExceptionKind)

  /** The out-parameters and the return value of the timed `TryGetResponse`. */
  datatype Probe = Probe(ok: bool, response: Option<Response>, requestTimestamp: int, responseTimestamp: Option<int>)

  /** The out-parameter and the return value of the untimed `TryGetResponse`. */
  datatype Reply = Reply(ok: bool, response: Option<Response>)

  /**
    The classification of one probe. `requestTime` is the clock reading taken
    just before the request is issued, `responseTime` the one taken just after
    `GetResponse` returns.
   */
  function Classify(outcome: Transport, requestTime: int, responseTime: int): (r: Raising<Probe>)
    // exactly the exceptions outside the four transport failures propagate, unchanged
    ensures r.Raised? <==> outcome.Threw? && !IsTransportFailure(outcome.kind)
    ensures r.Raised? ==> r.kind == outcome.kind
    // the result is true exactly when a response is handed back
    ensures r.Value? ==> (r.value.ok <==> r.value.response.Some?)
    ensures r.Value? ==> r.value.requestTimestamp == requestTime
    // a response never comes without the time it arrived
    ensures r.Value? && r.value.response.Some? ==> r.value.responseTimestamp == Some(responseTime)
    // a swallowed transport failure leaves no response and no response time
    ensures outcome.Threw? && IsTransportFailure(outcome.kind) ==>
              r.Value? && !r.value.ok && r.value.response.None? && r.value.responseTimestamp.None?
    // when GetResponse returns, whatever it returned is passed on, with its arrival time
    ensures outcome.Returned? ==>
              r.Value? && r.value.response == outcome.response && r.value.responseTimestamp == Some(responseTime)
  {
    match outcome
    case Returned(response) => Value(Probe(response.Some?, response, requestTime, Some(responseTime)))
    case Threw(k) =>
      if IsTransportFailure(k) then Value(Probe(false, None, requestTime, None)) else Raised(k)
  }

  /**
    The timed `TryGetResponse`: the flags of the source are set one by one as
    the call proceeds. Closing the response is I/O and is not modelled.
   */
  method TryGetResponseTimed(outcome: Transport, requestTime: int, responseTime: int) returns (r: Raising<Probe>)
    ensures r == Classify(outcome, requestTime, responseTime)
  {
    var responseReceived := false;
    var receivedResponse: Option<Response> := None;
    var responseTimeRead: Option<int> := None;
    var requestTimestamp := requestTime;
    match outcome {
      case Returned(response) =>
        receivedResponse := response;
        responseTimeRead := Some(responseTime);
        responseReceived := true;
      case Threw(k) =>
        if !IsTransportFailure(k) {
          return Raised(k);
        }
    }
    var result := responseReceived && receivedResponse.Some?;
    r := Value(Probe(result, receivedResponse, requestTimestamp, responseTimeRead));
  }

  /** The untimed `TryGetResponse`: the timed one with its timestamps dropped. */
  method TryGetResponse(outcome: Transport, requestTime: int, responseTime: int) returns (r: Raising<Reply>)
    ensures r.Raised? <==> outcome.Threw? && !IsTransportFailure(outcome.kind)
    ensures r.Raised? ==> r.kind == outcome.kind
    ensures r.Value? ==> (r.value.ok <==> r.value.response.Some?)
    ensures r.Value? ==> r.value.response == (if outcome.Returned? then outcome.response else None)
  {
    var timed := TryGetResponseTimed(outcome, requestTime, responseTime);
    match timed {
      case Raised(k) => r := Raised(k);
      case Value(probe) => r := Value(Reply(probe.ok, probe.response));
    }
  }

  /** The record passed to observers of an update. It is never changed after construction. */
  datatype NetworkMonitorEventArgs = NetworkMonitorEventArgs(
    requestTimestamp: int,
    responseTimestamp: Option<int>,
    identifier: Uri,
    response: Option<Response>)
  {
    function HasResponseTimestamp(): (has: bool)
      ensures has <==> responseTimestamp.Some?
    {
      responseTimestamp != None
    }

    /** The round-trip time; asking for it without a response time throws. */
    function RequestDuration(): (r: Raising<int>)
      ensures r.Value? <==> HasResponseTimestamp()
      ensures r.Value? ==> requestTimestamp + r.value == responseTimestamp.value
      ensures r.Raised? ==> r.kind == InvalidOperation
    {
      if HasResponseTimestamp() then Value(responseTimestamp.value - requestTimestamp)
      else Raised(InvalidOperation)
    }

    function ReceivedResponse(): (received: bool)
      ensures received <==> response.Some?
    {
      response != None
    }
  }

  /** The update record built from a probe's out-parameters, as a tick builds it. */
  function UpdateArgs(probe: Probe, identifier: Uri): (args: NetworkMonitorEventArgs)
    ensures args.requestTimestamp == probe.requestTimestamp && args.identifier == identifier
    ensures args.ReceivedResponse() <==> probe.response.Some?
    ensures args.HasResponseTimestamp() <==> probe.responseTimestamp.Some?
    ensures args.response == probe.response && args.responseTimestamp == probe.responseTimestamp
  {
    NetworkMonitorEventArgs(probe.requestTimestamp, probe.responseTimestamp, identifier, probe.response)
  }

  /**
    What an observer can read off an update: it received a response exactly when
    the probe succeeded; a received response always has a duration, the time
    between the two clock readings; a swallowed failure has neither.
   */
  lemma UpdateArgsReflectProbe(outcome: Transport, requestTime: int, responseTime: int, identifier: Uri)
    requires Classify(outcome, requestTime, responseTime).Value?
    ensures var args := UpdateArgs(Classify(outcome, requestTime, responseTime).value, identifier);
      && (args.ReceivedResponse() <==> Classify(outcome, requestTime, responseTime).value.ok)
      && (args.ReceivedResponse() ==>
            args.HasResponseTimestamp() && args.RequestDuration() == Value(responseTime - requestTime))
      && (outcome.Threw? ==> !args.ReceivedResponse() && args.RequestDuration() == Raised(InvalidOperation))
      && args.identifier == identifier
  {
  }

  /**
    The one case where the two getters disagree: `GetResponse` returned but its
    result is not an `HttpWebResponse`. The update then has a response time and a
    duration but no response.
   */
  lemma NullResponseStillTimed(requestTime: int, responseTime: int, identifier: Uri)
    ensures var args := UpdateArgs(Classify(Returned(None), requestTime, responseTime).value, identifier);
      !args.ReceivedResponse() && args.HasResponseTimestamp()
      && args.RequestDuration() == Value(responseTime - requestTime)
  {
  }
}
