/**
  `NetworkMonitor` as an object whose methods update its fields in place, in
  the order the source does. Each method is proved to leave the object in the
  state, and to return the value, that the matching function of
  `MonitorSession` gives; the properties of those functions are proved there.

  Inputs stand for what the monitor reads from outside: what `CreateWebRequest`
  did with the URI's scheme, what `GetResponse` did, and the two clock readings
  around it.
 */
module NetworkMonitoring {
  import opened NetworkProbe
  import opened MonitorSession

  class NetworkMonitor {
    var monitoredUri: Uri
    var isMonitoring: bool
    /** Every timer made so far, oldest first; the last one is `MonitorTimer`. */
    var timers: seq<Timer>
    var request: Option<Request>
    var isRequesting: bool
    /** The notifications raised so far, in order: what every subscriber receives. */
    var events: seq<Event>

    ghost function State(): Session
      reads this
    {
      Session(monitoredUri, isMonitoring, timers, request, isRequesting, events)
    }

    ghost predicate Valid()
      reads this
    {
      State().Wellformed()
    }

    /** The `Uri` constructor with a non-null address; `New` gives the null case. */
    constructor (address: Uri)
      ensures Valid() && State() == Initial(address)
    {
      monitoredUri := address;
      isMonitoring := false;
      timers := [];
      request := None;
      isRequesting := false;
      events := [];
    }

    /** The address that every probe is sent to. */
    function MonitoredUri(): (uri: Uri)
      reads this
      ensures uri == State().uri
      ensures forall value :: isMonitoring ==> MonitorSession.SetMonitoredUri(State(), value).state.uri == uri
    {
      monitoredUri
    }

    /** Whether the last start succeeded; a monitor that is monitoring has a timer. */
    function IsMonitoring(): (monitoring: bool)
      reads this
      ensures monitoring == State().isMonitoring
      ensures Valid() && monitoring ==> |timers| > 0
    {
      isMonitoring
    }

    /** Whether a tick is between raising the flag and lowering it; a tick seeing it raised is skipped. */
    function IsRequesting(): (requesting: bool)
      reads this
      ensures requesting == State().isRequesting
      ensures forall creation :: requesting <==> MonitorSession.ElapsedEnter(State(), creation).result == Value(false)
    {
      isRequesting
    }

    /** The `MonitoredUri` setter; `None` stands for null. */
    method SetMonitoredUri(value: Option<Uri>) returns (r: Raising<()>)
      requires Valid()
      modifies this
      ensures Valid()
      ensures Step(State(), r) == MonitorSession.SetMonitoredUri(old(State()), value)
    {
      if !isMonitoring {
        if value.Some? {
          monitoredUri := value.value;
          r := Value(());
        } else {
          r := Raised(ArgumentNull);
        }
      } else {
        r := Raised(InvalidOperation);
      }
    }

    /** The parameterless `BeginMonitoring`: a period of five seconds. */
    method BeginMonitoring(creation: Creation, outcome: Transport, requestTime: int, responseTime: int)
      returns (r: Raising<bool>)
      requires Valid()
      modifies this
      ensures Valid()
      ensures Step(State(), r) == Begin(old(State()), DefaultPeriod, creation, outcome, requestTime, responseTime)
    {
      r := BeginMonitoringEvery(DefaultPeriod, creation, outcome, requestTime, responseTime);
    }

    /** `BeginMonitoring(monitorUpdateFrequency_ms)`. */
    method BeginMonitoringEvery(period: nat, creation: Creation, outcome: Transport, requestTime: int, responseTime: int)
      returns (r: Raising<bool>)
      requires Valid()
      modifies this
      ensures Valid()
      ensures Step(State(), r) == Begin(old(State()), period, creation, outcome, requestTime, responseTime)
    {
      r := Value(false);
      if !isMonitoring {
        var timer := MakeTimer(period);
        if timer.Raised? {
          return Raised(timer.kind);
        }
        timers := timers + [timer.value.(enabled := true)];
        var created := CreateWebRequest(monitoredUri, creation);
        if created.Raised? {
          return Raised(created.kind);
        }
        request := created.value;
        if request.Some? {
          events := events + [Started];
          var reply := TryGetResponse(outcome, requestTime, responseTime);
          match reply {
            case Raised(k) =>
              return Raised(k);
            case Value(received) =>
              isMonitoring := received.ok;
              r := Value(received.ok);
          }
        }
      }
    }

    method StopMonitoring() returns (r: bool)
      requires Valid()
      modifies this
      ensures Valid()
      ensures Step(State(), Value(r)) == Stop(old(State()))
    {
      r := false;
      if isMonitoring {
        timers := WithLast(timers, Last(timers).(handlerAttached := false));
        timers := WithLast(timers, Last(timers).(enabled := false));
        r := true;
      }
      if r {
        events := events + [Stopped];
      }
    }

    method Dispose()
      requires Valid()
      modifies this
      ensures Valid()
      ensures State() == MonitorSession.Dispose(old(State()))
    {
      if isMonitoring {
        var stopped := StopMonitoring();
        if stopped {
          timers := WithLast(timers, Last(timers).(disposed := true));
        }
      }
    }

    /** `MonitorTimer_Elapsed` up to the request: the unguarded test, then the flag and a fresh request. */
    method ElapsedEnter(creation: Creation) returns (r: Raising<bool>)
      requires Valid()
      modifies this
      ensures Valid()
      ensures Step(State(), r) == MonitorSession.ElapsedEnter(old(State()), creation)
    {
      if isRequesting {
        return Value(false);
      }
      isRequesting := true;
      var created := CreateWebRequest(monitoredUri, creation);
      if created.Raised? {
        return Raised(created.kind);
      }
      request := created.value;
      r := Value(true);
    }

    /** The rest of `MonitorTimer_Elapsed`, run by the tick that entered. */
    method ElapsedComplete(outcome: Transport, requestTime: int, responseTime: int) returns (r: Raising<()>)
      requires Valid() && isRequesting
      modifies this
      ensures Valid()
      ensures Step(State(), r) == MonitorSession.ElapsedComplete(old(State()), outcome, requestTime, responseTime)
    {
      if request.None? {
        return Raised(NullReference);
      }
      var probe := TryGetResponseTimed(outcome, requestTime, responseTime);
      match probe {
        case Raised(k) =>
          return Raised(k);
        case Value(p) =>
          isRequesting := false;
          events := events + [Updated(UpdateArgs(p, monitoredUri))];
          r := Value(());
      }
    }

    /**
      `MonitorTimer_Elapsed`, invoked by the timer `sender`, which must still be
      live. The result says whether the tick probed or was skipped.
     */
    method MonitorTimerElapsed(sender: nat, creation: Creation, outcome: Transport, requestTime: int, responseTime: int)
      returns (r: Raising<bool>)
      requires Valid()
      requires sender < |timers| && timers[sender].Live()
      modifies this
      ensures Valid()
      ensures Step(State(), r) == Elapsed(old(State()), creation, outcome, requestTime, responseTime)
    {
      var entered := ElapsedEnter(creation);
      if entered != Value(true) {
        return entered;
      }
      var completed := ElapsedComplete(outcome, requestTime, responseTime);
      r := if completed.Raised? then Raised(completed.kind) else Value(true);
    }
  }
}
