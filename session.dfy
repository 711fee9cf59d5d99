/**
  The monitor session as a value: the fields of `NetworkMonitor` and one
  function per operation that gives the state after it and what it returns.
  The class in network_monitor.dfy is proved to follow these functions, and
  the lemmas at the end state what sequences of operations do.

  Every `System.Timers.Timer` the monitor has made is kept, in order of
  creation; the last one is the `MonitorTimer` handle. A timer the handle no
  longer refers to still runs and still calls the tick handler.
 */
module MonitorSession {
  import opened NetworkProbe

  /** The period of the parameterless `BeginMonitoring`, in milliseconds. */
  const DefaultPeriod: nat := 5000

  datatype Timer = Timer(period: nat, enabled: bool, handlerAttached: bool, disposed: bool)
  {
    /** The timer still fires and still invokes the monitor's tick handler. */
    predicate Live() {
      enabled && handlerAttached && !disposed
    }
  }

  /** An `HttpWebRequest` made for a URI, with caching switched off. */
  datatype Request = Request(uri: Uri)

  /** A notification, in the order the monitor raises them. */
  datatype Event = Started | Updated(args: NetworkMonitorEventArgs) | Stopped

  datatype Session = Session(
    uri: Uri,
    isMonitoring: bool,
    timers: seq<Timer>,
    request: Option<Request>,
    isRequesting: bool,
    events: seq<Event>)
  {
    /** Whenever the monitor is monitoring, `MonitorTimer` is set. */
    predicate Wellformed() {
      isMonitoring ==> |timers| > 0
    }
  }

  /** A state-changing operation's new state and what it returned or threw. */
  datatype Step<+T> = Step(state: Session, result: Raising<T>)

  function Last(timers: seq<Timer>): Timer
    requires |timers| > 0
  {
    timers[|timers| - 1]
  }

  /** `timers` with its last element, the `MonitorTimer` handle, replaced by `t`. */
  function WithLast(timers: seq<Timer>, t: Timer): (r: seq<Timer>)
    requires |timers| > 0
    ensures |r| == |timers| && Last(r) == t
    ensures forall i :: 0 <= i < |timers| - 1 ==> r[i] == timers[i]
  {
    timers[..|timers| - 1] + [t]
  }

  /** `Int32.MaxValue`: the longest interval, in milliseconds, that a timer accepts. */
  const MaxInterval: nat := 0x7FFF_FFFF

  /**
    `MakeTimer`: a new timer, already enabled, with the tick handler attached.
    The `Timer` constructor refuses an interval that is not positive or that
    exceeds `Int32.MaxValue`.
   */
  function MakeTimer(period: nat): (r: Raising<Timer>)
    ensures r.Raised? <==> period == 0 || period > MaxInterval
    ensures r.Raised? ==> r.kind == Argument
    ensures r.Value? ==> r.value.Live() && r.value.period == period
  {
    if 0 < period <= MaxInterval then Value(Timer(period, true, true, false)) else Raised(Argument)
  }

  /** What `WebRequest.Create` does with the scheme of the monitored URI. */
  datatype Creation =
    | Http         // it makes an `HttpWebRequest`
    | NonHttp      // a registered scheme other than HTTP (ftp, file): the `as` cast gives null
    | Unsupported  // no scheme is registered: it throws `NotSupportedException`

  /** `CreateWebRequest`: a request for `uri` with caching switched off, null, or an exception. */
  function CreateWebRequest(uri: Uri, creation: Creation): (r: Raising<Option<Request>>)
    ensures r.Raised? <==> creation.Unsupported?
    ensures r.Raised? ==> r.kind == NotSupported
    ensures r.Value? ==> (r.value.Some? <==> creation.Http?)
    ensures r.Value? && r.value.Some? ==> r.value.value.uri == uri
  {
    match creation
    case Http => Value(Some(Request(uri)))
    case NonHttp => Value(None)
    case Unsupported => Raised(NotSupported)
  }

  /** A monitor right after construction with a non-null URI. */
  function Initial(address: Uri): (s: Session)
    ensures s.Wellformed() && !s.isMonitoring && !s.isRequesting
    ensures s.uri == address && s.timers == [] && s.events == [] && s.request == None
  {
    Session(address, false, [], None, false, [])
  }

  /** The `Uri` constructor, which hands its argument to the `MonitoredUri` setter. */
  function New(address: Option<Uri>): (r: Raising<Session>)
    ensures r.Raised? <==> address.None?
    ensures r.Raised? ==> r.kind == ArgumentNull
    ensures r.Value? ==> r.value == Initial(address.value)
  {
    match address
    case None => Raised(ArgumentNull)
    case Some(a) => Value(Initial(a))
  }

  /** The `MonitoredUri` setter; `None` stands for null. */
  function SetMonitoredUri(s: Session, value: Option<Uri>): (st: Step<()>)
    ensures st.result.Value? <==> !s.isMonitoring && value.Some?
    ensures s.isMonitoring ==> st.result == Raised(InvalidOperation)
    ensures !s.isMonitoring && value.None? ==> st.result == Raised(ArgumentNull)
    ensures st.result.Raised? ==> st.state == s
    ensures st.result.Value? ==> st.state == s.(uri := value.value)
  {
    if !s.isMonitoring then
      if value.Some? then Step(s.(uri := value.value), Value(()))
      else Step(s, Raised(ArgumentNull))
    else
      Step(s, Raised(InvalidOperation))
  }

  /**
    `BeginMonitoring(period)`. `creation` says what `CreateWebRequest` does;
    `outcome`, `requestTime` and `responseTime` describe the initial probe.
   */
  function Begin(s: Session, period: nat, creation: Creation, outcome: Transport, requestTime: int, responseTime: int): (st: Step<bool>)
    ensures s.Wellformed() ==> st.state.Wellformed()
    // already monitoring: false, and no timer, request or notification
    ensures s.isMonitoring ==> st == Step(s, Value(false))
    // an interval the timer refuses: ArgumentException before anything changes
    ensures !s.isMonitoring && MakeTimer(period).Raised? ==> st == Step(s, Raised(Argument))
    // otherwise a live timer is made and started, whatever the request and the probe do
    ensures !s.isMonitoring && MakeTimer(period).Value? ==> st.state.timers == s.timers + [MakeTimer(period).value]
    // true exactly when the timer was made, an HTTP request was made and the initial probe got a response
    ensures st.result == Value(true) <==>
              !s.isMonitoring && MakeTimer(period).Value? && creation.Http?
              && outcome.Returned? && outcome.response.Some?
    // Started fires once, before the probe, exactly when a request was made; never an Updated
    ensures !s.isMonitoring && MakeTimer(period).Value? && creation.Http? ==> st.state.events == s.events + [Started]
    ensures s.isMonitoring || MakeTimer(period).Raised? || !creation.Http? ==> st.state.events == s.events
    // afterwards IsMonitoring is what was returned, or unchanged when something threw
    ensures st.result.Value? ==> st.state.isMonitoring == (s.isMonitoring || st.result.value)
    ensures st.result.Raised? ==>
              && !s.isMonitoring && !st.state.isMonitoring
              && (|| (MakeTimer(period).Raised? && st.result.kind == Argument)
                  || (MakeTimer(period).Value? && creation.Unsupported? && st.result.kind == NotSupported)
                  || (MakeTimer(period).Value? && creation.Http? && outcome.Threw?
                      && !IsTransportFailure(outcome.kind) && st.result.kind == outcome.kind))
    // and each of those exceptions does escape
    ensures !s.isMonitoring && MakeTimer(period).Value? && creation.Unsupported? ==> st.result == Raised(NotSupported)
    ensures !s.isMonitoring && MakeTimer(period).Value? && creation.Http?
            && outcome.Threw? && !IsTransportFailure(outcome.kind)
            ==> st.result == Raised(outcome.kind)
    ensures !s.isMonitoring && MakeTimer(period).Value? && !creation.Unsupported? ==>
              st.state.request == (if creation.Http? then Some(Request(s.uri)) else None)
    ensures creation.Unsupported? ==> st.state.request == s.request
    ensures st.state.uri == s.uri && st.state.isRequesting == s.isRequesting
  {
    if s.isMonitoring then Step(s, Value(false))
    else
      match MakeTimer(period)
      case Raised(k) => Step(s, Raised(k))
      case Value(timer) =>
        var armed := s.(timers := s.timers + [timer]);
        match CreateWebRequest(s.uri, creation)
        case Raised(k) => Step(armed, Raised(k))
        case Value(None) => Step(armed.(request := None), Value(false))
        case Value(Some(req)) =>
          var announced := armed.(request := Some(req), events := s.events + [Started]);
          match Classify(outcome, requestTime, responseTime)
          case Raised(k) => Step(announced, Raised(k))
          case Value(probe) => Step(announced.(isMonitoring := probe.ok), Value(probe.ok))
  }

  /** `StopMonitoring`. It leaves `isMonitoring` as it was. */
  function Stop(s: Session): (st: Step<bool>)
    requires s.Wellformed()
    ensures st.state.Wellformed()
    ensures st.result == Value(s.isMonitoring)
    ensures !s.isMonitoring ==> st.state == s
    // the handler is detached and the timer stopped; Stopped fires once, afterwards
    ensures s.isMonitoring ==>
              && st.state.events == s.events + [Stopped]
              && |st.state.timers| == |s.timers|
              && Last(st.state.timers) == Last(s.timers).(enabled := false, handlerAttached := false)
              && (forall i :: 0 <= i < |s.timers| - 1 ==> st.state.timers[i] == s.timers[i])
    ensures st.state.isMonitoring == s.isMonitoring && st.state.uri == s.uri
    ensures st.state.request == s.request && st.state.isRequesting == s.isRequesting
  {
    if !s.isMonitoring then Step(s, Value(false))
    else
      var t := Last(s.timers);
      var detached := t.(handlerAttached := false);
      var stopped := detached.(enabled := false);
      Step(s.(timers := WithLast(s.timers, stopped), events := s.events + [Stopped]), Value(true))
  }

  /** `Dispose`: when monitoring, `StopMonitoring` and then the timer's disposal. */
  function Dispose(s: Session): (d: Session)
    requires s.Wellformed()
    ensures d.Wellformed()
    ensures !s.isMonitoring ==> d == s
    ensures s.isMonitoring ==>
              && d.events == s.events + [Stopped]
              && |d.timers| == |s.timers|
              && Last(d.timers) == Last(s.timers).(enabled := false, handlerAttached := false, disposed := true)
              && (forall i :: 0 <= i < |s.timers| - 1 ==> d.timers[i] == s.timers[i])
    ensures d.isMonitoring == s.isMonitoring && d.uri == s.uri
    ensures d.request == s.request && d.isRequesting == s.isRequesting
  {
    if s.isMonitoring then
      var stopped := Stop(s);
      if stopped.result == Value(true) then
        var t := Last(stopped.state.timers);
        stopped.state.(timers := WithLast(stopped.state.timers, t.(disposed := true)))
      else stopped.state
    else s
  }

  /**
    The first half of `MonitorTimer_Elapsed`: the unguarded `IsRequesting` test,
    then, under the request lock, the flag is raised and a fresh request made for
    the current URI. The result says whether the tick goes on to probe; an
    exception from `CreateWebRequest` escapes with the flag raised.
   */
  function ElapsedEnter(s: Session, creation: Creation): (st: Step<bool>)
    ensures st.result == Value(false) <==> s.isRequesting
    ensures s.isRequesting ==> st.state == s
    ensures !s.isRequesting && creation.Unsupported? ==>
              st == Step(s.(isRequesting := true), Raised(NotSupported))
    ensures !s.isRequesting && !creation.Unsupported? ==>
              st == Step(s.(isRequesting := true, request := if creation.Http? then Some(Request(s.uri)) else None),
                         Value(true))
  {
    if s.isRequesting then Step(s, Value(false))
    else
      var flagged := s.(isRequesting := true);
      match CreateWebRequest(s.uri, creation)
      case Raised(k) => Step(flagged, Raised(k))
      case Value(req) => Step(flagged.(request := req), Value(true))
  }

  /**
    The second half of `MonitorTimer_Elapsed`, run by the tick that entered:
    the probe, the flag lowered, then one Updated. A null request makes the
    probe throw `NullReferenceException`; that and any exception the probe does
    not swallow leave the lock block before the flag is lowered.
   */
  function ElapsedComplete(s: Session, outcome: Transport, requestTime: int, responseTime: int): (st: Step<()>)
    requires s.isRequesting
    ensures st.result.Value? <==> s.request.Some? && Classify(outcome, requestTime, responseTime).Value?
    ensures st.result.Value? ==>
              && !st.state.isRequesting
              && st.state.events
                 == s.events + [Updated(UpdateArgs(Classify(outcome, requestTime, responseTime).value, s.uri))]
    ensures s.request.None? ==> st == Step(s, Raised(NullReference))
    ensures s.request.Some? && st.result.Raised? ==> st.result.kind == outcome.kind
    ensures st.result.Raised? ==> st.state == s
    ensures st.state.uri == s.uri && st.state.isMonitoring == s.isMonitoring
    ensures st.state.timers == s.timers && st.state.request == s.request
  {
    match s.request
    case None => Step(s, Raised(NullReference))
    case Some(_) =>
      match Classify(outcome, requestTime, responseTime)
      case Raised(k) => Step(s, Raised(k))
      case Value(probe) =>
        var done := s.(isRequesting := false);
        Step(done.(events := s.events + [Updated(UpdateArgs(probe, s.uri))]), Value(()))
  }

  /**
    One whole tick of `MonitorTimer_Elapsed` with nothing interleaved. The
    result says whether the tick probed (true) or was skipped (false).
   */
  function Elapsed(s: Session, creation: Creation, outcome: Transport, requestTime: int, responseTime: int): (st: Step<bool>)
    // a tick while a probe is in flight is skipped and changes nothing
    ensures s.isRequesting ==> st == Step(s, Value(false))
    // otherwise: one probe of a fresh request for the current URI, one Updated, flag lowered
    ensures !s.isRequesting && creation.Http? && Classify(outcome, requestTime, responseTime).Value? ==>
              && st.result == Value(true)
              && !st.state.isRequesting
              && st.state.request == Some(Request(s.uri))
              && st.state.events
                 == s.events + [Updated(UpdateArgs(Classify(outcome, requestTime, responseTime).value, s.uri))]
    // any exception escapes with the flag still raised and no Updated
    ensures !s.isRequesting && !(creation.Http? && Classify(outcome, requestTime, responseTime).Value?) ==>
              && st.result.Raised?
              && st.result.kind == (match creation
                                    case Unsupported => NotSupported
                                    case NonHttp => NullReference
                                    case Http => outcome.kind)
              && st.state.isRequesting
              && st.state.events == s.events
              && st.state.request == (match creation
                                      case Unsupported => s.request
                                      case NonHttp => None
                                      case Http => Some(Request(s.uri)))
    ensures st.state.uri == s.uri && st.state.isMonitoring == s.isMonitoring && st.state.timers == s.timers
  {
    var entered := ElapsedEnter(s, creation);
    if entered.result != Value(true) then entered
    else
      var completed := ElapsedComplete(entered.state, outcome, requestTime, responseTime);
      match completed.result
      case Raised(k) => Step(completed.state, Raised(k))
      case Value(_) => Step(completed.state, Value(true))
  }

  /** One call into the monitor: a public operation, the protected setter, or a tick from a timer. */
  datatype Op =
    | BeginOp(period: nat, creation: Creation, outcome: Transport, requestTime: int, responseTime: int)
    | StopOp
    | DisposeOp
    | SetUriOp(value: Option<Uri>)
    | TickOp(source: nat, creation: Creation, outcome: Transport, requestTime: int, responseTime: int)

  /** The state after `op`. A tick from a timer that is not live cannot happen and changes nothing. */
  function Apply(s: Session, op: Op): (s': Session)
    requires s.Wellformed()
    ensures s'.Wellformed()
  {
    match op
    case BeginOp(period, creation, outcome, t0, t1) => Begin(s, period, creation, outcome, t0, t1).state
    case StopOp => Stop(s).state
    case DisposeOp => Dispose(s)
    case SetUriOp(value) => SetMonitoredUri(s, value).state
    case TickOp(source, creation, outcome, t0, t1) =>
      if source < |s.timers| && s.timers[source].Live() then Elapsed(s, creation, outcome, t0, t1).state else s
  }

  function Run(s: Session, ops: seq<Op>): (s': Session)
    requires s.Wellformed()
    ensures s'.Wellformed()
    decreases |ops|
  {
    if ops == [] then s else Run(Apply(s, ops[0]), ops[1..])
  }

  /**
    `StopMonitoring` and `Dispose` never clear `isMonitoring`: once a start has
    succeeded the monitor reports monitoring forever, and every later
    `BeginMonitoring` returns false without making a timer.
   */
  lemma {:induction false} MonitoringNeverCleared(s: Session, ops: seq<Op>)
    requires s.Wellformed() && s.isMonitoring
    ensures Run(s, ops).isMonitoring
    ensures forall period, creation, outcome, t0, t1 ::
              Begin(Run(s, ops), period, creation, outcome, t0, t1) == Step(Run(s, ops), Value(false))
    decreases |ops|
  {
    if ops != [] {
      MonitoringNeverCleared(Apply(s, ops[0]), ops[1..]);
    }
  }

  /** The notification log only grows. */
  lemma {:induction false} EventsOnlyGrow(s: Session, ops: seq<Op>)
    requires s.Wellformed()
    ensures |s.events| <= |Run(s, ops).events| && Run(s, ops).events[..|s.events|] == s.events
    decreases |ops|
  {
    if ops != [] {
      var next := Apply(s, ops[0]);
      assert |s.events| <= |next.events| && next.events[..|s.events|] == s.events;
      EventsOnlyGrow(next, ops[1..]);
    }
  }

  /**
    A timer that is no longer the `MonitorTimer` handle is never touched again:
    if it is live it keeps invoking the tick handler whatever the caller does.
   */
  lemma {:induction false} OrphanedTimerNeverStops(s: Session, ops: seq<Op>, i: nat)
    requires s.Wellformed() && i < |s.timers| - 1
    ensures i < |Run(s, ops).timers| - 1 && Run(s, ops).timers[i] == s.timers[i]
    decreases |ops|
  {
    if ops != [] {
      OrphanedTimerNeverStops(Apply(s, ops[0]), ops[1..], i);
    }
  }

  /**
    The current timer is never touched while the monitor is not monitoring:
    `StopMonitoring` and `Dispose` do nothing then, and a start either leaves
    the timers alone or makes a new one, which orphans it. So a timer that is
    the handle of a monitor that is not monitoring keeps its state forever.
   */
  lemma {:induction false} IdleTimerNeverStops(s: Session, ops: seq<Op>, i: nat)
    requires s.Wellformed() && i < |s.timers|
    requires i < |s.timers| - 1 || !s.isMonitoring
    ensures i < |Run(s, ops).timers| && Run(s, ops).timers[i] == s.timers[i]
    decreases |ops|
  {
    if ops != [] {
      var next := Apply(s, ops[0]);
      assert i < |next.timers| && next.timers[i] == s.timers[i];
      assert i < |next.timers| - 1 || !next.isMonitoring;
      IdleTimerNeverStops(next, ops[1..], i);
    }
  }

  /**
    A start that makes its timer but does not succeed leaves that timer running
    with the handler attached, and the monitor not monitoring. `StopMonitoring`
    and `Dispose` then do nothing, and no sequence of operations ever stops the
    timer. While each of its ticks makes an HTTP request whose probe throws
    nothing uncaught, the ticks go on raising Updated while the monitor is not
    monitoring (`OneUpdatePerTick`); once one throws, they are skipped for good
    (`EscapedExceptionSilencesTicks`).
   */
  lemma FailedStartLeavesTimerRunning(
    s: Session, period: nat, creation: Creation, outcome: Transport, t0: int, t1: int, ops: seq<Op>)
    requires s.Wellformed() && !s.isMonitoring && 0 < period <= MaxInterval
    requires Begin(s, period, creation, outcome, t0, t1).result != Value(true)
    ensures var failed := Begin(s, period, creation, outcome, t0, t1).state;
      && |failed.timers| == |s.timers| + 1 && Last(failed.timers) == MakeTimer(period).value
      && Last(failed.timers).Live() && !failed.isMonitoring
      && Stop(failed) == Step(failed, Value(false))
      && Dispose(failed) == failed
      && |s.timers| < |Run(failed, ops).timers|
      && Run(failed, ops).timers[|s.timers|] == MakeTimer(period).value
  {
    var failed := Begin(s, period, creation, outcome, t0, t1).state;
    IdleTimerNeverStops(failed, ops, |s.timers|);
  }

  /**
    The inputs of one tick's probe: what `CreateWebRequest` and `GetResponse`
    did and the two clock readings.
   */
  datatype ProbeInput = ProbeInput(creation: Creation, outcome: Transport, requestTime: int, responseTime: int)

  /** The probe ran on an HTTP request and no exception escaped it. */
  predicate Swallowed(p: ProbeInput) {
    p.creation.Http? && Classify(p.outcome, p.requestTime, p.responseTime).Value?
  }

  /** Ticks from one timer, one per probe. */
  function Ticks(source: nat, probes: seq<ProbeInput>): (ops: seq<Op>)
    ensures |ops| == |probes|
  {
    if probes == [] then []
    else
      var p := probes[0];
      [TickOp(source, p.creation, p.outcome, p.requestTime, p.responseTime)] + Ticks(source, probes[1..])
  }

  /** The Updated notification that a tick running the probe `p` raises. */
  function UpdateFor(uri: Uri, p: ProbeInput): Event
    requires Swallowed(p)
  {
    Updated(UpdateArgs(Classify(p.outcome, p.requestTime, p.responseTime).value, uri))
  }

  /** The Updated notifications the given probes should produce, in order. */
  function Updates(uri: Uri, probes: seq<ProbeInput>): (es: seq<Event>)
    requires forall k :: 0 <= k < |probes| ==> Swallowed(probes[k])
    ensures |es| == |probes|
    ensures forall k :: 0 <= k < |probes| ==> es[k] == UpdateFor(uri, probes[k])
  {
    if probes == [] then [] else [UpdateFor(uri, probes[0])] + Updates(uri, probes[1..])
  }

  lemma AppendAssociates<T>(a: seq<T>, b: seq<T>, c: seq<T>)
    ensures (a + b) + c == a + (b + c)
  {
  }

  /** One tick from a live timer with no probe in flight raises the one Updated of its probe. */
  lemma TickRaisesItsUpdate(s: Session, source: nat, p: ProbeInput)
    requires s.Wellformed() && !s.isRequesting
    requires source < |s.timers| && s.timers[source].Live()
    requires Swallowed(p)
    ensures var next := Apply(s, TickOp(source, p.creation, p.outcome, p.requestTime, p.responseTime));
      && next.events == s.events + [UpdateFor(s.uri, p)]
      && !next.isRequesting && next.uri == s.uri && next.timers == s.timers
  {
  }

  /**
    Ticks from a live timer, with no probe in flight and no exception escaping,
    raise exactly one Updated each, in tick order, each carrying its own probe's
    timestamps and response and the monitored URI.
   */
  lemma {:induction false} OneUpdatePerTick(s: Session, source: nat, probes: seq<ProbeInput>)
    requires s.Wellformed() && !s.isRequesting
    requires source < |s.timers| && s.timers[source].Live()
    requires forall k :: 0 <= k < |probes| ==> Swallowed(probes[k])
    ensures Run(s, Ticks(source, probes)).events == s.events + Updates(s.uri, probes)
    ensures !Run(s, Ticks(source, probes)).isRequesting
    decreases |probes|
  {
    if probes != [] {
      var p, rest := probes[0], probes[1..];
      var ops := Ticks(source, probes);
      assert ops[0] == TickOp(source, p.creation, p.outcome, p.requestTime, p.responseTime);
      assert ops[1..] == Ticks(source, rest);
      var next := Apply(s, ops[0]);
      TickRaisesItsUpdate(s, source, p);
      assert forall k :: 0 <= k < |rest| ==> Swallowed(rest[k]) by {
        forall k | 0 <= k < |rest| ensures Swallowed(rest[k]) {
          assert rest[k] == probes[k + 1];
        }
      }
      assert next.uri == s.uri;
      OneUpdatePerTick(next, source, rest);
      assert Run(s, ops) == Run(next, Ticks(source, rest));
      assert Updates(s.uri, probes) == [UpdateFor(s.uri, p)] + Updates(s.uri, rest);
      assert Run(s, ops).events == (s.events + [UpdateFor(s.uri, p)]) + Updates(s.uri, rest);
      AppendAssociates(s.events, [UpdateFor(s.uri, p)], Updates(s.uri, rest));
    } else {
      assert Updates(s.uri, probes) == [];
      assert s.events + [] == s.events;
    }
  }

  /**
    A tick that fires while another tick's probe is in flight is skipped and
    changes nothing; the probing tick then raises the one Updated of that stretch.
   */
  lemma OverlappingTickIsSkipped(s: Session, outcome: Transport, t0: int, t1: int)
    requires !s.isRequesting && Classify(outcome, t0, t1).Value?
    ensures var inFlight := ElapsedEnter(s, Http).state;
      && (forall creation :: ElapsedEnter(inFlight, creation) == Step(inFlight, Value(false)))
      && ElapsedComplete(inFlight, outcome, t0, t1).state.events
         == s.events + [Updated(UpdateArgs(Classify(outcome, t0, t1).value, s.uri))]
  {
  }

  /**
    Nothing lowers a raised `IsRequesting` except the tick that raised it: under
    any sequence of operations it stays raised, and no Updated is raised.
   */
  lemma {:induction false} RaisedFlagStaysRaised(s: Session, ops: seq<Op>)
    requires s.Wellformed() && s.isRequesting
    ensures Run(s, ops).isRequesting
    ensures |s.events| <= |Run(s, ops).events|
    ensures forall k :: |s.events| <= k < |Run(s, ops).events| ==> !Run(s, ops).events[k].Updated?
    decreases |ops|
  {
    if ops != [] {
      var next := Apply(s, ops[0]);
      assert |s.events| <= |next.events|;
      assert forall k :: |s.events| <= k < |next.events| ==> !next.events[k].Updated?;
      RaisedFlagStaysRaised(next, ops[1..]);
      EventsOnlyGrow(next, ops[1..]);
    }
  }

  /**
    When an exception escapes a tick, from `CreateWebRequest` or from the probe,
    `IsRequesting` stays raised for good: no later tick probes and no Updated is
    ever raised again.
   */
  lemma EscapedExceptionSilencesTicks(
    s: Session, creation: Creation, outcome: Transport, t0: int, t1: int, ops: seq<Op>)
    requires s.Wellformed() && !s.isRequesting
    requires Elapsed(s, creation, outcome, t0, t1).result.Raised?
    ensures var escaped := Elapsed(s, creation, outcome, t0, t1).state;
      && escaped.isRequesting && escaped.events == s.events
      && Run(escaped, ops).isRequesting
      && |s.events| <= |Run(escaped, ops).events|
      && forall k :: |s.events| <= k < |Run(escaped, ops).events| ==> !Run(escaped, ops).events[k].Updated?
  {
    var escaped := Elapsed(s, creation, outcome, t0, t1).state;
    assert escaped.Wellformed();
    RaisedFlagStaysRaised(escaped, ops);
  }

  /** Because the flag is never cleared, a second `Dispose` stops again and notifies again. */
  lemma DisposeTwiceStopsTwice(s: Session)
    requires s.Wellformed() && s.isMonitoring
    ensures Dispose(Dispose(s)).events == s.events + [Stopped, Stopped]
    ensures Stop(Dispose(s)).result == Value(true)
    ensures !Last(Dispose(Dispose(s)).timers).Live()
  {
  }
}
