# NetworkMonitor, modelled in Dafny

This project models the monitor session of `NetworkMonitoring.NetworkMonitor`.
A monitor is bound to one URI. `BeginMonitoring` starts a `System.Timers.Timer`
and runs one initial probe. Each timer tick runs one more probe. Every probe is
an HTTP GET with caching switched off. The monitor raises `MonitoringStarted`,
`Updated` and `MonitoringStopped` notifications. An `Updated` carries a
`NetworkMonitorEventArgs` record with the two timestamps, the URI and the
response, if there was one.

Files:

- `probe.dfy` (module `NetworkProbe`): the transport outcome as an input.
  `Classify` specifies how `TryGetResponse` sorts that outcome, and both
  `TryGetResponse` overloads are methods that set the source's local flags
  step by step. It also holds `NetworkMonitorEventArgs` with its derived getters.
- `session.dfy` (module `MonitorSession`): the monitor's fields as a value
  (`Session`) and one function per operation, giving the new state and what
  the operation returns or throws. Lemmas about sequences of operations
  (`Run`) follow.
- `network_monitor.dfy` (module `NetworkMonitoring`): the class
  `NetworkMonitor`. Its fields are updated in place in the source's statement
  order. Each method is proved to match the corresponding `MonitorSession`
  function.

How the model represents things:

- The monitor keeps every timer it has made, oldest first. The last timer is
  the `MonitorTimer` handle. A tick is a call of `MonitorTimerElapsed` by a
  timer that is still live, meaning enabled, handler attached and not disposed.
- The tick handler is split where another tick can observe it. `ElapsedEnter`
  covers the unguarded `IsRequesting` test, raising the flag and creating the
  request. `ElapsedComplete` covers the probe, lowering the flag and `Updated`.
  `Elapsed` is the two run back to back.
- `events` records the notifications in the order raised, meaning what every
  subscriber receives. With no subscriber nothing is observable, so the source's
  null-handler checks are not modelled.
- Null is `None` in `Option`. A thrown exception is `Raised(kind)` in `Raising`.

The code has these quirks, and the model keeps them:

- `StopMonitoring` and `Dispose` never clear `isMonitoring`. The only write is
  NetworkMonitorTest/NetworkMonitor.cs:111. So after a stop the monitor still
  reports monitoring and a second stop returns true again. Every later
  `BeginMonitoring` returns false (`MonitoringNeverCleared`). A second `Dispose`
  stops again and raises a second Stopped (`DisposeTwiceStopsTwice`).
- `BeginMonitoring` creates and starts the timer before the initial probe and
  raises Started before it too. A failed start leaves that timer running, and
  nothing in the API can stop it afterwards (`FailedStartLeavesTimerRunning`,
  `OrphanedTimerNeverStops`).
- `GetResponse` throws `WebException` for a non-2xx status, and `TryGetResponse`
  catches it. Such a probe is reported as "no response".
- `BeginMonitoring` makes and starts the timer before `CreateWebRequest` is
  called. If the timer refuses the period, `ArgumentException` escapes before
  any state changes. If `WebRequest.Create` finds no handler for the URI's
  scheme, `NotSupportedException` escapes with the new timer already running.
- A tick assigns `Request` from `CreateWebRequest` after raising `IsRequesting`.
  A registered scheme other than HTTP gives a null request, and the probe then
  throws `NullReferenceException`. That exception and `NotSupportedException`
  from `WebRequest.Create` both escape with the flag raised.
- If `GetResponse` returns something that is not an `HttpWebResponse`, the
  update has a response timestamp and a duration but no response
  (`NullResponseStillTimed`).
- An exception that escapes a tick leaves the tick's lock block before
  `IsRequesting` is lowered. The flag is never lowered after that, and every
  later tick is skipped (`EscapedExceptionSilencesTicks`).

## Model

| member | source | states |
|---|---|---|
| NetworkProbe.Classify | NetworkMonitorTest/NetworkMonitor.cs:163-198 | Exactly the exceptions outside ProtocolViolation, Web, InvalidOperation and NotSupported propagate, with their class unchanged. Otherwise the result is true iff a response is handed back. The request timestamp is the first clock reading. A response always comes with the second clock reading. A caught failure gives false, no response and no response timestamp. |
| NetworkProbe.TryGetResponseTimed | NetworkMonitorTest/NetworkMonitor.cs:163-198 | The flag-by-flag implementation returns exactly the classification of `Classify`. |
| NetworkProbe.TryGetResponse | NetworkMonitorTest/NetworkMonitor.cs:155-161 | The untimed overload propagates the same exceptions. Its result is true iff its response is non-null, and that response is whatever `GetResponse` returned, or null on a caught failure. |
| NetworkProbe.IsTransportFailure | NetworkMonitorTest/NetworkMonitor.cs:179-190 | A probe catches exactly ProtocolViolationException, WebException, InvalidOperationException and NotSupportedException, each with its subclasses. |
| NetworkProbe.NetworkMonitorEventArgs.HasResponseTimestamp | NetworkMonitorTest/NetworkMonitor.cs:280-286 | It holds iff the record carries a response timestamp. |
| NetworkProbe.NetworkMonitorEventArgs.ReceivedResponse | NetworkMonitorTest/NetworkMonitor.cs:308-314 | It holds iff the record carries a response. |
| NetworkProbe.UpdateArgs | NetworkMonitorTest/NetworkMonitor.cs:242 | The record a tick builds holds the probe's request timestamp, response timestamp and response, and the monitored URI as identifier. `ReceivedResponse` and `HasResponseTimestamp` hold iff the probe produced a response and a response time. |
| NetworkProbe.NetworkMonitorEventArgs.RequestDuration | NetworkMonitorTest/NetworkMonitor.cs:288-300 | It is defined iff `HasResponseTimestamp`, and then it is the response timestamp minus the request timestamp. Otherwise it throws InvalidOperationException. |
| NetworkProbe.UpdateArgsReflectProbe | NetworkMonitorTest/NetworkMonitor.cs:280-314 | For an update built from a probe, `ReceivedResponse` holds iff the probe returned true. A received response implies `HasResponseTimestamp`, with the duration equal to the gap between the two clock readings. A caught exception gives no response and a duration that throws. The identifier is the URI passed in. |
| NetworkProbe.NullResponseStillTimed | NetworkMonitorTest/NetworkMonitor.cs:175-195 | When `GetResponse` returns a non-HTTP result, the update has a response timestamp and a duration but `ReceivedResponse` is false. |
| MonitorSession.MakeTimer | NetworkMonitorTest/NetworkMonitor.cs:206-214 | A period of 0 or above `Int32.MaxValue` ms throws ArgumentException. Otherwise the new timer has the requested period, is enabled and has the tick handler attached. |
| MonitorSession.CreateWebRequest | NetworkMonitorTest/NetworkMonitor.cs:142-153 | An unregistered scheme throws NotSupportedException. Otherwise the result is a request for the given URI iff the scheme is HTTP, and null for any other registered scheme. |
| MonitorSession.Initial | NetworkMonitorTest/NetworkMonitor.cs:27-30 | A new monitor is bound to the given URI. It is not monitoring or requesting and has no timer, no request and no notification. |
| MonitorSession.New | NetworkMonitorTest/NetworkMonitor.cs:27-52 | Construction with null throws ArgumentNullException. Otherwise it gives the initial monitor for that URI. |
| MonitorSession.SetMonitoredUri | NetworkMonitorTest/NetworkMonitor.cs:41-52 | While monitoring, any assignment throws InvalidOperationException, null included. Otherwise null throws ArgumentNullException. The URI changes iff neither applies, and after a throw the state is unchanged. |
| MonitorSession.Begin | NetworkMonitorTest/NetworkMonitor.cs:93-117 | While monitoring it returns false and changes nothing. A period the timer refuses throws ArgumentException before any change. Otherwise a live timer with the given period is always appended, even when request creation or the probe throws afterwards. The result is true iff the timer was made, an HTTP request was made and the initial probe got a response. If an HTTP request was made, exactly one Started is appended, and otherwise no notification. Never an Updated. Afterwards `isMonitoring` equals the returned value. Exactly these exceptions escape, each in its own case: ArgumentException for a refused period, NotSupportedException for an unregistered scheme, and an uncaught exception from the initial probe. Each leaves the monitor not monitoring. |
| MonitorSession.Stop | NetworkMonitorTest/NetworkMonitor.cs:119-138 | It returns `isMonitoring`. When that is false nothing changes. Otherwise the current timer's handler is detached and the timer stopped, other timers are untouched, exactly one Stopped is appended, and `isMonitoring` is left true. |
| MonitorSession.Dispose | NetworkMonitorTest/NetworkMonitor.cs:247-254 | When not monitoring nothing changes. Otherwise it does what `Stop` does, including the Stopped notification, and also disposes the current timer. |
| MonitorSession.ElapsedEnter | NetworkMonitorTest/NetworkMonitor.cs:224-236 | A tick that finds `IsRequesting` set is skipped and changes nothing. Otherwise it raises the flag. It then stores a fresh request for the current URI, or null for a non-HTTP scheme, or throws NotSupportedException with the flag raised and the old request kept. |
| MonitorSession.ElapsedComplete | NetworkMonitorTest/NetworkMonitor.cs:236-242 | A null request throws NullReferenceException and changes nothing. After a caught or absent probe exception the flag is lowered and exactly one Updated is appended, carrying the probe's timestamps, its response and the monitored URI. An uncaught exception propagates, leaves the flag raised and appends nothing. |
| MonitorSession.Elapsed | NetworkMonitorTest/NetworkMonitor.cs:224-244 | A tick while `IsRequesting` is set is skipped and appends nothing. Otherwise, for an HTTP URI whose probe throws nothing uncaught, it runs one probe on a fresh request for the current URI. It then appends exactly one Updated for that probe and leaves `IsRequesting` false. In every other case it throws NotSupportedException, NullReferenceException or the probe's exception, leaves the flag raised and appends nothing. The request is then kept, null or the fresh one, respectively. The lifecycle flag, timers and URI are untouched. |
| MonitorSession.TickRaisesItsUpdate | NetworkMonitorTest/NetworkMonitor.cs:224-244 | One tick from a live timer with no probe in flight appends that probe's one Updated and leaves the flag, URI and timers as a later tick needs them. |
| MonitorSession.OneUpdatePerTick | NetworkMonitorTest/NetworkMonitor.cs:224-244 | Any number of ticks from a live timer, with no exception escaping, append exactly one Updated per tick, in tick order. Each carries its own probe's result. |
| MonitorSession.OverlappingTickIsSkipped | NetworkMonitorTest/NetworkMonitor.cs:224-239 | A tick arriving while another tick's probe is in flight is skipped without effect. The stretch yields exactly one Updated. |
| MonitorSession.RaisedFlagStaysRaised | NetworkMonitorTest/NetworkMonitor.cs:224-239 | Once `IsRequesting` is raised with no tick completing, it stays raised under any operations, and no Updated is ever appended again. |
| MonitorSession.EscapedExceptionSilencesTicks | NetworkMonitorTest/NetworkMonitor.cs:224-239 | After a tick from which an exception escapes, `IsRequesting` is raised and the tick added no notification. Under any later operations the flag stays raised and no Updated is ever appended. |
| MonitorSession.MonitoringNeverCleared | NetworkMonitorTest/NetworkMonitor.cs:97-138 | Once `isMonitoring` is true it stays true under any sequence of operations, and every later `BeginMonitoring` returns false without effect. |
| MonitorSession.EventsOnlyGrow | NetworkMonitorTest/NetworkMonitor.cs:93-254 | No sequence of operations removes or reorders a notification already raised. |
| MonitorSession.OrphanedTimerNeverStops | NetworkMonitorTest/NetworkMonitor.cs:97-131 | A timer that is no longer the `MonitorTimer` handle is unchanged by any sequence of operations. |
| MonitorSession.IdleTimerNeverStops | NetworkMonitorTest/NetworkMonitor.cs:97-131 | A timer that is orphaned, or is the current handle of a monitor that is not monitoring, is unchanged by any sequence of operations. |
| MonitorSession.FailedStartLeavesTimerRunning | NetworkMonitorTest/NetworkMonitor.cs:97-116 | After a start with a valid period that does not return true, the new timer is live and the monitor is not monitoring. `StopMonitoring` returns false without effect, and so does `Dispose`. Under any later operations that timer stays as it was made, so it is never stopped. |
| MonitorSession.DisposeTwiceStopsTwice | NetworkMonitorTest/NetworkMonitor.cs:247-254 | On a monitoring monitor, two `Dispose` calls raise two Stopped notifications. A stop after one `Dispose` still returns true. |
| NetworkMonitoring.NetworkMonitor.constructor | NetworkMonitorTest/NetworkMonitor.cs:27-30 | The new object's state is `Initial(address)`. |
| NetworkMonitoring.NetworkMonitor.MonitoredUri | NetworkMonitorTest/NetworkMonitor.cs:34-39 | The getter returns the bound URI. While monitoring, no assignment through the setter changes it. |
| NetworkMonitoring.NetworkMonitor.IsMonitoring | NetworkMonitorTest/NetworkMonitor.cs:59-67 | The getter returns the lifecycle flag. A monitor that reports monitoring has a timer. |
| NetworkMonitoring.NetworkMonitor.IsRequesting | NetworkMonitorTest/NetworkMonitor.cs:218-222 | The getter returns the flag, and it holds iff a tick arriving now is skipped. |
| NetworkMonitoring.NetworkMonitor.SetMonitoredUri | NetworkMonitorTest/NetworkMonitor.cs:41-52 | The in-place setter yields the new state and result of `MonitorSession.SetMonitoredUri`. |
| NetworkMonitoring.NetworkMonitor.BeginMonitoring | NetworkMonitorTest/NetworkMonitor.cs:88-91 | The parameterless overload behaves as `Begin` with a period of 5000 ms. |
| NetworkMonitoring.NetworkMonitor.BeginMonitoringEvery | NetworkMonitorTest/NetworkMonitor.cs:93-117 | The in-place implementation yields the new state and result of `Begin`. |
| NetworkMonitoring.NetworkMonitor.StopMonitoring | NetworkMonitorTest/NetworkMonitor.cs:119-138 | The in-place implementation yields the new state and result of `Stop`. |
| NetworkMonitoring.NetworkMonitor.Dispose | NetworkMonitorTest/NetworkMonitor.cs:247-254 | The in-place implementation yields the new state of `MonitorSession.Dispose`. |
| NetworkMonitoring.NetworkMonitor.ElapsedEnter | NetworkMonitorTest/NetworkMonitor.cs:224-236 | The in-place implementation follows `MonitorSession.ElapsedEnter`. |
| NetworkMonitoring.NetworkMonitor.ElapsedComplete | NetworkMonitorTest/NetworkMonitor.cs:236-242 | The in-place implementation follows `MonitorSession.ElapsedComplete`. |
| NetworkMonitoring.NetworkMonitor.MonitorTimerElapsed | NetworkMonitorTest/NetworkMonitor.cs:224-244 | A tick delivered by a live timer follows `Elapsed`. |

## Left out

- The HTTP transport is an input. That covers `WebRequest.Create`, the cache policy, `GetResponse` and closing the response. A `Creation` value says what `WebRequest.Create` did with the URI's scheme, and a `Transport` value says what `GetResponse` did.
- The clock is an input. `DateTime.Now` readings are integers, and `TimeSpan` is integer subtraction.
- The timer period is a natural number of milliseconds rather than a `Double`. So negative, fractional and NaN periods are not modelled. The timer's refusal of 0 and of values above `Int32.MaxValue` is modelled.
- Timer scheduling and threads are not modelled. A tick is an explicit call by a live timer.
- The locks `MonitoringLock` and `requestLock` are not modelled. The model is sequential. It interleaves another tick only at the point where the unguarded `IsRequesting` test can observe a probe in flight. The race where two ticks both pass that test before either takes `requestLock` is not modelled.
- The `String` constructor parses its argument with `new Uri(address)`, a library call. URIs are opaque strings, and the model has only the `Uri` constructor.
- Subscribing and unsubscribing handlers are not modelled. Neither is the null-handler check before each notification, nor the order in which several subscribers are called. The notification log stands for what each subscriber sees.
- NetworkMonitorTest/Program.cs is the console entry point. It only wires handlers and prints, and is not part of this model.
