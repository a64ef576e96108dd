# AutoOfficeDaemon store, modelled in Dafny

AutoOfficeDaemon is a macOS menu-bar daemon. It reports the display's sleep/wake
state to a home-automation hub over an HTTP webhook in the
homebridge-http-webhooks format
(`http://<address>:<port>/?accessoryId=<name>&state=true|false`). It also runs a
small HTTP server, and the hub calls that server to read the state
(`/status`) or to put the display to sleep or wake it (`/sleep`, `/wake`).
All of the daemon's logic is in one object, `AODStore`, which holds:

- the nine persisted settings, kept in the user-defaults store;
- the sleep/wake state, with the timer that delays the sleep report;
- the embedded server, with its start, stop and retry-after-failure lifecycle.

This project models that object in two layers:

- **Specification** (`Daemon`, in `daemon.dfy`). The store's state is a
  `State` value. Every operation is a function from the old state to the new
  one. Effects on the outside world are recorded instead of performed:
  - each display-power request is appended to `displayRequests`;
  - each webhook request's URL is appended to `reports`, and counted in
    `pendingReports` until its answer arrives (`CompleteReport`).

  The outcome of binding the listening socket, the answer to a webhook
  request and the expiry of a timer are inputs.
- **Implementation** (`AutoOfficeDaemon.AODStore`, in `store.dfy`). A class
  with the source's own fields, whose methods update them step by step.
  Every method is proved to leave the object exactly in the state that the
  matching `Daemon` function gives for the old state (`Snapshot()`).

Supporting modules:

- `Settings`: the user-defaults store as a map, the initialiser's load and
  the setters' writes;
- `Webhook`: the report URL with a parser for it, and the classification of
  the webhook's answer;
- `Decimal`: decimal rendering of the port in the URL;
- `DaemonProperties`: events, runs of events, the invariant of every
  reachable state, and the behaviour lemmas.

Where the code behaves otherwise than a reader of its comments might expect, the model follows the code:

- A repeated display notification is handled again; there is no duplicate check.
- The delayed sleep report fires without looking at `isAwake`, and the
  timer closure does not clear `timer`. In every reachable state the report
  still says "asleep" (`DelayedReportSaysAsleep`), because a wake drops the timer.
- `StopHTTPServer` leaves an armed retry timer armed.
- The server is started at launch even when the stored settings have the daemon
  disabled, because neither the launch handler nor `StartHTTPServer` checks `enabled`.
- A store that holds a positive listen port but lacks the other keys loads
  every flag as false, not as its default.
- `statusString` is shared by startup errors and webhook errors, so each
  overwrites the other.

## Model

| member | source | states |
|---|---|---|
| Settings.KeyNamesDistinct | AutoOfficeDaemon/AODStore.swift:21-41 | The nine key strings are pairwise different (they even differ in length), so a map over the key type is a faithful view of the string-keyed store |
| Settings.Load | AutoOfficeDaemon/AODStore.swift:20-43 | Without a positive stored listen port, every setting keeps its initial value. Otherwise each key is read. A stored report port below 1 becomes 51931, and a missing address or accessory name falls back to its default. The loaded listen port is always positive and the report port at least 1 |
| Settings.Persist | AutoOfficeDaemon/AODStore.swift:47-107 | A setter writes its own key with the new value, and every other key is unchanged |
| Settings.PersistReadsBack | AutoOfficeDaemon/AODStore.swift:47-107 | Reading a setter's key back through the typed accessors gives the value it wrote |
| Settings.PersistSettingsHolds | AutoOfficeDaemon/AODStore.swift:47-107 | After all nine setters have run, every key holds the value written for its field |
| Settings.LoadAfterPersist | AutoOfficeDaemon/AODStore.swift:20-107 | Settings written through the setters are exactly what the next load returns, if and only if the listen port is positive and the report port is at least 1 |
| Settings.PortOnlyStoreDisablesFlags | AutoOfficeDaemon/AODStore.swift:21-41 | A store holding only a positive listen port loads every flag as false and the delay as 0, while the strings and the report port fall back to their defaults |
| Daemon.Init | AutoOfficeDaemon/AODStore.swift:20-43 | The new store holds the loaded settings, the unchanged store and the given preview flag. It is awake, has no timer, no server, no status message and is not listening, launch has not finished, and no request has been made |
| Daemon.IsAwakeAsInt | AutoOfficeDaemon/AODStore.swift:112 | The served value is 0 or 1, and it is 1 exactly when awake |
| Daemon.SleepDisplay | AutoOfficeDaemon/AODStore.swift:116-131 | Only the request log changes. Exactly one request, with value `goToSleep`, is made when (enabled or forced) and the display is not already in that state; otherwise nothing changes |
| Daemon.ReportSleepState | AutoOfficeDaemon/AODStore.swift:175-182 | When disabled, nothing changes. Otherwise exactly one URL, built from the current settings and `isAwake`, is requested and awaits its answer |
| Daemon.ArmReportTimer | AutoOfficeDaemon/AODStore.swift:153-171 | Any earlier timer is dropped. Without a configured delay, it reports at once and leaves no timer. Otherwise it arms one live timer of the configured seconds and reports nothing |
| Daemon.SleepStateChanged | AutoOfficeDaemon/AODStore.swift:135-148 | `isAwake` becomes the notified state. A wake reports at once and clears the timer, and a sleep arms the report timer. Settings, server and retry timer are unchanged |
| Daemon.FireReportTimer | AutoOfficeDaemon/AODStore.swift:168-170 | The expired timer reports with the current `isAwake` and stays referenced but spent |
| Daemon.CompleteReport | AutoOfficeDaemon/AODStore.swift:182-197 | One awaited answer is consumed. The status message is cleared exactly when the answer is a 2xx HTTP response; otherwise it is exactly the report error text of `Webhook.ReportStatus`, with the response's description or the no-information text. Nothing else changes |
| Webhook.IsSuccess | AutoOfficeDaemon/AODStore.swift:183-184 | An answer is a success exactly when it is an HTTP response whose status code is in the 2xx class (its hundreds digit is 2) |
| Webhook.ReportStatus | AutoOfficeDaemon/AODStore.swift:183-196 | No message exactly on a 2xx status. Otherwise the message starts with the report-error prefix and, when there was a response, ends with its description |
| Decimal.NatToText | AutoOfficeDaemon/AODStore.swift:180 | The rendering is a non-empty digit string, single-digit exactly below 10, with a leading '0' only for zero |
| Decimal.NatTextRoundTrip | AutoOfficeDaemon/AODStore.swift:180 | Reading the rendered digits gives back the number |
| Decimal.IntTextRoundTrip | AutoOfficeDaemon/AODStore.swift:180 | Reading an interpolated integer, sign included, gives back the integer |
| Webhook.ReportURL | AutoOfficeDaemon/AODStore.swift:180 | The URL starts with `http://` and ends with `&state=true` or `&state=false` as the display is awake, with the address, port and accessory name between; `ReportURLRoundTrip` reads those back |
| Webhook.ReportURLRoundTrip | AutoOfficeDaemon/AODStore.swift:173-180 | For an address without ':', address, port, accessory name and state are all recovered from the report URL |
| Webhook.ReportURLInjective | AutoOfficeDaemon/AODStore.swift:180 | Two different reports whose addresses hold no ':' never produce the same URL |
| Daemon.HandleRoute | AutoOfficeDaemon/AODStore.swift:259-288 | Every route answers 200. `/` gives the greeting and changes nothing. The other routes answer `isAwake` as JSON, and `/status` changes nothing. `/wake` and `/sleep` make the display request only when their permission flag is set |
| Daemon.ServerStopsItself | AutoOfficeDaemon/AODStore.swift:206-208 | A server that stops by itself stays referenced, in the stopped state on the same port, so it no longer counts as running. Nothing else changes, `isServerListening` included |
| Daemon.StopHTTPServer | AutoOfficeDaemon/AODStore.swift:213-222 | The status message is always cleared. A running server is dropped and stops listening; otherwise nothing else changes |
| Daemon.PortForBind | AutoOfficeDaemon/AODStore.swift:290 | The corrected conversion of the listen port to the bound port: defined exactly for ports that fit in 16 bits, and then equal to the listen port |
| Daemon.Bind | AutoOfficeDaemon/AODStore.swift:254-313 | Only the server, listening flag, status message and retry timer change. It listens exactly when the bind succeeds and the port fits. Success runs the server on the listen port. Failure leaves no server, the message "HTTP Server Startup Error: " followed by the failure's description, and one live 10-second retry |
| Daemon.StartHTTPServer | AutoOfficeDaemon/AODStore.swift:227-315 | Nothing happens before launch, under the preview flag, or while running without a forced restart. Otherwise only the server fields, the status message and the retry timer change. It listens exactly when the bind succeeds. Success runs the server on the listen port with no message and no retry. Failure leaves no server, the message "HTTP Server Startup Error: " followed by the failure's description, and one live 10-second retry |
| Daemon.FireRestartTimer | AutoOfficeDaemon/AODStore.swift:305-312 | As written: only the retry timer changes, it is spent afterwards, and it is cleared when the server is running |
| Daemon.FireRestartTimerIntended | AutoOfficeDaemon/AODStore.swift:305-312 | The corrected retry: with a running server, it only clears the timer. Otherwise the server listens exactly when the bind succeeds, and a failed retry arms the next one with an error message |
| Daemon.Set | AutoOfficeDaemon/AODStore.swift:47-107 | The setting takes its new value and its key is persisted. `enabled := true` starts with a forced restart, and `enabled := false` stops. A listen-port change restarts only when enabled. The other seven setters change nothing else |
| Daemon.FinishLaunching | AutoOfficeDaemon/AppDelegate.swift:23-51 | Under the preview flag nothing happens. Otherwise launch is marked finished, the server is started without forcing, and the current state is reported |
| DaemonProperties.RunningIffListening | AutoOfficeDaemon/AODStore.swift:206-210 | A stopping or stopped server object does not count as running, and in every state reachable through the modelled events `isServerRunning` holds exactly when `isServerListening` does |
| DaemonProperties.InitInv | AutoOfficeDaemon/AODStore.swift:20-43 | The new store satisfies the invariant |
| DaemonProperties.StartPreservesInv | AutoOfficeDaemon/AODStore.swift:227-315 | A start, whatever its outcome, keeps the invariant |
| DaemonProperties.LaunchPreservesInv | AutoOfficeDaemon/AppDelegate.swift:23-51 | Launch, in or out of previews and whatever the bind outcome, keeps the invariant |
| DaemonProperties.SetPreservesInv | AutoOfficeDaemon/AODStore.swift:47-107 | Every setting change, with any bind outcome, keeps the invariant |
| DaemonProperties.DisplayChangePreservesInv | AutoOfficeDaemon/AODStore.swift:135-171 | A display sleep or wake notification keeps the invariant |
| DaemonProperties.RoutePreservesInv | AutoOfficeDaemon/AODStore.swift:259-288 | Serving any route keeps the invariant |
| DaemonProperties.StepPreservesInv | AutoOfficeDaemon/AODStore.swift:47-315 | Every event keeps the invariant: launch, display change, timer expiries, webhook answer, route, sleep-now, setting change |
| DaemonProperties.RunPreservesInv | AutoOfficeDaemon/AODStore.swift:47-315 | Any sequence of events keeps the invariant |
| DaemonProperties.ReachableInv | AutoOfficeDaemon/AODStore.swift:20-315 | Every state reached from creation through the modelled events has this invariant. A server exists only when running on a 16-bit port, listening exactly then, and only after launch outside previews. A live retry timer means no server, and a live report timer means the display is asleep |
| DaemonProperties.ReportCarriesCurrentState | AutoOfficeDaemon/AODStore.swift:175-180 | While enabled and for an address without ':', a report appends one URL, and the receiver reads back from it the current address, port, accessory name and `isAwake` |
| DaemonProperties.DelayedReportSaysAsleep | AutoOfficeDaemon/AODStore.swift:153-171 | In a reachable state while enabled, the delayed report, which does not look at `isAwake`, always requests the URL of an asleep display and awaits one more answer. For an address without ':' the receiver reads `state=false` back |
| DaemonProperties.WakeCancelsPendingReport | AutoOfficeDaemon/AODStore.swift:135-143 | A wake reports state true at once (when enabled) and drops the timer, so a pending sleep report can no longer fire |
| DaemonProperties.RepeatedSleepReportsTwice | AutoOfficeDaemon/AODStore.swift:135-164 | While enabled with no wait configured, two sleep notifications make two identical reports, because there is no duplicate check |
| DaemonProperties.SleepReportsAtOnce | AutoOfficeDaemon/AODStore.swift:135-164 | While enabled with no wait configured, a sleep notification appends the asleep report at once and leaves no timer and the settings as they were |
| DaemonProperties.RepeatedSleepRearmsOneTimer | AutoOfficeDaemon/AODStore.swift:153-171 | With a wait configured, a second sleep notification leaves exactly one fresh timer and no report |
| DaemonProperties.WakeWithoutPermissionIgnored | AutoOfficeDaemon/AODStore.swift:268-277 | `/wake` without permission answers 200 with `isAwake` and changes nothing |
| DaemonProperties.SleepNowBypassesEnabled | AutoOfficeDaemon/AODStore.swift:114-124 | The forced sleep request is made even while disabled, but not when the display already sleeps |
| DaemonProperties.RoutesLeaveStateAwake | AutoOfficeDaemon/AODStore.swift:259-288 | No route changes `isAwake` or the report timer |
| DaemonProperties.EnableToggleRestarts | AutoOfficeDaemon/AODStore.swift:47-56 | Turning `enabled` off stops a listening server, and, when the listen port fits and the bind succeeds, turning it back on makes it listen again on the listen port |
| DaemonProperties.SelfStoppedServerStaysConnected | AutoOfficeDaemon/AODStore.swift:206-243 | After a listening server stops by itself, `isServerListening` stays set while `isServerRunning` is false. `StopHTTPServer` and turning `enabled` off then leave the flag set, and a non-forcing start goes ahead and listens exactly when the bind succeeds |
| DaemonProperties.StopKeepsRetryTimer | AutoOfficeDaemon/AODStore.swift:213-222 | Stopping leaves the retry timer as it was |
| DaemonProperties.DisabledStoreStillListensAfterLaunch | AutoOfficeDaemon/AppDelegate.swift:46-48 | With `enabled` stored as false, launch still starts the server, and it listens when the bind succeeds |
| DaemonProperties.FreshStatusIsAwake | AutoOfficeDaemon/AODStore.swift:263-266 | With empty defaults, `/status` answers 200 with `isAwake` 1 |
| DaemonProperties.RetryNeverRecovers | AutoOfficeDaemon/AODStore.swift:305-312 | In every reachable state with a live retry, the retry as written leaves the server not listening and the message unchanged. The corrected retry listens exactly when the bind succeeds |
| DaemonProperties.FailedLaunchStaysDown | AutoOfficeDaemon/AODStore.swift:295-312 | After a failed first bind, the retry as written stays down even though the port is free now; the corrected retry listens |
| DaemonProperties.IntendedRetryPreservesInv | AutoOfficeDaemon/AODStore.swift:305-312 | The corrected retry keeps the invariant |
| DaemonProperties.OutOfRangePortKeepsReportingError | AutoOfficeDaemon/AODStore.swift:290-312 | With a listen port that does not fit in 16 bits, the corrected retry leaves no server, the port error as the status and a live retry, and keeps the invariant, so the same holds after every further retry |
| DaemonProperties.FittingPortRecovers | AutoOfficeDaemon/AODStore.swift:58-65 | While enabled after launch, entering a listen port that fits restarts the server, and when the bind succeeds it listens on that port with no error and no live retry |
| DaemonProperties.UInt16Conversion | AutoOfficeDaemon/AODStore.swift:290 | The as-written 16-bit conversion is defined only for 0..65535, and then keeps the value |
| DaemonProperties.LoadedPortBeyondSixteenBits | AutoOfficeDaemon/AODStore.swift:21-26 | A stored listen port of 70000 is loaded and reaches the start outside the conversion's domain. The corrected start reports an error and arms the retry |
| AutoOfficeDaemon.AODStore.constructor | AutoOfficeDaemon/AODStore.swift:20-43 | The fields equal `Daemon.Init` of the store and the preview flag |
| AutoOfficeDaemon.AODStore.SetEnabled | AutoOfficeDaemon/AODStore.swift:47-56 | The new state is `Daemon.Set` with the `enabled` change |
| AutoOfficeDaemon.AODStore.SetListenPort | AutoOfficeDaemon/AODStore.swift:58-65 | The new state is `Daemon.Set` with the listen-port change |
| AutoOfficeDaemon.AODStore.SetReportToAddress | AutoOfficeDaemon/AODStore.swift:67-71 | The new state is `Daemon.Set` with that change, so the setting is persisted and nothing else changes |
| AutoOfficeDaemon.AODStore.SetReportToPort | AutoOfficeDaemon/AODStore.swift:73-77 | The same, for the report port |
| AutoOfficeDaemon.AODStore.SetReportAccessoryName | AutoOfficeDaemon/AODStore.swift:79-83 | The same, for the accessory name |
| AutoOfficeDaemon.AODStore.SetWaitBeforeReportingSleep | AutoOfficeDaemon/AODStore.swift:85-89 | The same, for the wait flag |
| AutoOfficeDaemon.AODStore.SetSecondsBeforeReportingSleep | AutoOfficeDaemon/AODStore.swift:91-95 | The same, for the delay |
| AutoOfficeDaemon.AODStore.SetRespondToSleepRequest | AutoOfficeDaemon/AODStore.swift:97-101 | The same, for the sleep permission |
| AutoOfficeDaemon.AODStore.SetRespondToWakeRequest | AutoOfficeDaemon/AODStore.swift:103-107 | The same, for the wake permission |
| AutoOfficeDaemon.AODStore.SleepDisplay | AutoOfficeDaemon/AODStore.swift:116-131 | The new state is `Daemon.SleepDisplay` of the old one |
| AutoOfficeDaemon.AODStore.SleepStateChanged | AutoOfficeDaemon/AODStore.swift:135-148 | The new state is `Daemon.SleepStateChanged` of the old one |
| AutoOfficeDaemon.AODStore.ArmReportTimer | AutoOfficeDaemon/AODStore.swift:153-171 | The new state is `Daemon.ArmReportTimer` of the old one |
| AutoOfficeDaemon.AODStore.FireReportTimer | AutoOfficeDaemon/AODStore.swift:168-170 | The new state is `Daemon.FireReportTimer` of the old one |
| AutoOfficeDaemon.AODStore.ReportSleepState | AutoOfficeDaemon/AODStore.swift:175-182 | The new state is `Daemon.ReportSleepState` of the old one |
| AutoOfficeDaemon.AODStore.CompleteReport | AutoOfficeDaemon/AODStore.swift:182-197 | The new state is `Daemon.CompleteReport` of the old one and the answer |
| AutoOfficeDaemon.AODStore.HandleRequest | AutoOfficeDaemon/AODStore.swift:259-288 | The new state and the reply are those of `Daemon.HandleRoute` |
| AutoOfficeDaemon.AODStore.StopHTTPServer | AutoOfficeDaemon/AODStore.swift:213-222 | The new state is `Daemon.StopHTTPServer` of the old one |
| AutoOfficeDaemon.AODStore.StartHTTPServer | AutoOfficeDaemon/AODStore.swift:227-315 | The new state is `Daemon.StartHTTPServer` of the old one, the restart flag and the bind outcome |
| AutoOfficeDaemon.AODStore.Bind | AutoOfficeDaemon/AODStore.swift:254-313 | The new state is `Daemon.Bind` of the old one and the bind outcome |
| AutoOfficeDaemon.AODStore.FireRestartTimer | AutoOfficeDaemon/AODStore.swift:305-312 | The new state is `Daemon.FireRestartTimer` of the old one; the server and the listening flag are unchanged |
| AutoOfficeDaemon.ApplicationDidFinishLaunching | AutoOfficeDaemon/AppDelegate.swift:23-51 | The store's new state is `Daemon.FinishLaunching` of the old one |
| AutoOfficeDaemon.ScreensDidChange | AutoOfficeDaemon/AppDelegate.swift:103-115 | A screen sleep or wake notification leaves the store in `Daemon.SleepStateChanged` of the old state |

## Left out

- Display power: the IOKit registry call that sleeps or wakes the display is not modelled. The request is recorded in `displayRequests` instead, and `isAwake` changes only through the screen notification, as in the code.
- Networking: the URLSession request and its asynchronous completion are not modelled. The request is recorded in `reports`, and its answer arrives separately through `CompleteReport`, in any order the events give.
- URL validity: the force-unwrap of the report URL is not modelled. An address or accessory name that makes `URL(string:)` fail would crash the daemon; the model always forms the string.
- HTTP server: the Swifter server's sockets and request dispatch are not modelled. Each route is a function of the state, and binding is an input (`BindOutcome`). The `Starting` and `Stopping` server states are in the datatype but never reached, because the start is applied as one step. `Stopped` is reached only through `Daemon.ServerStopsItself`, which is not one of the events.
- Concurrency: the background dispatch queue and the hops to the main queue are not modelled. Their updates are applied in program order within one step, so races between the background start and other events are not captured.
- Timers and time: real timer scheduling and wall-clock time are not modelled. A timer is a pending value with an interval and a live flag, and it fires only through an explicit event.
- User defaults: the defaults store is a map from the nine keys to typed values. A flag read as an integer gives 1 or 0, and an integer read as a flag gives true when non-zero. A string read as an integer or a flag gives 0 or false; Foundation's parsing of numeric strings ("42", "YES") is left out. A number read as a string gives nil here, where Foundation returns its text.
- Observation and logging: `@Published` observation, the status-bar icon, the popover and all `print` logging are not modelled.
- The preview flag is read from the environment in the code. Here it is a constant of the store, fixed at creation.
- The singleton accessor (`AODStore.shared`) is not modelled; the model creates the store with its initial defaults instead.
- Webhook.ReportURLRoundTrip: requires an address without ':', so IPv6 literals and addresses carrying their own port are not covered by the round trip.
- Webhook.ReportURLInjective: requires addresses without ':'; with one, two different reports can share a URL (address `h:1/?accessoryId=x`, port 5, name `y` against address `h`, port 1, name `x:5/?accessoryId=y`).
- DaemonProperties.ReportCarriesCurrentState: reads the report back only for an address without ':', for the same reason.
- DaemonProperties.DelayedReportSaysAsleep: states the requested URL for every address, but reads `state=false` back only for an address without ':'.
- Daemon.StartHTTPServer: follows the corrected port conversion, which `Daemon.Bind` (and the class's `AutoOfficeDaemon.AODStore.Bind`) applies. An out-of-range listen port takes the startup-error path instead of trapping, as recorded under Findings.
- DaemonProperties.RunningIffListening: holds only over the modelled events, none of which lets a live server stop by itself. In the code the server object stops itself when its accept loop ends, and then `isServerListening` stays set while `isServerRunning` is false; `SelfStoppedServerStaysConnected` states that state and what stop, `enabled` and start then do.
- DaemonProperties.ReachableInv: the invariant's clauses that a server object is a running one and that the server listens exactly when one exists hold only because no event stops a server by itself (see the line above). `Daemon.ServerStopsItself` is kept out of the events for that reason.

## Findings

| source | as written | input that shows it | evidently intended | confidence | as-written member | corrected member |
|---|---|---|---|---|---|---|
| AutoOfficeDaemon/AODStore.swift:305-312 | The retry closure returns unless the server is running. When it is running, `StartHTTPServer(restartIfRunning: false)` returns at once. So the retry never binds after a failed start | A launch whose bind fails (port in use), followed by the retry timer firing once the port is free: the server stays down and nothing retries again. The timer is also scheduled from the background queue's thread, which runs no run loop, so the retry may never fire at all. The server stays down either way, and the corrected closure alone would not help if the timer never fires | Retry only when the server is not running, then start it; each failed retry arms the next one | not executed | DaemonProperties.FailedLaunchStaysDown | Daemon.FireRestartTimerIntended |
| AutoOfficeDaemon/AODStore.swift:290 | `UInt16(listenPort)` traps for a port outside 0..65535, but the load accepts any positive stored port and the settings field any integer | A stored listen port of 70000, then launch: the conversion traps on the background queue | Treat an out-of-range port as a startup error, as a failed bind is. The port can also come from the settings field, where no stored default applies, so it is rejected at the start rather than replaced at load. The settings view shows the error as its status (ContentView.swift:163-165). The retry keeps reporting it without listening (`OutOfRangePortKeepsReportingError`) until a port that fits is entered and binds (`FittingPortRecovers`) | not executed | DaemonProperties.LoadedPortBeyondSixteenBits | Daemon.PortForBind |
