/**
 * The runtime state of the daemon's store object and one function per
 * operation on it: the sleep/wake state machine with its debounced report,
 * the display-power requests, the routes of the command server and the
 * server's start/stop/retry lifecycle. The imperative class in
 * `AutoOfficeDaemon` is proved to update its fields exactly as these
 * functions say.
 *
 * Effects on the outside world are recorded instead of performed: each
 * display-power request is appended to `displayRequests`, each report
 * request's URL to `reports`; the answer to a report request, the outcome
 * of binding the listening socket and the expiry of a timer are inputs.
 */
module Daemon {
  import opened Wrappers
  import opened Settings
  import Webhook

  /** The states of the embedded HTTP server object. */
  datatype ServerState = Starting | Running | Stopping | Stopped

  /** The HTTP server object and the port it was started on. */
  datatype HttpServer = HttpServer(state: ServerState, port: int)

  /** A one-shot timer: its interval in seconds, and whether it can still fire. */
  datatype Timer = Timer(interval: int, live: bool)

  /** What binding the listening socket came to. */
  datatype BindOutcome = Bound | BindFailed(description: string)

  /** The four routes of the command server. */
  datatype Route = Root | Status | Wake | Sleep

  datatype Body = Html(text: string) | Json(isAwake: int)

  /** An HTTP reply: its status code and body. */
  datatype Reply = Reply(status: int, body: Body)

  const Greeting: string := "AutoOfficeDaemon now running."
  const RestartInterval: int := 10
  const StartupErrorPrefix: string := "HTTP Server Startup Error: "
  const PortOutOfRangeDescription: string := "listen port out of range"

  datatype State = State(
    settings: Settings,
    defaults: Store,                 // the user-defaults store
    isAwake: bool,
    timer: Option<Timer>,            // the pending sleep report
    httpServer: Option<HttpServer>,
    statusString: Option<string>,    // the last error shown to the user
    isServerListening: bool,
    didAppFinishLaunching: bool,
    runningForPreviews: bool,        // the preview-harness environment flag
    restartTimer: Option<Timer>,     // the retry after a failed start
    displayRequests: seq<bool>,      // display-power requests made: true asks for sleep
    reports: seq<string>,            // report URLs requested
    pendingReports: nat)             // report requests whose answer has not arrived

  predicate Live(t: Option<Timer>) {
    t.Some? && t.value.live
  }

  /** The `isAwake` value served as JSON. */
  function IsAwakeAsInt(isAwake: bool): (n: int)
    ensures n == 0 || n == 1
    ensures n == 1 <==> isAwake
  {
    if isAwake then 1 else 0
  }

  /** A server object exists and is starting or running. */
  predicate IsServerRunning(server: Option<HttpServer>) {
    server.Some? && (server.value.state == Starting || server.value.state == Running)
  }

  /** The state right after the store is created: settings loaded, nothing started, nothing written. */
  function Init(defaults: Store, runningForPreviews: bool): (d: State)
    ensures d.settings == Load(defaults) && d.defaults == defaults
    ensures d.isAwake && !Live(d.timer) && !Live(d.restartTimer)
    ensures !IsServerRunning(d.httpServer) && !d.isServerListening && !d.didAppFinishLaunching
    ensures d.displayRequests == [] && d.reports == [] && d.pendingReports == 0
    ensures d.timer.None? && d.restartTimer.None? && d.httpServer.None? && d.statusString.None?
    ensures d.runningForPreviews == runningForPreviews
  {
    State(Load(defaults), defaults, true, None, None, None, false, false, runningForPreviews, None, [], [], 0)
  }

  // ---------------------------------------------------------------------------
  // Sleep and wake

  /** True when the display-power request is made: the gate lets it through and the display is not already there. */
  predicate DisplayRequestMade(d: State, goToSleep: bool, force: bool) {
    (d.settings.enabled || force) && d.isAwake == goToSleep
  }

  /** Asks the display to sleep (`goToSleep`) or wake, unless disabled and not forced, or already in that state. */
  function SleepDisplay(d: State, goToSleep: bool, force: bool): (r: State)
    ensures r == d.(displayRequests := r.displayRequests)
    ensures DisplayRequestMade(d, goToSleep, force) ==> r.displayRequests == d.displayRequests + [goToSleep]
    ensures !DisplayRequestMade(d, goToSleep, force) ==> r == d
    ensures !d.settings.enabled && !force ==> r == d
    ensures d.isAwake != goToSleep ==> r == d
  {
    if !d.settings.enabled && !force then d
    else if d.isAwake == !goToSleep then d
    else d.(displayRequests := d.displayRequests + [goToSleep])
  }

  /** The URL a report made now would request. */
  function CurrentReportURL(d: State): string {
    Webhook.ReportURL(d.settings.reportToAddress, d.settings.reportToPort,
                      d.settings.reportAccessoryName, d.isAwake)
  }

  /** Requests the report URL, carrying the current `isAwake`; nothing when disabled. */
  function ReportSleepState(d: State): (r: State)
    ensures !d.settings.enabled ==> r == d
    ensures d.settings.enabled ==>
      r == d.(reports := d.reports + [CurrentReportURL(d)], pendingReports := d.pendingReports + 1)
  {
    if !d.settings.enabled then d
    else d.(reports := d.reports + [CurrentReportURL(d)], pendingReports := d.pendingReports + 1)
  }

  /** True when sleep is reported at once: no wait configured, or a wait of zero seconds. */
  predicate ReportsAtOnce(s: Settings) {
    !s.waitBeforeReportingSleep || s.secondsBeforeReportingSleep == 0
  }

  /**
   * Cancels any earlier report timer, then either reports at once and leaves
   * no timer, or arms one timer of the configured delay and reports nothing yet.
   */
  function ArmReportTimer(d: State): (r: State)
    ensures ReportsAtOnce(d.settings) ==> r.timer.None? && r == ReportSleepState(d.(timer := None))
    ensures !ReportsAtOnce(d.settings) ==>
      r == d.(timer := Some(Timer(d.settings.secondsBeforeReportingSleep, true)))
  {
    var d1 := if d.timer.Some? then d.(timer := None) else d;
    if !d1.settings.waitBeforeReportingSleep || d1.settings.secondsBeforeReportingSleep == 0 then
      ReportSleepState(d1)
    else
      d1.(timer := Some(Timer(d1.settings.secondsBeforeReportingSleep, true)))
  }

  /**
   * A display sleep or wake notification. A wake reports at once and drops
   * the pending report timer; a sleep arms the report timer. A repeated
   * notification is handled again: there is no check for a duplicate.
   */
  function SleepStateChanged(d: State, isNowAwake: bool): (r: State)
    ensures r.isAwake == isNowAwake
    ensures isNowAwake ==> r.timer.None? && r == ReportSleepState(d.(isAwake := true, timer := None))
    ensures !isNowAwake ==> r == ArmReportTimer(d.(isAwake := false))
    ensures r.settings == d.settings && r.httpServer == d.httpServer && r.restartTimer == d.restartTimer
  {
    var d1 := d.(isAwake := isNowAwake);
    if d1.isAwake then
      ReportSleepState(d1).(timer := None)
    else
      ArmReportTimer(d1)
  }

  /**
   * The report timer expires: the report is made with whatever `isAwake` is
   * now, and the spent timer stays referenced.
   */
  function FireReportTimer(d: State): (r: State)
    requires Live(d.timer)
    ensures r == ReportSleepState(d.(timer := Some(Timer(d.timer.value.interval, false))))
    ensures r.timer.Some? && !Live(r.timer)
  {
    ReportSleepState(d.(timer := Some(d.timer.value.(live := false))))
  }

  /** The answer to a report request arrives: a 2xx clears the status message, anything else sets an error. */
  function CompleteReport(d: State, response: Webhook.URLResponse): (r: State)
    requires d.pendingReports > 0
    ensures r == d.(statusString := r.statusString, pendingReports := d.pendingReports - 1)
    ensures r.statusString.None? <==> Webhook.IsSuccess(response)
    ensures r.statusString == Webhook.ReportStatus(response)
  {
    d.(statusString := Webhook.ReportStatus(response), pendingReports := d.pendingReports - 1)
  }

  // ---------------------------------------------------------------------------
  // Routes

  /**
   * Serves one request. Every route answers 200; all but `/` answer the
   * current `isAwake` as JSON, after `/wake` or `/sleep` has asked the display
   * to change when its permission flag allows it.
   */
  function HandleRoute(d: State, route: Route): (result: (State, Reply))
    ensures result.1.status == 200
    ensures route == Root ==> result == (d, Reply(200, Html(Greeting)))
    ensures route != Root ==> result.1.body == Json(IsAwakeAsInt(d.isAwake)) && result.0.isAwake == d.isAwake
    ensures route == Status ==> result.0 == d
    ensures route == Wake ==>
      result.0 == if d.settings.respondToWakeRequest then SleepDisplay(d, false, false) else d
    ensures route == Sleep ==>
      result.0 == if d.settings.respondToSleepRequest then SleepDisplay(d, true, false) else d
  {
    match route
    case Root => (d, Reply(200, Html(Greeting)))
    case Status => (d, Reply(200, Json(IsAwakeAsInt(d.isAwake))))
    case Wake =>
      var d1 := if d.settings.respondToWakeRequest then SleepDisplay(d, false, false) else d;
      (d1, Reply(200, Json(IsAwakeAsInt(d1.isAwake))))
    case Sleep =>
      var d1 := if d.settings.respondToSleepRequest then SleepDisplay(d, true, false) else d;
      (d1, Reply(200, Json(IsAwakeAsInt(d1.isAwake))))
  }

  // ---------------------------------------------------------------------------
  // Server lifecycle

  /** Stops a running server; the status message is cleared either way. */
  function StopHTTPServer(d: State): (r: State)
    ensures r.statusString.None? && !IsServerRunning(r.httpServer)
    ensures IsServerRunning(d.httpServer) ==>
      r == d.(statusString := None, httpServer := None, isServerListening := false)
    ensures !IsServerRunning(d.httpServer) ==> r == d.(statusString := None)
  {
    var d1 := d.(statusString := None);
    if !IsServerRunning(d1.httpServer) then d1
    else d1.(httpServer := None, isServerListening := false)
  }

  /**
   * The server stops by itself (its accept loop ends) without the store being
   * told: the object stays referenced, now stopped, and nothing else changes,
   * `isServerListening` included.
   */
  function ServerStopsItself(d: State): (r: State)
    ensures r == d.(httpServer := r.httpServer)
    ensures !IsServerRunning(r.httpServer)
    ensures r.httpServer.Some? <==> d.httpServer.Some?
    ensures r.httpServer.Some? ==> r.httpServer.value == HttpServer(Stopped, d.httpServer.value.port)
  {
    match d.httpServer
    case None => d
    case Some(server) => d.(httpServer := Some(server.(state := Stopped)))
  }

  predicate PortFits(port: int) {
    0 <= port <= 0xFFFF
  }

  /**
   * The listen port as the 16-bit value the socket is bound to. The
   * conversion accepts only ports that fit in 16 bits; a port outside that
   * range goes down the startup-error path instead.
   */
  function PortForBind(listenPort: int): (p: Option<int>)
    ensures p.Some? <==> PortFits(listenPort)
    ensures p.Some? ==> p.value == listenPort
  {
    if PortFits(listenPort) then Some(listenPort) else None
  }

  /**
   * The background start: binding the listening socket gives a running,
   * listening server, or a startup error message, no server and a retry
   * timer. Nothing else changes.
   */
  function Bind(d: State, bind: BindOutcome): (r: State)
    ensures r == d.(httpServer := r.httpServer, isServerListening := r.isServerListening,
                    statusString := r.statusString, restartTimer := r.restartTimer)
    ensures r.isServerListening <==> BindSucceeds(d, bind)
    ensures BindSucceeds(d, bind) ==>
      && r.httpServer == Some(HttpServer(Running, d.settings.listenPort))
      && r.statusString == d.statusString && r.restartTimer == d.restartTimer
    ensures !BindSucceeds(d, bind) ==>
      && r.httpServer.None? && r.restartTimer == Some(Timer(RestartInterval, true))
      && r.statusString == Some(StartupErrorPrefix + BindErrorDescription(d, bind))
  {
    match PortForBind(d.settings.listenPort)
    case None =>
      d.(statusString := Some(StartupErrorPrefix + PortOutOfRangeDescription), httpServer := None,
         isServerListening := false, restartTimer := Some(Timer(RestartInterval, true)))
    case Some(port) =>
      match bind
      case Bound =>
        d.(httpServer := Some(HttpServer(Running, port)), isServerListening := true)
      case BindFailed(description) =>
        d.(statusString := Some(StartupErrorPrefix + description), httpServer := None,
           isServerListening := false, restartTimer := Some(Timer(RestartInterval, true)))
  }

  /** True when a start request gets past its guards. */
  predicate StartGoesAhead(d: State, restartIfRunning: bool) {
    d.didAppFinishLaunching && !d.runningForPreviews
    && (restartIfRunning || !IsServerRunning(d.httpServer))
  }

  /** Why a bind that does not succeed failed: the port does not fit, or the socket layer's description. */
  function BindErrorDescription(d: State, bind: BindOutcome): string {
    if !PortFits(d.settings.listenPort) then PortOutOfRangeDescription
    else if bind.BindFailed? then bind.description
    else ""
  }

  /** True when binding is attempted and succeeds. */
  predicate BindSucceeds(d: State, bind: BindOutcome) {
    bind.Bound? && PortFits(d.settings.listenPort)
  }

  /**
   * Starts the server: nothing before launch has finished, under the preview
   * flag, or when already running and no restart is asked for. Otherwise a
   * running server is stopped first, the retry timer is cancelled and the
   * status message cleared, and the socket is bound. Success leaves the server
   * running and listening on the listen port; failure leaves an error message,
   * no server, and one armed retry timer of ten seconds.
   */
  function StartHTTPServer(d: State, restartIfRunning: bool, bind: BindOutcome): (r: State)
    ensures !StartGoesAhead(d, restartIfRunning) ==> r == d
    ensures StartGoesAhead(d, restartIfRunning) ==>
      && r == d.(httpServer := r.httpServer, isServerListening := r.isServerListening,
                 statusString := r.statusString, restartTimer := r.restartTimer)
      && (r.isServerListening <==> BindSucceeds(d, bind))
      && (BindSucceeds(d, bind) ==>
            r.httpServer == Some(HttpServer(Running, d.settings.listenPort))
            && r.statusString.None? && r.restartTimer.None?)
      && (!BindSucceeds(d, bind) ==>
            && r.httpServer.None? && r.restartTimer == Some(Timer(RestartInterval, true))
            && r.statusString == Some(StartupErrorPrefix + BindErrorDescription(d, bind)))
  {
    if !d.didAppFinishLaunching then d
    else if d.runningForPreviews then d
    else if IsServerRunning(d.httpServer) && !restartIfRunning then d
    else
      var d1 := if IsServerRunning(d.httpServer) then StopHTTPServer(d) else d;
      var d2 := d1.(restartTimer := None, statusString := None);
      Bind(d2, bind)
  }

  /**
   * The retry timer expires. As written, it returns at once unless the
   * server is running, and a running server makes the non-forcing start
   * return at once: the retry never binds. Only the timer changes.
   */
  function FireRestartTimer(d: State, bind: BindOutcome): (r: State)
    requires Live(d.restartTimer)
    ensures r == d.(restartTimer := r.restartTimer)
    ensures !Live(r.restartTimer)
    ensures IsServerRunning(d.httpServer) ==> r.restartTimer.None?
  {
    var d1 := d.(restartTimer := Some(d.restartTimer.value.(live := false)));
    if !IsServerRunning(d1.httpServer) then d1
    else StartHTTPServer(d1, false, bind).(restartTimer := None)
  }

  /**
   * The retry as evidently intended: drop the spent timer and, unless the
   * server is already running, start it again. After a failed start the
   * retries go on until one binds.
   */
  function FireRestartTimerIntended(d: State, bind: BindOutcome): (r: State)
    requires Live(d.restartTimer)
    ensures IsServerRunning(d.httpServer) ==> r == d.(restartTimer := None)
    ensures StartGoesAhead(d, false) ==>
      && (r.isServerListening <==> BindSucceeds(d, bind))
      && (!BindSucceeds(d, bind) ==> Live(r.restartTimer) && r.statusString.Some?)
  {
    var d1 := d.(restartTimer := None);
    if IsServerRunning(d1.httpServer) then d1
    else StartHTTPServer(d1, false, bind)
  }

  // ---------------------------------------------------------------------------
  // Settings

  /** True for the two settings whose change starts or stops the server. */
  predicate AffectsServer(c: Change) {
    c.SetEnabled? || c.SetListenPort?
  }

  /**
   * Assigns a setting: the new value is written under its own key and, for
   * `enabled`, the server is started (forcing a restart) or stopped; for the
   * listen port the server is restarted when enabled. Other settings only
   * persist.
   */
  function Set(d: State, c: Change, bind: BindOutcome): (r: State)
    ensures r.settings == Apply(d.settings, c)
    ensures r.defaults == Persist(d.defaults, c)
    ensures !AffectsServer(c) ==> r == d.(settings := r.settings, defaults := r.defaults)
    ensures c.SetEnabled? && c.enabled ==>
      r == StartHTTPServer(d.(settings := r.settings, defaults := r.defaults), true, bind)
    ensures c.SetEnabled? && !c.enabled ==>
      r == StopHTTPServer(d.(settings := r.settings, defaults := r.defaults))
    ensures c.SetListenPort? ==>
      r == if d.settings.enabled
           then StartHTTPServer(d.(settings := r.settings, defaults := r.defaults), true, bind)
           else d.(settings := r.settings, defaults := r.defaults)
  {
    var d1 := d.(settings := Apply(d.settings, c), defaults := Persist(d.defaults, c));
    match c
    case SetEnabled(v) => if v then StartHTTPServer(d1, true, bind) else StopHTTPServer(d1)
    case SetListenPort(_) => if d1.settings.enabled then StartHTTPServer(d1, true, bind) else d1
    case _ => d1
  }

  /**
   * The application finished launching: under the preview flag nothing
   * happens and the launch gate stays shut; otherwise the gate opens, the
   * server is started without forcing a restart, and the current state is
   * reported.
   */
  function FinishLaunching(d: State, bind: BindOutcome): (r: State)
    ensures d.runningForPreviews ==> r == d
    ensures !d.runningForPreviews ==>
      r.didAppFinishLaunching
      && r == ReportSleepState(StartHTTPServer(d.(didAppFinishLaunching := true), false, bind))
  {
    if d.runningForPreviews then d
    else ReportSleepState(StartHTTPServer(d.(didAppFinishLaunching := true), false, bind))
  }
}
