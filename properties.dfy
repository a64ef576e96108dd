/**
 * Properties of the daemon over any sequence of events: the invariant every
 * event keeps, what a pending sleep report can say, how wake, sleep, retry
 * and settings events combine, and the two places where the code does not
 * do what it evidently sets out to do: the retry after a failed start, and
 * the conversion of the listen port to 16 bits.
 */
module DaemonProperties {
  import opened Wrappers
  import opened Settings
  import opened Daemon
  import Webhook

  /** Everything that happens to the store object, from the outside. */
  datatype Event =
    | Launch(bind: BindOutcome)                    // the application finished launching
    | DisplayChanged(isNowAwake: bool)             // screens did sleep / did wake
    | ReportTimerExpired
    | ReportAnswered(response: Webhook.URLResponse)
    | RestartTimerExpired(bind: BindOutcome)
    | Request(route: Route)
    | SleepNow                                     // the "Sleep Display Now" button
    | Assign(change: Change, bind: BindOutcome)    // a setting edited in the settings UI

  /**
   * One event. A timer that is not armed does not fire, no answer arrives for
   * a request never made, and only a listening server serves a route.
   */
  function Step(d: State, e: Event): State {
    match e
    case Launch(bind) => FinishLaunching(d, bind)
    case DisplayChanged(isNowAwake) => SleepStateChanged(d, isNowAwake)
    case ReportTimerExpired => if Live(d.timer) then FireReportTimer(d) else d
    case ReportAnswered(response) => if d.pendingReports > 0 then CompleteReport(d, response) else d
    case RestartTimerExpired(bind) => if Live(d.restartTimer) then FireRestartTimer(d, bind) else d
    case Request(route) => if d.isServerListening then HandleRoute(d, route).0 else d
    case SleepNow => SleepDisplay(d, true, true)
    case Assign(change, bind) => Set(d, change, bind)
  }

  function Run(d: State, events: seq<Event>): State
    decreases |events|
  {
    if events == [] then d else Run(Step(d, events[0]), events[1..])
  }

  /**
   * What holds of the store in every reachable state: a server object is a
   * running one on a 16-bit port, listening exactly when it exists, and only
   * after launch outside previews; a live retry timer means no server; a live
   * report timer means the display is asleep; no more answers are awaited
   * than requests were made.
   */
  predicate Inv(d: State) {
    && (d.httpServer.Some? ==> d.httpServer.value.state == Running && PortFits(d.httpServer.value.port))
    && (d.isServerListening <==> d.httpServer.Some?)
    && (d.httpServer.Some? || Live(d.restartTimer) ==> d.didAppFinishLaunching && !d.runningForPreviews)
    && (Live(d.restartTimer) ==> d.httpServer.None?)
    && (Live(d.timer) ==> !d.isAwake)
    && d.pendingReports <= |d.reports|
  }

  /**
   * A stopping or stopped server object does not count as running, and in
   * every reachable state the computed `isServerRunning` agrees with the
   * published `isServerListening` flag.
   */
  lemma RunningIffListening(d: State)
    requires Inv(d)
    ensures d.httpServer.Some? && (d.httpServer.value.state == Stopping || d.httpServer.value.state == Stopped)
      ==> !IsServerRunning(d.httpServer)
    ensures IsServerRunning(d.httpServer) <==> d.isServerListening
  {
  }

  lemma InitInv(defaults: Store, runningForPreviews: bool)
    ensures Inv(Init(defaults, runningForPreviews))
  {
  }

  lemma StartPreservesInv(d: State, restartIfRunning: bool, bind: BindOutcome)
    requires Inv(d)
    ensures Inv(StartHTTPServer(d, restartIfRunning, bind))
  {
  }

  lemma LaunchPreservesInv(d: State, bind: BindOutcome)
    requires Inv(d)
    ensures Inv(FinishLaunching(d, bind))
  {
    if !d.runningForPreviews {
      StartPreservesInv(d.(didAppFinishLaunching := true), false, bind);
    }
  }

  lemma SetPreservesInv(d: State, c: Change, bind: BindOutcome)
    requires Inv(d)
    ensures Inv(Set(d, c, bind))
  {
    StartPreservesInv(d.(settings := Apply(d.settings, c), defaults := Persist(d.defaults, c)), true, bind);
  }

  lemma DisplayChangePreservesInv(d: State, isNowAwake: bool)
    requires Inv(d)
    ensures Inv(SleepStateChanged(d, isNowAwake))
  {
  }

  lemma RoutePreservesInv(d: State, route: Route)
    requires Inv(d)
    ensures Inv(HandleRoute(d, route).0)
  {
  }

  lemma StepPreservesInv(d: State, e: Event)
    requires Inv(d)
    ensures Inv(Step(d, e))
  {
    match e
    case Launch(bind) => LaunchPreservesInv(d, bind);
    case DisplayChanged(isNowAwake) => DisplayChangePreservesInv(d, isNowAwake);
    case Request(route) => RoutePreservesInv(d, route);
    case Assign(c, bind) => SetPreservesInv(d, c, bind);
    case _ =>
  }

  lemma {:induction false} RunPreservesInv(d: State, events: seq<Event>)
    requires Inv(d)
    ensures Inv(Run(d, events))
    decreases |events|
  {
    if events != [] {
      StepPreservesInv(d, events[0]);
      RunPreservesInv(Step(d, events[0]), events[1..]);
    }
  }

  /** Every state the store reaches from its creation satisfies the invariant. */
  lemma ReachableInv(defaults: Store, runningForPreviews: bool, events: seq<Event>)
    ensures Inv(Run(Init(defaults, runningForPreviews), events))
  {
    InitInv(defaults, runningForPreviews);
    RunPreservesInv(Init(defaults, runningForPreviews), events);
  }

  // ---------------------------------------------------------------------------
  // Reports

  /**
   * A report carries the settings and the `isAwake` of the moment it is
   * made, and the receiver reads all of them back.
   */
  lemma ReportCarriesCurrentState(d: State)
    requires d.settings.enabled && ':' !in d.settings.reportToAddress
    ensures var r := ReportSleepState(d);
      |r.reports| == |d.reports| + 1 && r.reports[..|d.reports|] == d.reports
      && Webhook.ParseReportURL(r.reports[|d.reports|])
         == Some(Webhook.Report(d.settings.reportToAddress, d.settings.reportToPort,
                                d.settings.reportAccessoryName, d.isAwake))
  {
    var r := ReportSleepState(d);
    assert r.reports[..|d.reports|] == d.reports;
    Webhook.ReportURLRoundTrip(d.settings.reportToAddress, d.settings.reportToPort,
                               d.settings.reportAccessoryName, d.isAwake);
  }

  /**
   * In a reachable state the delayed report, although it does not look at
   * `isAwake`, always requests the URL of an asleep display: a wake drops the
   * timer. For an address without ':' the receiver reads `state=false` back.
   */
  lemma DelayedReportSaysAsleep(d: State)
    requires Inv(d) && Live(d.timer) && d.settings.enabled
    ensures var r := Step(d, ReportTimerExpired);
      && r.reports == d.reports + [CurrentReportURL(d.(isAwake := false))]
      && r.pendingReports == d.pendingReports + 1
      && (':' !in d.settings.reportToAddress ==>
            Webhook.ParseReportURL(r.reports[|d.reports|])
            == Some(Webhook.Report(d.settings.reportToAddress, d.settings.reportToPort,
                                   d.settings.reportAccessoryName, false)))
  {
    if ':' !in d.settings.reportToAddress {
      ReportCarriesCurrentState(d.(timer := Some(d.timer.value.(live := false))));
    }
  }

  /** A wake reports at once, with state true, and a pending sleep report can no longer fire. */
  lemma WakeCancelsPendingReport(d: State)
    ensures var w := Step(d, DisplayChanged(true));
      w.isAwake && w.timer.None? && Step(w, ReportTimerExpired) == w
      && (d.settings.enabled ==> w.reports == d.reports + [CurrentReportURL(d.(isAwake := true))])
      && (!d.settings.enabled ==> w.reports == d.reports)
  {
  }

  /**
   * Two sleep notifications in a row, with no wait configured, make two
   * reports: the state machine does not treat the second as a duplicate.
   */
  lemma RepeatedSleepReportsTwice(d: State)
    requires d.settings.enabled && ReportsAtOnce(d.settings)
    ensures var r := Run(d, [DisplayChanged(false), DisplayChanged(false)]);
      r.reports == d.reports + [CurrentReportURL(d.(isAwake := false)), CurrentReportURL(d.(isAwake := false))]
      && r.timer.None?
  {
    var u := CurrentReportURL(d.(isAwake := false));
    var d1 := Step(d, DisplayChanged(false));
    SleepReportsAtOnce(d);
    assert CurrentReportURL(d1.(isAwake := false)) == u;
    var d2 := Step(d1, DisplayChanged(false));
    SleepReportsAtOnce(d1);
    assert d2.reports == d.reports + [u, u];
    assert Run(d, [DisplayChanged(false), DisplayChanged(false)]) == Run(d1, [DisplayChanged(false)]);
    assert Run(d1, [DisplayChanged(false)]) == d2;
  }

  /** With no wait configured, a sleep notification reports at once and leaves no timer. */
  lemma SleepReportsAtOnce(d: State)
    requires d.settings.enabled && ReportsAtOnce(d.settings)
    ensures var r := Step(d, DisplayChanged(false));
      && r.reports == d.reports + [CurrentReportURL(d.(isAwake := false))]
      && r.settings == d.settings && r.timer.None? && !r.isAwake
  {
  }

  /**
   * With a wait configured, a second sleep notification replaces the pending
   * timer with a fresh one; only one is ever armed, and nothing is reported yet.
   */
  lemma RepeatedSleepRearmsOneTimer(d: State)
    requires !ReportsAtOnce(d.settings)
    ensures var r := Run(d, [DisplayChanged(false), DisplayChanged(false)]);
      r.timer == Some(Timer(d.settings.secondsBeforeReportingSleep, true))
      && r.reports == d.reports && !r.isAwake
  {
    var d1 := Step(d, DisplayChanged(false));
    assert Run(d, [DisplayChanged(false), DisplayChanged(false)]) == Run(d1, [DisplayChanged(false)]);
    assert Run(d1, [DisplayChanged(false)]) == Step(d1, DisplayChanged(false));
  }

  // ---------------------------------------------------------------------------
  // Routes and display requests

  /** `/wake` without permission answers 200 with the unchanged state and asks nothing of the display. */
  lemma WakeWithoutPermissionIgnored(d: State)
    requires !d.settings.respondToWakeRequest
    ensures HandleRoute(d, Wake) == (d, Reply(200, Json(IsAwakeAsInt(d.isAwake))))
  {
  }

  /** The manual "sleep now" button works while disabled, but not when the display already sleeps. */
  lemma SleepNowBypassesEnabled(d: State)
    ensures Step(d, SleepNow).displayRequests ==
      if d.isAwake then d.displayRequests + [true] else d.displayRequests
  {
  }

  /** No route changes `isAwake`: only the display notification does. */
  lemma RoutesLeaveStateAwake(d: State, route: Route)
    ensures Step(d, Request(route)).isAwake == d.isAwake
    ensures Step(d, Request(route)).timer == d.timer
  {
  }

  // ---------------------------------------------------------------------------
  // Server lifecycle

  /** With the store enabled and its server listening, toggling `enabled` off and on stops, then restarts it. */
  lemma EnableToggleRestarts(d: State, bind: BindOutcome)
    requires Inv(d) && d.isServerListening && PortFits(d.settings.listenPort)
    ensures var off := Step(d, Assign(SetEnabled(false), bind));
      var on := Step(off, Assign(SetEnabled(true), Bound));
      !off.isServerListening && on.isServerListening
      && on.httpServer == Some(HttpServer(Running, d.settings.listenPort))
  {
  }

  /**
   * A server that stops by itself is not among the events: the store is not
   * told of it. From a listening state it leaves the stopped object referenced
   * and `isServerListening` set, so the two no longer agree. Stopping the
   * server then returns early and leaves the flag set, and so does turning
   * `enabled` off; a start does not count the stopped object as running and
   * binds again.
   */
  lemma SelfStoppedServerStaysConnected(d: State, bind: BindOutcome)
    requires Inv(d) && d.isServerListening
    ensures var s := ServerStopsItself(d);
      && s.isServerListening && s.httpServer.Some? && !IsServerRunning(s.httpServer)
      && StopHTTPServer(s) == s.(statusString := None)
      && Set(s, SetEnabled(false), bind).isServerListening
      && StartGoesAhead(s, false)
      && (StartHTTPServer(s, false, bind).isServerListening <==> BindSucceeds(s, bind))
  {
  }

  /** Stopping the server leaves an armed retry timer armed. */
  lemma StopKeepsRetryTimer(d: State)
    ensures StopHTTPServer(d).restartTimer == d.restartTimer
  {
  }

  /**
   * The server is started at launch even when the stored settings have it
   * disabled: neither launch nor the start checks `enabled`.
   */
  lemma DisabledStoreStillListensAfterLaunch()
    ensures var defaults := map[ListenPortKey := IntValue(8182), EnabledKey := BoolValue(false)];
      var d := Step(Init(defaults, false), Launch(Bound));
      !d.settings.enabled && d.isServerListening
  {
  }

  /** Started with empty defaults, `/status` answers `{"isAwake": 1}`. */
  lemma FreshStatusIsAwake()
    ensures HandleRoute(Init(map[], false), Status).1 == Reply(200, Json(1))
  {
  }

  // ---------------------------------------------------------------------------
  // The retry after a failed start

  /**
   * In every reachable state, the retry timer firing leaves the server down:
   * it returns early exactly when a retry is needed. The corrected retry
   * binds whenever the socket can be bound.
   */
  lemma RetryNeverRecovers(d: State, bind: BindOutcome)
    requires Inv(d) && Live(d.restartTimer)
    ensures !Step(d, RestartTimerExpired(bind)).isServerListening
    ensures Step(d, RestartTimerExpired(bind)).statusString == d.statusString
    ensures FireRestartTimerIntended(d, bind).isServerListening <==> BindSucceeds(d, bind)
  {
  }

  /** The scenario: the first bind fails, the port frees up, the retry fires and the server stays down. */
  lemma FailedLaunchStaysDown()
    ensures var failed := Step(Init(map[], false), Launch(BindFailed("Address already in use")));
      Live(failed.restartTimer) && !failed.isServerListening
      && !Step(failed, RestartTimerExpired(Bound)).isServerListening
      && FireRestartTimerIntended(failed, Bound).isServerListening
  {
  }

  /** The corrected retry keeps the invariant too. */
  lemma IntendedRetryPreservesInv(d: State, bind: BindOutcome)
    requires Inv(d) && Live(d.restartTimer)
    ensures Inv(FireRestartTimerIntended(d, bind))
  {
    StartPreservesInv(d.(restartTimer := None), false, bind);
  }

  // ---------------------------------------------------------------------------
  // The listen port's conversion to 16 bits

  newtype uint16 = x: int | 0 <= x < 0x1_0000

  /**
   * The socket layer takes the port as an unsigned 16-bit value; the
   * conversion from the setting traps on any value that does not fit.
   */
  function UInt16Conversion(port: int): (p: uint16)
    requires PortFits(port)
    ensures p as int == port
  {
    port as uint16
  }

  /**
   * The stored listen port only has to be positive to be loaded, so a store
   * holding 70000 reaches the start with a port the conversion rejects; the
   * corrected start reports a startup error and arms the retry instead.
   */
  lemma LoadedPortBeyondSixteenBits()
    ensures var d0 := Init(map[ListenPortKey := IntValue(70000)], false);
      d0.settings.listenPort == 70000 && !PortFits(d0.settings.listenPort)
      && var d := Step(d0, Launch(Bound));
         !d.isServerListening && d.statusString.Some? && Live(d.restartTimer)
  {
  }

  /**
   * With a listen port that does not fit, the corrected start reports the
   * port as the startup error, which the settings view shows as its status,
   * and keeps retrying without ever listening: each retry leaves a state
   * that again meets this lemma's requirements.
   */
  lemma OutOfRangePortKeepsReportingError(d: State, bind: BindOutcome)
    requires Inv(d) && Live(d.restartTimer) && !PortFits(d.settings.listenPort)
    ensures var r := FireRestartTimerIntended(d, bind);
      && !r.isServerListening && r.httpServer.None?
      && r.statusString == Some(StartupErrorPrefix + PortOutOfRangeDescription)
      && Inv(r) && Live(r.restartTimer) && r.settings == d.settings
  {
    IntendedRetryPreservesInv(d, bind);
  }

  /** Entering a listen port that fits, while enabled, ends the error: the restart listens on it. */
  lemma FittingPortRecovers(d: State, port: int)
    requires Inv(d) && d.settings.enabled && d.didAppFinishLaunching && !d.runningForPreviews
    requires PortFits(port)
    ensures var r := Step(d, Assign(SetListenPort(port), Bound));
      && r.isServerListening && r.httpServer == Some(HttpServer(Running, port))
      && r.statusString.None? && !Live(r.restartTimer)
  {
  }
}
