/**
 * The daemon's store object as the program keeps it: one mutable object
 * whose settings persist themselves and start or stop the server when
 * assigned, and whose methods drive the sleep/wake reporting and the
 * server's lifecycle step by step. Every method is proved to leave the
 * object in the state the matching function of `Daemon` describes.
 */
module AutoOfficeDaemon {
  import opened Wrappers
  import opened Settings
  import D = Daemon
  import Webhook

  class AODStore {
    // Settings
    var enabled: bool
    var listenPort: int
    var reportToAddress: string
    var reportToPort: int
    var reportAccessoryName: string
    var waitBeforeReportingSleep: bool
    var secondsBeforeReportingSleep: int
    var respondToSleepRequest: bool
    var respondToWakeRequest: bool
    var defaults: Store

    // Sleep/wake handling
    var isAwake: bool
    var timer: Option<D.Timer>

    // HTTP server
    var httpServer: Option<D.HttpServer>
    var statusString: Option<string>
    var isServerListening: bool
    var didAppFinishLaunching: bool
    const runningForPreviews: bool
    var restartTimer: Option<D.Timer>

    // Requests made to the outside world
    ghost var displayRequests: seq<bool>
    ghost var reports: seq<string>
    ghost var pendingReports: nat

    function CurrentSettings(): Settings
      reads this
    {
      Settings(enabled, listenPort, reportToAddress, reportToPort, reportAccessoryName,
               waitBeforeReportingSleep, secondsBeforeReportingSleep,
               respondToSleepRequest, respondToWakeRequest)
    }

    /** The object's fields as a value of the specification's state. */
    ghost function Snapshot(): D.State
      reads this
    {
      D.State(CurrentSettings(), defaults, isAwake, timer, httpServer, statusString,
              isServerListening, didAppFinishLaunching, runningForPreviews, restartTimer,
              displayRequests, reports, pendingReports)
    }

    predicate IsServerRunning()
      reads this
    {
      D.IsServerRunning(httpServer)
    }

    function IsAwakeAsInt(): int
      reads this
    {
      D.IsAwakeAsInt(isAwake)
    }

    /**
     * Reads the settings when the store holds a positive listen port and
     * keeps every initial value otherwise; writes nothing, starts nothing.
     */
    constructor (defaults: Store, runningForPreviews: bool)
      ensures Snapshot() == D.Init(defaults, runningForPreviews)
    {
      var s: Settings := Defaults;
      var testListenPort := IntegerFor(defaults, ListenPortKey);
      if testListenPort > 0 {
        var storedReportToPort := IntegerFor(defaults, ReportToPortKey);
        if storedReportToPort < 1 {
          storedReportToPort := DefaultReportToPort;
        }
        s := Settings(
          enabled := BoolFor(defaults, EnabledKey),
          listenPort := testListenPort,
          reportToAddress := StringFor(defaults, ReportToAddressKey).GetOr(DefaultReportToAddress),
          reportToPort := storedReportToPort,
          reportAccessoryName := StringFor(defaults, ReportAccessoryNameKey).GetOr(DefaultAccessoryName),
          waitBeforeReportingSleep := BoolFor(defaults, WaitBeforeReportingSleepKey),
          secondsBeforeReportingSleep := IntegerFor(defaults, SecondsBeforeReportingSleepKey),
          respondToSleepRequest := BoolFor(defaults, RespondToSleepRequestKey),
          respondToWakeRequest := BoolFor(defaults, RespondToWakeRequestKey));
      }
      enabled := s.enabled;
      listenPort := s.listenPort;
      reportToAddress := s.reportToAddress;
      reportToPort := s.reportToPort;
      reportAccessoryName := s.reportAccessoryName;
      waitBeforeReportingSleep := s.waitBeforeReportingSleep;
      secondsBeforeReportingSleep := s.secondsBeforeReportingSleep;
      respondToSleepRequest := s.respondToSleepRequest;
      respondToWakeRequest := s.respondToWakeRequest;
      this.defaults := defaults;
      isAwake := true;
      timer := None;
      httpServer := None;
      statusString := None;
      isServerListening := false;
      didAppFinishLaunching := false;
      this.runningForPreviews := runningForPreviews;
      restartTimer := None;
      displayRequests := [];
      reports := [];
      pendingReports := 0;
    }

    // -------------------------------------------------------------------------
    // Setters: each persists its own key; `enabled` and `listenPort` also
    // start or stop the server.

    method SetEnabled(value: bool, bind: D.BindOutcome)
      modifies this
      ensures Snapshot() == D.Set(old(Snapshot()), Change.SetEnabled(value), bind)
    {
      enabled := value;
      defaults := defaults[EnabledKey := BoolValue(enabled)];
      assert Snapshot() == old(Snapshot()).(settings := CurrentSettings(), defaults := defaults);
      if enabled {
        StartHTTPServer(true, bind);
      } else {
        StopHTTPServer();
      }
    }

    method SetListenPort(value: int, bind: D.BindOutcome)
      modifies this
      ensures Snapshot() == D.Set(old(Snapshot()), Change.SetListenPort(value), bind)
    {
      listenPort := value;
      defaults := defaults[ListenPortKey := IntValue(listenPort)];
      if enabled {
        StartHTTPServer(true, bind);
      }
    }

    method SetReportToAddress(value: string)
      modifies this
      ensures Snapshot() == D.Set(old(Snapshot()), Change.SetReportToAddress(value), D.Bound)
    {
      reportToAddress := value;
      defaults := defaults[ReportToAddressKey := StringValue(reportToAddress)];
    }

    method SetReportToPort(value: int)
      modifies this
      ensures Snapshot() == D.Set(old(Snapshot()), Change.SetReportToPort(value), D.Bound)
    {
      reportToPort := value;
      defaults := defaults[ReportToPortKey := IntValue(reportToPort)];
    }

    method SetReportAccessoryName(value: string)
      modifies this
      ensures Snapshot() == D.Set(old(Snapshot()), Change.SetReportAccessoryName(value), D.Bound)
    {
      reportAccessoryName := value;
      defaults := defaults[ReportAccessoryNameKey := StringValue(reportAccessoryName)];
    }

    method SetWaitBeforeReportingSleep(value: bool)
      modifies this
      ensures Snapshot() == D.Set(old(Snapshot()), Change.SetWaitBeforeReportingSleep(value), D.Bound)
    {
      waitBeforeReportingSleep := value;
      defaults := defaults[WaitBeforeReportingSleepKey := BoolValue(waitBeforeReportingSleep)];
    }

    method SetSecondsBeforeReportingSleep(value: int)
      modifies this
      ensures Snapshot() == D.Set(old(Snapshot()), Change.SetSecondsBeforeReportingSleep(value), D.Bound)
    {
      secondsBeforeReportingSleep := value;
      defaults := defaults[SecondsBeforeReportingSleepKey := IntValue(secondsBeforeReportingSleep)];
    }

    method SetRespondToSleepRequest(value: bool)
      modifies this
      ensures Snapshot() == D.Set(old(Snapshot()), Change.SetRespondToSleepRequest(value), D.Bound)
    {
      respondToSleepRequest := value;
      defaults := defaults[RespondToSleepRequestKey := BoolValue(respondToSleepRequest)];
    }

    method SetRespondToWakeRequest(value: bool)
      modifies this
      ensures Snapshot() == D.Set(old(Snapshot()), Change.SetRespondToWakeRequest(value), D.Bound)
    {
      respondToWakeRequest := value;
      defaults := defaults[RespondToWakeRequestKey := BoolValue(respondToWakeRequest)];
    }

    // -------------------------------------------------------------------------
    // Sleep/wake handling

    /** Requests display sleep or wake; `force` is the "Sleep Display Now" button's bypass of `enabled`. */
    method SleepDisplay(goToSleep: bool, force: bool)
      modifies this
      ensures Snapshot() == D.SleepDisplay(old(Snapshot()), goToSleep, force)
    {
      if !enabled && !force {
        return;
      }
      if isAwake == !goToSleep {
        return;
      }
      displayRequests := displayRequests + [goToSleep];
    }

    method SleepStateChanged(isNowAwake: bool)
      modifies this
      ensures Snapshot() == D.SleepStateChanged(old(Snapshot()), isNowAwake)
    {
      isAwake := isNowAwake;
      if isAwake {
        ReportSleepState();
        timer := None;
      } else {
        ArmReportTimer();
      }
    }

    method ArmReportTimer()
      modifies this
      ensures Snapshot() == D.ArmReportTimer(old(Snapshot()))
    {
      if timer != None {
        timer := None;
      }
      if !waitBeforeReportingSleep || secondsBeforeReportingSleep == 0 {
        ReportSleepState();
        return;
      }
      timer := Some(D.Timer(secondsBeforeReportingSleep, true));
    }

    /** The report timer's closure: reports, and leaves the spent timer in `timer`. */
    method FireReportTimer()
      requires D.Live(timer)
      modifies this
      ensures Snapshot() == D.FireReportTimer(old(Snapshot()))
    {
      timer := Some(timer.value.(live := false));
      ReportSleepState();
    }

    method ReportSleepState()
      modifies this
      ensures Snapshot() == D.ReportSleepState(old(Snapshot()))
    {
      if !enabled {
        return;
      }
      var url := Webhook.ReportURL(reportToAddress, reportToPort, reportAccessoryName, isAwake);
      reports := reports + [url];
      pendingReports := pendingReports + 1;
    }

    /** The report request's completion handler. */
    method CompleteReport(response: Webhook.URLResponse)
      requires pendingReports > 0
      modifies this
      ensures Snapshot() == D.CompleteReport(old(Snapshot()), response)
    {
      pendingReports := pendingReports - 1;
      if !Webhook.IsSuccess(response) {
        if response.Response? {
          statusString := Some(Webhook.ReportErrorPrefix + response.description);
        } else {
          statusString := Some(Webhook.ReportErrorPrefix + " (no information available)");
        }
        return;
      }
      statusString := None;
    }

    // -------------------------------------------------------------------------
    // HTTP server

    /** One request to the command server's routes. */
    method HandleRequest(route: D.Route) returns (reply: D.Reply)
      modifies this
      ensures (Snapshot(), reply) == D.HandleRoute(old(Snapshot()), route)
    {
      match route
      case Root =>
        reply := D.Reply(200, D.Html(D.Greeting));
      case Status =>
        reply := D.Reply(200, D.Json(IsAwakeAsInt()));
      case Wake =>
        if respondToWakeRequest {
          SleepDisplay(false, false);
        }
        reply := D.Reply(200, D.Json(IsAwakeAsInt()));
      case Sleep =>
        if respondToSleepRequest {
          SleepDisplay(true, false);
        }
        reply := D.Reply(200, D.Json(IsAwakeAsInt()));
    }

    method StopHTTPServer()
      modifies this
      ensures Snapshot() == D.StopHTTPServer(old(Snapshot()))
    {
      statusString := None;
      if !IsServerRunning() {
        return;
      }
      httpServer := None;
      isServerListening := false;
    }

    method StartHTTPServer(restartIfRunning: bool, bind: D.BindOutcome)
      modifies this
      ensures Snapshot() == D.StartHTTPServer(old(Snapshot()), restartIfRunning, bind)
    {
      if !didAppFinishLaunching {
        return;
      }
      if runningForPreviews {
        return;
      }
      if IsServerRunning() {
        if restartIfRunning {
          StopHTTPServer();
        } else {
          return;
        }
      }
      if restartTimer != None {
        restartTimer := None;
      }
      statusString := None;
      Bind(bind);
    }

    /** The block the start hands to the background queue: bind, then report listening or the error. */
    method Bind(bind: D.BindOutcome)
      modifies this
      ensures Snapshot() == D.Bind(old(Snapshot()), bind)
    {
      var port := D.PortForBind(listenPort);
      if port.Some? && bind.Bound? {
        httpServer := Some(D.HttpServer(D.Running, port.value));
        isServerListening := true;
      } else {
        var description := if port.None? then D.PortOutOfRangeDescription else bind.description;
        statusString := Some(D.StartupErrorPrefix + description);
        httpServer := None;
        isServerListening := false;
        restartTimer := Some(D.Timer(D.RestartInterval, true));
      }
    }

    /** The retry timer's closure, as written. */
    method FireRestartTimer(bind: D.BindOutcome)
      requires D.Live(restartTimer)
      modifies this
      ensures Snapshot() == D.FireRestartTimer(old(Snapshot()), bind)
      ensures httpServer == old(httpServer) && isServerListening == old(isServerListening)
    {
      restartTimer := Some(restartTimer.value.(live := false));
      if !IsServerRunning() {
        return;
      }
      StartHTTPServer(false, bind);
      restartTimer := None;
    }
  }

  /**
   * The application delegate at launch: outside previews, opens the launch
   * gate, starts the server without forcing a restart, and reports the
   * current display state.
   */
  method ApplicationDidFinishLaunching(store: AODStore, bind: D.BindOutcome)
    modifies store
    ensures store.Snapshot() == D.FinishLaunching(old(store.Snapshot()), bind)
  {
    if store.runningForPreviews {
      return;
    }
    store.didAppFinishLaunching := true;
    store.StartHTTPServer(false, bind);
    store.ReportSleepState();
  }

  /** The application delegate's screen notifications: did sleep, did wake. */
  method ScreensDidChange(store: AODStore, screensAwake: bool)
    modifies store
    ensures store.Snapshot() == D.SleepStateChanged(old(store.Snapshot()), screensAwake)
  {
    store.SleepStateChanged(screensAwake);
  }
}
