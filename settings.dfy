/**
 * The daemon's nine settings, their defaults, and how they are read from and
 * written to the user-defaults store, a key-value map.
 */
module Settings {
  import opened Wrappers

  /** A value held in the user-defaults store. */
  datatype Stored = IntValue(i: int) | BoolValue(b: bool) | StringValue(s: string)

  /** The nine keys the daemon uses; `Name` gives the string the store files them under. */
  datatype Key =
    | EnabledKey | ListenPortKey | ReportToAddressKey | ReportToPortKey | ReportAccessoryNameKey
    | WaitBeforeReportingSleepKey | SecondsBeforeReportingSleepKey
    | RespondToSleepRequestKey | RespondToWakeRequestKey
  {
    function Name(): string {
      match this
      case EnabledKey => "Enabled"
      case ListenPortKey => "ListenPort"
      case ReportToAddressKey => "ReportToAddress"
      case ReportToPortKey => "ReportToPort"
      case ReportAccessoryNameKey => "ReportAccessoryName"
      case WaitBeforeReportingSleepKey => "WaitBeforeReportingSleep"
      case SecondsBeforeReportingSleepKey => "SecondsBeforeReportingSleep"
      case RespondToSleepRequestKey => "RespondToSleepRequest"
      case RespondToWakeRequestKey => "RespondToWakeRequest"
    }
  }

  /**
   * The nine key strings have nine different lengths, so no two keys share
   * a name and a map over `Key` is a faithful view of the string-keyed store.
   */
  lemma KeyNamesDistinct(k1: Key, k2: Key)
    ensures |k1.Name()| == |k2.Name()| ==> k1 == k2
    ensures k1.Name() == k2.Name() ==> k1 == k2
  {
  }

  /** The user-defaults store, restricted to the daemon's keys. */
  type Store = map<Key, Stored>

  /** `integer(forKey:)`: 0 when the key is missing or holds no number. */
  function IntegerFor(store: Store, key: Key): int {
    if key !in store then 0
    else match store[key]
      case IntValue(i) => i
      case BoolValue(b) => if b then 1 else 0
      case StringValue(_) => 0
  }

  /** `bool(forKey:)`: false when the key is missing or holds no flag. */
  function BoolFor(store: Store, key: Key): bool {
    if key !in store then false
    else match store[key]
      case IntValue(i) => i != 0
      case BoolValue(b) => b
      case StringValue(_) => false
  }

  /** `string(forKey:)`: nil when the key is missing or holds no text. */
  function StringFor(store: Store, key: Key): Option<string> {
    if key in store && store[key].StringValue? then Some(store[key].s) else None
  }

  datatype Settings = Settings(
    enabled: bool,
    listenPort: int,
    reportToAddress: string,
    reportToPort: int,
    reportAccessoryName: string,
    waitBeforeReportingSleep: bool,
    secondsBeforeReportingSleep: int,
    respondToSleepRequest: bool,
    respondToWakeRequest: bool)

  const DefaultReportToAddress: string := "192.168.1.231"
  const DefaultReportToPort: int := 51931
  const DefaultAccessoryName: string := "Macintosh"

  /** The property initialisers, kept when nothing was stored yet. */
  const Defaults: Settings := Settings(
    enabled := true,
    listenPort := 8182,
    reportToAddress := DefaultReportToAddress,
    reportToPort := DefaultReportToPort,
    reportAccessoryName := DefaultAccessoryName,
    waitBeforeReportingSleep := false,
    secondsBeforeReportingSleep := 60,
    respondToSleepRequest := true,
    respondToWakeRequest := true)

  /** A positive stored listen port marks the store as already initialised. */
  predicate Initialised(store: Store) {
    IntegerFor(store, ListenPortKey) > 0
  }

  /**
   * The settings the store's initialiser arrives at. Only when the listen port
   * is stored are the other keys read; a report port below 1 and a missing
   * address or accessory name fall back to their defaults, while missing flags
   * read as false and the delay is taken as stored.
   */
  function Load(store: Store): (s: Settings)
    ensures !Initialised(store) ==> s == Defaults
    ensures Initialised(store) ==>
      && s.listenPort == IntegerFor(store, ListenPortKey)
      && s.enabled == BoolFor(store, EnabledKey)
      && s.reportToAddress == StringFor(store, ReportToAddressKey).GetOr(DefaultReportToAddress)
      && s.reportAccessoryName == StringFor(store, ReportAccessoryNameKey).GetOr(DefaultAccessoryName)
      && (IntegerFor(store, ReportToPortKey) >= 1 ==> s.reportToPort == IntegerFor(store, ReportToPortKey))
      && (IntegerFor(store, ReportToPortKey) < 1 ==> s.reportToPort == DefaultReportToPort)
      && s.waitBeforeReportingSleep == BoolFor(store, WaitBeforeReportingSleepKey)
      && s.secondsBeforeReportingSleep == IntegerFor(store, SecondsBeforeReportingSleepKey)
      && s.respondToSleepRequest == BoolFor(store, RespondToSleepRequestKey)
      && s.respondToWakeRequest == BoolFor(store, RespondToWakeRequestKey)
    ensures s.listenPort > 0 && s.reportToPort >= 1
  {
    var testListenPort := IntegerFor(store, ListenPortKey);
    if testListenPort > 0 then
      var reportToPort := IntegerFor(store, ReportToPortKey);
      Settings(
        enabled := BoolFor(store, EnabledKey),
        listenPort := testListenPort,
        reportToAddress := StringFor(store, ReportToAddressKey).GetOr(DefaultReportToAddress),
        reportToPort := if reportToPort < 1 then DefaultReportToPort else reportToPort,
        reportAccessoryName := StringFor(store, ReportAccessoryNameKey).GetOr(DefaultAccessoryName),
        waitBeforeReportingSleep := BoolFor(store, WaitBeforeReportingSleepKey),
        secondsBeforeReportingSleep := IntegerFor(store, SecondsBeforeReportingSleepKey),
        respondToSleepRequest := BoolFor(store, RespondToSleepRequestKey),
        respondToWakeRequest := BoolFor(store, RespondToWakeRequestKey))
    else
      Defaults
  }

  /** One assignment to a setting, as the settings UI makes it. */
  datatype Change =
    | SetEnabled(enabled: bool)
    | SetListenPort(listenPort: int)
    | SetReportToAddress(reportToAddress: string)
    | SetReportToPort(reportToPort: int)
    | SetReportAccessoryName(reportAccessoryName: string)
    | SetWaitBeforeReportingSleep(waitBeforeReportingSleep: bool)
    | SetSecondsBeforeReportingSleep(secondsBeforeReportingSleep: int)
    | SetRespondToSleepRequest(respondToSleepRequest: bool)
    | SetRespondToWakeRequest(respondToWakeRequest: bool)

  /** The store key a setter writes. */
  function KeyOf(c: Change): Key {
    match c
    case SetEnabled(_) => EnabledKey
    case SetListenPort(_) => ListenPortKey
    case SetReportToAddress(_) => ReportToAddressKey
    case SetReportToPort(_) => ReportToPortKey
    case SetReportAccessoryName(_) => ReportAccessoryNameKey
    case SetWaitBeforeReportingSleep(_) => WaitBeforeReportingSleepKey
    case SetSecondsBeforeReportingSleep(_) => SecondsBeforeReportingSleepKey
    case SetRespondToSleepRequest(_) => RespondToSleepRequestKey
    case SetRespondToWakeRequest(_) => RespondToWakeRequestKey
  }

  /** The value a setter writes under its key. */
  function ValueOf(c: Change): Stored {
    match c
    case SetEnabled(b) => BoolValue(b)
    case SetListenPort(i) => IntValue(i)
    case SetReportToAddress(t) => StringValue(t)
    case SetReportToPort(i) => IntValue(i)
    case SetReportAccessoryName(t) => StringValue(t)
    case SetWaitBeforeReportingSleep(b) => BoolValue(b)
    case SetSecondsBeforeReportingSleep(i) => IntValue(i)
    case SetRespondToSleepRequest(b) => BoolValue(b)
    case SetRespondToWakeRequest(b) => BoolValue(b)
  }

  /** The settings after the assignment. */
  function Apply(s: Settings, c: Change): Settings {
    match c
    case SetEnabled(v) => s.(enabled := v)
    case SetListenPort(v) => s.(listenPort := v)
    case SetReportToAddress(v) => s.(reportToAddress := v)
    case SetReportToPort(v) => s.(reportToPort := v)
    case SetReportAccessoryName(v) => s.(reportAccessoryName := v)
    case SetWaitBeforeReportingSleep(v) => s.(waitBeforeReportingSleep := v)
    case SetSecondsBeforeReportingSleep(v) => s.(secondsBeforeReportingSleep := v)
    case SetRespondToSleepRequest(v) => s.(respondToSleepRequest := v)
    case SetRespondToWakeRequest(v) => s.(respondToWakeRequest := v)
  }

  /** The store after a setter's `didSet` has persisted the new value. */
  function Persist(store: Store, c: Change): (r: Store)
    ensures KeyOf(c) in r && r[KeyOf(c)] == ValueOf(c)
    ensures forall k :: k != KeyOf(c) ==> (k in r <==> k in store) && (k in store ==> r[k] == store[k])
  {
    store[KeyOf(c) := ValueOf(c)]
  }

  /** What each setter reads back: the value it wrote, through the typed accessors. */
  lemma PersistReadsBack(store: Store, c: Change)
    ensures var r := Persist(store, c);
      match c
      case SetEnabled(v) => BoolFor(r, EnabledKey) == v
      case SetListenPort(v) => IntegerFor(r, ListenPortKey) == v
      case SetReportToAddress(v) => StringFor(r, ReportToAddressKey) == Some(v)
      case SetReportToPort(v) => IntegerFor(r, ReportToPortKey) == v
      case SetReportAccessoryName(v) => StringFor(r, ReportAccessoryNameKey) == Some(v)
      case SetWaitBeforeReportingSleep(v) => BoolFor(r, WaitBeforeReportingSleepKey) == v
      case SetSecondsBeforeReportingSleep(v) => IntegerFor(r, SecondsBeforeReportingSleepKey) == v
      case SetRespondToSleepRequest(v) => BoolFor(r, RespondToSleepRequestKey) == v
      case SetRespondToWakeRequest(v) => BoolFor(r, RespondToWakeRequestKey) == v
  {
  }

  /** The store after the nine setters have each written their field of `s`, listen port last. */
  function PersistSettings(store: Store, s: Settings): Store {
    store
      [EnabledKey := BoolValue(s.enabled)]
      [ReportToAddressKey := StringValue(s.reportToAddress)]
      [ReportToPortKey := IntValue(s.reportToPort)]
      [ReportAccessoryNameKey := StringValue(s.reportAccessoryName)]
      [WaitBeforeReportingSleepKey := BoolValue(s.waitBeforeReportingSleep)]
      [SecondsBeforeReportingSleepKey := IntValue(s.secondsBeforeReportingSleep)]
      [RespondToSleepRequestKey := BoolValue(s.respondToSleepRequest)]
      [RespondToWakeRequestKey := BoolValue(s.respondToWakeRequest)]
      [ListenPortKey := IntValue(s.listenPort)]
  }

  /** After the nine setters, every key holds the value written for its field. */
  lemma PersistSettingsHolds(store: Store, s: Settings)
    ensures var r := PersistSettings(store, s);
      && IntegerFor(r, ListenPortKey) == s.listenPort
      && BoolFor(r, EnabledKey) == s.enabled
      && StringFor(r, ReportToAddressKey) == Some(s.reportToAddress)
      && IntegerFor(r, ReportToPortKey) == s.reportToPort
      && StringFor(r, ReportAccessoryNameKey) == Some(s.reportAccessoryName)
      && BoolFor(r, WaitBeforeReportingSleepKey) == s.waitBeforeReportingSleep
      && IntegerFor(r, SecondsBeforeReportingSleepKey) == s.secondsBeforeReportingSleep
      && BoolFor(r, RespondToSleepRequestKey) == s.respondToSleepRequest
      && BoolFor(r, RespondToWakeRequestKey) == s.respondToWakeRequest
  {
    var r := PersistSettings(store, s);
    assert IntegerFor(r, ListenPortKey) == s.listenPort;
  }

  /**
   * Settings written through the setters are the settings the next launch
   * loads, exactly when the listen port is positive (otherwise the store
   * reads as uninitialised) and the report port is at least 1 (otherwise it
   * falls back to its default).
   */
  lemma LoadAfterPersist(store: Store, s: Settings)
    ensures Load(PersistSettings(store, s)) == s <==> s.listenPort > 0 && s.reportToPort >= 1
  {
    PersistSettingsHolds(store, s);
  }

  /**
   * A store that holds only a positive listen port turns every flag off:
   * a missing flag reads as false rather than as its default.
   */
  lemma PortOnlyStoreDisablesFlags(port: int)
    requires port > 0
    ensures var s := Load(map[ListenPortKey := IntValue(port)]);
      !s.enabled && !s.respondToSleepRequest && !s.respondToWakeRequest
      && !s.waitBeforeReportingSleep && s.secondsBeforeReportingSleep == 0
      && s.reportToAddress == DefaultReportToAddress && s.reportToPort == DefaultReportToPort
      && s.reportAccessoryName == DefaultAccessoryName && s.listenPort == port
  {
  }
}
