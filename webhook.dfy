/**
 * The remote report: the URL the daemon requests on a sleep/wake change, in
 * the homebridge-http-webhooks status format, and how the answer to that
 * request is turned into the daemon's status message.
 */
module Webhook {
  import opened Wrappers
  import Decimal

  const Scheme: string := "http://"
  const AccessoryIdQuery: string := "/?accessoryId="
  const StateQuery: string := "&state="

  predicate HasPrefix(s: string, p: string) {
    |p| <= |s| && s[..|p|] == p
  }

  predicate HasSuffix(s: string, p: string) {
    |p| <= |s| && s[|s| - |p|..] == p
  }

  /** The `state` parameter: "true" when the display is awake. */
  function StateText(isAwake: bool): string {
    if isAwake then "true" else "false"
  }

  /** The trailing `&state={true|false}` of a report URL. */
  function StateParam(isAwake: bool): string {
    StateQuery + StateText(isAwake)
  }

  /** `{port}/?accessoryId={name}`: what follows the host and its ':'. */
  function HostTail(port: int, accessoryName: string): string {
    Decimal.IntToText(port) + AccessoryIdQuery + accessoryName
  }

  /** `{address}:{port}/?accessoryId={name}`: what follows the scheme, up to the state parameter. */
  function ReportBody(address: string, port: int, accessoryName: string): string {
    address + [':'] + HostTail(port, accessoryName)
  }

  /** `http://{address}:{port}/?accessoryId={name}&state={true|false}` */
  function ReportURL(address: string, port: int, accessoryName: string, isAwake: bool): (url: string)
    ensures HasPrefix(url, Scheme)
    ensures HasSuffix(url, StateParam(isAwake))
    ensures |url| == |Scheme| + |ReportBody(address, port, accessoryName)| + |StateParam(isAwake)|
  {
    var body := ReportBody(address, port, accessoryName);
    ConcatParts(body, StateParam(isAwake));
    ConcatParts(Scheme, body + StateParam(isAwake));
    Scheme + (body + StateParam(isAwake))
  }

  /** What a receiver of the webhook reads out of a report URL. */
  datatype Report = Report(address: string, port: int, accessoryId: string, state: bool)

  /** First position of `c` in `s`. */
  function IndexOf(s: string, c: char): (r: Option<nat>)
    ensures r.Some? ==> r.value < |s| && s[r.value] == c && c !in s[..r.value]
    ensures r.None? ==> c !in s
  {
    if s == [] then None
    else if s[0] == c then Some(0)
    else match IndexOf(s[1..], c)
      case None => None
      case Some(i) => assert s[..i + 1] == [s[0]] + s[1..][..i]; Some(i + 1)
  }

  /** Splits the trailing `&state=true` / `&state=false` off a URL. */
  function SplitState(s: string): Option<(string, bool)> {
    if HasSuffix(s, StateParam(true)) then Some((s[..|s| - |StateParam(true)|], true))
    else if HasSuffix(s, StateParam(false)) then Some((s[..|s| - |StateParam(false)|], false))
    else None
  }

  /**
   * The receiving side's reading of a report URL: the host up to the first
   * ':', the port up to the next '/', then the accessory id up to the final
   * `&state=` parameter.
   */
  function ParseReportURL(url: string): Option<Report> {
    if !HasPrefix(url, Scheme) then None
    else match SplitState(url[|Scheme|..])
      case None => None
      case Some((body, state)) => ParseBody(body, state)
  }

  /** `{address}:{port}/?accessoryId={name}`, split at the first ':'. */
  function ParseBody(body: string, state: bool): Option<Report> {
    match IndexOf(body, ':')
    case None => None
    case Some(i) => ParseAfterHost(body[..i], body[i + 1..], state)
  }

  /** `{port}/?accessoryId={name}`, split at the first '/'. */
  function ParseAfterHost(address: string, afterHost: string, state: bool): Option<Report> {
    match IndexOf(afterHost, '/')
    case None => None
    case Some(j) =>
      var query := afterHost[j..];
      match Decimal.TextToInt(afterHost[..j])
      case None => None
      case Some(port) =>
        if HasPrefix(query, AccessoryIdQuery)
        then Some(Report(address, port, query[|AccessoryIdQuery|..], state))
        else None
  }

  lemma ConcatParts(a: string, b: string)
    ensures HasPrefix(a + b, a) && HasSuffix(a + b, b)
    ensures (a + b)[..|a|] == a && (a + b)[|a|..] == b
  {
  }

  /** The first `c` of `a + [c] + b` is the one after `a` when `a` holds none. */
  lemma IndexOfSeparator(a: string, c: char, b: string)
    requires c !in a
    ensures IndexOf(a + [c] + b, c) == Some(|a|)
  {
    var s := a + [c] + b;
    assert s[|a|] == c && s[..|a|] == a;
  }

  /** A URL ending in `&state=false` does not end in `&state=true`. */
  lemma FalseParamIsNotTrueParam(body: string)
    ensures !HasSuffix(body + StateParam(false), StateParam(true))
  {
    var rest := body + StateParam(false);
    var t := StateParam(true);
    assert |t| == 11 && t[0] == '&';
    assert rest[|rest| - 11] == StateParam(false)[1];
  }

  lemma SplitStateOf(body: string, isAwake: bool)
    ensures SplitState(body + StateParam(isAwake)) == Some((body, isAwake))
  {
    ConcatParts(body, StateParam(isAwake));
    if !isAwake {
      FalseParamIsNotTrueParam(body);
    }
  }

  /** The state parameter alone can be read back from every report URL. */
  lemma ReportURLState(address: string, port: int, accessoryName: string, isAwake: bool)
    ensures var url := ReportURL(address, port, accessoryName, isAwake);
      HasPrefix(url, Scheme) &&
      SplitState(url[|Scheme|..]) == Some((ReportBody(address, port, accessoryName), isAwake))
  {
    var body := ReportBody(address, port, accessoryName);
    ConcatParts(Scheme, body + StateParam(isAwake));
    SplitStateOf(body, isAwake);
  }

  lemma ParseAfterHostRoundTrip(address: string, port: int, accessoryName: string, state: bool)
    ensures ParseAfterHost(address, HostTail(port, accessoryName), state)
      == Some(Report(address, port, accessoryName, state))
  {
    var portText := Decimal.IntToText(port);
    var query := AccessoryIdQuery + accessoryName;
    var afterHost := portText + AccessoryIdQuery + accessoryName;
    Decimal.NumeralHasNoSeparator(portText, '/');
    assert query == ['/'] + query[1..];
    assert afterHost == portText + ['/'] + query[1..];
    IndexOfSeparator(portText, '/', query[1..]);
    assert afterHost == portText + query;
    ConcatParts(portText, query);
    Decimal.IntTextRoundTrip(port);
    ConcatParts(AccessoryIdQuery, accessoryName);
  }

  lemma ParseBodyRoundTrip(address: string, port: int, accessoryName: string, state: bool)
    requires ':' !in address
    ensures ParseBody(ReportBody(address, port, accessoryName), state)
      == Some(Report(address, port, accessoryName, state))
  {
    var afterHost := HostTail(port, accessoryName);
    var body := ReportBody(address, port, accessoryName);
    IndexOfSeparator(address, ':', afterHost);
    assert body[..|address|] == address;
    assert body[|address| + 1..] == afterHost;
    ParseAfterHostRoundTrip(address, port, accessoryName, state);
  }

  /**
   * Every field of the report is recovered from the URL, as long as the
   * address holds no ':' (a host name or an IPv4 address).
   */
  lemma ReportURLRoundTrip(address: string, port: int, accessoryName: string, isAwake: bool)
    requires ':' !in address
    ensures ParseReportURL(ReportURL(address, port, accessoryName, isAwake))
      == Some(Report(address, port, accessoryName, isAwake))
  {
    ReportURLState(address, port, accessoryName, isAwake);
    ParseBodyRoundTrip(address, port, accessoryName, isAwake);
  }

  /** Different reports never share a URL. */
  lemma ReportURLInjective(a1: string, p1: int, n1: string, s1: bool,
                           a2: string, p2: int, n2: string, s2: bool)
    requires ':' !in a1 && ':' !in a2
    requires ReportURL(a1, p1, n1, s1) == ReportURL(a2, p2, n2, s2)
    ensures a1 == a2 && p1 == p2 && n1 == n2 && s1 == s2
  {
    ReportURLRoundTrip(a1, p1, n1, s1);
    ReportURLRoundTrip(a2, p2, n2, s2);
  }

  /** The answer of the report request, as URLSession hands it to the completion handler. */
  datatype URLResponse =
    | NoResponse                                            // transport failure: `response` is nil
    | Response(description: string, httpStatus: Option<int>) // httpStatus None: not an HTTPURLResponse

  const ReportErrorPrefix: string := "Error: Invalid HTTPURLResponse from report: "

  /** A 2xx status code (RFC 9110, section 15.3) on an HTTP response. */
  predicate IsSuccess(response: URLResponse)
    ensures IsSuccess(response) <==>
      response.Response? && response.httpStatus.Some? && response.httpStatus.value / 100 == 2
  {
    response.Response? && response.httpStatus.Some?
    && 200 <= response.httpStatus.value <= 299
  }

  /** The status message the completion handler leaves: none on success, an error text otherwise. */
  function ReportStatus(response: URLResponse): (status: Option<string>)
    ensures status.None? <==> IsSuccess(response)
    ensures status.Some? ==> HasPrefix(status.value, ReportErrorPrefix)
    ensures status.Some? && response.Response? ==> HasSuffix(status.value, response.description)
  {
    if IsSuccess(response) then None
    else if response.NoResponse? then
      ConcatParts(ReportErrorPrefix, " (no information available)");
      Some(ReportErrorPrefix + " (no information available)")
    else
      ConcatParts(ReportErrorPrefix, response.description);
      Some(ReportErrorPrefix + response.description)
  }
}
