/**
 * The response submitter of the custom-resource provider: it turns a
 * CloudFormation lifecycle event and a status into the callback envelope,
 * fixes the parameters of the PUT request that carries it, and builds the
 * redacted URL that is logged. URL parsing, JSON serialization and the transport are
 * parameters or left out; everything before the network call is modelled.
 */
module CfnResponse {
  import opened Wrappers
  import Utf8

  /** Physical id answered for a Create that failed before it had a real id. */
  const CREATE_FAILED_PHYSICAL_ID_MARKER: string := "AWSCDK::CustomResourceProviderFramework::CREATE_FAILED"

  /** Physical id answered when the event carries none. */
  const MISSING_PHYSICAL_ID_MARKER: string := "AWSCDK::CustomResourceProviderFramework::MISSING_PHYSICAL_ID"

  datatype RequestType = Create | Update | Delete

  datatype Status = Success | Failed

  /** The status as it appears on the wire. */
  function StatusText(s: Status): (t: string)
    ensures t != ""
    ensures t == "SUCCESS" <==> s == Success
    ensures s == Failed ==> t == "FAILED"
  {
    match s
    case Success => "SUCCESS"
    case Failed => "FAILED"
  }

  /** JavaScript truthiness of an optional string: `undefined` and `""` are both falsy. */
  predicate Absent(o: Option<string>) {
    o.None? || o.value == ""
  }

  /** The JavaScript expression `o || fallback`. */
  function OrElse(o: Option<string>, fallback: string): string {
    if Absent(o) then fallback else o.value
  }

  /** Output attributes, each held as the JSON text of its value. */
  type Data = map<string, string>

  /** One lifecycle notification from CloudFormation. */
  datatype Event = Event(
    requestType: RequestType,
    stackId: string,
    requestId: string,
    logicalResourceId: string,
    physicalResourceId: Option<string>,
    responseUrl: string,
    data: Option<Data>)

  /** The optional third argument of `submitResponse`; `{}` when omitted. */
  datatype Options = Options(reason: Option<string>, noEcho: Option<bool>)

  const NoOptions := Options(None, None)

  /** The JSON object sent back to CloudFormation. */
  datatype Envelope = Envelope(
    status: Status,
    reason: string,
    stackId: string,
    requestId: string,
    physicalResourceId: string,
    logicalResourceId: string,
    noEcho: Option<bool>,
    data: Option<Data>)

  /** What the adapter guarantees of every envelope it builds: a non-empty reason and physical id. */
  predicate WellFormed(e: Envelope) {
    e.reason != "" && e.physicalResourceId != ""
  }

  /** Builds the callback envelope for `status` from `event` and `options`. */
  function BuildEnvelope(status: Status, event: Event, options: Options): (r: Envelope)
    ensures WellFormed(r)
    ensures r.status == status
    ensures !Absent(options.reason) ==> r.reason == options.reason.value
    ensures Absent(options.reason) ==> r.reason == StatusText(status)
    ensures !Absent(event.physicalResourceId) ==> r.physicalResourceId == event.physicalResourceId.value
    ensures Absent(event.physicalResourceId) ==> r.physicalResourceId == MISSING_PHYSICAL_ID_MARKER
    ensures r.stackId == event.stackId && r.requestId == event.requestId
    ensures r.logicalResourceId == event.logicalResourceId && r.data == event.data
    ensures r.noEcho == options.noEcho
  {
    Envelope(
      status,
      OrElse(options.reason, StatusText(status)),
      event.stackId,
      event.requestId,
      OrElse(event.physicalResourceId, MISSING_PHYSICAL_ID_MARKER),
      event.logicalResourceId,
      options.noEcho,
      event.data)
  }

  /**
   * Building is stable: an event that already carries the id an envelope
   * answered, with the reason it answered, yields that same envelope again.
   */
  lemma BuildEnvelopeFixpoint(status: Status, event: Event, options: Options)
    ensures var env := BuildEnvelope(status, event, options);
            BuildEnvelope(status, event.(physicalResourceId := Some(env.physicalResourceId)),
                          options.(reason := Some(env.reason))) == env
  {
  }

  /**
   * The components of a parsed URL that the submitter reads, as `url.parse`
   * yields them (`null` is `None`). `search` includes its leading `?`.
   */
  datatype ParsedUrl = ParsedUrl(
    protocol: Option<string>,
    hostname: Option<string>,
    pathname: Option<string>,
    search: Option<string>)

  /**
   * `url.parse`'s `path`: set only when the pathname or the query is truthy,
   * and then the two joined, each falling back to "".
   */
  function RequestPath(u: ParsedUrl): Option<string> {
    if Absent(u.pathname) && Absent(u.search) then None
    else Some(OrElse(u.pathname, "") + OrElse(u.search, ""))
  }

  /** A value interpolated into a JavaScript template literal: `null` prints as "null". */
  function Show(o: Option<string>): string {
    o.GetOr("null")
  }

  /** What `url.parse` guarantees: no `?` before the query component. */
  predicate QueryFree(u: ParsedUrl) {
    '?' !in Show(u.protocol) && '?' !in Show(u.hostname) && '?' !in Show(u.pathname)
  }

  /**
   * The URL written to the log: protocol, host and path with the query
   * replaced by `***`. The template puts a `/` before a pathname that already
   * starts with one, so such paths are logged with a double slash.
   */
  function LogSafeUrl(u: ParsedUrl): (r: string)
    ensures |r| >= 4 && r[|r| - 4..] == "?***"
    ensures QueryFree(u) ==> forall i :: 0 <= i < |r| - 4 ==> r[i] != '?'
    ensures var host := Show(u.protocol) + "//" + Show(u.hostname);
            |host| < |r| && r[..|host|] == host && r[|host|] == '/'
    ensures var host := Show(u.protocol) + "//" + Show(u.hostname);
            |Show(u.pathname)| > 0 && Show(u.pathname)[0] == '/' ==>
              |host| + 1 < |r| && r[|host|..|host| + 2] == "//"
  {
    var host := Show(u.protocol) + "//" + Show(u.hostname);
    var r := host + "/" + Show(u.pathname) + "?***";
    assert r[|host|] == '/';
    assert forall i :: 0 <= i < |Show(u.pathname)| ==> r[|host| + 1 + i] == Show(u.pathname)[i];
    r
  }

  /** The log line never depends on the query component or on anything but protocol, host and path. */
  lemma LogSafeUrlHidesQuery(u: ParsedUrl, search: Option<string>)
    ensures LogSafeUrl(u.(search := search)) == LogSafeUrl(u)
  {
  }

  /** The outbound HTTP request, without its body. */
  datatype Request = Request(
    hostname: Option<string>,
    path: Option<string>,
    httpMethod: string,
    contentType: string,
    contentLength: nat)

  /** Options of the retry wrapper around the transport call. */
  datatype RetryOptions = RetryOptions(attempts: nat, sleepMs: nat)

  const DeliveryRetries := RetryOptions(5, 1000)

  /**
   * Everything `submitResponse` decides before it hands the request to the
   * transport. The body is the serialized envelope as code points; a
   * surrogate pair of the JavaScript string is one code point.
   */
  datatype Submission = Submission(
    envelope: Envelope,
    body: seq<Utf8.CodePoint>,
    logUrl: string,
    request: Request,
    retry: RetryOptions)

  /**
   * `submitResponse(status, event, options)` up to the network call.
   * `parse` stands for `url.parse` and `stringify` for `JSON.stringify`.
   */
  function SubmitResponse(status: Status, event: Event, options: Options,
                          parse: string -> ParsedUrl,
                          stringify: Envelope -> seq<Utf8.CodePoint>): (r: Submission)
    ensures r.envelope == BuildEnvelope(status, event, options)
    ensures r.body == stringify(r.envelope)
    ensures r.request.httpMethod == "PUT" && r.request.contentType == ""
    ensures r.request.contentLength == |Utf8.Encode(r.body)|
    ensures |r.body| <= r.request.contentLength <= 4 * |r.body|
    ensures r.request.hostname == parse(event.responseUrl).hostname
    ensures r.request.path == RequestPath(parse(event.responseUrl))
    ensures r.logUrl == LogSafeUrl(parse(event.responseUrl))
    ensures |r.logUrl| >= 4 && r.logUrl[|r.logUrl| - 4..] == "?***"
    ensures r.retry.attempts == 5 && r.retry.sleepMs == 1000
  {
    var env := BuildEnvelope(status, event, options);
    var body := stringify(env);
    var url := parse(event.responseUrl);
    Submission(
      env,
      body,
      LogSafeUrl(url),
      Request(url.hostname, RequestPath(url), "PUT", "", Utf8.ByteLength(body)),
      DeliveryRetries)
  }
}
