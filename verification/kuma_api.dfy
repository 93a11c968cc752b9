/**
 * The per-source discovery client of the Kuma service discovery: the
 * request built from the last acknowledged version and nonce, the request
 * path, the long-poll wait budget, and the transition one refresh makes on
 * the client's state (lib/promscrape/discovery/kuma/api.go).
 */
module KumaApi {
  import opened Wrappers

  // ---------------------------------------------------------------------
  // Protocol constants
  // ---------------------------------------------------------------------

  const XdsApiVersion: string := "v3"
  const XdsRequestType: string := "discovery"
  const XdsResourceType: string := "monitoringassignments"
  const XdsResourceTypeUrl: string := "type.googleapis.com/kuma.observability.v1.MonitoringAssignment"
  const DiscoveryNode: string := "victoria-metrics"

  /** HTTP status 304, "not modified". */
  const StatusNotModified: int := 304

  // ---------------------------------------------------------------------
  // Data model
  // ---------------------------------------------------------------------

  /** A Go `time.Duration`: a signed 64-bit count of nanoseconds. */
  newtype Duration = x: int | -0x8000_0000_0000_0000 <= x < 0x8000_0000_0000_0000

  /** One scrape target as flattened from a discovery response. */
  datatype KumaTarget = KumaTarget(
    mesh: string,
    dataPlane: string,
    service: string,
    instance: string,
    scheme: string,
    address: string,
    metricsPath: string,
    labels: map<string, string>)

  datatype DiscoveryRequestNode = DiscoveryRequestNode(id: string)

  /** The body of a discovery request, before JSON encoding. */
  datatype DiscoveryRequest = DiscoveryRequest(
    versionInfo: string,
    node: DiscoveryRequestNode,
    typeUrl: string,
    responseNonce: string)

  /**
   * A parsed discovery response. `targets` is what parseKumaTargets makes
   * of the response; that flattening is not part of this model.
   */
  datatype DiscoveryResponse = DiscoveryResponse(
    versionInfo: string,
    nonce: string,
    targets: seq<KumaTarget>)

  /** What one blocking call hands to the client: the request it sends. */
  datatype Call = Call(path: string, body: DiscoveryRequest, fetchTimeout: Duration)

  /**
   * What the transport gives back for one call: the status code seen by the
   * response hook (0 when no response arrived), the transport error if any,
   * and what parseDiscoveryResponse makes of the returned bytes.
   */
  datatype Exchange = Exchange(
    statusCode: int,
    fetchError: Option<string>,
    parsed: Result<DiscoveryResponse>)

  /** The HTTP transport, as seen by one refresh. */
  type Transport = Call -> Exchange

  /** The part of the client state readers see: replaced only as a whole. */
  datatype Snapshot = Snapshot(targets: seq<KumaTarget>, latestVersion: string, latestNonce: string)

  /** The mutable state of one discovery client, counters included. */
  datatype DiscoveryState = DiscoveryState(snapshot: Snapshot, fetchErrors: nat, parseErrors: nat)

  /** The new state after one refresh, and the error it returns (None for nil). */
  datatype Transition = Transition(state: DiscoveryState, err: Option<string>)

  /**
   * A fresh client: no targets, empty version and nonce. Its error counters
   * are the per-server-URL counters of the metrics registry, which may
   * already hold counts from an earlier client for the same server.
   */
  function InitialState(fetchErrors: nat, parseErrors: nat): DiscoveryState {
    DiscoveryState(Snapshot([], "", ""), fetchErrors, parseErrors)
  }

  function SnapshotOf(response: DiscoveryResponse): Snapshot {
    Snapshot(response.targets, response.versionInfo, response.nonce)
  }

  // ---------------------------------------------------------------------
  // The request body
  // ---------------------------------------------------------------------

  /** The request body a client in state `s` sends. */
  function RequestFor(s: DiscoveryState): (r: DiscoveryRequest)
    ensures r.versionInfo == s.snapshot.latestVersion && r.responseNonce == s.snapshot.latestNonce
    ensures r.node.id == "victoria-metrics"
    ensures r.typeUrl == "type.googleapis.com/kuma.observability.v1.MonitoringAssignment"
  {
    DiscoveryRequest(
      s.snapshot.latestVersion,
      DiscoveryRequestNode(DiscoveryNode),
      XdsResourceTypeUrl,
      s.snapshot.latestNonce)
  }

  // ---------------------------------------------------------------------
  // The long-poll wait budget
  // ---------------------------------------------------------------------

  /** Go's integer division, which truncates toward zero. */
  function Quot(a: int, b: int): int
    requires b > 0
  {
    if a >= 0 then a / b else -((-a) / b)
  }

  /**
   * The fetch timeout asked of the server: the transport's read timeout `t`
   * less an eighth of it, so the server answers before the client gives up.
   * The result is 7t/8 rounded away from zero.
   */
  function WaitTime(t: Duration): (w: Duration)
    ensures 0 <= t ==> 0 <= w <= t
    ensures 8 <= t ==> w < t
    ensures t < 0 ==> t <= w <= 0
    ensures 0 <= t ==> 7 * (t as int) <= 8 * (w as int) < 7 * (t as int) + 8
    ensures t < 0 ==> 7 * (t as int) - 8 < 8 * (w as int) <= 7 * (t as int)
  {
    (t as int - Quot(t as int, 8)) as Duration
  }

  // ---------------------------------------------------------------------
  // The request path
  // ---------------------------------------------------------------------

  /** One segment of an already-clean URL path. */
  type Segment = s: string | s != [] && s != "." && s != ".." && '/' !in s witness "v3"

  /** The segments `/s1/s2/.../sn`; empty for no segments. */
  function Slashed(segs: seq<Segment>): string {
    if segs == [] then "" else "/" + segs[0] + Slashed(segs[1..])
  }

  /** The request URI of a server URL whose path has the given segments. */
  function RequestUri(serverPath: seq<Segment>): string {
    if serverPath == [] then "/" else Slashed(serverPath)
  }

  /** The segments the path appends to the server's request URI. */
  function ApiSegments(): seq<Segment> {
    [XdsApiVersion, XdsRequestType + ":" + XdsResourceType]
  }

  lemma ApiSegmentsSpelled()
    ensures ApiSegments() == ["v3", "discovery:monitoringassignments"]
  {
    assert XdsRequestType + ":" + XdsResourceType == "discovery:monitoringassignments";
  }

  lemma SlashedPair(a: Segment, b: Segment)
    ensures Slashed([a, b]) == ("/" + a) + ("/" + b)
  {
    assert [a, b][1..] == [b];
    assert [b][1..] == [];
    assert Slashed([b]) == ("/" + b) + "";
    assert ("/" + b) + "" == "/" + b;
  }

  lemma ApiSuffixSpelled()
    ensures Slashed(ApiSegments()) == "/v3/discovery:monitoringassignments"
  {
    ApiSegmentsSpelled();
    var segs := ApiSegments();
    SlashedPair(segs[0], segs[1]);
    assert [segs[0], segs[1]] == segs;
    SuffixSpelled();
  }

  // SuffixSpelled and the three lemmas after it each state one literal
  // concatenation; they are kept apart only so that each verification of a
  // string-literal equality stays small.
  lemma SuffixSpelled()
    ensures ("/" + "v3") + ("/" + "discovery:monitoringassignments") == "/v3/discovery:monitoringassignments"
  {
    VersionSpelled();
    ResourceSpelled();
    SuffixJoined();
  }

  lemma VersionSpelled()
    ensures "/" + "v3" == "/v3"
  {
  }

  lemma ResourceSpelled()
    ensures "/" + "discovery:monitoringassignments" == "/discovery:monitoringassignments"
  {
  }

  lemma SuffixJoined()
    ensures "/v3" + "/discovery:monitoringassignments" == "/v3/discovery:monitoringassignments"
  {
  }

  /** `path.Join(RequestURI(), "v3", "discovery:monitoringassignments")` for a clean server path. */
  function ApiPath(serverPath: seq<Segment>): string {
    Slashed(serverPath + ApiSegments())
  }

  /** Splits a path at every '/'. */
  function Split(p: string): (parts: seq<string>)
    ensures |parts| >= 1
  {
    if p == [] then [""]
    else
      var rest := Split(p[1..]);
      if p[0] == '/' then [""] + rest else [[p[0]] + rest[0]] + rest[1..]
  }

  lemma {:induction false} SplitWithin(x: string, tail: string)
    requires '/' !in x
    ensures Split(x + tail) == [x + Split(tail)[0]] + Split(tail)[1..]
  {
    var t := Split(tail);
    if x == [] {
      assert x + tail == tail;
      assert x + t[0] == t[0];
      assert [t[0]] + t[1..] == t;
    } else {
      var p := x + tail;
      assert p[0] == x[0] && p[0] != '/';
      assert p[1..] == x[1..] + tail;
      SplitWithin(x[1..], tail);
      var rest := Split(p[1..]);
      assert rest == [x[1..] + t[0]] + t[1..];
      assert rest[0] == x[1..] + t[0] && rest[1..] == t[1..];
      assert [x[0]] + (x[1..] + t[0]) == x + t[0];
      assert Split(p) == [[p[0]] + rest[0]] + rest[1..];
    }
  }

  /** Splitting a slashed path gives back its segments. */
  lemma {:induction false} SplitSlashed(segs: seq<Segment>)
    ensures Split(Slashed(segs)) == [""] + segs
  {
    if segs != [] {
      var tail := Slashed(segs[1..]);
      assert Slashed(segs) == "/" + (segs[0] + tail);
      assert ("/" + (segs[0] + tail))[1..] == segs[0] + tail;
      SplitWithin(segs[0], tail);
      SplitSlashed(segs[1..]);
      var t := Split(tail);
      assert t[0] == "" && t[1..] == segs[1..];
      assert segs[0] + t[0] == segs[0];
      assert Split(Slashed(segs)) == [""] + Split(segs[0] + tail);
      assert [""] + ([segs[0]] + segs[1..]) == [""] + segs;
    }
  }

  lemma {:induction false} SlashedAppend(a: seq<Segment>, b: seq<Segment>)
    ensures Slashed(a + b) == Slashed(a) + Slashed(b)
  {
    if a != [] {
      assert (a + b)[1..] == a[1..] + b;
      SlashedAppend(a[1..], b);
    } else {
      assert a + b == b;
    }
  }

  /**
   * The request path is the server's request URI (without its root '/')
   * followed by `/v3/discovery:monitoringassignments`, and its segments are
   * the server's segments followed by `v3` and
   * `discovery:monitoringassignments`.
   */
  lemma ApiPathShape(serverPath: seq<Segment>)
    ensures ApiPath(serverPath)
         == (if serverPath == [] then "" else RequestUri(serverPath)) + "/v3/discovery:monitoringassignments"
    ensures Split(ApiPath(serverPath)) == [""] + serverPath + ["v3", "discovery:monitoringassignments"]
  {
    ApiSegmentsSpelled();
    ApiSuffixSpelled();
    var segs := ApiSegments();
    SlashedAppend(serverPath, segs);
    SplitSlashed(serverPath + segs);
    assert [""] + (serverPath + segs) == [""] + serverPath + ["v3", "discovery:monitoringassignments"];
  }

  /** The server `http://localhost:5676` has an empty path. */
  lemma ApiPathOfBareServer()
    ensures RequestUri([]) == "/"
    ensures ApiPath([]) == "/v3/discovery:monitoringassignments"
  {
    ApiPathShape([]);
    assert "" + "/v3/discovery:monitoringassignments" == "/v3/discovery:monitoringassignments";
  }

  // ---------------------------------------------------------------------
  // One refresh: the transition of updateTargets
  // ---------------------------------------------------------------------

  /** A call that ends with a parsed, non-304 response. */
  predicate Fetched(x: Exchange) {
    x.statusCode != StatusNotModified && x.fetchError.None? && x.parsed.Ok?
  }

  /** A call that fails in the transport (and is not a 304). */
  predicate FetchFailed(x: Exchange) {
    x.statusCode != StatusNotModified && x.fetchError.Some?
  }

  /** A call whose returned bytes do not parse. */
  predicate ParseFailed(x: Exchange) {
    x.statusCode != StatusNotModified && x.fetchError.None? && x.parsed.Err?
  }

  /**
   * What one refresh does to the client state. Success is reported exactly
   * for a 304 or a parsed response; each failed call bumps exactly one
   * counter; the snapshot is either kept or replaced as a whole by the
   * response's, and kept whenever an error is returned.
   */
  function Step(s: DiscoveryState, x: Exchange): (r: Transition)
    ensures r.err.None? <==> x.statusCode == StatusNotModified || (x.fetchError.None? && x.parsed.Ok?)
    ensures r.state.fetchErrors + r.state.parseErrors
         == s.fetchErrors + s.parseErrors + (if r.err.Some? then 1 else 0)
    ensures s.fetchErrors <= r.state.fetchErrors && s.parseErrors <= r.state.parseErrors
    ensures r.state.snapshot == s.snapshot
         || (x.parsed.Ok? && r.state.snapshot == SnapshotOf(x.parsed.value))
    ensures r.err.Some? ==> r.state.snapshot == s.snapshot
  {
    if x.statusCode == StatusNotModified then
      Transition(s, None)
    else if x.fetchError.Some? then
      Transition(s.(fetchErrors := s.fetchErrors + 1),
                 Some("cannot read kuma_sd api response: " + x.fetchError.value))
    else if x.parsed.Err? then
      Transition(s.(parseErrors := s.parseErrors + 1),
                 Some("cannot parse kuma_sd api response: " + x.parsed.error))
    else
      Transition(s.(snapshot := SnapshotOf(x.parsed.value)), None)
  }

  /** A 304 is a no-op success, even when the transport also reported an error. */
  lemma NotModifiedIsNoOp(s: DiscoveryState, x: Exchange)
    requires x.statusCode == StatusNotModified
    ensures Step(s, x) == Transition(s, None)
  {
  }

  /** A transport failure keeps the previous targets and counts one fetch error. */
  lemma FetchFailureKeepsTargets(s: DiscoveryState, x: Exchange)
    requires FetchFailed(x)
    ensures Step(s, x).err.Some?
    ensures Step(s, x).state.snapshot == s.snapshot
    ensures Step(s, x).state.fetchErrors == s.fetchErrors + 1
    ensures Step(s, x).state.parseErrors == s.parseErrors
  {
  }

  /** A parse failure keeps the previous targets and counts one parse error. */
  lemma ParseFailureKeepsTargets(s: DiscoveryState, x: Exchange)
    requires ParseFailed(x)
    ensures Step(s, x).err.Some?
    ensures Step(s, x).state.snapshot == s.snapshot
    ensures Step(s, x).state.parseErrors == s.parseErrors + 1
    ensures Step(s, x).state.fetchErrors == s.fetchErrors
  {
  }

  /** A parsed response replaces targets, version and nonce together. */
  lemma FetchedReplacesSnapshot(s: DiscoveryState, x: Exchange)
    requires Fetched(x)
    ensures Step(s, x).err.None?
    ensures Step(s, x).state.snapshot == SnapshotOf(x.parsed.value)
    ensures Step(s, x).state.fetchErrors == s.fetchErrors
    ensures Step(s, x).state.parseErrors == s.parseErrors
  {
  }

  /**
   * The next request acknowledges the response just applied; after any
   * other outcome the next request repeats the previous one.
   */
  lemma NextRequestAcknowledges(s: DiscoveryState, x: Exchange)
    ensures Fetched(x) ==>
              RequestFor(Step(s, x).state).versionInfo == x.parsed.value.versionInfo &&
              RequestFor(Step(s, x).state).responseNonce == x.parsed.value.nonce
    ensures !Fetched(x) ==> RequestFor(Step(s, x).state) == RequestFor(s)
  {
  }

  /**
   * The refresh run before a new client is returned may fail; the client is
   * then returned with no targets and empty version and nonce.
   */
  lemma FailedFirstRefreshLeavesNoTargets(fetch0: nat, parse0: nat, x: Exchange)
    requires !Fetched(x)
    ensures Step(InitialState(fetch0, parse0), x).state.snapshot == Snapshot([], "", "")
  {
  }

  // ---------------------------------------------------------------------
  // A history of refreshes
  // ---------------------------------------------------------------------

  /** The state after the refreshes that observed `xs`, in order. */
  function Replay(s: DiscoveryState, xs: seq<Exchange>): DiscoveryState
    decreases |xs|
  {
    if xs == [] then s else Step(Replay(s, xs[..|xs| - 1]), xs[|xs| - 1]).state
  }

  function CountFetchFailures(xs: seq<Exchange>): nat
    decreases |xs|
  {
    if xs == [] then 0
    else CountFetchFailures(xs[..|xs| - 1]) + (if FetchFailed(xs[|xs| - 1]) then 1 else 0)
  }

  function CountParseFailures(xs: seq<Exchange>): nat
    decreases |xs|
  {
    if xs == [] then 0
    else CountParseFailures(xs[..|xs| - 1]) + (if ParseFailed(xs[|xs| - 1]) then 1 else 0)
  }

  /** The last response in `xs` that was parsed and applied, if any. */
  function LastFetched(xs: seq<Exchange>): Option<DiscoveryResponse>
    decreases |xs|
  {
    if xs == [] then None
    else if Fetched(xs[|xs| - 1]) then Some(xs[|xs| - 1].parsed.value)
    else LastFetched(xs[..|xs| - 1])
  }

  /** Over any history, each counter counts exactly the calls that failed its way. */
  lemma {:induction false} ReplayCounts(s: DiscoveryState, xs: seq<Exchange>)
    ensures Replay(s, xs).fetchErrors == s.fetchErrors + CountFetchFailures(xs)
    ensures Replay(s, xs).parseErrors == s.parseErrors + CountParseFailures(xs)
    decreases |xs|
  {
    if xs != [] {
      ReplayCounts(s, xs[..|xs| - 1]);
    }
  }

  /**
   * Over any history, the snapshot is that of the last applied response, or
   * the initial one when no response was applied: failures and 304s never
   * discard data, and targets, version and nonce never come from different
   * responses.
   */
  lemma {:induction false} ReplaySnapshot(s: DiscoveryState, xs: seq<Exchange>)
    ensures Replay(s, xs).snapshot
         == match LastFetched(xs) {
              case None => s.snapshot
              case Some(response) => SnapshotOf(response)
            }
    decreases |xs|
  {
    if xs != [] {
      ReplaySnapshot(s, xs[..|xs| - 1]);
    }
  }

  // ---------------------------------------------------------------------
  // The client object
  // ---------------------------------------------------------------------

  /** One discovery client (`apiConfig`). */
  class ApiConfig {
    /** The request path, fixed at construction. */
    const path: string
    /** The transport's read timeout, from which the wait budget is derived. */
    const readTimeout: Duration

    var targets: seq<KumaTarget>
    var latestVersion: string
    var latestNonce: string
    var fetchErrors: nat
    var parseErrors: nat

    function State(): DiscoveryState
      reads this
    {
      DiscoveryState(Snapshot(targets, latestVersion, latestNonce), fetchErrors, parseErrors)
    }

    /**
     * The call a refresh from the current state makes: it goes to the
     * client's path, acknowledges the last applied version and nonce, and
     * asks the server to answer before the client's read timeout expires.
     */
    function NextCall(): (c: Call)
      reads this
      ensures c.path == path
      ensures c.body.versionInfo == latestVersion && c.body.responseNonce == latestNonce
      ensures c.body.node.id == DiscoveryNode && c.body.typeUrl == XdsResourceTypeUrl
      ensures 0 <= readTimeout ==> 0 <= c.fetchTimeout <= readTimeout
      ensures 8 <= readTimeout ==> c.fetchTimeout < readTimeout
      ensures readTimeout < 0 ==> readTimeout <= c.fetchTimeout <= 0
    {
      Call(path, RequestFor(State()), WaitTime(readTimeout))
    }

    /**
     * newAPIConfig for a server whose URL path has the segments `serverPath`:
     * the path is fixed, the counters start from the registry's current
     * values `fetch0` and `parse0` for this server URL, and one refresh has
     * run before the client is returned. Its error is only logged.
     */
    constructor (serverPath: seq<Segment>, readTimeout: Duration, fetch0: nat, parse0: nat, transport: Transport)
      ensures path == ApiPath(serverPath) && this.readTimeout == readTimeout
      ensures var s0 := InitialState(fetch0, parse0);
              State() == Step(s0, transport(Call(path, RequestFor(s0), WaitTime(readTimeout)))).state
    {
      path := ApiPath(serverPath);
      this.readTimeout := readTimeout;
      targets, latestVersion, latestNonce := [], "", "";
      fetchErrors, parseErrors := fetch0, parse0;
      new;
      var _ := UpdateTargets(transport);
    }

    /** getTargets: the current targets, never an error, no refresh. */
    method GetTargets() returns (ts: seq<KumaTarget>, err: Option<string>)
      ensures ts == targets && err == None
    {
      ts, err := targets, None;
    }

    /**
     * updateTargets: one long-poll refresh. The call carries the current
     * version and nonce; the new state and the returned error are those of
     * Step for what the transport answered.
     */
    method UpdateTargets(transport: Transport) returns (err: Option<string>)
      modifies this
      ensures var c := old(NextCall());
              Transition(State(), err) == Step(old(State()), transport(c))
    {
      var requestBody := RequestFor(State());
      var x := transport(Call(path, requestBody, WaitTime(readTimeout)));
      if x.statusCode == StatusNotModified {
        return None;
      }
      if x.fetchError.Some? {
        fetchErrors := fetchErrors + 1;
        return Some("cannot read kuma_sd api response: " + x.fetchError.value);
      }
      if x.parsed.Err? {
        parseErrors := parseErrors + 1;
        return Some("cannot parse kuma_sd api response: " + x.parsed.error);
      }
      var response := x.parsed.value;
      targets, latestVersion, latestNonce := response.targets, response.versionInfo, response.nonce;
      return None;
    }
  }
}
