# Kuma service discovery: a Dafny model

This project models the Kuma service discovery of VictoriaMetrics' scraper
(`lib/promscrape/discovery/kuma`). It covers two pieces.

- **The discovery client** (`api.go`, module `KumaApi`). One client per
  configured server holds the current targets, the last acknowledged
  `version_info` and nonce, and two error counters. A refresh
  (`updateTargets`) sends a request carrying that version and nonce and asks
  the server to hold the call for at most the wait budget (`getWaitTime`:
  the read timeout less an eighth). It then classifies the answer:
  - "not modified" (HTTP 304) is a no-op success;
  - a transport error bumps the fetch-error counter;
  - a parse error bumps the parse-error counter;
  - a parsed response replaces targets, version and nonce in one step.

  The class `ApiConfig` is the client. `Step` is the transition one refresh
  makes, and `UpdateTargets` is proved against it. `Replay` folds `Step`
  over a history of refreshes.
- **The label projector** (`kuma.go`, module `Kuma`). `kumaTargetsToLabels`
  turns each target into a label set with eight fixed entries and one
  `__meta_kuma_label_<k>` entry per custom label. `GetLabels` composes the
  client lookup, the target read and the projector.

A label set is a sequence of name/value pairs in the order they are
appended, before the final `RemoveDuplicates` call. `IsLabelSetOf` says what
such a sequence holds. `LabelMap` is the independent, order-free reference:
the map a label set must denote. Only the order-free facts (names, values,
8 + len(Labels) unique names) are claimed of what the program returns.

The HTTP transport is a parameter of the refresh: a function from the call
(path, request body, fetch timeout) to what came back. What came back is
the status code, the transport error if any, and the parse result. The
parser itself (`parseDiscoveryResponse`, `parseKumaTargets`) is not part of
this model. A `DiscoveryResponse` carries the version, the nonce and the
targets the parser would produce.

Two behaviours of the code are easy to misread, and the model follows the
code in both:
- One might expect a failed first refresh to make client construction fail;
  it does not.
  `newAPIConfig` only logs the error and returns the client with no targets
  (api.go:86-97). See `FailedFirstRefreshLeavesNoTargets`.
- Targets, version and nonce are replaced on every parsed non-304 response,
  whether or not the version changed (api.go:151-155).

## Model

| member | source | states |
|---|---|---|
| `KumaApi.RequestFor` | lib/promscrape/discovery/kuma/api.go:107-112 | The request body carries the client's current version and nonce, node id `victoria-metrics` and type URL `type.googleapis.com/kuma.observability.v1.MonitoringAssignment` |
| `KumaApi.WaitTime` | lib/promscrape/discovery/kuma/api.go:160-162 | For a read timeout T of at least 0, the budget is in [0, T], is below T once T is at least 8, and equals 7T/8 rounded up (7T <= 8w < 7T+8); for negative T it lies in [T, 0]. The result always fits in an int64 Duration |
| `KumaApi.ApiPathShape` | lib/promscrape/discovery/kuma/api.go:72-76 | The request path is the server's request URI, less its root slash, followed by `/v3/discovery:monitoringassignments`. Split at '/', it gives back the server's segments followed by `v3` and `discovery:monitoringassignments` |
| `KumaApi.SplitSlashed` | lib/promscrape/discovery/kuma/api.go:72-76 | Splitting a joined path at '/' gives back its segments (the inverse of the join) |
| `KumaApi.ApiPathOfBareServer` | lib/promscrape/discovery/kuma/api_test.go:10-26 | A server URL with an empty path, such as `http://localhost:5676`, has request URI `/` and request path exactly `/v3/discovery:monitoringassignments` |
| `KumaApi.Step` | lib/promscrape/discovery/kuma/api.go:137-157 | A refresh succeeds iff the answer is a 304 or a parsed response. The sum of the two counters rises by one exactly when an error is returned, and neither counter ever falls. The snapshot is either kept or replaced as a whole by the response's targets, version and nonce, and it is kept whenever an error is returned |
| `KumaApi.NotModifiedIsNoOp` | lib/promscrape/discovery/kuma/api.go:137-139 | A 304 changes nothing and returns nil, even when the transport also reported an error |
| `KumaApi.FetchFailureKeepsTargets` | lib/promscrape/discovery/kuma/api.go:140-143 | A transport failure other than 304 returns an error, keeps targets, version and nonce, adds one to the fetch errors and leaves the parse errors alone |
| `KumaApi.ParseFailureKeepsTargets` | lib/promscrape/discovery/kuma/api.go:145-149 | A parse failure returns an error, keeps targets, version and nonce, adds one to the parse errors and leaves the fetch errors alone |
| `KumaApi.FetchedReplacesSnapshot` | lib/promscrape/discovery/kuma/api.go:151-157 | A parsed response sets targets, version and nonce from the response together, leaves both counters alone and returns nil |
| `KumaApi.NextRequestAcknowledges` | lib/promscrape/discovery/kuma/api.go:106-158 | After a parsed response the next request carries that response's version and nonce. After any other outcome the next request is the same as the previous one |
| `KumaApi.FailedFirstRefreshLeavesNoTargets` | lib/promscrape/discovery/kuma/api.go:86-97 | If the refresh run during construction does not apply a response, the new client has no targets and an empty version and nonce |
| `KumaApi.ReplayCounts` | lib/promscrape/discovery/kuma/api.go:140-149 | Over any history of refreshes, the fetch-error counter rises by the number of transport failures and the parse-error counter by the number of parse failures |
| `KumaApi.ReplaySnapshot` | lib/promscrape/discovery/kuma/api.go:85-92 | Over any history of refreshes, the snapshot is that of the last applied response, or the initial one if none was applied. Errors keep the previous targets, and targets, version and nonce always come from the same response |
| `KumaApi.ApiConfig.NextCall` | lib/promscrape/discovery/kuma/api.go:106-132 | A refresh's call goes to the client's path and acknowledges the last applied version and nonce with node id `victoria-metrics` and the MonitoringAssignment type URL. Its fetch timeout lets the server answer before the client's read timeout: within [0, T] for a read timeout T of at least 0, strictly below T once T is at least 8, and within [T, 0] for negative T |
| `KumaApi.ApiConfig.constructor` | lib/promscrape/discovery/kuma/api.go:72-97 | A new client has the request path for its server, and its state is that of one refresh from an empty snapshot (no targets, empty version and nonce) whose counters hold the values the metrics registry already has for the server URL |
| `KumaApi.ApiConfig.GetTargets` | lib/promscrape/discovery/kuma/api.go:100-104 | Returns exactly the stored targets and never an error; it changes nothing |
| `KumaApi.ApiConfig.UpdateTargets` | lib/promscrape/discovery/kuma/api.go:106-158 | The transport is called with the call for the old state. The new state and the returned error are those `Step` gives for the answer |
| `Kuma.FixedNamesNotPrefixed` | lib/promscrape/discovery/kuma/kuma.go:46-56 | None of the eight fixed names starts with `__meta_kuma_label_`, so no custom entry can collide with one |
| `Kuma.FixedNamesDistinct` | lib/promscrape/discovery/kuma/kuma.go:46-53 | The eight fixed names are pairwise distinct |
| `Kuma.PrefixInjective` | lib/promscrape/discovery/kuma/kuma.go:54-56 | Distinct custom keys give distinct prefixed names |
| `Kuma.AddCustomLabels` | lib/promscrape/discovery/kuma/kuma.go:54-56 | Appending the custom labels, in any order, keeps the entries already there. It adds exactly one `__meta_kuma_label_<k>` -> v entry per custom label and nothing else, and no name is repeated |
| `Kuma.TargetLabels` | lib/promscrape/discovery/kuma/kuma.go:44-58 | One target's label set: the eight fixed entries in order, with the values listed in kuma.go, then exactly the prefixed custom labels, as appended before `RemoveDuplicates`. It has 8 + len(Labels) entries with unique names, so no entry is a duplicate |
| `Kuma.KumaTargetsToLabels` | lib/promscrape/discovery/kuma/kuma.go:41-62 | Exactly one label set per target, in input order (none for no targets). Each one is a label set of its target with `__meta_server` = the source URL |
| `Kuma.ToMapAppend` | lib/promscrape/discovery/kuma/kuma.go:44-58 | Read as a map, a label set built from two parts is the first part's map overridden by the second's |
| `Kuma.LabelSetIsLabelMap` | lib/promscrape/discovery/kuma/kuma.go:44-58 | Read as a map, every label set of a target is exactly the fixed entries plus the prefixed custom labels, and that map has 8 + len(Labels) keys |
| `Kuma.LabelSetNamesServer` | lib/promscrape/discovery/kuma/kuma.go:50 | Every label set holds `__meta_server` and maps it to the source URL |
| `Kuma.GetLabels` | lib/promscrape/discovery/kuma/kuma.go:29-39 | A failed client lookup returns the wrapped error and no labels. A failed target read returns its error unchanged. Otherwise the result is one label set per target, each holding `__meta_server` = the configured server |

## Left out

- The shared client registry (`configMap`, `getAPIConfig`, `MustStop`) is not part of this model: its single-flight lookup lives in a package that is not modelled. `GetLabels` takes the lookup's outcome as an input.
- `getKumaTargets` and the parsers `parseDiscoveryResponse`, `parseKumaTargets` and `parseAPIResponse` are not part of this model. Their results are inputs: the `targets` argument of `GetLabels`, and the `parsed` field of an `Exchange`.
- The background loop `initAndRepeatWithInterval` (goroutine, ticker, cancellation) and `mustStop` are concurrency and are not modelled. The model keeps only that one refresh runs before the constructor returns. `Replay` stands for the refreshes that follow, in order.
- The read/write mutex around the snapshot is not modelled. The success branch is one assignment of targets, version and nonce.
- `newAPIConfig`'s error paths (auth config, `url.Parse`, proxy config, HTTP client creation) come from library code that is not modelled. The constructor takes the server URL's path already parsed.
- The JSON encoding of the request body is not modelled, so neither is its error branch (api.go:113-115). Also not modelled: the POST method, the `Accept`/`Content-Type` headers, and how the `fetch-timeout` query parameter is written. The request is a `DiscoveryRequest` value and the timeout a `Duration`.
- `KumaApi.ApiPath`: only server paths made of clean segments are modelled (non-empty, not `.` or `..`, no `/`). `path.Join`'s cleaning of other paths and server URLs with a query string are library behaviour.
- `discoveryutils.BlockingClientReadTimeout` is not part of this model. `WaitTime` takes the read timeout as an argument, and `ApiConfig` keeps it as a constant field.
- `RemoveDuplicates` (in `promutils`) is not part of this model. `TargetLabels` proves its input has 8 + len(Labels) entries with unique names, so no entry is a duplicate; whether the call also reorders the entries is not modelled.
- `TargetLabels` / `KumaTargetsToLabels`: the entry order after `RemoveDuplicates` is not modelled. The positional clauses of `IsLabelSetOf` (fixed entries first, in source order, custom entries after) describe the sequence as appended; the only claim made of the program's returned label sets is the order-free one, `LabelSetIsLabelMap` (names, values and 8 + len(Labels) unique names).
- `promutils.Labels` is modelled as a value (a sequence of name/value pairs), not as a shared pointer.
- Go's map iteration order over a target's labels is modelled as an unspecified choice of the next key.
- The error counters are unbounded naturals, not `metrics.Counter` values. The logging of refresh errors is left out.
- `KumaApi.ApiConfig.constructor`: the program gets its counters from a process-wide registry keyed by the server URL (api.go:81-82), and `mustStop` never unregisters them. A client rebuilt for the same server therefore resumes the old counts, and two clients for one server share a counter. The model gives each client its own copy, starting from the registry's values `fetch0` and `parse0` passed in; it does not capture the sharing. Only per-refresh changes (`Step`, its lemmas and `ReplayCounts`) are claimed of the counters.
