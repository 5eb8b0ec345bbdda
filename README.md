# whatnetwork in Dafny

A model of the Go library `whatnetwork`, which answers two questions for an
application whose HTTP request failed:

- **What kind of failure was it?** `ExtractBasicError` walks the shape of a Go
  error value (a `*url.Error` wrapping a `*net.OpError`, a bare `*net.OpError`
  wrapping an `*os.SyscallError` or another `*net.OpError`, the `io.EOF`
  sentinel, or any other error seen through its message) and maps it onto one
  of six categories: `CantResolveHost`, `CantFindHost`, `CantConnectToHost`,
  `UnexpectedEof`, `BadDataReceived`, `Unknown`. `IsConnectionError` says
  whether an error falls in the first three.
- **Is the internet reachable?** `CheckNetworkConnectionAndHost` looks at the
  local interfaces (any? any up? any non-loopback IP address on an up one?) and
  then sends HTTP HEAD requests to `http://www.google.com` and, optionally, a
  caller-supplied URL, classifying the first failure.

Files:

- `wrappers.dfy`: `Option` and `Result`. Go's `(status, nil)` is `Ok(status)`;
  Go's `("", err)` is `Err(err)`.
- `classifier.dfy` (module `Classifier`): the taxonomy, the error shapes as the
  datatype `Error`, `Message` (what `err.Error()` returns), `ExtractBasicError`,
  `IsConnectionError`, and lemmas giving, for every category, exactly the
  error shapes that map onto it.
- `prober.dfy` (module `Prober`): the interface snapshot, specification
  functions for the counters and the probe loop, the imperative
  `CheckNetworkConnectionAndHost` (its interface loop is the separate method
  `CountInterfaces`), `CheckNetworkConnection`, and lemmas that characterise
  every status the check can report.

The operating system and the network are inputs. `net.Interfaces()` is the
parameter `listing`. Each `Interface` carries what its `Addrs()` returns. The
HTTP client is a function `head` from URL to `None` (success) or the error. A
ghost out-parameter `probed` records the URLs a request was sent to, so that
the short-circuit of the probe loop can be stated.

## Where the code differs from the design description

The model follows the code in each of these places:

- A `*url.Error` is never tested against `io.EOF` or the message texts. Its
  category depends only on the error it wraps (`UrlErrIgnoresMessage`).
- The "WSARecv" operation gives `UnexpectedEof` only for a bare `*net.OpError`.
  Inside a `*url.Error` it gives `Unknown` (`KindUnknown`).
- A bare "dial" whose inner error is neither `GetAddrInfoW` nor `ConnectEx`
  gives `Unknown`. Only inside a `*url.Error` does a dial default to
  `CantResolveHost` (`DialFallbackDependsOnWrapper`).
- `ExtractBasicError` is not idempotent: given a `BasicError` it returns
  `Unknown`, because that error's text is just its category name
  (`ReExtractIsUnknown`). Only `IsConnectionError` reuses an existing
  category.

## Model

| member | source | states |
|---|---|---|
| `Classifier.ExtractBasicError` | whatnetwork.go:129-183 | the cause is the input unchanged; a `*url.Error` or `*net.OpError` is never `BadDataReceived`; a `*url.Error` is never `UnexpectedEof` |
| `Classifier.BasicErrorType.Name` | whatnetwork.go:74-81 | the category's string constant: never empty and shorter than both the transport-closed text and the malformed-response prefix |
| `Classifier.Message` | whatnetwork.go:88-90 | the text `err.Error()` returns: for a `BasicError` its category name, for a plain error its message, and for a wrapping error a text ending in ": " and the wrapped error's text |
| `Classifier.KindCantConnectToHost` | whatnetwork.go:135-166 | `CantConnectToHost` iff a dial wrapping a `ConnectEx` operation, bare or inside a `*url.Error` |
| `Classifier.KindCantResolveHost` | whatnetwork.go:135-159 | `CantResolveHost` iff a `*url.Error` around a dial not failing in `ConnectEx`, or a bare dial wrapping the `GetAddrInfoW` system call |
| `Classifier.KindCantFindHost` | whatnetwork.go:147-150 | `CantFindHost` iff a `*url.Error` around a "local error" operation |
| `Classifier.KindUnexpectedEof` | whatnetwork.go:167-176 | `UnexpectedEof` iff a bare "WSARecv" operation, `io.EOF` itself, or a plain error whose text is exactly the transport-closed message |
| `Classifier.KindBadDataReceived` | whatnetwork.go:171-180 | `BadDataReceived` iff a plain error other than `io.EOF` whose text starts with "malformed HTTP response" |
| `Classifier.KindUnknown` | whatnetwork.go:132-182 | `Unknown` is, per shape, exactly the fallback: a `*url.Error` around neither "dial" nor "local error"; a bare operation that is no recognised dial and not "WSARecv"; a plain error matching no sentinel or text |
| `Classifier.MalformedIsNotTransportClosed` | whatnetwork.go:103-109 | a text with the malformed-response prefix is never the transport-closed text, so the two text rules never compete |
| `Classifier.UrlErrIgnoresMessage` | whatnetwork.go:132-151 | two `*url.Error`s around the same error get the same category whatever their operation and URL |
| `Classifier.StructureBeforeText` | whatnetwork.go:132-180 | a `*url.Error` whose message starts with the malformed-response prefix but wraps a dial failing in `ConnectEx` is `CantConnectToHost` |
| `Classifier.DialFallbackDependsOnWrapper` | whatnetwork.go:135-166 | a dial with an unrecognised inner error is `CantResolveHost` inside a `*url.Error` and `Unknown` when bare |
| `Classifier.NameIsNoKnownText` | whatnetwork.go:74-109 | no category name is the transport-closed text or starts with the malformed-response prefix |
| `Classifier.ReExtractIsUnknown` | whatnetwork.go:88-90 | classifying a `BasicError` again always yields `Unknown` |
| `Classifier.IsConnectionError` | whatnetwork.go:111-127 | for a `BasicError` the answer is whether its own category is a connectivity one; for any other error, whether its extracted category is |
| `Classifier.IsConnectionErrorShapes` | whatnetwork.go:111-127 | true iff a `BasicError` of a connectivity category, a `*url.Error` around a "dial" or "local error" operation, or a bare dial failing in `ConnectEx` or `GetAddrInfoW` |
| `Classifier.IsConnectionErrorStable` | whatnetwork.go:111-127 | wrapping a classification in a `BasicError` does not change whether it is a connection error |
| `Prober.ConnectionStatus.Name` | whatnetwork.go:94-100 | the status's string constant, never the empty status returned beside an error |
| `Prober.TestUrls` | whatnetwork.go:230-237 | one or two URLs; the well-known host first; a second URL iff the extra URL is not empty, and then it is that URL |
| `Prober.CountInterfaces` | whatnetwork.go:201-222 | returns the error of the first up interface whose addresses cannot be listed; otherwise the number of up interfaces and of non-loopback IP addresses on them |
| `Prober.CheckNetworkConnectionAndHost` | whatnetwork.go:193-254 | the result is `Check` of the inputs; requests are sent to `ProbedUrls` of the test URLs once the local tests pass, and to nothing otherwise |
| `Prober.CheckNetworkConnection` | whatnetwork.go:187-189 | the result is the check with no extra host, which probes only the well-known host |
| `Prober.UpCountZero` | whatnetwork.go:203-207 | the up counter is zero iff every interface is down |
| `Prober.CountedAddrsZero` | whatnetwork.go:213-221 | no address of an interface is counted iff each is loopback or not an IP address |
| `Prober.NonLoopbackCountZero` | whatnetwork.go:203-222 | the address counter is zero iff no up interface with listed addresses has a non-loopback IP address |
| `Prober.FirstAddrsErrorNone` | whatnetwork.go:209-212 | no address-listing error is reported iff every up interface lists its addresses |
| `Prober.FirstAddrsErrorAt` | whatnetwork.go:209-212 | the error reported is that of the first up interface whose addresses cannot be listed |
| `Prober.ProbeConnected` | whatnetwork.go:239-253 | the probe gives `Connected` iff every request succeeds, and then every URL was requested |
| `Prober.ProbeFirstFailure` | whatnetwork.go:239-251 | at the first failing request the probe stops: exactly the URLs up to it were requested; a connectivity category gives `NoInternet`, any other the raw error |
| `Prober.ProbeStatuses` | whatnetwork.go:239-253 | the probe reports only `NoInternet`, `Connected` or a raw error |
| `Prober.ProbeErrorIsNotConnectivity` | whatnetwork.go:241-249 | a raw error from the probe is one the client returned and is never of a connectivity category |
| `Prober.CheckEnumerationError` | whatnetwork.go:194-197 | an interface enumeration failure is returned raw and nothing is probed |
| `Prober.CheckAddrsError` | whatnetwork.go:209-212 | an address-listing failure of an up interface is returned raw (the first one) and nothing is probed |
| `Prober.CheckNoInterfaces` | whatnetwork.go:198-200 | `NoInterfaces` iff the interface table is empty |
| `Prober.CheckNoInterfacesUp` | whatnetwork.go:223-225 | `NoInterfacesUp` iff the table is not empty and every interface is down |
| `Prober.CheckNoNonLoopbacks` | whatnetwork.go:226-228 | `NoNonLoopbacksFound` iff some interface is up, every up one lists its addresses, and none of those is a non-loopback IP address |
| `Prober.CheckConnected` | whatnetwork.go:230-253 | `Connected` iff the local tests pass and both the well-known host and (when given) the extra host answer; then both were requested |
| `Prober.CheckWellKnownFails` | whatnetwork.go:230-251 | when the well-known host fails, the extra host is never requested; a connectivity category gives `NoInternet`, any other the raw error |
| `Prober.CheckExtraHostFails` | whatnetwork.go:230-251 | when only the extra host fails, both were requested and its failure decides the result as above |
| `Prober.StatusNamesDistinct` | whatnetwork.go:92-100 | status strings are non-empty and pairwise distinct, so the empty status returned beside an error names no status |

## Left out

- `net.Interfaces()`, `Interface.Addrs()` and `http.Head` are operating-system and network I/O; they are inputs (`listing`, each interface's `addrs`, `head`).
- The `log.Printf`/`log.Println` diagnostics are observability only and change no result.
- Go's runtime type assertions are pattern matches on the `Error` datatype. Only a `BasicError` value (not a pointer to one) is recognised by `IsConnectionError`, as in the source.
- A nil error is not an `Error` value: `ExtractBasicError` is only called on non-nil errors (the source would fail on `err.Error()` for nil).
- `Message` follows the Go standard library's text for `*url.Error` and `*net.OpError` only loosely (the address of an `OpError` is omitted, and the quoting of the URL differs between Go versions); the classifier never reads the text of these two shapes. A bare `*os.SyscallError` is judged by its text like any other plain error, and its `Message` is Go's text exactly (system call name, ": ", wrapped error's text).
- The meaning of "ConnectEx", "WSARecv" and "GetAddrInfoW" and of `IP.IsLoopback()` is platform specific; they are string constants and a boolean of `IPAddr`. Every address that is not an `*net.IPAddr` is `OtherAddr`.
- Interface flags other than "up" are not modelled; they do not affect the result.
- `CheckNetworkConnectionAndHost`: the interface loop is the separate method `CountInterfaces`, called at the same point; it runs the same loop and keeps each proof small.
- `CheckNetworkConnectionAndHost`: probe outcomes are given per URL (`head` is a function of the URL alone), so when the extra URL equals the well-known one both requests get the same answer; the source sends two separate requests, and the second could fail after the first succeeded.
- Timeouts, concurrency and the release of HTTP connections are properties of the HTTP client, which is an input.
