# browserpool: browser provisioning and the pool's object factory

This project models the core of `browserpool`, a Go library that keeps a
pool of headless Chrome browsers. Each browser runs in its own Docker
container. The model covers two parts:

- **The browser** (`browser.go`). A `Browser` is created with a Docker
  client. `Launch` then provisions it step by step:
  1. pull the `zenika/alpine-chrome` image, reading the pull's progress
     stream to its end;
  2. create the container: read the seccomp profile `chrome.json`,
     allocate a free host port and record it, ask Docker to create the
     container with port 9222/tcp forwarded to that port, and record the
     container ID;
  3. start the container and read its standard error line by line until a
     line holds `ws://`;
  4. fetch `http://localhost:<port>/json/version` and record its
     `webSocketDebuggerUrl`;
  5. close the Docker client;
  6. stamp the creation time.

  The first step that fails stops the launch, and its error is returned
  unchanged. `Close` removes the container with a fresh client.
- **The factory** (`factory.go`). The pool calls it to make, destroy,
  validate, activate and passivate browsers. A browser stays valid until
  more than one second has passed since its creation time.

Docker, HTTP, the filesystem, the port allocator and the clock are inputs.
A `Client` value holds the answer each Docker call gives for its arguments,
and a `Host` value holds the profile file, the free port, the decoded JSON
of each URL and the current instant. A stream is its bytes, the way it ends
(`io.EOF` or a read error) and the result of closing it. A Go `error` is a
`Failure`. A panic is a `Failure` of its own kind, which stops the launch
like an error does.

Modules:
- `Failure` (`failure.dfy`): outcomes and results.
- `Decimal` (`decimal.dfy`): `strconv.Itoa` text and a parser that reads it
  back.
- `LineReader` (`linereader.dfy`): `bufio.Reader.ReadBytes('\n')`,
  `bytes.Contains`, and a reference cut of a stream into complete lines and
  a final fragment.
- `Backend` (`backend.dfy`): the Docker and host collaborators.
- `Browsers` (`browser.dfy`): the `Browser` class and its steps.
- `Factory` (`factory.dfy`): the factory.

The two read loops are methods with loop invariants. Each is proved against
a specification (`DrainSpec`, `ScanSpec`) built on the reference line cut
`SplitLines`. The specification gives the loop's result, the number of
`ReadBytes` calls it makes and the reader's final position. The last two
are ghost: the source returns only the error.

`Launch` is proved against `LaunchOutcome` and `StepsRun`. These are
checked in turn against an independent definition of "the first failing
step of `LaunchOrder`" (`FailedAt` over `StepOutcome`).

The model follows the code in three places where the intended design
differs:
- A log stream that reaches end of file without a `ws://` line is not a
  failure: `startContainer` returns the stream's `Close` result.
- A browser exactly one second old is still valid: the comparison is a
  strict `>`.
- A `/json/version` answer without a string `webSocketDebuggerUrl` makes
  the type assertion panic. It is not reported as an error.

## Model

| member | source | states |
|---|---|---|
| Decimal.IntTextRoundTrip | browser.go:125 | The decimal text `strconv.Itoa` writes for any integer reads back as that integer, so the host port text names exactly the allocated port |
| Decimal.IntTextInjective | browser.go:125 | Different ports get different host port texts |
| LineReader.ReadBytes | browser.go:187 | One `ReadBytes('\n')` returns the next bytes in order with no gap. With a nil error they form a complete line ending in the delimiter. Otherwise they are everything left (no delimiter among them), paired with the error that ends the stream |
| LineReader.SplitLines | browser.go:186-195 | Every stream's bytes are the concatenation of complete lines followed by a fragment without a delimiter |
| LineReader.DecompositionUnique | browser.go:186-195 | There is only one such cut of a stream, so the lines a reader sees are determined by the bytes |
| LineReader.SplitLinesUnique | browser.go:186-195 | Any cut of the bytes into complete lines and a fragment is the one `SplitLines` gives |
| LineReader.SplitAfterPrefix | browser.go:186-195 | Complete lines already read from the front of a stream are the first lines of its cut, and the rest of the cut is the cut of the remaining bytes |
| LineReader.ContainsIffOccurs | browser.go:225 | `bytes.Contains` holds exactly when the needle occurs at some offset of the line |
| Browsers.ContainerConfigFields | browser.go:92-104 | The container runs `zenika/alpine-chrome`, exposes exactly `9222/tcp`, and runs with `--remote-debugging-address=0.0.0.0 --remote-debugging-port=9222` |
| Browsers.HostConfigForwardsPort | browser.go:117-130 | The host configuration removes the container when it stops. It binds only `9222/tcp`, once, on every interface, to host port text that reads back as the chosen port. Its only security option is `seccomp=` followed by the profile's bytes, unchanged |
| Browsers.BytesText | browser.go:129 | `string(chromeSec)` keeps the profile's length and every byte |
| Browsers.VersionURLHoldsPort | browser.go:143 | The metadata URL is `http://localhost:` + port text + `/json/version`, and the port reads back from it |
| Browsers.DebugURLFromMetadata | browser.go:142-157 | A fetch or decoding error is returned unchanged. The result is a URL exactly when the decoded map holds `webSocketDebuggerUrl` as a string, and then it is that string. Decoded metadata without it panics |
| Browsers.ReadToEnd | browser.go:184-197 | The drain loop makes one read per complete line plus one for the final fragment and consumes the whole stream. It returns the first read error other than end of file, or else the stream's `Close` result |
| Browsers.PullImage | browser.go:175-198 | `pullImage` returns the pull request's error, or what draining the progress stream returns |
| Browsers.ReadUntilMarker | browser.go:213-230 | The readiness loop reads up to and including the first complete line holding `ws://` and then returns the stream's `Close` result. Without such a line it reads to the end like the drain loop |
| Browsers.StartContainer | browser.go:200-231 | `startContainer` returns the start request's error, the log request's error, or what scanning standard error for readiness returns |
| Browsers.MarkerIndexFirst | browser.go:215-228 | The line the scan stops at holds the marker, and no earlier complete line does |
| Browsers.MarkerIndexNone | browser.go:215-228 | The scan finds no line exactly when no complete line holds the marker |
| Browsers.ScanStopsAtFirstMarker | browser.go:215-230 | N complete lines without `ws://` and then one with it take exactly N + 1 reads. The reader stops right after that line, whatever follows, and the result is the stream's `Close` result |
| Browsers.FragmentNeverSearched | browser.go:215-230 | When no complete line holds the marker, the scan reads every line and the final fragment, even a fragment that holds `ws://`. End of file then yields the stream's `Close` result, not a failure; any other read error is returned |
| Browsers.DrainReadsEveryLine | browser.go:184-197 | N complete lines and a fragment take N + 1 reads and consume every byte. End of file yields the `Close` result; any other read error is returned instead |
| Browsers.FailedAtIsFirstFailure | browser.go:52-79 | `FailedAt` is the first step of `LaunchOrder` that fails: every step before it passes |
| Browsers.LaunchStopsAtFirstFailure | browser.go:52-79 | A launch runs the steps of `LaunchOrder` up to and including the first that fails, and none after it, and returns that step's failure. When no step fails it runs all of them and passes |
| Browsers.Browser.constructor | browser.go:39 | A new `Browser` holds its client, and every other field has its zero value |
| Browsers.Browser.CreateContainer | browser.go:91-140 | `createContainer` returns the profile read's error before any port is allocated, then the port allocation's error, then the create call's error. The port is recorded before the create call and stays when that call fails. The ID is recorded only when the create call succeeds |
| Browsers.Browser.Launch | browser.go:52-79 | `Launch` returns the first failure of its steps, unchanged. The port, ID and debugger URL change exactly when the launch got past the step that produces them. The creation time changes only when every step, the client's `Close` included, passed |
| Browsers.Browser.Close | browser.go:82-89 | `Close` returns the error making a client gave, or else the force-removal result for the browser's container ID |
| Browsers.NewBrowser | browser.go:37-49 | `NewBrowser` returns the client error, or a fresh unlaunched browser holding the new client |
| Factory.Since | factory.go:43 | The elapsed time `time.Since` gives always lies in the range of a `time.Duration` |
| Factory.MakeObject | factory.go:17-30 | `MakeObject` returns `NewBrowser`'s error unchanged, or `Launch`'s failure unchanged, and then makes no object. Otherwise it wraps a fresh browser whose port, ID, debugger URL and creation time are those of a completed launch |
| Factory.DestroyObject | factory.go:32-38 | `DestroyObject` returns exactly what closing the wrapped browser returns |
| Factory.ValidateObject | factory.go:40-49 | A browser is valid exactly when at most `maxBrowserAge` (one second) has passed since its creation time. Saturating the elapsed time to a Duration never changes the verdict, and the check reads nothing but the creation time |
| Factory.ValidAtExactlyMaxAge | factory.go:43 | A browser exactly one second old is still valid; one a nanosecond older is not |
| Factory.UnlaunchedIsInvalid | factory.go:40-49 | A browser that keeps the zero creation time is invalid at any instant more than a second after it |
| Factory.ActivateObject | factory.go:51-53 | `ActivateObject` always succeeds and changes nothing |
| Factory.PassivateObject | factory.go:55-57 | `PassivateObject` always succeeds and changes nothing |

## Left out

- `pool.go` is not part of this model. It only configures the
  `go-commons-pool` library, which is not shown. Capacity, idle sets,
  borrowing and return-time testing all happen inside that library.
- Docker, HTTP, the filesystem, `getFreePort` and the clock are inputs.
  Each collaborator answers every call with a value fixed by its arguments.
  The socket work of `getFreePort` (browser.go:159-173) is reduced to the
  port or error it yields.
- JSON decoding is not modelled: the decoded map is an input. Decoded
  values other than strings are not told apart.
- Timeouts from `context.WithTimeout` (browser.go:176) are not modelled.
  A timeout shows up as an error answer or as a stream ending in a read
  error.
- `resp.Body.Close` in `getDebugURL` is not modelled, because the source
  ignores its result.
- Logging through zap (factory.go:27, 35, 44) has no effect on any result
  and is not modelled.
- Concurrency is not modelled, since the pool library owns it.
- Browsers.Browser.Launch: a panic is returned as a `Failure` rather than
  unwinding the caller, so `MakeObject` passes it on the way it passes an
  error.
- Browsers.Browser.Launch: the model does not record which collaborator
  calls were made. Collaborators have no side effects in the model, so
  "no later step runs after a failure" shows only in the returned failure
  and in which fields changed.
- Read-ahead inside `bufio.Reader` is not modelled. A buffer fill can take
  bytes after the line just returned out of the underlying Docker stream.
  The `consumed` count of a scan is the reader's position: the bytes its
  `ReadBytes` calls returned. It is not the number of bytes taken from the
  stream, and "nothing after that line is consumed" holds only in that
  sense.
- Streams in the model are finite: every stream has an end, either
  `io.EOF` or a read error. In the source, `startContainer` follows the log
  (browser.go:205-208) and has no timeout of its own. A container that
  keeps running and never prints `ws://` leaves `ReadBytes` at
  browser.go:216 blocked until the caller's context is cancelled, and
  `Launch` and `MakeObject` block with it. That case is not modelled.
- The pooled object's own bookkeeping (its state and timestamps inside
  `go-commons-pool`) is not modelled. A pooled object is only the browser
  it wraps.
- Instants are integer nanoseconds, with Go's zero `time.Time` as 0, and
  `time.Now` is one reading given as an input. Monotonic clock readings
  are not modelled.
