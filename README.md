# quicksand session controller, modelled in Dafny

quicksand is a small HTTP control plane. It launches one containerized
remote-browser session (Firefox by default) on demand, and it returns the URL
at which the browser's remote display can be embedded in an iframe. This
project models two parts of it:

- **The lifecycle controller (`main.go`).** The process keeps one session
  record in the globals `currentName` and `currentHostURL`. Three handlers
  change it: `startHandler`, `stopHandler` and `restartHandler`.
  `controller.dfy` (module `Controller`) holds two things. The first is a
  class `Server` with those two fields, a ghost log `calls` of the adapter
  calls made, and one method per handler. The second is the functions
  `StartSpec`, `StopSpec` and `RestartSpec`. Each gives a handler's effect as
  a value: the record afterwards, the reply, and the calls made, in order.
  Each method's postcondition equates its new state, its reply and its
  appended calls with its function. The functions are the reference
  description of the handlers: the methods restate them step by step over
  the fields, and every property is proved about the functions.
  `controller_properties.dfy` (module
  `ControllerProperties`) proves what the handlers promise about those
  functions. It covers single requests and whole sequences of requests.
- **Instance naming and the port policy (`docker_sdk/docker.go`).**
  `randomizeName` appends the zero-padded last four digits of the Unix time
  to a prefix. The container's ports are published by a constant policy.
  `docker_sdk.dfy` (module `DockerSdk`) models Go's `%d` and `%04d` printing
  as functions over `string`. It proves what the generated name looks like
  and when two names collide. It states the port set and the port map as
  constants, with lemmas about them.

The container runtime is an abstract adapter:

- What `StartContainer` reports is an input of the start handler, of type
  `StartOutcome`: either a name and a host port, or an error message. A
  deadline that runs out is one more error.
- The handlers discard the results of `StopContainer` and `RemoveContainer`
  (`_ = ...`), so the model does not take them as inputs. Nothing a handler
  does can depend on them.
- Each handler calls the adapter the way `main.go:103` does: `StartContainer`
  returns `(name, hostPort, err)`. The `StartContainer` in
  `docker_sdk/docker.go:17` returns only an `error`, so the two files
  disagree. This model follows `main.go`.
- `StopContainer` and `RemoveContainer` are not defined in
  `docker_sdk/docker.go`. They exist here only as entries of the call log.

Two places where the code and its evident intent part:

- Line 80 of `docker_sdk/docker.go` returns `s + last4`, but no `s` is
  declared there. `DockerSdk.RandomizeName` uses the parameter `ctrName`,
  which is evidently what was meant.
- `main.go` never checks the name the adapter reports. So "`currentName` is
  empty iff `currentHostURL` is empty" holds only while the adapter names
  every container it starts. `ControllerProperties.UnnamedStartBreaksConsistency`
  shows a start that breaks it. What holds whatever the adapter says is
  `WellFormed`. It requires that no name is tracked without a URL, and that a
  URL has the shape `http://localhost:<port>`. `Server.Valid()` keeps
  `WellFormed`.

## Model

| member | source | states |
|---|---|---|
| `DockerSdk.Decimal` | docker_sdk/docker.go:79 | Go's `%d` of a non-negative number: at least one character, all decimal digits, no leading zero unless it is the only digit |
| `DockerSdk.DecimalValue` | docker_sdk/docker.go:79 | reading back the digits `Decimal` prints gives the number |
| `DockerSdk.DecimalLength` | docker_sdk/docker.go:79 | a number below 10^k prints with at most k digits, so `%04d` of `t % 10000` adds padding only where it is needed |
| `DockerSdk.FormatZeroPaddedShape` | docker_sdk/docker.go:79 | `%0<w>d` of a number below 10^w is exactly w digits that read back as the number |
| `DockerSdk.RandomizeName` | docker_sdk/docker.go:77-81 | the name is `ctrName` followed by the suffix: it begins with the prefix and is four characters longer |
| `DockerSdk.SuffixShape` | docker_sdk/docker.go:78-79 | the suffix is exactly four decimal digits that, read as a number, equal `timestamp % 10000` |
| `DockerSdk.SuffixLeadingZero` | docker_sdk/docker.go:79 | the suffix starts with a padding `0` if and only if `timestamp % 10000` is below 1000 |
| `DockerSdk.NameCollision` | docker_sdk/docker.go:78-80 | two names with one prefix are equal if and only if their timestamps agree modulo 10000; this is the known collision window |
| `DockerSdk.ScenarioNames` | docker_sdk/docker.go:77-81 | clock readings 1700001234 and 1700000042 give `firefox_go1234` and `firefox_go0042` |
| `DockerSdk.PortNumber` | docker_sdk/docker.go:40-47 | the number part of a `<number>/<protocol>` port key is the longest prefix without `/`, ending where the `/` is |
| `DockerSdk.PortNumberOfKey` | docker_sdk/docker.go:41-46 | the key `<number>/<protocol>` yields its number back |
| `DockerSdk.ExposedPortsAreTwo` | docker_sdk/docker.go:40-43 | exactly two container ports are exposed, `5800/tcp` and `5900/tcp` |
| `DockerSdk.PortBindingsMirrorExposed` | docker_sdk/docker.go:44-47 | the ports that have bindings are exactly the exposed ports; each has one binding, on `localhost`, to the host port with the same number |
| `Controller.Server.constructor` | main.go:53-59 | the process starts with both fields empty, which is well formed, and with no adapter calls made |
| `Controller.Server.StartHandler` | main.go:68-122 | the new record, the reply and the appended adapter calls are those of `StartSpec` on the old record; the record stays well formed |
| `Controller.Server.StopHandler` | main.go:124-144 | the new record, the reply and the appended adapter calls are those of `StopSpec` on the old record; the record stays well formed |
| `Controller.Server.RestartHandler` | main.go:146-150 | the stop handler runs, then the start handler on the same request; both replies, the new record and the calls are those of `RestartSpec` |
| `ControllerProperties.StartCallsAdapterWithImage` | main.go:74-103 | the last adapter call of a start is `Start`. It uses the requested image, or `jlesage/firefox` when that is empty or absent, and always the prefix `firefox_go` |
| `ControllerProperties.StartTearsDownFirst` | main.go:83-103 | with a container tracked, a start calls `Stop(prev)`, then `Remove(prev, true)`, then `Start`; with none tracked, `Start` is the only call |
| `ControllerProperties.StartFailureLeavesEmpty` | main.go:88-107 | when the adapter's start fails, the reply is 500 with `ok=false` and the adapter's error text from any record; no name is tracked afterwards, and from a consistent record the whole record is empty |
| `ControllerProperties.StartWithoutHostPortLeavesEmpty` | main.go:88-112 | when the adapter reports no host port, the reply is 500 with "Could not determine host port for container" from any record; no name is tracked afterwards, and from a consistent record the whole record is empty |
| `ControllerProperties.StartSuccessTracksContainer` | main.go:114-121 | on success the record holds the reported name and `http://localhost:<hostPort>`, and the reply is 200 with `ok=true` and that URL |
| `ControllerProperties.StartReplyMatchesRecord` | main.go:103-121 | a start's reply is 200 iff it is `ok`, iff the adapter reported a container with a host port. An `ok` reply carries the recorded URL; any other reply is 500 with no name tracked |
| `ControllerProperties.StartTracksGeneratedName` | docker_sdk/docker.go:60 | a container named by `randomizeName("firefox_go")` is tracked as `firefox_go` plus four digits equal to the timestamp modulo 10000 |
| `ControllerProperties.StopWhenIdleIsNoOp` | main.go:127-133 | with no name tracked, stop replies 200 `ok`, makes no adapter call and changes nothing |
| `ControllerProperties.StopTearsDown` | main.go:135-143 | with a name tracked, stop calls `Stop(name)` and then `Remove(name, true)`, clears both fields and replies 200 `ok` |
| `ControllerProperties.StopIdempotent` | main.go:124-144 | a second stop makes no adapter call and leaves the record and the reply as the first stop did |
| `ControllerProperties.RestartIsStopThenFreshStart` | main.go:146-150 | a restart tears down once, its start half makes only the `Start` call, and its start reply is that of a start from the empty record. It ends in the same record as that start from any record when the adapter's start succeeds, and from a consistent record whatever the adapter says |
| `ControllerProperties.HandlersKeepWellFormed` | main.go:94-118 | every handler keeps the record well formed, whatever the adapter reports |
| `ControllerProperties.HandlersKeepConsistent` | main.go:94-118 | every handler keeps `currentName == ""` iff `currentHostURL == ""`, provided the adapter names the containers it starts |
| `ControllerProperties.UnnamedStartBreaksConsistency` | main.go:114-119 | an adapter success with an empty name and port 5800 leaves a URL with no name, and that record is not consistent |
| `ControllerProperties.RunKeepsWellFormed` | main.go:68-150 | any sequence of start, stop and restart requests keeps the record well formed |
| `ControllerProperties.RunKeepsConsistent` | main.go:68-150 | any sequence of requests keeps the two fields set and cleared together, while the adapter names its containers |
| `ControllerProperties.RunEndsWithLastRequest` | main.go:68-150 | after a sequence of requests from a consistent record, while the adapter names its containers, the record depends only on the last request: empty after a stop, and otherwise what that request's adapter start produced from the empty record |
| `ControllerProperties.StepTracksOnlyItsOwnStart` | main.go:103-119 | a request leaves a name tracked only if it is a start or restart whose adapter start returned that name with a host port |
| `ControllerProperties.TrackedNameWasStarted` | main.go:55 | from any record, after any non-empty run of requests, a tracked name is the container name the adapter returned, with a host port, to the last request, which is a start or restart |
| `ControllerProperties.NoHostPortOrphansContainer` | main.go:109-112 | an adapter start that succeeds without a host port leaves no name tracked, so neither the next stop nor the next start stops or removes that container |
| `ControllerProperties.ScenarioDefaultStart` | main.go:77-121 | a start with no body, with the adapter reporting `firefox_go1234` on port 5800, calls `Start("jlesage/firefox", "firefox_go")` and replies 200 with `http://localhost:5800` |
| `ControllerProperties.ScenarioStartTwice` | main.go:85-103 | for two starts in a row, the second stops and force-removes the first's container before it starts a new one |

## Left out

- Docker SDK calls in `StartContainer` are left out, because they are foreign I/O. This covers client creation, the image pull, draining the pull stream to stdout, container create and container start. Their result is the adapter's `StartOutcome`.
- The `context.WithTimeout` deadline of six minutes is left out. A start whose deadline runs out is one more `StartFailed` outcome.
- `time.Now()` is a `timestamp` parameter. `RandomizeName` requires it to be non-negative, as a Unix time is. For negative values Go's truncating `%` would differ from Dafny's.
- HTTP and JSON are left out: the server setup in `main()`, the route registration, `writeJSON`, and JSON decoding. The `image` parameter is the decoded field, whatever `Decode` returned, since `main.go:76` discards its error. It is `""` when the field is absent. The parameter ranges over all strings, so it covers every decoding outcome.
- The restart handler writes two replies to one response writer. The model returns both, in order, and leaves out how the HTTP layer merges them.
- Concurrency is left out. The source holds its mutex only around single reads and writes of the two fields, not around a whole handler. The handlers are modelled one after another. The model claims no at-most-one-container property under interleaving.
- `ImageTor` is declared as in the source. No handler selects it, and the model adds no swap or health operation, because the source has none.
- `sdk-test/main.go` and `static/script.js` are not part of this model. They are a stand-alone I/O script and the browser UI.
- ControllerProperties.HandlersKeepConsistent: proved only while the adapter names every container it starts (`NamesContainer`). The source does not check the name, and `UnnamedStartBreaksConsistency` shows the iff failing without that premise.
- ControllerProperties.RunKeepsConsistent: the same premise, for every request of the sequence.
- ControllerProperties.StartFailureLeavesEmpty: states the reply and the empty name from any record, but the fully empty record only for a consistent record before the start. From a URL with no name, which only an unnamed adapter start can produce, the stale URL would survive, because the teardown branch tests the name alone.
- ControllerProperties.StartWithoutHostPortLeavesEmpty: the same premise as StartFailureLeavesEmpty.
- ControllerProperties.RestartIsStopThenFreshStart: for a failed start, states the fresh record only from a consistent record, the same premise as StartFailureLeavesEmpty. From a URL with no name, the stale URL survives a restart whose start fails.
- ControllerProperties.RunEndsWithLastRequest: proved only while the adapter names every container it starts (`AdapterNamesAll`). An unnamed start followed by a failed start ends with a stale URL, not the empty record.
- A start whose adapter call succeeds without a host port leaves its container running and untracked (`NoHostPortOrphansContainer`). The model states this and does not change it, since the design accepts containers orphaned by a failed start.
