/** The single-session lifecycle controller (main.go): one session record,
    held in `currentName` and `currentHostURL`, moved between Empty and
    Active by the start, stop and restart handlers, which drive an abstract
    container-runtime adapter.

    The adapter is not modelled: what its `StartContainer` reports is an
    input (`StartOutcome`), and the results of `StopContainer` and
    `RemoveContainer` are discarded by every handler, so they are not inputs
    at all. Every adapter call is logged, in order, as a `Call`. */
module Controller {
  import DockerSdk

  // ---------------------------------------------------------------------
  // Constants and values
  // ---------------------------------------------------------------------

  /** The image started when a request names none. */
  const ImageFirefox: string := "jlesage/firefox"
  /** Declared beside `ImageFirefox`; no handler selects it. */
  const ImageTor: string := "jlesage/tor-browser"
  /** The container-name prefix every start passes to the adapter. */
  const NamePrefix: string := "firefox_go"
  /** The access URL is this followed by the host port the adapter reports. */
  const URLPrefix: string := "http://localhost:"
  const NoHostPortMessage: string := "Could not determine host port for container"

  const StatusOK: int := 200
  const StatusInternalServerError: int := 500

  /** The JSON body every handler writes (`resp`); an empty string stands
      for a field the encoder omits. */
  datatype Response = Response(ok: bool, iframeUrl: string, error: string)

  /** A status code with its body, as passed to `writeJSON`. */
  datatype Reply = Reply(status: int, body: Response)

  /** One call into the container-runtime adapter. */
  datatype Call =
    | Stop(name: string)
    | Remove(name: string, force: bool)
    | Start(image: string, prefix: string)

  /** What the adapter's `StartContainer` reports: a container name and the
      host port it is reachable on, or an error (a deadline that elapses is
      one such error). */
  datatype StartOutcome =
    | Started(name: string, hostPort: string)
    | StartFailed(message: string)

  /** The session record: `currentName` and `currentHostURL`. */
  datatype Session = Session(name: string, hostURL: string)

  /** The record as the process starts, and as every teardown leaves it. */
  const Empty: Session := Session("", "")

  /** A handler's effect: the record afterwards, what it writes back, and
      the adapter calls it makes, in order. */
  datatype Transition = Transition(after: Session, reply: Reply, calls: seq<Call>)

  /** The restart handler's effect: it writes the stop handler's reply and
      then the start handler's reply to the same response. */
  datatype RestartTransition =
    RestartTransition(after: Session, stopReply: Reply, startReply: Reply, calls: seq<Call>)

  /** A URL of the shape the start handler publishes. */
  predicate IsAccessURL(url: string) {
    |url| > |URLPrefix| && url[..|URLPrefix|] == URLPrefix
  }

  /** What every handler keeps, whatever the adapter reports: no name is
      tracked without an access URL, and a URL, once set, has the
      published shape. */
  predicate WellFormed(s: Session) {
    (s.hostURL == "" ==> s.name == "") && (s.hostURL != "" ==> IsAccessURL(s.hostURL))
  }

  /** The two fields are set together and cleared together. */
  predicate Consistent(s: Session) {
    (s.name == "") <==> (s.hostURL == "")
  }

  /** The adapter names every container it reports as started. */
  predicate NamesContainer(outcome: StartOutcome) {
    outcome.Started? ==> outcome.name != ""
  }

  function OkReply(iframeUrl: string): Reply {
    Reply(StatusOK, Response(true, iframeUrl, ""))
  }

  function ErrorReply(message: string): Reply {
    Reply(StatusInternalServerError, Response(false, "", message))
  }

  // ---------------------------------------------------------------------
  // The handlers as functions of the record and the adapter's answers
  // ---------------------------------------------------------------------

  /** The image a start request asks for: the decoded `image` field, or
      `ImageFirefox` when it is empty or absent. */
  function ResolveImage(requested: string): string {
    if requested != "" then requested else ImageFirefox
  }

  /** The teardown that opens `startHandler`: a tracked container is
      stopped and force-removed, errors ignored, and the record cleared. */
  function Teardown(before: Session): (Session, seq<Call>) {
    if before.name != "" then (Empty, [Stop(before.name), Remove(before.name, true)])
    else (before, [])
  }

  /** `startHandler`. */
  function StartSpec(before: Session, requested: string, outcome: StartOutcome): Transition {
    var (cleared, teardown) := Teardown(before);
    var calls := teardown + [Start(ResolveImage(requested), NamePrefix)];
    match outcome
    case StartFailed(message) => Transition(cleared, ErrorReply(message), calls)
    case Started(name, hostPort) =>
      if hostPort == "" then Transition(cleared, ErrorReply(NoHostPortMessage), calls)
      else Transition(Session(name, URLPrefix + hostPort), OkReply(URLPrefix + hostPort), calls)
  }

  /** `stopHandler`. */
  function StopSpec(before: Session): Transition {
    if before.name == "" then Transition(before, OkReply(""), [])
    else Transition(Empty, OkReply(""), [Stop(before.name), Remove(before.name, true)])
  }

  /** `restartHandler`: the stop handler, then the start handler on the
      same request. */
  function RestartSpec(before: Session, requested: string, outcome: StartOutcome): RestartTransition {
    var stop := StopSpec(before);
    var start := StartSpec(stop.after, requested, outcome);
    RestartTransition(start.after, stop.reply, start.reply, stop.calls + start.calls)
  }

  // ---------------------------------------------------------------------
  // The process state and its handlers
  // ---------------------------------------------------------------------

  /** The process-wide session record and the log of adapter calls. */
  class Server {
    var currentName: string
    var currentHostURL: string
    ghost var calls: seq<Call>

    function Record(): Session
      reads this
    {
      Session(currentName, currentHostURL)
    }

    ghost predicate Valid()
      reads this
    {
      WellFormed(Record())
    }

    /** The globals' zero values at process start. */
    constructor ()
      ensures Valid() && Record() == Empty && calls == []
    {
      currentName := "";
      currentHostURL := "";
      calls := [];
    }

    /** Handles a start request whose decoded `image` field is `image` (""
        when absent), the adapter answering its start call with `outcome`. */
    method StartHandler(image: string, outcome: StartOutcome) returns (reply: Reply)
      requires Valid()
      modifies this
      ensures Valid()
      ensures var t := StartSpec(old(Record()), image, outcome);
        Record() == t.after && reply == t.reply && calls == old(calls) + t.calls
    {
      var resolved := ImageFirefox;
      if image != "" {
        resolved := image;
      }
      var prev := currentName;
      if prev != "" {
        calls := calls + [Stop(prev)];
        calls := calls + [Remove(prev, true)];
        currentName := "";
        currentHostURL := "";
      }
      calls := calls + [Start(resolved, NamePrefix)];
      match outcome {
        case StartFailed(message) =>
          reply := ErrorReply(message);
        case Started(name, hostPort) =>
          if hostPort == "" {
            reply := ErrorReply(NoHostPortMessage);
          } else {
            var iframe := URLPrefix + hostPort;
            currentName := name;
            currentHostURL := iframe;
            reply := OkReply(iframe);
          }
      }
    }

    /** Handles a stop request. */
    method StopHandler() returns (reply: Reply)
      requires Valid()
      modifies this
      ensures Valid()
      ensures var t := StopSpec(old(Record()));
        Record() == t.after && reply == t.reply && calls == old(calls) + t.calls
    {
      var name := currentName;
      if name == "" {
        reply := OkReply("");
        return;
      }
      calls := calls + [Stop(name)];
      calls := calls + [Remove(name, true)];
      currentName := "";
      currentHostURL := "";
      reply := OkReply("");
    }

    /** Handles a restart request: stop, then start with the same request. */
    method RestartHandler(image: string, outcome: StartOutcome) returns (stopReply: Reply, startReply: Reply)
      requires Valid()
      modifies this
      ensures Valid()
      ensures var t := RestartSpec(old(Record()), image, outcome);
        Record() == t.after && stopReply == t.stopReply && startReply == t.startReply
        && calls == old(calls) + t.calls
    {
      stopReply := StopHandler();
      startReply := StartHandler(image, outcome);
    }
  }
}
