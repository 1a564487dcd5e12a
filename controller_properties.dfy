/** What the lifecycle handlers of main.go promise, proved about their
    functional description in module Controller. */
module ControllerProperties {
  import opened Controller
  import DockerSdk

  // ---------------------------------------------------------------------
  // Start
  // ---------------------------------------------------------------------

  /** The adapter's start call is the last call, asks for the requested image
      or, when the request names none, for `jlesage/firefox`, and always
      passes the name prefix `firefox_go`. */
  lemma StartCallsAdapterWithImage(before: Session, requested: string, outcome: StartOutcome)
    ensures var calls := StartSpec(before, requested, outcome).calls;
      |calls| >= 1 && calls[|calls| - 1].Start?
      && calls[|calls| - 1].prefix == "firefox_go"
      && (requested == "" ==> calls[|calls| - 1].image == "jlesage/firefox")
      && (requested != "" ==> calls[|calls| - 1].image == requested)
  {
  }

  /** A tracked container is stopped and then force-removed before the new
      start; with nothing tracked, the start call is the only call. The
      teardown's results never reach the rest of the handler. */
  lemma StartTearsDownFirst(before: Session, requested: string, outcome: StartOutcome)
    ensures var calls := StartSpec(before, requested, outcome).calls;
      var start := Start(ResolveImage(requested), NamePrefix);
      (before.name != "" ==> calls == [Stop(before.name), Remove(before.name, true), start])
      && (before.name == "" ==> calls == [start])
  {
  }

  /** A failed adapter start yields 500 with the adapter's error text from
      any record; no name is tracked afterwards, and from a consistent record
      the whole record is empty. */
  lemma StartFailureLeavesEmpty(before: Session, requested: string, message: string)
    ensures var t := StartSpec(before, requested, StartFailed(message));
      t.reply == Reply(500, Response(false, "", message))
      && t.after.name == ""
      && (Consistent(before) ==> t.after == Empty)
  {
  }

  /** An adapter start that reports no host port yields 500 with the fixed
      message from any record; no name is tracked afterwards, and from a
      consistent record the whole record is empty. */
  lemma StartWithoutHostPortLeavesEmpty(before: Session, requested: string, name: string)
    ensures var t := StartSpec(before, requested, Started(name, ""));
      t.reply == Reply(500, Response(false, "", "Could not determine host port for container"))
      && t.after.name == ""
      && (Consistent(before) ==> t.after == Empty)
  {
  }

  /** A successful start tracks the reported name at `http://localhost:<port>`
      and answers 200 with that URL. */
  lemma StartSuccessTracksContainer(before: Session, requested: string, name: string, hostPort: string)
    requires hostPort != ""
    ensures var t := StartSpec(before, requested, Started(name, hostPort));
      t.after == Session(name, "http://localhost:" + hostPort)
      && t.reply == Reply(200, Response(true, t.after.hostURL, ""))
  {
  }

  /** The reply says `ok` exactly when it is a 200, exactly when the adapter
      reported a container with a host port; an `ok` reply carries the
      recorded URL, and a failed one leaves nothing tracked. */
  lemma StartReplyMatchesRecord(before: Session, requested: string, outcome: StartOutcome)
    ensures var t := StartSpec(before, requested, outcome);
      (t.reply.status == 200 <==> t.reply.body.ok)
      && (t.reply.body.ok <==> (outcome.Started? && outcome.hostPort != ""))
      && (t.reply.body.ok ==> t.reply.body.iframeUrl == t.after.hostURL && IsAccessURL(t.after.hostURL))
      && (!t.reply.body.ok ==> t.reply.status == 500 && t.after.name == "")
  {
  }

  /** Started by the adapter of docker_sdk/docker.go, which names the
      container `randomizeName(prefix)`, a tracked session's name is
      `firefox_go` followed by four digits. */
  lemma StartTracksGeneratedName(before: Session, requested: string, timestamp: int, hostPort: string)
    requires timestamp >= 0 && hostPort != ""
    ensures var t := StartSpec(before, requested, Started(DockerSdk.RandomizeName(NamePrefix, timestamp), hostPort));
      |t.after.name| == 14 && t.after.name[..10] == "firefox_go"
      && DockerSdk.AllDigits(t.after.name[10..])
      && DockerSdk.ValueOf(t.after.name[10..]) == timestamp % 10000
  {
    DockerSdk.SuffixShape(timestamp);
  }

  // ---------------------------------------------------------------------
  // Stop
  // ---------------------------------------------------------------------

  /** With nothing tracked, stop answers 200 `ok`, calls no adapter operation
      and leaves the record as it is. */
  lemma StopWhenIdleIsNoOp(before: Session)
    requires before.name == ""
    ensures StopSpec(before) == Transition(before, Reply(200, Response(true, "", "")), [])
  {
  }

  /** With a container tracked, stop calls Stop and then a forced Remove on
      it, clears both fields and answers 200 `ok`. */
  lemma StopTearsDown(before: Session)
    requires before.name != ""
    ensures StopSpec(before)
      == Transition(Empty, Reply(200, Response(true, "", "")), [Stop(before.name), Remove(before.name, true)])
  {
  }

  /** Stopping twice is stopping once: the second stop calls nothing. */
  lemma StopIdempotent(before: Session)
    ensures var once := StopSpec(before);
      var twice := StopSpec(once.after);
      twice.after == once.after && twice.calls == [] && twice.reply == once.reply
  {
  }

  // ---------------------------------------------------------------------
  // Restart
  // ---------------------------------------------------------------------

  /** Restart tears the tracked container down once (the start half finds
      the record already cleared) and then ends exactly as a start from the
      empty record would: from any record when the adapter's start succeeds,
      and from a consistent record whatever the adapter says. */
  lemma RestartIsStopThenFreshStart(before: Session, requested: string, outcome: StartOutcome)
    ensures var r := RestartSpec(before, requested, outcome);
      var f := StartSpec(Empty, requested, outcome);
      ((outcome.Started? && outcome.hostPort != "") || Consistent(before) ==> r.after == f.after)
      && r.startReply == f.reply
      && r.stopReply == Reply(200, Response(true, "", ""))
      && r.calls == StopSpec(before).calls + [Start(ResolveImage(requested), NamePrefix)]
  {
  }

  // ---------------------------------------------------------------------
  // The record's invariants
  // ---------------------------------------------------------------------

  /** Every handler keeps the record well formed, whatever the adapter says. */
  lemma HandlersKeepWellFormed(before: Session, requested: string, outcome: StartOutcome)
    requires WellFormed(before)
    ensures WellFormed(StartSpec(before, requested, outcome).after)
    ensures WellFormed(StopSpec(before).after)
    ensures WellFormed(RestartSpec(before, requested, outcome).after)
  {
  }

  /** Every handler sets and clears the two fields together, provided the
      adapter names the containers it starts. */
  lemma HandlersKeepConsistent(before: Session, requested: string, outcome: StartOutcome)
    requires Consistent(before) && NamesContainer(outcome)
    ensures Consistent(StartSpec(before, requested, outcome).after)
    ensures Consistent(StopSpec(before).after)
    ensures Consistent(RestartSpec(before, requested, outcome).after)
  {
  }

  /** The start handler never checks the name the adapter reports: an
      unnamed container with a host port leaves a URL with no name. */
  lemma UnnamedStartBreaksConsistency()
    ensures Consistent(Empty)
    ensures StartSpec(Empty, "", Started("", "5800")).after == Session("", "http://localhost:5800")
    ensures !Consistent(StartSpec(Empty, "", Started("", "5800")).after)
  {
  }

  // ---------------------------------------------------------------------
  // Sequences of requests
  // ---------------------------------------------------------------------

  /** One request to the control plane, with the adapter's answer to its
      start call where it makes one. */
  datatype Request =
    | StartRequest(image: string, outcome: StartOutcome)
    | StopRequest
    | RestartRequest(image: string, outcome: StartOutcome)

  function Step(s: Session, r: Request): Session {
    match r
    case StartRequest(image, outcome) => StartSpec(s, image, outcome).after
    case StopRequest => StopSpec(s).after
    case RestartRequest(image, outcome) => RestartSpec(s, image, outcome).after
  }

  function StepCalls(s: Session, r: Request): seq<Call> {
    match r
    case StartRequest(image, outcome) => StartSpec(s, image, outcome).calls
    case StopRequest => StopSpec(s).calls
    case RestartRequest(image, outcome) => RestartSpec(s, image, outcome).calls
  }

  /** The record after handling `reqs` in order. */
  function Run(s: Session, reqs: seq<Request>): Session
    decreases |reqs|
  {
    if reqs == [] then s else Run(Step(s, reqs[0]), reqs[1..])
  }

  /** The adapter calls made while handling `reqs` in order. */
  function RunCalls(s: Session, reqs: seq<Request>): seq<Call>
    decreases |reqs|
  {
    if reqs == [] then [] else StepCalls(s, reqs[0]) + RunCalls(Step(s, reqs[0]), reqs[1..])
  }

  predicate AdapterNamesAll(reqs: seq<Request>) {
    forall i :: 0 <= i < |reqs| ==> !reqs[i].StopRequest? ==> NamesContainer(reqs[i].outcome)
  }

  /** Any run of requests keeps the record well formed. */
  lemma {:induction false} RunKeepsWellFormed(s: Session, reqs: seq<Request>)
    requires WellFormed(s)
    ensures WellFormed(Run(s, reqs))
    decreases |reqs|
  {
    if reqs != [] {
      HandlersKeepWellFormed(s, if reqs[0].StopRequest? then "" else reqs[0].image,
                             if reqs[0].StopRequest? then StartFailed("") else reqs[0].outcome);
      RunKeepsWellFormed(Step(s, reqs[0]), reqs[1..]);
    }
  }

  /** Any run of requests sets and clears the two fields together when the
      adapter names every container it starts. */
  lemma {:induction false} RunKeepsConsistent(s: Session, reqs: seq<Request>)
    requires Consistent(s) && AdapterNamesAll(reqs)
    ensures Consistent(Run(s, reqs))
    decreases |reqs|
  {
    if reqs != [] {
      if !reqs[0].StopRequest? {
        HandlersKeepConsistent(s, reqs[0].image, reqs[0].outcome);
      }
      assert AdapterNamesAll(reqs[1..]) by {
        forall i | 0 <= i < |reqs| - 1 ensures reqs[1..][i] == reqs[i + 1] { }
      }
      RunKeepsConsistent(Step(s, reqs[0]), reqs[1..]);
    }
  }

  /** The record after a run depends only on the last request (given a
      consistent record): a stop leaves it empty, and a start or restart
      leaves exactly what that request's adapter start produced. */
  lemma {:induction false} RunEndsWithLastRequest(s: Session, reqs: seq<Request>)
    requires Consistent(s) && AdapterNamesAll(reqs) && reqs != []
    ensures var last := reqs[|reqs| - 1];
      Run(s, reqs) == if last.StopRequest? then Empty else StartSpec(Empty, last.image, last.outcome).after
    decreases |reqs|
  {
    var s' := Step(s, reqs[0]);
    if !reqs[0].StopRequest? {
      HandlersKeepConsistent(s, reqs[0].image, reqs[0].outcome);
    }
    if |reqs| > 1 {
      assert AdapterNamesAll(reqs[1..]) by {
        forall i | 0 <= i < |reqs| - 1 ensures reqs[1..][i] == reqs[i + 1] { }
      }
      RunEndsWithLastRequest(s', reqs[1..]);
      assert reqs[1..][|reqs[1..]| - 1] == reqs[|reqs| - 1];
    } else {
      assert Run(s, reqs) == s';
    }
  }

  /** A request leaves a name tracked only when it made a start that the
      adapter answered with that name and a host port. */
  lemma StepTracksOnlyItsOwnStart(s: Session, r: Request)
    ensures Step(s, r).name != "" ==>
      !r.StopRequest? && r.outcome.Started? && r.outcome.name == Step(s, r).name && r.outcome.hostPort != ""
  {
  }

  /** From any record, the name tracked after a run of requests is the
      container name the adapter returned, with a host port, to the start
      the last request made. */
  lemma {:induction false} TrackedNameWasStarted(s: Session, reqs: seq<Request>)
    requires reqs != []
    ensures var last := reqs[|reqs| - 1];
      Run(s, reqs).name != "" ==>
        !last.StopRequest? && last.outcome.Started?
        && last.outcome.name == Run(s, reqs).name && last.outcome.hostPort != ""
    decreases |reqs|
  {
    if |reqs| == 1 {
      assert Run(s, reqs) == Step(s, reqs[0]);
      StepTracksOnlyItsOwnStart(s, reqs[0]);
    } else {
      TrackedNameWasStarted(Step(s, reqs[0]), reqs[1..]);
      assert reqs[1..][|reqs[1..]| - 1] == reqs[|reqs| - 1];
    }
  }

  /** An adapter start that succeeds without a host port leaves its
      container running untracked: the record names no container, and
      neither the next stop nor the next start tears it down. */
  lemma NoHostPortOrphansContainer(before: Session, requested: string, name: string,
                                   requested2: string, outcome2: StartOutcome)
    requires name != ""
    ensures var t := StartSpec(before, requested, Started(name, ""));
      t.after.name == ""
      && StopSpec(t.after).calls == []
      && Stop(name) !in StartSpec(t.after, requested2, outcome2).calls
      && Remove(name, true) !in StartSpec(t.after, requested2, outcome2).calls
  {
  }

  // ---------------------------------------------------------------------
  // Scenarios
  // ---------------------------------------------------------------------

  /** A start with no body, the adapter reporting `firefox_go1234` on host
      port 5800, from the empty record. */
  lemma ScenarioDefaultStart()
    ensures StartSpec(Empty, "", Started("firefox_go1234", "5800"))
      == Transition(Session("firefox_go1234", "http://localhost:5800"),
                    Reply(200, Response(true, "http://localhost:5800", "")),
                    [Start("jlesage/firefox", "firefox_go")])
  {
  }

  /** Two starts in a row: the second tears down the container the first
      one reported before it starts a new one. */
  lemma ScenarioStartTwice(name1: string, port1: string, image2: string, outcome2: StartOutcome)
    requires name1 != "" && port1 != ""
    ensures RunCalls(Empty, [StartRequest("", Started(name1, port1)), StartRequest(image2, outcome2)])
        == [Start("jlesage/firefox", "firefox_go"),
            Stop(name1), Remove(name1, true), Start(ResolveImage(image2), "firefox_go")]
  {
    var reqs := [StartRequest("", Started(name1, port1)), StartRequest(image2, outcome2)];
    var first := StartSpec(Empty, "", Started(name1, port1));
    assert first.after == Session(name1, "http://localhost:" + port1);
    assert reqs[1..] == [StartRequest(image2, outcome2)];
    assert RunCalls(first.after, reqs[1..]) == StartSpec(first.after, image2, outcome2).calls + [];
  }
}
