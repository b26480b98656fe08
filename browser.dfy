/** A browser running in a Docker container: the container's configuration,
    the provisioning sequence `Launch` and its steps, and `Close`. */
module Browsers {
  import opened Failure
  import opened Decimal
  import opened LineReader
  import opened Backend

  const DebugPort: int := 9222
  const DockerImage: string := "zenika/alpine-chrome"
  /** The file holding the seccomp profile, read from the working directory. */
  const SeccompProfileFile: string := "chrome.json"
  /** The readiness marker "ws://" as bytes: the browser prints its debugger URL once it listens. */
  const Marker: seq<byte> := [119, 115, 58, 47, 47]
  /** The field of the browser's `/json/version` answer that holds the debugger URL. */
  const DebuggerURLField: string := "webSocketDebuggerUrl"
  /** Go's zero `time.Time`, in the nanosecond count the model uses for instants. */
  const ZeroTime: int := 0

  // ---------------------------------------------------------------------
  // Container configuration

  /** The container port the debugger listens on, as Docker names it. */
  function TcpPort(): string
  {
    IntText(DebugPort) + "/tcp"
  }

  /** The container configuration: the browser image, its debug port exposed,
      and a command line that makes it listen for debuggers on every interface. */
  function ContainerConfig(): Config
  {
    Config(DockerImage, {TcpPort()}, ["--remote-debugging-address=0.0.0.0", "--remote-debugging-port=" + IntText(DebugPort)])
  }

  /** The container configuration spelled out. */
  lemma ContainerConfigFields()
    ensures TcpPort() == "9222/tcp"
    ensures ContainerConfig().image == "zenika/alpine-chrome"
    ensures ContainerConfig().exposedPorts == {"9222/tcp"}
    ensures ContainerConfig().cmd == ["--remote-debugging-address=0.0.0.0", "--remote-debugging-port=9222"]
  {
    assert IntText(DebugPort) == "9222";
    assert "--remote-debugging-port=" + "9222" == "--remote-debugging-port=9222";
  }

  /** Go's `string(b)`: the bytes, one character each, unchanged. */
  function BytesText(b: seq<byte>): (s: string)
    ensures |s| == |b| && forall i :: 0 <= i < |b| ==> s[i] as int == b[i] as int
  {
    seq(|b|, i requires 0 <= i < |b| => b[i] as char)
  }

  /** The host configuration: the container is removed when it stops, the
      chosen host port is forwarded to the debug port, and the seccomp
      profile is passed through as the single security option. */
  function HostConfigFor(port: int, profile: seq<byte>): HostConfig
  {
    HostConfig(true, map[TcpPort() := [PortBinding("", IntText(port))]], ["seccomp=" + BytesText(profile)])
  }

  /** The host configuration forwards exactly the debug port, to the chosen
      host port on every interface, and passes the profile's bytes through
      unchanged after "seccomp=". */
  lemma HostConfigForwardsPort(port: int, profile: seq<byte>)
    ensures var h := HostConfigFor(port, profile);
            h.autoRemove
            && h.portBindings.Keys == {"9222/tcp"} && |h.portBindings["9222/tcp"]| == 1
            && h.portBindings["9222/tcp"][0].hostIP == ""
            && ParseInt(h.portBindings["9222/tcp"][0].hostPort) == Some(port)
    ensures var h := HostConfigFor(port, profile);
            |h.securityOpt| == 1 && |h.securityOpt[0]| == 8 + |profile|
            && h.securityOpt[0][..8] == "seccomp="
            && forall i :: 0 <= i < |profile| ==> h.securityOpt[0][8 + i] as int == profile[i] as int
  {
    ContainerConfigFields();
    IntTextRoundTrip(port);
    var h := HostConfigFor(port, profile);
    var opt := "seccomp=" + BytesText(profile);
    assert h.securityOpt[0] == opt;
    forall i | 0 <= i < |profile|
      ensures opt[8 + i] as int == profile[i] as int
    {
    }
  }

  /** What `containerCreate` returns: the profile's read error, the port
      allocation's error, or the client's answer to the configurations above. */
  function CreateResult(cli: Client, host: Host): Result<string>
  {
    var profile := host.readFile(SeccompProfileFile);
    if profile.Err? then Err(profile.failure)
    else if host.freePort.Err? then Err(host.freePort.failure)
    else cli.containerCreate(ContainerConfig(), HostConfigFor(host.freePort.value, profile.value))
  }

  // ---------------------------------------------------------------------
  // Debugger URL

  /** The browser's metadata endpoint, reached through the forwarded host port. */
  function VersionURL(port: int): string
  {
    "http://localhost:" + IntText(port) + "/json/version"
  }

  /** The endpoint is on localhost, ends in "/json/version", and the port can
      be read back from between the two. */
  lemma VersionURLHoldsPort(port: int)
    ensures var u := VersionURL(port);
            |u| > 30 && u[..17] == "http://localhost:" && u[|u| - 13..] == "/json/version"
            && ParseInt(u[17..|u| - 13]) == Some(port)
  {
    IntTextRoundTrip(port);
    var u := VersionURL(port);
    assert u[17..|u| - 13] == IntText(port);
  }

  /** `getDebugURL`: fetch and decode the metadata, then take its debugger URL.
      A transport or decoding failure is returned as an error; a missing field,
      or one that is not a string, fails the type assertion and panics. */
  function GetDebugURL(host: Host, port: int): Result<string>
  {
    match host.getJSON(VersionURL(port))
    case Err(f) => Err(f)
    case Ok(fields) =>
      if DebuggerURLField in fields && fields[DebuggerURLField].JString? then Ok(fields[DebuggerURLField].text)
      else Err(Panic("interface conversion: interface {} is not string"))
  }

  /** The debugger URL is the metadata's string field, when there is one; a
      fetch or decoding error is passed on unchanged, and metadata without the
      field as a string panics rather than returning an error. */
  lemma DebugURLFromMetadata(host: Host, port: int)
    ensures var answer := host.getJSON(VersionURL(port));
            answer.Err? ==> GetDebugURL(host, port) == Err(answer.failure)
    ensures var answer := host.getJSON(VersionURL(port));
            GetDebugURL(host, port).Ok? <==>
              answer.Ok? && DebuggerURLField in answer.value && answer.value[DebuggerURLField].JString?
    ensures var answer := host.getJSON(VersionURL(port));
            GetDebugURL(host, port).Ok? ==> GetDebugURL(host, port).value == answer.value[DebuggerURLField].text
    ensures var answer := host.getJSON(VersionURL(port));
            answer.Ok? && GetDebugURL(host, port).Err? ==> GetDebugURL(host, port).failure.Panic?
  {
  }

  // ---------------------------------------------------------------------
  // Reading the image pull stream and the container's log stream

  /** How a scan of a stream ends: its result, how many `ReadBytes` calls it
      made, and how many bytes those calls returned, which is the reader's
      position in the stream. (The buffered reader may have fetched more
      from the underlying stream than that; read-ahead is not modelled.) */
  datatype Scan = Scan(outcome: Outcome, readCount: nat, consumed: nat)

  /** The result a read loop returns when its stream ended with no line to stop at:
      the stream's `Close` result at end of file, or else the read error. */
  function EndOutcome(s: Stream): Outcome
  {
    match s.end
    case Eof => s.closeResult
    case Broken(f) => Fail(f)
  }

  /** Draining a stream: every complete line and then the final fragment are
      read, so the whole stream is consumed. */
  function DrainSpec(s: Stream): Scan
  {
    Scan(EndOutcome(s), |SplitLines(s.data).lines| + 1, |s.data|)
  }

  /** The index of the first complete line holding the readiness marker. */
  function MarkerIndex(lines: seq<seq<byte>>): (r: Option<nat>)
    ensures r.Some? ==> r.value < |lines|
  {
    if lines == [] then None
    else if Contains(lines[0], Marker) then Some(0)
    else match MarkerIndex(lines[1..])
      case Some(k) => Some(k + 1)
      case None => None
  }

  /** Scanning for readiness: lines are read up to and including the first
      complete line holding the marker; without such a line the stream is
      read to its end, and its final fragment is never searched. */
  function ScanSpec(s: Stream): Scan
  {
    var lines := SplitLines(s.data).lines;
    match MarkerIndex(lines)
    case Some(k) => Scan(s.closeResult, k + 1, |Concat(lines[..k + 1])|)
    case None => Scan(EndOutcome(s), |lines| + 1, |s.data|)
  }

  /** What `pullImage` returns: the pull request's error, or the result of
      reading the progress stream to its end. */
  function PullOutcome(cli: Client): Outcome
  {
    match cli.imagePull(DockerImage)
    case Err(f) => Fail(f)
    case Ok(s) => DrainSpec(s).outcome
  }

  /** The log options `startContainer` asks for: follow the output, standard error only. */
  const FollowStderr: LogsOptions := LogsOptions(follow := true, showStdout := false, showStderr := true)

  /** What `startContainer` returns: the start request's error, the log
      request's error, or the result of scanning the log stream for readiness. */
  function StartOutcome(cli: Client, id: string): Outcome
  {
    if cli.containerStart(id).Fail? then cli.containerStart(id)
    else match cli.containerLogs(id, FollowStderr)
      case Err(f) => Fail(f)
      case Ok(s) => ScanSpec(s).outcome
  }

  /** `pullImage`'s read loop: read the progress stream line by line to its
      end, then close it. The read count and position are ghost: the loop
      keeps them only to state how far it read. */
  method ReadToEnd(s: Stream) returns (err: Outcome, ghost readCount: nat, ghost consumed: nat)
    ensures Scan(err, readCount, consumed) == DrainSpec(s)
  {
    var pos := 0;
    readCount := 0;
    ghost var seen: seq<seq<byte>> := [];
    while true
      invariant pos <= |s.data|
      invariant AllLines(seen) && Concat(seen) == s.data[..pos]
      invariant readCount == |seen|
      decreases |s.data| - pos
    {
      var r := ReadBytes(s, pos);
      readCount := readCount + 1;
      if r.err.Some? {
        SplitLinesUnique(s.data, seen, r.line);
        if r.err.value.Eof? {
          pos := r.next;
          break;
        }
        return Fail(r.err.value.failure), readCount, r.next;
      }
      ConcatAppend(seen, r.line);
      assert s.data[..r.next] == s.data[..pos] + r.line;
      seen := seen + [r.line];
      pos := r.next;
    }
    return s.closeResult, readCount, pos;
  }

  /** `pullImage`: pull the browser image and read its progress stream to the end. */
  method PullImage(cli: Client) returns (err: Outcome)
    ensures err == PullOutcome(cli)
  {
    var pulled := cli.imagePull(DockerImage);
    if pulled.Err? {
      return Fail(pulled.failure);
    }
    ghost var readCount, consumed;
    err, readCount, consumed := ReadToEnd(pulled.value);
  }

  /** `startContainer`'s read loop: read the log stream line by line until a
      complete line holds the readiness marker, then close it. The read
      count and position are ghost, as in `ReadToEnd`. */
  method ReadUntilMarker(s: Stream) returns (err: Outcome, ghost readCount: nat, ghost consumed: nat)
    ensures Scan(err, readCount, consumed) == ScanSpec(s)
  {
    var pos := 0;
    readCount := 0;
    ghost var seen: seq<seq<byte>> := [];
    while true
      invariant pos <= |s.data|
      invariant AllLines(seen) && Concat(seen) == s.data[..pos]
      invariant forall j :: 0 <= j < |seen| ==> !Contains(seen[j], Marker)
      invariant readCount == |seen|
      decreases |s.data| - pos
    {
      var r := ReadBytes(s, pos);
      readCount := readCount + 1;
      if r.err.Some? {
        SplitLinesUnique(s.data, seen, r.line);
        MarkerIndexNone(seen);
        if r.err.value.Eof? {
          pos := r.next;
          break;
        }
        return Fail(r.err.value.failure), readCount, r.next;
      }
      if Contains(r.line, Marker) {
        ConcatAppend(seen, r.line);
        assert s.data[..r.next] == s.data[..pos] + r.line;
        FoundMarker(s.data, seen + [r.line], r.next);
        pos := r.next;
        break;
      }
      ConcatAppend(seen, r.line);
      assert s.data[..r.next] == s.data[..pos] + r.line;
      seen := seen + [r.line];
      pos := r.next;
    }
    return s.closeResult, readCount, pos;
  }

  /** `startContainer`: start the container, then scan its standard error
      for the readiness marker. */
  method StartContainer(cli: Client, id: string) returns (err: Outcome)
    ensures err == StartOutcome(cli, id)
  {
    var started := cli.containerStart(id);
    if started.Fail? {
      return started;
    }
    var logs := cli.containerLogs(id, FollowStderr);
    if logs.Err? {
      return Fail(logs.failure);
    }
    ghost var readCount, consumed;
    err, readCount, consumed := ReadUntilMarker(logs.value);
  }

  /** A complete line holding the marker, with none before it, is the one `MarkerIndex` finds. */
  lemma {:induction false} MarkerIndexAt(lines: seq<seq<byte>>, k: nat)
    requires k < |lines| && Contains(lines[k], Marker)
    requires forall j :: 0 <= j < k ==> !Contains(lines[j], Marker)
    ensures MarkerIndex(lines) == Some(k)
  {
    if k > 0 {
      assert !Contains(lines[0], Marker);
      MarkerIndexAt(lines[1..], k - 1);
    }
  }

  /** No complete line holds the marker exactly when `MarkerIndex` finds none. */
  lemma {:induction false} MarkerIndexNone(lines: seq<seq<byte>>)
    ensures MarkerIndex(lines).None? <==> forall j :: 0 <= j < |lines| ==> !Contains(lines[j], Marker)
  {
    if lines != [] {
      MarkerIndexNone(lines[1..]);
      assert forall j :: 1 <= j < |lines| ==> lines[j] == lines[1..][j - 1];
    }
  }

  /** What `MarkerIndex` finds is a line holding the marker, and no line
      before it holds one. */
  lemma {:induction false} MarkerIndexFirst(lines: seq<seq<byte>>)
    ensures MarkerIndex(lines).Some? ==> Contains(lines[MarkerIndex(lines).value], Marker)
    ensures MarkerIndex(lines).Some? ==>
              forall j :: 0 <= j < MarkerIndex(lines).value ==> !Contains(lines[j], Marker)
  {
    if lines != [] && !Contains(lines[0], Marker) {
      MarkerIndexFirst(lines[1..]);
      assert forall j :: 1 <= j < |lines| ==> lines[j] == lines[1..][j - 1];
    }
  }

  /** Lines that begin with given lines, the last of those the first to hold
      the marker: `MarkerIndex` finds that last one. */
  lemma MarkerInPrefix(lines: seq<seq<byte>>, seen: seq<seq<byte>>)
    requires |seen| <= |lines| && forall j :: 0 <= j < |seen| ==> lines[j] == seen[j]
    requires seen != [] && Contains(seen[|seen| - 1], Marker)
    requires forall j :: 0 <= j < |seen| - 1 ==> !Contains(seen[j], Marker)
    ensures MarkerIndex(lines) == Some(|seen| - 1)
  {
    MarkerIndexAt(lines, |seen| - 1);
  }

  /** Complete lines read from the front of a stream, the last of them the
      first to hold the marker, are exactly the lines the scan reads. */
  lemma FoundMarker(data: seq<byte>, seen: seq<seq<byte>>, pos: nat)
    requires pos <= |data| && AllLines(seen) && Concat(seen) == data[..pos]
    requires seen != [] && Contains(seen[|seen| - 1], Marker)
    requires forall j :: 0 <= j < |seen| - 1 ==> !Contains(seen[j], Marker)
    ensures MarkerIndex(SplitLines(data).lines) == Some(|seen| - 1)
    ensures SplitLines(data).lines[..|seen|] == seen
  {
    SplitAfterPrefix(data, seen, pos);
    TakeOfJoin(seen, SplitLines(data[pos..]).lines);
    MarkerInPrefix(SplitLines(data).lines, seen);
  }

  /** N complete lines without the marker, then a line with it: the scan makes
      exactly N + 1 reads, consumes nothing after that line, and returns the
      stream's Close result, whatever the stream holds afterwards. */
  lemma ScanStopsAtFirstMarker(before: seq<seq<byte>>, marked: seq<byte>, rest: seq<byte>,
                               end: Termination, closeResult: Outcome)
    requires AllLines(before) && forall j :: 0 <= j < |before| ==> !Contains(before[j], Marker)
    requires IsLine(marked) && Contains(marked, Marker)
    ensures ScanSpec(Stream(Concat(before) + marked + rest, end, closeResult))
            == Scan(closeResult, |before| + 1, |Concat(before)| + |marked|)
  {
    var data := Concat(before) + marked + rest;
    var seen := before + [marked];
    ConcatAppend(before, marked);
    AllLinesJoin(before, [marked]);
    assert data[..|Concat(seen)|] == Concat(seen);
    forall j | 0 <= j < |seen| - 1
      ensures !Contains(seen[j], Marker)
    {
      assert seen[j] == before[j];
    }
    FoundMarker(data, seen, |Concat(seen)|);
  }

  /** A stream with no complete line holding the marker is read to its end,
      one read per complete line and one for the final fragment, which is
      never searched even when it holds the marker. At end of file the scan
      returns the stream's Close result, so a stream that closes without the
      marker is not reported as a failure; any other read error is returned. */
  lemma FragmentNeverSearched(lines: seq<seq<byte>>, fragment: seq<byte>, end: Termination, closeResult: Outcome)
    requires AllLines(lines) && NoNewline(fragment)
    requires forall j :: 0 <= j < |lines| ==> !Contains(lines[j], Marker)
    ensures var scan := ScanSpec(Stream(Concat(lines) + fragment, end, closeResult));
            scan.readCount == |lines| + 1 && scan.consumed == |Concat(lines)| + |fragment|
    ensures var scan := ScanSpec(Stream(Concat(lines) + fragment, end, closeResult));
            (end.Eof? ==> scan.outcome == closeResult) && (end.Broken? ==> scan.outcome == Fail(end.failure))
  {
    SplitLinesUnique(Concat(lines) + fragment, lines, fragment);
    MarkerIndexNone(lines);
  }

  /** Draining reads every complete line and then the final fragment: N
      complete lines take N + 1 reads, the whole stream is consumed, and a
      read error other than end of file is returned in place of the Close result. */
  lemma DrainReadsEveryLine(lines: seq<seq<byte>>, fragment: seq<byte>, end: Termination, closeResult: Outcome)
    requires AllLines(lines) && NoNewline(fragment)
    ensures var drain := DrainSpec(Stream(Concat(lines) + fragment, end, closeResult));
            drain.readCount == |lines| + 1 && drain.consumed == |Concat(lines)| + |fragment|
    ensures var drain := DrainSpec(Stream(Concat(lines) + fragment, end, closeResult));
            (end.Eof? ==> drain.outcome == closeResult) && (end.Broken? ==> drain.outcome == Fail(end.failure))
  {
    SplitLinesUnique(Concat(lines) + fragment, lines, fragment);
  }

  // ---------------------------------------------------------------------
  // The provisioning sequence

  /** The steps of `Launch`, each a call that may fail. */
  datatype Step = PullStep | ProfileStep | PortStep | CreateStep | StartStep | DebugURLStep | CloseStep | StampStep

  /** The order `Launch` runs its steps in: pull the image; read the seccomp
      profile, allocate a host port and create the container (these three
      make up `createContainer`); start it and wait for readiness; fetch the
      debugger URL; close the Docker client; stamp the creation time. */
  const LaunchOrder: seq<Step> := [PullStep, ProfileStep, PortStep, CreateStep, StartStep, DebugURLStep, CloseStep, StampStep]

  /** The outcome of a step, taken on its own: what the collaborator it calls
      answers. The steps that need an earlier step's result (the container ID,
      the port) pass when that result is missing, since they never run then. */
  function StepOutcome(cli: Client, host: Host, step: Step): Outcome
  {
    match step
    case PullStep => PullOutcome(cli)
    case ProfileStep => Status(host.readFile(SeccompProfileFile))
    case PortStep => Status(host.freePort)
    case CreateStep => Status(CreateResult(cli, host))
    case StartStep => if CreateResult(cli, host).Ok? then StartOutcome(cli, CreateResult(cli, host).value) else Pass
    case DebugURLStep => if host.freePort.Ok? then Status(GetDebugURL(host, host.freePort.value)) else Pass
    case CloseStep => cli.close
    case StampStep => Pass
  }

  /** The index, in `LaunchOrder`, of the first step that fails, or the
      number of steps when none does. */
  function FailedAt(cli: Client, host: Host): (k: nat)
    ensures k <= |LaunchOrder|
  {
    if StepOutcome(cli, host, PullStep).Fail? then 0
    else if StepOutcome(cli, host, ProfileStep).Fail? then 1
    else if StepOutcome(cli, host, PortStep).Fail? then 2
    else if StepOutcome(cli, host, CreateStep).Fail? then 3
    else if StepOutcome(cli, host, StartStep).Fail? then 4
    else if StepOutcome(cli, host, DebugURLStep).Fail? then 5
    else if StepOutcome(cli, host, CloseStep).Fail? then 6
    else |LaunchOrder|
  }

  /** `FailedAt` is the first failure: every step of `LaunchOrder` before it
      passes, and the step at it fails. */
  lemma FailedAtIsFirstFailure(cli: Client, host: Host)
    ensures forall j :: 0 <= j < FailedAt(cli, host) ==> StepOutcome(cli, host, LaunchOrder[j]) == Pass
    ensures FailedAt(cli, host) < |LaunchOrder| ==> StepOutcome(cli, host, LaunchOrder[FailedAt(cli, host)]).Fail?
  {
    forall j | 0 <= j < FailedAt(cli, host)
      ensures StepOutcome(cli, host, LaunchOrder[j]) == Pass
    {
      PassesBeforeFailure(cli, host, j);
    }
  }

  /** A step of `LaunchOrder` before `FailedAt` passes. */
  lemma PassesBeforeFailure(cli: Client, host: Host, j: nat)
    requires j < FailedAt(cli, host)
    ensures StepOutcome(cli, host, LaunchOrder[j]) == Pass
  {
    if j == 0 { assert LaunchOrder[j] == PullStep; }
    else if j == 1 { assert LaunchOrder[j] == ProfileStep; }
    else if j == 2 { assert LaunchOrder[j] == PortStep; }
    else if j == 3 { assert LaunchOrder[j] == CreateStep; }
    else if j == 4 { assert LaunchOrder[j] == StartStep; }
    else if j == 5 { assert LaunchOrder[j] == DebugURLStep; }
    else if j == 6 { assert LaunchOrder[j] == CloseStep; }
    else { assert LaunchOrder[j] == StampStep; }
  }

  /** What `Launch` returns: the first failure among its steps, unchanged,
      or the client's Close result once every other step has passed. The
      debugger URL is fetched through the port allocated by `createContainer`. */
  function LaunchOutcome(cli: Client, host: Host): Outcome
  {
    if PullOutcome(cli).Fail? then PullOutcome(cli)
    else if CreateResult(cli, host).Err? then Fail(CreateResult(cli, host).failure)
    else if StartOutcome(cli, CreateResult(cli, host).value).Fail? then StartOutcome(cli, CreateResult(cli, host).value)
    else if GetDebugURL(host, host.freePort.value).Err? then Fail(GetDebugURL(host, host.freePort.value).failure)
    else cli.close
  }

  /** How many steps of `LaunchOrder` a launch runs: those of `createContainer`
      run until one of them fails, and the stamp runs only when every other
      step has passed. */
  function StepsRun(cli: Client, host: Host): (n: nat)
    ensures 1 <= n <= |LaunchOrder|
  {
    if PullOutcome(cli).Fail? then 1
    else if CreateResult(cli, host).Err? then CreateStepsEnd(host)
    else if StartOutcome(cli, CreateResult(cli, host).value).Fail? then 5
    else if GetDebugURL(host, host.freePort.value).Err? then 6
    else if cli.close.Fail? then 7
    else 8
  }

  /** A launch follows `LaunchOrder` and stops at its first failing step: it
      runs every step up to and including that one, none after it, and
      returns that step's failure; when no step fails it runs all of them
      and passes. */
  lemma LaunchStopsAtFirstFailure(cli: Client, host: Host)
    ensures FailedAt(cli, host) < |LaunchOrder| ==>
              StepsRun(cli, host) == FailedAt(cli, host) + 1
              && LaunchOutcome(cli, host) == StepOutcome(cli, host, LaunchOrder[FailedAt(cli, host)])
              && LaunchOutcome(cli, host).Fail?
    ensures FailedAt(cli, host) == |LaunchOrder| ==>
              StepsRun(cli, host) == |LaunchOrder| && LaunchOutcome(cli, host) == Pass
  {
  }

  /** How far into `LaunchOrder` a launch gets when `createContainer` fails:
      the port is only allocated after the profile was read, and the
      container only created after both. */
  function CreateStepsEnd(host: Host): (n: nat)
    ensures 2 <= n <= 4
    ensures n == 4 <==> host.readFile(SeccompProfileFile).Ok? && host.freePort.Ok?
  {
    if host.readFile(SeccompProfileFile).Err? then 2
    else if host.freePort.Err? then 3
    else 4
  }

  /** A browser: the Docker container it runs in, the host port forwarded to
      its debugger, its debugger URL and the time it became ready. */
  class Browser {
    var creationTime: int
    var debugURL: string
    var id: string
    var port: int
    /** The Docker client the browser was made with. */
    const cli: Client

    /** `&Browser{}` given a client: every other field at its zero value. */
    constructor (cli: Client)
      ensures this.cli == cli
      ensures creationTime == ZeroTime && debugURL == "" && id == "" && port == 0
    {
      this.cli := cli;
      creationTime, debugURL, id, port := ZeroTime, "", "", 0;
    }

    /** `createContainer`: read the seccomp profile, allocate a host port and
        record it, then ask Docker to create the container and record its ID.
        The first failure ends it; the port stays recorded when only the
        create call fails. */
    method CreateContainer(host: Host) returns (err: Outcome)
      modifies this`port, this`id
      ensures err == Status(CreateResult(cli, host))
      ensures port == (if host.readFile(SeccompProfileFile).Ok? && host.freePort.Ok? then host.freePort.value else old(port))
      ensures id == (if err.Pass? then CreateResult(cli, host).value else old(id))
    {
      var config := ContainerConfig();
      var profile := host.readFile(SeccompProfileFile);
      if profile.Err? {
        return Fail(profile.failure);
      }
      var free := host.freePort;
      if free.Err? {
        return Fail(free.failure);
      }
      port := free.value;
      var hostConfig := HostConfigFor(free.value, profile.value);
      var created := cli.containerCreate(config, hostConfig);
      if created.Err? {
        return Fail(created.failure);
      }
      id := created.value;
      return Pass;
    }

    /** `Launch`: run the steps of `LaunchOrder` in order until one fails,
        returning that step's failure unchanged. A field is written by the
        step that produces it, so it changes exactly when the launch got past
        that step: the port once `CreateStep` is reached, the ID once the
        container was created, the debugger URL once the client's Close is
        reached, and the creation time only once every step before the stamp,
        Close included, has passed. */
    method Launch(host: Host) returns (err: Outcome)
      modifies this`port, this`id, this`debugURL, this`creationTime
      ensures err == LaunchOutcome(cli, host)
      ensures port == (if StepsRun(cli, host) > 3 then host.freePort.value else old(port))
      ensures id == (if StepsRun(cli, host) > 4 then CreateResult(cli, host).value else old(id))
      ensures debugURL == (if StepsRun(cli, host) > 6 then GetDebugURL(host, host.freePort.value).value else old(debugURL))
      ensures creationTime == (if StepsRun(cli, host) == |LaunchOrder| then host.now else old(creationTime))
    {
      var pulled := PullImage(cli);
      if pulled.Fail? {
        return pulled;
      }
      err := CreateContainer(host);
      if err.Fail? {
        return;
      }
      var started := StartContainer(cli, id);
      if started.Fail? {
        return started;
      }
      var url := GetDebugURL(host, port);
      if url.Err? {
        return Fail(url.failure);
      }
      debugURL := url.value;
      if cli.close.Fail? {
        return cli.close;
      }
      creationTime := host.now;
      return Pass;
    }

    /** `Close`: make a new Docker client and force-remove this browser's
        container by its ID; a failure to make the client is returned instead. */
    method Close(newClient: Result<Client>) returns (err: Outcome)
      ensures newClient.Err? ==> err == Fail(newClient.failure)
      ensures newClient.Ok? ==> err == newClient.value.containerRemove(id, true)
    {
      if newClient.Err? {
        return Fail(newClient.failure);
      }
      var force := true;
      err := newClient.value.containerRemove(id, force);
    }
  }

  /** A browser that has not been launched: every field at its zero value. */
  ghost predicate Unlaunched(b: Browser)
    reads b
  {
    b.creationTime == ZeroTime && b.debugURL == "" && b.id == "" && b.port == 0
  }

  /** `NewBrowser`: a browser with a fresh Docker client, or the error making the client gave. */
  method NewBrowser(newClient: Result<Client>) returns (r: Result<Browser>)
    ensures newClient.Err? ==> r.Err? && r.failure == newClient.failure
    ensures newClient.Ok? ==> r.Ok? && fresh(r.value) && r.value.cli == newClient.value && Unlaunched(r.value)
  {
    if newClient.Err? {
      return Err(newClient.failure);
    }
    var b := new Browser(newClient.value);
    return Ok(b);
  }
}
