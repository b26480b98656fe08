/** The collaborators a browser talks to, reduced to the answers they give:
    the Docker Engine client, the local file system, the host's port
    allocator, the browser's own HTTP endpoint and the wall clock. */
module Backend {
  import opened Failure
  import opened LineReader

  /** `container.Config`: what the container runs. */
  datatype Config = Config(image: string, exposedPorts: set<string>, cmd: seq<string>)

  /** `nat.PortBinding`: a host address and port forwarded into the container. */
  datatype PortBinding = PortBinding(hostIP: string, hostPort: string)

  /** `container.HostConfig`: how the host runs the container. */
  datatype HostConfig = HostConfig(autoRemove: bool, portBindings: map<string, seq<PortBinding>>, securityOpt: seq<string>)

  /** `types.ContainerLogsOptions`: which output to attach to, and whether to follow it. */
  datatype LogsOptions = LogsOptions(follow: bool, showStdout: bool, showStderr: bool)

  /** A value decoded from JSON into `interface{}`: a string, or any other kind of value. */
  datatype Json = JString(text: string) | JOther

  /** A Docker Engine API client: the answer each call gives for its arguments.
      `imagePull` and `containerLogs` answer with a stream; `containerRemove`
      takes the container ID and the `Force` option; `close` is what closing
      the client returns. */
  datatype Client = Client(
    imagePull: string -> Result<Stream>,
    containerCreate: (Config, HostConfig) -> Result<string>,
    containerStart: string -> Outcome,
    containerLogs: (string, LogsOptions) -> Result<Stream>,
    containerRemove: (string, bool) -> Outcome,
    close: Outcome)

  /** The host: the contents of a file by name, the port a bind to port 0
      yields, the decoded JSON body an HTTP GET of a URL yields, and the time
      `time.Now` reads, in nanoseconds. */
  datatype Host = Host(
    readFile: string -> Result<seq<byte>>,
    freePort: Result<int>,
    getJSON: string -> Result<map<string, Json>>,
    now: int)
}
