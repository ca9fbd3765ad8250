/** Access to resources referenced from markdown documents: the access policy,
    the two build-time HTTP backends and the policy-gated reader `read_url`.

    The file system, the HTTP client and the `curl` subprocess are not modelled;
    what they answer is an oracle value, a `World`. What the reader asks of them
    is recorded, in order, in a ghost trace of `Effect`s, so that "a denied read
    touches nothing" and "only http(s) URLs reach the network" can be stated. */
module Resources {
  import opened Wrappers

  newtype byte = x: int | 0 <= x < 256
  type Bytes = seq<byte>
  type Path = string

  /** An HTTP status code; the http crate admits the three-digit range. */
  type StatusCode = x: int | 100 <= x < 1000 witness 200

  /** `StatusCode::is_success`: the 2xx class. */
  predicate IsSuccess(status: StatusCode) {
    200 <= status < 300
  }

  /** A parsed URL as far as this code looks at it: its serialization, its
      (lower-case) scheme, and what `Url::to_file_path` answers for it. The
      conversion itself belongs to the url crate and is an oracle here. */
  datatype Url = Url(href: string, scheme: string, toFilePath: Option<Path>)

  /** What kind of resources may be accessed when rendering. */
  datatype ResourceAccess = LocalOnly | RemoteAllowed

  /** Whether `url` is readable as a local file: only a `file:` URL, and only
      one whose conversion to a path succeeds, so that the reader's own
      conversion of it cannot fail. */
  function IsLocal(url: Url): (b: bool)
    ensures b ==> url.scheme == "file" && url.toFilePath.Some?
    ensures url.scheme == "file" && url.toFilePath.Some? ==> b
    ensures url.scheme == "http" || url.scheme == "https" ==> !b
  {
    url.scheme == "file" && url.toFilePath.Some?
  }

  /** Whether `access` permits access to `url`. */
  function Permits(access: ResourceAccess, url: Url): (b: bool)
    ensures access == RemoteAllowed ==> b
    ensures access == LocalOnly ==> (b <==> url.scheme == "file" && url.toFilePath.Some?)
    ensures access == LocalOnly && (url.scheme == "http" || url.scheme == "https") ==> !b
  {
    match access
    case LocalOnly => IsLocal(url)
    case RemoteAllowed => true
  }

  /** One constructor per place where the reader or a backend fails. */
  datatype Error =
    | AccessDenied(url: Url, access: ResourceAccess)  // policy gate
    | FileOpenFailed(url: Url)                        // File::open
    | FileReadFailed(url: Url)                        // read_to_end on the file
    | PathConversionFailed(url: Url)                  // to_file_path in the reader
    | UnsupportedProtocol                             // its message names no URL
    | GetFailed(url: Url)                             // reqwest GET
    | BodyReadFailed(url: Url)                        // reading the response body
    | HttpStatus(status: StatusCode, url: Url)        // non-2xx response
    | CurlSpawnFailed(url: Url)                       // curl could not be started
    | CurlFailed(url: Url, stderr: Bytes)             // curl exited unsuccessfully

  type Outcome = Result<Bytes, Error>

  /** What the file system does for a path: `File::open` fails, or it opens
      and `read_to_end` fails, or it yields the whole file. */
  datatype FileEntry = Unopenable | Unreadable | Readable(contents: Bytes)

  /** What reading a response body to its end yields. */
  datatype BodyRead = BodyUnreadable | Body(bytes: Bytes)

  /** What `reqwest::blocking::get` yields: no response at all, or a response. */
  datatype GetResponse = ConnectionFailed | Response(status: StatusCode, body: BodyRead)

  /** A child process's exit status; on Unix a process either exits with a
      code or is ended by a signal. */
  datatype ExitStatus = ExitCode(code: int) | Signalled(signal: int) {
    /** `ExitStatus::success`: exited, with code zero. */
    predicate Success() {
      ExitCode? && code == 0
    }
  }

  /** What `Command::output` yields for the `curl` child. */
  datatype CurlRun = SpawnFailed | Exited(status: ExitStatus, stdout: Bytes, stderr: Bytes)

  /** The oracles standing for the file system, the network and `curl`. */
  datatype World = World(files: Path -> FileEntry, get: Url -> GetResponse, curl: Url -> CurlRun)

  /** One I/O action, as the reader or a backend performs it. */
  datatype Effect =
    | OpenFile(path: Path)
    | ReadFile(path: Path)
    | HttpGet(url: Url)
    | ReadBody(url: Url)
    | Spawn(program: string, args: seq<string>)
  {
    predicate IsNetwork() {
      HttpGet? || ReadBody? || Spawn?
    }
  }

  /** Which `fetch_http` the build compiles in (the cargo feature "reqwest"). */
  datatype Backend = Reqwest | Curl

  // ---------------------------------------------------------------------------
  // The in-process backend

  /** What the reqwest `fetch_http` returns for the response `response`. */
  function ReqwestResult(url: Url, response: GetResponse): (r: Outcome)
    ensures r.Success? <==> response.Response? && IsSuccess(response.status) && response.body.Body?
    ensures r.Success? ==> r.value == response.body.bytes
    ensures response.ConnectionFailed? ==> r == Failure(GetFailed(url))
    ensures response.Response? && !IsSuccess(response.status) ==>
              r == Failure(HttpStatus(response.status, url))
    ensures response.Response? && IsSuccess(response.status) && response.body.BodyUnreadable? ==>
              r == Failure(BodyReadFailed(url))
  {
    match response
    case ConnectionFailed => Failure(GetFailed(url))
    case Response(status, body) =>
      if IsSuccess(status) then
        match body
        case BodyUnreadable => Failure(BodyReadFailed(url))
        case Body(bytes) => Success(bytes)
      else
        Failure(HttpStatus(status, url))
  }

  /** The reqwest `fetch_http`: GET the URL and, only on a 2xx status, read the
      body to its end into a fresh buffer. */
  method FetchHttpReqwest(url: Url, world: World) returns (r: Outcome, ghost trace: seq<Effect>)
    ensures r == ReqwestResult(url, world.get(url))
    ensures |trace| >= 1 && trace[0] == HttpGet(url)
    ensures ReadBody(url) in trace <==> world.get(url).Response? && IsSuccess(world.get(url).status)
    ensures forall e <- trace :: e.IsNetwork() && (e.HttpGet? || e.ReadBody?) && e.url == url
  {
    trace := [HttpGet(url)];
    var response := world.get(url);
    if response.ConnectionFailed? {
      return Failure(GetFailed(url)), trace;
    }
    if IsSuccess(response.status) {
      var buffer: Bytes := [];
      trace := trace + [ReadBody(url)];
      match response.body {
        case BodyUnreadable =>
          return Failure(BodyReadFailed(url)), trace;
        case Body(bytes) =>
          buffer := buffer + bytes;
          assert buffer == bytes;
      }
      r := Success(buffer);
    } else {
      r := Failure(HttpStatus(response.status, url));
    }
  }

  // ---------------------------------------------------------------------------
  // The subprocess backend

  /** The command line the subprocess backend runs for `url`. */
  function CurlArgs(url: Url): seq<string> {
    ["-fsSL", url.href]
  }

  /** What the curl `fetch_http` returns when the child ran as `run`. */
  function CurlResult(url: Url, run: CurlRun): (r: Outcome)
    ensures r.Success? <==> run.Exited? && run.status.Success()
    ensures r.Success? ==> r.value == run.stdout
    ensures run.SpawnFailed? ==> r == Failure(CurlSpawnFailed(url))
    ensures run.Exited? && !run.status.Success() ==> r == Failure(CurlFailed(url, run.stderr))
  {
    match run
    case SpawnFailed => Failure(CurlSpawnFailed(url))
    case Exited(status, stdout, stderr) =>
      if status.Success() then Success(stdout) else Failure(CurlFailed(url, stderr))
  }

  /** How `curl -fsSL` relates to the server that the GET oracle describes for
      `url`, once the child has been spawned: `-f` makes it exit unsuccessfully
      when no response arrives or the final status is 400 or more; it exits
      successfully after a 2xx response whose body reads fully; and whenever it
      exits successfully, a response arrived and its standard output is the
      whole body. */
  predicate CurlAgreesWithServer(world: World, url: Url) {
    var run, response := world.curl(url), world.get(url);
    run.Exited? ==>
      (response.ConnectionFailed? ==> !run.status.Success()) &&
      (response.Response? && response.status >= 400 ==> !run.status.Success()) &&
      (response.Response? && IsSuccess(response.status) && response.body.Body? ==> run.status.Success()) &&
      (run.status.Success() ==> response.Response? && response.body == Body(run.stdout))
  }

  /** The curl `fetch_http`: run `curl -fsSL <url>` and take its standard output. */
  method FetchHttpCurl(url: Url, world: World) returns (r: Outcome, ghost trace: seq<Effect>)
    ensures r == CurlResult(url, world.curl(url))
    ensures trace == [Spawn("curl", CurlArgs(url))]
  {
    trace := [Spawn("curl", CurlArgs(url))];
    var output := world.curl(url);
    if output.SpawnFailed? {
      return Failure(CurlSpawnFailed(url)), trace;
    }
    if output.status.Success() {
      r := Success(output.stdout);
    } else {
      r := Failure(CurlFailed(url, output.stderr));
    }
  }

  /** `fetch_http` of the backend the build selects. */
  function FetchResult(url: Url, backend: Backend, world: World): (r: Outcome)
    ensures r.Failure? ==>
              (r.error.GetFailed? || r.error.BodyReadFailed? || r.error.HttpStatus?
               || r.error.CurlSpawnFailed? || r.error.CurlFailed?)
  {
    match backend
    case Reqwest => ReqwestResult(url, world.get(url))
    case Curl => CurlResult(url, world.curl(url))
  }

  method FetchHttp(url: Url, backend: Backend, world: World) returns (r: Outcome, ghost trace: seq<Effect>)
    ensures r == FetchResult(url, backend, world)
    ensures |trace| >= 1 && forall e <- trace :: e.IsNetwork()
  {
    match backend {
      case Reqwest => r, trace := FetchHttpReqwest(url, world);
      case Curl => r, trace := FetchHttpCurl(url, world);
    }
  }

  // ---------------------------------------------------------------------------
  // The reader

  /** What the file branch of `read_url` returns for the file at `path`. */
  function FileResult(url: Url, entry: FileEntry): (r: Outcome)
    ensures r.Success? <==> entry.Readable?
    ensures r.Success? ==> r.value == entry.contents
    ensures entry.Unopenable? ==> r == Failure(FileOpenFailed(url))
    ensures entry.Unreadable? ==> r == Failure(FileReadFailed(url))
  {
    match entry
    case Unopenable => Failure(FileOpenFailed(url))
    case Unreadable => Failure(FileReadFailed(url))
    case Readable(contents) => Success(contents)
  }

  /** What `read_url(url, access)` returns. */
  function ReadUrlResult(url: Url, access: ResourceAccess, backend: Backend, world: World): (r: Outcome)
    // the gate comes first, and its error names the URL and the policy
    ensures !Permits(access, url) ==> r == Failure(AccessDenied(url, access))
    ensures r.Failure? && r.error.AccessDenied? ==> !Permits(access, url)
    // dispatch on the scheme
    ensures Permits(access, url) && url.scheme == "file" && url.toFilePath.Some? ==>
              r == FileResult(url, world.files(url.toFilePath.value))
    ensures Permits(access, url) && (url.scheme == "http" || url.scheme == "https") ==>
              r == FetchResult(url, backend, world)
    // the two errors only a permissive policy lets through
    ensures (r == Failure(PathConversionFailed(url))) <==>
              access == RemoteAllowed && url.scheme == "file" && url.toFilePath.None?
    ensures (r == Failure(UnsupportedProtocol)) <==>
              access == RemoteAllowed && url.scheme != "file" && url.scheme != "http" && url.scheme != "https"
    // whatever is returned came through the gate from a supported scheme
    ensures r.Success? ==> Permits(access, url) && url.scheme in {"file", "http", "https"}
  {
    if !Permits(access, url) then
      Failure(AccessDenied(url, access))
    else if url.scheme == "file" then
      match url.toFilePath
      case Some(path) => FileResult(url, world.files(path))
      case None => Failure(PathConversionFailed(url))
    else if url.scheme == "http" || url.scheme == "https" then
      FetchResult(url, backend, world)
    else
      Failure(UnsupportedProtocol)
  }

  /** The file branch of `read_url`: open the path, then read it to its end
      into a fresh buffer. */
  method ReadFileAt(url: Url, path: Path, world: World) returns (r: Outcome, ghost trace: seq<Effect>)
    ensures r == FileResult(url, world.files(path))
    ensures trace == if world.files(path).Unopenable? then [OpenFile(path)]
                     else [OpenFile(path), ReadFile(path)]
  {
    trace := [OpenFile(path)];
    var entry := world.files(path);
    if entry.Unopenable? {
      return Failure(FileOpenFailed(url)), trace;
    }
    var buffer: Bytes := [];
    trace := trace + [ReadFile(path)];
    if entry.Unreadable? {
      return Failure(FileReadFailed(url)), trace;
    }
    buffer := buffer + entry.contents;
    assert buffer == entry.contents;
    r := Success(buffer);
  }

  /** `read_url`: the policy gate, then exactly one of the file branch, the
      HTTP backend, or an unsupported-protocol error. */
  method ReadUrl(url: Url, access: ResourceAccess, backend: Backend, world: World)
    returns (r: Outcome, ghost trace: seq<Effect>)
    ensures r == ReadUrlResult(url, access, backend, world)
    // a denied read touches neither the file system nor the network
    ensures !Permits(access, url) ==> trace == []
    // the network is reached only for http and https
    ensures (exists e <- trace :: e.IsNetwork()) ==>
              Permits(access, url) && (url.scheme == "http" || url.scheme == "https")
    ensures Permits(access, url) && (url.scheme == "http" || url.scheme == "https") ==>
              trace != [] && forall e <- trace :: e.IsNetwork()
    // files are touched only for a convertible file URL, and only at its path
    ensures forall e <- trace :: (e.OpenFile? || e.ReadFile?) ==>
              url.scheme == "file" && url.toFilePath == Some(e.path)
    // a permitted, convertible file URL opens its path, and reads it once opened
    ensures Permits(access, url) && url.scheme == "file" && url.toFilePath.Some? ==>
              var path := url.toFilePath.value;
              trace == if world.files(path).Unopenable? then [OpenFile(path)]
                       else [OpenFile(path), ReadFile(path)]
    // under LocalOnly nothing goes to the network
    ensures access == LocalOnly ==> forall e <- trace :: !e.IsNetwork()
  {
    if !Permits(access, url) {
      return Failure(AccessDenied(url, access)), [];
    }
    if url.scheme == "file" {
      match url.toFilePath {
        case Some(path) =>
          r, trace := ReadFileAt(url, path, world);
        case None =>
          r, trace := Failure(PathConversionFailed(url)), [];
      }
    } else if url.scheme == "http" || url.scheme == "https" {
      r, trace := FetchHttp(url, backend, world);
    } else {
      r, trace := Failure(UnsupportedProtocol), [];
    }
  }

  // ---------------------------------------------------------------------------
  // Properties of the policy and the reader

  /** Whatever `LocalOnly` permits, `RemoteAllowed` permits too. */
  lemma PermitsMonotone(url: Url)
    ensures Permits(LocalOnly, url) ==> Permits(RemoteAllowed, url)
  {
  }

  /** The three URLs the unit tests ask the policy about. */
  lemma PermitsExamples()
    ensures var u := Url("file:///foo/bar", "file", Some("/foo/bar"));
            Permits(LocalOnly, u) && Permits(RemoteAllowed, u)
    ensures var u := Url("file://example.com/foo/bar", "file", None);
            !Permits(LocalOnly, u) && Permits(RemoteAllowed, u)
    ensures var u := Url("https://foo/bar", "https", None);
            !Permits(LocalOnly, u) && Permits(RemoteAllowed, u)
  {
  }

  /** `LocalOnly` is strictly narrower than `RemoteAllowed`: it admits some URL,
      and a `file:` URL with a host is admitted by `RemoteAllowed` alone. */
  lemma LocalOnlyStrictlyNarrower()
    ensures exists u: Url :: Permits(LocalOnly, u)
    ensures exists u: Url :: u.scheme == "file" && Permits(RemoteAllowed, u) && !Permits(LocalOnly, u)
  {
    var local := Url("file:///foo/bar", "file", Some("/foo/bar"));
    assert Permits(LocalOnly, local);
    var remoteFile := Url("file://example.com/foo/bar", "file", None);
    assert remoteFile.scheme == "file" && Permits(RemoteAllowed, remoteFile) && !Permits(LocalOnly, remoteFile);
  }

  /** Once both policies let a URL through, the policy makes no further
      difference: it only gates. */
  lemma PolicyOnlyGates(url: Url, backend: Backend, world: World)
    requires Permits(LocalOnly, url)
    ensures ReadUrlResult(url, LocalOnly, backend, world) == ReadUrlResult(url, RemoteAllowed, backend, world)
  {
  }

  /** The path-conversion failure is a real outcome, distinct from denial: the
      same `file:` URL is denied under `LocalOnly` and, under `RemoteAllowed`,
      passes the gate and fails to convert. */
  lemma PathConversionFailureReachable(backend: Backend, world: World)
    ensures exists u: Url ::
              ReadUrlResult(u, LocalOnly, backend, world) == Failure(AccessDenied(u, LocalOnly)) &&
              ReadUrlResult(u, RemoteAllowed, backend, world) == Failure(PathConversionFailed(u))
  {
    var u := Url("file://example.com/foo/bar", "file", None);
    assert ReadUrlResult(u, LocalOnly, backend, world) == Failure(AccessDenied(u, LocalOnly));
    assert ReadUrlResult(u, RemoteAllowed, backend, world) == Failure(PathConversionFailed(u));
  }

  /** An http(s) URL under `LocalOnly` is denied, naming the URL and the policy. */
  lemma HttpDeniedUnderLocalOnly(url: Url, backend: Backend, world: World)
    requires url.scheme == "http" || url.scheme == "https"
    ensures ReadUrlResult(url, LocalOnly, backend, world) == Failure(AccessDenied(url, LocalOnly))
  {
  }

  /** A 404 answer fails the read under either backend: with the structured
      status under reqwest, and, once curl has run, with its standard error. */
  lemma NotFoundFails(url: Url, world: World)
    requires url.scheme == "https"
    requires world.get(url).Response? && world.get(url).status == 404
    requires CurlAgreesWithServer(world, url)
    ensures ReadUrlResult(url, RemoteAllowed, Reqwest, world) == Failure(HttpStatus(404, url))
    ensures ReadUrlResult(url, RemoteAllowed, Curl, world).Failure?
    ensures world.curl(url).Exited? ==>
              ReadUrlResult(url, RemoteAllowed, Curl, world) == Failure(CurlFailed(url, world.curl(url).stderr))
  {
  }

  /** A 200 answer whose body reads fully yields exactly that body: under
      reqwest always, and under curl once the child has been spawned. */
  lemma OkReturnsBody(url: Url, world: World, body: Bytes)
    requires url.scheme == "https"
    requires world.get(url) == Response(200, Body(body))
    requires CurlAgreesWithServer(world, url)
    ensures ReadUrlResult(url, RemoteAllowed, Reqwest, world) == Success(body)
    ensures world.curl(url).Exited? ==> ReadUrlResult(url, RemoteAllowed, Curl, world) == Success(body)
  {
  }

  /** The two backends are interchangeable on success: when both succeed for
      the same server answer they return the same bytes; a curl success on a
      2xx status is a reqwest success; and a reqwest success is a curl success
      once the child has been spawned. */
  lemma BackendsAgreeOnSuccess(url: Url, world: World)
    requires CurlAgreesWithServer(world, url)
    ensures var viaReqwest, viaCurl := FetchResult(url, Reqwest, world), FetchResult(url, Curl, world);
            viaReqwest.Success? && viaCurl.Success? ==> viaReqwest.value == viaCurl.value
    ensures var viaReqwest, viaCurl := FetchResult(url, Reqwest, world), FetchResult(url, Curl, world);
            viaCurl.Success? && IsSuccess(world.get(url).status) ==> viaReqwest == viaCurl
    ensures var viaReqwest, viaCurl := FetchResult(url, Reqwest, world), FetchResult(url, Curl, world);
            viaReqwest.Success? && world.curl(url).Exited? ==> viaReqwest == viaCurl
  {
  }

  /** The unsupported-protocol error carries nothing: two URLs with unknown
      schemes fail alike, whatever else differs. */
  lemma UnsupportedProtocolCarriesNoUrl(u1: Url, u2: Url, b1: Backend, b2: Backend, w1: World, w2: World)
    requires u1.scheme !in {"file", "http", "https"} && u2.scheme !in {"file", "http", "https"}
    ensures ReadUrlResult(u1, RemoteAllowed, b1, w1) == ReadUrlResult(u2, RemoteAllowed, b2, w2)
  {
  }
}
