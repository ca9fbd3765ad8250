# mdcat resource access and terminal size, in Dafny

This project models two small pieces of mdcat's decision logic.

- **Resource access** (`src/resources.rs`). A `ResourceAccess` policy (`LocalOnly` or `RemoteAllowed`) decides whether a URL may be read. `read_url` applies that policy gate first. It then dispatches on the URL's scheme:
  - `file` goes to the local file system;
  - `http` and `https` go to the `fetch_http` backend chosen at build time (the in-process reqwest client or a `curl -fsSL` subprocess);
  - any other scheme is rejected.
- **Terminal size** (`src/terminal/size.rs`). A `Size` record with its 80×24 default. `from_env` reads `$COLUMNS` and `$LINES`. `detect` prefers the TTY and falls back to the environment.

The files:

- `wrappers.dfy` (module `Wrappers`): `Option` and `Result`, plus the Rust combinators `map`, `and_then` and `or_else` that `size.rs` chains together.
- `resources.dfy` (module `Resources`): the policy, both backends, the reader and their properties.
- `terminal_size.dfy` (module `TerminalSize`): `Size`, `Default`, `New`, `FromEnv`, `Detect`.

How the I/O is modelled:

- **Oracles.** The file system, the HTTP client and the `curl` child are oracle values gathered in a `World`:
  - a path maps to a `FileEntry`: it cannot be opened, it cannot be read, or it yields its contents;
  - a URL maps to a GET response: the connection fails, or a status arrives with a body that does or does not read fully;
  - a URL maps to a `curl` run: the spawn fails, or the child exits with a status, stdout and stderr.
- **URL conversion.** `Url::to_file_path` is the `toFilePath` field of the `Url` value. The gate (`is_local`) and the file branch both read that field.
- **Effects.** Each effectful method returns a ghost trace of the effects it performed: open, read, GET, body read and spawn. Each method is proved equal to a specification function. Its trace gives the effect-level facts: a denied read does nothing, and only http(s) reaches the network.
- **Errors.** Each failure site has its own `Error` constructor. The message text and the anyhow context chain are not kept.

Two behaviours are easy to misread, and the model keeps them exactly as the code has them:

- **`detect` has no 80×24 fallback.** `Size::detect` (`src/terminal/size.rs:52-56`) tries the TTY and then the environment, and nothing else. When neither gives a size it returns `None`; the 80×24 `Default` is left to its callers. `Detect` and `DetectAppliesNoDefault` state this.
- **The unsupported-protocol error carries nothing.** The message at `src/resources.rs:112` has a `{}` placeholder but is given no argument, so it names neither the URL nor the scheme. `UnsupportedProtocol` therefore carries no data, and `UnsupportedProtocolCarriesNoUrl` states that two such failures cannot be told apart.

## Model

| member | source | states |
|---|---|---|
| `Resources.Permits` | src/resources.rs:29-41 | `RemoteAllowed` permits every URL. `LocalOnly` permits exactly the URLs whose scheme is `file` and whose `to_file_path` succeeds, so it never permits `http` or `https`. |
| `Resources.IsLocal` | src/resources.rs:38-41 | Holds exactly for a `file` URL whose `to_file_path` succeeds, so never for `http` or `https`. A URL that passes it cannot fail the reader's own path conversion. |
| `Resources.PermitsMonotone` | src/resources.rs:29-35 | Any URL that `LocalOnly` permits is also permitted by `RemoteAllowed`. |
| `Resources.PermitsExamples` | src/resources.rs:121-142 | The unit tests' URLs. `file:///foo/bar` is permitted by both policies. `file://example.com/foo/bar` (not convertible to a path) and `https:///foo/bar` (which the url crate serialises as `https://foo/bar`) are permitted only by `RemoteAllowed`. |
| `Resources.LocalOnlyStrictlyNarrower` | src/resources.rs:129-135 | `LocalOnly` permits some URL. Some `file:` URL is permitted by `RemoteAllowed` but not by `LocalOnly`. |
| `Resources.ReqwestResult` | src/resources.rs:43-61 | The reqwest backend succeeds iff a response arrives with a 2xx status and its body reads fully; it then returns exactly that body. Otherwise it fails with the GET error, the body-read error, or the status error carrying the status and the URL. |
| `Resources.FetchHttpReqwest` | src/resources.rs:45-61 | Returns `ReqwestResult` of the oracle's response. The GET is the first effect. The body is read iff the status is 2xx. Every effect is a network effect on this URL. |
| `Resources.CurlResult` | src/resources.rs:63-81 | The curl backend succeeds iff the child was spawned and exited successfully; it then returns exactly its stdout. Otherwise it fails with the spawn error, or with the failure error carrying the URL and the child's stderr. |
| `Resources.CurlAgreesWithServer` | src/resources.rs:66-73 | Not a guarantee but the stated assumption about what `curl -fsSL` does once spawned. With no response, or a final status of 400 or more, it exits unsuccessfully. After a 2xx response whose body reads fully, it exits successfully. Whenever it exits successfully, its stdout is the whole body. |
| `Resources.FetchHttpCurl` | src/resources.rs:65-81 | Returns `CurlResult` of the oracle's run. Its only effect is spawning `curl -fsSL <url>`. |
| `Resources.FetchResult` | src/resources.rs:43-81 | Whichever backend is built in, a failure is one of the five backend errors and never a reader or policy error. |
| `Resources.FetchHttp` | src/resources.rs:43-81 | Returns `FetchResult` for the selected backend. It performs at least one effect, and all its effects are network effects. |
| `Resources.FileResult` | src/resources.rs:100-108 | The file branch succeeds iff the file opens and reads fully; it then returns exactly the file's full contents. Otherwise it fails with the open error or the read error. |
| `Resources.ReadFileAt` | src/resources.rs:100-108 | Returns `FileResult` for the path. It opens the path, then reads it only if the open succeeded. |
| `Resources.ReadUrlResult` | src/resources.rs:91-114 | A URL the policy rejects gives exactly the access-denied error (with the URL and the policy), and that error arises only then. Past the gate, `file` goes to the file branch and `http`/`https` go to the backend unchanged. The path-conversion error arises iff the policy is `RemoteAllowed` and the `file` URL does not convert. The unsupported-protocol error arises iff the policy is `RemoteAllowed` and the scheme is not `file`, `http` or `https`. Success implies the URL was permitted and has one of those three schemes. |
| `Resources.ReadUrl` | src/resources.rs:91-114 | Returns `ReadUrlResult`. A denied read performs no effect. A network effect happens only for a permitted http(s) URL, and a permitted http(s) URL touches only the network. File effects happen only at the converted path of a `file` URL. A permitted, convertible `file` URL opens that path, and reads it exactly when the open succeeds. Under `LocalOnly` there is no network effect. |
| `Resources.PolicyOnlyGates` | src/resources.rs:92-113 | For a URL both policies permit, `read_url` returns the same result under either policy. |
| `Resources.PathConversionFailureReachable` | src/resources.rs:99-110 | Some `file:` URL is denied under `LocalOnly` and, under `RemoteAllowed`, gets past the gate and fails path conversion. |
| `Resources.HttpDeniedUnderLocalOnly` | src/resources.rs:144-156 | An http(s) URL read under `LocalOnly` fails with access denied, naming that URL and `LocalOnly`. |
| `Resources.NotFoundFails` | src/resources.rs:158-183 | Assuming `CurlAgreesWithServer`, a 404 response fails under both backends. Under reqwest the error carries the status 404. Under curl, once the child has run, the error carries its stderr. |
| `Resources.OkReturnsBody` | src/resources.rs:185-193 | A 200 response whose body reads fully returns exactly that body (hence its length): under reqwest always, and under curl, assuming `CurlAgreesWithServer`, once the child has been spawned. |
| `Resources.BackendsAgreeOnSuccess` | src/resources.rs:43-81 | Assuming `CurlAgreesWithServer`, when both backends succeed for the same server answer they return the same bytes. A reqwest success is a curl success once curl has spawned. A curl success on a 2xx status is a reqwest success. |
| `Resources.UnsupportedProtocolCarriesNoUrl` | src/resources.rs:112 | Under `RemoteAllowed`, any two URLs with unsupported schemes fail with the same error, whatever the backend and the world. |
| `TerminalSize.Default` | src/terminal/size.rs:18-26 | The default size is 80 columns by 24 lines. |
| `TerminalSize.New` | src/terminal/size.rs:29-31 | Stores the width as the width and the height as the height, unchanged. |
| `TerminalSize.FromEnv` | src/terminal/size.rs:33-46 | Gives a size iff both `COLUMNS` and `LINES` are set and parse. The width is then the parsed `COLUMNS` and the height the parsed `LINES`. |
| `TerminalSize.Detect` | src/terminal/size.rs:48-56 | A TTY answer `(w, h)` gives exactly `Size(w, h)`. Without one, the result is `FromEnv`. It is `None` iff both sources give nothing. |
| `TerminalSize.DetectIgnoresEnvWithTty` | src/terminal/size.rs:52-56 | When the TTY answers, the environment and the parser make no difference. |
| `TerminalSize.DetectAppliesNoDefault` | src/terminal/size.rs:52-56 | With no TTY and no environment, `Detect` gives `None`, not 80×24. `COLUMNS` alone also gives `None`. |

## Left out

- Real I/O is not modelled: `File::open`, `read_to_end`, `reqwest::blocking::get`, the `curl` child process, `std::env::var` and `term_size::dimensions`. Each is an oracle value or an input.
- The url crate is not modelled. Parsing, `Url::to_file_path` and scheme normalisation are foreign code. Whether a URL converts to a path is a field of the `Url` value. The unit tests fix it for two URLs: `file:///foo/bar` converts and `file://example.com/foo/bar` does not.
- The grammar of `str::parse::<usize>` is not modelled; it is the `parse` parameter. `usize` is taken to be 64 bits wide.
- Error message text and anyhow context chaining are not modelled; only the kind of error and its data are kept. `CurlFailed` keeps the raw stderr bytes, not the lossily decoded UTF-8 text.
- Redirects, timeouts and TLS are not modelled. They belong to the HTTP client and to curl and show up only as oracle outcomes.
- curl's own behaviour is not modelled. `CurlAgreesWithServer` states what `-f`, `-L` and a full transfer are taken to do. The curl halves of `NotFoundFails`, `OkReturnsBody` and `BackendsAgreeOnSuccess` rest on it. A final 1xx or 3xx status, on which curl can succeed where reqwest fails, is left open by it.
- The cargo feature `reqwest` is a build-time switch. Here it is a `Backend` value passed to the reader.
- `tests/formatting.rs` is not part of this model. It drives the whole renderer against fixture files.
