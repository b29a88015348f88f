# Tavern gateway model

Tavern lets a publisher upload a tree of files from their Charm filesystem to a
Tavern server. The server admits an upload only if the request carries a bearer
token issued by a trusted Charm server. It then writes each uploaded part under
`<uploads>/<charm id>/<declared file name>`.

This project models that path in Dafny, from both sides.

- **Client** (`client.dfy`, module `Client`): the client configuration and the
  override rule for the Charm settings. The `bearer <token>` upload request.
  The multipart parts built from a single file or from a directory walk. The
  status check at the end of a publish.
- **JWKS admission check** (`jwks.dfy`, module `JwksMiddleware`): the
  `Authorization` header is stripped of its first seven characters. The token's
  unverified claims are read. The issuer must parse, and the subject must be
  non-empty. The issuer's host must be on the allow-list when the list is
  non-empty. Only then is the validator built (EdDSA, issuer, audience
  `tavern`) and run.
- **Upload handler** (`uploads.dfy`, module `UploadsMiddleware`): a loop over
  the `upload[]` parts that writes each part into a filesystem. The loop stops
  at the first failing part and keeps the parts already written. Each failure
  maps to its own status.
- **Server** (`server.dfy`, module `Server`): configuration defaults, the
  allow-set built from the configured hosts, and the upload route. On that
  route the JWKS check runs before the upload handler.
- **Older Charm identity middleware** (`charmauth.dfy`, module
  `CharmAuthMiddleware`): the identity is the second space-separated field of
  `Authorization`. It is confirmed by the Charm server's `/v1/id/<id>`
  endpoint.
- **Legacy single-package server** (`tavern.dfy`, module `LegacyServer`):
  defaults with a `CHARM_SERVER_URL` override, and an upload loop with the
  opposite policy. It logs each failed part, carries on, and answers
  `"<n> files uploaded!"`. Its `Serve` makes the uploads directory and
  registers the handler on `/_tavern/upload`.

Supporting modules:

- `filepath.dfy` (`FilePath`): Go's lexical `filepath.Clean`, `Join` and `Dir`
  on `/`-separated paths, read through a canonical form (rooted flag plus
  element stack).
- `disk.dfy` (`Disk`): a filesystem of regular files and directories with
  `os.MkdirAll`, `os.Create` and writes, as a value `Fs` and as a class
  `FileSystem` updated in place.
- `http.dfy` (`Http`): the request and gin's per-request context (keys, sticky
  abort flag, first-written status, body, log).
- `strings.dfy` (`Strings`): `strings.Split`, `Join` and `TrimPrefix`.
- `fmt.dfy` (`Fmt`): `fmt.Sprintf` called with a format string and no
  operands, which the client does with its upload URL.
- `wrappers.dfy` (`Wrappers`): `Option` and `Result`.

Library calls become inputs. `jwt.ParseUnverified`, `url.Parse` and the token
validator are functions in `JwksMiddleware.Oracles`. `mime.ParseMediaType` and
multipart parsing give the `Part` and `Request.form` values. The Charm server's
identity endpoint is a `RemoteOutcome`. The remote Charm filesystem, the token
service and the HTTP transport are functions in `Client.Remote`. The
environment variable `CHARM_SERVER_URL` and `client.ConfigFromEnv` are
parameters.

Where the design description and the code disagree, the model follows the
code:

- On success the new upload handler writes no `"<n> files uploaded!"` body.
  Only the legacy handler does.
- A failed copy of a part is answered 400, not 500.
- `getClaims` does not check that the header starts with `Bearer `. It only
  drops seven characters, so the client's lowercase `bearer ` works.
- An empty subject aborts with 401, but the middleware carries on. It stores
  the empty `charm_id` and may still check the allow-list and build the
  validator. The abort is sticky, so the upload handler never runs.
- Declared file names are not sanitised against `..`. A part can land in
  another user's directory (`UploadsMiddleware.TraversalReachesOtherUser`).
  Containment holds only for names whose relative reading has no `..`
  (`UploadsMiddleware.DestinationContained`,
  `UploadsMiddleware.IngestConfinedToUserDir`).
- The legacy `upload` handler repeats its error and status checks after the
  identity request (`server.go:53-61`). They can never fire, so the model has
  no branch for them.

## Model

| member | source | states |
|---|---|---|
| JwksMiddleware.GetClaims | internal/middleware/jwks.go:77-91 | a header of at most `len("Bearer ")` = 7 characters (bytes in Go) yields no claims; a longer one yields the parse of exactly what follows its first 7 characters |
| JwksMiddleware.BearerRoundTrip | internal/middleware/jwks.go:78-83 | the client's `"bearer " + token` header gives the claim parser exactly the token |
| JwksMiddleware.PrefixNotInspected | internal/middleware/jwks.go:82-83 | any two 7-character prefixes in front of a token give the same claims: the prefix is never inspected |
| JwksMiddleware.Hostname | internal/middleware/jwks.go:43 | `url.Hostname`: the host with a numeric `:port` and IPv6 brackets removed (its properties are `HostnameDropsPort` and `HostnameWithoutPort`) |
| JwksMiddleware.HostnameDropsPort | internal/middleware/jwks.go:43 | the issuer's host name is its host with a numeric `:port` removed |
| JwksMiddleware.HostnameWithoutPort | internal/middleware/jwks.go:43 | a plain host without a port is its own host name |
| JwksMiddleware.LocalIssuerHostname | cmd/serve_test.go:75-80 | the tests' issuer `http://localhost:35354` is checked against the allow-list as `localhost` |
| JwksMiddleware.Admit | internal/middleware/jwks.go:20-75 | the request goes on iff the claims and issuer parse, the subject is non-empty, the issuer passes the allow-list and the validator accepts; unreadable claims or issuer give 401 and nothing else runs; the unchecked subject is stored once both parse; an empty subject gives 401 and never proceeds; the validator is built only past the allow-list, always with EdDSA, `issuer.String()` and audience `["tavern"]`; an issuer missing from a non-empty allow-list gets 401 and the "cannot publish" body; a token the validator rejects is logged as a failed validation last, answered with the validator's status (or the earlier 401 of an empty subject) and the "invalid JWT" body; a validator that cannot be built is logged last and answered 401 with no body |
| JwksMiddleware.AdmitParsed | internal/middleware/jwks.go:36-73 | once claims and issuer parse: the request goes on iff the subject is non-empty, the issuer passes the allow-list and the validator accepts; the subject is always stored; an empty subject gives 401 with the "invalid CharmID" log line first; the validator is built exactly when the allow-list passes the issuer, with the issuer's configuration; an issuer refused by a non-empty list gets 401 and the "cannot publish" body; a refused issuer is the last log line; a validator rejection is logged last as a failed validation with the validator's status (unless 401 was already written) and the "invalid JWT" body; a validator that cannot be built is logged last and answered 401 |
| JwksMiddleware.EmptyAllowListRejectsNoIssuer | internal/middleware/jwks.go:42-56 | with an empty allow-list every token whose claims and issuer parse reaches the validator |
| JwksMiddleware.Jwks | internal/middleware/jwks.go:20-75 | the middleware changes the gin context (status, body, log, `charm_id`, sticky abort) exactly as `Admit` says, and the next handler runs iff the request was not aborted |
| JwksMiddleware.CheckParsed | internal/middleware/jwks.go:36-73 | past the two parse checks the middleware stores the subject under `charm_id` and changes status, body, log and abort flag exactly as `AdmitParsed` says; the next handler runs iff the request was not aborted |
| UploadsMiddleware.Copied | internal/middleware/uploads.go:83-86 | a copy that fails after `n` bytes leaves a prefix of the part's data of length `n` |
| UploadsMiddleware.SavePart | internal/middleware/uploads.go:41-87 | a stored part replaces its destination's content with exactly its bytes; no other file changes and no directory disappears |
| UploadsMiddleware.SavePartStatus | internal/middleware/uploads.go:41-87 | status mapping of one part: an unparseable header or open, read or seek failure is 400 with no change; an empty part fails the probe read with 400 "error reading data"; a `MkdirAll` or `Create` failure is 500 with no file changed; a copy failure is 400 and leaves the partial file; the part is stored iff none of these fails |
| UploadsMiddleware.Ingest | internal/middleware/uploads.go:39-88 | the loop, with each part sent to its destination (`DestIn(dir)`: the declared name joined under `dir`), stores a prefix of the parts, and reports no failure iff it stored all of them |
| UploadsMiddleware.IngestStep | internal/middleware/uploads.go:40-88 | one more turn of the loop saves the next part on the filesystem the earlier parts left, and counts it iff it was stored |
| UploadsMiddleware.IngestSinglePart | internal/middleware/uploads.go:40-88 | a lone readable part whose directory can be made and whose file can be created is stored, and no other file changes |
| UploadsMiddleware.IngestFrame | internal/middleware/uploads.go:40-88 | a file that no part is headed for keeps its content, and no directory disappears |
| UploadsMiddleware.IngestStopsAtFailure | internal/middleware/uploads.go:40-88 | once a prefix of the parts fails, the later parts change nothing |
| UploadsMiddleware.FailureKeepsEarlierParts | internal/middleware/uploads.go:40-88 | on failure, every part before the failing one was stored, and the result is the failing part's effect on that state: there is no rollback |
| UploadsMiddleware.LastWriterWins | internal/middleware/uploads.go:76-87 | after a successful request each destination holds the bytes of the last part headed for it (`os.Create` truncates) |
| UploadsMiddleware.LastForPrefix | internal/middleware/uploads.go:76-87 | a part that is last for its destination stays last in every prefix that holds it, and the final part is headed elsewhere |
| UploadsMiddleware.EmptyFirstPartRejected | internal/middleware/uploads.go:57-62 | a zero-byte first part stores nothing and is answered 400 "error reading data" |
| UploadsMiddleware.DestinationContained | internal/middleware/uploads.go:26-48 | a declared name whose relative reading has no `..` lands inside `dir/id`, at `dir`'s elements, then `id`, then the name's elements |
| UploadsMiddleware.TraversalReachesOtherUser | internal/middleware/uploads.go:47 | user `a`'s part named `../b/g` is written exactly where user `b`'s part `g` would be: the join does not confine names |
| UploadsMiddleware.IngestConfinedToUserDir | internal/middleware/uploads.go:26-88 | when no declared name climbs with `..`, a request of user `id` leaves every file outside `dir/id` unchanged |
| UploadsMiddleware.ServeForm | internal/middleware/uploads.go:32-89 | no parsed form, or no `upload[]` field, gives 400 "no files found in request" with no writes; otherwise the result is the ingest loop's |
| UploadsMiddleware.Upload | internal/middleware/uploads.go:19-30 | a missing or non-string `charm_id` gives 400 "charm_id not found" with no writes; otherwise the form is served below `Join(dir, charm_id)` |
| UploadsMiddleware.RenderError | internal/middleware/uploads.go:91-93 | an error reply writes its status (if none was written) and its message |
| UploadsMiddleware.SaveOne | internal/middleware/uploads.go:41-87 | one iteration on the in-place filesystem and context does what `SavePart` says and reports whether the part was stored |
| UploadsMiddleware.StorePart | internal/middleware/uploads.go:70-87 | once a part has been read, making its directory, creating its file and copying into it does what `SavePart` says, with 500 for the first two failures and 400 for the copy |
| UploadsMiddleware.ServeHttp | internal/middleware/uploads.go:32-89 | the handler on the in-place filesystem ends in the state `ServeForm` gives, with its error reply if any |
| UploadsMiddleware.SaveAll | internal/middleware/uploads.go:39-88 | the loop on the in-place filesystem saves the parts in order until one fails, ending in the state `Ingest` gives, with its error reply if any |
| UploadsMiddleware.Uploads | internal/middleware/uploads.go:19-30 | the handler on a gin context ends in the state `Upload` gives |
| Server.Defaulted | server/server.go:38-48 | an empty uploads path becomes `tavern_uploads` and an empty address `127.0.0.1:8000`; non-empty fields and the allowed Charm servers are kept |
| Server.DefaultedIdempotent | server/server.go:38-48 | defaulting twice is defaulting once |
| Server.NewServerWithConfig | server/server.go:38-48 | the caller's configuration is defaulted in place and the server keeps a reference to it |
| Server.NewServer | server/server.go:29-36 | the new server's configuration is the default address and uploads path with no allow-list |
| Server.AllowedServers | server/server.go:59-62 | the allow-set holds exactly the configured hosts, duplicates collapsed, and is empty iff the list is |
| Server.Serve | server/server.go:50-65 | the uploads directory is created first, and nothing is served if that fails; the upload route runs the JWKS check with the allow-set before the upload handler with memory limit `32<<20` and root `UploadsPath`, which is also the static root |
| Server.ServeUpload | server/server.go:58-64 | only admitted requests change the filesystem, and a request that is not admitted gets an error status; an admitted request is served below its token subject's directory; the status is 200 iff the request was admitted and every part was stored |
| Server.RejectedRequestsWriteNothing | server/server.go:63-64 | a token the validator does not accept never changes the filesystem |
| Server.AdmittedWithoutFilesRejected | cmd/serve_test.go:173-178 | an admitted request without `upload[]` is answered 400 "no files found in request" and writes nothing |
| Server.PublishedFileLands | cmd/publish_test.go:54-59 | an admitted one-part upload on an empty area is answered 200 and leaves exactly the part's bytes at `<uploads>/<subject>/<name>` |
| Server.IngestOnFreshDisk | cmd/publish_test.go:54-59 | on an empty area the one readable part of user `id` is stored at `<uploads>/<id>/<name>` and is the only file |
| Server.HandleUpload | server/server.go:63-64 | on a fresh context the upload route's two handlers, the second run only when the first did not abort, end in the state `ServeUpload` gives |
| CharmAuthMiddleware.CharmIdFromRequest | internal/middleware/charmauth.go:51-74 | indexing the second field panics iff the header has no space; an empty second field is "missing user key"; otherwise the identity is found iff the token's `sub` is a non-empty string, and it is that subject |
| CharmAuthMiddleware.CharmIdOfToken | internal/middleware/charmauth.go:52-55 | a header `<scheme> <token>[ more]` is looked up by the token and only the token |
| CharmAuthMiddleware.BearerHeaderLookup | internal/middleware/charmauth.go:52 | the client's `bearer <token>` header is looked up by its token |
| CharmAuthMiddleware.DoubleSpaceMissesToken | internal/middleware/charmauth.go:52-55 | a second space right after the scheme makes the token field empty: "missing user key" |
| CharmAuthMiddleware.Authenticate | internal/middleware/charmauth.go:13-49 | the first log line names the identity; `charm_id` is stored iff the identity was found, before the remote check; the request goes on iff the identity was found and the Charm server answered 200; a failure to build or send the remote request is 500 and everything else that aborts is 403 |
| CharmAuthMiddleware.PassesOnlyConfirmed | internal/middleware/charmauth.go:43-46 | a request that goes on carries a non-empty identity the Charm server confirmed with 200 |
| CharmAuthMiddleware.CharmAuth | internal/middleware/charmauth.go:13-49 | the middleware on a gin context does what `Authenticate` says, and nothing at all when the lookup panics |
| LegacyServer.Defaulted | server.go:96-111 | empty uploads path and address get `tavern_uploads` and `0.0.0.0:8000`; the Charm server URL is replaced by `CHARM_SERVER_URL` only when it equals the default and the variable is non-empty |
| LegacyServer.DefaultedIdempotent | server.go:96-108 | applying the defaults again with the same environment changes nothing |
| LegacyServer.EmptyCharmServerKept | server.go:105-108 | an empty Charm server URL is not replaced: only the exact default is |
| LegacyServer.NewServerWithConfig | server.go:96-111 | the caller's configuration is updated in place as `Defaulted` says, and the new server keeps a reference to it |
| LegacyServer.NewServer | server.go:86-94 | the new server's configuration is the default address and uploads path, with the default Charm server unless `CHARM_SERVER_URL` is set |
| LegacyServer.Serve | server.go:113-128 | the uploads directory is made first and nothing is served if that fails; otherwise `/_tavern/upload` is served by the upload handler with the configured uploads path and Charm server, the uploads directory is served as static files, and the address is the configured one |
| LegacyServer.LegacyDestination | server.go:73 | a part of user `id` is saved at `filepath.Join(uploads, id, "/", name)` (see `SameDestinationAsNewServer`) |
| LegacyServer.JobFor | server.go:72-76 | each part goes to its legacy destination, with the directory of its own file name made beside it (see `LegacyPaths`) |
| LegacyServer.MkdirAllIgnoringError | server.go:75-77 | an `os.MkdirAll` whose error is ignored never changes a file and never removes a directory |
| LegacyServer.LegacySavePart | server.go:72-81 | a saved part replaces its destination with exactly its bytes and changes no other file; no directory disappears; saving fails iff opening, creating or copying fails, so an empty part is saved as an empty file |
| LegacyServer.SaveEach | server.go:71-82 | every part is tried; at most one failure is counted per part (what each turn does is `SaveEachStep`; frame, last writer and failure count below) |
| LegacyServer.SaveEachStep | server.go:71-82 | one more turn of the legacy loop saves the next job on the filesystem the earlier jobs left, and counts one more failure iff it was not saved |
| LegacyServer.LegacyIngest | server.go:70-82 | the legacy loop over the parts of user `id` counts at most one failure per part |
| LegacyServer.LegacyContinuesAfterFailure | server.go:71-82 | a failing part does not stop the loop: the next part is saved on the state the earlier ones left |
| LegacyServer.SaveEachFrame | server.go:71-82 | the loop never removes a directory, writes only to the jobs' destinations, and leaves every file no job targets as it was |
| LegacyServer.JobSavedPrefix | server.go:71-82 | whether a part is saved does not depend on the parts after it |
| LegacyServer.LegacyLastWriterWins | server.go:72-81 | a saved part whose destination no later part writes to is exactly what that destination holds after the loop |
| LegacyServer.FailedJobsStep | server.go:79-81 | the failing parts among the first `n + 1` are those among the first `n`, plus part `n` iff it fails |
| LegacyServer.FailuresCounted | server.go:79-81 | the loop's failure count is the number of parts that were not saved |
| LegacyServer.NoFailuresIffAllSaved | server.go:79-81 | no failure is counted iff every part was saved |
| LegacyServer.LegacyUpload | server.go:29-84 | nothing is saved unless the Charm server answers 200; a transport error is 500, another status 403, an unbuilt request 500, all before any file is saved; a nil form is 400 "no files uploaded"; otherwise the reply is 200 `"<n> files uploaded!"` with n the number of parts, whatever the saves did; the log is "upload received" first, then one "error saving file" line per failed save, or "error creating request" for an unbuilt request, or "no files found" for a nil form, and nothing more for a refused identity |
| LegacyServer.SavingFailures | server.go:79-81 | one "error saving file" log line per failed part |
| LegacyServer.LegacyPaths | server.go:73-76 | the two directories the handler makes are the destination's parent and the directory of the part's own file name |
| LegacyServer.LegacyStore | server.go:72-81 | one part on the in-place filesystem does what `LegacySavePart` says |
| LegacyServer.LegacySaveAll | server.go:71-82 | the loop on the in-place filesystem and context ends in the state `SaveEach` gives, with one log line per failure |
| LegacyServer.LegacyUploadHandler | server.go:29-84 | the handler on a gin context ends in the state `LegacyUpload` gives |
| LegacyServer.SameDestinationAsNewServer | server.go:73 | `Join(uploads, id, "/", f)` is the destination `Join(Join(uploads, id), f)` of the new handler: the `"/"` element changes nothing |
| LegacyServer.DirOfBaseName | server.go:76-77 | a file name without a directory part names the working directory, so the second `MkdirAll` makes nothing |
| LegacyServer.LegacyTarget | server.go:73 | for a traversal-free name the legacy destination is `<uploads>/<id>/<name>`, as in the new handler |
| LegacyServer.LegacySavesFreshPart | server.go:72-81 | a readable part is saved at its destination on a filesystem without deeper entries |
| LegacyServer.SavesJobOnShallowFs | server.go:72-81 | a job whose destination lies deeper than every directory of a file-free filesystem is saved: its directories are made and it holds exactly the part's bytes |
| LegacyServer.ZeroBytePartSavedOnlyByLegacy | server.go:71-82 | an empty part is saved as an empty file by the legacy loop but makes the new handler answer 400 with nothing stored |
| LegacyServer.UnopenedPartMakesItsDirs | server.go:74-81 | on an empty filesystem, a part that cannot be opened saves no file and fails, and leaves exactly the directories above its destination made |
| LegacyServer.SavesJobOnFileFreeFs | server.go:72-81 | on a filesystem without files, a readable part whose destination is not already a directory is saved, and the filesystem then holds exactly that file |
| LegacyServer.DestinationNotAboveOther | server.go:73 | unless its name is a proper prefix of the other part's name (element by element), a part's destination is not one of the directories made above the other part's destination |
| LegacyServer.LegacySavesAfterUnopenedPart | server.go:71-82 | after a part that cannot be opened (named or not), the legacy loop still saves the next part and counts one failure, provided the next part's name is not a proper prefix of the unopened part's name, whose directories would then block it |
| LegacyServer.FailedPartDoesNotStopLegacy | server.go:71-83 | an unopenable part (named or not) followed by a good one whose name is not a proper prefix of the first: the legacy loop saves the good one and counts one failure, while the new handler stops at the first part and saves nothing |
| Client.DefaultConfig | client/client.go:40-42 | the default configuration holds the four default constants |
| Client.Overridden | client/client.go:50-60 | each Charm setting is taken from the configuration only when it is non-empty or non-zero, and otherwise kept from the environment |
| Client.OverriddenIdempotent | client/client.go:50-60 | overriding twice with the same configuration is overriding once |
| Client.EmptyConfigKeepsEnvironment | client/client.go:50-60 | a configuration with no Charm fields set keeps the environment's settings |
| Client.DefaultConfigIgnoresEnvironment | client/client.go:36-60 | the default configuration pins the default Charm host and ports whatever the environment says |
| Client.ApplyOverrides | client/client.go:50-60 | the Charm configuration is updated in place as `Overridden` says |
| Client.NewClientWithConfig | client/client.go:44-73 | an environment error gives no client; otherwise a client exists iff the overridden settings connect, and it holds the configuration and those settings |
| Client.NewClient | client/client.go:36-38 | with the environment loaded, a client is made iff the default Charm settings connect, whatever the environment says; a new client holds the default configuration and those settings |
| Client.UploadRequest | client/client.go:140-149 | the request exists iff `http.NewRequest` accepts the URL, which is `ServerURL + "/v1/tavern/upload"` passed through `fmt.Sprintf` with no operands; for a server URL without `%` that is the concatenation itself; the header is `Authorization: "bearer " + token` |
| Client.PlainUrlUnchanged | client/client.go:141 | a server URL without `%` comes out of the formatting as the URL followed by the route |
| Client.PercentInServerUrlMangled | client/client.go:141 | the server URL `http://localhost:8000/%7Euser` is formatted into `http://localhost:8000/%!E(MISSING)user/v1/tavern/upload`, not the URL as written |
| Client.MangledUrlNotRequested | client/client.go:110-144 | for an `http` or `https` server URL whose only `%` starts a `%7E` before any `?`, when `http.NewRequest` rejects a `%` outside the query that is not followed by two hexadecimal digits, no request is built and publishing fails with the request error before anything is sent |
| Client.EscapedUploadUrl | client/client.go:141 | with every `%` doubled before formatting, the URL is the server URL followed by the route, whatever it contains |
| Client.UploadRequestCarriesToken | client/client.go:146 | the server's `getClaims` recovers exactly the token the client sent |
| Client.UploadFile | client/client.go:193-218 | exactly one `upload[]` part named with the full path and holding the file's data, or an error iff the file cannot be read |
| Client.WalkStep | client/client.go:156-187 | one visit fails iff it is a walk error or an unreadable file; only a file appends a part, under `upload[]` and named relative to the root, and earlier parts are kept |
| Client.WalkParts | client/client.go:151-191 | the walk yields at most one part per visit, all under `upload[]` |
| Client.UploadDir | client/client.go:151-191 | the walk callback, run on one shared buffer, produces the parts and error that the walk specification gives |
| Client.WalkStopsAtError | client/client.go:156-159 | once the walk fails, the later entries add nothing |
| Client.WalkFailsIffBreaks | client/client.go:156-188 | payload building fails iff some visit is a walk error or a file that cannot be read |
| Client.WalkPartsOfFiles | client/client.go:160-187 | a walk that does not fail yields one `upload[]` part per file, in walk order, named `TrimPrefix(path, root)`, and none for directories or nil entries |
| Client.WalkedName | client/client.go:164 | a file below the walked root is named by its path relative to the root, with the leading `/` |
| Client.UnrelatedNameKept | client/client.go:164 | a path that does not start with the root is sent unchanged |
| Client.CharmId | client/client.go:220-229 | the printed identity is the token's subject, and there is none iff the token does not parse |
| Client.PrintedIdIsStoredId | client/client.go:220-229 | the identity the client prints is the one the server's JWKS check stores for the same token |
| Client.PublishWithRoot | client/client.go:79-138 | a non-200 reply with a readable body is always reported as "publishing failed" with that body, and that error arises only from such a reply; success iff the path opens, the payload builds, the token and request exist, the server answers 200 and the token parses; the address is `ServerURL/<id>` |
| Client.RootUnused | client/client.go:79-100 | `PublishWithRoot` ignores its `root` argument: the walk's root is always the published path |
| Client.Payload | client/client.go:95-105 | every part is sent under `upload[]`; a file is one part; a directory gives at most one part per visited entry |
| Client.Publish | client/client.go:75-77 | `Publish` is `PublishWithRoot` with root `/` |
| FilePath.CleanIdempotent | internal/middleware/uploads.go:47 | `filepath.Clean` is idempotent |
| FilePath.CleanSameIffCanonSame | internal/middleware/uploads.go:47 | two paths clean to the same string iff they name the same location |
| FilePath.CanonRender | internal/middleware/uploads.go:47 | reading back a cleaned path gives the same canonical form |
| FilePath.JoinIsClean | internal/middleware/uploads.go:47 | what `filepath.Join` returns is clean, or empty |
| FilePath.JoinStaysBelow | internal/middleware/uploads.go:47 | joining a name with no `..` in its relative reading stays below the base, at the base's elements followed by the name's |
| FilePath.JoinName | internal/middleware/uploads.go:26 | `Join(dir, id)` names the directory `id` directly inside `dir` |
| FilePath.JoinWithSlashElement | server.go:73 | `Join(dir, id, "/", f)` equals `Join(Join(dir, id), f)` |
| FilePath.DotDotReachesSibling | internal/middleware/uploads.go:47 | `../b/g` joined under `dir/a` equals `g` joined under `dir/b` |
| FilePath.IdentitiesIsolated | internal/middleware/uploads.go:26-47 | with traversal-free names, what identity `a` uploads stays in `dir/a` and never enters `dir/b` |
| FilePath.DirOfClean | internal/middleware/uploads.go:48 | `filepath.Dir` of a clean path drops its last element |
| FilePath.Clean | internal/middleware/uploads.go:47 | `filepath.Clean` never returns the empty string |
| FilePath.Join | internal/middleware/uploads.go:47 | `filepath.Join` returns `""` exactly when every element is empty |
| FilePath.Dir | internal/middleware/uploads.go:48 | `filepath.Dir` never returns the empty string |
| FilePath.CleanEmpty | internal/middleware/uploads.go:48 | the empty path cleans to `.` |
| FilePath.CanonValid | internal/middleware/uploads.go:47 | every path reads as a valid canonical form |
| FilePath.CanonClean | internal/middleware/uploads.go:47 | cleaning does not change how a path reads |
| Disk.CanonOfDir | internal/middleware/uploads.go:47-48 | the directory `Dir(dfile)` names is the parent location of `dfile` |
| Disk.MkdirAllFails | internal/middleware/uploads.go:70 | `os.MkdirAll` fails when the location or a directory above it is a regular file (its effect is `FileSystem.MkdirAll`) |
| Disk.CreateFails | internal/middleware/uploads.go:76 | `os.Create` fails when the location is a directory or its parent is not one (its effect is `FileSystem.Create`) |
| Disk.MkdirAllKeepsConsistent | internal/middleware/uploads.go:70 | a successful `MkdirAll` never makes a location both a file and a directory |
| Disk.CreateKeepsConsistent | internal/middleware/uploads.go:76 | a successful `Create` and writes to it never make a location both a file and a directory |
| Disk.CreateBelowShallowerDirs | internal/middleware/uploads.go:70-80 | on an area without files or deeper directories, the parent of a destination can be made and the destination then created |
| Disk.CreateOnFileFreeFs | internal/middleware/uploads.go:70-76 | on a filesystem without files, where the destination is not a directory, `MkdirAll` of its parent succeeds and the `Create` after it succeeds too |
| Disk.NotAboveOther | internal/middleware/uploads.go:70 | a location under a base is among the directories above another location under the same base only when its relative part is a proper prefix of the other's |
| Disk.FileSystem.MkdirAll | internal/middleware/uploads.go:70 | `os.MkdirAll` fails iff the location or a directory above it is a file, and then creates nothing; otherwise it adds the location and every directory above it |
| Disk.FileSystem.Create | internal/middleware/uploads.go:76 | `os.Create` fails iff the location is a directory or its parent is not one; otherwise the file exists and is empty |
| Disk.FileSystem.Write | internal/middleware/uploads.go:83 | a write to the open file appends the bytes |
| Strings.SplitManyIffSep | internal/middleware/charmauth.go:52 | `strings.Split` gives a second field iff the string contains the separator |
| Strings.SplitOn | internal/middleware/charmauth.go:52 | `strings.Split` always gives at least one field |
| Strings.TrimPrefix | client/client.go:164 | `strings.TrimPrefix` removes the prefix exactly when the string starts with it, so that prefix and result make up the string, and otherwise returns the string unchanged |
| Fmt.Sprintf | client/client.go:141 | `fmt.Sprintf` of a format with no operands: text outside directives is copied; flags are skipped; a numeric width or precision is skipped; `%%` prints `%`; any other verb `c` prints `%!c(MISSING)`; a `*` width or precision prints `%!(BADWIDTH)` or `%!(BADPREC)`; a trailing `%`, or a width or precision that grows past 10^6, prints `%!(NOVERB)` and ends the output (its properties are the `Fmt` lemmas below) |
| Fmt.SkipNumber | client/client.go:141 | `fmt`'s `parsenum`: what follows is a suffix that does not start with a digit, or nothing when the number exceeds 10^6 with a digit still to read |
| Fmt.DigitsTooLarge | client/client.go:141 | when the digits read so far make more than 10^6 and another digit follows, `parsenum` gives up on the number |
| Fmt.WidthTooLarge | client/client.go:141 | a width not starting with `0` whose leading digits make more than 10^6, with another digit after them, prints only `%!(NOVERB)`, whatever follows |
| Fmt.EightDigitWidth | client/client.go:141 | `%12345678`, whatever follows, prints only `%!(NOVERB)` |
| Fmt.SprintfPlain | client/client.go:141 | `fmt.Sprintf` of a format without `%` and no operands is the format itself |
| Fmt.SprintfPlainPrefix | client/client.go:141 | text without `%` in front of a format is copied ahead of the rest |
| Fmt.EscapePercent | client/client.go:141 | doubling every `%` never shortens the text |
| Fmt.SprintfOfEscaped | client/client.go:141 | formatting the escaped text gives the original text back |
| Fmt.DirectivePercent | client/client.go:141 | `%%` prints one `%` |
| Fmt.DirectiveWidthMissing | client/client.go:141 | a one-digit width is skipped and a verb with no operand prints `%!<verb>(MISSING)` |
| Fmt.PercentEncodedTilde | client/client.go:141 | a percent-encoded `~` (`%7E`) in otherwise `%`-free text comes out as `%!E(MISSING)` |
| Http.WriteStatus | internal/middleware/jwks.go:25 | the first status written stays; nothing is written only when neither a status nor a code is given |
| Http.Context.Set | internal/middleware/jwks.go:40 | `c.Set` binds the key and changes nothing else |
| Http.Context.Abort | internal/middleware/jwks.go:72 | `c.Abort` sets the sticky abort flag and changes nothing else |
| Http.Context.Respond | internal/middleware/uploads.go:23 | a reply writes its status if none was written, and appends its body |
| Http.Context.AbortWithStatus | internal/middleware/jwks.go:25 | aborts and writes the status if none was written |
| Http.Context.AbortWithMessage | internal/middleware/jwks.go:45 | aborts, writes the status if none was written, and appends the body |
| Http.Context.Log | internal/middleware/jwks.go:24 | a log line is appended and nothing else changes |

## Left out

- JWT signature, expiry and audience checking, the JWKS caching provider and its one-hour TTL: these are cryptography, network fetches and a shared concurrent cache. The validator is an abstract verdict. The model records only the arguments it is built with (EdDSA, the issuer's text, audience `tavern`).
- `jwt.ParseUnverified`, `jwt.Parse`, `url.Parse`, `mime.ParseMediaType` and multipart form parsing are foreign library code. Their results are inputs. `url.Hostname` is modelled as host minus a numeric port and IPv6 brackets, without zone handling.
- UploadsMiddleware.Uploads: the `memLimit` argument is passed on but has no effect in the model, because the parsed form is an input.
- The remote `/v1/id/<id>` identity requests and all `http.Client` use are network calls. They are modelled as a `RemoteOutcome`.
- gin routing internals, `http.Server`, static file serving, `ListenAndServe` and graceful shutdown are server plumbing. `Server.Serve` and `LegacyServer.Serve` stop at the router they would serve. The three start-up log lines of the legacy `Serve` are not modelled.
- The older top-level client (`client.go`), the test utilities and the CLI commands are out of scope. The top-level client is network and panic plumbing, and its naming logic duplicates `client/client.go`. The test utilities are a mutex-guarded log buffer and TCP polling. The CLI commands are flag glue.
- The exact text of error bodies and log lines is not modelled. Each message is a constructor named after its meaning.
- File permissions, `defer Close`, the content of the 512-byte probe read (only its end-of-file effect on an empty part is modelled), symbolic links, disk-full and permission errors, and Windows path separators are not modelled.
- Client.PublishWithRoot: the progress lines printed to the terminal are not modelled.
- CharmAuthMiddleware.CharmAuth: the out-of-range panic on a header without a space is modelled as "nothing done" rather than as a crash of the request.
- LegacyServer.LegacyStore: gin's `SaveUploadedFile` is modelled as open, create, then copy. An empty part is saved as an empty file.
- JwksMiddleware.GetClaims: strings are sequences of characters, so `len(auth)` and `auth[7:]` count characters here, while Go counts bytes. The two agree for ASCII headers, which is what HTTP header values carry. A header with a multi-byte character among its first seven bytes is cut at a different place than in Go.
- Client.UploadRequest: the formatting model covers flags, widths and precisions (with the cut-off above 10^6), `*` and verbs. It does not cover explicit argument indexes (`%[1]d`). The model reads the `[` after a `%` as a verb with no operand, so it prints `%![(MISSING)` where Go reports a bad index.
- Disk.Preexisting: rooted and relative locations are kept apart, and the working directory has no place in the rooted tree. A relative path that climbs past the working directory with `..` and the absolute path of the same directory are therefore different locations in the model. No contract depends on relating the two.
- JwksMiddleware.Hostname has no contract of its own. Its behaviour is stated by `HostnameDropsPort` and `HostnameWithoutPort`, because a contract on it makes the admission proofs too costly. Zone identifiers are not modelled.

## Findings

| source | as written | input that shows it | evidently intended | confidence | as-written member | corrected member |
|---|---|---|---|---|---|---|
| client/client.go:141 | the server URL plus the route is passed to `fmt.Sprintf` as the format string, with no operands | server URL `http://localhost:8000/%7Euser`: the URL becomes `http://localhost:8000/%!E(MISSING)user/v1/tavern/upload`, which `http.NewRequest` rejects as an invalid escape, so publishing fails before anything is sent | the request goes to the server URL followed by `/v1/tavern/upload`, as written | high (not executed) | Client.PercentInServerUrlMangled | Client.EscapedUploadUrl |
