/** The publishing client: its configuration and the Charm settings it
    overrides, the upload request it sends, and the multipart parts it builds
    from a file or a directory walk of the user's Charm filesystem.  The
    Charm filesystem, the token service, the HTTP transport and the token
    parser are given as functions of their inputs. */
module Client {
  import opened Wrappers
  import opened Strings
  import opened Disk
  import opened JwksMiddleware
  import Fmt
  import Server

  const DefaultCharmServerHost := "https://cloud.charm.sh"
  const DefaultServerUrl := "http://localhost:8000"
  const DefaultCharmServerHttpPort := 35354
  const DefaultCharmServerSshPort := 35353

  /** The client's own configuration. */
  datatype Config = Config(serverUrl: string, charmServerHost: string, charmServerHttpPort: int, charmServerSshPort: int)

  /** `DefaultConfig`: the default server and Charm server. */
  function DefaultConfig(): (r: Config)
    ensures r.serverUrl == DefaultServerUrl && r.charmServerHost == DefaultCharmServerHost
    ensures r.charmServerHttpPort == DefaultCharmServerHttpPort && r.charmServerSshPort == DefaultCharmServerSshPort
  {
    Config(DefaultServerUrl, DefaultCharmServerHost, DefaultCharmServerHttpPort, DefaultCharmServerSshPort)
  }

  // ---------------------------------------------------------------------
  // The Charm client settings

  /** The settings of the Charm client that the configuration can override,
      as `client.ConfigFromEnv` first sets them. */
  datatype CharmSettings = CharmSettings(host: string, httpPort: int, sshPort: int)

  /** The override rule of `NewClientWithConfig`: an empty host and a zero
      port leave the environment's value in place. */
  function Overridden(env: CharmSettings, cfg: Config): (r: CharmSettings)
    ensures cfg.charmServerHost != "" ==> r.host == cfg.charmServerHost
    ensures cfg.charmServerHost == "" ==> r.host == env.host
    ensures cfg.charmServerHttpPort != 0 ==> r.httpPort == cfg.charmServerHttpPort
    ensures cfg.charmServerHttpPort == 0 ==> r.httpPort == env.httpPort
    ensures cfg.charmServerSshPort != 0 ==> r.sshPort == cfg.charmServerSshPort
    ensures cfg.charmServerSshPort == 0 ==> r.sshPort == env.sshPort
  {
    CharmSettings(
      if cfg.charmServerHost != "" then cfg.charmServerHost else env.host,
      if cfg.charmServerHttpPort != 0 then cfg.charmServerHttpPort else env.httpPort,
      if cfg.charmServerSshPort != 0 then cfg.charmServerSshPort else env.sshPort)
  }

  /** Overriding twice with the same configuration is overriding once. */
  lemma OverriddenIdempotent(env: CharmSettings, cfg: Config)
    ensures Overridden(Overridden(env, cfg), cfg) == Overridden(env, cfg)
  {
  }

  /** A configuration with no Charm server fields set keeps the environment. */
  lemma EmptyConfigKeepsEnvironment(env: CharmSettings, serverUrl: string)
    ensures Overridden(env, Config(serverUrl, "", 0, 0)) == env
  {
  }

  /** The default configuration pins the Charm server, whatever the
      environment says. */
  lemma DefaultConfigIgnoresEnvironment(env: CharmSettings)
    ensures Overridden(env, DefaultConfig()) ==
      CharmSettings(DefaultCharmServerHost, DefaultCharmServerHttpPort, DefaultCharmServerSshPort)
  {
  }

  /** The Charm client's configuration, updated in place. */
  class CharmConfig {
    var host: string
    var httpPort: int
    var sshPort: int

    function Value(): CharmSettings
      reads this
    {
      CharmSettings(host, httpPort, sshPort)
    }

    constructor (s: CharmSettings)
      ensures Value() == s
    {
      host, httpPort, sshPort := s.host, s.httpPort, s.sshPort;
    }
  }

  /** `NewClientWithConfig`'s overrides of the Charm configuration. */
  method ApplyOverrides(ccfg: CharmConfig, cfg: Config)
    modifies ccfg
    ensures ccfg.Value() == Overridden(old(ccfg.Value()), cfg)
  {
    if cfg.charmServerHost != "" {
      ccfg.host := cfg.charmServerHost;
    }
    if cfg.charmServerHttpPort != 0 {
      ccfg.httpPort := cfg.charmServerHttpPort;
    }
    if cfg.charmServerSshPort != 0 {
      ccfg.sshPort := cfg.charmServerSshPort;
    }
  }

  class Client {
    const config: Config
    const charm: CharmSettings

    constructor (config: Config, charm: CharmSettings)
      ensures this.config == config && this.charm == charm
    {
      this.config := config;
      this.charm := charm;
    }
  }

  /** `NewClientWithConfig`: `fromEnv` is what `client.ConfigFromEnv` gives
      (`None` on error), and `connects` tells whether the Charm client and
      its filesystem can be made with the final settings. */
  method NewClientWithConfig(cfg: Config, fromEnv: Option<CharmSettings>, connects: CharmSettings -> bool)
    returns (c: Client?)
    ensures fromEnv.None? ==> c == null
    ensures fromEnv.Some? ==>
      (c != null <==> connects(Overridden(fromEnv.value, cfg))) &&
      (c != null ==> fresh(c) && c.config == cfg && c.charm == Overridden(fromEnv.value, cfg))
  {
    if fromEnv.None? {
      return null;
    }
    var ccfg := new CharmConfig(fromEnv.value);
    ApplyOverrides(ccfg, cfg);
    if !connects(ccfg.Value()) {
      return null;
    }
    c := new Client(cfg, ccfg.Value());
  }

  /** `NewClient`: the default configuration. */
  method NewClient(fromEnv: Option<CharmSettings>, connects: CharmSettings -> bool) returns (c: Client?)
    ensures fromEnv.None? ==> c == null
    // with the environment loaded, a client is made iff the default Charm settings connect
    ensures fromEnv.Some? ==>
      (c != null <==> connects(CharmSettings(DefaultCharmServerHost, DefaultCharmServerHttpPort, DefaultCharmServerSshPort)))
    ensures c != null ==> (fresh(c) && c.config == DefaultConfig() &&
      c.charm == CharmSettings(DefaultCharmServerHost, DefaultCharmServerHttpPort, DefaultCharmServerSshPort))
  {
    c := NewClientWithConfig(DefaultConfig(), fromEnv, connects);
    if fromEnv.Some? {
      DefaultConfigIgnoresEnvironment(fromEnv.value);
    }
  }

  // ---------------------------------------------------------------------
  // The upload request

  /** A POST request: its URL and its `Authorization` header. */
  datatype Post = Post(url: string, authorization: string)

  /** `UploadRequest`: a POST carrying the token as `bearer <token>`.  The
      URL is the server URL followed by the upload route, passed through
      `fmt.Sprintf` as a format with no operands; `urlOk` tells whether
      `http.NewRequest` accepts the URL. */
  function UploadRequest(serverUrl: string, token: string, urlOk: string -> bool): (r: Option<Post>)
    ensures r.Some? <==> urlOk(Fmt.Sprintf(serverUrl + Server.UploadRoute))
    ensures r.Some? ==> r.value.url == Fmt.Sprintf(serverUrl + Server.UploadRoute) && r.value.authorization == "bearer " + token
    // a server URL without `%` is requested as written, followed by the route
    ensures '%' !in serverUrl ==> (r.Some? <==> urlOk(serverUrl + Server.UploadRoute))
    ensures '%' !in serverUrl && r.Some? ==> r.value.url == serverUrl + Server.UploadRoute
  {
    PlainUrlUnchanged(serverUrl);
    var url := Fmt.Sprintf(serverUrl + Server.UploadRoute);
    if urlOk(url) then Some(Post(url, "bearer " + token)) else None
  }

  /** A server URL without `%` comes out of the formatting unchanged. */
  lemma PlainUrlUnchanged(serverUrl: string)
    ensures '%' !in serverUrl ==> Fmt.Sprintf(serverUrl + Server.UploadRoute) == serverUrl + Server.UploadRoute
  {
    if '%' !in serverUrl {
      assert '%' !in Server.UploadRoute;
      Fmt.SprintfPlain(serverUrl + Server.UploadRoute);
    }
  }

  /** The server URL is used as a format string: in a percent-encoded path
      such as `http://localhost:8000/%7Euser`, `%7E` is read as a directive
      with width 7 and verb `E` and comes out as `%!E(MISSING)`. */
  lemma PercentInServerUrlMangled()
    ensures var host, tail := "http://localhost:8000/", "user" + Server.UploadRoute;
      Fmt.Sprintf(host + "%7E" + tail) == host + "%!E(MISSING)" + tail &&
      Fmt.Sprintf(host + "%7E" + tail) != host + "%7E" + tail
  {
    var host, tail := "http://localhost:8000/", "user" + Server.UploadRoute;
    Fmt.PercentEncodedTilde(host, tail);
    assert |host + "%!E(MISSING)" + tail| != |host + "%7E" + tail|;
  }

  /** A hexadecimal digit. */
  predicate IsHex(c: char)
  {
    '0' <= c <= '9' || 'a' <= c <= 'f' || 'A' <= c <= 'F'
  }

  /** A URL beginning `http://` or `https://`: `url.Parse` reads an
      authority and a path after the scheme, not an opaque part. */
  predicate IsHttpUrl(u: string)
  {
    (|u| >= 7 && u[..7] == "http://") || (|u| >= 8 && u[..8] == "https://")
  }

  /** An `http` or `https` URL with a `%` outside its query that is not
      followed by two hexadecimal digits.  `url.Parse`, inside
      `http.NewRequest`, unescapes the userinfo, host, path and fragment
      and rejects such a `%` in any of them; the query, after the first
      `?`, is kept as written and not checked. */
  predicate HasBadEscape(u: string)
  {
    && IsHttpUrl(u)
    && exists i :: 0 <= i < |u| && u[i] == '%' && '?' !in u[..i] && !(i + 2 < |u| && IsHex(u[i + 1]) && IsHex(u[i + 2]))
  }

  /** An `http` server URL with a percent-encoded `~` before any `?` and no
      other `%`: the formatted URL carries `%!E(MISSING)` outside the query,
      which `http.NewRequest` rejects, so no request is built and publishing
      fails before anything is sent. */
  lemma MangledUrlNotRequested(cfg: Config, root: string, path: string, remote: Remote, host: string, tail: string)
    requires IsHttpUrl(host) && '?' !in host
    requires '%' !in host && '%' !in tail && cfg.serverUrl + Server.UploadRoute == host + "%7E" + tail
    requires forall u :: HasBadEscape(u) ==> !remote.urlOk(u)
    ensures remote.jwt.Some? ==> UploadRequest(cfg.serverUrl, remote.jwt.value, remote.urlOk).None?
    ensures PublishWithRoot(cfg, root, path, remote).Failure?
    ensures remote.stat(path).Some? && Payload(path, remote.stat(path).value, remote).Some? && remote.jwt.Some? ==>
      PublishWithRoot(cfg, root, path, remote) == Failure(RequestNotBuilt)
  {
    Fmt.PercentEncodedTilde(host, tail);
    var u := host + "%!E(MISSING)" + tail;
    assert u[..|host|] == host;
    assert |host| >= 7 ==> u[..7] == host[..7];
    assert |host| >= 8 ==> u[..8] == host[..8];
    assert u[|host|] == '%' && u[|host| + 1] == '!';
    assert HasBadEscape(u);
  }

  /** The intended URL: with every `%` of the text doubled before it is used
      as a format, the request goes to the server URL followed by the route,
      whatever the URL contains. */
  function EscapedUploadUrl(serverUrl: string): (r: string)
    ensures r == serverUrl + Server.UploadRoute
  {
    Fmt.SprintfOfEscaped(serverUrl + Server.UploadRoute);
    Fmt.Sprintf(Fmt.EscapePercent(serverUrl + Server.UploadRoute))
  }

  /** The server's JWKS check reads back exactly the token the client sent. */
  lemma UploadRequestCarriesToken(serverUrl: string, token: string, urlOk: string -> bool, parse: string -> Option<Claims>)
    requires token != "" && UploadRequest(serverUrl, token, urlOk).Some?
    ensures GetClaims(UploadRequest(serverUrl, token, urlOk).value.authorization, parse) == parse(token)
  {
    BearerRoundTrip(token, parse);
  }

  // ---------------------------------------------------------------------
  // The payload

  /** The form field every part is sent under. */
  const UploadField := "upload[]"

  /** A file part of the multipart body: its field, its file name and its data. */
  datatype FormFile = FormFile(field: string, name: string, content: Bytes)

  /** `uploadFile`: one part named with the whole path; `read(path)` is the
      file's data, `None` when it cannot be opened or read. */
  function UploadFile(path: string, read: string -> Option<Bytes>): (r: Option<seq<FormFile>>)
    ensures r.Some? <==> read(path).Some?
    ensures r.Some? ==> (|r.value| == 1 && r.value[0].field == UploadField && r.value[0].name == path &&
      r.value[0].content == read(path).value)
  {
    if read(path).None? then None else Some([FormFile(UploadField, path, read(path).value)])
  }

  /** What the directory walk hands the callback: an error, an entry
      without a `DirEntry`, a directory or a file. */
  datatype Visit = VisitError | NilEntry(path: string) | DirEntry(path: string) | FileEntry(path: string)

  /** The parts written so far and whether the walk ended with an error. */
  datatype Walked = Walked(parts: seq<FormFile>, failed: bool)

  /** The callback on one visit.  The part's header is written before the
      file is opened, so an unreadable file leaves an empty part behind. */
  function WalkStep(parts: seq<FormFile>, v: Visit, root: string, read: string -> Option<Bytes>): (r: Walked)
    // the step fails on a walk error or a file it cannot read
    ensures r.failed <==> v.VisitError? || (v.FileEntry? && read(v.path).None?)
    // only a file adds a part, under `upload[]`, named relative to the root
    ensures parts <= r.parts && |r.parts| == |parts| + (if v.FileEntry? then 1 else 0)
    ensures v.FileEntry? ==> r.parts[|parts|].field == UploadField && r.parts[|parts|].name == TrimPrefix(v.path, root)
  {
    match v
    case VisitError => Walked(parts, true)
    case NilEntry(_) => Walked(parts, false)
    case DirEntry(_) => Walked(parts, false)
    case FileEntry(path) =>
      var name := TrimPrefix(path, root);
      if read(path).None? then Walked(parts + [FormFile(UploadField, name, [])], true)
      else Walked(parts + [FormFile(UploadField, name, read(path).value)], false)
  }

  /** The walk: visits in order, stopping at the first error. */
  function WalkParts(visits: seq<Visit>, root: string, read: string -> Option<Bytes>): (r: Walked)
    ensures |r.parts| <= |visits|
    ensures forall i :: 0 <= i < |r.parts| ==> r.parts[i].field == UploadField
    decreases |visits|
  {
    if visits == [] then Walked([], false)
    else
      var prev := WalkParts(visits[..|visits| - 1], root, read);
      if prev.failed then prev else WalkStep(prev.parts, visits[|visits| - 1], root, read)
  }

  /** `uploadDir`: the callback appends to one buffer over the whole walk. */
  method UploadDir(visits: seq<Visit>, root: string, read: string -> Option<Bytes>)
    returns (parts: seq<FormFile>, failed: bool)
    ensures WalkParts(visits, root, read) == Walked(parts, failed)
  {
    parts, failed := [], false;
    var i := 0;
    while i < |visits| && !failed
      invariant 0 <= i <= |visits|
      decreases |visits| - i
      invariant WalkParts(visits[..i], root, read) == Walked(parts, failed)
      invariant failed ==> WalkParts(visits, root, read) == Walked(parts, failed)
    {
      assert visits[..i + 1][..i] == visits[..i];
      var v := visits[i];
      match v {
        case VisitError =>
          failed := true;
        case NilEntry(_) =>
        case DirEntry(_) =>
        case FileEntry(path) =>
          var name := TrimPrefix(path, root);
          var data := read(path);
          if data.None? {
            parts := parts + [FormFile(UploadField, name, [])];
            failed := true;
          } else {
            parts := parts + [FormFile(UploadField, name, data.value)];
          }
      }
      i := i + 1;
      if failed {
        WalkStopsAtError(visits, root, read, i);
      }
    }
    if !failed {
      assert visits[..i] == visits;
    }
  }

  /** Once a prefix of the walk fails, the rest of it changes nothing. */
  lemma {:induction false} WalkStopsAtError(visits: seq<Visit>, root: string, read: string -> Option<Bytes>, k: nat)
    requires k <= |visits| && WalkParts(visits[..k], root, read).failed
    ensures WalkParts(visits, root, read) == WalkParts(visits[..k], root, read)
    decreases |visits|
  {
    if k < |visits| {
      var n := |visits| - 1;
      assert visits[..n][..k] == visits[..k];
      WalkStopsAtError(visits[..n], root, read, k);
    } else {
      assert visits[..k] == visits;
    }
  }

  /** A visit that ends the walk. */
  predicate Breaks(v: Visit, read: string -> Option<Bytes>)
  {
    v.VisitError? || (v.FileEntry? && read(v.path).None?)
  }

  /** The paths of the files visited, in order. */
  function FilePaths(visits: seq<Visit>): (r: seq<string>)
    ensures |r| <= |visits|
    decreases |visits|
  {
    if visits == [] then []
    else
      var n := |visits| - 1;
      FilePaths(visits[..n]) + (if visits[n].FileEntry? then [visits[n].path] else [])
  }

  /** The parts for files that all read: each named by its path without the
      walk's root, under `upload[]`, with its whole data. */
  function PartsFor(paths: seq<string>, root: string, read: string -> Option<Bytes>): (r: seq<FormFile>)
    ensures |r| == |paths|
    ensures forall k :: 0 <= k < |paths| ==>
      r[k] == FormFile(UploadField, TrimPrefix(paths[k], root), if read(paths[k]).Some? then read(paths[k]).value else [])
  {
    seq(|paths|, k requires 0 <= k < |paths| =>
      FormFile(UploadField, TrimPrefix(paths[k], root), if read(paths[k]).Some? then read(paths[k]).value else []))
  }

  /** The walk fails exactly when some visit is an error or a file that
      cannot be read. */
  lemma {:induction false} WalkFailsIffBreaks(visits: seq<Visit>, root: string, read: string -> Option<Bytes>)
    ensures WalkParts(visits, root, read).failed <==> exists i :: 0 <= i < |visits| && Breaks(visits[i], read)
    decreases |visits|
  {
    if visits != [] {
      var n := |visits| - 1;
      var init := visits[..n];
      WalkFailsIffBreaks(init, root, read);
      if WalkParts(init, root, read).failed {
        var i :| 0 <= i < n && Breaks(init[i], read);
        assert visits[i] == init[i];
      } else {
        assert forall i :: 0 <= i < n ==> visits[i] == init[i];
      }
    }
  }

  /** A walk that does not fail yields one part per file, in walk order, and
      none for directories. */
  lemma {:induction false} WalkPartsOfFiles(visits: seq<Visit>, root: string, read: string -> Option<Bytes>)
    requires !WalkParts(visits, root, read).failed
    ensures WalkParts(visits, root, read).parts == PartsFor(FilePaths(visits), root, read)
    decreases |visits|
  {
    if visits != [] {
      var n := |visits| - 1;
      var init := visits[..n];
      WalkPartsOfFiles(init, root, read);
      var paths := FilePaths(init);
      if visits[n].FileEntry? {
        var more := paths + [visits[n].path];
        assert FilePaths(visits) == more;
        assert PartsFor(more, root, read) == PartsFor(paths, root, read) + [PartsFor(more, root, read)[|paths|]];
      } else {
        assert FilePaths(visits) == paths;
      }
    }
  }

  /** A file below the walked directory `root` is sent under its path
      relative to `root`, with the leading `/`. */
  lemma WalkedName(root: string, rel: string)
    ensures TrimPrefix(root + "/" + rel, root) == "/" + rel
  {
    assert root + "/" + rel == root + ("/" + rel);
    TrimPrefixOfConcat(root, "/" + rel);
  }

  /** A path outside `root` is sent unchanged. */
  lemma UnrelatedNameKept(path: string, root: string)
    requires !(root <= path)
    ensures TrimPrefix(path, root) == path
  {
  }

  // ---------------------------------------------------------------------
  // Publishing

  /** `charmId`: the token's subject, read without checking the signature. */
  function CharmId(token: string, parse: string -> Option<Claims>): (r: Option<string>)
    ensures r.Some? <==> parse(token).Some?
    ensures r.Some? ==> r.value == parse(token).value.subject
  {
    if parse(token).None? then None else Some(parse(token).value.subject)
  }

  /** The identity the client prints is the one the server's JWKS check
      stores for the same token. */
  lemma PrintedIdIsStoredId(token: string, parse: string -> Option<Claims>)
    requires token != ""
    ensures CharmId(token, parse).Some? <==> GetClaims("bearer " + token, parse).Some?
    ensures CharmId(token, parse).Some? ==> CharmId(token, parse).value == GetClaims("bearer " + token, parse).value.subject
  {
    BearerRoundTrip(token, parse);
  }

  /** The server's reply: its status and its body (`None` when reading it fails). */
  datatype Reply = Reply(status: int, body: Option<string>)

  /** The collaborators of `PublishWithRoot`: `stat(path)` says whether the
      path is a directory (`None` when it cannot be opened or stat'ed),
      `walk(path)` is the directory walk, `read` reads a file, `jwt` is the
      token for the audience `tavern`, `urlOk` accepts URLs, `send` delivers
      a request with its parts, and `parse` reads a token's claims. */
  datatype Remote = Remote(
    stat: string -> Option<bool>,
    walk: string -> seq<Visit>,
    read: string -> Option<Bytes>,
    jwt: Option<string>,
    urlOk: string -> bool,
    send: (Post, seq<FormFile>) -> Option<Reply>,
    parse: string -> Option<Claims>)

  datatype PublishError =
    | OpenFailed | PayloadFailed | TokenUnavailable | RequestNotBuilt | SendFailed
    | BodyUnreadable | PublishingFailed(body: string) | TokenUnparsable

  /** The parts for `path`: the walk of a directory, or the file itself.
      The walk's root is `path`. */
  function Payload(path: string, isDir: bool, remote: Remote): (r: Option<seq<FormFile>>)
    // every part is sent under the field the server reads
    ensures r.Some? ==> forall i :: 0 <= i < |r.value| ==> r.value[i].field == UploadField
    // a file is one part; a directory gives at most one part per visit
    ensures r.Some? && !isDir ==> |r.value| == 1
    ensures r.Some? && isDir ==> |r.value| <= |remote.walk(path)|
  {
    if isDir then
      var w := WalkParts(remote.walk(path), path, remote.read);
      if w.failed then None else Some(w.parts)
    else UploadFile(path, remote.read)
  }

  /** `PublishWithRoot(root, path)`: the error it returns, or the address
      it tells the user to visit. */
  function PublishWithRoot(cfg: Config, root: string, path: string, remote: Remote): (r: Result<string, PublishError>)
    // a reply other than 200 is reported with the reply's body
    ensures r.Failure? && r.error.PublishingFailed? ==>
      remote.stat(path).Some? && Payload(path, remote.stat(path).value, remote).Some? && remote.jwt.Some? &&
      UploadRequest(cfg.serverUrl, remote.jwt.value, remote.urlOk).Some? &&
      var reply := remote.send(UploadRequest(cfg.serverUrl, remote.jwt.value, remote.urlOk).value,
                               Payload(path, remote.stat(path).value, remote).value);
      reply.Some? && reply.value.status != 200 && reply.value.body == Some(r.error.body)
    // and every readable reply other than 200 is reported that way
    ensures (remote.stat(path).Some? && Payload(path, remote.stat(path).value, remote).Some? && remote.jwt.Some? &&
             UploadRequest(cfg.serverUrl, remote.jwt.value, remote.urlOk).Some?) ==>
      var reply := remote.send(UploadRequest(cfg.serverUrl, remote.jwt.value, remote.urlOk).value,
                               Payload(path, remote.stat(path).value, remote).value);
      reply.Some? && reply.value.status != 200 && reply.value.body.Some? ==>
      r == Failure(PublishingFailed(reply.value.body.value))
    // success means the server answered 200 to the upload of the whole payload
    ensures r.Success? <==>
      remote.stat(path).Some? && Payload(path, remote.stat(path).value, remote).Some? && remote.jwt.Some? &&
      UploadRequest(cfg.serverUrl, remote.jwt.value, remote.urlOk).Some? &&
      var reply := remote.send(UploadRequest(cfg.serverUrl, remote.jwt.value, remote.urlOk).value,
                               Payload(path, remote.stat(path).value, remote).value);
      reply.Some? && reply.value.status == 200 && CharmId(remote.jwt.value, remote.parse).Some?
    // and the address is the user's directory on the server
    ensures r.Success? ==> r.value == cfg.serverUrl + "/" + CharmId(remote.jwt.value, remote.parse).value
  {
    if remote.stat(path).None? then Failure(OpenFailed)
    else
      var payload := Payload(path, remote.stat(path).value, remote);
      if payload.None? then Failure(PayloadFailed)
      else if remote.jwt.None? then Failure(TokenUnavailable)
      else
        var token := remote.jwt.value;
        var req := UploadRequest(cfg.serverUrl, token, remote.urlOk);
        if req.None? then Failure(RequestNotBuilt)
        else
          var reply := remote.send(req.value, payload.value);
          if reply.None? then Failure(SendFailed)
          else if reply.value.status != 200 then
            if reply.value.body.None? then Failure(BodyUnreadable) else Failure(PublishingFailed(reply.value.body.value))
          else
            var id := CharmId(token, remote.parse);
            if id.None? then Failure(TokenUnparsable) else Success(cfg.serverUrl + "/" + id.value)
  }

  /** `PublishWithRoot` does not use its `root` argument: the walk's root is
      always the published path. */
  lemma RootUnused(cfg: Config, root1: string, root2: string, path: string, remote: Remote)
    ensures PublishWithRoot(cfg, root1, path, remote) == PublishWithRoot(cfg, root2, path, remote)
  {
  }

  /** `Publish(path)`. */
  function Publish(cfg: Config, path: string, remote: Remote): (r: Result<string, PublishError>)
    ensures r == PublishWithRoot(cfg, "/", path, remote)
  {
    PublishWithRoot(cfg, "/", path, remote)
  }
}
