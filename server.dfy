/** The Tavern server: configuration defaults, the set of Charm servers
    allowed to publish, and the wiring of the upload route, on which the JWKS
    check runs before the upload handler. */
module Server {
  import opened Wrappers
  import opened FilePath
  import opened Disk
  import opened Http
  import opened JwksMiddleware
  import opened UploadsMiddleware

  const UploadRoute := "/v1/tavern/upload"
  const DefaultUploadsPath := "tavern_uploads"
  const DefaultAddr := "127.0.0.1:8000"
  const DefaultUrl := "http://" + DefaultAddr
  const DefaultCharmServerUrl := "https://cloud.charm.sh:35354"

  /** The memory limit for parsing upload forms, `32 << 20` bytes. */
  const UploadMemoryLimit := 32 * 0x10_0000

  /** The fields of a server configuration. */
  datatype Settings = Settings(addr: string, uploadsPath: string, allowedCharmServers: seq<string>)

  /** `NewServerWithConfig`'s defaulting: an empty uploads path or address is
      replaced by the default, everything else is kept. */
  function Defaulted(s: Settings): (r: Settings)
    ensures r.uploadsPath != "" && r.addr != ""
    ensures s.uploadsPath != "" ==> r.uploadsPath == s.uploadsPath
    ensures s.uploadsPath == "" ==> r.uploadsPath == DefaultUploadsPath
    ensures s.addr != "" ==> r.addr == s.addr
    ensures s.addr == "" ==> r.addr == DefaultAddr
    ensures r.allowedCharmServers == s.allowedCharmServers
  {
    Settings(
      if s.addr == "" then DefaultAddr else s.addr,
      if s.uploadsPath == "" then DefaultUploadsPath else s.uploadsPath,
      s.allowedCharmServers)
  }

  /** Defaulting twice is defaulting once. */
  lemma DefaultedIdempotent(s: Settings)
    ensures Defaulted(Defaulted(s)) == Defaulted(s)
  {
  }

  class Config {
    var addr: string
    var uploadsPath: string
    var allowedCharmServers: seq<string>

    function Value(): Settings
      reads this
    {
      Settings(addr, uploadsPath, allowedCharmServers)
    }

    constructor (s: Settings)
      ensures Value() == s
    {
      addr, uploadsPath, allowedCharmServers := s.addr, s.uploadsPath, s.allowedCharmServers;
    }
  }

  class Server {
    const config: Config

    constructor (config: Config)
      ensures this.config == config
    {
      this.config := config;
    }
  }

  /** `NewServerWithConfig`: fills in the defaults in the caller's
      configuration itself and keeps a reference to it. */
  method NewServerWithConfig(config: Config) returns (s: Server)
    modifies config
    ensures config.Value() == Defaulted(old(config.Value()))
    ensures fresh(s) && s.config == config
  {
    if config.uploadsPath == "" {
      config.uploadsPath := DefaultUploadsPath;
    }
    if config.addr == "" {
      config.addr := DefaultAddr;
    }
    s := new Server(config);
  }

  /** `NewServer`: the default address and uploads path, no allow-list. */
  method NewServer() returns (s: Server)
    ensures fresh(s) && fresh(s.config)
    ensures s.config.Value() == Settings(DefaultAddr, DefaultUploadsPath, [])
  {
    var config := new Config(Settings(DefaultAddr, DefaultUploadsPath, []));
    s := NewServerWithConfig(config);
  }

  /** The loop in `Serve` that turns the configured hosts into a set. */
  method AllowedServers(hosts: seq<string>) returns (allowed: set<string>)
    ensures forall h :: h in allowed <==> h in hosts
    ensures allowed == {} <==> hosts == []
    ensures |allowed| <= |hosts|
  {
    allowed := {};
    var i := 0;
    while i < |hosts|
      invariant 0 <= i <= |hosts|
      invariant forall h :: h in allowed <==> h in hosts[..i]
      invariant |allowed| <= i
    {
      allowed := allowed + {hosts[i]};
      i := i + 1;
    }
    assert hosts[..i] == hosts;
    if hosts != [] {
      assert hosts[0] in allowed;
    }
  }

  /** The handlers of the upload route, in the order they run. */
  datatype Handler = JwksCheck(allowed: set<string>) | UploadsHandler(dir: string, memLimit: int)

  /** What `Serve` sets up: the handlers of the upload route, the directory
      served as static files at `/`, and the address to listen on. */
  datatype Router = Router(route: string, chain: seq<Handler>, staticRoot: string, addr: string)

  datatype ServeError = UploadsDirNotCreated

  /** `Serve` up to the point where it starts listening: the uploads directory
      is created first, and failing that nothing is served. */
  method Serve(s: Server, disk: FileSystem) returns (r: Result<Router, ServeError>)
    modifies disk
    ensures var path := Canon(s.config.uploadsPath);
      if MkdirAllFails(old(disk.Value()), path) then
        r == Failure(UploadsDirNotCreated) && disk.Value() == old(disk.Value())
      else
        disk.Value() == AfterMkdirAll(old(disk.Value()), path) &&
        r == Success(Router(
          UploadRoute,
          [JwksCheck(set h | h in s.config.allowedCharmServers), UploadsHandler(s.config.uploadsPath, UploadMemoryLimit)],
          s.config.uploadsPath,
          s.config.addr))
  {
    var ok := disk.MkdirAll(Canon(s.config.uploadsPath));
    if !ok {
      return Failure(UploadsDirNotCreated);
    }
    var allowed := AllowedServers(s.config.allowedCharmServers);
    assert allowed == set h | h in s.config.allowedCharmServers;
    var chain := [JwksCheck(allowed), UploadsHandler(s.config.uploadsPath, UploadMemoryLimit)];
    r := Success(Router(UploadRoute, chain, s.config.uploadsPath, s.config.addr));
  }

  // ---------------------------------------------------------------------
  // A request on the upload route

  /** What the client gets back and what is left on disk. */
  datatype Outcome = Outcome(status: Status, body: seq<Message>, log: seq<LogEvent>, fs: Fs)

  /** A request on the upload route of a server with uploads directory `dir`
      and allow-list `allowed`: the JWKS check, then, only if it lets the
      request through, the upload handler for the identity it stored. */
  function ServeUpload(fs: Fs, req: Request, dir: string, allowed: set<string>, o: Oracles): (r: Outcome)
    // the filesystem changes only for admitted requests
    ensures r.fs != fs ==> Admitted(req.authorization, allowed, o)
    ensures !Admitted(req.authorization, allowed, o) ==> r.fs == fs && r.status >= 400
    // an admitted request is served below the directory of its token's subject
    ensures Admitted(req.authorization, allowed, o) ==>
      var id := GetClaims(req.authorization, o.parseClaims).value.subject;
      var served := ServeForm(fs, Join([dir, id]), req.form);
      r.fs == served.fs && r.body == BodyOf(served.failure)
    // 200 exactly when the request was admitted and every part was stored
    ensures r.status == 200 <==>
      Admitted(req.authorization, allowed, o) &&
      ServeForm(fs, Join([dir, GetClaims(req.authorization, o.parseClaims).value.subject]), req.form).failure.None?
  {
    var a := Admit(req.authorization, allowed, o);
    if a.aborts then Outcome(a.status, a.body, a.log, fs)
    else
      var up := Upload(fs, dir, map["charm_id" := Str(a.charmId.value)], req.form);
      Outcome(if up.failure.Some? then up.failure.value.code else 200, BodyOf(up.failure), a.log, up.fs)
  }

  /** Only requests whose token passed the validator can write to disk. */
  lemma RejectedRequestsWriteNothing(fs: Fs, req: Request, dir: string, allowed: set<string>, o: Oracles)
    requires GetClaims(req.authorization, o.parseClaims).Some?
    requires o.parseUrl(GetClaims(req.authorization, o.parseClaims).value.issuer).Some?
    requires o.validate(ConfigFor(o.parseUrl(GetClaims(req.authorization, o.parseClaims).value.issuer).value), req.authorization) != Accepted
    ensures ServeUpload(fs, req, dir, allowed, o).fs == fs
  {
  }

  /** An admitted request whose form has no `upload[]` field is answered
      400 "no files found in request" and writes nothing. */
  lemma AdmittedWithoutFilesRejected(fs: Fs, req: Request, dir: string, allowed: set<string>, o: Oracles)
    requires Admitted(req.authorization, allowed, o)
    requires req.form.None? || "upload[]" !in req.form.value
    ensures var r := ServeUpload(fs, req, dir, allowed, o);
      r.status == 400 && r.body == [NoFilesFound] && r.fs == fs
  {
  }

  /** The publish round trip: an admitted request carrying one readable part
      on an empty uploads area is answered 200 with no body, and leaves
      exactly one file, holding the part's bytes, at
      `<uploads>/<subject>/<declared name>`. */
  lemma PublishedFileLands(req: Request, dir: string, allowed: set<string>, o: Oracles, p: Part)
    requires dir != "" && Admitted(req.authorization, allowed, o)
    requires IsName(GetClaims(req.authorization, o.parseClaims).value.subject)
    requires ".." !in Rel(DeclaredName(p)) && Rel(DeclaredName(p)) != []
    requires Readable(p) && p.fault == NoFault
    requires req.form == Some(map["upload[]" := [p]])
    ensures var r := ServeUpload(Fs(map[], {}), req, dir, allowed, o);
      var id := GetClaims(req.authorization, o.parseClaims).value.subject;
      && r.status == 200 && r.body == []
      && r.fs.files == map[Canonical(Canon(dir).rooted, Canon(dir).elems + [id] + Rel(DeclaredName(p))) := p.content]
  {
    var id := GetClaims(req.authorization, o.parseClaims).value.subject;
    IngestOnFreshDisk(dir, id, p);
  }

  /** The single part of `PublishedFileLands` stored on an empty disk. */
  lemma IngestOnFreshDisk(dir: string, id: string, p: Part)
    requires dir != "" && IsName(id)
    requires ".." !in Rel(DeclaredName(p)) && Rel(DeclaredName(p)) != []
    requires Readable(p) && p.fault == NoFault
    ensures var r := Ingest(Fs(map[], {}), DestIn(Join([dir, id])), [p]);
      && r.failure.None? && r.stored == 1
      && r.fs.files == map[Canonical(Canon(dir).rooted, Canon(dir).elems + [id] + Rel(DeclaredName(p))) := p.content]
  {
    var udir := Join([dir, id]);
    var empty := Fs(map[], {});
    DestinationContained(dir, id, p);
    var t := Target(udir, p);
    var rel := Rel(DeclaredName(p));
    assert t.elems[|t.elems| - 1] == rel[|rel| - 1];
    assert rel[|rel| - 1] in rel;
    CreateBelowShallowerDirs(empty, t);
    IngestSinglePart(empty, DestIn(udir), p);
  }

  /** The upload route's handlers on a fresh gin context, in order: the
      upload handler runs only when the JWKS check did not abort. */
  method HandleUpload(c: Context, disk: FileSystem, router: Router, o: Oracles)
    requires |router.chain| == 2 && router.chain[0].JwksCheck? && router.chain[1].UploadsHandler?
    requires c.keys == map[] && !c.aborted && c.status == 0 && c.body == [] && c.log == []
    modifies c, disk
    ensures var r := ServeUpload(old(disk.Value()), c.request, router.chain[1].dir, router.chain[0].allowed, o);
      && disk.Value() == r.fs
      && c.FinalStatus() == r.status
      && c.body == r.body
      && c.log == r.log
  {
    var next := Jwks(c, router.chain[0].allowed, o);
    if next {
      Uploads(c, disk, router.chain[1].dir, router.chain[1].memLimit);
    }
  }
}
