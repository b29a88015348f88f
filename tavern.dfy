/** The earlier, single-package Tavern server.  It takes the user's identity
    from a `CharmId` header and checks it against the Charm server's
    `/v1/id/<id>` endpoint. It then saves every uploaded part, logging the
    failures and carrying on, and answers with the number of parts. */
module LegacyServer {
  import opened Wrappers
  import opened Strings
  import opened FilePath
  import opened Disk
  import opened Http
  import opened UploadsMiddleware

  const DefaultUploadsPath := "tavern_uploads"
  const DefaultAddr := "0.0.0.0:8000"
  const DefaultUrl := "http://" + DefaultAddr
  /** The default Charm server as this file spells it. */
  const DefaultCharmServerUrl := "https://charm.cloud.sh:35354"

  /** The fields of the server configuration. */
  datatype Settings = Settings(addr: string, uploadsPath: string, charmServerUrl: string)

  /** `NewServerWithConfig` with `CHARM_SERVER_URL` set to `env` (`""` when
      unset): empty fields get their defaults. The Charm server URL is
      taken from the environment only when it is still the default and the
      variable is set. */
  function Defaulted(s: Settings, env: string): (r: Settings)
    ensures r.uploadsPath != "" && r.addr != ""
    ensures s.uploadsPath != "" ==> r.uploadsPath == s.uploadsPath
    ensures s.uploadsPath == "" ==> r.uploadsPath == DefaultUploadsPath
    ensures s.addr != "" ==> r.addr == s.addr
    ensures s.addr == "" ==> r.addr == DefaultAddr
    // an explicitly configured Charm server always wins over the environment
    ensures s.charmServerUrl != DefaultCharmServerUrl || env == "" ==> r.charmServerUrl == s.charmServerUrl
    ensures s.charmServerUrl == DefaultCharmServerUrl && env != "" ==> r.charmServerUrl == env
  {
    Settings(
      if s.addr == "" then DefaultAddr else s.addr,
      if s.uploadsPath == "" then DefaultUploadsPath else s.uploadsPath,
      if s.charmServerUrl == DefaultCharmServerUrl && env != "" then env else s.charmServerUrl)
  }

  /** Applying the defaults again, with the same environment, changes nothing. */
  lemma DefaultedIdempotent(s: Settings, env: string)
    ensures Defaulted(Defaulted(s, env), env) == Defaulted(s, env)
  {
  }

  /** An empty Charm server URL is not replaced: only the exact default is. */
  lemma EmptyCharmServerKept(s: Settings, env: string)
    requires s.charmServerUrl == ""
    ensures Defaulted(s, env).charmServerUrl == ""
  {
  }

  class Config {
    var addr: string
    var uploadsPath: string
    var charmServerUrl: string

    function Value(): Settings
      reads this
    {
      Settings(addr, uploadsPath, charmServerUrl)
    }

    constructor (s: Settings)
      ensures Value() == s
    {
      addr, uploadsPath, charmServerUrl := s.addr, s.uploadsPath, s.charmServerUrl;
    }
  }

  class Server {
    const config: Config

    constructor (config: Config)
      ensures this.config == config
    {
      this.config := config;
    }
  }

  /** `NewServerWithConfig`, updating the caller's configuration in place and
      keeping a reference to it. */
  method NewServerWithConfig(config: Config, env: string) returns (s: Server)
    modifies config
    ensures config.Value() == Defaulted(old(config.Value()), env)
    ensures fresh(s) && s.config == config
  {
    if config.uploadsPath == "" {
      config.uploadsPath := DefaultUploadsPath;
    }
    if config.addr == "" {
      config.addr := DefaultAddr;
    }
    if config.charmServerUrl == DefaultCharmServerUrl && env != "" {
      config.charmServerUrl := env;
    }
    s := new Server(config);
  }

  /** `NewServer`: the defaults, with the Charm server taken from
      `CHARM_SERVER_URL` (`env`) when that is set. */
  method NewServer(env: string) returns (s: Server)
    ensures fresh(s) && fresh(s.config)
    ensures s.config.Value() ==
      Settings(DefaultAddr, DefaultUploadsPath, if env != "" then env else DefaultCharmServerUrl)
  {
    var config := new Config(Settings(DefaultAddr, DefaultUploadsPath, DefaultCharmServerUrl));
    s := NewServerWithConfig(config, env);
  }

  /** The route the upload handler is registered on. */
  const UploadRoute := "/_tavern/upload"

  /** What `Serve` sets up: the upload route, served by the upload handler
      with the server's uploads path and Charm server; the directory served
      as static files at `/`; and the address to listen on. */
  datatype Router = Router(route: string, uploadsBase: string, charmServerUrl: string, staticRoot: string, addr: string)

  datatype ServeError = UploadsDirNotCreated

  /** `Serve` up to the point where it starts listening: the uploads
      directory is created first, and failing that nothing is served. */
  method Serve(s: Server, disk: FileSystem) returns (r: Result<Router, ServeError>)
    modifies disk
    ensures var path := Canon(s.config.uploadsPath);
      if MkdirAllFails(old(disk.Value()), path) then
        r == Failure(UploadsDirNotCreated) && disk.Value() == old(disk.Value())
      else
        disk.Value() == AfterMkdirAll(old(disk.Value()), path) &&
        r == Success(Router(UploadRoute, s.config.uploadsPath, s.config.charmServerUrl, s.config.uploadsPath, s.config.addr))
  {
    var ok := disk.MkdirAll(Canon(s.config.uploadsPath));
    if !ok {
      return Failure(UploadsDirNotCreated);
    }
    r := Success(Router(UploadRoute, s.config.uploadsPath, s.config.charmServerUrl, s.config.uploadsPath, s.config.addr));
  }

  // ---------------------------------------------------------------------
  // The upload handler

  /** Where a part of user `id` is saved below `base`. */
  function LegacyDestination(base: string, id: string, p: Part): string
  {
    Join([base, id, "/", DeclaredName(p)])
  }

  /** `os.MkdirAll` whose error is ignored. */
  function MkdirAllIgnoringError(fs: Fs, c: Canonical): (r: Fs)
    ensures r.files == fs.files && fs.dirs <= r.dirs
  {
    if MkdirAllFails(fs, c) then fs else AfterMkdirAll(fs, c)
  }

  /** A part together with where it goes: its destination and the
      directory named by its own file name. */
  datatype Job = Job(dst: Canonical, nameDir: Canonical, part: Part)

  /** The job for a part of user `id` below `base`. */
  function JobFor(base: string, id: string, p: Part): Job
  {
    Job(Canon(LegacyDestination(base, id, p)), Canon(Dir(p.headerFilename)), p)
  }

  /** The jobs for the parts, in order. */
  function Jobs(base: string, id: string, parts: seq<Part>): (r: seq<Job>)
    ensures |r| == |parts| && forall i :: 0 <= i < |parts| ==> r[i] == JobFor(base, id, parts[i])
  {
    seq(|parts|, i requires 0 <= i < |parts| => JobFor(base, id, parts[i]))
  }

  /** What saving one part leaves: the filesystem and whether it succeeded. */
  datatype Attempt = Attempt(fs: Fs, ok: bool)

  /** One part.  The directory of its destination and the directory named
      by its own file name are made, with errors ignored; then the part is
      saved by opening it, creating the destination and copying. */
  function LegacySavePart(fs: Fs, j: Job): (r: Attempt)
    ensures r.ok ==> r.fs.files == fs.files[j.dst := j.part.content]
    ensures r.fs.files.Keys <= fs.files.Keys + {j.dst}
    ensures forall q :: q in fs.files && q != j.dst ==> q in r.fs.files && r.fs.files[q] == fs.files[q]
    ensures fs.dirs <= r.fs.dirs
    // only opening, creating and copying can fail; an empty part is saved as an empty file
    ensures r.ok <==> (j.part.fault != OpenFails && j.part.fault != ReadFails && !j.part.fault.CopyFails? &&
      !CreateFails(MkdirAllIgnoringError(MkdirAllIgnoringError(fs, Parent(j.dst)), j.nameDir), j.dst))
  {
    var p := j.part;
    var made := MkdirAllIgnoringError(MkdirAllIgnoringError(fs, Parent(j.dst)), j.nameDir);
    if p.fault == OpenFails then Attempt(made, false)
    else if CreateFails(made, j.dst) then Attempt(made, false)
    else if p.fault == ReadFails then Attempt(Store(made, j.dst, []), false)
    else if p.fault.CopyFails? then Attempt(Store(made, j.dst, Copied(p)), false)
    else Attempt(Store(made, j.dst, p.content), true)
  }

  /** The filesystem after the loop and the number of parts that failed. */
  datatype Saves = Saves(fs: Fs, failed: nat)

  /** The jobs done in order: every one is tried, whatever happened to the
      ones before. */
  function SaveEach(fs: Fs, jobs: seq<Job>): (r: Saves)
    ensures r.failed <= |jobs|
    decreases |jobs|
  {
    if jobs == [] then Saves(fs, 0)
    else
      var n := |jobs| - 1;
      var prev := SaveEach(fs, jobs[..n]);
      var step := LegacySavePart(prev.fs, jobs[n]);
      Saves(step.fs, if step.ok then prev.failed else prev.failed + 1)
  }

  /** The loop over the parts of user `id`. */
  function LegacyIngest(fs: Fs, base: string, id: string, parts: seq<Part>): (r: Saves)
    ensures r.failed <= |parts|
  {
    SaveEach(fs, Jobs(base, id, parts))
  }

  /** A failing part does not stop the loop: the next job is done on the
      filesystem the earlier ones left behind, whatever they did. */
  lemma LegacyContinuesAfterFailure(fs: Fs, jobs: seq<Job>, j: Job)
    ensures var before := SaveEach(fs, jobs);
      var step := LegacySavePart(before.fs, j);
      SaveEach(fs, jobs + [j]) == Saves(step.fs, if step.ok then before.failed else before.failed + 1)
  {
    assert (jobs + [j])[..|jobs|] == jobs;
  }

  /** Some job writes to `q`. */
  predicate Targeted(jobs: seq<Job>, q: Canonical)
  {
    exists i :: 0 <= i < |jobs| && jobs[i].dst == q
  }

  /** The loop only adds directories and only writes to the jobs'
      destinations: a file no job targets is left as it was. */
  lemma {:induction false} SaveEachFrame(fs: Fs, jobs: seq<Job>)
    ensures fs.dirs <= SaveEach(fs, jobs).fs.dirs
    ensures forall q :: q in SaveEach(fs, jobs).fs.files ==> q in fs.files || Targeted(jobs, q)
    ensures forall q :: q in fs.files && !Targeted(jobs, q) ==>
      q in SaveEach(fs, jobs).fs.files && SaveEach(fs, jobs).fs.files[q] == fs.files[q]
    decreases |jobs|
  {
    if jobs != [] {
      var n := |jobs| - 1;
      SaveEachFrame(fs, jobs[..n]);
      forall q | Targeted(jobs[..n], q) ensures Targeted(jobs, q) {
        var i :| 0 <= i < n && jobs[..n][i].dst == q;
        assert jobs[i].dst == q;
      }
      assert Targeted(jobs, jobs[n].dst);
    }
  }

  /** Job `i` of the loop saves its part. */
  predicate JobSaved(fs: Fs, jobs: seq<Job>, i: int)
    requires 0 <= i < |jobs|
  {
    LegacySavePart(SaveEach(fs, jobs[..i]).fs, jobs[i]).ok
  }

  /** Whether a job saves its part does not depend on the jobs after it. */
  lemma JobSavedPrefix(fs: Fs, jobs: seq<Job>, n: nat, i: nat)
    requires i < n <= |jobs|
    ensures JobSaved(fs, jobs[..n], i) == JobSaved(fs, jobs, i)
  {
    assert jobs[..n][..i] == jobs[..i];
  }

  /** The last writer wins: a part that is saved and whose destination no
      later job writes to is what the destination holds after the loop. */
  lemma {:induction false} LegacyLastWriterWins(fs: Fs, jobs: seq<Job>, i: nat)
    requires i < |jobs| && JobSaved(fs, jobs, i)
    requires forall k :: i < k < |jobs| ==> jobs[k].dst != jobs[i].dst
    ensures jobs[i].dst in SaveEach(fs, jobs).fs.files
    ensures SaveEach(fs, jobs).fs.files[jobs[i].dst] == jobs[i].part.content
    decreases |jobs|
  {
    var n := |jobs| - 1;
    var prev := SaveEach(fs, jobs[..n]);
    var step := LegacySavePart(prev.fs, jobs[n]);
    assert SaveEach(fs, jobs).fs == step.fs;
    if i < n {
      JobSavedPrefix(fs, jobs, n, i);
      LegacyLastWriterWins(fs, jobs[..n], i);
      assert jobs[n].dst != jobs[i].dst;
    } else {
      assert step.ok;
    }
  }

  /** The parts that fail. */
  function FailedJobs(fs: Fs, jobs: seq<Job>): set<nat>
  {
    set i: nat | i < |jobs| && !JobSaved(fs, jobs, i)
  }

  /** The parts that fail among the first `n + 1` are those among the
      first `n`, and part `n` if it fails. */
  lemma FailedJobsStep(fs: Fs, jobs: seq<Job>, n: nat)
    requires n + 1 == |jobs|
    ensures FailedJobs(fs, jobs) == FailedJobs(fs, jobs[..n]) + (if JobSaved(fs, jobs, n) then {} else {n})
  {
    forall i: nat | i < n ensures JobSaved(fs, jobs[..n], i) == JobSaved(fs, jobs, i) {
      JobSavedPrefix(fs, jobs, n, i);
    }
  }

  /** The count the loop keeps is the number of parts that failed. */
  lemma {:induction false} FailuresCounted(fs: Fs, jobs: seq<Job>)
    ensures SaveEach(fs, jobs).failed == |FailedJobs(fs, jobs)|
    decreases |jobs|
  {
    if jobs != [] {
      var n := |jobs| - 1;
      var prev := SaveEach(fs, jobs[..n]);
      var step := LegacySavePart(prev.fs, jobs[n]);
      assert SaveEach(fs, jobs).failed == if step.ok then prev.failed else prev.failed + 1;
      assert step.ok == JobSaved(fs, jobs, n);
      FailuresCounted(fs, jobs[..n]);
      FailedJobsStep(fs, jobs, n);
      assert n !in FailedJobs(fs, jobs[..n]);
    }
  }

  /** No failure is counted exactly when every part was saved. */
  lemma NoFailuresIffAllSaved(fs: Fs, jobs: seq<Job>)
    ensures SaveEach(fs, jobs).failed == 0 <==> forall i :: 0 <= i < |jobs| ==> JobSaved(fs, jobs, i)
  {
    FailuresCounted(fs, jobs);
    if SaveEach(fs, jobs).failed != 0 {
      var i :| i in FailedJobs(fs, jobs);
      assert !JobSaved(fs, jobs, i);
    } else {
      forall i | 0 <= i < |jobs| ensures JobSaved(fs, jobs, i) {
        assert i !in FailedJobs(fs, jobs);
      }
    }
  }

  /** The loop over the first `i + 1` jobs is the loop over the first `i`
      followed by job `i`. */
  lemma SaveEachStep(fs: Fs, jobs: seq<Job>, i: nat, mid: Fs, failed: nat)
    requires i < |jobs| && SaveEach(fs, jobs[..i]) == Saves(mid, failed)
    ensures var step := LegacySavePart(mid, jobs[i]);
      SaveEach(fs, jobs[..i + 1]) == Saves(step.fs, if step.ok then failed else failed + 1)
  {
    assert jobs[..i + 1] == jobs[..i] + [jobs[i]];
    LegacyContinuesAfterFailure(fs, jobs[..i], jobs[i]);
  }

  /** What the handler leaves behind. */
  datatype LegacyReply = LegacyReply(status: Status, body: seq<Message>, log: seq<LogEvent>, fs: Fs)

  /** The upload handler, `upload`, for a server whose uploads directory is
      `base` and whose Charm server is `charmServerUrl`. The identity
      endpoint is asked about `url` with the user's `Authorization` header
      by `remote`. */
  function LegacyUpload(fs: Fs, base: string, charmServerUrl: string, req: Request,
                        remote: (string, string) -> RemoteOutcome): (r: LegacyReply)
    // nothing is saved unless the Charm server confirms the identity
    ensures remote(IdentityUrl(charmServerUrl, req.charmIdHeader), req.authorization) != Replied(200) ==> r.fs == fs
    ensures remote(IdentityUrl(charmServerUrl, req.charmIdHeader), req.authorization) == TransportError ==>
      r.status == 500 && r.body == [CommunicationFailed]
    ensures remote(IdentityUrl(charmServerUrl, req.charmIdHeader), req.authorization).Replied? &&
            remote(IdentityUrl(charmServerUrl, req.charmIdHeader), req.authorization) != Replied(200) ==>
      r.status == 403 && r.body == [CommunicationFailed]
    ensures remote(IdentityUrl(charmServerUrl, req.charmIdHeader), req.authorization) == RequestNotBuilt ==>
      r.status == 500 && r.body == [UnexpectedError]
    // the log: the request is always logged first; an unbuilt request and a
    // missing form add their own line, a refused identity adds none
    ensures remote(IdentityUrl(charmServerUrl, req.charmIdHeader), req.authorization) == RequestNotBuilt ==>
      r.log == [UploadReceived, RemoteRequestNotCreated]
    ensures remote(IdentityUrl(charmServerUrl, req.charmIdHeader), req.authorization) == TransportError ||
            (remote(IdentityUrl(charmServerUrl, req.charmIdHeader), req.authorization).Replied? &&
             remote(IdentityUrl(charmServerUrl, req.charmIdHeader), req.authorization) != Replied(200)) ==>
      r.log == [UploadReceived]
    ensures remote(IdentityUrl(charmServerUrl, req.charmIdHeader), req.authorization) == Replied(200) && req.form.None? ==>
      r.log == [UploadReceived, NoFilesFoundInForm]
    // once the identity is confirmed: no form is 400, and otherwise the reply counts the parts
    ensures remote(IdentityUrl(charmServerUrl, req.charmIdHeader), req.authorization) == Replied(200) ==>
      if req.form.None? then r.status == 400 && r.body == [NoFilesUploaded] && r.fs == fs
      else
        var parts := if "upload[]" in req.form.value then req.form.value["upload[]"] else [];
        r.status == 200 && r.body == [FilesUploaded(|parts|)] &&
        r.fs == LegacyIngest(fs, base, req.charmIdHeader, parts).fs &&
        |r.log| == 1 + LegacyIngest(fs, base, req.charmIdHeader, parts).failed &&
        r.log[0] == UploadReceived && forall i :: 1 <= i < |r.log| ==> r.log[i] == SavingFailed
  {
    var id := req.charmIdHeader;
    match remote(IdentityUrl(charmServerUrl, id), req.authorization)
    case RequestNotBuilt => LegacyReply(500, [UnexpectedError], [UploadReceived, RemoteRequestNotCreated], fs)
    case TransportError => LegacyReply(500, [CommunicationFailed], [UploadReceived], fs)
    case Replied(code) =>
      if code != 200 then LegacyReply(403, [CommunicationFailed], [UploadReceived], fs)
      else if req.form.None? then LegacyReply(400, [NoFilesUploaded], [UploadReceived, NoFilesFoundInForm], fs)
      else
        var parts := if "upload[]" in req.form.value then req.form.value["upload[]"] else [];
        var saved := LegacyIngest(fs, base, id, parts);
        LegacyReply(200, [FilesUploaded(|parts|)], [UploadReceived] + SavingFailures(saved.failed), saved.fs)
  }

  /** One "error saving file" log line per failed part. */
  function SavingFailures(n: nat): (r: seq<LogEvent>)
    ensures |r| == n && forall i :: 0 <= i < n ==> r[i] == SavingFailed
  {
    if n == 0 then [] else SavingFailures(n - 1) + [SavingFailed]
  }

  /** The paths the handler computes for a part name the locations of
      its job. */
  lemma LegacyPaths(base: string, id: string, p: Part)
    ensures Canon(Dir(Clean(LegacyDestination(base, id, p)))) == Parent(JobFor(base, id, p).dst)
    ensures Canon(Clean(Dir(p.headerFilename))) == JobFor(base, id, p).nameDir
  {
    var dst := LegacyDestination(base, id, p);
    CleanIdempotent(dst);
    CanonOfDir(Clean(dst));
    CanonClean(dst);
    CanonClean(Dir(p.headerFilename));
  }

  /** One job, step by step: the two directories are made, errors ignored,
      then `SaveUploadedFile` opens the part, creates the destination and
      copies the data into it. */
  method LegacyStore(disk: FileSystem, j: Job) returns (ok: bool)
    modifies disk
    ensures var r := LegacySavePart(old(disk.Value()), j);
      disk.Value() == r.fs && ok == r.ok
  {
    var dstDirMade := disk.MkdirAll(Parent(j.dst));
    var nameDirMade := disk.MkdirAll(j.nameDir);
    if j.part.fault == OpenFails {
      return false;
    }
    ghost var made := disk.Value();
    ok := disk.Create(j.dst);
    if !ok {
      return false;
    }
    // `io.Copy` fails at its first read
    if j.part.fault == ReadFails {
      return false;
    }
    disk.Write(j.dst, Copied(j.part));
    assert [] + Copied(j.part) == Copied(j.part);
    assert disk.Value() == Store(made, j.dst, Copied(j.part));
    ok := !j.part.fault.CopyFails?;
  }

  /** The loop over the parts, each with its job: each is saved, and each
      failure logged. */
  method LegacySaveAll(c: Context, disk: FileSystem, jobs: seq<Job>)
    modifies c, disk
    ensures var s := SaveEach(old(disk.Value()), jobs);
      disk.Value() == s.fs && c.log == old(c.log) + SavingFailures(s.failed)
    ensures c.status == old(c.status) && c.body == old(c.body)
    ensures c.keys == old(c.keys) && c.aborted == old(c.aborted)
  {
    ghost var fs0, log0 := disk.Value(), c.log;
    ghost var failed: nat := 0;
    var i := 0;
    while i < |jobs|
      invariant 0 <= i <= |jobs|
      invariant SaveEach(fs0, jobs[..i]) == Saves(disk.Value(), failed)
      invariant |c.log| == |log0| + failed && c.log[..|log0|] == log0
      invariant forall k :: |log0| <= k < |c.log| ==> c.log[k] == SavingFailed
      invariant c.status == old(c.status) && c.body == old(c.body)
      invariant c.keys == old(c.keys) && c.aborted == old(c.aborted)
    {
      ghost var before := disk.Value();
      var ok := LegacyStore(disk, jobs[i]);
      SaveEachStep(fs0, jobs, i, before, failed);
      if !ok {
        c.Log(SavingFailed);
        failed := failed + 1;
      }
      i := i + 1;
    }
    assert jobs[..i] == jobs;
    assert c.log == log0 + SavingFailures(failed);
  }

  /** The `upload` handler on a gin context: the identity check, then every
      part in turn, each failure logged, and a reply counting the parts. */
  method LegacyUploadHandler(c: Context, disk: FileSystem, base: string, charmServerUrl: string,
                             remote: (string, string) -> RemoteOutcome)
    modifies c, disk
    ensures var r := LegacyUpload(old(disk.Value()), base, charmServerUrl, c.request, remote);
      && disk.Value() == r.fs
      && c.status == WriteStatus(old(c.status), r.status)
      && c.body == old(c.body) + r.body
      && c.log == old(c.log) + r.log
    ensures c.keys == old(c.keys) && c.aborted == old(c.aborted)
  {
    c.Log(UploadReceived);
    var charmId := c.request.charmIdHeader;
    var outcome := remote(IdentityUrl(charmServerUrl, charmId), c.request.authorization);
    if outcome.RequestNotBuilt? {
      c.Respond(500, Some(UnexpectedError));
      c.Log(RemoteRequestNotCreated);
      return;
    }
    if outcome.TransportError? {
      c.Respond(500, Some(CommunicationFailed));
      return;
    }
    if outcome.code != 200 {
      c.Respond(403, Some(CommunicationFailed));
      return;
    }
    var form := c.request.form;
    if form.None? {
      c.Log(NoFilesFoundInForm);
      c.Respond(400, Some(NoFilesUploaded));
      return;
    }
    var files := if "upload[]" in form.value then form.value["upload[]"] else [];
    // where each part goes depends on nothing the saving changes
    var jobs := Jobs(base, charmId, files);
    LegacySaveAll(c, disk, jobs);
    c.Respond(200, Some(FilesUploaded(|files|)));
  }

  // ---------------------------------------------------------------------
  // The two ingest policies side by side

  /** Both handlers save a part of user `id` at the same place. */
  lemma SameDestinationAsNewServer(base: string, id: string, p: Part)
    requires base != ""
    ensures LegacyDestination(base, id, p) == DestinationOf(Join([base, id]), p)
  {
    JoinWithSlashElement(base, id, DeclaredName(p));
  }

  /** A file name without a directory part names no directory to make. */
  lemma DirOfBaseName(f: string)
    requires '/' !in f
    ensures Canon(Dir(f)) == Canonical(false, [])
  {
    DirPrefixNoSep(f);
    CleanEmpty();
    CanonClean("");
    assert SplitOn("", '/') == [""];
  }

  /** Where a part of user `id` lands, when its declared name does not climb
      out with `..`. */
  lemma LegacyTarget(base: string, id: string, p: Part)
    requires base != "" && IsName(id) && ".." !in Rel(DeclaredName(p))
    ensures Canon(LegacyDestination(base, id, p)) == Target(Join([base, id]), p)
    ensures Canon(LegacyDestination(base, id, p)) ==
      Canonical(Canon(base).rooted, Canon(base).elems + [id] + Rel(DeclaredName(p)))
  {
    SameDestinationAsNewServer(base, id, p);
    DestinationContained(base, id, p);
  }

  /** On a filesystem holding no files and no directories below the part's
      own depth, a readable part whose file name has no directory part is
      saved at its destination. */
  lemma LegacySavesFreshPart(fs: Fs, base: string, id: string, p: Part)
    requires base != "" && IsName(id) && ".." !in Rel(DeclaredName(p))
    requires p.fault == NoFault && '/' !in p.headerFilename
    requires fs.files == map[]
    requires forall d :: d in fs.dirs ==> |d.elems| <= |Canon(base).elems|
    ensures var r := LegacySavePart(fs, JobFor(base, id, p));
      r.ok && r.fs.files == map[Target(Join([base, id]), p) := p.content]
  {
    var j := JobFor(base, id, p);
    var rel := Rel(DeclaredName(p));
    assert j.dst == Target(Join([base, id]), p) && j.dst.elems == Canon(base).elems + [id] + rel by {
      LegacyTarget(base, id, p);
    }
    assert j.dst.elems != [] && j.dst.elems[|j.dst.elems| - 1] != ".." by {
      if rel != [] {
        assert j.dst.elems[|j.dst.elems| - 1] == rel[|rel| - 1];
        assert rel[|rel| - 1] in rel;
      }
    }
    assert j.nameDir == Canonical(false, []) by {
      DirOfBaseName(p.headerFilename);
    }
    SavesJobOnShallowFs(fs, j);
  }

  /** A job whose part reads, whose file name names no directory, and whose
      destination lies below every directory of a filesystem without files,
      is saved there. */
  lemma SavesJobOnShallowFs(fs: Fs, j: Job)
    requires j.dst.elems != [] && j.dst.elems[|j.dst.elems| - 1] != ".."
    requires fs.files == map[] && forall d :: d in fs.dirs ==> |d.elems| < |j.dst.elems|
    requires j.nameDir == Canonical(false, []) && j.part.fault == NoFault
    ensures LegacySavePart(fs, j) == Attempt(Store(AfterMkdirAll(fs, Parent(j.dst)), j.dst, j.part.content), true)
  {
    CreateBelowShallowerDirs(fs, j.dst);
    var made := AfterMkdirAll(fs, Parent(j.dst));
    MkdirAllOfWorkingDir(made);
  }

  /** An empty part: the legacy handler saves an empty file, the new upload
      handler refuses the request with 400 "error reading data". */
  lemma ZeroBytePartSavedOnlyByLegacy(base: string, id: string, p: Part)
    requires base != "" && IsName(id) && ".." !in Rel(DeclaredName(p))
    requires p.disposition.Some? && p.fault == NoFault && p.content == [] && '/' !in p.headerFilename
    ensures var legacy := LegacyIngest(Fs(map[], {}), base, id, [p]);
      legacy.failed == 0 && legacy.fs.files == map[Target(Join([base, id]), p) := []]
    ensures Ingest(Fs(map[], {}), DestIn(Join([base, id])), [p]) == Ingested(Fs(map[], {}), 0, Some(ErrorReply(400, ErrorReadingData)))
  {
    assert Jobs(base, id, [p]) == [JobFor(base, id, p)];
    var j := JobFor(base, id, p);
    assert [] + [j] == [j];
    LegacyContinuesAfterFailure(Fs(map[], {}), [], j);
    LegacySavesFreshPart(Fs(map[], {}), base, id, p);
    EmptyFirstPartRejected(Fs(map[], {}), DestIn(Join([base, id])), [p]);
  }

  /** A part the legacy handler cannot open, on a filesystem without files
      or directories, writes no file but leaves behind the directories its
      destination would lie in. */
  lemma UnopenedPartMakesItsDirs(base: string, id: string, bad: Part)
    requires bad.fault == OpenFails && '/' !in bad.headerFilename
    ensures var r := LegacySavePart(Fs(map[], {}), JobFor(base, id, bad));
      && !r.ok && r.fs.files == map[]
      && r.fs.dirs == Ancestry(Parent(JobFor(base, id, bad).dst))
  {
    var j := JobFor(base, id, bad);
    DirOfBaseName(bad.headerFilename);
    var first := MkdirAllIgnoringError(Fs(map[], {}), Parent(j.dst));
    assert first == AfterMkdirAll(Fs(map[], {}), Parent(j.dst));
    MkdirAllOfWorkingDir(first);
    assert LegacySavePart(Fs(map[], {}), j) == Attempt(first, false);
  }

  /** A readable part whose file name names no directory is saved on a
      filesystem without files, as long as its destination is not already
      a directory. */
  lemma SavesJobOnFileFreeFs(fs: Fs, j: Job)
    requires j.dst.elems != [] && j.dst.elems[|j.dst.elems| - 1] != ".."
    requires fs.files == map[] && j.dst !in fs.dirs
    requires j.nameDir == Canonical(false, []) && j.part.fault == NoFault
    ensures LegacySavePart(fs, j).ok
    ensures LegacySavePart(fs, j).fs.files == map[j.dst := j.part.content]
  {
    CreateOnFileFreeFs(fs, j.dst);
    var made := AfterMkdirAll(fs, Parent(j.dst));
    MkdirAllOfWorkingDir(made);
  }

  /** Two jobs on an empty filesystem: when the first fails without
      writing a file and the second succeeds, the second's file is the only
      one and one failure is counted. */
  lemma SecondJobAlone(j: Job, k: Job)
    requires var one := LegacySavePart(Fs(map[], {}), j);
      !one.ok && one.fs.files == map[] && LegacySavePart(one.fs, k).ok
    ensures SaveEach(Fs(map[], {}), [j, k]).failed == 1
    ensures SaveEach(Fs(map[], {}), [j, k]).fs.files == map[k.dst := k.part.content]
  {
    assert [] + [j] == [j] && [j] + [k] == [j, k];
    LegacyContinuesAfterFailure(Fs(map[], {}), [], j);
    LegacyContinuesAfterFailure(Fs(map[], {}), [j], k);
  }

  /** The destination of a traversal-free part is a location below the
      user's directory, and it is not among the directories made for
      another part unless its name is a proper prefix of the other's. */
  lemma DestinationNotAboveOther(base: string, id: string, p: Part, other: Part)
    requires base != "" && IsName(id)
    requires ".." !in Rel(DeclaredName(p)) && ".." !in Rel(DeclaredName(other))
    requires !(Rel(DeclaredName(p)) < Rel(DeclaredName(other)))
    ensures var dst := JobFor(base, id, p).dst;
      && dst !in Ancestry(Parent(JobFor(base, id, other).dst))
      && dst.elems != [] && dst.elems[|dst.elems| - 1] != ".."
  {
    var dst := JobFor(base, id, p).dst;
    var b, r := Canon(base).elems + [id], Rel(DeclaredName(p));
    LegacyTarget(base, id, p);
    LegacyTarget(base, id, other);
    NotAboveOther(Canon(base).rooted, b, r, Rel(DeclaredName(other)));
    if r != [] {
      assert dst.elems[|dst.elems| - 1] == r[|r| - 1];
      assert r[|r| - 1] in r;
    }
  }

  /** The legacy handler tries the good part after the unopened one, and
      saves it unless its name is a proper prefix of the unopened part's
      name, which makes its destination one of the directories the unopened
      part left behind. */
  lemma LegacySavesAfterUnopenedPart(base: string, id: string, bad: Part, good: Part)
    requires base != "" && IsName(id)
    requires bad.fault == OpenFails && ".." !in Rel(DeclaredName(bad)) && '/' !in bad.headerFilename
    requires good.fault == NoFault && ".." !in Rel(DeclaredName(good)) && '/' !in good.headerFilename
    requires !(Rel(DeclaredName(good)) < Rel(DeclaredName(bad)))
    ensures var legacy := LegacyIngest(Fs(map[], {}), base, id, [bad, good]);
      legacy.failed == 1 && legacy.fs.files == map[Target(Join([base, id]), good) := good.content]
  {
    var jb, jg := JobFor(base, id, bad), JobFor(base, id, good);
    var js := Jobs(base, id, [bad, good]);
    assert |js| == 2 && js[0] == jb && js[1] == jg;
    assert js == [jb, jg];
    var one := LegacySavePart(Fs(map[], {}), jb);
    UnopenedPartMakesItsDirs(base, id, bad);
    DestinationNotAboveOther(base, id, good, bad);
    assert jg.nameDir == Canonical(false, []) by {
      DirOfBaseName(good.headerFilename);
    }
    SavesJobOnFileFreeFs(one.fs, jg);
    SecondJobAlone(jb, jg);
    LegacyTarget(base, id, good);
  }

  /** A part that cannot be opened, then a good one: the legacy handler
      logs the first, saves the second and answers 200; the new upload
      handler stops at the first and saves nothing. */
  lemma FailedPartDoesNotStopLegacy(base: string, id: string, bad: Part, good: Part)
    requires base != "" && IsName(id)
    requires bad.fault == OpenFails && ".." !in Rel(DeclaredName(bad)) && '/' !in bad.headerFilename
    requires good.fault == NoFault && ".." !in Rel(DeclaredName(good)) && '/' !in good.headerFilename
    requires !(Rel(DeclaredName(good)) < Rel(DeclaredName(bad)))
    ensures var legacy := LegacyIngest(Fs(map[], {}), base, id, [bad, good]);
      legacy.failed == 1 && legacy.fs.files == map[Target(Join([base, id]), good) := good.content]
    ensures Ingest(Fs(map[], {}), DestIn(Join([base, id])), [bad, good]) ==
      Ingested(Fs(map[], {}), 0, Some(ErrorReply(400, ErrorOpeningData)))
  {
    LegacySavesAfterUnopenedPart(base, id, bad, good);
    var parts := [bad, good];
    assert parts[..1] == [bad] && [bad][..0] == [];
    IngestStopsAtFailure(Fs(map[], {}), DestIn(Join([base, id])), parts, 1);
  }
}
