/** The upload handler: the parts of the form field `upload[]` are written, in
    order, below `<uploads>/<charm id>/`, each at the file name its
    `Content-Disposition` header declares.  The first part that fails ends the
    request with an error reply; parts already written stay written. */
module UploadsMiddleware {
  import opened Wrappers
  import opened FilePath
  import opened Disk
  import opened Http

  /** An error reply: its status and body. */
  datatype ErrorReply = ErrorReply(code: ErrorStatus, msg: Message)

  /** The `filename` parameter of a part's `Content-Disposition` header, `""`
      when it has none (reading a missing key of the parameter map). */
  function DeclaredName(p: Part): string
  {
    if p.disposition.Some? && "filename" in p.disposition.value then p.disposition.value["filename"] else ""
  }

  /** Where a part is written: its declared name joined under `dir`. */
  function DestinationOf(dir: string, p: Part): string
  {
    Join([dir, DeclaredName(p)])
  }

  /** The location of the destination. */
  function Target(dir: string, p: Part): Canonical
  {
    Canon(DestinationOf(dir, p))
  }

  /** The bytes a copy that fails after `written` bytes leaves behind. */
  function Copied(p: Part): (r: Bytes)
    ensures r <= p.content
    ensures p.fault.CopyFails? && p.fault.written < |p.content| ==> |r| == p.fault.written
  {
    if p.fault.CopyFails? && p.fault.written < |p.content| then p.content[..p.fault.written] else p.content
  }

  /** The filesystem after one part, and the error the part ends the request
      with, if any. */
  datatype Saved = Saved(fs: Fs, failure: Option<ErrorReply>)

  /** The part gets past the header parse, the open, the 512-byte probe read
      (which meets end-of-file at once on an empty part) and the seek back. */
  predicate Readable(p: Part)
  {
    p.disposition.Some? && p.fault != OpenFails && p.fault != ReadFails && p.fault != SeekFails && p.content != []
  }

  /** One iteration of the loop of `HTTPUploads.ServeHTTP`, for the part `p`
      headed for the location `dfile`; its directory is `Parent(dfile)`. */
  function SavePart(fs: Fs, dfile: Canonical, p: Part): (r: Saved)
    // a part that is stored replaces whatever was at its destination with exactly its bytes
    ensures r.failure.None? ==> r.fs.files == fs.files[dfile := p.content]
    // nothing but the destination's file changes, and no directory disappears
    ensures r.fs.files.Keys <= fs.files.Keys + {dfile}
    ensures forall q :: q in fs.files && q != dfile ==> q in r.fs.files && r.fs.files[q] == fs.files[q]
    ensures fs.dirs <= r.fs.dirs
  {
    var ddir := Parent(dfile);
    if p.disposition.None? || p.fault == OpenFails then Saved(fs, Some(ErrorReply(400, ErrorOpeningData)))
    else if p.fault == ReadFails || p.content == [] || p.fault == SeekFails then Saved(fs, Some(ErrorReply(400, ErrorReadingData)))
    else if MkdirAllFails(fs, ddir) then Saved(fs, Some(ErrorReply(500, InternalServerError)))
    else
      var made := AfterMkdirAll(fs, ddir);
      if CreateFails(made, dfile) then Saved(made, Some(ErrorReply(500, InternalServerError)))
      else if p.fault.CopyFails? then Saved(Store(made, dfile, Copied(p)), Some(ErrorReply(400, InternalServerError)))
      else Saved(Store(made, dfile, p.content), None)
  }

  /** The status mapping of one part: reading the part fails with 400,
      preparing its destination with 500 and copying it with 400; a part
      is stored exactly when none of these fails. */
  lemma SavePartStatus(fs: Fs, dfile: Canonical, p: Part)
    ensures var r := SavePart(fs, dfile, p);
      && (!Readable(p) ==> r.fs == fs && r.failure.Some? && r.failure.value.code == 400)
      && (p.disposition.Some? && p.fault != OpenFails && p.content == [] ==>
            r == Saved(fs, Some(ErrorReply(400, ErrorReadingData))))
      && (Readable(p) ==>
            (r.failure.Some? && r.failure.value.code == 500 <==>
              MkdirAllFails(fs, Parent(dfile)) || CreateFails(AfterMkdirAll(fs, Parent(dfile)), dfile)))
      && (r.failure.Some? && r.failure.value.code == 500 ==> r.fs.files == fs.files)
      && (Readable(p) && p.fault.CopyFails? && (r.failure.None? || r.failure.value.code != 500) ==>
            r.failure == Some(ErrorReply(400, InternalServerError)) && r.fs.files == fs.files[dfile := Copied(p)])
      && (r.failure.None? <==>
            Readable(p) && p.fault == NoFault &&
            !MkdirAllFails(fs, Parent(dfile)) && !CreateFails(AfterMkdirAll(fs, Parent(dfile)), dfile))
  {
  }

  /** The filesystem after the loop, how many parts were stored, and the
      error the request ended with, if any. */
  datatype Ingested = Ingested(fs: Fs, stored: nat, failure: Option<ErrorReply>)

  /** Where `ServeHTTP` sends each part when the user directory is `dir`. */
  function DestIn(dir: string): Part -> Canonical
  {
    p => Target(dir, p)
  }

  /** The loop over the parts, with its early exit: once a part fails, the
      later ones are not looked at. */
  function Ingest(fs: Fs, dest: Part -> Canonical, parts: seq<Part>): (r: Ingested)
    ensures r.stored <= |parts|
    ensures r.failure.None? <==> r.stored == |parts|
    decreases |parts|
  {
    if parts == [] then Ingested(fs, 0, None)
    else
      var n := |parts| - 1;
      var prev := Ingest(fs, dest, parts[..n]);
      if prev.failure.Some? then prev
      else
        var s := SavePart(prev.fs, dest(parts[n]), parts[n]);
        Ingested(s.fs, if s.failure.None? then n + 1 else n, s.failure)
  }

  /** One more turn of the loop: the next part is saved on the filesystem
      the earlier parts left behind. */
  lemma IngestStep(fs: Fs, dest: Part -> Canonical, parts: seq<Part>, i: int, mid: Fs)
    requires 0 <= i < |parts| && Ingest(fs, dest, parts[..i]) == Ingested(mid, i, None)
    ensures var s := SavePart(mid, dest(parts[i]), parts[i]);
      Ingest(fs, dest, parts[..i + 1]) == Ingested(s.fs, if s.failure.None? then i + 1 else i, s.failure)
  {
    assert parts[..i + 1][..i] == parts[..i];
  }

  /** A lone readable part whose directory can be made and whose file can
      be created is stored, and nothing else changes. */
  lemma IngestSinglePart(fs: Fs, dest: Part -> Canonical, p: Part)
    requires Readable(p) && p.fault == NoFault
    requires !MkdirAllFails(fs, Parent(dest(p)))
    requires !CreateFails(AfterMkdirAll(fs, Parent(dest(p))), dest(p))
    ensures var r := Ingest(fs, dest, [p]);
      r.failure.None? && r.stored == 1 && r.fs.files == fs.files[dest(p) := p.content]
  {
    assert [p][..0] == [];
  }

  /** A file no part is headed for keeps its content, and no directory
      disappears. */
  lemma {:induction false} IngestFrame(fs: Fs, dest: Part -> Canonical, parts: seq<Part>)
    ensures var r := Ingest(fs, dest, parts);
      && fs.dirs <= r.fs.dirs
      && forall q :: q in fs.files && (forall i :: 0 <= i < |parts| ==> dest(parts[i]) != q) ==>
           q in r.fs.files && r.fs.files[q] == fs.files[q]
    decreases |parts|
  {
    if parts != [] {
      var n := |parts| - 1;
      IngestFrame(fs, dest, parts[..n]);
      forall q | q in fs.files && (forall i :: 0 <= i < |parts| ==> dest(parts[i]) != q)
        ensures forall i :: 0 <= i < n ==> dest(parts[..n][i]) != q
      {
        forall i | 0 <= i < n ensures dest(parts[..n][i]) != q {
          assert parts[..n][i] == parts[i];
        }
      }
    }
  }

  /** Once a prefix of the parts fails, the rest of the parts change nothing. */
  lemma {:induction false} IngestStopsAtFailure(fs: Fs, dest: Part -> Canonical, parts: seq<Part>, k: nat)
    requires k <= |parts| && Ingest(fs, dest, parts[..k]).failure.Some?
    ensures Ingest(fs, dest, parts) == Ingest(fs, dest, parts[..k])
    decreases |parts|
  {
    if k < |parts| {
      var n := |parts| - 1;
      assert parts[..n][..k] == parts[..k];
      IngestStopsAtFailure(fs, dest, parts[..n], k);
    } else {
      assert parts[..k] == parts;
    }
  }

  /** The parts before the failing one were all stored, and the request ends
      with the failing part's error and the filesystem as that part left it:
      there is no rollback. */
  lemma {:induction false} FailureKeepsEarlierParts(fs: Fs, dest: Part -> Canonical, parts: seq<Part>)
    requires Ingest(fs, dest, parts).failure.Some?
    ensures var r := Ingest(fs, dest, parts);
      var before := Ingest(fs, dest, parts[..r.stored]);
      && before.failure.None?
      && SavePart(before.fs, dest(parts[r.stored]), parts[r.stored]) == Saved(r.fs, r.failure)
    decreases |parts|
  {
    var n := |parts| - 1;
    var prev := Ingest(fs, dest, parts[..n]);
    if prev.failure.Some? {
      FailureKeepsEarlierParts(fs, dest, parts[..n]);
      assert parts[..n][..prev.stored] == parts[..prev.stored];
    }
  }

  /** The part at index `i` is the last one headed for its destination. */
  predicate LastFor(dest: Part -> Canonical, parts: seq<Part>, i: int)
    requires 0 <= i < |parts|
  {
    forall j :: i < j < |parts| ==> dest(parts[j]) != dest(parts[i])
  }

  /** After a request whose parts were all stored, each destination holds the
      bytes of the last part headed for it. */
  lemma {:induction false} LastWriterWins(fs: Fs, dest: Part -> Canonical, parts: seq<Part>)
    requires Ingest(fs, dest, parts).failure.None?
    ensures var files := Ingest(fs, dest, parts).fs.files;
      forall i :: 0 <= i < |parts| && LastFor(dest, parts, i) ==>
        dest(parts[i]) in files && files[dest(parts[i])] == parts[i].content
    decreases |parts|
  {
    if parts != [] {
      var n := |parts| - 1;
      var prev := Ingest(fs, dest, parts[..n]);
      LastWriterWins(fs, dest, parts[..n]);
      var files := Ingest(fs, dest, parts).fs.files;
      forall i | 0 <= i < |parts| && LastFor(dest, parts, i)
        ensures dest(parts[i]) in files && files[dest(parts[i])] == parts[i].content
      {
        if i < n {
          LastForPrefix(dest, parts, i);
        }
      }
    }
  }

  /** A part that is last for its destination is so in every prefix holding it,
      and the final part is headed elsewhere. */
  lemma LastForPrefix(dest: Part -> Canonical, parts: seq<Part>, i: int)
    requires 0 <= i < |parts| - 1 && LastFor(dest, parts, i)
    ensures parts[..|parts| - 1][i] == parts[i] && LastFor(dest, parts[..|parts| - 1], i)
    ensures dest(parts[|parts| - 1]) != dest(parts[i])
  {
    var n := |parts| - 1;
    forall j | i < j < n ensures dest(parts[..n][j]) != dest(parts[..n][i]) {
      assert parts[..n][j] == parts[j];
    }
  }

  /** A request whose first part is empty stores nothing and is answered 400
      "error reading data". */
  lemma EmptyFirstPartRejected(fs: Fs, dest: Part -> Canonical, parts: seq<Part>)
    requires |parts| >= 1 && parts[0].disposition.Some? && parts[0].fault != OpenFails && parts[0].content == []
    ensures Ingest(fs, dest, parts) == Ingested(fs, 0, Some(ErrorReply(400, ErrorReadingData)))
  {
    assert parts[..1][..0] == [];
    IngestStopsAtFailure(fs, dest, parts, 1);
  }

  // ---------------------------------------------------------------------
  // Where the parts land

  /** A declared name that does not climb out with `..` lands below the
      user's directory `dir/id`, at the name's relative reading. */
  lemma DestinationContained(dir: string, id: string, p: Part)
    requires dir != "" && IsName(id) && ".." !in Rel(DeclaredName(p))
    ensures Within(DestinationOf(Join([dir, id]), p), Join([dir, id]))
    ensures Canon(DestinationOf(Join([dir, id]), p)) ==
      Canonical(Canon(dir).rooted, Canon(dir).elems + [id] + Rel(DeclaredName(p)))
  {
    JoinName(dir, id);
    JoinStaysBelow(Join([dir, id]), DeclaredName(p));
  }

  /** Nothing stops a declared name from reaching another user's directory:
      user `a`'s part named `../b/g` is written where user `b`'s part named
      `g` would be. */
  lemma TraversalReachesOtherUser(dir: string, a: string, b: string, g: string, p: Part)
    requires dir != "" && IsName(a) && IsName(b) && ".." !in Rel(g)
    requires DeclaredName(p) == "../" + b + "/" + g
    ensures DestinationOf(Join([dir, a]), p) == Join([Join([dir, b]), g])
  {
    DotDotReachesSibling(dir, a, b, g);
  }

  /** When no declared name climbs out with `..`, a request of user `id`
      leaves every file outside the user's directory `dir/id` as it was. */
  lemma IngestConfinedToUserDir(fs: Fs, dir: string, id: string, parts: seq<Part>, q: Canonical)
    requires dir != "" && IsName(id)
    requires forall i :: 0 <= i < |parts| ==> ".." !in Rel(DeclaredName(parts[i]))
    requires q in fs.files && !(q.rooted == Canon(dir).rooted && Canon(dir).elems + [id] <= q.elems)
    ensures var r := Ingest(fs, DestIn(Join([dir, id])), parts);
      q in r.fs.files && r.fs.files[q] == fs.files[q]
  {
    IngestFrame(fs, DestIn(Join([dir, id])), parts);
    forall i | 0 <= i < |parts| ensures DestIn(Join([dir, id]))(parts[i]) != q {
      DestinationContained(dir, id, parts[i]);
      var t := Target(Join([dir, id]), parts[i]);
      assert Canon(dir).elems + [id] <= t.elems;
    }
  }

  // ---------------------------------------------------------------------
  // The handler

  /** What the handler leaves behind: the filesystem and the error reply, if any. */
  datatype Reply = Reply(fs: Fs, failure: Option<ErrorReply>)

  /** `HTTPUploads.ServeHTTP` for the user directory `dir` on a request
      whose parsed form is `form`. */
  function ServeForm(fs: Fs, dir: string, form: Option<map<string, seq<Part>>>): (r: Reply)
    ensures form.None? || "upload[]" !in form.value ==> r == Reply(fs, Some(ErrorReply(400, NoFilesFound)))
    ensures form.Some? && "upload[]" in form.value ==>
      var in_ := Ingest(fs, DestIn(dir), form.value["upload[]"]);
      r == Reply(in_.fs, in_.failure)
  {
    if form.None? || "upload[]" !in form.value then Reply(fs, Some(ErrorReply(400, NoFilesFound)))
    else
      var result := Ingest(fs, DestIn(dir), form.value["upload[]"]);
      Reply(result.fs, result.failure)
  }

  /** The identity the JWKS check stored under `charm_id`, when it is a string. */
  function StoredCharmId(keys: map<string, Value>): Option<string>
  {
    if "charm_id" in keys && keys["charm_id"].Str? then Some(keys["charm_id"].s) else None
  }

  /** The `Uploads` handler: without a string identity it answers 400 and
      writes nothing; otherwise it serves the form below `Join(dir, id)`. */
  function Upload(fs: Fs, dir: string, keys: map<string, Value>, form: Option<map<string, seq<Part>>>): (r: Reply)
    ensures StoredCharmId(keys).None? ==> r == Reply(fs, Some(ErrorReply(400, CharmIdNotFound)))
    ensures StoredCharmId(keys).Some? ==> r == ServeForm(fs, Join([dir, StoredCharmId(keys).value]), form)
  {
    match StoredCharmId(keys)
    case None => Reply(fs, Some(ErrorReply(400, CharmIdNotFound)))
    case Some(id) => ServeForm(fs, Join([dir, id]), form)
  }

  /** The response a reply writes: nothing at all on success. */
  function StatusOf(failure: Option<ErrorReply>): nat
  {
    if failure.Some? then failure.value.code else 0
  }

  function BodyOf(failure: Option<ErrorReply>): seq<Message>
  {
    if failure.Some? then [failure.value.msg] else []
  }

  /** `renderError` / `http.Error`: the status and the message. */
  method RenderError(c: Context, e: ErrorReply)
    modifies c
    ensures c.status == WriteStatus(old(c.status), e.code) && c.body == old(c.body) + [e.msg]
    ensures c.keys == old(c.keys) && c.aborted == old(c.aborted) && c.log == old(c.log)
  {
    c.Respond(e.code, Some(e.msg));
  }

  /** One part, step by step on the filesystem. */
  method SaveOne(c: Context, disk: FileSystem, dir: string, p: Part) returns (ok: bool)
    modifies c, disk
    ensures var s := SavePart(old(disk.Value()), Target(dir, p), p);
      && disk.Value() == s.fs
      && ok == s.failure.None?
      && c.status == WriteStatus(old(c.status), StatusOf(s.failure))
      && c.body == old(c.body) + BodyOf(s.failure)
    ensures c.keys == old(c.keys) && c.aborted == old(c.aborted) && c.log == old(c.log)
  {
    if p.disposition.None? {
      RenderError(c, ErrorReply(400, ErrorOpeningData));
      return false;
    }
    var dfile := Join([dir, DeclaredName(p)]);
    var ddir := Dir(dfile);
    if p.fault == OpenFails {
      RenderError(c, ErrorReply(400, ErrorOpeningData));
      return false;
    }
    // the probe read of up to 512 bytes meets end-of-file on an empty part
    if p.fault == ReadFails || |p.content| == 0 || p.fault == SeekFails {
      RenderError(c, ErrorReply(400, ErrorReadingData));
      return false;
    }
    JoinIsClean([dir, DeclaredName(p)]);
    CanonOfDir(dfile);
    ok := StorePart(c, disk, Canon(ddir), Canon(dfile), p);
  }

  /** The second half of one iteration, once the part has been read:
      make the directory, create the file and copy the bytes into it. */
  method StorePart(c: Context, disk: FileSystem, ddir: Canonical, dfile: Canonical, p: Part) returns (ok: bool)
    requires Readable(p) && ddir == Parent(dfile)
    modifies c, disk
    ensures var s := SavePart(old(disk.Value()), dfile, p);
      && disk.Value() == s.fs
      && ok == s.failure.None?
      && c.status == WriteStatus(old(c.status), StatusOf(s.failure))
      && c.body == old(c.body) + BodyOf(s.failure)
    ensures c.keys == old(c.keys) && c.aborted == old(c.aborted) && c.log == old(c.log)
  {
    ok := disk.MkdirAll(ddir);
    if !ok {
      RenderError(c, ErrorReply(500, InternalServerError));
      return false;
    }
    ghost var made := disk.Value();
    ok := disk.Create(dfile);
    if !ok {
      RenderError(c, ErrorReply(500, InternalServerError));
      return false;
    }
    disk.Write(dfile, Copied(p));
    assert [] + Copied(p) == Copied(p);
    assert disk.Value() == Store(made, dfile, Copied(p));
    if p.fault.CopyFails? {
      RenderError(c, ErrorReply(400, InternalServerError));
      return false;
    }
    return true;
  }

  /** `HTTPUploads.ServeHTTP`: the loop over the parts with its early exit. */
  method ServeHttp(c: Context, disk: FileSystem, dir: string)
    modifies c, disk
    ensures var r := ServeForm(old(disk.Value()), dir, c.request.form);
      && disk.Value() == r.fs
      && c.status == WriteStatus(old(c.status), StatusOf(r.failure))
      && c.body == old(c.body) + BodyOf(r.failure)
    ensures c.keys == old(c.keys) && c.aborted == old(c.aborted) && c.log == old(c.log)
  {
    var form := c.request.form;
    if form.None? || "upload[]" !in form.value {
      RenderError(c, ErrorReply(400, NoFilesFound));
      return;
    }
    SaveAll(c, disk, dir, form.value["upload[]"]);
  }

  /** The loop over the parts of `ServeHTTP`: each part is saved in turn
      until one fails. */
  method SaveAll(c: Context, disk: FileSystem, dir: string, files: seq<Part>)
    modifies c, disk
    ensures var r := Ingest(old(disk.Value()), DestIn(dir), files);
      && disk.Value() == r.fs
      && c.status == WriteStatus(old(c.status), StatusOf(r.failure))
      && c.body == old(c.body) + BodyOf(r.failure)
    ensures c.keys == old(c.keys) && c.aborted == old(c.aborted) && c.log == old(c.log)
  {
    ghost var fs0 := disk.Value();
    var i := 0;
    while i < |files|
      invariant 0 <= i <= |files|
      invariant Ingest(fs0, DestIn(dir), files[..i]) == Ingested(disk.Value(), i, None)
      invariant c.status == old(c.status) && c.body == old(c.body)
      invariant c.keys == old(c.keys) && c.aborted == old(c.aborted) && c.log == old(c.log)
    {
      ghost var before := disk.Value();
      var ok := SaveOne(c, disk, dir, files[i]);
      assert DestIn(dir)(files[i]) == Target(dir, files[i]);
      IngestStep(fs0, DestIn(dir), files, i, before);
      if !ok {
        IngestStopsAtFailure(fs0, DestIn(dir), files, i + 1);
        return;
      }
      i := i + 1;
    }
    assert files[..i] == files;
  }

  /** The `Uploads` handler on a gin context. */
  method Uploads(c: Context, disk: FileSystem, dir: string, memLimit: int)
    modifies c, disk
    ensures var r := Upload(old(disk.Value()), dir, old(c.keys), c.request.form);
      && disk.Value() == r.fs
      && c.status == WriteStatus(old(c.status), StatusOf(r.failure))
      && c.body == old(c.body) + BodyOf(r.failure)
    ensures c.keys == old(c.keys) && c.aborted == old(c.aborted) && c.log == old(c.log)
  {
    var id := StoredCharmId(c.keys);
    if id.None? {
      c.Respond(400, Some(CharmIdNotFound));
      return;
    }
    ServeHttp(c, disk, Join([dir, id.value]));
  }
}
