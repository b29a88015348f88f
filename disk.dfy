/** The local filesystem the upload handlers write into, as far as `os.MkdirAll`,
    `os.Create` and writes to a created file are concerned.  A path names the
    location its canonical form (see `FilePath`) names: symbolic links are not
    modelled, so `a/b/..` and `a` are the same place. */
module Disk {
  import opened FilePath

  newtype byte = b: int | 0 <= b < 256

  type Bytes = seq<byte>

  /** Regular files with their contents, and the directories created so far. */
  datatype Fs = Fs(files: map<Canonical, Bytes>, dirs: set<Canonical>)

  /** The directory a location lies in; the root and the working directory
      are their own. */
  function Parent(c: Canonical): Canonical
  {
    if c.elems == [] then c else Canonical(c.rooted, c.elems[..|c.elems| - 1])
  }

  /** The root, the working directory and the directories above the working
      directory exist from the start. */
  predicate Preexisting(c: Canonical)
  {
    c.elems == [] || (!c.rooted && c.elems[|c.elems| - 1] == "..")
  }

  predicate IsDir(fs: Fs, c: Canonical)
  {
    Preexisting(c) || c in fs.dirs
  }

  /** The directories `os.MkdirAll` needs for `c`: `c` and every directory
      above it. */
  function Ancestry(c: Canonical): set<Canonical>
  {
    set i | 1 <= i <= |c.elems| :: Canonical(c.rooted, c.elems[..i])
  }

  /** `os.MkdirAll` fails when `c` or a directory above it is a regular file. */
  predicate MkdirAllFails(fs: Fs, c: Canonical)
  {
    Ancestry(c) * fs.files.Keys != {}
  }

  function AfterMkdirAll(fs: Fs, c: Canonical): Fs
  {
    fs.(dirs := fs.dirs + Ancestry(c))
  }

  /** `os.Create` fails when `c` is a directory or its parent is not one. */
  predicate CreateFails(fs: Fs, c: Canonical)
  {
    IsDir(fs, c) || !IsDir(fs, Parent(c))
  }

  /** The regular file `c` holds `data`. */
  function Store(fs: Fs, c: Canonical, data: Bytes): Fs
  {
    fs.(files := fs.files[c := data])
  }

  /** No location is both a regular file and a directory. */
  predicate Consistent(fs: Fs)
  {
    forall c :: c in fs.files ==> !IsDir(fs, c)
  }

  /** Every directory `os.MkdirAll` makes for `c` lies no deeper than `c`. */
  lemma AncestryDepth(c: Canonical)
    ensures forall d :: d in Ancestry(c) ==> |d.elems| <= |c.elems|
  {
  }

  /** A successful `os.MkdirAll` keeps the filesystem consistent. */
  lemma MkdirAllKeepsConsistent(fs: Fs, c: Canonical)
    requires Consistent(fs) && !MkdirAllFails(fs, c)
    ensures Consistent(AfterMkdirAll(fs, c))
  {
    var after := AfterMkdirAll(fs, c);
    forall f | f in after.files ensures !IsDir(after, f) {
      assert f !in Ancestry(c) * fs.files.Keys;
    }
  }

  /** A successful `os.Create` and any writes to the created file keep the
      filesystem consistent. */
  lemma CreateKeepsConsistent(fs: Fs, c: Canonical, data: Bytes)
    requires Consistent(fs) && !CreateFails(fs, c)
    ensures Consistent(Store(fs, c, data))
  {
  }

  /** An in-place view of the filesystem. */
  class FileSystem {
    var files: map<Canonical, Bytes>
    var dirs: set<Canonical>

    function Value(): Fs
      reads this
    {
      Fs(files, dirs)
    }

    constructor (fs: Fs)
      ensures Value() == fs
    {
      files, dirs := fs.files, fs.dirs;
    }

    /** `os.MkdirAll`: on failure nothing is created. */
    method MkdirAll(c: Canonical) returns (ok: bool)
      modifies this
      ensures ok == !MkdirAllFails(old(Value()), c)
      ensures Value() == if ok then AfterMkdirAll(old(Value()), c) else old(Value())
    {
      ok := Ancestry(c) * files.Keys == {};
      if ok {
        dirs := dirs + Ancestry(c);
      }
    }

    /** `os.Create`: creates or truncates the regular file `c`. */
    method Create(c: Canonical) returns (ok: bool)
      modifies this
      ensures ok == !CreateFails(old(Value()), c)
      ensures Value() == if ok then Store(old(Value()), c, []) else old(Value())
    {
      ok := !CreateFails(Value(), c);
      if ok {
        files := files[c := []];
      }
    }

    /** A write to the open file `c`: the bytes are appended. */
    method Write(c: Canonical, data: Bytes)
      requires c in files
      modifies this
      ensures Value() == Store(old(Value()), c, old(files[c]) + data)
    {
      files := files[c := files[c] + data];
    }
  }

  /** The directory `filepath.Dir` names for a clean path (or `""`) is the
      location's parent. */
  lemma CanonOfDir(p: string)
    requires p == "" || p == Clean(p)
    ensures Canon(Dir(p)) == Parent(Canon(p))
  {
    var c := Canon(p);
    CanonValid(p);
    if p == "" {
      assert Dir(p) == Clean(p);
      CanonClean(p);
    } else if c.elems == [] {
      assert p == "." || p == "/";
      if p == "." {
        assert DirPrefix(".") == DirPrefix("");
        CleanEmpty();
      } else {
        assert DirPrefix("/") == "/";
      }
      CanonClean(DirPrefix(p));
      CanonClean(p);
    } else {
      DirOfClean(c);
      var q := Canonical(c.rooted, c.elems[..|c.elems| - 1]);
      assert Valid(q);
      CanonRender(q);
    }
  }

  /** On a filesystem without regular files whose directories all lie
      above `c`'s depth, the parent directory of a location below the
      working directory or the root can be made, and the location can then
      be created. */
  lemma CreateBelowShallowerDirs(fs: Fs, c: Canonical)
    requires c.elems != [] && c.elems[|c.elems| - 1] != ".."
    requires fs.files == map[]
    requires forall d :: d in fs.dirs ==> |d.elems| < |c.elems|
    ensures !MkdirAllFails(fs, Parent(c))
    ensures !CreateFails(AfterMkdirAll(fs, Parent(c)), c)
  {
    var n := |c.elems| - 1;
    var pc := Parent(c);
    var after := AfterMkdirAll(fs, pc);
    if n > 0 {
      assert pc.elems[..n] == pc.elems;
      assert pc in Ancestry(pc);
    }
    assert IsDir(after, pc);
    assert c !in Ancestry(pc);
  }

  /** On a filesystem without regular files, the parent directory of a
      location below the working directory or the root can be made, and the
      location can then be created, unless it is already a directory. */
  lemma CreateOnFileFreeFs(fs: Fs, c: Canonical)
    requires c.elems != [] && c.elems[|c.elems| - 1] != ".."
    requires fs.files == map[] && c !in fs.dirs
    ensures !MkdirAllFails(fs, Parent(c))
    ensures !CreateFails(AfterMkdirAll(fs, Parent(c)), c)
  {
    var n := |c.elems| - 1;
    var pc := Parent(c);
    var after := AfterMkdirAll(fs, pc);
    if n > 0 {
      assert pc.elems[..n] == pc.elems;
      assert pc in Ancestry(pc);
    }
    assert IsDir(after, pc);
    assert c !in Ancestry(pc);
  }

  /** A location is not among the directories `MkdirAll` makes for the
      parent of another location in the same tree, unless its path below
      the shared start `b` is a proper prefix of the other's. */
  lemma NotAboveOther(rooted: bool, b: seq<string>, r: seq<string>, other: seq<string>)
    requires !(r < other)
    ensures Canonical(rooted, b + r) !in Ancestry(Parent(Canonical(rooted, b + other)))
  {
    var c, o := Canonical(rooted, b + r), Canonical(rooted, b + other);
    var po := Parent(o);
    if c in Ancestry(po) {
      var i :| 1 <= i <= |po.elems| && Canonical(po.rooted, po.elems[..i]) == c;
      assert o.elems != [] && po.elems == o.elems[..|o.elems| - 1];
      assert b + r == (b + other)[..i];
      assert |r| < |other|;
      forall k | 0 <= k < |r| ensures r[k] == other[k] {
        assert r[k] == (b + r)[|b| + k];
        assert other[k] == (b + other)[|b| + k];
      }
      assert false;
    }
  }

  /** A `MkdirAll` of the working directory changes nothing. */
  lemma MkdirAllOfWorkingDir(fs: Fs)
    ensures !MkdirAllFails(fs, Canonical(false, []))
    ensures AfterMkdirAll(fs, Canonical(false, [])) == fs
  {
    assert Ancestry(Canonical(false, [])) == {};
  }
}
