/** Go's lexical path functions `filepath.Clean`, `filepath.Join` and
    `filepath.Dir` for `/`-separated paths.

    A path is read as a canonical form: whether it starts at the root, and the
    sequence of its elements after `""` and `"."` are dropped and each `".."`
    has removed the element before it.  A `".."` that has nothing to remove is
    dropped at the root and kept at the front of a relative path.  `Clean`
    writes that form back as a string. */
module FilePath {
  import opened Strings

  datatype Canonical = Canonical(rooted: bool, elems: seq<string>)

  /** An element that names a file or directory. */
  predicate IsName(e: string)
  {
    e != "" && e != "." && e != ".." && '/' !in e
  }

  /** The elements of a canonical form: names, and `".."` only at the front of
      a relative path. */
  predicate ValidElems(rooted: bool, es: seq<string>)
  {
    && (forall i :: 0 <= i < |es| ==> IsName(es[i]) || (!rooted && es[i] == ".."))
    && (forall i, j :: 0 <= i < j < |es| && es[j] == ".." ==> es[i] == "..")
  }

  predicate Valid(c: Canonical)
  {
    ValidElems(c.rooted, c.elems)
  }

  /** One element read onto the stack of elements seen so far. */
  function Step(rooted: bool, stack: seq<string>, e: string): seq<string>
  {
    if e == "" || e == "." then stack
    else if e == ".." then
      if |stack| > 0 && stack[|stack| - 1] != ".." then stack[..|stack| - 1]
      else if rooted then stack
      else stack + [".."]
    else stack + [e]
  }

  /** The elements `es` read, in order, onto `stack`. */
  function Resolve(rooted: bool, stack: seq<string>, es: seq<string>): seq<string>
    decreases |es|
  {
    if es == [] then stack
    else Step(rooted, Resolve(rooted, stack, es[..|es| - 1]), es[|es| - 1])
  }

  function Canon(p: string): Canonical
  {
    var rooted := |p| > 0 && p[0] == '/';
    Canonical(rooted, Resolve(rooted, [], SplitOn(p, '/')))
  }

  function Render(c: Canonical): string
  {
    if c.elems == [] then (if c.rooted then "/" else ".")
    else (if c.rooted then "/" else "") + JoinWith(c.elems, '/')
  }

  /** `filepath.Clean`: never empty, since an empty reading is `"."`. */
  function Clean(p: string): (r: string)
    ensures r != ""
  {
    CanonValid(p);
    if Canon(p).elems != [] then JoinWithStart(Canon(p).elems); Render(Canon(p))
    else Render(Canon(p))
  }

  /** `filepath.Join`: the elements from the first non-empty one on, joined
      by `/` and cleaned; `""` when every element is empty. */
  function Join(elems: seq<string>): (r: string)
    ensures r == "" <==> forall i :: 0 <= i < |elems| ==> elems[i] == ""
    decreases |elems|
  {
    if elems == [] then ""
    else if elems[0] != "" then Clean(JoinWith(elems, '/'))
    else
      assert forall i :: 1 <= i < |elems| ==> elems[i] == elems[1..][i - 1];
      Join(elems[1..])
  }

  /** `p` up to and including its last `/`, or `""` when it has none. */
  function DirPrefix(p: string): string
    decreases |p|
  {
    if p == [] then []
    else if p[|p| - 1] == '/' then p
    else DirPrefix(p[..|p| - 1])
  }

  /** `filepath.Dir`: everything before the last element, cleaned; never
      empty. */
  function Dir(p: string): (r: string)
    ensures r != ""
  {
    Clean(DirPrefix(p))
  }

  /** The relative reading of a declared file name: its elements resolved
      without a root, so that a leading `/` takes no effect.  This is what is
      appended when the name is joined under a directory. */
  function Rel(f: string): seq<string>
  {
    Resolve(false, [], SplitOn(f, '/'))
  }

  /** `p` lies in the directory tree rooted at `base`. */
  predicate Within(p: string, base: string)
  {
    Canon(p).rooted == Canon(base).rooted && Canon(base).elems <= Canon(p).elems
  }

  // ---------------------------------------------------------------------
  // The stack reading

  lemma {:induction false} ResolveAppend(rooted: bool, stack: seq<string>, xs: seq<string>, ys: seq<string>)
    ensures Resolve(rooted, stack, xs + ys) == Resolve(rooted, Resolve(rooted, stack, xs), ys)
    decreases |ys|
  {
    if ys == [] {
      assert xs + ys == xs;
    } else {
      var n := |ys| - 1;
      assert (xs + ys)[..|xs + ys| - 1] == xs + ys[..n];
      assert (xs + ys)[|xs + ys| - 1] == ys[n];
      ResolveAppend(rooted, stack, xs, ys[..n]);
    }
  }

  /** Names are pushed one by one. */
  lemma {:induction false} ResolveNames(rooted: bool, stack: seq<string>, names: seq<string>)
    requires forall i :: 0 <= i < |names| ==> IsName(names[i])
    ensures Resolve(rooted, stack, names) == stack + names
    decreases |names|
  {
    if names != [] {
      var n := |names| - 1;
      ResolveNames(rooted, stack, names[..n]);
      assert stack + names[..n] + [names[n]] == stack + names;
    }
  }

  lemma StepValid(rooted: bool, stack: seq<string>, e: string)
    requires ValidElems(rooted, stack) && '/' !in e
    ensures ValidElems(rooted, Step(rooted, stack, e))
  {
    var r := Step(rooted, stack, e);
    if e != "" && e != "." && e == ".." && !(|stack| > 0 && stack[|stack| - 1] != "..") && !rooted {
      forall i, j | 0 <= i < j < |r| && r[j] == ".." ensures r[i] == ".." {
        if j < |stack| {
          assert r[j] == stack[j];
        } else {
          assert stack[|stack| - 1] == "..";
        }
      }
    }
  }

  /** Reading separator-free elements keeps a canonical stack canonical. */
  lemma {:induction false} ResolveValid(rooted: bool, stack: seq<string>, es: seq<string>)
    requires ValidElems(rooted, stack) && NoSep(es, '/')
    ensures ValidElems(rooted, Resolve(rooted, stack, es))
    decreases |es|
  {
    if es != [] {
      var n := |es| - 1;
      assert NoSep(es[..n], '/') by {
        forall i | 0 <= i < n ensures '/' !in es[..n][i] {
          assert es[..n][i] == es[i];
        }
      }
      ResolveValid(rooted, stack, es[..n]);
      StepValid(rooted, Resolve(rooted, stack, es[..n]), es[n]);
    }
  }

  /** A canonical sequence of elements reads back as itself. */
  lemma {:induction false} ResolveCanonical(rooted: bool, es: seq<string>)
    requires ValidElems(rooted, es)
    ensures Resolve(rooted, [], es) == es
    decreases |es|
  {
    if es != [] {
      var n := |es| - 1;
      assert ValidElems(rooted, es[..n]);
      ResolveCanonical(rooted, es[..n]);
      assert es[..n] + [es[n]] == es;
      if es[n] == ".." && n > 0 {
        assert es[n - 1] == "..";
      }
    }
  }

  /** Reading elements onto a stack has the same effect as first resolving
      them on their own (relative, from nothing) and reading the result. */
  lemma {:induction false} ResolveThroughRel(rooted: bool, stack: seq<string>, es: seq<string>)
    requires NoSep(es, '/')
    ensures Resolve(rooted, stack, es) == Resolve(rooted, stack, Resolve(false, [], es))
    decreases |es|
  {
    if es != [] {
      var n := |es| - 1;
      var init, x := es[..n], es[n];
      assert NoSep(init, '/') by {
        forall i | 0 <= i < n ensures '/' !in init[i] {
          assert init[i] == es[i];
        }
      }
      ResolveThroughRel(rooted, stack, init);
      var rel := Resolve(false, [], init);
      ResolveValid(false, [], init);
      if x == ".." && |rel| > 0 && rel[|rel| - 1] != ".." {
        var m := |rel| - 1;
        assert IsName(rel[m]);
        assert rel == rel[..m] + [rel[m]];
        assert Resolve(rooted, stack, rel) == Step(rooted, Resolve(rooted, stack, rel[..m]), rel[m]);
      } else if x == ".." {
        assert (rel + [".."])[..|rel|] == rel;
      } else if x != "" && x != "." {
        assert (rel + [x])[..|rel|] == rel;
      }
    }
  }

  // ---------------------------------------------------------------------
  // Canonical forms and their rendering

  lemma CanonValid(p: string)
    ensures Valid(Canon(p))
  {
    SplitFieldsHaveNoSep(p, '/');
    ResolveValid(|p| > 0 && p[0] == '/', [], SplitOn(p, '/'));
  }

  lemma JoinWithStart(es: seq<string>)
    requires |es| >= 1 && es[0] != ""
    ensures JoinWith(es, '/') != "" && JoinWith(es, '/')[0] == es[0][0]
  {
  }

  lemma NoSepOfValid(c: Canonical)
    requires Valid(c)
    ensures NoSep(c.elems, '/')
  {
    forall i | 0 <= i < |c.elems| ensures '/' !in c.elems[i] {
      assert IsName(c.elems[i]) || c.elems[i] == "..";
    }
  }

  /** `"/"` and `"."` read as the root and the working directory. */
  lemma CanonRenderEmpty(rooted: bool)
    ensures Canon(Render(Canonical(rooted, []))) == Canonical(rooted, [])
  {
    if rooted {
      assert SplitOn("/", '/') == ["", ""] by {
        assert "/"[1..] == "";
      }
      assert Resolve(true, [], ["", ""]) == Resolve(true, [], [""]) by {
        assert ["", ""][..1] == [""];
      }
      assert Resolve(true, [], [""]) == [] by {
        assert [""][..0] == [];
      }
    } else {
      SplitWithoutSep(".", '/');
      assert Resolve(false, [], ["."]) == [] by {
        assert ["."][..0] == [];
      }
    }
  }

  /** The elements of a valid form, joined by `/`, split back into them and
      read back as themselves. */
  lemma ResolveJoined(c: Canonical)
    requires Valid(c) && c.elems != []
    ensures Resolve(c.rooted, [], SplitOn(JoinWith(c.elems, '/'), '/')) == c.elems
    ensures JoinWith(c.elems, '/') != "" && JoinWith(c.elems, '/')[0] != '/'
  {
    NoSepOfValid(c);
    SplitJoin(c.elems, '/');
    JoinWithStart(c.elems);
    ResolveCanonical(c.rooted, c.elems);
    assert c.elems[0] in c.elems;
  }

  /** Reading a rendered canonical form gives the form back. */
  lemma CanonRender(c: Canonical)
    requires Valid(c)
    ensures Canon(Render(c)) == c
  {
    if c.elems == [] {
      CanonRenderEmpty(c.rooted);
    } else {
      var j := JoinWith(c.elems, '/');
      ResolveJoined(c);
      if c.rooted {
        assert Render(c) == [] + ['/'] + j;
        SplitAround([], j, '/');
        assert SplitOn([], '/') == [""];
        ResolveAppend(true, [], [""], SplitOn(j, '/'));
        assert Resolve(true, [], [""]) == [] by {
          assert [""][..0] == [];
        }
      } else {
        assert Render(c) == j;
      }
    }
  }

  /** `filepath.Clean` is idempotent. */
  lemma CleanIdempotent(p: string)
    ensures Clean(Clean(p)) == Clean(p)
  {
    CanonValid(p);
    CanonRender(Canon(p));
  }

  /** Cleaning does not change how a path reads. */
  lemma CanonClean(p: string)
    ensures Canon(Clean(p)) == Canon(p)
  {
    CanonValid(p);
    CanonRender(Canon(p));
  }

  /** Two paths clean to the same string exactly when they read the same. */
  lemma CleanSameIffCanonSame(p: string, q: string)
    ensures Clean(p) == Clean(q) <==> Canon(p) == Canon(q)
  {
    CanonClean(p);
    CanonClean(q);
  }

  // ---------------------------------------------------------------------
  // Join

  /** A path followed by `/` and more text reads the more text onto the
      path's own reading. */
  lemma CanonAppend(x: string, y: string)
    requires x != ""
    ensures Canon(x + ['/'] + y) ==
      Canonical(Canon(x).rooted, Resolve(Canon(x).rooted, Canon(x).elems, SplitOn(y, '/')))
  {
    SplitAround(x, y, '/');
    assert (x + ['/'] + y)[0] == x[0];
    ResolveAppend(Canon(x).rooted, [], SplitOn(x, '/'), SplitOn(y, '/'));
  }

  /** Joining two paths reads the second one onto the first. */
  lemma CanonJoin2(base: string, f: string)
    requires base != ""
    ensures Canon(Join([base, f])) ==
      Canonical(Canon(base).rooted, Resolve(Canon(base).rooted, Canon(base).elems, SplitOn(f, '/')))
  {
    var s := base + ['/'] + f;
    assert JoinWith([base, f], '/') == s;
    CanonClean(s);
    CanonAppend(base, f);
  }

  /** A declared name whose relative reading does not climb (`..`) lands
      below `base`, at `base`'s elements followed by that reading. */
  lemma JoinStaysBelow(base: string, f: string)
    requires base != "" && ".." !in Rel(f)
    ensures Canon(Join([base, f])) == Canonical(Canon(base).rooted, Canon(base).elems + Rel(f))
    ensures Within(Join([base, f]), base)
  {
    CanonJoin2(base, f);
    SplitFieldsHaveNoSep(f, '/');
    ResolveThroughRel(Canon(base).rooted, Canon(base).elems, SplitOn(f, '/'));
    ResolveValid(false, [], SplitOn(f, '/'));
    var r := Rel(f);
    forall i | 0 <= i < |r| ensures IsName(r[i]) {
      assert r[i] in r;
    }
    ResolveNames(Canon(base).rooted, Canon(base).elems, r);
  }

  /** The relative reading of a single name is that name. */
  lemma RelOfName(a: string)
    requires IsName(a)
    ensures Rel(a) == [a]
  {
    SplitWithoutSep(a, '/');
    assert [a][..0] == [];
    assert Resolve(false, [], [a]) == Step(false, Resolve(false, [], []), a);
  }

  /** `Join(dir, id)` is the directory `id` directly inside `dir`. */
  lemma JoinName(dir: string, a: string)
    requires dir != "" && IsName(a)
    ensures Canon(Join([dir, a])) == Canonical(Canon(dir).rooted, Canon(dir).elems + [a])
    ensures Join([dir, a]) != ""
  {
    RelOfName(a);
    JoinStaysBelow(dir, a);
  }

  lemma ResolveSkipsEmpty(rooted: bool, stack: seq<string>, es: seq<string>)
    ensures Resolve(rooted, stack, [""] + es) == Resolve(rooted, stack, es)
  {
    ResolveAppend(rooted, stack, [""], es);
    assert [""][..0] == [];
  }

  lemma ResolvePushesName(rooted: bool, stack: seq<string>, a: string, es: seq<string>)
    requires IsName(a)
    ensures Resolve(rooted, stack, [a] + es) == Resolve(rooted, stack + [a], es)
  {
    ResolveAppend(rooted, stack, [a], es);
    assert [a][..0] == [];
  }

  lemma ResolveDotDotPops(rooted: bool, stack: seq<string>, a: string, es: seq<string>)
    requires IsName(a)
    ensures Resolve(rooted, stack + [a], [".."] + es) == Resolve(rooted, stack, es)
  {
    ResolveAppend(rooted, stack + [a], [".."], es);
    assert [".."][..0] == [];
    assert (stack + [a])[..|stack|] == stack;
  }

  lemma SplitLeadingSlash(y: string)
    ensures SplitOn(['/'] + y, '/') == [""] + SplitOn(y, '/')
  {
    assert (['/'] + y)[1..] == y;
  }

  /** The destination computed by the legacy server,
      `Join(uploads, id, "/", f)`, is the one computed by `Join(Join(uploads, id), f)`. */
  lemma JoinWithSlashElement(dir: string, id: string, f: string)
    requires dir != ""
    ensures Join([dir, id, "/", f]) == Join([Join([dir, id]), f])
  {
    var t := dir + ['/'] + id;
    var y := ['/'] + (['/'] + f);
    var s := t + ['/'] + y;
    assert [dir, id, "/", f][1..] == [id, "/", f];
    assert [id, "/", f][1..] == ["/", f];
    assert ["/", f][1..] == [f];
    assert JoinWith(["/", f], '/') == y;
    assert JoinWith([id, "/", f], '/') == id + ['/'] + y;
    assert JoinWith([dir, id, "/", f], '/') == dir + ['/'] + (id + ['/'] + y);
    assert JoinWith([dir, id, "/", f], '/') == s;
    assert t != "";
    CanonAppend(t, y);
    SplitLeadingSlash(['/'] + f);
    SplitLeadingSlash(f);
    var ct := Canon(t);
    ResolveSkipsEmpty(ct.rooted, ct.elems, [""] + SplitOn(f, '/'));
    ResolveSkipsEmpty(ct.rooted, ct.elems, SplitOn(f, '/'));
    assert Canon(s) == Canonical(ct.rooted, Resolve(ct.rooted, ct.elems, SplitOn(f, '/')));
    var j := Join([dir, id]);
    assert JoinWith([dir, id], '/') == t;
    CanonClean(t);
    CanonAppend(j, f);
    assert JoinWith([j, f], '/') == j + ['/'] + f;
    CleanSameIffCanonSame(s, j + ['/'] + f);
  }

  /** A declared name `../<b>/<g>` under `Join(dir, a)` lands in the tree of
      the sibling `b`: the join does not keep a name inside the directory it
      is joined to. */
  lemma DotDotReachesSibling(dir: string, a: string, b: string, g: string)
    requires dir != "" && IsName(a) && IsName(b) && ".." !in Rel(g)
    ensures Join([Join([dir, a]), "../" + b + "/" + g]) == Join([Join([dir, b]), g])
  {
    var d := Canon(dir);
    JoinName(dir, a);
    JoinName(dir, b);
    var xa, xb := Join([dir, a]), Join([dir, b]);
    var f := "../" + b + "/" + g;
    assert f == ".." + ['/'] + (b + ['/'] + g);
    SplitAround("..", b + ['/'] + g, '/');
    SplitAround(b, g, '/');
    SplitWithoutSep("..", '/');
    SplitWithoutSep(b, '/');
    assert SplitOn(f, '/') == [".."] + ([b] + SplitOn(g, '/'));
    CanonAppend(xa, f);
    ResolveDotDotPops(d.rooted, d.elems, a, [b] + SplitOn(g, '/'));
    ResolvePushesName(d.rooted, d.elems, b, SplitOn(g, '/'));
    CanonAppend(xb, g);
    assert JoinWith([xa, f], '/') == xa + ['/'] + f;
    assert JoinWith([xb, g], '/') == xb + ['/'] + g;
    CleanSameIffCanonSame(xa + ['/'] + f, xb + ['/'] + g);
  }

  /** With traversal-free names, what one identity uploads stays in its own
      directory and never enters another identity's directory. */
  lemma IdentitiesIsolated(dir: string, a: string, b: string, f: string)
    requires dir != "" && IsName(a) && IsName(b) && a != b && ".." !in Rel(f)
    ensures Within(Join([Join([dir, a]), f]), Join([dir, a]))
    ensures !Within(Join([Join([dir, a]), f]), Join([dir, b]))
  {
    JoinName(dir, a);
    JoinName(dir, b);
    assert [dir, a][1..] == [a];
    JoinStaysBelow(Join([dir, a]), f);
    var d := Canon(dir).elems;
    var p := Canon(Join([Join([dir, a]), f])).elems;
    assert p == d + [a] + Rel(f);
    assert p[|d|] == a;
    assert (d + [b])[|d|] == b;
  }

  // ---------------------------------------------------------------------
  // Dir

  lemma {:induction false} DirPrefixNoSep(t: string)
    requires '/' !in t
    ensures DirPrefix(t) == ""
    decreases |t|
  {
    if t != [] {
      assert t[|t| - 1] in t;
      DirPrefixNoSep(t[..|t| - 1]);
    }
  }

  lemma {:induction false} DirPrefixLast(q: string, t: string)
    requires '/' !in t
    ensures DirPrefix(q + ['/'] + t) == q + ['/']
    decreases |t|
  {
    if t != [] {
      var t' := t[..|t| - 1];
      assert t[|t| - 1] in t;
      assert '/' !in t' by {
        forall i | 0 <= i < |t'| ensures t'[i] != '/' {
          assert t'[i] == t[i];
        }
      }
      assert (q + ['/'] + t)[..|q + ['/'] + t| - 1] == q + ['/'] + t';
      DirPrefixLast(q, t');
    } else {
      assert q + ['/'] + t == q + ['/'];
    }
  }

  /** Cleaning ignores a trailing separator. */
  lemma CanonTrailingSlash(x: string)
    requires x != ""
    ensures Canon(x + ['/']) == Canon(x)
  {
    assert x + ['/'] == x + ['/'] + [];
    SplitAround(x, [], '/');
    assert SplitOn([], '/') == [""];
    assert (x + ['/'])[0] == x[0];
    var r := Canon(x).rooted;
    ResolveAppend(r, [], SplitOn(x, '/'), [""]);
    assert [""][..0] == [];
  }

  /** A leading `/` does not change a name's relative reading. */
  lemma RelOfRooted(f: string)
    ensures Rel("/" + f) == Rel(f)
  {
    assert "/" + f == ['/'] + f;
    SplitLeadingSlash(f);
    ResolveSkipsEmpty(false, [], SplitOn(f, '/'));
  }

  lemma RelOfEmpty()
    ensures Rel("") == []
  {
    assert SplitOn("", '/') == [""];
  }

  lemma CleanEmpty()
    ensures Clean("") == "."
  {
    assert SplitOn("", '/') == [""];
    assert [""][..0] == [];
    assert Resolve(false, [], [""]) == Step(false, Resolve(false, [], []), "");
  }

  lemma DirOfSingle(rooted: bool, last: string)
    requires IsName(last) || (!rooted && last == "..")
    ensures Dir(Render(Canonical(rooted, [last]))) == Render(Canonical(rooted, []))
  {
    assert '/' !in last;
    assert JoinWith([last], '/') == last;
    if rooted {
      assert Render(Canonical(rooted, [last])) == [] + ['/'] + last;
      DirPrefixLast([], last);
      assert [] + ['/'] == "/";
      CanonRender(Canonical(true, []));
    } else {
      assert Render(Canonical(rooted, [last])) == last;
      DirPrefixNoSep(last);
      CleanEmpty();
    }
  }

  lemma RenderAppend(c: Canonical, last: string)
    requires c.elems != []
    ensures Render(Canonical(c.rooted, c.elems + [last])) == Render(c) + ['/'] + last
  {
    JoinAppend(c.elems, [last], '/');
    if c.rooted {
      assert Render(Canonical(c.rooted, c.elems + [last])) == "/" + (JoinWith(c.elems, '/') + ['/'] + last);
    }
  }

  /** `Dir` of a clean path drops its last element. */
  lemma DirOfClean(c: Canonical)
    requires Valid(c) && c.elems != []
    ensures Dir(Render(c)) == Render(Canonical(c.rooted, c.elems[..|c.elems| - 1]))
  {
    var n := |c.elems| - 1;
    var init, last := c.elems[..n], c.elems[n];
    var ic := Canonical(c.rooted, init);
    assert IsName(last) || (!c.rooted && last == "..");
    if n == 0 {
      assert c.elems == [last];
      DirOfSingle(c.rooted, last);
    } else {
      assert c.elems == init + [last];
      RenderAppend(ic, last);
      DirPrefixLast(Render(ic), last);
      assert Valid(ic);
      assert Render(ic) != "" by {
        JoinWithStart(init);
      }
      CanonTrailingSlash(Render(ic));
      CanonRender(ic);
    }
  }

  /** What `Join` returns is clean, or empty. */
  lemma {:induction false} JoinIsClean(elems: seq<string>)
    ensures Join(elems) == "" || Join(elems) == Clean(Join(elems))
    decreases |elems|
  {
    if elems != [] {
      if elems[0] != "" {
        CleanIdempotent(JoinWith(elems, '/'));
      } else {
        JoinIsClean(elems[1..]);
      }
    }
  }
}
