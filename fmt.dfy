/** Go's `fmt.Sprintf` called with a format string and no operands: how
    the format's own text comes out.  Every `%` starts a directive; with no
    operands to consume, a directive prints either `%` (for `%%`) or one of
    `fmt`'s error markers. */
module Fmt {

  import opened Wrappers

  /** The flag characters a directive may carry after its `%`. */
  predicate IsFlag(c: char)
  {
    c == '#' || c == '0' || c == '+' || c == '-' || c == ' '
  }

  predicate IsDigit(c: char)
  {
    '0' <= c <= '9'
  }

  /** `s` without its leading flags; a suffix of `s`. */
  function DropFlags(s: string): (r: string)
    ensures |r| <= |s| && r == s[|s| - |r|..]
    ensures r != [] ==> !IsFlag(r[0])
  {
    if s != [] && IsFlag(s[0]) then DropFlags(s[1..]) else s
  }

  /** The largest number `fmt` keeps reading digits onto. */
  const TooLarge := 1000000

  /** `fmt`'s `parsenum`: `s` after the decimal number at its start, whose
      digits so far make `n`; `None` when the number already exceeds
      `TooLarge` and another digit follows, where `fmt` gives up on the
      rest of the format. */
  function SkipNumber(s: string, n: nat): (r: Option<string>)
    ensures r.Some? ==> |r.value| <= |s| && r.value == s[|s| - |r.value|..]
    ensures r.Some? && r.value != [] ==> !IsDigit(r.value[0])
    decreases |s|
  {
    if s != [] && IsDigit(s[0]) then
      if n > TooLarge then None else SkipNumber(s[1..], n * 10 + (s[0] as int - '0' as int))
    else Some(s)
  }

  /** What `fmt` prints for a directive it cannot finish; nothing of the
      format after it is printed. */
  const NoVerb := "%!(NOVERB)"

  /** `fmt.Sprintf(f)`.  Text outside directives is copied unchanged. */
  function Sprintf(f: string): string
    decreases |f|, 0
  {
    if f == [] then ""
    else if f[0] != '%' then [f[0]] + Sprintf(f[1..])
    else Directive(f[1..])
  }

  /** The output of the directive whose text (after the `%`) begins `d`,
      followed by the rest of the format.  Flags are skipped; a `*` width
      has no operand to take and prints `%!(BADWIDTH)`; a numeric width is
      skipped unless it is too large. */
  function Directive(d: string): string
    decreases |d|, 3
  {
    var a := DropFlags(d);
    if a != [] && a[0] == '*' then "%!(BADWIDTH)" + Precision(a[1..])
    else
      match SkipNumber(a, 0)
      case None => NoVerb
      case Some(w) => Precision(w)
  }

  /** The precision, read only when the `.` is followed by another
      character: a `*` has no operand and prints `%!(BADPREC)`; a numeric
      precision is skipped unless it is too large. */
  function Precision(w: string): string
    decreases |w|, 2
  {
    if |w| >= 2 && w[0] == '.' then
      if w[1] == '*' then "%!(BADPREC)" + Verb(w[2..])
      else
        match SkipNumber(w[1..], 0)
        case None => NoVerb
        case Some(v) => Verb(v)
    else Verb(w)
  }

  /** The verb: `%` prints `%`; any other verb `c` has no operand and
      prints `%!c(MISSING)`; a `%` with nothing after it prints
      `%!(NOVERB)`. */
  function Verb(v: string): string
    decreases |v|, 1
  {
    if v == [] then NoVerb
    else (if v[0] == '%' then "%" else "%!" + [v[0]] + "(MISSING)") + Sprintf(v[1..])
  }

  /** A format without `%` prints as itself. */
  lemma {:induction false} SprintfPlain(f: string)
    requires '%' !in f
    ensures Sprintf(f) == f
    decreases |f|
  {
    if f != [] {
      assert '%' !in f[1..] by {
        forall i | 0 <= i < |f[1..]| ensures f[1..][i] != '%' {
          assert f[1..][i] == f[i + 1];
        }
      }
      SprintfPlain(f[1..]);
    }
  }

  /** Text without `%` in front of a format is copied ahead of the rest. */
  lemma {:induction false} SprintfPlainPrefix(p: string, f: string)
    requires '%' !in p
    ensures Sprintf(p + f) == p + Sprintf(f)
    decreases |p|
  {
    if p != [] {
      var h, t := p[0], p[1..];
      assert p == [h] + t;
      assert h != '%' && '%' !in t;
      SprintfPlainPrefix(t, f);
      assert p + f == [h] + (t + f);
      assert ([h] + (t + f))[1..] == t + f;
    } else {
      assert p + f == f;
    }
  }

  /** `s` with every `%` doubled: the format that prints `s`. */
  function EscapePercent(s: string): (r: string)
    ensures |r| >= |s|
    decreases |s|
  {
    if s == [] then ""
    else (if s[0] == '%' then "%%" else [s[0]]) + EscapePercent(s[1..])
  }

  /** The directive `%%` prints a single `%`. */
  lemma DirectivePercent(rest: string)
    ensures Directive("%" + rest) == "%" + Sprintf(rest)
  {
    var d := "%" + rest;
    assert DropFlags(d) == d;
    assert SkipNumber(d, 0) == Some(d);
    assert Precision(d) == Verb(d);
    assert d[1..] == rest;
  }

  /** Escaping and formatting are inverse: the escaped text prints as the
      original. */
  lemma {:induction false} SprintfOfEscaped(s: string)
    ensures Sprintf(EscapePercent(s)) == s
    decreases |s|
  {
    if s != [] {
      var rest := EscapePercent(s[1..]);
      SprintfOfEscaped(s[1..]);
      if s[0] == '%' {
        var f := "%%" + rest;
        assert f[0] == '%' && f[1..] == "%" + rest;
        DirectivePercent(rest);
        assert Sprintf(f) == "%" + Sprintf(rest);
      } else {
        var f := [s[0]] + rest;
        assert f[0] == s[0] && f[1..] == rest;
        assert Sprintf(f) == [s[0]] + Sprintf(rest);
      }
      assert s == [s[0]] + s[1..];
    }
  }

  /** A one-digit width is skipped before a verb without operand. */
  lemma {:induction false} DirectiveWidthMissing(k: char, c: char, rest: string)
    requires IsDigit(k) && !IsFlag(k)
    requires !IsFlag(c) && !IsDigit(c) && c != '*' && c != '.' && c != '%'
    ensures Directive([k, c] + rest) == "%!" + [c] + "(MISSING)" + Sprintf(rest)
  {
    var w := [c] + rest;
    var e := [k, c] + rest;
    assert e[0] == k && e[1..] == w;
    assert w[0] == c && w[1..] == rest;
    assert DropFlags(e) == e;
    assert SkipNumber(w, k as int - '0' as int) == Some(w);
    assert SkipNumber(e, 0) == Some(w);
    assert Precision(w) == Verb(w);
  }

  /** A percent-encoded `~` (`%7E`) in text without any other `%` is read as
      a directive with width 7 and verb `E`, which has no operand. */
  lemma {:induction false} PercentEncodedTilde(host: string, tail: string)
    requires '%' !in host && '%' !in tail
    ensures Sprintf(host + "%7E" + tail) == host + "%!E(MISSING)" + tail
  {
    var f := ['%', '7', 'E'] + tail;
    var m := "%!" + ['E'] + "(MISSING)";
    assert Sprintf(f) == m + tail by {
      assert f[0] == '%' && f[1..] == ['7', 'E'] + tail;
      DirectiveWidthMissing('7', 'E', tail);
      SprintfPlain(tail);
    }
    assert Sprintf(host + f) == host + (m + tail) by {
      SprintfPlainPrefix(host, f);
    }
    assert host + "%7E" + tail == host + f;
    assert m == "%!E(MISSING)";
    assert host + (m + tail) == host + "%!E(MISSING)" + tail;
  }

  /** The number the decimal digits `ds` make when read onto `n`, as
      `parsenum` accumulates it. */
  function ReadDigits(ds: string, n: nat): nat
    requires forall i :: 0 <= i < |ds| ==> IsDigit(ds[i])
    decreases |ds|
  {
    if ds == [] then n
    else
      assert IsDigit(ds[0]);
      ReadDigits(ds[1..], n * 10 + (ds[0] as int - '0' as int))
  }

  /** When the first `k` digits of `s` already make more than 10^6 and a
      further digit follows them, `parsenum` gives up on the number. */
  lemma {:induction false} DigitsTooLarge(s: string, k: nat, n: nat)
    requires k < |s| && forall i :: 0 <= i <= k ==> IsDigit(s[i])
    requires ReadDigits(s[..k], n) > TooLarge
    ensures SkipNumber(s, n) == None
    decreases k
  {
    if k > 0 && n <= TooLarge {
      var m := n * 10 + (s[0] as int - '0' as int);
      assert s[..k][1..] == s[1..][..k - 1];
      DigitsTooLarge(s[1..], k - 1, m);
    }
  }

  /** A width whose first `k` digits already exceed 10^6 and which has a
      further digit stops the formatting: the directive prints
      `%!(NOVERB)` and nothing of what follows it is printed.  (A leading
      `0` would be a flag, so the width starts with another digit.) */
  lemma {:induction false} WidthTooLarge(w: string, k: nat)
    requires k < |w| && w[0] != '0' && forall i :: 0 <= i <= k ==> IsDigit(w[i])
    requires ReadDigits(w[..k], 0) > TooLarge
    ensures Sprintf("%" + w) == NoVerb
  {
    var f := "%" + w;
    assert f[0] == '%' && f[1..] == w;
    assert DropFlags(w) == w;
    DigitsTooLarge(w, k, 0);
  }

  /** The digits `1234567` make 1234567. */
  lemma {:induction false} SevenDigits(d: string)
    requires |d| == 7
    requires d[0] == '1' && d[1] == '2' && d[2] == '3' && d[3] == '4' && d[4] == '5' && d[5] == '6' && d[6] == '7'
    ensures ReadDigits(d, 0) == 1234567
  {
    assert ReadDigits(d[7..], 1234567) == 1234567;
    assert ReadDigits(d[6..], 123456) == 1234567 by { assert d[6..][1..] == d[7..]; }
    assert ReadDigits(d[5..], 12345) == 1234567 by { assert d[5..][1..] == d[6..]; }
    assert ReadDigits(d[4..], 1234) == 1234567 by { assert d[4..][1..] == d[5..]; }
    assert ReadDigits(d[3..], 123) == 1234567 by { assert d[3..][1..] == d[4..]; }
    assert ReadDigits(d[2..], 12) == 1234567 by { assert d[2..][1..] == d[3..]; }
    assert ReadDigits(d[1..], 1) == 1234567 by { assert d[1..][1..] == d[2..]; }
    assert d[0..] == d;
  }

  /** An instance: `%12345678`, whatever follows it, prints only
      `%!(NOVERB)`. */
  lemma EightDigitWidth(rest: string)
    ensures Sprintf("%12345678" + rest) == NoVerb
  {
    var f := "%12345678" + rest;
    var w := f[1..];
    assert f[0] == '%' && "%" + w == f;
    assert w[..7][0] == '1' && w[..7][1] == '2' && w[..7][2] == '3' && w[..7][3] == '4';
    assert w[..7][4] == '5' && w[..7][5] == '6' && w[..7][6] == '7';
    SevenDigits(w[..7]);
    assert IsDigit(w[7]);
    WidthTooLarge(w, 7);
  }
}
