/** The handful of Python string operations the importer relies on:
    `str.strip`, `str.lower().endswith`, `str.split` with a one-character
    separator, `int(str)` on decimal text, and the POSIX `os.path`
    functions `basename`, `dirname` and `join`. */
module Text {
  import opened Wrappers

  /** Python's `str.isspace()`: the characters `str.strip()` removes. */
  predicate IsSpace(c: char) {
    || ('\t' <= c <= '\r')
    || ('\U{1C}' <= c <= '\U{1F}')
    || c == ' '
    || c == '\U{85}'
    || c == '\U{A0}'
    || c == '\U{1680}'
    || ('\U{2000}' <= c <= '\U{200A}')
    || c == '\U{2028}'
    || c == '\U{2029}'
    || c == '\U{202F}'
    || c == '\U{205F}'
    || c == '\U{3000}'
  }

  /** `s.lstrip()`: the suffix of `s` left after dropping leading white space. */
  function TrimLeft(s: string): (r: string)
    ensures |r| <= |s| && r == s[|s| - |r|..]
    ensures forall k :: 0 <= k < |s| - |r| ==> IsSpace(s[k])
    ensures r == [] || !IsSpace(r[0])
    decreases |s|
  {
    if s != [] && IsSpace(s[0]) then TrimLeft(s[1..]) else s
  }

  /** `s.rstrip()`: the prefix of `s` left after dropping trailing white space. */
  function TrimRight(s: string): (r: string)
    ensures |r| <= |s| && r == s[..|r|]
    ensures forall k :: |r| <= k < |s| ==> IsSpace(s[k])
    ensures r == [] || !IsSpace(r[|r| - 1])
    decreases |s|
  {
    if s != [] && IsSpace(s[|s| - 1]) then TrimRight(s[..|s| - 1]) else s
  }

  /** `s.strip()`. */
  function Strip(s: string): string {
    TrimRight(TrimLeft(s))
  }

  /** Every character of `s` is white space. */
  predicate IsBlank(s: string) {
    forall k :: 0 <= k < |s| ==> IsSpace(s[k])
  }

  /** A string is blank after `strip()` exactly when every character of it is white space. */
  lemma StripEmptyIffBlank(s: string)
    ensures Strip(s) == [] <==> IsBlank(s)
  {
    var l := TrimLeft(s);
    if Strip(s) == [] {
      assert l == [];
    } else {
      var r := TrimRight(l);
      assert r[0] == l[0];
      assert l[0] == s[|s| - |l|];
    }
  }

  /** The ASCII case mapping of `str.lower()`. */
  function LowerChar(c: char): char {
    if 'A' <= c <= 'Z' then (c as int + 32) as char else c
  }

  function Lower(s: string): (r: string)
    ensures |r| == |s|
  {
    seq(|s|, i requires 0 <= i < |s| => LowerChar(s[i]))
  }

  /** Lower-casing twice is lower-casing once. */
  lemma LowerIdempotent(s: string)
    ensures Lower(Lower(s)) == Lower(s)
  {
  }

  predicate EndsWith(s: string, suffix: string) {
    |suffix| <= |s| && s[|s| - |suffix|..] == suffix
  }

  /** `s.lower().endswith(suffix)` for a lower-case `suffix`. */
  predicate EndsWithIgnoreCase(s: string, suffix: string) {
    EndsWith(Lower(s), suffix)
  }

  /** The suffix test ignores the case of the examined string, and only of it. */
  lemma EndsWithIgnoreCaseMeaning(s: string, suffix: string)
    ensures EndsWithIgnoreCase(s, suffix) <==>
      |suffix| <= |s| &&
      forall k :: 0 <= k < |suffix| ==> LowerChar(s[|s| - |suffix| + k]) == suffix[k]
  {
    if |suffix| <= |s| {
      var tail := Lower(s)[|s| - |suffix|..];
      if forall k :: 0 <= k < |suffix| ==> LowerChar(s[|s| - |suffix| + k]) == suffix[k] {
        assert forall k :: 0 <= k < |suffix| ==> tail[k] == suffix[k];
        assert tail == suffix;
      }
      if tail == suffix {
        forall k | 0 <= k < |suffix|
          ensures LowerChar(s[|s| - |suffix| + k]) == suffix[k]
        {
          assert tail[k] == suffix[k];
        }
      }
    }
  }

  // ---------------------------------------------------------------------
  // str.split(sep) and its inverse sep.join(parts)

  /** `s.split(sep)` for a one-character separator: never empty, and no part holds `sep`. */
  function Split(s: string, sep: char): (parts: seq<string>)
    ensures |parts| >= 1
    ensures forall i :: 0 <= i < |parts| ==> sep !in parts[i]
    decreases |s|
  {
    if s == [] then [[]]
    else
      var rest := Split(s[1..], sep);
      if s[0] == sep then [[]] + rest
      else [[s[0]] + rest[0]] + rest[1..]
  }

  /** `sep.join(parts)`. */
  function JoinWith(parts: seq<string>, sep: char): string
    requires |parts| >= 1
    decreases |parts|
  {
    if |parts| == 1 then parts[0] else parts[0] + [sep] + JoinWith(parts[1..], sep)
  }

  /** Splitting and joining back gives the original text. */
  lemma {:induction false} JoinSplit(s: string, sep: char)
    ensures JoinWith(Split(s, sep), sep) == s
    decreases |s|
  {
    if s != [] {
      var rest := Split(s[1..], sep);
      JoinSplit(s[1..], sep);
      if s[0] == sep {
        assert Split(s, sep) == [[]] + rest;
        assert ([[]] + rest)[1..] == rest;
      } else {
        var parts := Split(s, sep);
        assert parts == [[s[0]] + rest[0]] + rest[1..];
        if |rest| == 1 {
          assert JoinWith(parts, sep) == [s[0]] + rest[0];
        } else {
          assert parts[1..] == rest[1..];
          assert JoinWith(parts, sep) == ([s[0]] + rest[0]) + [sep] + JoinWith(rest[1..], sep);
          assert JoinWith(rest, sep) == rest[0] + [sep] + JoinWith(rest[1..], sep);
        }
        assert s == [s[0]] + s[1..];
      }
    }
  }

  /** Text without the separator splits into one part. */
  lemma {:induction false} SplitNoSeparator(s: string, sep: char)
    requires sep !in s
    ensures Split(s, sep) == [s]
    decreases |s|
  {
    if s != [] {
      assert sep !in s[1..];
      SplitNoSeparator(s[1..], sep);
      assert s == [s[0]] + s[1..];
    }
  }

  /** A separator after a part without separators cuts exactly there. */
  lemma {:induction false} SplitAtSeparator(a: string, sep: char, b: string)
    requires sep !in a
    ensures Split(a + [sep] + b, sep) == [a] + Split(b, sep)
    decreases |a|
  {
    if a == [] {
      assert a + [sep] + b == [sep] + b;
      assert ([sep] + b)[1..] == b;
    } else {
      var s := a + [sep] + b;
      assert s[1..] == a[1..] + [sep] + b;
      assert sep !in a[1..];
      SplitAtSeparator(a[1..], sep, b);
      assert [a[0]] + a[1..] == a;
    }
  }

  /** Joining parts that hold no separator and splitting again gives the parts back. */
  lemma {:induction false} SplitJoin(parts: seq<string>, sep: char)
    requires |parts| >= 1
    requires forall i :: 0 <= i < |parts| ==> sep !in parts[i]
    ensures Split(JoinWith(parts, sep), sep) == parts
    decreases |parts|
  {
    if |parts| == 1 {
      SplitNoSeparator(parts[0], sep);
    } else {
      SplitJoin(parts[1..], sep);
      SplitAtSeparator(parts[0], sep, JoinWith(parts[1..], sep));
      assert [parts[0]] + parts[1..] == parts;
    }
  }

  // ---------------------------------------------------------------------
  // int(str) on decimal text, and its inverse str(n) for n >= 0

  predicate IsDigit(c: char) { '0' <= c <= '9' }

  function DigitValue(c: char): nat
    requires IsDigit(c)
  {
    c as int - '0' as int
  }

  function DigitChar(d: nat): (c: char)
    requires d < 10
    ensures IsDigit(c) && DigitValue(c) == d
  {
    ('0' as int + d) as char
  }

  /** A digit, or the underscore `int` allows between two digits (PEP 515). */
  predicate IsDigitOrUnderscore(c: char) { IsDigit(c) || c == '_' }

  /** The value of a run of decimal digits, most significant first;
      underscores add nothing. */
  function DigitsValue(s: string): nat
    requires forall k :: 0 <= k < |s| ==> IsDigitOrUnderscore(s[k])
    decreases |s|
  {
    if s == [] then 0
    else if s[|s| - 1] == '_' then DigitsValue(s[..|s| - 1])
    else
      assert IsDigitOrUnderscore(s[|s| - 1]);
      DigitsValue(s[..|s| - 1]) * 10 + DigitValue(s[|s| - 1])
  }

  /** The digits `int` accepts after the sign: digits and underscores,
      starting and ending with a digit, with no two underscores in a row,
      so that every underscore stands between two digits. */
  predicate Grouped(s: string) {
    && s != []
    && (forall k :: 0 <= k < |s| ==> IsDigitOrUnderscore(s[k]))
    && IsDigit(s[0]) && IsDigit(s[|s| - 1])
    && (forall k :: 0 < k < |s| && s[k] == '_' ==> s[k - 1] != '_')
  }

  function ParseDigits(s: string): Option<nat> {
    if Grouped(s) then Some(DigitsValue(s)) else None
  }

  /** Python's `int(s)`: surrounding white space, an optional sign and
      decimal digits grouped by single underscores; `None` stands for
      the raised `ValueError`. */
  function ParseInt(s: string): (r: Option<int>)
    ensures r.Some? ==> exists k :: 0 <= k < |s| && IsDigit(s[k])
  {
    var t := Strip(s);
    var tl := TrimLeft(s);
    assert t == tl[..|t|];
    if t != [] && (t[0] == '-' || t[0] == '+') then
      match ParseDigits(t[1..])
      case None => None
      case Some(d) =>
        assert IsDigit(t[1..][0]) && t[1..][0] == s[|s| - |tl| + 1];
        Some(if t[0] == '-' then -(d as int) else d as int)
    else
      match ParseDigits(t)
      case None => None
      case Some(d) =>
        assert IsDigit(t[0]) && t[0] == s[|s| - |tl|];
        Some(d)
  }

  /** An underscore between two runs does not change their value. */
  lemma {:induction false} DigitsValueUnderscore(a: string, b: string)
    requires forall k :: 0 <= k < |a| ==> IsDigitOrUnderscore(a[k])
    requires forall k :: 0 <= k < |b| ==> IsDigitOrUnderscore(b[k])
    ensures forall k :: 0 <= k < |a + "_" + b| ==> IsDigitOrUnderscore((a + "_" + b)[k])
    ensures forall k :: 0 <= k < |a + b| ==> IsDigitOrUnderscore((a + b)[k])
    ensures DigitsValue(a + "_" + b) == DigitsValue(a + b)
    decreases |b|
  {
    if b == [] {
      assert (a + "_" + b)[..|a|] == a;
      assert a + b == a;
    } else {
      var b' := b[..|b| - 1];
      DigitsValueUnderscore(a, b');
      assert (a + "_" + b)[..|a + "_" + b| - 1] == a + "_" + b';
      assert (a + b)[..|a + b| - 1] == a + b';
    }
  }

  /** Two digit groups stay a group when joined, with or without an underscore. */
  lemma GroupedJoin(a: string, b: string)
    requires Grouped(a) && Grouped(b)
    ensures Grouped(a + "_" + b) && Grouped(a + b)
  {
    var s, t := a + "_" + b, a + b;
    forall k | 0 <= k < |s| ensures IsDigitOrUnderscore(s[k]) {
      if k > |a| {
        assert s[k] == b[k - |a| - 1];
      } else if k < |a| {
        assert s[k] == a[k];
      }
    }
    forall k | 0 < k < |s| && s[k] == '_' ensures s[k - 1] != '_' {
      if k > |a| + 1 {
        assert s[k] == b[k - |a| - 1] && s[k - 1] == b[k - |a| - 2];
      } else if k < |a| {
        assert s[k] == a[k] && s[k - 1] == a[k - 1];
      }
    }
    forall k | 0 <= k < |t| ensures IsDigitOrUnderscore(t[k]) {
      if k >= |a| {
        assert t[k] == b[k - |a|];
      } else {
        assert t[k] == a[k];
      }
    }
    forall k | 0 < k < |t| && t[k] == '_' ensures t[k - 1] != '_' {
      if k > |a| {
        assert t[k] == b[k - |a|] && t[k - 1] == b[k - |a| - 1];
      } else if k < |a| {
        assert t[k] == a[k] && t[k - 1] == a[k - 1];
      }
    }
  }

  /** `int` reads a digit group as its value. */
  lemma ParseIntGrouped(s: string)
    requires Grouped(s)
    ensures ParseInt(s) == Some(DigitsValue(s) as int)
  {
    StripDigits(s);
  }

  /** `int` refuses text that starts or ends with an underscore, or holds two in a row. */
  lemma ParseIntMisplacedUnderscore(a: string, b: string)
    requires Grouped(a) && Grouped(b)
    ensures ParseInt("_" + a) == None && ParseInt(a + "_") == None && ParseInt(a + "__" + b) == None
  {
    var u, w, x := "_" + a, a + "_", a + "__" + b;
    assert u[|u| - 1] == a[|a| - 1] && u[0] == '_';
    StripUnspaced(u);
    assert w[0] == a[0] && w[|w| - 1] == '_';
    StripUnspaced(w);
    assert x[0] == a[0] && x[|x| - 1] == b[|b| - 1] && x[|a|] == '_' && x[|a| + 1] == '_';
    StripUnspaced(x);
  }

  /** `int` reads two digit groups joined by an underscore as the two
      groups written together (PEP 515), and refuses an underscore
      anywhere else. */
  lemma ParseIntUnderscore(a: string, b: string)
    requires Grouped(a) && Grouped(b)
    ensures ParseInt(a + "_" + b) == ParseInt(a + b) == Some(DigitsValue(a + b) as int)
    ensures ParseInt("_" + a) == None && ParseInt(a + "_") == None && ParseInt(a + "__" + b) == None
  {
    GroupedJoin(a, b);
    DigitsValueUnderscore(a, b);
    ParseIntGrouped(a + "_" + b);
    ParseIntGrouped(a + b);
    ParseIntMisplacedUnderscore(a, b);
  }

  /** `str(n)` for a natural number. */
  function NatToString(n: nat): (s: string)
    ensures |s| >= 1 && forall k :: 0 <= k < |s| ==> IsDigit(s[k])
  {
    if n < 10 then [DigitChar(n)] else NatToString(n / 10) + [DigitChar(n % 10)]
  }

  lemma {:induction false} DigitsOfNatToString(n: nat)
    ensures DigitsValue(NatToString(n)) == n
  {
    var s := NatToString(n);
    if n < 10 {
      assert s[..0] == [];
    } else {
      DigitsOfNatToString(n / 10);
      assert s[..|s| - 1] == NatToString(n / 10);
    }
  }

  /** `int(str(n)) == n`. */
  lemma ParseIntNatToString(n: nat)
    ensures ParseInt(NatToString(n)) == Some(n as int)
  {
    var s := NatToString(n);
    StripDigits(s);
    assert !(s[0] == '-' || s[0] == '+');
    assert ParseDigits(s) == Some(DigitsValue(s));
    DigitsOfNatToString(n);
  }

  /** Text that starts and ends with a digit has no white space to strip. */
  lemma StripDigits(s: string)
    requires s != [] && IsDigit(s[0]) && IsDigit(s[|s| - 1])
    ensures Strip(s) == s
  {
    StripUnspaced(s);
  }

  /** Text that neither starts nor ends with white space is its own `strip()`. */
  lemma StripUnspaced(s: string)
    requires s != [] && !IsSpace(s[0]) && !IsSpace(s[|s| - 1])
    ensures Strip(s) == s
  {
    assert TrimLeft(s) == s;
    assert TrimRight(s) == s;
  }

  // ---------------------------------------------------------------------
  // posixpath.basename, dirname and join

  /** `s.rfind(c)`. */
  function LastIndexOf(s: string, c: char): (r: int)
    ensures -1 <= r < |s|
    ensures r >= 0 ==> s[r] == c
    ensures forall k :: r < k < |s| ==> s[k] != c
    decreases |s|
  {
    if s == [] then -1
    else if s[|s| - 1] == c then |s| - 1
    else LastIndexOf(s[..|s| - 1], c)
  }

  /** `os.path.basename(p)`: what follows the last '/'. */
  function BaseName(p: string): (r: string)
    ensures '/' !in r && EndsWith(p, r)
  {
    p[LastIndexOf(p, '/') + 1..]
  }

  /** `s.rstrip('/')`. */
  function TrimTrailingSlashes(s: string): (r: string)
    ensures |r| <= |s| && r == s[..|r|]
    ensures forall k :: |r| <= k < |s| ==> s[k] == '/'
    ensures r == [] || r[|r| - 1] != '/'
    decreases |s|
  {
    if s != [] && s[|s| - 1] == '/' then TrimTrailingSlashes(s[..|s| - 1]) else s
  }

  /** `os.path.dirname(p)`: everything up to the last '/', without its
      trailing slashes unless it is made of slashes only. */
  function DirName(p: string): string {
    var head := p[..LastIndexOf(p, '/') + 1];
    if head != [] && exists k :: 0 <= k < |head| && head[k] != '/' then TrimTrailingSlashes(head) else head
  }

  /** `os.path.join(a, b)`. */
  function PathJoin(a: string, b: string): string {
    if b != [] && b[0] == '/' then b
    else if a == [] || a[|a| - 1] == '/' then a + b
    else a + "/" + b
  }

  /** A file name joined to a directory is the base name of the result. */
  lemma BaseNameOfJoin(dir: string, name: string)
    requires name != [] && '/' !in name
    ensures BaseName(PathJoin(dir, name)) == name
  {
    var p := PathJoin(dir, name);
    var i := LastIndexOf(p, '/');
    assert p[|p| - |name|..] == name;
    assert forall k :: |p| - |name| <= k < |p| ==> p[k] == name[k - (|p| - |name|)];
    if |p| > |name| {
      assert p[|p| - |name| - 1] == '/';
    }
    assert i == |p| - |name| - 1;
  }

  /** A prefix that ends in a single '/' loses exactly that slash to `rstrip('/')`. */
  lemma TrimOneTrailingSlash(head: string)
    requires |head| >= 2 && head[|head| - 1] == '/' && head[|head| - 2] != '/'
    ensures TrimTrailingSlashes(head) == head[..|head| - 1]
  {
    assert TrimTrailingSlashes(head) == TrimTrailingSlashes(head[..|head| - 1]);
  }

  /** The directory part of a path whose last '/' is not doubled. */
  lemma DirNameSingleSlash(p: string, i: int)
    requires i == LastIndexOf(p, '/') && i >= 1 && p[i - 1] != '/'
    ensures DirName(p) == p[..i]
  {
    var head := p[..i + 1];
    assert head[i - 1] != '/' && head[i] == '/';
    assert 0 <= i - 1 < |head| && head[i - 1] != '/';
    TrimOneTrailingSlash(head);
    assert head[..i] == p[..i];
  }

  /** A path's base name never begins with '/'. */
  lemma BaseNameNoLeadingSlash(p: string)
    ensures BaseName(p) == [] || BaseName(p)[0] != '/'
  {
  }

  lemma JoinDirNameBaseNameNoSlash(p: string)
    requires LastIndexOf(p, '/') == -1
    ensures PathJoin(DirName(p), BaseName(p)) == p
  {
    assert p[..0] == [];
    assert p[0..] == p;
  }

  lemma JoinDirNameBaseNameRoot(p: string)
    requires LastIndexOf(p, '/') == 0
    ensures PathJoin(DirName(p), BaseName(p)) == p
  {
    BaseNameNoLeadingSlash(p);
    assert DirName(p) == "/" by { assert p[..1] == "/"; }
    assert p == "/" + BaseName(p);
  }

  lemma JoinDirNameBaseNameNested(p: string, i: int)
    requires i == LastIndexOf(p, '/') && i >= 1 && p[i - 1] != '/'
    ensures PathJoin(DirName(p), BaseName(p)) == p
  {
    var d, b := p[..i], p[i + 1..];
    BaseNameNoLeadingSlash(p);
    DirNameSingleSlash(p, i);
    assert d[|d| - 1] == p[i - 1];
    JoinSlash(d, b);
    SplitAround(p, i);
  }

  /** A sequence is what precedes, sits at and follows an index. */
  lemma SplitAround(p: string, i: int)
    requires 0 <= i < |p| && p[i] == '/'
    ensures p == p[..i] + "/" + p[i + 1..]
  {
    assert p == p[..i] + [p[i]] + p[i + 1..];
  }

  /** Joining to a directory that does not end in '/' inserts one. */
  lemma JoinSlash(a: string, b: string)
    requires a != [] && a[|a| - 1] != '/' && (b == [] || b[0] != '/')
    ensures PathJoin(a, b) == a + "/" + b
  {
  }

  /** Splitting a path into directory and base name and joining them back
      gives the path, unless the last '/' is doubled. */
  lemma JoinDirNameBaseName(p: string)
    requires LastIndexOf(p, '/') < 1 || p[LastIndexOf(p, '/') - 1] != '/'
    ensures PathJoin(DirName(p), BaseName(p)) == p
  {
    var i := LastIndexOf(p, '/');
    if i == -1 {
      JoinDirNameBaseNameNoSlash(p);
    } else if i == 0 {
      JoinDirNameBaseNameRoot(p);
    } else {
      JoinDirNameBaseNameNested(p, i);
    }
  }
}
