/** String-level models of the POSIX `os.path` and `pathlib` helpers that the
    dataset and the experiment script rely on. Paths are plain strings.
    Apart from the bounds of `LastIndexOf`, what the functions guarantee is
    stated by the lemmas beside them, so that proofs elsewhere only pay for
    these facts where they ask for them. */
module PathText {

  /** True when `p` is an absolute POSIX path. */
  predicate IsAbs(p: string) {
    |p| > 0 && p[0] == '/'
  }

  /** `os.path.join(a, b)` for two components on POSIX: an absolute `b`
      replaces `a`; otherwise a separator is inserted unless `a` is empty or
      already ends in one. */
  function Join(a: string, b: string): string {
    if IsAbs(b) then b
    else if a == [] || a[|a| - 1] == '/' then a + b
    else a + "/" + b
  }

  /** A relative component lands under the base, after at most one inserted
      separator; an absolute one replaces the base. */
  lemma JoinShape(a: string, b: string)
    ensures IsAbs(b) ==> Join(a, b) == b
    ensures !IsAbs(b) ==> a <= Join(a, b) && |Join(a, b)| >= |b| && Join(a, b)[|Join(a, b)| - |b|..] == b
    ensures !IsAbs(b) ==> |Join(a, b)| == |a| + |b| || (|Join(a, b)| == |a| + |b| + 1 && Join(a, b)[|a|] == '/')
  {
  }

  /** `os.path.abspath(p)` relative to the working directory `cwd`, without
      the `normpath` clean-up of `.`, `..` and repeated separators. */
  function Abspath(p: string, cwd: string): string {
    if IsAbs(p) then p else Join(cwd, p)
  }

  /** Index of the last occurrence of `c` in `s`, or -1 (Python's `rfind`). */
  function LastIndexOf(s: string, c: char): (r: int)
    ensures -1 <= r < |s|
    ensures r >= 0 ==> s[r] == c
  {
    if s == [] then -1
    else if s[|s| - 1] == c then |s| - 1
    else LastIndexOf(s[..|s| - 1], c)
  }

  /** Nothing after the index `LastIndexOf` returns is `c`. */
  lemma {:induction false} LastIndexOfIsLast(s: string, c: char)
    ensures forall k :: LastIndexOf(s, c) < k < |s| ==> s[k] != c
  {
    if s != [] && s[|s| - 1] != c {
      var init := s[..|s| - 1];
      LastIndexOfIsLast(init, c);
      assert forall k :: LastIndexOf(s, c) < k < |s| - 1 ==> s[k] == init[k];
    }
  }

  /** Appending text that holds no `c` leaves the last `c` where it was. */
  lemma {:induction false} LastIndexOfAppend(s: string, t: string, c: char)
    requires c !in t
    ensures LastIndexOf(s + t, c) == LastIndexOf(s, c)
  {
    if t == [] {
      assert s + t == s;
    } else {
      var init := t[..|t| - 1];
      assert (s + t)[..|s + t| - 1] == s + init;
      assert (s + t)[|s + t| - 1] == t[|t| - 1];
      LastIndexOfAppend(s, init, c);
    }
  }

  /** ASCII lower-casing of one character. */
  function LowerChar(c: char): char {
    if 'A' <= c <= 'Z' then (c as int + 32) as char else c
  }

  /** `str.lower()` restricted to ASCII letters. */
  function Lower(s: string): string {
    seq(|s|, i requires 0 <= i < |s| => LowerChar(s[i]))
  }

  /** Lower-casing moves no dot: it maps only letters to letters. */
  lemma {:induction false} LastIndexOfLower(s: string)
    ensures LastIndexOf(Lower(s), '.') == LastIndexOf(s, '.')
  {
    if s != [] {
      var init := s[..|s| - 1];
      assert Lower(s)[..|s| - 1] == Lower(init);
      LastIndexOfLower(init);
    }
  }

  /** The suffix of the lower-cased name is the lower-cased suffix, so
      `name.suffix.lower()` may be computed in either order. */
  lemma SuffixOfLower(name: string)
    ensures Suffix(Lower(name)) == Lower(Suffix(name))
  {
    LastIndexOfLower(name);
    var i := LastIndexOf(name, '.');
    if 0 < i < |name| - 1 {
      assert Lower(name)[i..] == Lower(name[i..]);
    }
  }

  /** `os.path.splitext(p)` on POSIX: the extension starts at the last dot of
      the last path component, and is empty when that dot is preceded only by
      dots within the component (hidden files such as `.bashrc`). */
  function SplitExt(p: string): (string, string) {
    var sep := LastIndexOf(p, '/');
    var dot := LastIndexOf(p, '.');
    if dot > sep && exists k :: sep < k < dot && p[k] != '.' then (p[..dot], p[dot..])
    else (p, "")
  }

  /** The two parts rebuild the path; a non-empty extension is one dot
      followed by no dot and no separator, and the part before it has a
      character other than a dot or a separator. */
  lemma SplitExtShape(p: string)
    ensures SplitExt(p).0 + SplitExt(p).1 == p
    ensures SplitExt(p).1 != "" ==>
      SplitExt(p).1[0] == '.' && '.' !in SplitExt(p).1[1..] && '/' !in SplitExt(p).1
    ensures SplitExt(p).1 != "" ==>
      exists k :: 0 <= k < |SplitExt(p).0| && SplitExt(p).0[k] != '.' && SplitExt(p).0[k] != '/'
  {
    var sep := LastIndexOf(p, '/');
    var dot := LastIndexOf(p, '.');
    LastIndexOfIsLast(p, '/');
    LastIndexOfIsLast(p, '.');
    if dot > sep && exists k :: sep < k < dot && p[k] != '.' {
      assert p[..dot] + p[dot..] == p;
      assert p[dot + 1..] == p[dot..][1..];
      var k :| sep < k < dot && p[k] != '.';
      assert p[k] == p[..dot][k];
      assert p[..dot][k] != '/';
      assert forall i :: 0 <= i < |p[dot..]| ==> p[dot..][i] == p[dot + i];
    }
  }

  /** `PurePath.suffix` of a final path component: from the last dot, provided
      that dot is neither the first nor the last character. */
  function Suffix(name: string): string {
    var i := LastIndexOf(name, '.');
    if 0 < i < |name| - 1 then name[i..] else ""
  }

  /** `PurePath.stem`: the final component without its suffix. */
  function Stem(name: string): string {
    var i := LastIndexOf(name, '.');
    if 0 < i < |name| - 1 then name[..i] else name
  }

  /** Stem and suffix split the name; a non-empty suffix is a dot followed by
      at least one character and no further dot, and never the whole name. */
  lemma StemSuffix(name: string)
    ensures Stem(name) + Suffix(name) == name
    ensures Suffix(name) != "" ==>
      Suffix(name)[0] == '.' && '.' !in Suffix(name)[1..] && 2 <= |Suffix(name)| < |name|
  {
    var i := LastIndexOf(name, '.');
    LastIndexOfIsLast(name, '.');
    if 0 < i < |name| - 1 {
      assert name[..i] + name[i..] == name;
      assert name[i..][1..] == name[i + 1..];
    }
  }

  /** A name `base.x` with a non-empty `base` and a non-empty, dot-free `x`
      has the stem `base` and the suffix `.x`. */
  lemma StemSuffixOfDotted(base: string, x: string)
    requires base != "" && x != "" && '.' !in x
    ensures Stem(base + "." + x) == base && Suffix(base + "." + x) == "." + x
  {
    var name := base + "." + x;
    LastIndexOfAppend(base + ".", x, '.');
    assert LastIndexOf(base + ".", '.') == |base|;
    assert name[..|base|] == base;
    assert name[|base|..] == "." + x;
  }
}
