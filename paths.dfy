/** The POSIX `os.path` functions the modelled code uses (`/` is the only separator). */
module Paths {
  import opened Strings

  /** Index of the last occurrence of `c` in `s`, or -1 (Python's `s.rfind(c)`). */
  function RFind(s: string, c: char): (i: int)
    ensures -1 <= i < |s|
    ensures i >= 0 ==> s[i] == c
    ensures forall j :: i < j < |s| ==> s[j] != c
  {
    if s == [] then -1
    else if s[|s| - 1] == c then |s| - 1
    else RFind(s[..|s| - 1], c)
  }

  /** `os.path.join(a, b)`: an absolute `b` replaces `a`; otherwise one `/` in between. */
  function Join(a: string, b: string): (r: string)
    ensures StartsWith(b, "/") ==> r == b
  {
    if StartsWith(b, "/") then b
    else if a == [] || EndsWith(a, "/") then a + b
    else a + "/" + b
  }

  /** `os.path.basename(p)`: everything after the last `/`. */
  function BaseName(p: string): (r: string)
    ensures '/' !in r
    ensures EndsWith(p, r)
  {
    var i := RFind(p, '/') + 1;
    assert forall j :: 0 <= j < |p[i..]| ==> p[i..][j] == p[i + j];
    p[i..]
  }

  function RStripSlashes(s: string): (r: string)
    ensures StartsWith(s, r)
  {
    if s != [] && s[|s| - 1] == '/' then RStripSlashes(s[..|s| - 1]) else s
  }

  predicate AllSlashes(s: string) {
    forall j :: 0 <= j < |s| ==> s[j] == '/'
  }

  /** `os.path.dirname(p)`: up to the last `/`, trailing slashes removed unless only slashes. */
  function DirName(p: string): string {
    var head := p[..RFind(p, '/') + 1];
    if head != [] && !AllSlashes(head) then RStripSlashes(head) else head
  }

  /** `os.path.splitext(p)`: the extension starts at the last dot of the base name, unless
      that base name consists of leading dots up to it. */
  function SplitExt(p: string): (r: (string, string))
    ensures r.0 + r.1 == p
  {
    var sep := RFind(p, '/');
    var dot := RFind(p, '.');
    if dot > sep && exists j :: sep + 1 <= j < dot && p[j] != '.' then (p[..dot], p[dot..])
    else (p, "")
  }

  // ---------------------------------------------------------------------------
  // Lemmas

  lemma RFindAfter(d: string, b: string, c: char)
    requires c !in b
    ensures RFind(d + [c] + b, c) == |d|
    decreases |b|
  {
    var s := d + [c] + b;
    if b != [] {
      assert s[..|s| - 1] == d + [c] + b[..|b| - 1];
      RFindAfter(d, b[..|b| - 1], c);
    } else {
      assert s[|s| - 1] == c;
    }
  }

  /** The base name of a file joined under a directory is that file's name. */
  lemma BaseNameOfJoin(d: string, b: string)
    requires d != [] && !EndsWith(d, "/")
    requires b != [] && '/' !in b
    ensures BaseName(Join(d, b)) == b
  {
    assert !StartsWith(b, "/");
    assert Join(d, b) == d + ['/'] + b;
    RFindAfter(d, b, '/');
    assert (d + ['/'] + b)[|d| + 1..] == b;
  }

  /** The directory of a file joined under a directory without trailing slash is that directory. */
  lemma DirNameOfJoin(d: string, b: string)
    requires d != [] && !EndsWith(d, "/")
    requires '/' !in b
    ensures DirName(Join(d, b)) == d
  {
    var s := d + ['/'] + b;
    assert Join(d, b) == s;
    RFindAfter(d, b, '/');
    var head := s[..|d| + 1];
    assert head == d + ['/'];
    assert head[|head| - 1] == '/';
    assert head[..|head| - 1] == d;
    assert d[|d| - 1..] == [d[|d| - 1]];
    assert !AllSlashes(head);
    assert RStripSlashes(head) == RStripSlashes(d);
  }
}
