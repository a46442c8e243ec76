/** The two `path` functions the core calls, with Node's posix semantics:
    `path.basename(p)` (ai-engine/src/ingest.ts) and `path.extname(p)`
    (server/src/index.ts). Both look at the last segment of the path, found
    by index: trailing slashes are skipped, then the segment runs back to the
    slash before it. */
module Paths {
  import opened Common

  predicate NoSlash(s: string) {
    forall i | 0 <= i < |s| :: s[i] != '/'
  }

  /** The end of `p[..n]` once its trailing slashes are dropped. */
  function TrimmedEnd(p: string, n: nat): (k: nat)
    requires n <= |p|
    ensures k <= n && (k == 0 || p[k - 1] != '/')
    ensures forall j | k <= j < n :: p[j] == '/'
    decreases n
  {
    if n > 0 && p[n - 1] == '/' then TrimmedEnd(p, n - 1) else n
  }

  /** Where the segment ending at `n` starts: just past the last slash
      before `n`, or 0 when there is none. */
  function SegmentStart(p: string, n: nat): (i: nat)
    requires n <= |p|
    ensures i <= n && (i > 0 ==> p[i - 1] == '/')
    ensures forall j | i <= j < n :: p[j] != '/'
    decreases n
  {
    if n == 0 then 0 else if p[n - 1] == '/' then n else SegmentStart(p, n - 1)
  }

  /** The bounds of the last segment of `p`. */
  function BaseEnd(p: string): (k: nat)
    ensures k <= |p|
  {
    TrimmedEnd(p, |p|)
  }

  function BaseStart(p: string): (i: nat)
    ensures i <= BaseEnd(p)
  {
    SegmentStart(p, BaseEnd(p))
  }

  /** `path.basename(p)`: the last segment, trailing slashes ignored. */
  function Basename(p: string): (r: string)
    ensures NoSlash(r)
  {
    var i, k := BaseStart(p), BaseEnd(p);
    assert forall j | 0 <= j < k - i :: p[i..k][j] == p[i + j];
    p[i..k]
  }

  /** The index of the last `.` of `p` in `[lo, hi)`, if any. */
  function LastDotIn(p: string, lo: nat, hi: nat): (r: Option<nat>)
    requires lo <= hi <= |p|
    ensures r.Some? ==> lo <= r.value < hi && p[r.value] == '.' && forall j | r.value < j < hi :: p[j] != '.'
    ensures r.None? ==> forall j | lo <= j < hi :: p[j] != '.'
    decreases hi - lo
  {
    if hi == lo then None
    else if p[hi - 1] == '.' then Some(hi - 1)
    else LastDotIn(p, lo, hi - 1)
  }

  /** `path.extname(p)`: from the last dot of the last segment to its end,
      or empty when the segment has no dot, starts with its last dot (a
      dotfile such as `.env`) or is `..`. */
  function Extname(p: string): (e: string)
    ensures e == "" || (e[0] == '.' && forall j | 0 < j < |e| :: e[j] != '.')
    ensures NoSlash(e)
  {
    var i, k := BaseStart(p), BaseEnd(p);
    var d := LastDotIn(p, i, k);
    if d.None? || d.value == i || (k - i == 2 && p[i] == '.' && p[i + 1] == '.') then ""
    else
      assert forall j | 0 <= j < k - d.value :: p[d.value..k][j] == p[d.value + j];
      p[d.value..k]
  }

  // ----------------------------------------------------------- properties

  /** The extension is the tail of the basename: both end where the last
      segment ends. */
  lemma ExtnameEndsBasename(p: string)
    ensures var b, e := Basename(p), Extname(p);
      |e| <= |b| && b[|b| - |e|..] == e
  {
    var i, k := BaseStart(p), BaseEnd(p);
    var d := LastDotIn(p, i, k);
    var b, e := Basename(p), Extname(p);
    if e != "" {
      assert e == p[d.value..k];
      assert b == p[i..k];
      assert b[|b| - |e|..] == p[d.value..k];
    }
  }

  /** A non-empty name without slashes is the last segment of itself. */
  lemma SegmentOfName(name: string)
    requires NoSlash(name) && |name| > 0
    ensures BaseEnd(name) == |name| && BaseStart(name) == 0
  {
    assert name[|name| - 1] != '/';
  }

  /** The basename of `dir/name` is `name`, for any directory part. */
  lemma BasenameOfJoin(dir: string, name: string)
    requires NoSlash(name) && |name| > 0
    ensures Basename(dir + "/" + name) == name
  {
    var s := dir + "/" + name;
    assert s[|s| - 1] == name[|name| - 1];
    assert BaseEnd(s) == |s|;
    assert s[|dir|] == '/';
    assert forall j | |dir| < j < |s| :: s[j] == name[j - |dir| - 1];
    var i := BaseStart(s);
    assert i == |dir| + 1;
    assert s[i..|s|] == name;
  }

  /** A name without slashes is its own basename. */
  lemma BasenameOfName(name: string)
    requires NoSlash(name)
    ensures Basename(name) == name
  {
    if |name| > 0 {
      SegmentOfName(name);
      assert name[0..|name|] == name;
    }
  }

  /** A stem without slashes or dots, then `.ext`, has extension `.ext`. */
  lemma ExtnameOfStem(stem: string, ext: string)
    requires |stem| > 0 && NoSlash(stem) && NoSlash(ext)
    requires forall j | 0 <= j < |stem| :: stem[j] != '.'
    requires forall j | 0 <= j < |ext| :: ext[j] != '.'
    ensures Extname(stem + "." + ext) == "." + ext
  {
    var e := "." + ext;
    assert forall i | 0 < i < |e| :: e[i] == ext[i - 1];
    assert stem + "." + ext == stem + e;
    ExtnameAfterStem(stem, e);
  }

  /** A name made of a stem without slashes or dots, not starting with a
      dot, and then an extension (empty, or a dot followed by no other dot)
      has that extension. */
  lemma ExtnameAfterStem(stem: string, e: string)
    requires |stem| > 0 && NoSlash(stem) && NoSlash(e)
    requires forall j | 0 <= j < |stem| :: stem[j] != '.'
    requires e == "" || (e[0] == '.' && forall j | 0 < j < |e| :: e[j] != '.')
    ensures Extname(stem + e) == e
  {
    var name := stem + e;
    assert forall i | 0 <= i < |stem| :: name[i] == stem[i];
    assert forall i | |stem| <= i < |name| :: name[i] == e[i - |stem|];
    SegmentOfName(name);
    var d := LastDotIn(name, 0, |name|);
    if e == "" {
      assert d.None?;
    } else {
      assert name[|stem|] == '.';
      assert d.Some?;
      assert d.value == |stem|;
      assert name[0] == stem[0];
      assert name[|stem|..|name|] == e;
    }
  }

  /** Dotfiles have no extension. */
  lemma DotfileHasNoExtname(rest: string)
    requires NoSlash(rest) && forall j | 0 <= j < |rest| :: rest[j] != '.'
    ensures Extname("." + rest) == ""
  {
    var name := "." + rest;
    assert forall i | 0 < i < |name| :: name[i] == rest[i - 1];
    SegmentOfName(name);
    var d := LastDotIn(name, 0, |name|);
    assert name[0] == '.';
    assert d.Some?;
    assert d.value == 0;
  }
}
