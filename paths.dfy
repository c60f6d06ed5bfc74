/**
 * The part of POSIX `os.path` that the plugin uses to place the variables
 * sidecar file next to a query file, and the sidecar path itself.
 */
module Paths {
  import opened Wrappers

  /** Number of characters up to and including the last '/', 0 when there is none. */
  function SplitIndex(p: string): (i: nat)
    ensures i <= |p|
    ensures i > 0 ==> p[i - 1] == '/'
    ensures forall k :: i <= k < |p| ==> p[k] != '/'
  {
    if |p| == 0 then 0
    else if p[|p| - 1] == '/' then |p|
    else SplitIndex(p[..|p| - 1])
  }

  /** `os.path.basename`: everything after the last '/'. */
  function Basename(p: string): (r: string)
    ensures '/' !in r
    ensures |r| <= |p| && p == p[..|p| - |r|] + r
    ensures |r| < |p| ==> p[|p| - |r| - 1] == '/'
  {
    var i := SplitIndex(p);
    assert p == p[..i] + p[i..];
    p[i..]
  }

  predicate AllSlashes(s: string) {
    forall k :: 0 <= k < |s| ==> s[k] == '/'
  }

  /** `head.rstrip('/')` */
  function StripTrailingSlashes(s: string): (r: string)
    ensures r <= s
    ensures r == [] || r[|r| - 1] != '/'
    ensures r == [] ==> AllSlashes(s)
    ensures AllSlashes(s[|r|..])
  {
    if |s| > 0 && s[|s| - 1] == '/' then StripTrailingSlashes(s[..|s| - 1]) else s
  }

  /**
   * `os.path.dirname`: everything before the last '/', with trailing slashes
   * removed unless the head consists of slashes only (the root "/" or "//").
   */
  function Dirname(p: string): (r: string)
    ensures var head := p[..SplitIndex(p)]; r <= head && AllSlashes(head[|r|..]) && (AllSlashes(head) ==> r == head)
    ensures r == [] || AllSlashes(r) || r[|r| - 1] != '/'
  {
    var head := p[..SplitIndex(p)];
    if head != [] && !AllSlashes(head) then StripTrailingSlashes(head) else head
  }

  /** `os.path.join(a, b)` for two components. */
  function Join(a: string, b: string): string {
    if |b| > 0 && b[0] == '/' then b
    else if a == [] || a[|a| - 1] == '/' then a + b
    else a + "/" + b
  }

  /** Index of the last '.' in `s`, if any. */
  function LastDot(s: string): (r: Option<nat>)
    ensures r.None? ==> '.' !in s
    ensures r.Some? ==> r.value < |s| && s[r.value] == '.' && '.' !in s[r.value + 1..]
  {
    if |s| == 0 then None
    else if s[|s| - 1] == '.' then Some(|s| - 1)
    else
      var r := LastDot(s[..|s| - 1]);
      assert r.Some? ==> s[r.value + 1..] == s[..|s| - 1][r.value + 1..] + [s[|s| - 1]];
      r
  }

  /** Is there a character other than '.' among the first `d` characters of `s`? */
  predicate HasNonDotBefore(s: string, d: nat)
    requires d <= |s|
  {
    exists k :: 0 <= k < d && s[k] != '.'
  }

  /**
   * The root that `os.path.splitext` gives for a name without '/': the last
   * extension is cut off, unless the only dots before it are leading ones
   * (".env" and "..x" keep their whole name).
   */
  function SplitExtRoot(name: string): string {
    match LastDot(name)
    case None => name
    case Some(d) => if HasNonDotBefore(name, d) then name[..d] else name
  }

  /**
   * The root is the name itself, or the name with exactly its last extension
   * (one '.' and what follows it) removed; the latter exactly when the name
   * has a dot preceded by something other than leading dots.
   */
  lemma SplitExtRootRemovesLastExtension(name: string)
    ensures var r := SplitExtRoot(name);
      && r <= name
      && (r != name <==> exists k :: 0 <= k < |name| && name[k] == '.' && HasNonDotBefore(name, k))
      && (r != name ==> name[|r|] == '.' && '.' !in name[|r| + 1..] && HasNonDotBefore(name, |r|))
  {
    var r := SplitExtRoot(name);
    match LastDot(name)
    case None =>
    case Some(d) =>
      if !HasNonDotBefore(name, d) {
        forall k | 0 <= k < |name| && name[k] == '.'
          ensures !HasNonDotBefore(name, k)
        {
        }
      }
  }

  /** The sidecar file name for a source file name: its root plus ".var.json". */
  function VariablesFileName(name: string): string {
    SplitExtRoot(name) + ".var.json"
  }

  /**
   * `getQueryVariablesFile`: no path for a buffer that was never saved,
   * otherwise the sidecar in the same directory as the buffer's file.
   */
  function QueryVariablesFile(fileName: Option<string>): (r: Option<string>)
    ensures r.None? <==> fileName.None?
  {
    match fileName
    case None => None
    case Some(p) => Some(Join(Dirname(p), VariablesFileName(Basename(p))))
  }

  /** `os.path.basename` of a name that has no '/' is the name. */
  lemma BasenameOfSlashFree(d: string, f: string)
    requires '/' !in f
    requires d == [] || d[|d| - 1] == '/'
    ensures SplitIndex(d + f) == |d|
  {
    if f == [] {
      assert d + f == d;
    } else {
      var p := d + f;
      assert p[..|p| - 1] == d + f[..|f| - 1];
      BasenameOfSlashFree(d, f[..|f| - 1]);
    }
  }

  /**
   * Joining a directory as `Dirname` returns it with a plain file name, and
   * splitting the result again, gives back that directory and that name.
   */
  lemma {:induction false} JoinSplits(d: string, f: string)
    requires '/' !in f && f != []
    requires d == [] || AllSlashes(d) || d[|d| - 1] != '/'
    ensures Dirname(Join(d, f)) == d
    ensures Basename(Join(d, f)) == f
  {
    var j := Join(d, f);
    var sep := if d == [] || d[|d| - 1] == '/' then d else d + "/";
    assert j == sep + f;
    BasenameOfSlashFree(sep, f);
    assert j[..SplitIndex(j)] == sep;
    if d != [] && d[|d| - 1] != '/' {
      assert !AllSlashes(sep) by { assert sep[|d| - 1] != '/'; }
      assert sep[..|sep| - 1] == d;
      assert StripTrailingSlashes(sep) == StripTrailingSlashes(d) == d;
    }
  }

  /**
   * The sidecar lies in the same directory as the query file, and its name
   * is the query file's root (only the last extension removed) followed by
   * ".var.json".
   */
  lemma QueryVariablesFileIsSibling(p: string)
    ensures var v := QueryVariablesFile(Some(p)).value;
      && Dirname(v) == Dirname(p)
      && Basename(v) == SplitExtRoot(Basename(p)) + ".var.json"
  {
    var f := VariablesFileName(Basename(p));
    VariablesFileNameIsPlain(Basename(p));
    JoinSplits(Dirname(p), f);
  }

  /** The sidecar name of a plain file name is a plain, non-empty file name. */
  lemma VariablesFileNameIsPlain(name: string)
    requires '/' !in name
    ensures '/' !in VariablesFileName(name) && VariablesFileName(name) != []
  {
    var r := SplitExtRoot(name);
    SplitExtRootRemovesLastExtension(name);
    assert forall k :: 0 <= k < |r| ==> r[k] == name[k];
    assert '/' !in ".var.json";
  }


  /** The last dot of `a + "." + b` is the one after `a` when `b` has none. */
  lemma {:induction false} LastDotBefore(a: string, b: string)
    requires '.' !in b
    ensures LastDot(a + "." + b) == Some(|a|)
  {
    var s := a + "." + b;
    if b != [] {
      assert s[..|s| - 1] == a + "." + b[..|b| - 1];
      LastDotBefore(a, b[..|b| - 1]);
    }
  }

  /**
   * Only the last extension is removed: the root of `stem + "." + ext` is
   * `stem`, dots inside `stem` included, when `stem` is not made of dots only.
   */
  lemma SplitExtRootOfExtension(stem: string, ext: string)
    requires '.' !in ext
    requires exists k :: 0 <= k < |stem| && stem[k] != '.'
    ensures SplitExtRoot(stem + "." + ext) == stem
  {
    var name := stem + "." + ext;
    LastDotBefore(stem, ext);
    var k :| 0 <= k < |stem| && stem[k] != '.';
    assert name[k] == stem[k];
    assert name[..|stem|] == stem;
  }

  /** Leading dots are not extension separators: ".graphql" and "..x" are roots of their own. */
  lemma SplitExtRootOfDotName(dots: string, ext: string)
    requires '.' !in ext
    requires forall k :: 0 <= k < |dots| ==> dots[k] == '.'
    ensures SplitExtRoot(dots + "." + ext) == dots + "." + ext
  {
    LastDotBefore(dots, ext);
  }
}
