/**
 * Slash-separated source-file paths, as Go's `path/filepath` treats them,
 * viewed as sequences of segments: `/a/b/c/d/file.go` is
 * ["a", "b", "c", "d", "file.go"].
 */
module FilePaths {
  import GoStrings

  type Path = seq<string>

  /** `filepath.Dir`: the path without its last segment. */
  function Dir(p: Path): (r: Path)
    ensures |p| == 0 ==> r == []
    ensures |p| > 0 ==> p == r + [Base(p)]
  {
    if |p| == 0 then [] else p[..|p| - 1]
  }

  /** `filepath.Base`: the last segment; "." for an empty path, as in Go. */
  function Base(p: Path): (r: string)
    ensures |p| == 0 ==> r == "."
    ensures |p| > 0 ==> r == p[|p| - 1]
  {
    if |p| == 0 then "." else p[|p| - 1]
  }

  /** The text of a path: its segments joined with "/". */
  function Render(p: Path): (r: string)
    ensures |p| == 0 ==> r == ""
    ensures |p| == 1 ==> r == p[0]
    ensures |p| > 0 ==> |r| == GoStrings.TotalLength(p) + |p| - 1
  {
    GoStrings.Join(p, "/")
  }

  /** `Dir` applied `k` times. */
  function DirN(p: Path, k: nat): (r: Path)
    ensures |r| == if k <= |p| then |p| - k else 0
  {
    if k == 0 then p else Dir(DirN(p, k - 1))
  }

  /** Taking `Dir` `k` times removes the last `k` segments. */
  lemma {:induction false} DirNDropsSegments(p: Path, k: nat)
    requires k <= |p|
    ensures DirN(p, k) == p[..|p| - k]
  {
    if k > 0 {
      DirNDropsSegments(p, k - 1);
    }
  }
}
