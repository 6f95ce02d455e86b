/**
 * The part of `pathlib` the organizer uses. A path is the list of its
 * components below the file-system root, so `/home/u/a.txt` is
 * `["home", "u", "a.txt"]` and the root itself is `[]`; the organizer
 * resolves its directories up front, so every path here is absolute.
 */
module Paths {

  type Path = seq<string>

  /** `path.name`: the last component; the root has the empty name. */
  function Name(p: Path): string {
    if p == [] then "" else p[|p| - 1]
  }

  /** `path.parent`: every component but the last; the root is its own parent. */
  function Parent(p: Path): (r: Path)
    ensures p != [] ==> r + [Name(p)] == p
    ensures p == [] ==> r == []
  {
    if p == [] then [] else p[..|p| - 1]
  }

  /** `dir / name` for a single component. */
  function Join(dir: Path, name: string): (r: Path)
    ensures Parent(r) == dir && Name(r) == name
  {
    dir + [name]
  }

  /** `p` lies somewhere below `dir` (what a recursive walk of `dir` can yield). */
  predicate IsBelow(p: Path, dir: Path) {
    |dir| < |p| && p[..|dir|] == dir
  }

  /** `str(path)`: the components joined by '/', after a leading '/'. */
  function Render(p: Path): string {
    if p == [] then "/" else RenderTail(p)
  }

  function RenderTail(p: Path): string {
    if p == [] then "" else RenderTail(p[..|p| - 1]) + "/" + p[|p| - 1]
  }

  /** `name.rfind('.')`: the index of the last dot, or -1 when there is none. */
  function LastDot(s: string): (i: int)
    ensures -1 <= i < |s|
    ensures i >= 0 ==> s[i] == '.'
    ensures forall j :: i < j < |s| ==> s[j] != '.'
  {
    if s == [] then -1
    else if s[|s| - 1] == '.' then |s| - 1
    else LastDot(s[..|s| - 1])
  }

  /** `PurePath.suffix` on a name: from the last dot on, provided that dot is
      neither the first nor the last character; otherwise empty. */
  function Suffix(name: string): string {
    var i := LastDot(name);
    if 0 < i < |name| - 1 then name[i..] else ""
  }

  /** `PurePath.stem` on a name: the name without its suffix. */
  function Stem(name: string): string {
    var i := LastDot(name);
    if 0 < i < |name| - 1 then name[..i] else name
  }

  /** Stem and suffix split the name: nothing is lost or added. */
  lemma StemSuffixSplit(name: string)
    ensures Stem(name) + Suffix(name) == name
  {
  }

  /** A suffix is empty, or a single dot followed by at least one character,
      none of which is a dot; and a name with a suffix has a non-empty stem. */
  lemma SuffixShape(name: string)
    ensures var x := Suffix(name);
            x == [] || (|x| >= 2 && x[0] == '.' && forall j :: 1 <= j < |x| ==> x[j] != '.')
    ensures Suffix(name) != [] ==> Stem(name) != []
  {
  }
}
