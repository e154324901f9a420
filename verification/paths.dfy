/** File-system paths as sequences of segments, the way `path.join` builds
    them, plus the "first existing candidate wins" rule the program uses for
    several lookups. */
module Paths {
  import opened Wrappers
  import opened Text

  /** The segments of a path, outermost first. */
  type Path = seq<string>

  /** `path.join(p, '..')`: the enclosing directory (the root stays the root). */
  function Parent(p: Path): (q: Path)
    ensures |p| > 0 ==> q == p[..|p| - 1]
    ensures |p| == 0 ==> q == []
  {
    if |p| == 0 then [] else p[..|p| - 1]
  }

  /** Text of a path with `/` between segments. */
  function Render(p: Path): string {
    "/" + JoinWith(p, "/")
  }

  /** Every path rendered, in order. */
  function RenderAll(ps: seq<Path>): (r: seq<string>)
    ensures |r| == |ps|
    ensures forall i :: 0 <= i < |ps| ==> r[i] == Render(ps[i])
  {
    if |ps| == 0 then [] else [Render(ps[0])] + RenderAll(ps[1..])
  }

  /** The candidate at index `i` is the first one that exists. */
  ghost predicate FirstExistingAt(cands: seq<Path>, exists_: Path -> bool, i: int) {
    && 0 <= i < |cands|
    && exists_(cands[i])
    && forall j :: 0 <= j < i ==> !exists_(cands[j])
  }

  /** `candidates.find(exists)`: the first candidate that exists, if any. */
  function FirstExisting(cands: seq<Path>, exists_: Path -> bool): (r: Option<Path>)
    ensures r.Some? <==> exists i :: 0 <= i < |cands| && exists_(cands[i])
    ensures r.Some? ==> exists i :: FirstExistingAt(cands, exists_, i) && r.value == cands[i]
    decreases |cands|
  {
    if |cands| == 0 then None
    else if exists_(cands[0]) then Some(cands[0])
    else
      var r := FirstExisting(cands[1..], exists_);
      assert forall i :: 1 <= i < |cands| ==> cands[i] == cands[1..][i - 1];
      if r.Some? then
        ghost var i :| FirstExistingAt(cands[1..], exists_, i) && r.value == cands[1..][i];
        assert FirstExistingAt(cands, exists_, i + 1);
        r
      else r
  }
}
