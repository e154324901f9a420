/** The fallback search for `index.html` under the application root: a
    depth-first walk of the directory tree that stops below depth 3 and
    treats a directory it cannot read as empty. The directory tree is an
    abstract value. */
module IndexSearch {
  import opened Paths

  /** One entry of a directory listing, as `statSync` sees it; `Unstatable`
      is an entry whose `statSync` throws. */
  datatype Entry = File(name: string) | Dir(name: string, listing: Listing) | Unstatable(name: string)

  /** What `readdirSync` gives for a directory: the entries in listing order,
      or a throw. */
  datatype Listing = Unreadable | Entries(entries: seq<Entry>)

  const MaxDepth: nat := 3
  const IndexHtml := "index.html"

  /** A search result below `dir`, started at `depth`, names an `index.html`
      at most `MaxDepth - depth` directories further down. */
  predicate Shaped(dir: Path, depth: nat, p: Path) {
    && |dir| < |p|
    && |p| + depth <= |dir| + MaxDepth + 1
    && p[..|dir|] == dir
    && p[|p| - 1] == IndexHtml
  }

  /** `findIndexHtml(dir, depth)`. */
  function Find(l: Listing, dir: Path, depth: nat): (r: seq<Path>)
    ensures depth > MaxDepth ==> r == []
    ensures forall p :: p in r ==> Shaped(dir, depth, p)
    decreases l, 1
  {
    if depth > MaxDepth then []
    else
      match l
      case Unreadable => []
      case Entries(es) => Scan(es, dir, depth)
  }

  /** The loop over one listing. A throwing `statSync` ends the loop (the
      `catch` is around it), keeping what was collected so far. */
  function Scan(es: seq<Entry>, dir: Path, depth: nat): (r: seq<Path>)
    requires depth <= MaxDepth
    ensures forall p :: p in r ==> Shaped(dir, depth, p)
    decreases es, 0
  {
    if |es| == 0 then []
    else
      match es[0]
      case Unstatable(_) => []
      case File(name) =>
        var here := if name == IndexHtml then [dir + [name]] else [];
        here + Scan(es[1..], dir, depth)
      case Dir(name, sub) =>
        var below := Find(sub, dir + [name], depth + 1);
        assert forall p :: p in below ==> p[..|dir|] == (dir + [name])[..|dir|] == dir by {
          forall p | p in below ensures p[..|dir|] == dir {
            assert p[..|dir|] == p[..|dir| + 1][..|dir|];
          }
        }
        below + Scan(es[1..], dir, depth)
  }

  /** `rel` (relative to the listing) names a file reachable through entries
      whose `statSync` succeeds. */
  ghost predicate HasFile(l: Listing, rel: seq<string>)
    decreases l, 1
  {
    && l.Entries?
    && exists i :: 0 <= i < |l.entries| && EntryHasFile(l.entries[i], rel)
  }

  ghost predicate EntryHasFile(e: Entry, rel: seq<string>)
    decreases e, 0
  {
    || (|rel| == 1 && e == File(rel[0]))
    || (|rel| > 1 && e.Dir? && e.name == rel[0] && HasFile(e.listing, rel[1..]))
  }

  /** `rel` (relative to the listing) names a file the search can reach:
      every listing on the way can be read, and in each of them no entry
      whose `statSync` throws comes before the entry taken. */
  ghost predicate Reaches(l: Listing, rel: seq<string>)
    decreases l, 1
  {
    && l.Entries?
    && exists i :: 0 <= i < |l.entries| && EntryReaches(l.entries[i], rel) && StatableBefore(l.entries, i)
  }

  ghost predicate EntryReaches(e: Entry, rel: seq<string>)
    decreases e, 0
  {
    || (|rel| == 1 && e == File(rel[0]))
    || (|rel| > 1 && e.Dir? && e.name == rel[0] && Reaches(e.listing, rel[1..]))
  }

  /** Every entry before index `i` can be stat'ed. */
  predicate StatableBefore(es: seq<Entry>, i: int) {
    forall j :: 0 <= j < i && j < |es| ==> !es[j].Unstatable?
  }

  /** A reachable file is really there. */
  lemma {:induction false} ReachesHasFile(l: Listing, rel: seq<string>)
    requires Reaches(l, rel)
    ensures HasFile(l, rel)
    decreases l, 1
  {
    var i :| 0 <= i < |l.entries| && EntryReaches(l.entries[i], rel) && StatableBefore(l.entries, i);
    var e := l.entries[i];
    if |rel| > 1 {
      ReachesHasFile(e.listing, rel[1..]);
    }
    assert EntryHasFile(e, rel);
  }

  /** Soundness: every result is an `index.html` the search can reach. */
  lemma {:induction false} FindSound(l: Listing, dir: Path, depth: nat, p: Path)
    requires p in Find(l, dir, depth)
    ensures Shaped(dir, depth, p) && Reaches(l, p[|dir|..])
    decreases l, 1
  {
    ScanSound(l.entries, dir, depth, p);
  }

  lemma {:induction false} ScanSound(es: seq<Entry>, dir: Path, depth: nat, p: Path)
    requires depth <= MaxDepth
    requires p in Scan(es, dir, depth)
    ensures exists i :: 0 <= i < |es| && EntryReaches(es[i], p[|dir|..]) && StatableBefore(es, i)
    decreases es, 1
  {
    match es[0]
    case File(name) =>
      if name == IndexHtml && p == dir + [name] {
        assert p[|dir|..] == [name];
        assert EntryReaches(es[0], p[|dir|..]) && StatableBefore(es, 0);
      } else {
        ScanTail(es, dir, depth, p);
      }
    case Dir(name, sub) =>
      var below := Find(sub, dir + [name], depth + 1);
      if p in below {
        FindSound(sub, dir + [name], depth + 1, p);
        var rel := p[|dir|..];
        assert p[..|dir| + 1] == dir + [name];
        assert rel[0] == name && rel[1..] == p[|dir| + 1..];
        assert EntryReaches(es[0], rel) && StatableBefore(es, 0);
      } else {
        ScanTail(es, dir, depth, p);
      }
  }

  /** A result that comes from the rest of a listing whose first entry can
      be stat'ed. */
  lemma {:induction false} ScanTail(es: seq<Entry>, dir: Path, depth: nat, p: Path)
    requires depth <= MaxDepth
    requires |es| > 0 && !es[0].Unstatable?
    requires p in Scan(es[1..], dir, depth)
    ensures exists i :: 0 <= i < |es| && EntryReaches(es[i], p[|dir|..]) && StatableBefore(es, i)
    decreases es, 0
  {
    ScanSound(es[1..], dir, depth, p);
    var i :| 0 <= i < |es[1..]| && EntryReaches(es[1..][i], p[|dir|..]) && StatableBefore(es[1..], i);
    assert es[1..][i] == es[i + 1];
    assert StatableBefore(es, i + 1) by {
      forall j | 0 <= j < i + 1
        ensures !es[j].Unstatable?
      {
        if j > 0 {
          assert es[j] == es[1..][j - 1];
        }
      }
    }
  }

  /** Completeness: every `index.html` the search can reach within the depth
      bound is found, whatever fails elsewhere in the tree. */
  lemma {:induction false} FindComplete(l: Listing, dir: Path, depth: nat, rel: seq<string>)
    requires Reaches(l, rel)
    requires |rel| >= 1 && rel[|rel| - 1] == IndexHtml
    requires depth + |rel| <= MaxDepth + 1
    ensures dir + rel in Find(l, dir, depth)
    decreases l, 1
  {
    var i :| 0 <= i < |l.entries| && EntryReaches(l.entries[i], rel) && StatableBefore(l.entries, i);
    ScanComplete(l.entries, dir, depth, rel, i);
  }

  lemma {:induction false} ScanComplete(es: seq<Entry>, dir: Path, depth: nat, rel: seq<string>, i: nat)
    requires depth <= MaxDepth
    requires i < |es| && EntryReaches(es[i], rel) && StatableBefore(es, i)
    requires |rel| >= 1 && rel[|rel| - 1] == IndexHtml
    requires depth + |rel| <= MaxDepth + 1
    ensures dir + rel in Scan(es, dir, depth)
    decreases es, 0
  {
    if i == 0 {
      match es[0]
      case File(name) =>
        assert rel == [name];
      case Dir(name, sub) =>
        FindComplete(sub, dir + [name], depth + 1, rel[1..]);
        assert dir + [name] + rel[1..] == dir + rel;
    } else {
      assert !es[0].Unstatable?;
      assert StatableBefore(es[1..], i - 1) by {
        forall j | 0 <= j < i - 1
          ensures !es[1..][j].Unstatable?
        {
          assert es[1..][j] == es[j + 1];
        }
      }
      assert es[1..][i - 1] == es[i];
      ScanComplete(es[1..], dir, depth, rel, i - 1);
    }
  }

  /** Results come in listing order: when every entry of `a` can be
      stat'ed, the loop finishes `a` before it starts on `b`. */
  lemma {:induction false} ScanAppend(a: seq<Entry>, b: seq<Entry>, dir: Path, depth: nat)
    requires depth <= MaxDepth
    requires StatableBefore(a, |a|)
    ensures Scan(a + b, dir, depth) == Scan(a, dir, depth) + Scan(b, dir, depth)
    decreases |a|
  {
    if |a| == 0 {
      assert a + b == b;
    } else {
      assert (a + b)[0] == a[0];
      assert (a + b)[1..] == a[1..] + b;
      assert StatableBefore(a[1..], |a| - 1) by {
        forall j | 0 <= j < |a| - 1
          ensures !a[1..][j].Unstatable?
        {
          assert a[1..][j] == a[j + 1];
        }
      }
      ScanAppend(a[1..], b, dir, depth);
    }
  }

  /** Depth-first order: the results of a listing are those of the entries
      before `i`, then everything entry `i` contributes (the whole subtree
      of a directory, the file itself for an `index.html`, nothing for an
      entry whose `statSync` throws, which also ends the loop), then those
      of the later entries. */
  lemma {:induction false} ScanSplitsAt(es: seq<Entry>, i: nat, dir: Path, depth: nat)
    requires depth <= MaxDepth
    requires i < |es| && StatableBefore(es, i)
    ensures es[i].Dir? ==>
      Scan(es, dir, depth) ==
        Scan(es[..i], dir, depth) + Find(es[i].listing, dir + [es[i].name], depth + 1) + Scan(es[i + 1..], dir, depth)
    ensures es[i].File? ==>
      Scan(es, dir, depth) ==
        Scan(es[..i], dir, depth) + (if es[i].name == IndexHtml then [dir + [IndexHtml]] else []) + Scan(es[i + 1..], dir, depth)
    ensures es[i].Unstatable? ==> Scan(es, dir, depth) == Scan(es[..i], dir, depth)
  {
    assert es == es[..i] + es[i..];
    assert StatableBefore(es[..i], i);
    ScanAppend(es[..i], es[i..], dir, depth);
    assert es[i..][0] == es[i];
    assert es[i..][1..] == es[i + 1..];
  }

  /** A nested `index.html` comes before a later sibling one. */
  lemma NestedBeforeLaterSibling(dir: Path)
    ensures Find(Entries([Dir("a", Entries([File(IndexHtml)])), File(IndexHtml)]), dir, 0)
      == [dir + ["a", IndexHtml], dir + [IndexHtml]]
  {
    var one: seq<Entry> := [File(IndexHtml)];
    var es := [Dir("a", Entries(one)), File(IndexHtml)];
    assert Scan(one, dir + ["a"], 1) == [dir + ["a"] + [IndexHtml]] + Scan(one[1..], dir + ["a"], 1);
    assert Scan(one, dir, 0) == [dir + [IndexHtml]] + Scan(one[1..], dir, 0);
    assert one[1..] == [];
    assert es[1..] == one;
    assert dir + ["a"] + [IndexHtml] == dir + ["a", IndexHtml];
    assert Scan(es, dir, 0) == Find(Entries(one), dir + ["a"], 1) + Scan(es[1..], dir, 0);
  }

  /** An entry whose `statSync` throws hides every later entry of its
      directory: an `index.html` right after it is there but not found. */
  lemma MissedBehindUnstatable(name: string, dir: Path)
    ensures var l := Entries([Unstatable(name), File(IndexHtml)]);
      HasFile(l, [IndexHtml]) && !Reaches(l, [IndexHtml]) && Find(l, dir, 0) == []
  {
    var l := Entries([Unstatable(name), File(IndexHtml)]);
    assert EntryHasFile(l.entries[1], [IndexHtml]);
    assert l.entries[0].Unstatable?;
    assert !StatableBefore(l.entries, 1);
    assert !EntryReaches(l.entries[0], [IndexHtml]);
  }

  /** The tree with every listing below the depth bound replaced by an
      unreadable one. */
  function Prune(l: Listing, depth: nat): (r: Listing)
    ensures depth > MaxDepth || l.Unreadable? ==> r.Unreadable?
    ensures depth <= MaxDepth && l.Entries? ==> r.Entries? && |r.entries| == |l.entries|
    decreases l, 1
  {
    if depth > MaxDepth then Unreadable
    else
      match l
      case Unreadable => Unreadable
      case Entries(es) => Entries(PruneAll(es, depth))
  }

  function PruneAll(es: seq<Entry>, depth: nat): (r: seq<Entry>)
    ensures |r| == |es|
    ensures forall i :: 0 <= i < |es| ==> r[i].name == es[i].name && r[i].Dir? == es[i].Dir?
    ensures forall i :: 0 <= i < |es| && !es[i].Dir? ==> r[i] == es[i]
    ensures forall i :: 0 <= i < |es| && es[i].Dir? ==> r[i].listing == Prune(es[i].listing, depth + 1)
    decreases es, 0
  {
    if |es| == 0 then []
    else
      var e := match es[0]
        case Dir(name, sub) => Dir(name, Prune(sub, depth + 1))
        case other => other;
      [e] + PruneAll(es[1..], depth)
  }

  /** The search never looks below depth 3: the result does not depend on
      anything stored deeper. */
  lemma {:induction false} FindIgnoresDeeperLevels(l: Listing, dir: Path, depth: nat)
    ensures Find(Prune(l, depth), dir, depth) == Find(l, dir, depth)
    decreases l, 1
  {
    if depth <= MaxDepth && l.Entries? {
      ScanIgnoresDeeperLevels(l.entries, dir, depth);
    }
  }

  lemma {:induction false} ScanIgnoresDeeperLevels(es: seq<Entry>, dir: Path, depth: nat)
    requires depth <= MaxDepth
    ensures Scan(PruneAll(es, depth), dir, depth) == Scan(es, dir, depth)
    decreases es, 0
  {
    if |es| > 0 {
      var pruned := PruneAll(es, depth);
      assert pruned[1..] == PruneAll(es[1..], depth);
      ScanIgnoresDeeperLevels(es[1..], dir, depth);
      match es[0]
      case Dir(name, sub) =>
        FindIgnoresDeeperLevels(sub, dir + [name], depth + 1);
      case File(_) =>
      case Unstatable(_) =>
    }
  }
}
