/**
  The walk over a storage pool. Paths are absolute and normalised, as lists of segments;
  a directory lists its entries by name.
 */
module StorageScan {
  import opened Sequences

  type Path = seq<string>

  datatype Node = File | Other | Dir(entries: seq<Entry>)

  datatype Entry = Entry(name: string, node: Node)

  const SKIP_ABSOLUTE: seq<Path> := [
    ["proc"], ["sys"], ["dev"], ["run"], ["boot"], ["usr"], ["etc"], ["bin"], ["sbin"],
    ["lib"], ["lib32"], ["lib64"], ["libx32"], ["snap"], ["tmp"], ["srv"],
    ["var", "cache"], ["var", "log"], ["var", "lib", "dpkg"], ["var", "lib", "apt"]]

  const SKIP_NAMES: set<string> := {"node_modules", ".git", "lost+found", ".cache"}

  const MAX_DEPTH: nat := 8

  /** `full` is the skipped path, or starts with it and a separator. */
  predicate ShouldSkip(full: Path, root: Path, name: string) {
    name in SKIP_NAMES || (full != root && exists i :: 0 <= i < |SKIP_ABSOLUTE| && SKIP_ABSOLUTE[i] <= full)
  }

  /** The files a walk collects, in its order. */
  function Walk(entries: seq<Entry>, current: Path, root: Path, depth: nat): seq<Path>
    decreases entries
  {
    if entries == [] then []
    else WalkEntry(entries[0], current, root, depth) + Walk(entries[1..], current, root, depth)
  }

  function WalkEntry(e: Entry, current: Path, root: Path, depth: nat): seq<Path>
    decreases e
  {
    match e.node
    case File => [current + [e.name]]
    case Other => []
    case Dir(entries) =>
      if depth >= MAX_DEPTH || ShouldSkip(current + [e.name], root, e.name) then []
      else Walk(entries, current + [e.name], root, depth + 1)
  }

  method WalkFiles(root: Path, current: Path, entries: seq<Entry>, results0: seq<Path>, depth: nat)
    returns (results: seq<Path>)
    ensures results == results0 + Walk(entries, current, root, depth)
    decreases entries
  {
    hide ShouldSkip;
    results := results0;
    var i := 0;
    Neutral(results0);
    assert entries[0..] == entries;
    while i < |entries|
      invariant i <= |entries|
      invariant results + Walk(entries[i..], current, root, depth) == results0 + Walk(entries, current, root, depth)
    {
      var e := entries[i];
      ghost var before := results;
      var full := current + [e.name];
      if e.node.Dir? {
        if depth < MAX_DEPTH && !ShouldSkip(full, root, e.name) {
          results := WalkFiles(root, full, e.node.entries, results, depth + 1);
        }
      } else if e.node.File? {
        results := results + [full];
      }
      Neutral(before);
      assert results == before + WalkEntry(e, current, root, depth);
      assert entries[i..][0] == e && entries[i..][1..] == entries[i + 1..];
      Associative(before, WalkEntry(e, current, root, depth), Walk(entries[i + 1..], current, root, depth));
      i := i + 1;
    }
    Neutral(results);
  }

  /** There is a file below the directory at these names. */
  predicate HasFile(entries: seq<Entry>, names: Path)
    decreases names
  {
    names != []
    && exists i :: 0 <= i < |entries| && entries[i].name == names[0]
         && if |names| == 1 then entries[i].node.File?
            else entries[i].node.Dir? && HasFile(entries[i].node.entries, names[1..])
  }

  /** None of the directories on the way, from depth `depth` on, is too deep or skipped. */
  predicate Open(current: Path, root: Path, depth: nat, names: Path) {
    |names| <= MAX_DEPTH - depth + 1
    && forall k :: 0 < k < |names| ==> !ShouldSkip(current + names[..k], root, names[k - 1])
  }

  predicate Found(entries: seq<Entry>, current: Path, root: Path, depth: nat, names: Path) {
    HasFile(entries, names) && Open(current, root, depth, names)
  }

  /** One step down a directory: what is open below is what is open, if the directory is. */
  lemma OpenBelow(current: Path, root: Path, depth: nat, names: Path)
    requires |names| > 1
    ensures Open(current, root, depth, names)
      <==> depth < MAX_DEPTH && !ShouldSkip(current + [names[0]], root, names[0])
           && Open(current + [names[0]], root, depth + 1, names[1..])
  {
    hide ShouldSkip;
    var below := current + [names[0]];
    assert names[..1] == [names[0]];
    forall k | 0 < k < |names| - 1
      ensures below + names[1..][..k] == current + names[..k + 1] && names[1..][k - 1] == names[k]
    {
      assert names[..k + 1] == [names[0]] + names[1..][..k];
      Associative(current, [names[0]], names[1..][..k]);
    }
    if Open(below, root, depth + 1, names[1..]) && !ShouldSkip(below, root, names[0]) && depth < MAX_DEPTH {
      forall k | 0 < k < |names|
        ensures !ShouldSkip(current + names[..k], root, names[k - 1])
      {
        if k > 1 {
          assert below + names[1..][..k - 1] == current + names[..k];
        }
      }
    }
    if Open(current, root, depth, names) {
      assert !ShouldSkip(current + names[..1], root, names[0]);
      forall k | 0 < k < |names| - 1
        ensures !ShouldSkip(below + names[1..][..k], root, names[1..][k - 1])
      {
        assert !ShouldSkip(current + names[..k + 1], root, names[k]);
      }
    }
  }

  lemma {:induction false} InWalk(entries: seq<Entry>, i: nat, current: Path, root: Path, depth: nat, p: Path)
    requires i < |entries| && p in WalkEntry(entries[i], current, root, depth)
    ensures p in Walk(entries, current, root, depth)
    decreases i
  {
    hide WalkEntry;
    if i > 0 {
      InWalk(entries[1..], i - 1, current, root, depth, p);
    }
  }

  lemma {:induction false} FromWalk(entries: seq<Entry>, current: Path, root: Path, depth: nat, p: Path)
    returns (i: nat)
    requires p in Walk(entries, current, root, depth)
    ensures i < |entries| && p in WalkEntry(entries[i], current, root, depth)
    decreases |entries|
  {
    hide WalkEntry;
    if p in WalkEntry(entries[0], current, root, depth) {
      return 0;
    }
    var j := FromWalk(entries[1..], current, root, depth, p);
    return j + 1;
  }

  /** Every file that is there, and that no skipped or too deep directory hides, is collected. */
  lemma {:induction false} FoundIsCollected(entries: seq<Entry>, current: Path, root: Path, depth: nat, names: Path)
    requires Found(entries, current, root, depth, names) && depth <= MAX_DEPTH
    ensures current + names in Walk(entries, current, root, depth)
    decreases |names|
  {
    hide ShouldSkip, Open, Walk;
    if |names| == 1 {
      var i :| 0 <= i < |entries| && entries[i].name == names[0] && entries[i].node.File?;
      assert names == [names[0]];
      InWalk(entries, i, current, root, depth, current + names);
    } else {
      var i :| 0 <= i < |entries| && entries[i].name == names[0] && entries[i].node.Dir?
        && HasFile(entries[i].node.entries, names[1..]);
      OpenBelow(current, root, depth, names);
      FoundIsCollected(entries[i].node.entries, current + [names[0]], root, depth + 1, names[1..]);
      FirstElement(names);
      Associative(current, [names[0]], names[1..]);
      InWalk(entries, i, current, root, depth, current + names);
    }
  }

  /** Whatever is collected is such a file. */
  lemma {:induction false} CollectedIsFound(entries: seq<Entry>, current: Path, root: Path, depth: nat, p: Path)
    returns (names: Path)
    requires p in Walk(entries, current, root, depth) && depth <= MAX_DEPTH
    ensures p == current + names && Found(entries, current, root, depth, names)
    decreases entries
  {
    hide ShouldSkip, Open, Walk;
    var i := FromWalk(entries, current, root, depth, p);
    var e := entries[i];
    if e.node.File? {
      names := [e.name];
      DirectlyOpen(current, root, depth, e.name);
    } else {
      var below := CollectedIsFound(e.node.entries, current + [e.name], root, depth + 1, p);
      names := [e.name] + below;
      assert names[1..] == below;
      Associative(current, [e.name], below);
      OpenBelow(current, root, depth, names);
    }
  }

  lemma DirectlyOpen(current: Path, root: Path, depth: nat, name: string)
    requires depth <= MAX_DEPTH
    ensures Open(current, root, depth, [name])
  {
  }

  /** A walk collects exactly the files below the root that no skipped directory and no more than eight levels hide. */
  lemma WalkIsExact(entries: seq<Entry>, root: Path, p: Path)
    ensures p in Walk(entries, root, root, 0)
      <==> exists names: Path :: p == root + names && Found(entries, root, root, 0, names)
  {
    hide Walk, Found;
    if p in Walk(entries, root, root, 0) {
      var names := CollectedIsFound(entries, root, root, 0, p);
    }
    forall names: Path | p == root + names && Found(entries, root, root, 0, names)
      ensures p in Walk(entries, root, root, 0)
    {
      FoundIsCollected(entries, root, root, 0, names);
    }
  }

  // ---- Inside a directory ------------------------------------------------------------------

  function Common(a: Path, b: Path): nat {
    if a != [] && b != [] && a[0] == b[0] then 1 + Common(a[1..], b[1..]) else 0
  }

  function Ups(n: nat): Path {
    if n == 0 then [] else [".."] + Ups(n - 1)
  }

  /** `path.relative`, as segments: up to the common directory, and down. */
  function Relative(parent: Path, child: Path): Path {
    Ups(|parent| - CommonBound(parent, child)) + child[CommonBound(parent, child)..]
  }

  function CommonBound(a: Path, b: Path): (n: nat)
    ensures n <= |a| && n <= |b| && a[..n] == b[..n]
    ensures n < |a| && n < |b| ==> a[n] != b[n]
  {
    CommonIsBounded(a, b);
    Common(a, b)
  }

  lemma {:induction false} CommonIsBounded(a: Path, b: Path)
    ensures Common(a, b) <= |a| && Common(a, b) <= |b| && a[..Common(a, b)] == b[..Common(a, b)]
    ensures Common(a, b) < |a| && Common(a, b) < |b| ==> a[Common(a, b)] != b[Common(a, b)]
  {
    if a != [] && b != [] && a[0] == b[0] {
      CommonIsBounded(a[1..], b[1..]);
      var n := Common(a[1..], b[1..]);
      assert a[..n + 1] == [a[0]] + a[1..][..n] && b[..n + 1] == [b[0]] + b[1..][..n];
    }
  }

  predicate StartsWithDots(s: string) {
    ".." <= s
  }

  /** The relative path is empty, or does not start with two dots; joined, it starts with its first segment. */
  predicate IsInside(parent: Path, child: Path) {
    var relative := Relative(parent, child);
    relative == [] || !StartsWithDots(relative[0])
  }

  /** Sound, and complete but for a first segment below the directory whose own name starts with two dots. */
  lemma IsInsideExactly(parent: Path, child: Path)
    ensures IsInside(parent, child)
      <==> parent <= child && (|child| > |parent| ==> !StartsWithDots(child[|parent|]))
  {
    var n := CommonBound(parent, child);
    if n < |parent| {
      assert Relative(parent, child)[0] == "..";
      assert parent <= child ==> |child| >= |parent|;
    } else {
      assert parent[..n] == parent;
      assert Relative(parent, child) == child[n..];
    }
  }
}
