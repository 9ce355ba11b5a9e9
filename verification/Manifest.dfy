/** From inventory to frozen manifest: path policy, operations, hashes. */
module Manifest {
  import opened Prelude
  import opened Ordering
  import opened NameStatus
  import opened Checks

  type Path = string
  type Bytes = seq<bv8>

  datatype Mode = Plain | Executable | Symlink

  /** What a link leads to. */
  datatype Far = Nowhere | ToFile(executable: bool, content: Bytes) | ToDirectory

  /** What the worktree has at a path. */
  datatype Node = File(mode: Mode, content: Bytes) | Link(target: Bytes, far: Far)

  type Worktree = map<Path, Node>

  datatype Op = Add | Modify | Delete | Rename | Copy | TypeChange

  datatype FileOp = FileOp(op: Op, path: Path, source: Path, mode: Mode, hash: string, link: Bytes)

  // ---- path policy ----

  predicate OccursAt(part: string, s: string, i: nat) { i + |part| <= |s| && s[i..i + |part|] == part }

  predicate Contains(part: string, s: string) { exists i :: 0 <= i <= |s| && OccursAt(part, s, i) }

  predicate EndsWith(s: string, part: string) { |part| <= |s| && OccursAt(part, s, |s| - |part|) }

  const RUNTIME_PARTS: seq<string> := [
    "mxs_", "fixture-status.json", ".ai/worktrees/", ".curaops/control/", "outbox.jsonl", "control-plane.sock",
    "__pycache__/", ".pyc", ".pytest_cache/", ".mypy_cache/", ".ruff_cache/", ".hermes/", "hermes-home/"]

  const FORBIDDEN_PARTS: seq<string> := [
    ".git/", ".git$", ".env", "secrets.env", ".venv/", "__pycache__/", "node_modules/", ".pytest_cache/",
    ".mypy_cache/", ".ruff_cache/", "*.pyc", "*.log", ".local/", "*.secret", "credentials", ".ssh/", ".config/",
    "coverage/", "dist/", "build/", ".hermes/", "fixture-status.json", "fixture_out", "*.stdout.txt",
    "*.stderr.txt", "mxs_", ".ai/worktrees/", ".ai/state/", ".worktrees/", ".sisyphus/", "control-plane.sock",
    "outbox.jsonl"]

  predicate AnyPart(parts: seq<string>, s: string) { exists i :: 0 <= i < |parts| && Contains(parts[i], s) }

  datatype Decision = Allow | Exclude | Deny

  /** Session logs and runtime paths are left out; among the others a
      forbidden one stops the candidate. */
  function Decide(path: Path): Decision {
    var low := Lower(path);
    if OccursAt("mxs_", low, 0) && (EndsWith(low, ".stdout.txt") || EndsWith(low, ".stderr.txt")) then Exclude
    else if AnyPart(RUNTIME_PARTS, low) then Exclude
    else if AnyPart(FORBIDDEN_PARTS, low) then Deny
    else Allow
  }

  // ---- operations ----

  predicate CharAt(s: string, i: nat, ch: char) { i < |s| && s[i] == ch }

  function OperationOf(e: Entry): Op {
    if e.word.Untracked? then Add
    else if CharAt(e.xy, 0, 'R') then Rename
    else if CharAt(e.xy, 0, 'C') then Copy
    else if CharAt(e.xy, 0, 'T') then Op.TypeChange
    else if e.word.Deleted? || CharAt(e.xy, 1, 'D') || CharAt(e.xy, 0, 'D') then Delete
    else if (e.word.Added? || e.word.Staged?) && CharAt(e.xy, 1, 'A') then Add
    else Modify
  }

  /** Which operation an entry is recorded as, case by case. */
  lemma OperationExactly(e: Entry)
    ensures var x, y := if e.xy == "" then ' ' else e.xy[0], if |e.xy| < 2 then ' ' else e.xy[1];
      var known := e.word != Untracked;
      var deleted := e.word == Deleted || y == 'D' || x == 'D';
      && (OperationOf(e) == Rename <==> known && x == 'R')
      && (OperationOf(e) == Copy <==> known && x == 'C')
      && (OperationOf(e) == Op.TypeChange <==> known && x == 'T')
      && (OperationOf(e) == Delete <==> known && x !in {'R', 'C', 'T'} && deleted)
      && (OperationOf(e) == Add <==>
            !known || (x !in {'R', 'C', 'T'} && !deleted && e.word in {Added, Staged} && y == 'A'))
      && (OperationOf(e) == Modify <==>
            known && x !in {'R', 'C', 'T'} && !deleted && !(e.word in {Added, Staged} && y == 'A'))
  {
  }

  /** What a committed change becomes. An added file is recorded as a modify:
      the one-letter status of a diff has no second character. */
  lemma DiffOperations(ch: Change)
    requires Sane(ch) && (ch.Plain? ==> |ch.status| == 1)
    ensures OperationOf(EntryOf(ch))
         == match ch.status[0]
            case 'R' => Rename
            case 'C' => Copy
            case 'T' => Op.TypeChange
            case 'D' => Delete
            case _ => Modify
    ensures ch.Moved? ==> EntryOf(ch).src == ch.source
    ensures ch.Plain? ==> EntryOf(ch).src == ch.path
  {
  }

  /** The word for the two letters of a status line. */
  function StatusWord(xy: string): Word
    requires |xy| == 2
  {
    if xy[0] == '?' then Untracked
    else if xy[1] != ' ' then Staged
    else if xy[0] in {'M', 'A', 'D', 'R', 'C', 'T'} then Unstaged
    else Clean
  }

  lemma StatusWordIs(xy: string)
    requires |xy| == 2
    ensures StatusWord(xy) == Untracked <==> xy[0] == '?'
    ensures StatusWord(xy) == Staged <==> xy[0] != '?' && xy[1] != ' '
    ensures StatusWord(xy) == Unstaged <==> xy[1] == ' ' && xy[0] in {'M', 'A', 'D', 'R', 'C', 'T'}
    ensures StatusWord(xy) == Clean <==> xy[1] == ' ' && xy[0] !in {'?', 'M', 'A', 'D', 'R', 'C', 'T'}
  {
  }

  /** When an uncommitted change is recorded as an add: untracked files, and
      those with an A in the second place. A staged new file (A, blank) is
      recorded as a modify. */
  lemma AddsExactly(xy: string, src: Path)
    requires |xy| == 2
    ensures OperationOf(Entry(xy, src, StatusWord(xy))) == Add
       <==> xy[0] == '?' || (xy[1] == 'A' && xy[0] !in {'R', 'C', 'T', 'D'})
    ensures xy == "A " ==> OperationOf(Entry(xy, src, StatusWord(xy))) == Modify
    ensures xy[0] != '?' && (xy[0] == 'D' || (xy[1] == 'D' && xy[0] !in {'R', 'C', 'T'}))
       ==> OperationOf(Entry(xy, src, StatusWord(xy))) == Delete
  {
  }

  // ---- the frozen manifest ----

  /** The bytes a manifest entry is hashed over: of a link, its target. */
  function Frozen(wt: Worktree, path: Path): Bytes {
    if path !in wt then [] else match wt[path] case Link(target, _) => target case File(_, content) => content
  }

  function TargetOf(wt: Worktree, path: Path): Bytes {
    if path in wt && wt[path].Link? then wt[path].target else []
  }

  /** The mode recorded in the worktree's own index comes first; then that of
      the file, or of what a link leads to, where a directory is executable. */
  function ModeOf(wt: Worktree, staged: map<Path, Mode>, path: Path): Mode {
    if path !in wt then Mode.Plain
    else if path in staged then staged[path]
    else match wt[path]
      case File(mode, _) => mode
      case Link(_, far) =>
        if far.ToDirectory? || (far.ToFile? && far.executable) then Executable
        else if far.ToFile? then Symlink
        else Mode.Plain
  }

  function Describe(sha: Bytes -> string, wt: Worktree, staged: map<Path, Mode>, path: Path, e: Entry): FileOp {
    FileOp(OperationOf(e), path, if e.src != path then e.src else "", ModeOf(wt, staged, path),
           sha(Frozen(wt, path)), TargetOf(wt, path))
  }

  datatype Candidate = Built(files: seq<FileOp>, excluded: seq<Path>) | ForbiddenPath(denied: seq<Path>) | EmptyChangeset

  /** The paths with a given decision, in order. */
  function Decided(paths: seq<Path>, d: Decision): seq<Path> {
    if paths == [] then []
    else
      var n := |paths| - 1;
      Decided(paths[..n], d) + (if Decide(paths[n]) == d then [paths[n]] else [])
  }

  function Described(sha: Bytes -> string, wt: Worktree, staged: map<Path, Mode>, inv: map<Path, Entry>,
        paths: seq<Path>): seq<FileOp>
    requires forall p :: p in paths ==> p in inv
  {
    if paths == [] then []
    else
      var n := |paths| - 1;
      Described(sha, wt, staged, inv, paths[..n]) + [Describe(sha, wt, staged, paths[n], inv[paths[n]])]
  }

  ghost predicate Lists(listing: seq<Path>, inv: map<Path, Entry>) {
    Distinct(listing) && forall p :: p in listing <==> p in inv
  }

  lemma SortedLists(listing: seq<Path>, inv: map<Path, Entry>)
    requires Lists(listing, inv)
    ensures Lists(Sort(listing, StrLess), inv) && Ascending(Sort(listing, StrLess), StrLess)
  {
    SortDistinct(listing, StrLess);
    StrOrder();
    SortAscends(listing, StrLess);
    forall p
      ensures p in Sort(listing, StrLess) <==> p in inv
    {
      SortMembers(listing, StrLess, p);
    }
  }

  lemma {:induction false} DecidedAre(paths: seq<Path>, d: Decision)
    ensures forall p :: p in Decided(paths, d) <==> p in paths && Decide(p) == d
  {
    hide Decide;
    if paths != [] {
      DecidedAre(paths[..|paths| - 1], d);
      assert paths == paths[..|paths| - 1] + [paths[|paths| - 1]];
    }
  }

  /** One sweep over the sorted inventory sorts each path into one of three
      lists; a denied path or an empty list of files refuses the candidate. */
  method BuildCandidate(sha: Bytes -> string, wt: Worktree, staged: map<Path, Mode>, inv: map<Path, Entry>,
        listing: seq<Path>)
    returns (r: Candidate)
    requires Lists(listing, inv)
    ensures r == CandidateOf(sha, wt, staged, inv, listing)
  {
    hide Decide;
    hide Describe;
    hide Sort;
    hide Decided;
    hide Described;
    var paths := Sort(listing, StrLess);
    SortedLists(listing, inv);
    NothingDecided(sha, wt, staged, inv);
    var files: seq<FileOp> := [];
    var denied: seq<Path> := [];
    var excluded: seq<Path> := [];
    ghost var allowed: seq<Path> := [];
    for i := 0 to |paths|
      invariant allowed == Decided(paths[..i], Allow) && (forall p :: p in allowed ==> p in inv)
      invariant excluded == Decided(paths[..i], Exclude) && denied == Decided(paths[..i], Deny)
      invariant files == Described(sha, wt, staged, inv, allowed)
    {
      var path := paths[i];
      assert path in inv;
      DecidedStep(paths, i);
      match Decide(path)
      case Exclude => excluded := excluded + [path];
      case Deny => denied := denied + [path];
      case Allow =>
        DescribedStep(sha, wt, staged, inv, allowed, path);
        allowed := allowed + [path];
        files := files + [Describe(sha, wt, staged, path, inv[path])];
    }
    assert paths[..|paths|] == paths;
    DescribedSize(sha, wt, staged, inv, allowed);
    if denied != [] { return ForbiddenPath(denied); }
    if files == [] { return EmptyChangeset; }
    return Built(files, excluded);
  }

  lemma NothingDecided(sha: Bytes -> string, wt: Worktree, staged: map<Path, Mode>, inv: map<Path, Entry>)
    ensures (forall d :: Decided([], d) == []) && Described(sha, wt, staged, inv, []) == []
  {
  }

  lemma DecidedStep(paths: seq<Path>, i: nat)
    requires i < |paths|
    ensures forall d :: Decided(paths[..i + 1], d) == Decided(paths[..i], d) + (if Decide(paths[i]) == d then [paths[i]] else [])
  {
    hide Decide;
    assert paths[..i + 1][..i] == paths[..i];
  }

  lemma DescribedStep(sha: Bytes -> string, wt: Worktree, staged: map<Path, Mode>, inv: map<Path, Entry>,
        paths: seq<Path>, p: Path)
    requires (forall x :: x in paths ==> x in inv) && p in inv
    ensures Described(sha, wt, staged, inv, paths + [p])
         == Described(sha, wt, staged, inv, paths) + [Describe(sha, wt, staged, p, inv[p])]
  {
    hide Describe;
    assert (paths + [p])[..|paths|] == paths;
  }

  function CandidateOf(sha: Bytes -> string, wt: Worktree, staged: map<Path, Mode>, inv: map<Path, Entry>,
        listing: seq<Path>): Candidate
    requires Lists(listing, inv)
  {
    SortedLists(listing, inv);
    var paths := Sort(listing, StrLess);
    DecidedAre(paths, Allow);
    if Decided(paths, Deny) != [] then ForbiddenPath(Decided(paths, Deny))
    else if Decided(paths, Allow) == [] then EmptyChangeset
    else Built(Described(sha, wt, staged, inv, Decided(paths, Allow)), Decided(paths, Exclude))
  }

  lemma {:induction false} DescribedSize(sha: Bytes -> string, wt: Worktree, staged: map<Path, Mode>,
        inv: map<Path, Entry>, paths: seq<Path>)
    requires forall x :: x in paths ==> x in inv
    ensures |Described(sha, wt, staged, inv, paths)| == |paths|
    ensures forall i :: 0 <= i < |paths| ==>
      Described(sha, wt, staged, inv, paths)[i] == Describe(sha, wt, staged, paths[i], inv[paths[i]])
  {
    hide Describe;
    if paths != [] { DescribedSize(sha, wt, staged, inv, paths[..|paths| - 1]); }
  }

  predicate DistinctPaths(files: seq<FileOp>) {
    forall i, k :: 0 <= i < k < |files| ==> files[i].path != files[k].path
  }

  lemma {:induction false} DecidedDistinct(paths: seq<Path>, d: Decision)
    requires Distinct(paths)
    ensures Distinct(Decided(paths, d))
  {
    hide Decide;
    if paths != [] {
      var n := |paths| - 1;
      DecidedDistinct(paths[..n], d);
      DecidedAre(paths[..n], d);
      assert paths[n] !in paths[..n];
    }
  }

  /** A candidate is built exactly when nothing is denied and something is
      allowed. */
  lemma BuiltExactly(sha: Bytes -> string, wt: Worktree, staged: map<Path, Mode>, inv: map<Path, Entry>,
        listing: seq<Path>)
    requires Lists(listing, inv)
    ensures var r := CandidateOf(sha, wt, staged, inv, listing);
      && (r.Built? <==> (forall p :: p in inv ==> Decide(p) != Deny) && (exists p :: p in inv && Decide(p) == Allow))
      && (r.ForbiddenPath? <==> exists p :: p in inv && Decide(p) == Deny)
  {
    hide Decide;
    hide Describe;
    hide Sort;
    SortedLists(listing, inv);
    var paths := Sort(listing, StrLess);
    DecidedAre(paths, Allow);
    DecidedAre(paths, Deny);
    if Decided(paths, Deny) != [] { assert Decided(paths, Deny)[0] in Decided(paths, Deny); }
    if Decided(paths, Allow) != [] { assert Decided(paths, Allow)[0] in Decided(paths, Allow); }
  }

  /** It has one entry per allowed path, hashed from the worktree, and lists
      the excluded paths. */
  lemma BuiltHolds(sha: Bytes -> string, wt: Worktree, staged: map<Path, Mode>, inv: map<Path, Entry>,
        listing: seq<Path>, f: FileOp)
    requires Lists(listing, inv) && CandidateOf(sha, wt, staged, inv, listing).Built?
    ensures var r := CandidateOf(sha, wt, staged, inv, listing);
      && DistinctPaths(r.files)
      && (f in r.files <==> f.path in inv && Decide(f.path) == Allow && f == Describe(sha, wt, staged, f.path, inv[f.path]))
      && (forall p :: p in r.excluded <==> p in inv && Decide(p) == Exclude)
  {
    hide Decide;
    hide Describe;
    hide Sort;
    SortedLists(listing, inv);
    var paths := Sort(listing, StrLess);
    DecidedAre(paths, Allow);
    DecidedAre(paths, Exclude);
    var allowed := Decided(paths, Allow);
    DecidedDistinct(paths, Allow);
    DescribedPaths(sha, wt, staged, inv, allowed);
    DescribedAre(sha, wt, staged, inv, allowed, f);
  }

  lemma DescribedAre(sha: Bytes -> string, wt: Worktree, staged: map<Path, Mode>, inv: map<Path, Entry>,
        paths: seq<Path>, f: FileOp)
    requires forall x :: x in paths ==> x in inv
    ensures f in Described(sha, wt, staged, inv, paths)
       <==> f.path in paths && f == Describe(sha, wt, staged, f.path, inv[f.path])
  {
    hide OperationOf;
    hide Frozen;
    hide TargetOf;
    hide ModeOf;
    DescribedSize(sha, wt, staged, inv, paths);
    var files := Described(sha, wt, staged, inv, paths);
    if f.path in paths && f == Describe(sha, wt, staged, f.path, inv[f.path]) {
      var i :| 0 <= i < |paths| && paths[i] == f.path;
      assert files[i] == f;
    }
    if f in files {
      var i :| 0 <= i < |files| && files[i] == f;
      assert paths[i] in paths;
    }
  }

  lemma DescribedPaths(sha: Bytes -> string, wt: Worktree, staged: map<Path, Mode>, inv: map<Path, Entry>,
        paths: seq<Path>)
    requires (forall x :: x in paths ==> x in inv) && Distinct(paths)
    ensures DistinctPaths(Described(sha, wt, staged, inv, paths))
  {
    DescribedSize(sha, wt, staged, inv, paths);
  }

  /** What an entry of a built candidate says: the source of a move, the mode
      on record, or else of the file or of what the link leads to, and the hash
      of the bytes of the file, or of the target of the link. */
  lemma EntrySays(sha: Bytes -> string, wt: Worktree, staged: map<Path, Mode>, inv: map<Path, Entry>,
        listing: seq<Path>, f: FileOp)
    requires Lists(listing, inv) && CandidateOf(sha, wt, staged, inv, listing).Built?
    requires f in CandidateOf(sha, wt, staged, inv, listing).files
    ensures f.path in inv && f.op == OperationOf(inv[f.path])
    ensures inv[f.path].src == f.path ==> f.source == ""
    ensures inv[f.path].src != f.path ==> f.source == inv[f.path].src
    ensures f.path !in wt ==> f.hash == sha([]) && f.link == [] && f.mode == Mode.Plain
    ensures f.path in wt && f.path in staged ==> f.mode == staged[f.path]
    ensures f.path in wt && wt[f.path].File? ==>
      f.hash == sha(wt[f.path].content) && f.link == [] && (f.path !in staged ==> f.mode == wt[f.path].mode)
    ensures f.path in wt && wt[f.path].Link? ==> f.hash == sha(wt[f.path].target) && f.link == wt[f.path].target
    ensures f.path in wt && f.path !in staged && wt[f.path].Link? ==>
      match wt[f.path].far
      case Nowhere => f.mode == Mode.Plain
      case ToDirectory => f.mode == Executable
      case ToFile(executable, _) => f.mode == if executable then Executable else Symlink
  {
    hide OperationOf;
    hide Decide;
    hide CandidateOf;
    BuiltHolds(sha, wt, staged, inv, listing, f);
  }

  // ---- the manifest hash ----

  function ByPath(): (FileOp, FileOp) -> bool { (f: FileOp, g: FileOp) => StrLess(f.path, g.path) }

  function ManifestHash(sha: string -> string, enc: (seq<FileOp>, seq<Path>) -> string, files: seq<FileOp>,
        excluded: seq<Path>): string {
    sha(enc(Sort(files, ByPath()), Sort(excluded, StrLess)))
  }

  lemma PathOrder(files: seq<FileOp>)
    ensures StrictWeak(ByPath())
    ensures DistinctPaths(files) ==> TellsApart(files, ByPath())
  {
    StrOrder();
    var lt := ByPath();
    forall x, y, z | !lt(x, y) && !lt(y, z)
      ensures !lt(x, z)
    {
      StrLessNegTrans(x.path, y.path, z.path);
    }
    if DistinctPaths(files) {
      forall f, g | f in files && g in files
        ensures lt(f, g) || lt(g, f) || f == g
      {
        StrLessTotal(f.path, g.path);
        var i :| 0 <= i < |files| && files[i] == f;
        var k :| 0 <= k < |files| && files[k] == g;
      }
    }
  }

  /** Canonical: with distinct paths, two manifests hash alike exactly when
      they hold the same operations and exclusions, in whatever order they
      were enumerated. */
  lemma HashCanonical(sha: string -> string, enc: (seq<FileOp>, seq<Path>) -> string,
                      files: seq<FileOp>, excluded: seq<Path>, files': seq<FileOp>, excluded': seq<Path>)
    requires forall x, y :: sha(x) == sha(y) ==> x == y
    requires forall f, e, f', e' :: enc(f, e) == enc(f', e') ==> f == f' && e == e'
    requires DistinctPaths(files)
    ensures ManifestHash(sha, enc, files, excluded) == ManifestHash(sha, enc, files', excluded')
       <==> multiset(files) == multiset(files') && multiset(excluded) == multiset(excluded')
  {
    hide Sort;
    PathOrder(files);
    StrOrder();
    SortCanonical(files, files', ByPath());
    SortCanonical(excluded, excluded', StrLess);
  }
}
