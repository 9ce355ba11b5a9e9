/** Publication: the stale check and the tree built from base and manifest. */
module Publish {
  import opened Prelude
  import opened Ordering
  import opened NameStatus
  import opened Manifest
  import opened Policy

  datatype Blob = Blob(mode: Mode, content: Bytes)
  type Index = map<Path, Blob>

  datatype Outcome = Ok(index: Index) | Missing(path: Path) | GitError(path: Path)

  datatype Staleness = Fresh | HeadChanged | NotDeleted(path: Path) | Gone(path: Path) | Altered(path: Path) | EvidenceOrArtefact

  datatype Published = Tree(index: Index) | NotApproved | Stale(why: Staleness) | Refused(step: Outcome)

  // ---- the worktree ----

  /** A regular file, or a link to one. */
  predicate IsFile(wt: Worktree, p: Path) { p in wt && (wt[p].File? || wt[p].far.ToFile?) }

  /** Anything but a link that leads nowhere. */
  predicate Exists(wt: Worktree, p: Path) { p in wt && (wt[p].File? || !wt[p].far.Nowhere?) }

  function Read(wt: Worktree, p: Path): Bytes
    requires IsFile(wt, p)
  {
    match wt[p] case File(_, content) => content case Link(_, far) => far.content
  }

  function NodeBlob(n: Node): Blob {
    match n case File(mode, content) => Blob(mode, content) case Link(target, _) => Blob(Symlink, target)
  }

  // ---- the stale check ----

  /** A manifest entry still describes the worktree. */
  predicate Intact(sha: Bytes -> string, wt: Worktree, f: FileOp) { Problem(sha, wt, f).Fresh? }

  function Problem(sha: Bytes -> string, wt: Worktree, f: FileOp): Staleness {
    if f.op.Delete? then if Exists(wt, f.path) then NotDeleted(f.path) else Fresh
    else if f.link != [] then
      if f.path !in wt || !wt[f.path].Link? then Gone(f.path)
      else if sha(wt[f.path].target) != f.hash then Altered(f.path)
      else Fresh
    else if !IsFile(wt, f.path) then Gone(f.path)
    else if sha(Read(wt, f.path)) != f.hash then Altered(f.path)
    else Fresh
  }

  /** When an entry still describes the worktree, kind by kind: what was to be
      deleted is gone; a link has the target it had; a file, or the file a link
      leads to, has the bytes it had. */
  lemma IntactExactly(sha: Bytes -> string, wt: Worktree, f: FileOp)
    ensures f.op == Delete ==>
      (Intact(sha, wt, f) <==> f.path !in wt || (wt[f.path].Link? && wt[f.path].far == Nowhere))
    ensures f.op != Delete && f.link != [] ==>
      (Intact(sha, wt, f) <==> f.path in wt && wt[f.path].Link? && sha(wt[f.path].target) == f.hash)
    ensures f.op != Delete && f.link == [] ==>
      (Intact(sha, wt, f) <==>
         f.path in wt
         && match wt[f.path]
            case File(_, content) => sha(content) == f.hash
            case Link(_, far) => far.ToFile? && sha(far.content) == f.hash)
  {
  }

  function FirstProblem(sha: Bytes -> string, wt: Worktree, files: seq<FileOp>): Staleness {
    if files == [] then Fresh
    else if Intact(sha, wt, files[0]) then FirstProblem(sha, wt, files[1..])
    else Problem(sha, wt, files[0])
  }

  function StaleBecause(sha: Bytes -> string, wt: Worktree, files: seq<FileOp>, head: bool, outside: bool): Staleness {
    if head then HeadChanged
    else if !FirstProblem(sha, wt, files).Fresh? then FirstProblem(sha, wt, files)
    else if outside then EvidenceOrArtefact
    else Fresh
  }

  /** `head`: the worktree's head or tree changed. `outside`: evidence changed
      or a forbidden untracked file turned up. */
  method CheckStale(sha: Bytes -> string, wt: Worktree, files: seq<FileOp>, head: bool,
        outside: bool) returns (why: Staleness)
    ensures why == StaleBecause(sha, wt, files, head, outside)
  {
    if head { return HeadChanged; }
    for i := 0 to |files|
      invariant FirstProblem(sha, wt, files) == FirstProblem(sha, wt, files[i..])
    {
      assert files[i..][0] == files[i] && files[i..][1..] == files[i + 1..];
      why := Problem(sha, wt, files[i]);
      if !why.Fresh? { return why; }
    }
    if outside { return EvidenceOrArtefact; }
    return Fresh;
  }

  lemma {:induction false} AllIntact(sha: Bytes -> string, wt: Worktree, files: seq<FileOp>)
    ensures FirstProblem(sha, wt, files).Fresh? <==> forall i :: 0 <= i < |files| ==> Intact(sha, wt, files[i])
  {
    hide Problem;
    if files != [] {
      AllIntact(sha, wt, files[1..]);
      assert forall i :: 1 <= i < |files| ==> files[i] == files[1..][i - 1];
      if Intact(sha, wt, files[0]) && FirstProblem(sha, wt, files).Fresh? {
        forall i | 0 <= i < |files|
          ensures Intact(sha, wt, files[i])
        {
          if i > 0 { assert Intact(sha, wt, files[1..][i - 1]); }
        }
      }
    }
  }

  // ---- the index ----

  /** `update-index --remove`: drop a path that is gone, refresh one that is
      not; a path that is there but not in the index is an error. */
  function RemoveOrRefresh(idx: Index, wt: Worktree, p: Path): Outcome {
    if p !in wt then Ok(idx - {p})
    else if p in idx then Ok(idx[p := NodeBlob(wt[p])])
    else GitError(p)
  }

  const LINK_PREFIX: Bytes := [0x6C, 0x69, 0x6E, 0x6B, 0x00]

  predicate HasSource(f: FileOp) { (f.op.Rename? || f.op.Copy?) && f.source != "" && f.source != f.path }

  function ApplyOp(idx: Index, wt: Worktree, f: FileOp): Outcome {
    if f.op.Delete? then RemoveOrRefresh(idx, wt, f.path)
    else if f.link != [] then
      if f.path in wt && wt[f.path].Link?
      then Ok(idx[f.path := Blob(Symlink, LINK_PREFIX + wt[f.path].target)]) else Missing(f.path)
    else if !IsFile(wt, f.path) then Missing(f.path)
    else
      var r := if HasSource(f) then RemoveOrRefresh(idx, wt, f.source) else Ok(idx);
      if r.Ok? then Ok(r.index[f.path := Blob(f.mode, Read(wt, f.path))]) else r
  }

  function ApplyAll(base: Index, wt: Worktree, files: seq<FileOp>): Outcome {
    if files == [] then Ok(base)
    else
      var n := |files| - 1;
      var before := ApplyAll(base, wt, files[..n]);
      if before.Ok? then ApplyOp(before.index, wt, files[n]) else before
  }

  function Commit(sha: Bytes -> string, base: Index, wt: Worktree, files: seq<FileOp>, approved: bool, head: bool,
        outside: bool): Published {
    if !approved then NotApproved
    else if !StaleBecause(sha, wt, files, head, outside).Fresh? then Stale(StaleBecause(sha, wt, files, head, outside))
    else
      var r := ApplyAll(base, wt, files);
      if r.Ok? then Tree(r.index) else Refused(r)
  }

  /** The commit starts from the base tree and applies the manifest, entry by
      entry, to a temporary index. */
  method CommitCandidate(sha: Bytes -> string, base: Index, wt: Worktree, files: seq<FileOp>, approved: bool,
        head: bool, outside: bool)
    returns (r: Published)
    ensures r == Commit(sha, base, wt, files, approved, head, outside)
  {
    hide ApplyOp;
    if !approved { return NotApproved; }
    var why := CheckStale(sha, wt, files, head, outside);
    if !why.Fresh? { return Stale(why); }
    var idx := base;
    for i := 0 to |files|
      invariant ApplyAll(base, wt, files[..i]) == Ok(idx)
    {
      assert files[..i + 1][..i] == files[..i];
      var step := Apply(idx, wt, files[i]);
      if !step.Ok? {
        FailureStays(base, wt, files, i + 1);
        return Refused(step);
      }
      idx := step.index;
    }
    assert files[..|files|] == files;
    return Tree(idx);
  }

  method Apply(index: Index, wt: Worktree, f: FileOp) returns (r: Outcome)
    ensures r == ApplyOp(index, wt, f)
  {
    var idx := index;
    if f.op.Delete? { return RemoveOrRefresh(idx, wt, f.path); }
    if f.link != [] {
      if f.path !in wt || !wt[f.path].Link? { return Missing(f.path); }
      idx := idx[f.path := Blob(Symlink, LINK_PREFIX + wt[f.path].target)];
      return Ok(idx);
    }
    if !IsFile(wt, f.path) { return Missing(f.path); }
    if (f.op.Rename? || f.op.Copy?) && f.source != "" && f.source != f.path {
      var removed := RemoveOrRefresh(idx, wt, f.source);
      if !removed.Ok? { return removed; }
      idx := removed.index;
    }
    idx := idx[f.path := Blob(f.mode, Read(wt, f.path))];
    return Ok(idx);
  }

  lemma {:induction false} FailureStays(base: Index, wt: Worktree, files: seq<FileOp>, i: nat)
    requires i <= |files| && !ApplyAll(base, wt, files[..i]).Ok?
    ensures ApplyAll(base, wt, files) == ApplyAll(base, wt, files[..i])
  {
    hide ApplyOp;
    if i < |files| {
      assert files[..|files| - 1][..i] == files[..i];
      FailureStays(base, wt, files[..|files| - 1], i);
    } else {
      assert files[..i] == files;
    }
  }

  // ---- what the tree should be ----

  /** Regular files: added, modified, changed in type, deleted or renamed. */
  predicate Regular(f: FileOp) { f.link == [] && !f.op.Copy? }

  /** An entry asks for a path to go: its own, or the source of its rename. */
  predicate Drops(f: FileOp, p: Path) { if f.op.Delete? then f.path == p else HasSource(f) && f.source == p }

  /** The paths that must end up absent, unless they are written too. */
  function Dropped(files: seq<FileOp>): set<Path> {
    if files == [] then {}
    else
      var f := files[|files| - 1];
      Dropped(files[..|files| - 1])
      + (if f.op.Delete? then {f.path} else {}) + (if !f.op.Delete? && HasSource(f) then {f.source} else {})
  }

  predicate AllFiles(wt: Worktree, files: seq<FileOp>) {
    forall i :: 0 <= i < |files| && !files[i].op.Delete? ==> IsFile(wt, files[i].path)
  }

  /** What each written path must hold. */
  function Written(wt: Worktree, files: seq<FileOp>): Index
    requires AllFiles(wt, files)
  {
    if files == [] then map[]
    else
      var f := files[|files| - 1];
      var before := Written(wt, files[..|files| - 1]);
      if f.op.Delete? then before else before[f.path := Blob(f.mode, Read(wt, f.path))]
  }

  /** Base without the dropped paths, and with the written ones. */
  function Exact(base: Index, w: Index, d: set<Path>): Index {
    map p | p in (base.Keys - d) + w.Keys :: if p in w then w[p] else base[p]
  }

  /** What is really built: a dropped path that is still in the worktree is
      refreshed from there instead. */
  function Real(base: Index, wt: Worktree, w: Index, d: set<Path>): Index {
    map p | p in base.Keys + w.Keys && (p in w || p !in d || p in wt) ::
      if p in w then w[p] else if p in d && p in wt then NodeBlob(wt[p]) else base[p]
  }

  /** A path that is dropped but still in the worktree is in the index when
      its turn comes: base had it, or an earlier entry wrote it. */
  predicate Known(base: Index, wt: Worktree, files: seq<FileOp>)
    requires AllFiles(wt, files)
  {
    forall k, p :: 0 <= k < |files| && Drops(files[k], p) && p in wt ==> p in base || p in Written(wt, files[..k])
  }

  /** A path that an entry wrote and a later one drops was written with the
      mode and bytes it has in the worktree. */
  predicate Harmless(wt: Worktree, files: seq<FileOp>)
    requires AllFiles(wt, files)
  {
    forall k, p :: 0 <= k < |files| && Drops(files[k], p) && p in wt && p in Written(wt, files[..k]) ==>
      Written(wt, files[..k])[p] == NodeBlob(wt[p])
  }

  lemma {:induction false} WrittenAreFiles(wt: Worktree, files: seq<FileOp>)
    requires AllFiles(wt, files)
    ensures forall p :: p in Written(wt, files) ==> IsFile(wt, p)
  {
    hide IsFile;
    if files != [] { WrittenAreFiles(wt, files[..|files| - 1]); }
  }

  lemma RemoveStep(base: Index, wt: Worktree, w: Index, d: set<Path>, p: Path)
    requires p in w ==> p in wt && w[p] == NodeBlob(wt[p])
    requires p in wt ==> p in base || p in w
    ensures RemoveOrRefresh(Real(base, wt, w, d), wt, p) == Ok(Real(base, wt, w, d + {p}))
  {
    var idx := Real(base, wt, w, d);
    var idx' := Real(base, wt, w, d + {p});
    if p !in wt {
      assert idx' == idx - {p};
    } else {
      assert p in idx;
      assert idx' == idx[p := NodeBlob(wt[p])];
    }
  }

  lemma WriteStep(base: Index, wt: Worktree, w: Index, d: set<Path>, p: Path, b: Blob)
    ensures Real(base, wt, w, d)[p := b] == Real(base, wt, w[p := b], d)
  {
  }

  lemma OneOp(base: Index, wt: Worktree, w: Index, d: set<Path>, f: FileOp)
    requires Regular(f) && forall x :: x in w ==> x in wt
    requires if f.op.Delete? then !IsFile(wt, f.path) else IsFile(wt, f.path)
    requires forall p :: Drops(f, p) && p in wt ==> p in base || p in w
    requires forall p :: Drops(f, p) && p in w ==> w[p] == NodeBlob(wt[p])
    ensures var w' := if f.op.Delete? then w else w[f.path := Blob(f.mode, Read(wt, f.path))];
      ApplyOp(Real(base, wt, w, d), wt, f) == Ok(Real(base, wt, w', d + Dropped([f])))
  {
    hide Real;
    hide RemoveOrRefresh;
    DroppedOne(f);
    if f.op.Delete? {
      assert Drops(f, f.path);
      RemoveStep(base, wt, w, d, f.path);
    } else {
      var b := Blob(f.mode, Read(wt, f.path));
      if HasSource(f) {
        assert Drops(f, f.source);
        RemoveStep(base, wt, w, d, f.source);
        WriteStep(base, wt, w, d + {f.source}, f.path, b);
      } else {
        assert d + {} == d;
        WriteStep(base, wt, w, d, f.path, b);
      }
    }
  }

  lemma DroppedOne(f: FileOp)
    ensures Dropped([f]) == if f.op.Delete? then {f.path} else if HasSource(f) then {f.source} else {}
  {
    assert [f][..0] == [];
    assert Dropped([f][..0]) == {};
  }

  lemma DroppedStep(files: seq<FileOp>)
    requires files != []
    ensures Dropped(files) == Dropped(files[..|files| - 1]) + Dropped([files[|files| - 1]])
  {
    DroppedOne(files[|files| - 1]);
  }

  predicate Sane(wt: Worktree, files: seq<FileOp>) {
    forall i :: 0 <= i < |files| ==>
      Regular(files[i]) && (if files[i].op.Delete? then !IsFile(wt, files[i].path) else IsFile(wt, files[i].path))
  }

  lemma FewerFiles(base: Index, wt: Worktree, files: seq<FileOp>)
    requires files != [] && Sane(wt, files) && AllFiles(wt, files)
    ensures var n := |files| - 1;
      && Sane(wt, files[..n]) && AllFiles(wt, files[..n])
      && (Known(base, wt, files) <==>
           Known(base, wt, files[..n])
           && forall p :: Drops(files[n], p) && p in wt ==> p in base || p in Written(wt, files[..n]))
      && (Harmless(wt, files) ==> Harmless(wt, files[..n]))
  {
    hide IsFile;
    hide Drops;
    hide Written;
    hide Regular;
    var n := |files| - 1;
    assert forall k :: 0 <= k < n ==> files[..n][k] == files[k] && files[..n][..k] == files[..k];
  }

  /** Entry by entry, the index is what the entries so far make of it. */
  lemma {:induction false} BuildsReal(base: Index, wt: Worktree, files: seq<FileOp>)
    requires Sane(wt, files) && AllFiles(wt, files) && Known(base, wt, files) && Harmless(wt, files)
    ensures ApplyAll(base, wt, files) == Ok(Real(base, wt, Written(wt, files), Dropped(files)))
  {
    hide IsFile;
    hide ApplyOp;
    hide Real;
    hide Regular;
    hide Drops;
    if files == [] {
      RealOfNothing(base, wt);
    } else {
      var n := |files| - 1;
      FewerFiles(base, wt, files);
      DroppedStep(files);
      BuildsReal(base, wt, files[..n]);
      WrittenAreThere(wt, files[..n]);
      OneOp(base, wt, Written(wt, files[..n]), Dropped(files[..n]), files[n]);
    }
  }

  lemma WrittenAreThere(wt: Worktree, files: seq<FileOp>)
    requires AllFiles(wt, files)
    ensures forall p :: p in Written(wt, files) ==> p in wt
  {
    hide Written;
    WrittenAreFiles(wt, files);
  }

  lemma RealOfNothing(base: Index, wt: Worktree)
    ensures Real(base, wt, map[], {}) == base
  {
  }

  // ---- exactness ----

  predicate AllRegular(files: seq<FileOp>) { forall i :: 0 <= i < |files| ==> Regular(files[i]) }

  lemma IntactIsSane(sha: Bytes -> string, wt: Worktree, files: seq<FileOp>)
    requires AllRegular(files) && FirstProblem(sha, wt, files).Fresh?
    ensures Sane(wt, files) && AllFiles(wt, files)
  {
    AllIntact(sha, wt, files);
    forall i | 0 <= i < |files|
      ensures Intact(sha, wt, files[i])
    {
    }
  }

  lemma KeysStep(idx: Index, wt: Worktree, f: FileOp, p: Path)
    requires Regular(f) && p in wt && ApplyOp(idx, wt, f).Ok?
    ensures p in ApplyOp(idx, wt, f).index <==> p in idx || (!f.op.Delete? && f.path == p)
  {
  }

  /** A path of the worktree never leaves the index; it comes with base or is
      written. */
  lemma {:induction false} KeysAre(base: Index, wt: Worktree, files: seq<FileOp>, p: Path)
    requires Sane(wt, files) && AllFiles(wt, files) && p in wt && ApplyAll(base, wt, files).Ok?
    ensures p in ApplyAll(base, wt, files).index <==> p in base || p in Written(wt, files)
  {
    hide ApplyOp;
    hide IsFile;
    hide Read;
    hide Regular;
    if files != [] {
      var n := |files| - 1;
      KeysAre(base, wt, files[..n], p);
      KeysStep(ApplyAll(base, wt, files[..n]).index, wt, files[n], p);
    }
  }

  lemma OpBuilds(idx: Index, wt: Worktree, f: FileOp)
    requires Regular(f) && (if f.op.Delete? then !IsFile(wt, f.path) else IsFile(wt, f.path))
    ensures ApplyOp(idx, wt, f).Ok? <==> forall p :: Drops(f, p) && p in wt ==> p in idx
  {
    if f.op.Delete? {
      assert Drops(f, f.path);
    } else if HasSource(f) {
      assert Drops(f, f.source);
    }
  }

  /** Git refuses a fresh manifest of regular files exactly when a dropped
      path is in the worktree but not yet in the index. */
  lemma {:induction false} BuildsExactly(base: Index, wt: Worktree, files: seq<FileOp>)
    requires Sane(wt, files) && AllFiles(wt, files)
    ensures ApplyAll(base, wt, files).Ok? <==> Known(base, wt, files)
  {
    hide ApplyOp;
    hide IsFile;
    hide Regular;
    hide Drops;
    hide Written;
    hide Known;
    if files == [] {
      KnownOfNothing(base, wt);
    } else {
      var n := |files| - 1;
      FewerFiles(base, wt, files);
      BuildsExactly(base, wt, files[..n]);
      var before := ApplyAll(base, wt, files[..n]);
      if before.Ok? {
        OpBuilds(before.index, wt, files[n]);
        forall p | p in wt
          ensures p in before.index <==> p in base || p in Written(wt, files[..n])
        {
          KeysAre(base, wt, files[..n], p);
        }
      }
    }
  }

  lemma KnownOfNothing(base: Index, wt: Worktree)
    ensures Known(base, wt, [])
  {
  }

  lemma RefreshStep(idx: Index, wt: Worktree, f: FileOp, p: Path)
    requires Regular(f) && p in wt && ApplyOp(idx, wt, f).Ok? && !(!f.op.Delete? && f.path == p)
    requires Drops(f, p) || (p in idx && idx[p] == NodeBlob(wt[p]))
    ensures var r := ApplyOp(idx, wt, f).index; p in r && r[p] == NodeBlob(wt[p])
  {
  }

  /** A dropped path that is in the worktree and not written from there on is
      published with what the worktree holds. */
  lemma {:induction false} Lingers(base: Index, wt: Worktree, files: seq<FileOp>, k: nat, p: Path)
    requires AllRegular(files) && ApplyAll(base, wt, files).Ok?
    requires k < |files| && Drops(files[k], p) && p in wt
    requires forall i :: k <= i < |files| && files[i].path == p ==> files[i].op.Delete?
    ensures var r := ApplyAll(base, wt, files).index; p in r && r[p] == NodeBlob(wt[p])
  {
    hide ApplyOp;
    hide Regular;
    hide Drops;
    var n := |files| - 1;
    if k < n {
      Lingers(base, wt, files[..n], k, p);
    }
    RefreshStep(ApplyAll(base, wt, files[..n]).index, wt, files[n], p);
  }

  /** What the publication of an approved, fresh manifest should yield. */
  function Expected(base: Index, wt: Worktree, files: seq<FileOp>): Index
    requires AllFiles(wt, files)
  {
    Exact(base, Written(wt, files), Dropped(files))
  }

  /** No dropped path is left in the worktree, unless the manifest writes it. */
  predicate LeftBehindNone(wt: Worktree, files: seq<FileOp>)
    requires AllFiles(wt, files)
  {
    forall p :: p in Dropped(files) ==> p !in wt || p in Written(wt, files)
  }

  lemma RealIsExact(base: Index, wt: Worktree, w: Index, d: set<Path>)
    requires forall p :: p in d ==> p !in wt || p in w
    ensures Real(base, wt, w, d) == Exact(base, w, d)
  {
  }

  lemma {:induction false} WrittenIs(wt: Worktree, files: seq<FileOp>, i: nat)
    requires AllFiles(wt, files) && DistinctPaths(files) && i < |files| && !files[i].op.Delete?
    ensures var w := Written(wt, files);
      files[i].path in w && w[files[i].path] == Blob(files[i].mode, Read(wt, files[i].path))
  {
    hide IsFile;
    hide Read;
    if i < |files| - 1 { WrittenIs(wt, files[..|files| - 1], i); }
  }

  lemma {:induction false} WrittenOnly(wt: Worktree, files: seq<FileOp>, p: Path)
    requires AllFiles(wt, files) && p in Written(wt, files)
    ensures exists i :: 0 <= i < |files| && !files[i].op.Delete? && files[i].path == p
  {
    hide IsFile;
    hide Read;
    var n := |files| - 1;
    if files[n].op.Delete? || files[n].path != p {
      WrittenOnly(wt, files[..n], p);
      var i :| 0 <= i < n && !files[..n][i].op.Delete? && files[..n][i].path == p;
      assert files[i].path == p;
    }
  }

  lemma {:induction false} DroppedOnly(files: seq<FileOp>, p: Path)
    ensures p in Dropped(files) <==> exists i :: 0 <= i < |files| && Drops(files[i], p)
  {
    hide HasSource;
    if files != [] {
      var n := |files| - 1;
      DroppedOnly(files[..n], p);
      if exists i :: 0 <= i < |files| && Drops(files[i], p) {
        var i :| 0 <= i < |files| && Drops(files[i], p);
        if i < n { assert Drops(files[..n][i], p); }
      }
      if p in Dropped(files[..n]) {
        var i :| 0 <= i < n && Drops(files[..n][i], p);
        assert Drops(files[i], p);
      }
    }
  }

  /** The good half: then the tree is the expected one. */
  lemma PublishedAsExpected(sha: Bytes -> string, base: Index, wt: Worktree, files: seq<FileOp>)
    requires AllRegular(files) && StaleBecause(sha, wt, files, false, false).Fresh? && AllFiles(wt, files)
    requires LeftBehindNone(wt, files) && Known(base, wt, files) && Harmless(wt, files)
    ensures Commit(sha, base, wt, files, true, false, false) == Tree(Expected(base, wt, files))
  {
    hide Real;
    hide ApplyAll;
    hide Written;
    hide Dropped;
    hide Known;
    hide Harmless;
    hide Regular;
    IntactIsSane(sha, wt, files);
    BuildsReal(base, wt, files);
    RealIsExact(base, wt, Written(wt, files), Dropped(files));
  }

  /** A dropped path left behind is published all the same. */
  lemma LeftBehindIsSeen(base: Index, wt: Worktree, files: seq<FileOp>)
    requires AllRegular(files) && AllFiles(wt, files) && DistinctPaths(files) && ApplyAll(base, wt, files).Ok?
    requires !LeftBehindNone(wt, files)
    ensures ApplyAll(base, wt, files).index != Expected(base, wt, files)
  {
    hide ApplyAll;
    hide Written;
    hide Dropped;
    hide Regular;
    hide Drops;
    hide IsFile;
    hide Read;
    var p :| p in Dropped(files) && p in wt && p !in Written(wt, files);
    DroppedOnly(files, p);
    var k :| 0 <= k < |files| && Drops(files[k], p);
    forall i | k <= i < |files| && files[i].path == p
      ensures files[i].op.Delete?
    {
      if !files[i].op.Delete? { WrittenIs(wt, files, i); }
    }
    Lingers(base, wt, files, k, p);
  }

  /** A path written and then refreshed differently is published differently. */
  lemma HarmIsSeen(base: Index, wt: Worktree, files: seq<FileOp>)
    requires AllRegular(files) && AllFiles(wt, files) && DistinctPaths(files) && ApplyAll(base, wt, files).Ok?
    requires !Harmless(wt, files)
    ensures ApplyAll(base, wt, files).index != Expected(base, wt, files)
  {
    hide ApplyAll;
    hide Written;
    hide Dropped;
    hide Regular;
    hide Drops;
    hide IsFile;
    hide Read;
    var k, p :| && 0 <= k < |files| && Drops(files[k], p) && p in wt && p in Written(wt, files[..k])
                && Written(wt, files[..k])[p] != NodeBlob(wt[p]);
    WrittenOnly(wt, files[..k], p);
    var i :| 0 <= i < k && !files[..k][i].op.Delete? && files[..k][i].path == p;
    WrittenIs(wt, files[..k], i);
    WrittenIs(wt, files, i);
    Lingers(base, wt, files, k, p);
  }

  /** An approved, fresh manifest of regular files yields base without the
      dropped paths and with the written ones, exactly when no dropped path is
      left in the worktree unless it is written too, and then base knows it or
      it was written before, and in that case as the worktree has it. */
  lemma PublishedExactly(sha: Bytes -> string, base: Index, wt: Worktree, files: seq<FileOp>)
    requires AllRegular(files) && DistinctPaths(files) && StaleBecause(sha, wt, files, false, false).Fresh?
    ensures AllFiles(wt, files)
    ensures Commit(sha, base, wt, files, true, false, false) == Tree(Expected(base, wt, files))
       <==> LeftBehindNone(wt, files) && Known(base, wt, files) && Harmless(wt, files)
  {
    hide ApplyAll;
    hide Known;
    hide Harmless;
    hide LeftBehindNone;
    hide Regular;
    hide FirstProblem;
    hide Expected;
    IntactIsSane(sha, wt, files);
    BuildsExactly(base, wt, files);
    if LeftBehindNone(wt, files) && Known(base, wt, files) && Harmless(wt, files) {
      PublishedAsExpected(sha, base, wt, files);
    } else if Known(base, wt, files) {
      if !LeftBehindNone(wt, files) { LeftBehindIsSeen(base, wt, files); } else { HarmIsSeen(base, wt, files); }
    }
  }

  /** In particular when deleted paths and rename sources are gone. */
  lemma PublishedWhenGone(sha: Bytes -> string, base: Index, wt: Worktree, files: seq<FileOp>)
    requires AllRegular(files) && StaleBecause(sha, wt, files, false, false).Fresh?
    requires forall p :: p in Dropped(files) ==> p !in wt
    ensures AllFiles(wt, files) && Commit(sha, base, wt, files, true, false, false) == Tree(Expected(base, wt, files))
  {
    hide Written;
    hide Dropped;
    hide Drops;
    hide Expected;
    hide Commit;
    IntactIsSane(sha, wt, files);
    forall k, p | 0 <= k < |files| && Drops(files[k], p)
      ensures p !in wt
    {
      DroppedOnly(files, p);
    }
    PublishedAsExpected(sha, base, wt, files);
  }

  /** Nothing is published without approval or from a stale manifest. */
  lemma OnlyApprovedAndFresh(sha: Bytes -> string, base: Index, wt: Worktree, files: seq<FileOp>, approved: bool,
        head: bool, outside: bool)
    requires Commit(sha, base, wt, files, approved, head, outside).Tree?
    ensures approved && !head && !outside && forall i :: 0 <= i < |files| ==> Intact(sha, wt, files[i])
  {
    hide Intact;
    hide ApplyAll;
    AllIntact(sha, wt, files);
  }

  // ---- what the expected tree holds ----

  /** Every written path holds the very bytes the manifest was frozen from;
      every path the manifest does not name is as in base. */
  lemma ExpectedHolds(sha: Bytes -> string, base: Index, wt: Worktree, files: seq<FileOp>, built: Worktree, i: nat,
        p: Path)
    requires forall x, y :: sha(x) == sha(y) ==> x == y
    requires AllRegular(files) && DistinctPaths(files) && StaleBecause(sha, wt, files, false, false).Fresh?
    requires i < |files| && !files[i].op.Delete? && files[i].hash == sha(Frozen(built, files[i].path))
    requires AllFiles(wt, files)
    ensures var t := Expected(base, wt, files);
      && files[i].path in t && t[files[i].path] == Blob(files[i].mode, Frozen(built, files[i].path))
      && ((forall k :: 0 <= k < |files| ==> files[k].path != p && !Drops(files[k], p)) ==>
            (p in t <==> p in base) && (p in base ==> t[p] == base[p]))
  {
    hide Written;
    hide Dropped;
    hide Frozen;
    hide IsFile;
    hide Read;
    WrittenIs(wt, files, i);
    AllIntact(sha, wt, files);
    assert Intact(sha, wt, files[i]) && Regular(files[i]);
    DroppedOnly(files, p);
    if p in Written(wt, files) { WrittenOnly(wt, files, p); }
  }

  /** The order of the manifest does not matter. */
  lemma ExpectedOrderFree(base: Index, wt: Worktree, files: seq<FileOp>, files': seq<FileOp>)
    requires multiset(files) == multiset(files') && DistinctPaths(files) && DistinctPaths(files')
    requires AllFiles(wt, files) && AllFiles(wt, files')
    ensures Expected(base, wt, files) == Expected(base, wt, files')
  {
    hide Written;
    hide Dropped;
    hide IsFile;
    hide Read;
    hide Drops;
    forall f
      ensures f in files <==> f in files'
    {
      assert f in files <==> f in multiset(files);
    }
    forall p
      ensures p in Dropped(files) <==> p in Dropped(files')
    {
      DroppedBoth(files, files', p);
      DroppedBoth(files', files, p);
    }
    forall p
      ensures p in Written(wt, files) <==> p in Written(wt, files')
      ensures p in Written(wt, files) ==> p in Written(wt, files') && Written(wt, files)[p] == Written(wt, files')[p]
    {
      if p in Written(wt, files) { WrittenBoth(wt, files, files', p); }
      if p in Written(wt, files') { WrittenBoth(wt, files', files, p); }
    }
    assert Written(wt, files) == Written(wt, files') && Dropped(files) == Dropped(files');
  }

  lemma DroppedBoth(files: seq<FileOp>, files': seq<FileOp>, p: Path)
    requires forall f :: f in files ==> f in files'
    ensures p in Dropped(files) ==> p in Dropped(files')
  {
    hide Dropped;
    hide Drops;
    DroppedOnly(files, p);
    DroppedOnly(files', p);
    if p in Dropped(files) {
      var i :| 0 <= i < |files| && Drops(files[i], p);
      assert files[i] in files';
    }
  }

  lemma WrittenBoth(wt: Worktree, files: seq<FileOp>, files': seq<FileOp>, p: Path)
    requires (forall f :: f in files ==> f in files') && AllFiles(wt, files) && AllFiles(wt, files')
    requires DistinctPaths(files) && DistinctPaths(files') && p in Written(wt, files)
    ensures p in Written(wt, files') && Written(wt, files')[p] == Written(wt, files)[p]
  {
    hide Written;
    hide IsFile;
    hide Read;
    WrittenOnly(wt, files, p);
    var i :| 0 <= i < |files| && !files[i].op.Delete? && files[i].path == p;
    WrittenIs(wt, files, i);
    assert files[i] in files';
    var k :| 0 <= k < |files'| && files'[k] == files[i];
    WrittenIs(wt, files', k);
  }

  /** From inventory to tree: what an allowed path held when the candidate was
      built is what its publication holds, if deleted paths and rename sources
      are gone and everything is a regular file. */
  lemma BuiltThenPublished(sha: Bytes -> string, wt: Worktree, staged: map<Path, Mode>, inv: map<Path, Entry>,
        listing: seq<Path>,
                           base: Index, later: Worktree, path: Path)
    requires forall x, y :: sha(x) == sha(y) ==> x == y
    requires Lists(listing, inv) && CandidateOf(sha, wt, staged, inv, listing).Built?
    requires var files := CandidateOf(sha, wt, staged, inv, listing).files;
      && AllRegular(files) && StaleBecause(sha, later, files, false, false).Fresh?
      && forall p :: p in Dropped(files) ==> p !in later
    requires path in inv && !Forbidden(path) && !Runtime(path) && !OperationOf(inv[path]).Delete?
    ensures var files := CandidateOf(sha, wt, staged, inv, listing).files;
      var r := Commit(sha, base, later, files, true, false, false);
      r.Tree? && path in r.index && r.index[path] == Blob(ModeOf(wt, staged, path), Frozen(wt, path))
  {
    hide Decide;
    hide OperationOf;
    hide CandidateOf;
    hide Dropped;
    hide Commit;
    hide Expected;
    hide StaleBecause;
    hide Frozen;
    hide ModeOf;
    hide IsFile;
    hide Forbidden;
    hide Runtime;
    DecisionExactly(path);
    var files := CandidateOf(sha, wt, staged, inv, listing).files;
    var f := Describe(sha, wt, staged, path, inv[path]);
    BuiltHolds(sha, wt, staged, inv, listing, f);
    var i :| 0 <= i < |files| && files[i] == f;
    PublishedWhenGone(sha, base, later, files);
    ExpectedHolds(sha, base, later, files, wt, i, path);
  }

  // ---- where the tree is not exact ----

  /** A rename whose source was created again: the old path is published with
      the worktree's content instead of being removed. */
  lemma RenameSourceStays(sha: Bytes -> string, x: Bytes, y: Bytes)
    ensures var base: Index := map["a" := Blob(Mode.Plain, x)];
      var wt: Worktree := map["a" := File(Mode.Plain, y), "b" := File(Mode.Plain, x)];
      var f := FileOp(Rename, "b", "a", Mode.Plain, sha(x), []);
      && Commit(sha, base, wt, [f], true, false, false)
         == Tree(map["a" := Blob(Mode.Plain, y), "b" := Blob(Mode.Plain, x)])
      && AllFiles(wt, [f]) && Expected(base, wt, [f]) == map["b" := Blob(Mode.Plain, x)]
  {
    var base: Index := map["a" := Blob(Mode.Plain, x)];
    var wt: Worktree := map["a" := File(Mode.Plain, y), "b" := File(Mode.Plain, x)];
    var f := FileOp(Rename, "b", "a", Mode.Plain, sha(x), []);
    assert "a" != "b" by { assert "a"[0] != "b"[0]; }
    assert [f][..0] == [] && [f][1..] == [];
    assert ApplyAll(base, wt, [f][..0]) == Ok(base);
    DroppedOne(f);
    assert HasSource(f);
    assert FirstProblem(sha, wt, [f]) == Fresh by { assert Intact(sha, wt, f); }
    assert ApplyOp(base, wt, f) == Ok(map["a" := Blob(Mode.Plain, y), "b" := Blob(Mode.Plain, x)]);
    assert ApplyAll(base, wt, [f]) == ApplyOp(base, wt, f);
    assert Written(wt, [f][..0]) == map[];
    assert Written(wt, [f]) == map["b" := Blob(Mode.Plain, x)];
    assert Dropped([f]) == {"a"};
  }

  /** A published link never leads where the worktree's link does: its blob
      carries a prefix. */
  lemma LinkBlobDiffers(idx: Index, wt: Worktree, f: FileOp)
    requires !f.op.Delete? && f.link != [] && ApplyOp(idx, wt, f).Ok?
    ensures f.path in wt && wt[f.path].Link?
    ensures ApplyOp(idx, wt, f).index[f.path] == Blob(Symlink, LINK_PREFIX + wt[f.path].target)
    ensures ApplyOp(idx, wt, f).index[f.path] != NodeBlob(wt[f.path])
  {
    assert |LINK_PREFIX + wt[f.path].target| == 5 + |wt[f.path].target|;
  }
}
