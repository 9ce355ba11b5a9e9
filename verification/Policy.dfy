/** Which changed paths are published, by the text of the path. */
module Policy {
  import opened Prelude
  import opened Ordering
  import opened NameStatus
  import opened Checks
  import opened Manifest

  /** The part occurs somewhere in the text. */
  ghost predicate Within(part: string, text: string) { exists a, b :: text == a + part + b }

  predicate RuntimePart(part: string) {
    part in {
      "mxs_", "fixture-status.json", ".ai/worktrees/", ".curaops/control/", "outbox.jsonl", "control-plane.sock",
      "__pycache__/", ".pyc", ".pytest_cache/", ".mypy_cache/", ".ruff_cache/", ".hermes/", "hermes-home/"}
  }

  predicate ForbiddenPart(part: string) {
    part in {
      ".git/", ".git$", ".env", "secrets.env", ".venv/", "__pycache__/", "node_modules/", ".pytest_cache/",
      ".mypy_cache/", ".ruff_cache/", "*.pyc", "*.log", ".local/", "*.secret", "credentials", ".ssh/", ".config/",
      "coverage/", "dist/", "build/", ".hermes/", "fixture-status.json", "fixture_out", "*.stdout.txt",
      "*.stderr.txt", "mxs_", ".ai/worktrees/", ".ai/state/", ".worktrees/", ".sisyphus/", "control-plane.sock",
      "outbox.jsonl"}
  }

  /** A runtime artefact, whatever the case of its letters. */
  ghost predicate Runtime(path: Path) { exists part :: RuntimePart(part) && Within(part, Lower(path)) }

  /** A secret, a dependency or a build product, whatever the case of its
      letters. */
  ghost predicate Forbidden(path: Path) { exists part :: ForbiddenPart(part) && Within(part, Lower(path)) }

  lemma WithinIs(part: string, text: string)
    ensures Contains(part, text) <==> Within(part, text)
  {
    if Contains(part, text) {
      var i :| 0 <= i <= |text| && OccursAt(part, text, i);
      assert text == text[..i] + part + text[i + |part|..];
    }
    if a, b :| text == a + part + b {
      assert text[|a|..|a| + |part|] == part;
      assert OccursAt(part, text, |a|);
    }
  }

  lemma RuntimeIs(path: Path)
    ensures AnyPart(RUNTIME_PARTS, Lower(path)) <==> Runtime(path)
  {
    hide Lower;
    hide Contains;
    hide Within;
    forall part
      ensures Contains(part, Lower(path)) <==> Within(part, Lower(path))
    {
      WithinIs(part, Lower(path));
    }
    if Runtime(path) {
      var part :| RuntimePart(part) && Within(part, Lower(path));
      assert part in RUNTIME_PARTS;
    }
    if AnyPart(RUNTIME_PARTS, Lower(path)) {
      var i :| 0 <= i < |RUNTIME_PARTS| && Contains(RUNTIME_PARTS[i], Lower(path));
      assert RuntimePart(RUNTIME_PARTS[i]) && Within(RUNTIME_PARTS[i], Lower(path));
    }
  }

  lemma ForbiddenIs(path: Path)
    ensures AnyPart(FORBIDDEN_PARTS, Lower(path)) <==> Forbidden(path)
  {
    hide Lower;
    hide Contains;
    hide Within;
    forall part
      ensures Contains(part, Lower(path)) <==> Within(part, Lower(path))
    {
      WithinIs(part, Lower(path));
    }
    if Forbidden(path) {
      var part :| ForbiddenPart(part) && Within(part, Lower(path));
      assert part in FORBIDDEN_PARTS;
    }
    if AnyPart(FORBIDDEN_PARTS, Lower(path)) {
      var i :| 0 <= i < |FORBIDDEN_PARTS| && Contains(FORBIDDEN_PARTS[i], Lower(path));
      assert ForbiddenPart(FORBIDDEN_PARTS[i]) && Within(FORBIDDEN_PARTS[i], Lower(path));
    }
  }

  /** A session log starts with a runtime part: the rule for session logs
      leaves out nothing that the runtime parts would not. */
  lemma LogsAreRuntime(path: Path)
    requires OccursAt("mxs_", Lower(path), 0)
    ensures AnyPart(RUNTIME_PARTS, Lower(path))
  {
    hide Lower;
    assert RUNTIME_PARTS[0] == "mxs_";
    assert Contains(RUNTIME_PARTS[0], Lower(path));
  }

  /** Each path is left out, refused or published by the parts it contains. */
  lemma DecisionExactly(path: Path)
    ensures Decide(path) == Exclude <==> Runtime(path)
    ensures Decide(path) == Deny <==> Forbidden(path) && !Runtime(path)
    ensures Decide(path) == Allow <==> !Forbidden(path) && !Runtime(path)
  {
    hide AnyPart;
    hide Runtime;
    hide Forbidden;
    hide Lower;
    hide OccursAt;
    RuntimeIs(path);
    ForbiddenIs(path);
    if OccursAt("mxs_", Lower(path), 0) { LogsAreRuntime(path); }
  }

  /** A candidate is refused for its paths if and only if some changed path
      contains a forbidden part and no runtime part; it is built if and only if
      there is no such path, and some path contains neither. */
  lemma RefusedExactly(sha: Bytes -> string, wt: Worktree, staged: map<Path, Mode>, inv: map<Path, Entry>,
        listing: seq<Path>)
    requires Lists(listing, inv)
    ensures var r := CandidateOf(sha, wt, staged, inv, listing);
      && (r.ForbiddenPath? <==> exists p :: p in inv && Forbidden(p) && !Runtime(p))
      && (r.Built? <==> (forall p :: p in inv && Forbidden(p) ==> Runtime(p))
                        && (exists p :: p in inv && !Forbidden(p) && !Runtime(p)))
  {
    hide Decide;
    hide Runtime;
    hide Forbidden;
    hide CandidateOf;
    BuiltExactly(sha, wt, staged, inv, listing);
    forall p
      ensures (Decide(p) == Deny <==> Forbidden(p) && !Runtime(p)) && (Decide(p) == Allow <==> !Forbidden(p) && !Runtime(p))
    {
      DecisionExactly(p);
    }
  }

  /** A built candidate publishes exactly the changed paths without any listed
      part, each once, and lists exactly those with a runtime part as excluded. */
  lemma PublishedPaths(sha: Bytes -> string, wt: Worktree, staged: map<Path, Mode>, inv: map<Path, Entry>,
        listing: seq<Path>, path: Path)
    requires Lists(listing, inv) && CandidateOf(sha, wt, staged, inv, listing).Built?
    ensures var r := CandidateOf(sha, wt, staged, inv, listing);
      && ((exists i :: 0 <= i < |r.files| && r.files[i].path == path) <==> path in inv && !Forbidden(path) && !Runtime(path))
      && (forall i, k :: 0 <= i < k < |r.files| ==> r.files[i].path != r.files[k].path)
      && (path in r.excluded <==> path in inv && Runtime(path))
  {
    hide Decide;
    hide Runtime;
    hide Forbidden;
    hide CandidateOf;
    hide Describe;
    DecisionExactly(path);
    var r := CandidateOf(sha, wt, staged, inv, listing);
    if path in inv {
      var f := Describe(sha, wt, staged, path, inv[path]);
      DescribeKeepsPath(sha, wt, staged, path, inv[path]);
      BuiltHolds(sha, wt, staged, inv, listing, f);
      if f in r.files { var i :| 0 <= i < |r.files| && r.files[i] == f; }
    }
    if i :| 0 <= i < |r.files| && r.files[i].path == path {
      BuiltHolds(sha, wt, staged, inv, listing, r.files[i]);
    }
    if Lists(listing, inv) { BuiltHolds(sha, wt, staged, inv, listing, FileOp(Add, path, "", Mode.Plain, "", [])); }
  }

  lemma DescribeKeepsPath(sha: Bytes -> string, wt: Worktree, staged: map<Path, Mode>, path: Path, e: Entry)
    ensures Describe(sha, wt, staged, path, e).path == path
  {
  }

  // ---- paths ----

  lemma TooLong(part: string, text: string)
    requires |part| > |text|
    ensures !Within(part, text)
  {
  }

  lemma LacksChar(part: string, text: string, i: nat)
    requires i < |part| && part[i] !in text
    ensures !Within(part, text)
  {
    forall a, b
      ensures text != a + part + b
    {
      var whole := a + part + b;
      assert whole[|a| + i] == part[i];
    }
  }

  /** The shortest parts have four letters. */
  lemma ShortParts(part: string)
    requires RuntimePart(part) || ForbiddenPart(part)
    ensures |part| >= 4
    ensures |part| == 4 ==> part in {"mxs_", ".pyc", ".env"}
  {
  }

  /** A path of up to three letters is published. */
  lemma ShortPath(path: Path)
    requires |path| <= 3
    ensures Decide(path) == Allow
  {
    hide Lower;
    hide Decide;
    hide RuntimePart;
    hide ForbiddenPart;
    hide Within;
    DecisionExactly(path);
    LowerIs(path);
    forall part | RuntimePart(part) || ForbiddenPart(part)
      ensures !Within(part, Lower(path))
    {
      ShortParts(part);
      TooLong(part, Lower(path));
    }
  }

  lemma FourParts(text: string)
    requires text == ".env"
    ensures !Within("mxs_", text) && !Within(".pyc", text)
  {
    LacksChar("mxs_", text, 0);
    LacksChar(".pyc", text, 1);
  }

  lemma EnvWithin(text: string)
    requires text == ".env"
    ensures ForbiddenPart(text) && Within(text, text)
  {
    assert text == [] + text + [];
  }

  lemma EnvNotRuntime(part: string, text: string)
    requires text == ".env" && RuntimePart(part)
    ensures !Within(part, text)
  {
    ShortParts(part);
    hide RuntimePart;
    hide Within;
    if |part| > 4 {
      TooLong(part, text);
    } else {
      FourParts(text);
      RuntimeFour(part);
    }
  }

  lemma RuntimeFour(part: string)
    requires RuntimePart(part) && |part| == 4
    ensures part == "mxs_" || part == ".pyc"
  {
  }

  /** A secrets file is refused. */
  lemma SecretRefused()
    ensures Decide(".env") == Deny
  {
    hide Decide;
    LowerKeeps(".env");
    hide Lower;
    hide RuntimePart;
    hide ForbiddenPart;
    hide Within;
    DecisionExactly(".env");
    EnvWithin(".env");
    forall part | RuntimePart(part)
      ensures !Within(part, ".env")
    {
      EnvNotRuntime(part, ".env");
    }
  }

  lemma WithinAt(part: string, text: string, i: nat)
    requires i + |part| <= |text| && text[i..i + |part|] == part
    ensures Within(part, text)
  {
    assert text == text[..i] + part + text[i + |part|..];
  }

  /** Whatever starts like a session log is left out. */
  lemma SessionLogLeftOut(path: Path)
    requires |path| >= 4 && path[..4] == "mxs_"
    ensures Decide(path) == Exclude
  {
    hide Decide;
    hide Lower;
    DecisionExactly(path);
    LowerIs(path);
    assert forall i :: 0 <= i < 4 ==> path[i] == "mxs_"[i];
    assert Lower(path)[0..4] == "mxs_";
    assert RuntimePart("mxs_");
    WithinAt("mxs_", Lower(path), 0);
  }

  lemma SessionLogs()
    ensures Decide("mxs_1.stdout.txt") == Exclude && Decide("mxs_1.stderr.txt") == Exclude
  {
    hide Decide;
    hide RuntimePart;
    SessionLogLeftOut("mxs_1.stdout.txt");
    SessionLogLeftOut("mxs_1.stderr.txt");
  }

  /** The patterns with a star are compared letter by letter: no path without a
      star is refused for one of them. */
  lemma StarsAreLiteral(path: Path, part: string)
    requires '*' !in path && part in {"*.pyc", "*.log", "*.secret", "*.stdout.txt", "*.stderr.txt"}
    ensures !Within(part, Lower(path))
  {
    LowerIs(path);
    assert '*' !in Lower(path);
    LacksChar(part, Lower(path), 0);
  }

  lemma FiveLetters(part: string)
    requires RuntimePart(part) || ForbiddenPart(part)
    ensures |part| <= 5 ==> part in {"mxs_", ".pyc", ".env", ".git/", ".git$", "*.pyc", "*.log", ".ssh/", "dist/"}
  {
  }

  lemma NotInLog(part: string, text: string)
    requires text == "a.log"
    requires part in {"mxs_", ".pyc", ".env", ".git/", ".git$", "*.pyc", "*.log", ".ssh/", "dist/"}
    ensures !Within(part, text)
  {
    if part == "mxs_" || part == "*.pyc" || part == "*.log" || part == "dist/" {
      LacksChar(part, text, 0);
    } else if part == ".pyc" || part == ".env" || part == ".ssh/" {
      LacksChar(part, text, 1);
    } else {
      LacksChar(part, text, 2);
    }
  }

  /** So a log file is published, although the list of forbidden patterns names
      all log files. */
  lemma LogFilePublished()
    ensures Decide("a.log") == Allow
  {
    hide Decide;
    LowerKeeps("a.log");
    hide Lower;
    DecisionExactly("a.log");
    hide RuntimePart;
    hide ForbiddenPart;
    hide Within;
    forall part | RuntimePart(part) || ForbiddenPart(part)
      ensures !Within(part, "a.log")
    {
      FiveLetters(part);
      if |part| > 5 { TooLong(part, "a.log"); } else { NotInLog(part, "a.log"); }
    }
  }
}
