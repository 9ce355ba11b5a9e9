/** Check and review summaries, and the delivery state derived from them. */
module Delivery {
  import opened Prelude
  import opened Ordering
  import opened Checks

  // ---- summaries ----

  datatype Class = Success | Failure | Pending | Other

  function ClassOf(row: Row): Class {
    var status := Lower(row.status);
    var conclusion := Lower(row.conclusion);
    if status == "completed" && conclusion in {"success", "neutral", "skipped"} then Success
    else if status == "completed"
            && conclusion in {"failure", "timed_out", "cancelled", "action_required", "stale", "startup_failure"} then Failure
    else if status in {"queued", "in_progress", "waiting", "requested", "pending"} then Pending
    else Other
  }

  /** In GitHub's words: completed, with a conclusion that counts as a success. */
  predicate Succeeded(row: Row) {
    Lower(row.status) == "completed" && Lower(row.conclusion) in {"success", "neutral", "skipped"}
  }

  /** Completed, with one of the six conclusions that count as a failure. */
  predicate Broken(row: Row) {
    && Lower(row.status) == "completed"
    && Lower(row.conclusion) in {"failure", "timed_out", "cancelled", "action_required", "stale", "startup_failure"}
  }

  /** Not completed, in one of the five states GitHub names. */
  predicate Awaited(row: Row) { Lower(row.status) in {"queued", "in_progress", "waiting", "requested", "pending"} }

  /** The four classes apart: a completed row with any other conclusion, or
      none, is neither a success nor a failure. */
  lemma ClassIs(row: Row)
    ensures ClassOf(row) == Success <==> Succeeded(row)
    ensures ClassOf(row) == Failure <==> Broken(row)
    ensures ClassOf(row) == Pending <==> Awaited(row)
    ensures ClassOf(row) == Other <==> !Succeeded(row) && !Broken(row) && !Awaited(row)
  {
    hide Lower;
    assert "completed"[0] == 'c';
    assert "queued"[0] == 'q' && "in_progress"[0] == 'i' && "waiting"[0] == 'w' && "requested"[0] == 'r' && "pending"[0] == 'p';
    assert "success"[0] == 's' && "neutral"[0] == 'n' && "skipped"[1] == 'k';
    assert "failure"[0] == 'f' && "timed_out"[0] == 't' && "cancelled"[0] == 'c' && "action_required"[0] == 'a';
    assert "stale"[1] == 't' && "startup_failure"[1] == 't' && "success"[1] == 'u' && "skipped"[0] == 's';
  }

  lemma SmallWords()
    ensures Lower("completed") == "completed" && Lower("failure") == "failure"
    ensures Lower("success") == "success" && Lower("pending") == "pending"
  {
    Small("completed");
    Small("failure");
    Small("success");
    Small("pending");
  }

  lemma Small(s: string)
    requires s in {"completed", "failure", "success", "pending", "skipped", "ci"}
    ensures Lower(s) == s
  {
    hide Lower;
    LowerKeeps(s);
  }

  /** Of the three conclusions a commit status is given, one succeeds and one
      is broken. */
  lemma StatusWords(w: string)
    requires w in {"failure", "success", "pending"}
    ensures w in {"success", "neutral", "skipped"} <==> w == "success"
    ensures w in {"failure", "timed_out", "cancelled", "action_required", "stale", "startup_failure"} <==> w == "failure"
    ensures ("failure" != "success" && "failure" != "pending") && "success" != "pending"
  {
    assert "failure"[0] == 'f' && "success"[0] == 's' && "pending"[0] == 'p';
    assert "neutral"[0] == 'n' && "skipped"[1] == 'k' && "success"[1] == 'u';
    assert "timed_out"[0] == 't' && "cancelled"[0] == 'c' && "action_required"[0] == 'a' && "stale"[1] == 't';
    assert "startup_failure"[1] == 't';
  }

  lemma CompletedWord(w: string)
    requires w == "completed"
    ensures w !in {"queued", "in_progress", "waiting", "requested", "pending"}
  {
    assert "completed"[0] == 'c' && "queued"[0] == 'q' && "in_progress"[0] == 'i' && "waiting"[0] == 'w';
    assert "requested"[0] == 'r' && "pending"[0] == 'p';
  }

  lemma StateWords(w: string)
    ensures !(w in {"failure", "error"} && w in {"success", "neutral", "skipped"})
  {
    assert "failure"[0] == 'f' && "error"[0] == 'e' && "success"[0] == 's' && "neutral"[0] == 'n' && "skipped"[0] == 's';
  }

  /** A commit status is a success, a failure, or neither: one that is pending,
      or of a kind GitHub does not name, never counts as a success. */
  lemma StatusRowIs(s: CommitStatus)
    ensures var row := StatusRow(s);
      && row.name == s.context && row.startedAt == s.updatedAt && row.legacy && row.appId == None && row.suite == ""
      && (Succeeded(row) <==> Lower(s.state) in {"success", "neutral", "skipped"})
      && (Broken(row) <==> Lower(s.state) in {"failure", "error"})
      && !Awaited(row)
  {
    SmallWords();
    hide Lower;
    CompletedWord("completed");
    StateWords(Lower(s.state));
    StatusWords(StatusRow(s).conclusion);
  }

  datatype Counts = Counts(success: nat, failure: nat, pending: nat, other: nat)

  function CountIn(n: Counts, c: Class): nat {
    match c
    case Success => n.success
    case Failure => n.failure
    case Pending => n.pending
    case Other => n.other
  }

  function Plus(n: Counts, c: Class): Counts {
    match c
    case Success => n.(success := n.success + 1)
    case Failure => n.(failure := n.failure + 1)
    case Pending => n.(pending := n.pending + 1)
    case Other => n.(other := n.other + 1)
  }

  /** `all` counts every effective row, `required` the required ones. */
  datatype Summary = Summary(all: Counts, required: Counts, unknown: bool, missing: set<Need>)

  function OfClass(latest: map<Key, Check>, c: Class): set<Key> {
    set k | k in latest && ClassOf(latest[k].row) == c
  }

  function RequiredOf(latest: map<Key, Check>, c: Class): set<Key> {
    set k | k in latest && latest[k].required && ClassOf(latest[k].row) == c
  }

  function CountAll(latest: map<Key, Check>): Counts {
    Counts(|OfClass(latest, Success)|, |OfClass(latest, Failure)|, |OfClass(latest, Pending)|, |OfClass(latest, Other)|)
  }

  function CountRequired(latest: map<Key, Check>): Counts {
    Counts(|RequiredOf(latest, Success)|, |RequiredOf(latest, Failure)|,
           |RequiredOf(latest, Pending)|, |RequiredOf(latest, Other)|)
  }

  /** The unmet needs any effective row was marked with. */
  function MissingIn(latest: map<Key, Check>): set<Need> {
    set k, n | k in latest && n in latest[k].missing :: n
  }

  function Summarised(latest: map<Key, Check>): Summary {
    Summary(CountAll(latest), CountRequired(latest),
            exists k :: k in latest && !latest[k].known,
            MissingIn(latest))
  }

  function ChecksSummary(checks: seq<Check>): Summary { Summarised(Latest(checks)) }

  /** The summary loops: reruns are reduced in one sweep, then every effective
      row is counted once. */
  method EffectiveRuns(checks: seq<Check>) returns (latest: map<Key, Check>)
    ensures latest == Latest(checks)
  {
    hide KeyOf;
    hide Active;
    hide StrLess;
    latest := map[];
    for i := 0 to |checks|
      invariant latest == Latest(checks[..i])
    {
      assert checks[..i + 1][..i] == checks[..i];
      var c := checks[i];
      var k := KeyOf(c.row);
      if k !in latest {
        latest := latest[k := c];
      } else {
        var cur := latest[k];
        if Active(cur.row) != Active(c.row) {
          if Active(c.row) { latest := latest[k := c]; }
        } else if StrLess(cur.row.startedAt, c.row.startedAt)
                  || (c.row.startedAt == cur.row.startedAt && StrLess(cur.row.suite, c.row.suite)) {
          latest := latest[k := c];
        }
      }
    }
    assert checks[..|checks|] == checks;
  }

  ghost predicate CountedSo(latest: map<Key, Check>, rest: set<Key>, all: Counts, required: Counts) {
    forall c ::
      && CountIn(all, c) == |OfClass(latest, c) - rest|
      && CountIn(required, c) == |RequiredOf(latest, c) - rest|
  }

  lemma CountStart(latest: map<Key, Check>)
    ensures CountedSo(latest, latest.Keys, Counts(0, 0, 0, 0), Counts(0, 0, 0, 0))
  {
    forall c
      ensures OfClass(latest, c) - latest.Keys == {} && RequiredOf(latest, c) - latest.Keys == {}
    {
    }
  }

  lemma InOne(latest: map<Key, Check>, k: Key, c: Class)
    requires k in latest
    ensures k in OfClass(latest, c) <==> ClassOf(latest[k].row) == c
    ensures k in RequiredOf(latest, c) <==> latest[k].required && ClassOf(latest[k].row) == c
  {
  }

  lemma PlusIn(n: Counts, c: Class, e: Class)
    ensures CountIn(Plus(n, c), e) == CountIn(n, e) + (if c == e then 1 else 0)
  {
  }

  lemma CountStep(latest: map<Key, Check>, rest: set<Key>, all: Counts, required: Counts, k: Key)
    requires CountedSo(latest, rest, all, required) && k in rest && k in latest
    ensures var c := ClassOf(latest[k].row);
      CountedSo(latest, rest - {k}, Plus(all, c), if latest[k].required then Plus(required, c) else required)
  {
    hide ClassOf;
    hide OfClass;
    hide RequiredOf;
    hide Plus;
    hide CountIn;
    var cls := ClassOf(latest[k].row);
    var required' := if latest[k].required then Plus(required, cls) else required;
    forall c
      ensures CountIn(Plus(all, cls), c) == |OfClass(latest, c) - (rest - {k})|
      ensures CountIn(required', c) == |RequiredOf(latest, c) - (rest - {k})|
    {
      InOne(latest, k, c);
      OneMore(OfClass(latest, c), rest, k);
      OneMore(RequiredOf(latest, c), rest, k);
      PlusIn(all, cls, c);
      PlusIn(required, cls, c);
    }
  }

  lemma CountEnd(latest: map<Key, Check>, all: Counts, required: Counts)
    requires CountedSo(latest, {}, all, required)
    ensures all == CountAll(latest) && required == CountRequired(latest)
  {
    hide ClassOf;
    forall c
      ensures OfClass(latest, c) - {} == OfClass(latest, c) && RequiredOf(latest, c) - {} == RequiredOf(latest, c)
    {
    }
    assert CountIn(all, Success) == |OfClass(latest, Success)| && CountIn(required, Success) == |RequiredOf(latest, Success)|;
    assert CountIn(all, Failure) == |OfClass(latest, Failure)| && CountIn(required, Failure) == |RequiredOf(latest, Failure)|;
    assert CountIn(all, Pending) == |OfClass(latest, Pending)| && CountIn(required, Pending) == |RequiredOf(latest, Pending)|;
    assert CountIn(all, Other) == |OfClass(latest, Other)| && CountIn(required, Other) == |RequiredOf(latest, Other)|;
  }

  /** The counters in GitHub's words. */
  lemma CountsAre(latest: map<Key, Check>)
    ensures var n := CountAll(latest);
      && n.success == |set k | k in latest && Succeeded(latest[k].row)|
      && n.failure == |set k | k in latest && Broken(latest[k].row)|
      && n.pending == |set k | k in latest && Awaited(latest[k].row)|
      && n.other == |set k | k in latest
                       && !Succeeded(latest[k].row) && !Broken(latest[k].row) && !Awaited(latest[k].row)|
    ensures var n := CountRequired(latest);
      && n.success == |set k | k in latest && latest[k].required && Succeeded(latest[k].row)|
      && n.failure == |set k | k in latest && latest[k].required && Broken(latest[k].row)|
      && n.pending == |set k | k in latest && latest[k].required && Awaited(latest[k].row)|
      && n.other == |set k | k in latest && latest[k].required
                       && !Succeeded(latest[k].row) && !Broken(latest[k].row) && !Awaited(latest[k].row)|
  {
    hide ClassOf;
    hide Succeeded;
    hide Broken;
    hide Awaited;
    forall k | k in latest
      ensures ClassOf(latest[k].row) == Success <==> Succeeded(latest[k].row)
      ensures ClassOf(latest[k].row) == Failure <==> Broken(latest[k].row)
      ensures ClassOf(latest[k].row) == Pending <==> Awaited(latest[k].row)
      ensures ClassOf(latest[k].row) == Other
         <==> !Succeeded(latest[k].row) && !Broken(latest[k].row) && !Awaited(latest[k].row)
    {
      ClassIs(latest[k].row);
    }
    assert OfClass(latest, Success) == set k | k in latest && Succeeded(latest[k].row);
    assert OfClass(latest, Failure) == set k | k in latest && Broken(latest[k].row);
    assert OfClass(latest, Pending) == set k | k in latest && Awaited(latest[k].row);
    assert OfClass(latest, Other)
        == set k | k in latest && !Succeeded(latest[k].row) && !Broken(latest[k].row) && !Awaited(latest[k].row);
    assert RequiredOf(latest, Success) == set k | k in latest && latest[k].required && Succeeded(latest[k].row);
    assert RequiredOf(latest, Failure) == set k | k in latest && latest[k].required && Broken(latest[k].row);
    assert RequiredOf(latest, Pending) == set k | k in latest && latest[k].required && Awaited(latest[k].row);
    assert RequiredOf(latest, Other)
        == set k | k in latest && latest[k].required
                   && !Succeeded(latest[k].row) && !Broken(latest[k].row) && !Awaited(latest[k].row);
  }

  /** Each effective row is counted once, by its class, and once more if it is
      required; what the classes are is CountsAre. */
  method CountRuns(latest: map<Key, Check>) returns (all: Counts, required: Counts)
    ensures all == CountAll(latest) && required == CountRequired(latest)
    ensures all.success == |set k | k in latest && Succeeded(latest[k].row)|
    ensures all.failure == |set k | k in latest && Broken(latest[k].row)|
    ensures required.success == |set k | k in latest && latest[k].required && Succeeded(latest[k].row)|
    ensures required.failure == |set k | k in latest && latest[k].required && Broken(latest[k].row)|
  {
    hide CountedSo;
    hide ClassOf;
    hide CountAll;
    hide CountRequired;
    hide Plus;
    hide Succeeded;
    hide Broken;
    hide Awaited;
    all, required := Counts(0, 0, 0, 0), Counts(0, 0, 0, 0);
    var rest := latest.Keys;
    CountStart(latest);
    while rest != {}
      invariant rest <= latest.Keys && CountedSo(latest, rest, all, required)
      decreases |rest|
    {
      var k :| k in rest;
      CountStep(latest, rest, all, required, k);
      var c := ClassOf(latest[k].row);
      all := Plus(all, c);
      if latest[k].required { required := Plus(required, c); }
      rest := rest - {k};
    }
    CountEnd(latest, all, required);
    CountsAre(latest);
  }

  lemma FourParts<T>(a: set<T>, b: set<T>, c: set<T>, d: set<T>)
    requires a !! b && (a + b) !! c && ((a + b) + c) !! d
    ensures |((a + b) + c) + d| == |a| + |b| + |c| + |d|
  {
  }

  lemma Apart(latest: map<Key, Check>, c: Class, e: Class)
    requires c != e
    ensures OfClass(latest, c) !! OfClass(latest, e) && RequiredOf(latest, c) !! RequiredOf(latest, e)
  {
  }

  lemma AllApart(latest: map<Key, Check>)
    ensures forall c, e :: c != e ==> OfClass(latest, c) !! OfClass(latest, e)
    ensures forall c, e :: c != e ==> RequiredOf(latest, c) !! RequiredOf(latest, e)
  {
    hide OfClass;
    hide RequiredOf;
    forall c, e | c != e
      ensures OfClass(latest, c) !! OfClass(latest, e) && RequiredOf(latest, c) !! RequiredOf(latest, e)
    {
      Apart(latest, c, e);
    }
  }

  lemma Together(latest: map<Key, Check>)
    ensures latest.Keys
         == ((OfClass(latest, Success) + OfClass(latest, Failure)) + OfClass(latest, Pending)) + OfClass(latest, Other)
    ensures (set k | k in latest && latest[k].required)
         == ((RequiredOf(latest, Success) + RequiredOf(latest, Failure)) + RequiredOf(latest, Pending))
            + RequiredOf(latest, Other)
  {
    hide ClassOf;
  }

  /** Every key is counted once. */
  lemma CountsCover(latest: map<Key, Check>)
    ensures var n := CountAll(latest); n.success + n.failure + n.pending + n.other == |latest.Keys|
    ensures var n := CountRequired(latest);
      n.success + n.failure + n.pending + n.other == |set k | k in latest && latest[k].required|
  {
    hide OfClass;
    hide RequiredOf;
    AllApart(latest);
    Together(latest);
    FourParts(OfClass(latest, Success), OfClass(latest, Failure), OfClass(latest, Pending), OfClass(latest, Other));
    FourParts(RequiredOf(latest, Success), RequiredOf(latest, Failure), RequiredOf(latest, Pending), RequiredOf(latest, Other));
  }

  // ---- reviews ----

  datatype Review = Review(author: string, state: string, submittedAt: string)

  predicate Decides(r: Review) {
    Upper(r.state) in {"APPROVED", "CHANGES_REQUESTED", "COMMENTED", "DISMISSED", "PENDING"}
  }

  function UpperChar(ch: char): char {
    if 'a' <= ch <= 'z' then (ch as int - 32) as char else ch
  }

  function Upper(s: string): string {
    if s == "" then "" else [UpperChar(s[0])] + Upper(s[1..])
  }

  /** Letter by letter: small letters of ASCII become capitals, nothing else
      changes. */
  lemma {:induction false} UpperIs(s: string)
    ensures |Upper(s)| == |s|
    ensures forall i :: 0 <= i < |s| ==>
      if 'a' <= s[i] <= 'z' then Upper(s)[i] as int == s[i] as int - ('a' as int - 'A' as int) else Upper(s)[i] == s[i]
  {
    if s != "" { UpperIs(s[1..]); }
  }

  lemma UpperKeeps(s: string)
    requires forall i :: 0 <= i < |s| ==> !('a' <= s[i] <= 'z')
    ensures Upper(s) == s
  {
    UpperIs(s);
  }

  /** The author's decision in force: the last of the latest. */
  function Standing(reviews: seq<Review>): map<string, Review> {
    if reviews == [] then map[]
    else
      var before := Standing(reviews[..|reviews| - 1]);
      var r := reviews[|reviews| - 1];
      if Decides(r) && (r.author !in before || !StrLess(r.submittedAt, before[r.author].submittedAt))
      then before[r.author := r] else before
  }

  predicate LastLatest(reviews: seq<Review>, author: string, i: nat) {
    && i < |reviews| && reviews[i].author == author && Decides(reviews[i])
    && (forall h :: 0 <= h < i && reviews[h].author == author && Decides(reviews[h]) ==>
          !StrLess(reviews[i].submittedAt, reviews[h].submittedAt))
    && (forall h :: i < h < |reviews| && reviews[h].author == author && Decides(reviews[h]) ==>
          StrLess(reviews[h].submittedAt, reviews[i].submittedAt))
  }

  ghost predicate InForce(reviews: seq<Review>, author: string, r: Review) {
    exists i: nat :: LastLatest(reviews, author, i) && reviews[i] == r
  }

  predicate Decided(reviews: seq<Review>, author: string) {
    exists i :: 0 <= i < |reviews| && reviews[i].author == author && Decides(reviews[i])
  }

  lemma ReviewElsewhere(before: seq<Review>, r: Review, author: string)
    requires r.author != author || !Decides(r)
    ensures Decided(before + [r], author) <==> Decided(before, author)
    ensures forall e :: InForce(before, author, e) ==> InForce(before + [r], author, e)
  {
    hide Decides;
    hide StrLess;
    var reviews := before + [r];
    if Decided(before, author) {
      var i :| 0 <= i < |before| && before[i].author == author && Decides(before[i]);
      assert reviews[i] == before[i];
    }
    if Decided(reviews, author) {
      var i :| 0 <= i < |reviews| && reviews[i].author == author && Decides(reviews[i]);
      assert reviews[i] == before[i];
    }
    forall e | InForce(before, author, e)
      ensures InForce(reviews, author, e)
    {
      var i: nat :| LastLatest(before, author, i) && before[i] == e;
      assert LastLatest(reviews, author, i);
    }
  }

  lemma ReviewNew(before: seq<Review>, r: Review)
    requires Decides(r) && !Decided(before, r.author)
    ensures Decided(before + [r], r.author) && InForce(before + [r], r.author, r)
  {
    hide Decides;
    hide StrLess;
    var reviews := before + [r];
    assert reviews[|before|] == r;
    assert LastLatest(reviews, r.author, |before|);
  }

  lemma ReviewAgain(before: seq<Review>, r: Review, e: Review)
    requires Decides(r) && InForce(before, r.author, e)
    ensures Decided(before + [r], r.author)
    ensures InForce(before + [r], r.author, if !StrLess(r.submittedAt, e.submittedAt) then r else e)
  {
    hide Decides;
    hide StrLess;
    var reviews := before + [r];
    var i: nat :| LastLatest(before, r.author, i) && before[i] == e;
    assert reviews[|before|] == r && reviews[i] == e;
    if StrLess(r.submittedAt, e.submittedAt) {
      assert LastLatest(reviews, r.author, i);
    } else {
      forall h | 0 <= h < |before| && before[h].author == r.author && Decides(before[h])
        ensures !StrLess(r.submittedAt, before[h].submittedAt)
      {
        StrOrder();
        assert h > i ==> StrLess(before[h].submittedAt, e.submittedAt);
      }
      assert LastLatest(reviews, r.author, |before|);
    }
  }

  /** The reduction keeps, per author, the last row of greatest time among the
      five kinds of decision. */
  lemma {:induction false} StandingIsInForce(reviews: seq<Review>, author: string)
    ensures author in Standing(reviews) <==> Decided(reviews, author)
    ensures author in Standing(reviews) ==> InForce(reviews, author, Standing(reviews)[author])
  {
    hide Decides;
    hide StrLess;
    hide Decided;
    hide InForce;
    if reviews == [] {
      NobodyDecided(author);
    } else {
      var n := |reviews| - 1;
      var before, r := reviews[..n], reviews[n];
      assert reviews == before + [r];
      StandingIsInForce(before, author);
      if r.author != author || !Decides(r) {
        ReviewElsewhere(before, r, author);
      } else if author in Standing(before) {
        ReviewAgain(before, r, Standing(before)[author]);
      } else {
        ReviewNew(before, r);
      }
    }
  }

  lemma NobodyDecided(author: string)
    ensures !Decided([], author)
  {
  }

  function ChangesRequested(standing: map<string, Review>): set<string> {
    set a | a in standing && Upper(standing[a].state) == "CHANGES_REQUESTED"
  }

  function Approved(standing: map<string, Review>): set<string> {
    set a | a in standing && Upper(standing[a].state) == "APPROVED"
  }

  datatype ReviewSummary = ReviewSummary(approved: nat, changesRequested: nat)

  function ReviewsSummary(reviews: seq<Review>): ReviewSummary {
    ReviewSummary(|Approved(Standing(reviews))|, |ChangesRequested(Standing(reviews))|)
  }

  method EffectiveReviews(reviews: seq<Review>) returns (standing: map<string, Review>)
    ensures standing == Standing(reviews)
  {
    hide Decides;
    hide StrLess;
    standing := map[];
    for i := 0 to |reviews|
      invariant standing == Standing(reviews[..i])
    {
      assert reviews[..i + 1][..i] == reviews[..i];
      var r := reviews[i];
      if Decides(r) {
        if r.author !in standing || !StrLess(r.submittedAt, standing[r.author].submittedAt) {
          standing := standing[r.author := r];
        }
      }
    }
    assert reviews[..|reviews|] == reviews;
  }

  /** No two decisions of one author were submitted at the same time. */
  predicate TimesDiffer(reviews: seq<Review>) {
    forall i, h ::
      0 <= i < h < |reviews| && reviews[i].author == reviews[h].author && Decides(reviews[i]) && Decides(reviews[h])
      ==> reviews[i].submittedAt != reviews[h].submittedAt
  }

  /** Nothing an author decided is later than what is in force. */
  lemma InForceIsLatest(reviews: seq<Review>, author: string, e: Review, r: Review)
    requires InForce(reviews, author, e) && r in reviews && r.author == author && Decides(r)
    ensures e in reviews && e.author == author && Decides(e) && !StrLess(e.submittedAt, r.submittedAt)
  {
    hide Decides;
    hide StrLess;
    var i: nat :| LastLatest(reviews, author, i) && reviews[i] == e;
    var h :| 0 <= h < |reviews| && reviews[h] == r;
    StrLessTotal(e.submittedAt, r.submittedAt);
  }

  lemma TimesTell(reviews: seq<Review>, a: Review, b: Review)
    requires TimesDiffer(reviews) && a in reviews && b in reviews && a.author == b.author && Decides(a) && Decides(b)
    requires a.submittedAt == b.submittedAt
    ensures a == b
  {
    hide Decides;
    var i :| 0 <= i < |reviews| && reviews[i] == a;
    var h :| 0 <= h < |reviews| && reviews[h] == b;
  }

  lemma InForceOfBoth(a: seq<Review>, b: seq<Review>, author: string, e: Review, f: Review)
    requires (forall r :: r in a <==> r in b) && TimesDiffer(a) && InForce(a, author, e) && InForce(b, author, f)
    ensures e == f
  {
    hide Decides;
    hide StrLess;
    hide TimesDiffer;
    var i: nat :| LastLatest(a, author, i) && a[i] == e;
    var h: nat :| LastLatest(b, author, h) && b[h] == f;
    hide LastLatest;
    assert e in a && f in b;
    InForceIsLatest(a, author, e, e);
    InForceIsLatest(b, author, f, f);
    InForceIsLatest(a, author, e, f);
    InForceIsLatest(b, author, f, e);
    StrLessTotal(e.submittedAt, f.submittedAt);
    TimesTell(a, e, f);
  }

  lemma DecidedInBoth(a: seq<Review>, b: seq<Review>, author: string)
    requires (forall r :: r in a <==> r in b) && Decided(a, author)
    ensures Decided(b, author)
  {
    hide Decides;
    var i :| 0 <= i < |a| && a[i].author == author && Decides(a[i]);
    assert a[i] in b;
  }

  /** When times differ, the order in which the reviews arrive does not matter. */
  lemma StandingOrderFree(a: seq<Review>, b: seq<Review>)
    requires multiset(a) == multiset(b) && TimesDiffer(a)
    ensures Standing(a) == Standing(b)
  {
    hide Standing;
    hide Decided;
    hide InForce;
    hide TimesDiffer;
    forall r
      ensures r in a <==> r in b
    {
      assert r in a <==> r in multiset(a);
    }
    forall author
      ensures author in Standing(a) <==> author in Standing(b)
      ensures author in Standing(a) && author in Standing(b) ==> Standing(a)[author] == Standing(b)[author]
    {
      StandingIsInForce(a, author);
      StandingIsInForce(b, author);
      if Decided(a, author) { DecidedInBoth(a, b, author); }
      if Decided(b, author) { DecidedInBoth(b, a, author); }
      if author in Standing(a) && author in Standing(b) {
        InForceOfBoth(a, b, author, Standing(a)[author], Standing(b)[author]);
      }
    }
  }

  /** After a request for changes, a later review of the same author takes it
      back if and only if it is an approval, a comment, a dismissal or pending;
      a review of any other kind does not count. */
  lemma LaterReview(author: string, w: string, x: string, t: string, t': string)
    requires !StrLess(t', t) && Upper(w) == "CHANGES_REQUESTED"
    ensures var reviews := [Review(author, w, t), Review(author, x, t')];
      && ChangesRequested(Standing(reviews))
         == (if Upper(x) in {"APPROVED", "COMMENTED", "DISMISSED", "PENDING"} then {} else {author})
      && Approved(Standing(reviews)) == if Upper(x) == "APPROVED" then {author} else {}
  {
    hide Upper;
    hide StrLess;
    var first, second := Review(author, w, t), Review(author, x, t');
    DecisionWords(Upper(w));
    DecisionWords(Upper(x));
    TwoReviews(first, second);
  }

  lemma TwoReviews(first: Review, second: Review)
    requires first.author == second.author && Decides(first) && !StrLess(second.submittedAt, first.submittedAt)
    ensures Standing([first, second]) == map[first.author := if Decides(second) then second else first]
  {
    hide Decides;
    hide StrLess;
    var reviews := [first, second];
    assert reviews[..1] == [first] && [first][..0] == [];
    assert Standing([first][..0]) == map[];
    assert Standing([first]) == map[first.author := first];
  }

  lemma DecisionWords(w: string)
    ensures w == "CHANGES_REQUESTED" ==> w !in {"APPROVED", "COMMENTED", "DISMISSED", "PENDING"}
  {
    assert "CHANGES_REQUESTED"[1] == 'H' && "APPROVED"[0] == 'A' && "COMMENTED"[1] == 'O';
    assert "CHANGES_REQUESTED"[0] == 'C' && "DISMISSED"[0] == 'D' && "PENDING"[0] == 'P';
  }

  /** Without any row, an unmet policy counts as one required check that is
      awaited, an unknown policy as one optional check that is, and a policy
      without needs as nothing. */
  lemma PlaceholderCounts(p: Policy)
    ensures var s := ChecksSummary(Listed([], p));
      if p.known && p.needs != [] then s.all == Counts(0, 0, 1, 0) && s.required == Counts(0, 0, 1, 0) && !s.unknown
      else if !p.known then s.all == Counts(0, 0, 1, 0) && s.required == Counts(0, 0, 0, 0) && s.unknown
      else s == Summary(Counts(0, 0, 0, 0), Counts(0, 0, 0, 0), false, {})
  {
    hide ClassOf;
    hide Summarised;
    hide ChecksSummary;
    Placeholders();
    NoChecks();
    OneCheck(Check(NotStarted(), true, true, MissingOf([], p)));
    OneCheck(Check(PolicyUnknown(), false, false, []));
  }

  /** The one row that stands in for all. */
  lemma PlaceholderRow(p: Policy)
    ensures p.known && p.needs != [] ==>
      Listed([], p) == [Check(Row("(required checks not started)", "queued", "", "", "", None, false), true, true,
                              Unmet([], p.needs))]
    ensures !p.known ==>
      Listed([], p) == [Check(Row("(required policy unknown)", "queued", "", "", "", None, false), false, false, [])]
    ensures p.known && p.needs == [] ==> Listed([], p) == []
  {
  }

  lemma Placeholders()
    ensures ClassOf(NotStarted()) == Pending && ClassOf(PolicyUnknown()) == Pending
  {
    AwaitedRow(NotStarted());
    AwaitedRow(PolicyUnknown());
  }

  lemma NoChecks()
    ensures ChecksSummary([]) == Summary(Counts(0, 0, 0, 0), Counts(0, 0, 0, 0), false, {})
  {
    var none: map<Key, Check> := map[];
    assert forall c :: OfClass(none, c) == {} && RequiredOf(none, c) == {};
    assert MissingIn(none) == {};
  }

  lemma AwaitedRow(row: Row)
    requires row.status == "queued"
    ensures ClassOf(row) == Pending
  {
    LowerKeeps("queued");
    hide Lower;
    assert "queued"[0] == 'q' && "completed"[0] == 'c';
  }

  lemma OneCheck(c: Check)
    ensures var s := ChecksSummary([c]);
      && s.all == Plus(Counts(0, 0, 0, 0), ClassOf(c.row))
      && s.required == (if c.required then Plus(Counts(0, 0, 0, 0), ClassOf(c.row)) else Counts(0, 0, 0, 0))
      && s.unknown == !c.known
  {
    hide ClassOf;
    OneRow(c);
    var k := KeyOf(c.row);
    hide KeyOf;
    hide Latest;
    var latest := map[k := c];
    forall e
      ensures OfClass(latest, e) == if ClassOf(c.row) == e then {k} else {}
      ensures RequiredOf(latest, e) == if c.required && ClassOf(c.row) == e then {k} else {}
    {
    }
    assert k in latest;
  }
}
