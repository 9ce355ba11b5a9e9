/** The delivery state machine, and what MERGE_READY means end to end. */
module Readiness {
  import opened Prelude
  import opened Ordering
  import opened Checks
  import opened Delivery

  datatype DState =
    | NotReady | ReadyToPublish | Publishing | PrOpen | CiPending | CiFailed | ReviewChangesRequested
    | NeedsRebase | MergeConflict | MergeReady | Merged | PrClosed | DeliveryFailed

  datatype Pr = Pr(state: string, hasHead: bool, mergeState: string, mergeable: string)
  datatype Listing = Listing(runs: seq<Run>, statuses: seq<CommitStatus>, policy: Policy)

  /** What one refresh gets from the provider; an absent source failed. */
  datatype Fetch = MetadataFailed | Fetched(pr: Pr, listing: Option<Listing>, reviews: Option<seq<Review>>)

  /** The durable delivery record, as far as synchronisation goes. */
  datatype Rec = Rec(state: DState, checks: Option<Summary>, reviews: Option<ReviewSummary>, syncError: bool)

  datatype Synced = Synced(
    state: string, mergeState: string, mergeable: string,
    checks: Option<Summary>, reviews: Option<ReviewSummary>, stale: bool)

  /** The check rows, if they could be fetched; without a head commit they are
      not even asked for. */
  function ChecksOf(f: Fetch): Option<seq<Check>>
    requires f.Fetched?
  {
    if f.pr.hasHead && f.listing.Some?
    then Some(Listed(Rows(f.listing.value.runs, f.listing.value.statuses), f.listing.value.policy)) else None
  }

  /** A failed source falls back to the stored summary. */
  function SyncRecord(rec: Rec, f: Fetch): Synced {
    if f.MetadataFailed? then Synced("", "", "", rec.checks, rec.reviews, true)
    else
      var checks := ChecksOf(f);
      Synced(Upper(f.pr.state), f.pr.mergeState, f.pr.mergeable,
             if checks.None? && rec.checks.Some? then rec.checks
             else Some(ChecksSummary(if checks.Some? then checks.value else [])),
             if f.reviews.None? && rec.reviews.Some? then rec.reviews
             else Some(ReviewsSummary(if f.reviews.Some? then f.reviews.value else [])),
             checks.None? || f.reviews.None?)
  }

  predicate Unknown(s: string) { s == "" || Upper(s) in {"UNKNOWN", "UNKNOWN_REMOTE"} }

  /** The states that the pull request itself decides first. */
  function Foremost(state: string, mergeState: string, mergeable: string): Option<DState> {
    if Upper(state) == "MERGED" then Some(Merged)
    else if Upper(state) == "CLOSED" then Some(PrClosed)
    else if mergeState == "DIRTY" || mergeable == "CONFLICTING" then Some(MergeConflict)
    else if mergeState in {"BEHIND", "BEHIND_BY_COMMITS"} then Some(NeedsRebase)
    else None
  }

  /** The states that merge metadata decides once the evidence is exhausted. */
  function Hindmost(mergeState: string, mergeable: string): Option<DState> {
    if Unknown(mergeState) || Unknown(mergeable) then Some(CiPending)
    else if mergeState in {"BLOCKED", "BLOCKED_BY_MAX_REVIEWS", "BLOCKED_BY_LIFECYCLE_RULE",
                           "BLOCKED_BY_MERGE_TRAIN", "BLOCKED_BY_PENDING_STATE"} then Some(ReviewChangesRequested)
    else if Upper(mergeState) != "CLEAN" then Some(CiPending)
    else None
  }

  predicate Failing(s: Option<Summary>) { s.Some? && (s.value.required.failure > 0 || s.value.all.failure > 0) }

  predicate Unsettled(s: Option<Summary>) {
    s.Some? && (s.value.required.pending > 0 || s.value.required.other > 0 || s.value.unknown || s.value.missing != {})
  }

  predicate Rejected(r: Option<ReviewSummary>) { r.Some? && r.value.changesRequested > 0 }

  function StateFromSync(s: Synced): DState {
    if Foremost(s.state, s.mergeState, s.mergeable).Some? then Foremost(s.state, s.mergeState, s.mergeable).value
    else if Rejected(s.reviews) then ReviewChangesRequested
    else if Failing(s.checks) then CiFailed
    else if Unsettled(s.checks) then CiPending
    else if s.stale then CiPending
    else if Hindmost(s.mergeState, s.mergeable).Some? then Hindmost(s.mergeState, s.mergeable).value
    else if s.checks.None? || s.checks.value.required.success == 0 then PrOpen
    else MergeReady
  }

  /** One sync, or one look at the details, of a published delivery. */
  function Refresh(rec: Rec, f: Fetch): Rec {
    var s := SyncRecord(rec, f);
    if f.MetadataFailed? then
      rec.(state := if rec.state.Merged? || rec.state.PrClosed? then rec.state else StateFromSync(s), syncError := true)
    else Rec(StateFromSync(s), s.checks, s.reviews, false)
  }

  /** The record itself, refreshed in place. */
  class Record {
    var state: DState
    var checks: Option<Summary>
    var reviews: Option<ReviewSummary>
    var syncError: bool

    ghost function View(): Rec
      reads this
    {
      Rec(state, checks, reviews, syncError)
    }

    constructor (state: DState)
      ensures View() == Rec(state, None, None, false)
    {
      this.state := state;
      checks, reviews, syncError := None, None, false;
    }

    /** The two summaries of one refresh: fetched and reduced, or the stored
        ones, or those of nothing. */
    method Summaries(f: Fetch) returns (c: Option<Summary>, r: Option<ReviewSummary>, stale: bool)
      requires f.Fetched?
      ensures var s := SyncRecord(View(), f); c == s.checks && r == s.reviews && stale == s.stale
    {
      hide Rows;
      hide Listed;
      hide Summarised;
      var rows: seq<Check> := [];
      var checksOk := false;
      if f.pr.hasHead && f.listing.Some? {
        rows := ListChecks(f.listing.value.runs, f.listing.value.statuses, f.listing.value.policy);
        checksOk := true;
      }
      if !checksOk && checks.Some? {
        c := checks;
      } else {
        var latest := EffectiveRuns(rows);
        c := Some(Summarised(latest));
      }
      if f.reviews.None? && reviews.Some? {
        r := reviews;
      } else {
        var standing := EffectiveReviews(if f.reviews.Some? then f.reviews.value else []);
        r := Some(ReviewSummary(|Approved(standing)|, |ChangesRequested(standing)|));
      }
      stale := !checksOk || f.reviews.None?;
    }

    method Sync(f: Fetch)
      modifies this
      ensures View() == Refresh(old(View()), f)
    {
      hide StateFromSync;
      hide Upper;
      hide ChecksOf;
      match f
      case MetadataFailed =>
        if !state.Merged? && !state.PrClosed? { state := StateFromSync(Synced("", "", "", checks, reviews, true)); }
        syncError := true;
      case Fetched(pr, _, _) =>
        var c, r, stale := Summaries(f);
        syncError := false;
        state := StateFromSync(Synced(Upper(pr.state), pr.mergeState, pr.mergeable, c, r, stale));
        checks, reviews := c, r;
    }

    /** Opening the details refreshes the record the same way. */
    method CheckDetails(f: Fetch) returns (available: bool)
      modifies this
      ensures View() == Refresh(old(View()), f)
      ensures available <==> !ChecksFailed(f) && !ReviewsFailed(f)
    {
      hide StateFromSync;
      hide Upper;
      match f
      case MetadataFailed =>
        var derived := if state.Merged? || state.PrClosed? then state
                       else StateFromSync(Synced("", "", "", checks, reviews, true));
        state, syncError := derived, true;
        available := false;
      case Fetched(pr, _, _) =>
        var c, r, stale := Summaries(f);
        checks, reviews, syncError := c, r, false;
        state := StateFromSync(Synced(Upper(pr.state), pr.mergeState, pr.mergeable, checks, reviews, stale));
        available := !stale;
    }
  }

  // ---- merge metadata ----

  /** Open, mergeable, and CLEAN. */
  predicate MetaClean(pr: Pr) {
    && Upper(pr.state) !in {"MERGED", "CLOSED"}
    && Upper(pr.mergeState) == "CLEAN"
    && pr.mergeable != "CONFLICTING" && !Unknown(pr.mergeable)
  }

  lemma {:induction false} UpperTwice(s: string)
    ensures Upper(Upper(s)) == Upper(s)
  {
    if s != "" { UpperTwice(s[1..]); }
  }

  lemma UpperFirst(s: string)
    requires s != ""
    ensures Upper(s) != "" && Upper(s)[0] == UpperChar(s[0])
  {
  }

  lemma UpperC(ch: char)
    requires UpperChar(ch) == 'C'
    ensures ch == 'C' || ch == 'c'
  {
  }

  lemma CleanIsNothingElse(s: string)
    requires Upper(s) == "CLEAN"
    ensures s != "" && !Unknown(s) && (s[0] == 'C' || s[0] == 'c')
  {
    assert Upper("") == "";
    hide Upper;
    assert s != "";
    UpperFirst(s);
    UpperC(s[0]);
    assert "UNKNOWN"[0] == 'U' && "UNKNOWN_REMOTE"[0] == 'U';
  }

  lemma MetaExactly(pr: Pr)
    ensures Foremost(Upper(pr.state), pr.mergeState, pr.mergeable).None? && Hindmost(pr.mergeState, pr.mergeable).None?
       <==> MetaClean(pr)
  {
    hide Upper;
    UpperTwice(pr.state);
    if Upper(pr.mergeState) == "CLEAN" {
      CleanIsNothingElse(pr.mergeState);
      assert "DIRTY"[0] == 'D' && "BEHIND"[0] == 'B' && "BEHIND_BY_COMMITS"[0] == 'B';
      assert "BLOCKED"[0] == 'B' && "BLOCKED_BY_MAX_REVIEWS"[0] == 'B' && "BLOCKED_BY_LIFECYCLE_RULE"[0] == 'B';
      assert "BLOCKED_BY_MERGE_TRAIN"[0] == 'B' && "BLOCKED_BY_PENDING_STATE"[0] == 'B';
    }
  }

  // ---- the evidence ----

  predicate KeyNeeded(k: Key, needs: seq<Need>) {
    exists i :: 0 <= i < |needs| && KeyMeets(k, needs[i])
  }

  predicate NeedSeen(rows: seq<Row>, need: Need) {
    exists i :: 0 <= i < |rows| && KeyMeets(KeyOf(rows[i]), need)
  }

  /** Something is required; each need is matched by the key of some row; the
      effective run of every matching key succeeded, and none failed. */
  ghost predicate Satisfied(l: Listing) {
    var rows := Rows(l.runs, l.statuses);
    var checks := Listed(rows, l.policy);
    && l.policy.known && l.policy.needs != []
    && (forall i :: 0 <= i < |l.policy.needs| ==> NeedSeen(rows, l.policy.needs[i]))
    && (forall k, c :: Effective(checks, k, c) ==>
          !Broken(c.row) && (KeyNeeded(k, l.policy.needs) ==> Succeeded(c.row)))
  }

  /** What the cascade asks of a summary before MERGE_READY. */
  predicate Green(s: Summary) {
    && s.all.failure == 0 && s.required.failure == 0 && s.required.pending == 0 && s.required.other == 0
    && !s.unknown && s.missing == {} && s.required.success > 0
  }

  /** The same, of the effective rows themselves. */
  predicate GreenRows(latest: map<Key, Check>) {
    && (forall k :: k in latest ==> ClassOf(latest[k].row) != Failure && latest[k].known && latest[k].missing == [])
    && (forall k :: k in latest && latest[k].required ==> ClassOf(latest[k].row) == Success)
    && (exists k :: k in latest && latest[k].required)
  }

  lemma NoneOf(latest: map<Key, Check>, c: Class)
    ensures |OfClass(latest, c)| == 0 <==> forall k :: k in latest ==> ClassOf(latest[k].row) != c
    ensures |RequiredOf(latest, c)| == 0 <==> forall k :: k in latest && latest[k].required ==> ClassOf(latest[k].row) != c
  {
    hide ClassOf;
    if exists k :: k in latest && ClassOf(latest[k].row) == c {
      var k :| k in latest && ClassOf(latest[k].row) == c;
      assert k in OfClass(latest, c);
    }
    if exists k :: k in latest && latest[k].required && ClassOf(latest[k].row) == c {
      var k :| k in latest && latest[k].required && ClassOf(latest[k].row) == c;
      assert k in RequiredOf(latest, c);
    }
  }

  lemma NoneMissing(latest: map<Key, Check>)
    ensures MissingIn(latest) == {} <==> forall k :: k in latest ==> latest[k].missing == []
  {
    if exists k :: k in latest && latest[k].missing != [] {
      var k :| k in latest && latest[k].missing != [];
      assert latest[k].missing[0] in latest[k].missing;
      assert latest[k].missing[0] in MissingIn(latest);
    }
  }

  lemma GreenIsGreenRows(latest: map<Key, Check>)
    ensures Green(Summarised(latest)) <==> GreenRows(latest)
  {
    hide ClassOf;
    hide OfClass;
    hide RequiredOf;
    NoneOf(latest, Success);
    NoneOf(latest, Failure);
    NoneOf(latest, Pending);
    NoneOf(latest, Other);
    NoneMissing(latest);
  }

  /** Which rows are required depends on their keys only. */
  lemma RequiredByKey(l: Listing, i: nat)
    requires i < |Rows(l.runs, l.statuses)|
    ensures var row := Rows(l.runs, l.statuses)[i];
      Required(row, l.policy.needs) <==> KeyNeeded(KeyOf(row), l.policy.needs)
  {
    hide Meets;
    hide KeyMeets;
    hide Rows;
    var row := Rows(l.runs, l.statuses)[i];
    forall h | 0 <= h < |l.policy.needs|
      ensures Meets(row, l.policy.needs[h]) <==> KeyMeets(KeyOf(row), l.policy.needs[h])
    {
      MeetsByKey(l.runs, l.statuses, i, l.policy.needs[h]);
    }
    if Required(row, l.policy.needs) {
      var h :| 0 <= h < |l.policy.needs| && Meets(row, l.policy.needs[h]);
      assert KeyMeets(KeyOf(row), l.policy.needs[h]);
    }
    if KeyNeeded(KeyOf(row), l.policy.needs) {
      var h :| 0 <= h < |l.policy.needs| && KeyMeets(KeyOf(row), l.policy.needs[h]);
      assert Meets(row, l.policy.needs[h]);
    }
  }

  lemma SeenByKey(l: Listing, need: Need)
    ensures Observed(Rows(l.runs, l.statuses), need) <==> NeedSeen(Rows(l.runs, l.statuses), need)
  {
    hide Meets;
    hide KeyMeets;
    hide Rows;
    var rows := Rows(l.runs, l.statuses);
    forall h | 0 <= h < |rows|
      ensures Meets(rows[h], need) <==> KeyMeets(KeyOf(rows[h]), need)
    {
      MeetsByKey(l.runs, l.statuses, h, need);
    }
    if Observed(rows, need) {
      var h :| 0 <= h < |rows| && Meets(rows[h], need);
      assert KeyMeets(KeyOf(rows[h]), need);
    }
    if NeedSeen(rows, need) {
      var h :| 0 <= h < |rows| && KeyMeets(KeyOf(rows[h]), need);
      assert Meets(rows[h], need);
    }
  }

  lemma EffectiveIsRow(checks: seq<Check>, k: Key, c: Check)
    requires Effective(checks, k, c)
    ensures exists i :: 0 <= i < |checks| && checks[i] == c && KeyOf(c.row) == k
  {
    hide Beats;
    hide KeyOf;
  }

  /** Every effective row carries its key's requirement and the policy. */
  lemma EffectiveFacts(l: Listing, k: Key, c: Check)
    requires Rows(l.runs, l.statuses) != [] && Effective(Listed(Rows(l.runs, l.statuses), l.policy), k, c)
    ensures c.required <==> KeyNeeded(k, l.policy.needs)
    ensures c.known == l.policy.known && c.missing == MissingOf(Rows(l.runs, l.statuses), l.policy)
  {
    hide Effective;
    hide Required;
    hide KeyNeeded;
    hide KeyOf;
    hide MissingOf;
    hide Rows;
    var rows := Rows(l.runs, l.statuses);
    var checks := Listed(rows, l.policy);
    EffectiveIsRow(checks, k, c);
    var i :| 0 <= i < |checks| && checks[i] == c && KeyOf(c.row) == k;
    RequiredByKey(l, i);
    assert c == Annotated(rows[i], rows, l.policy);
  }

  lemma NothingMissing(l: Listing)
    ensures Unmet(Rows(l.runs, l.statuses), l.policy.needs) == []
       <==> forall i :: 0 <= i < |l.policy.needs| ==> NeedSeen(Rows(l.runs, l.statuses), l.policy.needs[i])
  {
    hide Rows;
    hide NeedSeen;
    hide Observed;
    UnmetEmpty(Rows(l.runs, l.statuses), l.policy.needs);
    forall i | 0 <= i < |l.policy.needs|
      ensures Observed(Rows(l.runs, l.statuses), l.policy.needs[i]) <==> NeedSeen(Rows(l.runs, l.statuses), l.policy.needs[i])
    {
      SeenByKey(l, l.policy.needs[i]);
    }
  }

  /** The effective row of a key is the one kept, and there is one for every
      key that occurs. */
  lemma EffectiveIsLatest(checks: seq<Check>, k: Key, c: Check)
    requires Effective(checks, k, c)
    ensures k in Latest(checks) && Latest(checks)[k] == c
  {
    hide Beats;
    hide KeyOf;
    hide Latest;
    LatestIsFirstBest(checks, k);
    var i: nat :| FirstBest(checks, k, i) && checks[i] == c;
    assert HasKey(checks, k);
    var h: nat :| FirstBest(checks, k, h) && checks[h] == Latest(checks)[k];
    FirstBestUnique(checks, k, i, h);
  }

  lemma KeyIsKept(l: Listing, i: nat)
    requires i < |Rows(l.runs, l.statuses)|
    ensures KeyOf(Rows(l.runs, l.statuses)[i]) in Latest(Listed(Rows(l.runs, l.statuses), l.policy))
  {
    hide KeyOf;
    hide Rows;
    hide Latest;
    hide Required;
    hide MissingOf;
    var rows := Rows(l.runs, l.statuses);
    var checks := Listed(rows, l.policy);
    var k := KeyOf(rows[i]);
    LatestIsFirstBest(checks, k);
    assert KeyOf(checks[i].row) == k;
  }

  lemma KeptFacts(l: Listing, k: Key)
    requires Rows(l.runs, l.statuses) != [] && k in Latest(Listed(Rows(l.runs, l.statuses), l.policy))
    ensures var c := Latest(Listed(Rows(l.runs, l.statuses), l.policy))[k];
      && Effective(Listed(Rows(l.runs, l.statuses), l.policy), k, c)
      && (c.required <==> KeyNeeded(k, l.policy.needs))
      && c.known == l.policy.known && c.missing == MissingOf(Rows(l.runs, l.statuses), l.policy)
  {
    hide Effective;
    hide KeyNeeded;
    hide Rows;
    hide Latest;
    hide Listed;
    hide MissingOf;
    var checks := Listed(Rows(l.runs, l.statuses), l.policy);
    LatestIsFirstBest(checks, k);
    EffectiveFacts(l, k, Latest(checks)[k]);
  }

  lemma GreenGivesSatisfied(l: Listing)
    requires Rows(l.runs, l.statuses) != [] && GreenRows(Latest(Listed(Rows(l.runs, l.statuses), l.policy)))
    ensures Satisfied(l)
  {
    hide Effective;
    hide Rows;
    hide Latest;
    hide Listed;
    hide ClassOf;
    hide Succeeded;
    hide Broken;
    hide NeedSeen;
    hide KeyMeets;
    var checks := Listed(Rows(l.runs, l.statuses), l.policy);
    var latest := Latest(checks);
    var k0 :| k0 in latest && latest[k0].required;
    KeptFacts(l, k0);
    NothingMissing(l);
    forall k, c | Effective(checks, k, c)
      ensures !Broken(c.row) && (KeyNeeded(k, l.policy.needs) ==> Succeeded(c.row))
    {
      EffectiveIsLatest(checks, k, c);
      KeptFacts(l, k);
      ClassIs(c.row);
    }
  }

  lemma SatisfiedGivesGreen(l: Listing)
    requires Satisfied(l)
    ensures Rows(l.runs, l.statuses) != [] && GreenRows(Latest(Listed(Rows(l.runs, l.statuses), l.policy)))
  {
    hide Effective;
    hide Rows;
    hide Latest;
    hide Listed;
    hide ClassOf;
    hide Succeeded;
    hide Broken;
    hide KeyMeets;
    hide KeyOf;
    var rows := Rows(l.runs, l.statuses);
    var checks := Listed(rows, l.policy);
    var latest := Latest(checks);
    assert NeedSeen(rows, l.policy.needs[0]);
    var i :| 0 <= i < |rows| && KeyMeets(KeyOf(rows[i]), l.policy.needs[0]);
    KeyIsKept(l, i);
    assert KeyNeeded(KeyOf(rows[i]), l.policy.needs);
    KeptFacts(l, KeyOf(rows[i]));
    NothingMissing(l);
    forall k | k in latest
      ensures ClassOf(latest[k].row) != Failure && latest[k].known && latest[k].missing == []
      ensures latest[k].required ==> ClassOf(latest[k].row) == Success
    {
      KeptFacts(l, k);
      ClassIs(latest[k].row);
    }
  }

  lemma PlaceholderPends()
    ensures ClassOf(NotStarted()) != Success
  {
    assert Lower("queued")[0] == 'q' && "completed"[0] == 'c';
  }

  /** Without rows nothing is ever green. */
  lemma NoRowsNotGreen(p: Policy)
    ensures !GreenRows(Latest(Listed([], p)))
  {
    hide ClassOf;
    hide KeyOf;
    hide Beats;
    PlaceholderPends();
    var checks := Listed([], p);
    if checks != [] {
      var c := checks[0];
      assert checks[..0] == [];
      assert Latest(checks) == map[KeyOf(c.row) := c];
      assert KeyOf(c.row) in Latest(checks);
    }
  }

  /** A summary lets MERGE_READY through exactly when the evidence satisfies
      the policy. */
  lemma GreenExactly(l: Listing)
    ensures Green(ChecksSummary(Listed(Rows(l.runs, l.statuses), l.policy))) <==> Satisfied(l)
  {
    hide Rows;
    hide Latest;
    hide Listed;
    hide Satisfied;
    hide GreenRows;
    hide Green;
    hide Summarised;
    var rows := Rows(l.runs, l.statuses);
    GreenIsGreenRows(Latest(Listed(rows, l.policy)));
    if rows == [] { NoRowsNotGreen(l.policy); }
    if rows != [] && GreenRows(Latest(Listed(rows, l.policy))) { GreenGivesSatisfied(l); }
    if Satisfied(l) { SatisfiedGivesGreen(l); }
  }

  /** No author's decision in force asks for changes. */
  ghost predicate NobodyObjects(reviews: seq<Review>) {
    forall author, r :: InForce(reviews, author, r) ==> Upper(r.state) != "CHANGES_REQUESTED"
  }

  lemma InForceIsStanding(reviews: seq<Review>, author: string, r: Review)
    requires InForce(reviews, author, r)
    ensures author in Standing(reviews) && Standing(reviews)[author] == r
  {
    hide Decides;
    hide StrLess;
    hide Standing;
    StandingIsInForce(reviews, author);
    var i: nat :| LastLatest(reviews, author, i) && reviews[i] == r;
    assert Decided(reviews, author);
    var h: nat :| LastLatest(reviews, author, h) && reviews[h] == Standing(reviews)[author];
    StrLessTotal(reviews[i].submittedAt, reviews[h].submittedAt);
  }

  lemma ObjectionsExactly(reviews: seq<Review>)
    ensures ChangesRequested(Standing(reviews)) == {} <==> NobodyObjects(reviews)
  {
    hide Upper;
    hide InForce;
    hide Standing;
    var standing := Standing(reviews);
    if ChangesRequested(standing) == {} {
      forall author, r | InForce(reviews, author, r)
        ensures Upper(r.state) != "CHANGES_REQUESTED"
      {
        InForceIsStanding(reviews, author, r);
        assert author !in ChangesRequested(standing);
      }
    }
    forall author | author in standing
      ensures InForce(reviews, author, standing[author])
    {
      StandingIsInForce(reviews, author);
    }
  }

  /** Both sources answered, the pull request is open, mergeable and CLEAN, the
      checks satisfy the policy and nobody objects. */
  ghost predicate Ready(f: Fetch) {
    && f.Fetched? && MetaClean(f.pr)
    && f.pr.hasHead && f.listing.Some? && f.reviews.Some?
    && Satisfied(f.listing.value) && NobodyObjects(f.reviews.value)
  }

  lemma SizeZero<T>(s: set<T>)
    ensures |s| == 0 <==> s == {}
  {
  }

  /** The cascade, for fresh summaries. */
  lemma CascadeExactly(s: Synced)
    requires s.checks.Some? && s.reviews.Some?
    ensures StateFromSync(s) == MergeReady
       <==> Foremost(s.state, s.mergeState, s.mergeable).None? && Hindmost(s.mergeState, s.mergeable).None?
            && !s.stale && s.reviews.value.changesRequested == 0 && Green(s.checks.value)
  {
    hide Upper;
    hide Unknown;
  }

  lemma StaleNeverReady(s: Synced)
    requires s.stale
    ensures !StateFromSync(s).MergeReady? && !StateFromSync(s).PrOpen?
  {
    hide Upper;
    hide Hindmost;
  }

  // ---- every state, in the words of the provider ----

  /** Open, without conflict, and not behind its base. */
  predicate Current(state: string, mergeState: string, mergeable: string) {
    && Upper(state) !in {"MERGED", "CLOSED"}
    && mergeState != "DIRTY" && mergeable != "CONFLICTING" && mergeState !in {"BEHIND", "BEHIND_BY_COMMITS"}
  }

  /** Provided, and not reported as unknown. */
  predicate Told(s: string) { Upper(s) !in {"", "UNKNOWN", "UNKNOWN_REMOTE"} }

  lemma UpperEmpty(s: string)
    ensures Upper(s) == "" <==> s == ""
  {
    UpperIs(s);
  }

  /** The state after a synchronisation, one by one. Nothing else is ever
      derived. */
  lemma StatesExactly(s: Synced)
    ensures var r := StateFromSync(s);
      var open := Upper(s.state) !in {"MERGED", "CLOSED"};
      var conflict := s.mergeState == "DIRTY" || s.mergeable == "CONFLICTING";
      var current := Current(s.state, s.mergeState, s.mergeable);
      var objected := s.reviews.Some? && s.reviews.value.changesRequested > 0;
      var failed := s.checks.Some? && (s.checks.value.required.failure > 0 || s.checks.value.all.failure > 0);
      var open_ends := s.checks.Some?
                       && (s.checks.value.required.pending > 0 || s.checks.value.required.other > 0
                           || s.checks.value.unknown || s.checks.value.missing != {});
      var settled := current && !objected && !failed && !open_ends && !s.stale && Told(s.mergeState) && Told(s.mergeable);
      var blocked := s.mergeState in {"BLOCKED", "BLOCKED_BY_MAX_REVIEWS", "BLOCKED_BY_LIFECYCLE_RULE",
                                      "BLOCKED_BY_MERGE_TRAIN", "BLOCKED_BY_PENDING_STATE"};
      var succeeded := s.checks.Some? && s.checks.value.required.success > 0;
      && (r == Merged <==> Upper(s.state) == "MERGED")
      && (r == PrClosed <==> Upper(s.state) == "CLOSED")
      && (r == MergeConflict <==> open && conflict)
      && (r == NeedsRebase <==> open && !conflict && s.mergeState in {"BEHIND", "BEHIND_BY_COMMITS"})
      && (r == CiFailed <==> current && !objected && failed)
      && (r == ReviewChangesRequested <==> current && (objected || (settled && blocked)))
      && (r == MergeReady <==> settled && !blocked && Upper(s.mergeState) == "CLEAN" && succeeded)
      && (r == PrOpen <==> settled && !blocked && Upper(s.mergeState) == "CLEAN" && !succeeded)
      && (r == CiPending <==>
            current && !objected && !failed
            && (open_ends || s.stale || !Told(s.mergeState) || !Told(s.mergeable)
                || (!blocked && Upper(s.mergeState) != "CLEAN")))
  {
    hide Upper;
    UpperEmpty(s.mergeState);
    UpperEmpty(s.mergeable);
    assert "MERGED"[0] == 'M' && "CLOSED"[0] == 'C';
  }

  lemma FailureSeen(latest: map<Key, Check>)
    ensures Failing(Some(Summarised(latest))) <==> exists k :: k in latest && Broken(latest[k].row)
  {
    hide ClassOf;
    hide Broken;
    NoneOf(latest, Failure);
    forall k | k in latest
      ensures ClassOf(latest[k].row) == Failure <==> Broken(latest[k].row)
    {
      ClassIs(latest[k].row);
    }
  }

  /** CI_FAILED, when both sources answered: the pull request is current, nobody
      objects, and some effective run, required or not, is broken. */
  lemma FailedExactly(rec: Rec, f: Fetch)
    requires f.Fetched? && f.pr.hasHead && f.listing.Some? && f.reviews.Some?
    ensures Refresh(rec, f).state == CiFailed
       <==> && Current(f.pr.state, f.pr.mergeState, f.pr.mergeable) && NobodyObjects(f.reviews.value)
            && exists k: Key, c: Check :: Broken(c.row)
                 && Effective(Listed(Rows(f.listing.value.runs, f.listing.value.statuses), f.listing.value.policy), k, c)
  {
    hide StateFromSync;
    hide NobodyObjects;
    hide Effective;
    hide Upper;
    hide Rows;
    hide Listed;
    hide Latest;
    hide Broken;
    hide Summarised;
    var s := SyncRecord(rec, f);
    UpperTwice(f.pr.state);
    StatesExactly(s);
    var checks := Listed(Rows(f.listing.value.runs, f.listing.value.statuses), f.listing.value.policy);
    FailureSeen(Latest(checks));
    ObjectionsExactly(f.reviews.value);
    SizeZero(ChangesRequested(Standing(f.reviews.value)));
    if k: Key, c: Check :| Broken(c.row) && Effective(checks, k, c) { EffectiveIsLatest(checks, k, c); }
    if k :| k in Latest(checks) && Broken(Latest(checks)[k].row) { LatestIsFirstBest(checks, k); }
  }

  /** One check run "ci" is required; the pull request is open and clean. */
  function OneRequired(runs: seq<Run>): Fetch {
    Fetched(Pr("OPEN", true, "CLEAN", "MERGEABLE"),
            Some(Listing(runs, [], Policy([Need("ci", LegacyOk)], true))), Some([]))
  }

  function Ran(name: string, conclusion: string): Run { Run(name, "completed", conclusion, "", "", None) }

  lemma NobodySpoke()
    ensures NobodyObjects([])
  {
  }

  lemma BigWords(s: string)
    requires s in {"OPEN", "CLEAN", "MERGEABLE"}
    ensures Upper(s) == s
  {
    hide Upper;
    UpperKeeps(s);
  }

  lemma OpenWord(s: string)
    requires s == "OPEN"
    ensures s !in {"MERGED", "CLOSED"}
  {
    assert "OPEN"[0] == 'O' && "MERGED"[0] == 'M' && "CLOSED"[0] == 'C';
  }

  lemma CleanWord(s: string)
    requires s == "CLEAN"
    ensures s != "DIRTY" && s !in {"BEHIND", "BEHIND_BY_COMMITS"}
  {
    assert "CLEAN"[0] == 'C' && "DIRTY"[0] == 'D' && "BEHIND"[0] == 'B' && "BEHIND_BY_COMMITS"[0] == 'B';
  }

  lemma MergeableWord(s: string)
    requires s == "MERGEABLE"
    ensures s != "CONFLICTING" && s !in {"UNKNOWN", "UNKNOWN_REMOTE"} && s != ""
  {
    assert "MERGEABLE"[0] == 'M' && "CONFLICTING"[0] == 'C' && "UNKNOWN"[0] == 'U' && "UNKNOWN_REMOTE"[0] == 'U';
  }

  lemma CleanIsCurrent()
    ensures Current("OPEN", "CLEAN", "MERGEABLE") && MetaClean(Pr("OPEN", true, "CLEAN", "MERGEABLE"))
  {
    hide Upper;
    BigWords("OPEN");
    BigWords("CLEAN");
    BigWords("MERGEABLE");
    OpenWord("OPEN");
    CleanWord("CLEAN");
    MergeableWord("MERGEABLE");
  }

  /** What the rows of such a fetch are. */
  lemma RanRows(runs: seq<Run>)
    requires runs != []
    ensures var l := OneRequired(runs).listing.value;
      && Rows(l.runs, l.statuses) == seq(|runs|, i requires 0 <= i < |runs| => RunRow(runs[i]))
      && |Listed(Rows(l.runs, l.statuses), l.policy)| == |runs|
      && forall i :: 0 <= i < |runs| ==> Listed(Rows(l.runs, l.statuses), l.policy)[i].row == RunRow(runs[i])
  {
    hide Required;
    hide MissingOf;
  }

  lemma RanSays(name: string, conclusion: string)
    requires conclusion in {"failure", "success", "skipped"}
    ensures var row := RunRow(Ran(name, conclusion));
      (Broken(row) <==> conclusion == "failure") && (Succeeded(row) <==> conclusion != "failure")
  {
    Small("completed");
    Small(conclusion);
    hide Lower;
    StatusWords(if conclusion == "skipped" then "success" else conclusion);
    SkippedWord(conclusion);
  }

  lemma SkippedWord(w: string)
    ensures w == "skipped" ==>
      w !in {"failure", "timed_out", "cancelled", "action_required", "stale", "startup_failure"} && w != "failure"
  {
    assert "failure"[0] == 'f' && "skipped"[0] == 's' && "skipped"[1] == 'k' && "timed_out"[0] == 't' && "cancelled"[0] == 'c';
    assert "action_required"[0] == 'a' && "stale"[1] == 't' && "startup_failure"[1] == 't';
  }

  /** A failed required check is CI_FAILED, whatever the record held before. */
  lemma FailedCheckFails(rec: Rec)
    ensures Refresh(rec, OneRequired([Ran("ci", "failure")])).state == CiFailed
  {
    hide Current;
    hide MetaClean;
    hide Refresh;
    hide NobodyObjects;
    hide KeyOf;
    hide Rows;
    hide Listed;
    hide Broken;
    hide Succeeded;
    hide Beats;
    hide Ran;
    var runs := [Ran("ci", "failure")];
    var l := OneRequired(runs).listing.value;
    NobodySpoke();
    CleanIsCurrent();
    FailedExactly(rec, OneRequired(runs));
    RanRows(runs);
    RanSays("ci", "failure");
    var checks := Listed(Rows(l.runs, l.statuses), l.policy);
    var c := checks[0];
    BeatsOrder(c.row, c.row, c.row);
    assert FirstBest(checks, KeyOf(c.row), 0);
    assert Broken(c.row) && Effective(checks, KeyOf(c.row), c);
  }

  /** An optional check that was skipped does not stand in the way of a
      successful required one. */
  lemma SkippedCheckPasses(rec: Rec)
    ensures Refresh(rec, OneRequired([Ran("ci", "success"), Ran("lint", "skipped")])).state == MergeReady
  {
    hide Current;
    hide MetaClean;
    hide Refresh;
    hide NobodyObjects;
    hide Rows;
    hide Listed;
    hide Effective;
    hide KeyNeeded;
    hide Broken;
    hide Succeeded;
    hide ClassOf;
    var runs := [Ran("ci", "success"), Ran("lint", "skipped")];
    var l := OneRequired(runs).listing.value;
    NobodySpoke();
    CleanIsCurrent();
    ReadyExactly(rec, OneRequired(runs));
    RanRows(runs);
    RanSays("ci", "success");
    RanSays("lint", "skipped");
    FailureWord();
    Small("ci");
    hide Lower;
    var rows := Rows(l.runs, l.statuses);
    assert KeyMeets(KeyOf(rows[0]), l.policy.needs[0]);
    assert NeedSeen(rows, l.policy.needs[0]);
    forall k, c | Effective(Listed(rows, l.policy), k, c)
      ensures Succeeded(c.row) && !Broken(c.row)
    {
      EffectiveIsRow(Listed(rows, l.policy), k, c);
    }
  }

  lemma FailureWord()
    ensures "failure" != "success" && "failure" != "skipped"
  {
    assert "failure"[0] == 'f' && "success"[0] == 's' && "skipped"[0] == 's';
  }

  /** A clean pull request without any check row: PR_OPEN if the policy is known
      and asks for nothing, CI_PENDING if it asks for something or could not be
      read, never MERGE_READY. */
  lemma NothingRan(rec: Rec, p: Policy)
    ensures Refresh(rec, Fetched(Pr("OPEN", true, "CLEAN", "MERGEABLE"), Some(Listing([], [], p)), Some([]))).state
         == if p.known && p.needs == [] then PrOpen else CiPending
  {
    hide StateFromSync;
    hide Upper;
    hide ChecksSummary;
    hide Listed;
    hide Standing;
    var f := Fetched(Pr("OPEN", true, "CLEAN", "MERGEABLE"), Some(Listing([], [], p)), Some([]));
    var s := SyncRecord(rec, f);
    assert Rows([], []) == [];
    PlaceholderCounts(p);
    UpperTwice("OPEN");
    CleanIsCurrent();
    BigWords("CLEAN");
    BigWords("MERGEABLE");
    MergeableWord("MERGEABLE");
    CleanNotBlocked("CLEAN");
    NobodySpoke();
    ObjectionsExactly([]);
    SizeZero(ChangesRequested(Standing([])));
    StatesExactly(s);
  }

  lemma CleanNotBlocked(s: string)
    requires s == "CLEAN"
    ensures s !in {"BLOCKED", "BLOCKED_BY_MAX_REVIEWS", "BLOCKED_BY_LIFECYCLE_RULE", "BLOCKED_BY_MERGE_TRAIN",
                   "BLOCKED_BY_PENDING_STATE"}
    ensures s !in {"", "UNKNOWN", "UNKNOWN_REMOTE"}
  {
    assert s[0] == 'C' && "BLOCKED"[0] == 'B' && "BLOCKED_BY_MAX_REVIEWS"[0] == 'B' && "BLOCKED_BY_LIFECYCLE_RULE"[0] == 'B';
    assert "BLOCKED_BY_MERGE_TRAIN"[0] == 'B' && "BLOCKED_BY_PENDING_STATE"[0] == 'B';
    assert "UNKNOWN"[0] == 'U' && "UNKNOWN_REMOTE"[0] == 'U';
  }

  /** MERGE_READY, exactly: whatever the record held before. */
  lemma ReadyExactly(rec: Rec, f: Fetch)
    ensures Refresh(rec, f).state == MergeReady <==> Ready(f)
  {
    hide StateFromSync;
    hide Foremost;
    hide Hindmost;
    hide MetaClean;
    hide Green;
    hide Satisfied;
    hide NobodyObjects;
    hide Upper;
    hide Rows;
    hide Listed;
    hide Summarised;
    var s := SyncRecord(rec, f);
    if s.stale {
      StaleNeverReady(s);
    } else {
      MetaExactly(f.pr);
      CascadeExactly(s);
      GreenExactly(f.listing.value);
      ObjectionsExactly(f.reviews.value);
      SizeZero(ChangesRequested(Standing(f.reviews.value)));
    }
  }

  // ---- runs of refreshes ----

  function RefreshAll(rec: Rec, fs: seq<Fetch>): Rec
    decreases |fs|
  {
    if fs == [] then rec else RefreshAll(Refresh(rec, fs[0]), fs[1..])
  }

  predicate ChecksFailed(f: Fetch) { f.MetadataFailed? || ChecksOf(f).None? }
  predicate ReviewsFailed(f: Fetch) { f.MetadataFailed? || f.reviews.None? }

  /** The check rows of the last refresh that got any. */
  function LastChecks(fs: seq<Fetch>): Option<seq<Check>>
    decreases |fs|
  {
    if fs == [] then None
    else if ChecksFailed(fs[|fs| - 1]) then LastChecks(fs[..|fs| - 1])
    else ChecksOf(fs[|fs| - 1])
  }

  function LastReviews(fs: seq<Fetch>): Option<seq<Review>>
    decreases |fs|
  {
    if fs == [] then None
    else if ReviewsFailed(fs[|fs| - 1]) then LastReviews(fs[..|fs| - 1])
    else fs[|fs| - 1].reviews
  }

  predicate EverReached(fs: seq<Fetch>) { exists i :: 0 <= i < |fs| && fs[i].Fetched? }

  lemma {:induction false} LastStep(rec: Rec, fs: seq<Fetch>)
    requires fs != []
    ensures RefreshAll(rec, fs) == Refresh(RefreshAll(rec, fs[..|fs| - 1]), fs[|fs| - 1])
    decreases |fs|
  {
    hide Refresh;
    if |fs| > 1 {
      LastStep(Refresh(rec, fs[0]), fs[1..]);
      assert fs[1..][..|fs| - 2] == fs[..|fs| - 1][1..];
    } else {
      assert RefreshAll(Refresh(rec, fs[0]), fs[1..]) == Refresh(rec, fs[0]);
    }
  }

  /** The stored summaries are those of the last successful fetch of each
      source; before any, those held at first, or of the empty list. */
  lemma {:induction false} StoredIsLast(rec: Rec, fs: seq<Fetch>)
    ensures var r := RefreshAll(rec, fs);
      && r.checks == (if LastChecks(fs).Some? then Some(ChecksSummary(LastChecks(fs).value))
                      else if rec.checks.Some? then rec.checks
                      else if EverReached(fs) then Some(ChecksSummary([])) else None)
      && r.reviews == (if LastReviews(fs).Some? then Some(ReviewsSummary(LastReviews(fs).value))
                       else if rec.reviews.Some? then rec.reviews
                       else if EverReached(fs) then Some(ReviewsSummary([])) else None)
    decreases |fs|
  {
    hide StateFromSync;
    hide ChecksSummary;
    hide ReviewsSummary;
    hide EverReached;
    hide Upper;
    if fs == [] {
      NeverReached();
    } else {
      var before, f := fs[..|fs| - 1], fs[|fs| - 1];
      StoredIsLast(rec, before);
      LastStep(rec, fs);
      ReachedMore(fs);
    }
  }

  lemma NeverReached()
    ensures !EverReached([])
  {
  }

  lemma ReachedMore(fs: seq<Fetch>)
    requires fs != []
    ensures EverReached(fs) <==> EverReached(fs[..|fs| - 1]) || fs[|fs| - 1].Fetched?
  {
    var before := fs[..|fs| - 1];
    if EverReached(before) {
      var i :| 0 <= i < |before| && before[i].Fetched?;
      assert fs[i].Fetched?;
    }
    if EverReached(fs) && !fs[|fs| - 1].Fetched? {
      var i :| 0 <= i < |fs| && fs[i].Fetched?;
      assert before[i].Fetched?;
    }
  }

  /** A refresh with any failed source never shows PR_OPEN or MERGE_READY. */
  lemma OutageNeverReady(rec: Rec, f: Fetch)
    requires ChecksFailed(f) || ReviewsFailed(f)
    ensures !Refresh(rec, f).state.MergeReady? && !Refresh(rec, f).state.PrOpen?
  {
    hide StateFromSync;
    hide Upper;
    hide ChecksSummary;
    hide ReviewsSummary;
    StaleNeverReady(SyncRecord(rec, f));
  }

  /** States that rank before or next to a failed check. */
  predicate Grave(s: DState) {
    s.Merged? || s.PrClosed? || s.MergeConflict? || s.NeedsRebase? || s.ReviewChangesRequested? || s.CiFailed?
  }

  lemma FailureRefreshed(rec: Rec, f: Fetch)
    requires Failing(rec.checks) && ChecksFailed(f)
    ensures Refresh(rec, f).checks == rec.checks && Grave(Refresh(rec, f).state)
  {
    hide Upper;
    hide Hindmost;
    hide Rejected;
    hide Unsettled;
    hide ReviewsSummary;
    hide ChecksSummary;
  }

  /** A recorded failure survives any number of outages of the checks source:
      the summary stays and the state never softens. */
  lemma {:induction false} FailureSurvives(rec: Rec, fs: seq<Fetch>)
    requires Failing(rec.checks) && fs != [] && forall i :: 0 <= i < |fs| ==> ChecksFailed(fs[i])
    ensures RefreshAll(rec, fs).checks == rec.checks && Grave(RefreshAll(rec, fs).state)
    decreases |fs|
  {
    hide Refresh;
    hide ChecksFailed;
    hide Failing;
    hide Grave;
    FailureRefreshed(rec, fs[0]);
    var r1 := Refresh(rec, fs[0]);
    if |fs| > 1 {
      FailureSurvives(r1, fs[1..]);
    } else {
      assert RefreshAll(r1, fs[1..]) == r1;
    }
  }

  /** MERGED and PR_CLOSED survive any number of metadata failures, as do both
      summaries. */
  lemma {:induction false} TerminalSurvives(rec: Rec, fs: seq<Fetch>)
    requires rec.state.Merged? || rec.state.PrClosed?
    requires forall i :: 0 <= i < |fs| ==> fs[i].MetadataFailed?
    ensures var r := RefreshAll(rec, fs);
      r.state == rec.state && r.checks == rec.checks && r.reviews == rec.reviews && (fs != [] ==> r.syncError)
    decreases |fs|
  {
    hide StateFromSync;
    if fs != [] { TerminalSurvives(Refresh(rec, fs[0]), fs[1..]); }
  }
}
