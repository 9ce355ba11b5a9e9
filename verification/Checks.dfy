/** Required checks: the branch policy, the annotation of check rows with it,
    and the reduction of reruns to one effective row per key. */
module Checks {
  import opened Prelude
  import opened Ordering

  // ---- text ----

  function LowerChar(ch: char): char {
    if 'A' <= ch <= 'Z' then (ch as int + 32) as char else ch
  }

  function Lower(s: string): string {
    if s == "" then "" else [LowerChar(s[0])] + Lower(s[1..])
  }

  /** Letter by letter: capitals of ASCII become small, nothing else changes. */
  lemma {:induction false} LowerIs(s: string)
    ensures |Lower(s)| == |s|
    ensures forall i :: 0 <= i < |s| ==>
      if 'A' <= s[i] <= 'Z' then Lower(s)[i] as int == s[i] as int + 'a' as int - 'A' as int else Lower(s)[i] == s[i]
  {
    if s != "" { LowerIs(s[1..]); }
  }

  lemma LowerKeeps(s: string)
    requires forall i :: 0 <= i < |s| ==> !('A' <= s[i] <= 'Z')
    ensures Lower(s) == s
  {
    LowerIs(s);
  }

  // ---- rows ----

  /** A check run of a GitHub App, or a legacy commit status. */
  datatype Run = Run(name: string, status: string, conclusion: string, startedAt: string, suite: string, appId: Option<int>)
  datatype CommitStatus = CommitStatus(context: string, state: string, updatedAt: string)

  datatype Row = Row(
    name: string, status: string, conclusion: string, startedAt: string, suite: string,
    appId: Option<int>, legacy: bool)

  function RunRow(r: Run): Row {
    Row(r.name, r.status, r.conclusion, r.startedAt, r.suite, r.appId, false)
  }

  /** An unknown status is never taken for a success. */
  function StatusRow(s: CommitStatus): Row {
    var state := Lower(s.state);
    Row(s.context, "completed",
        if state in {"failure", "error"} then "failure"
        else if state in {"success", "neutral", "skipped"} then "success"
        else "pending",
        s.updatedAt, "", None, true)
  }

  function Rows(runs: seq<Run>, statuses: seq<CommitStatus>): seq<Row> {
    seq(|runs|, i requires 0 <= i < |runs| => RunRow(runs[i]))
    + seq(|statuses|, i requires 0 <= i < |statuses| => StatusRow(statuses[i]))
  }

  /** A check run keeps its name, status, conclusion, time and suite; its app
      id is what tells it from a commit status. */
  lemma RunRowIs(r: Run)
    ensures var row := RunRow(r);
      && row.name == r.name && row.status == r.status && row.conclusion == r.conclusion
      && row.startedAt == r.startedAt && row.suite == r.suite && row.appId == r.appId && !row.legacy
  {
  }

  // ---- branch policy ----

  datatype Binding = LegacyOk | AnyApp | App(id: int)
  datatype Need = Need(context: string, binding: Binding)

  /** `known` is false when the policy could not be read. */
  datatype Policy = Policy(needs: seq<Need>, known: bool)

  function ContextNeeds(contexts: seq<string>): seq<Need> {
    if contexts == [] then [] else [Need(Lower(contexts[0]), LegacyOk)] + ContextNeeds(contexts[1..])
  }

  /** The app id -1 stands for any app. */
  function CheckNeeds(checks: seq<(string, int)>): seq<Need> {
    if checks == [] then []
    else [Need(Lower(checks[0].0), BindingOf(checks[0].1))] + CheckNeeds(checks[1..])
  }

  method ReadContexts(contexts: seq<string>) returns (needs: seq<Need>)
    ensures needs == ContextNeeds(contexts)
  {
    needs := [];
    for i := 0 to |contexts|
      invariant needs + ContextNeeds(contexts[i..]) == ContextNeeds(contexts)
    {
      var need := Need(Lower(contexts[i]), LegacyOk);
      assert contexts[i..][1..] == contexts[i + 1..];
      Regroup(needs, need, ContextNeeds(contexts[i + 1..]));
      needs := needs + [need];
    }
  }

  /** The whole policy: contexts first, then app-bound checks. */
  method RequiredStatusChecks(contexts: seq<string>, checks: seq<(string, int)>) returns (needs: seq<Need>)
    ensures needs == ContextNeeds(contexts) + CheckNeeds(checks)
  {
    needs := ReadContexts(contexts);
    ghost var first := needs;
    for i := 0 to |checks|
      invariant needs + CheckNeeds(checks[i..]) == first + CheckNeeds(checks)
    {
      var need := Need(Lower(checks[i].0), if checks[i].1 == -1 then AnyApp else App(checks[i].1));
      assert checks[i..][1..] == checks[i + 1..];
      Regroup(needs, need, CheckNeeds(checks[i + 1..]));
      needs := needs + [need];
    }
  }

  lemma Regroup<T>(a: seq<T>, x: T, b: seq<T>)
    ensures a + ([x] + b) == (a + [x]) + b
    ensures [] + b == b
  {
  }

  function BindingOf(appId: int): Binding { if appId == -1 then AnyApp else App(appId) }

  lemma {:induction false} ContextNeedsAre(contexts: seq<string>, n: Need)
    ensures n in ContextNeeds(contexts) <==> n.binding.LegacyOk? && exists c :: c in contexts && n.context == Lower(c)
  {
    hide Lower;
    if contexts != [] {
      ContextNeedsAre(contexts[1..], n);
      var first := Need(Lower(contexts[0]), LegacyOk);
      assert n in ContextNeeds(contexts) <==> n == first || n in ContextNeeds(contexts[1..]);
      assert n == first <==> n.binding.LegacyOk? && n.context == Lower(contexts[0]);
      assert forall c :: c in contexts <==> c == contexts[0] || c in contexts[1..];
    }
  }

  lemma {:induction false} CheckNeedsAre(checks: seq<(string, int)>, n: Need)
    ensures n in CheckNeeds(checks) <==> exists k :: k in checks && n == Need(Lower(k.0), BindingOf(k.1))
  {
    hide Lower;
    if checks != [] {
      CheckNeedsAre(checks[1..], n);
      assert forall k :: k in checks <==> k == checks[0] || k in checks[1..];
    }
  }

  // ---- annotation ----

  datatype Check = Check(row: Row, required: bool, known: bool, missing: seq<Need>)

  predicate Meets(row: Row, need: Need) {
    && need.context == Lower(row.name)
    && match need.binding
       case LegacyOk => true
       case AnyApp => !row.legacy && row.appId.Some?
       case App(id) => !row.legacy && row.appId == Some(id)
  }

  predicate Required(row: Row, needs: seq<Need>) {
    exists i :: 0 <= i < |needs| && Meets(row, needs[i])
  }

  predicate Observed(rows: seq<Row>, need: Need) {
    exists i :: 0 <= i < |rows| && Meets(rows[i], need)
  }

  function Unmet(rows: seq<Row>, needs: seq<Need>): seq<Need> {
    if needs == [] then []
    else (if Observed(rows, needs[0]) then [] else [needs[0]]) + Unmet(rows, needs[1..])
  }

  function MissingOf(rows: seq<Row>, p: Policy): seq<Need> {
    if p.known then Unmet(rows, p.needs) else []
  }

  function Annotated(row: Row, rows: seq<Row>, p: Policy): Check {
    Check(row, Required(row, p.needs), p.known, MissingOf(rows, p))
  }

  function NotStarted(): Row { Row("(required checks not started)", "queued", "", "", "", None, false) }
  function PolicyUnknown(): Row { Row("(required policy unknown)", "queued", "", "", "", None, false) }

  /** Without any row, an unmet or unknown policy still leaves one that is
      pending. */
  function Listed(rows: seq<Row>, p: Policy): seq<Check> {
    if rows != [] then seq(|rows|, i requires 0 <= i < |rows| => Annotated(rows[i], rows, p))
    else if p.known && p.needs != [] then [Check(NotStarted(), true, true, MissingOf(rows, p))]
    else if !p.known then [Check(PolicyUnknown(), false, false, [])]
    else []
  }

  /** The needs that one row meets. */
  method NeedsMet(row: Row, needs: seq<Need>) returns (satisfied: set<Need>)
    ensures forall n :: n in satisfied <==> n in needs && Meets(row, n)
  {
    hide Meets;
    satisfied := {};
    for k := 0 to |needs|
      invariant forall n :: n in satisfied <==> n in needs[..k] && Meets(row, n)
    {
      assert needs[..k + 1] == needs[..k] + [needs[k]];
      if Meets(row, needs[k]) { satisfied := satisfied + {needs[k]}; }
    }
    assert needs[..|needs|] == needs;
  }

  /** The needs that no row meets, in the order of the policy. */
  method NeedsMissing(rows: seq<Row>, p: Policy, observed: set<Need>) returns (missing: seq<Need>)
    requires forall n :: n in observed <==> n in p.needs && Observed(rows, n)
    ensures missing == MissingOf(rows, p)
  {
    hide Observed;
    missing := [];
    if p.known {
      for k := 0 to |p.needs|
        invariant missing + Unmet(rows, p.needs[k..]) == Unmet(rows, p.needs)
      {
        assert p.needs[k..][1..] == p.needs[k + 1..];
        Regroup(missing, p.needs[k], Unmet(rows, p.needs[k + 1..]));
        if p.needs[k] !in observed { missing := missing + [p.needs[k]]; }
      }
    }
  }

  /** One sweep over the rows marks them and collects the needs they meet; the
      needs not collected are missing. */
  method ListChecks(runs: seq<Run>, statuses: seq<CommitStatus>, p: Policy) returns (checks: seq<Check>)
    ensures checks == Listed(Rows(runs, statuses), p)
  {
    hide Rows;
    hide Observed;
    hide Required;
    hide Meets;
    hide MissingOf;
    var rows := Rows(runs, statuses);
    var observed: set<Need> := {};
    var required: seq<bool> := [];
    assert forall n :: !Observed([], n) by { NothingObserved(); }
    for i := 0 to |rows|
      invariant |required| == i && forall k :: 0 <= k < i ==> required[k] == Required(rows[k], p.needs)
      invariant forall n :: n in observed <==> n in p.needs && Observed(rows[..i], n)
    {
      var satisfied := NeedsMet(rows[i], p.needs);
      RequiredByNeeds(rows[i], p.needs, satisfied);
      ObservedMore(rows, i);
      required := required + [satisfied != {}];
      observed := observed + satisfied;
    }
    assert rows[..|rows|] == rows;
    var missing := NeedsMissing(rows, p, observed);
    if rows != [] {
      checks := seq(|rows|, i requires 0 <= i < |rows| => Check(rows[i], required[i], p.known, missing));
    } else if p.known && p.needs != [] {
      checks := [Check(NotStarted(), true, true, missing)];
    } else if !p.known {
      checks := [Check(PolicyUnknown(), false, false, [])];
    } else {
      checks := [];
    }
  }

  lemma NothingObserved()
    ensures forall n :: !Observed([], n)
  {
  }

  lemma RequiredByNeeds(row: Row, needs: seq<Need>, satisfied: set<Need>)
    requires forall n :: n in satisfied <==> n in needs && Meets(row, n)
    ensures Required(row, needs) <==> satisfied != {}
  {
    hide Meets;
    if Required(row, needs) {
      var i :| 0 <= i < |needs| && Meets(row, needs[i]);
      assert needs[i] in satisfied;
    }
    if satisfied != {} {
      var n :| n in satisfied;
      assert n in needs;
    }
  }

  lemma ObservedMore(rows: seq<Row>, i: nat)
    requires i < |rows|
    ensures forall n :: Observed(rows[..i + 1], n) <==> Observed(rows[..i], n) || Meets(rows[i], n)
  {
    forall n
      ensures Observed(rows[..i + 1], n) <==> Observed(rows[..i], n) || Meets(rows[i], n)
    {
      if Observed(rows[..i], n) {
        var k :| 0 <= k < i && Meets(rows[..i][k], n);
        assert Meets(rows[..i + 1][k], n);
      }
      if Meets(rows[i], n) { assert Meets(rows[..i + 1][i], n); }
      if Observed(rows[..i + 1], n) {
        var k :| 0 <= k < i + 1 && Meets(rows[..i + 1][k], n);
        if k < i { assert Meets(rows[..i][k], n); }
      }
    }
  }

  /** Nothing is missing exactly when every need is met by some row. */
  lemma {:induction false} UnmetEmpty(rows: seq<Row>, needs: seq<Need>)
    ensures Unmet(rows, needs) == [] <==> forall i :: 0 <= i < |needs| ==> Observed(rows, needs[i])
  {
    hide Observed;
    if needs != [] {
      UnmetEmpty(rows, needs[1..]);
      if forall i :: 0 <= i < |needs| ==> Observed(rows, needs[i]) {
        assert forall i :: 0 <= i < |needs[1..]| ==> Observed(rows, needs[1..][i]);
      }
      if Unmet(rows, needs) == [] {
        assert forall i :: 1 <= i < |needs| ==> needs[i] == needs[1..][i - 1];
      }
    }
  }

  // ---- keys ----

  datatype Key = Key(name: string, app: Option<int>)

  function KeyOf(row: Row): Key { Key(Lower(row.name), row.appId) }

  /** What a key alone says about a need. */
  predicate KeyMeets(k: Key, need: Need) {
    && need.context == k.name
    && match need.binding
       case LegacyOk => true
       case AnyApp => k.app.Some?
       case App(id) => k.app == Some(id)
  }

  /** The needs a row meets depend on its key only: legacy rows carry no app
      id, so the app id tells them apart. */
  lemma MeetsByKey(runs: seq<Run>, statuses: seq<CommitStatus>, i: nat, need: Need)
    requires i < |Rows(runs, statuses)|
    ensures Meets(Rows(runs, statuses)[i], need) <==> KeyMeets(KeyOf(Rows(runs, statuses)[i]), need)
  {
    hide Lower;
    var row := Rows(runs, statuses)[i];
    assert row.legacy ==> row.appId.None?;
  }

  // ---- reruns ----

  predicate Active(row: Row) { Lower(row.status) != "completed" }

  /** Unfinished before finished, then by start time, then by suite; as text. */
  predicate Beats(a: Row, b: Row) {
    if Active(a) != Active(b) then Active(a)
    else StrLess(b.startedAt, a.startedAt) || (a.startedAt == b.startedAt && StrLess(b.suite, a.suite))
  }

  function Take(latest: map<Key, Check>, c: Check): map<Key, Check> {
    var k := KeyOf(c.row);
    if k !in latest || Beats(c.row, latest[k].row) then latest[k := c] else latest
  }

  function Latest(checks: seq<Check>): map<Key, Check> {
    if checks == [] then map[] else Take(Latest(checks[..|checks| - 1]), checks[|checks| - 1])
  }

  /** Row `i` is the first of the best rows of its key. */
  predicate FirstBest(checks: seq<Check>, k: Key, i: nat) {
    && i < |checks| && KeyOf(checks[i].row) == k
    && (forall h :: 0 <= h < i && KeyOf(checks[h].row) == k ==> Beats(checks[i].row, checks[h].row))
    && (forall h :: i <= h < |checks| && KeyOf(checks[h].row) == k ==> !Beats(checks[h].row, checks[i].row))
  }

  predicate HasKey(checks: seq<Check>, k: Key) {
    exists i :: 0 <= i < |checks| && KeyOf(checks[i].row) == k
  }

  /** The row is the effective one of its key. */
  ghost predicate Effective(checks: seq<Check>, k: Key, c: Check) {
    exists i: nat :: FirstBest(checks, k, i) && checks[i] == c
  }

  lemma BeatsOrder(a: Row, b: Row, c: Row)
    ensures Beats(a, b) ==> !Beats(b, a)
    ensures !Beats(a, b) && !Beats(b, c) ==> !Beats(a, c)
    ensures Beats(a, b) && Beats(b, c) ==> Beats(a, c)
    ensures Beats(a, b) && !Beats(c, b) ==> Beats(a, c)
    ensures !Beats(a, a)
  {
    hide Active;
    hide StrLess;
    StrLessTotal(a.startedAt, b.startedAt);
    StrLessTotal(b.startedAt, c.startedAt);
    StrLessTotal(a.startedAt, c.startedAt);
    StrLessTotal(a.suite, b.suite);
    StrLessTotal(b.suite, c.suite);
    StrLessTotal(a.suite, c.suite);
    StrLessTotal(a.startedAt, a.startedAt);
    StrLessTotal(a.suite, a.suite);
    StrOrder();
    Chain(a.startedAt, b.startedAt, c.startedAt);
    Chain(a.suite, b.suite, c.suite);
  }

  lemma Chain(x: string, y: string, z: string)
    ensures StrLess(x, y) && StrLess(y, z) ==> StrLess(x, z)
    ensures StrLess(z, y) && StrLess(y, x) ==> StrLess(z, x)
  {
    hide StrLess;
    StrOrder();
    StrLessTotal(x, y);
    StrLessTotal(y, z);
    StrLessTotal(x, z);
  }

  /** The reduction keeps, per key, the first of the best rows. */
  lemma {:induction false} LatestIsFirstBest(checks: seq<Check>, k: Key)
    ensures k in Latest(checks) <==> HasKey(checks, k)
    ensures k in Latest(checks) ==> Effective(checks, k, Latest(checks)[k])
  {
    hide Beats;
    hide KeyOf;
    hide FirstBest;
    hide HasKey;
    hide Effective;
    if checks == [] {
      NoKey(k);
    } else {
      var n := |checks| - 1;
      var before := checks[..n];
      assert checks == before + [checks[n]];
      LatestIsFirstBest(before, k);
      if KeyOf(checks[n].row) != k {
        OtherKey(before, checks[n], k);
      } else if k in Latest(before) {
        SameKey(before, checks[n], k, Latest(before)[k]);
      } else {
        NewKey(before, checks[n], k);
      }
    }
  }

  lemma NoKey(k: Key)
    ensures !HasKey([], k)
  {
  }

  lemma OtherKey(before: seq<Check>, c: Check, k: Key)
    requires KeyOf(c.row) != k
    ensures HasKey(before + [c], k) <==> HasKey(before, k)
    ensures forall e :: Effective(before, k, e) ==> Effective(before + [c], k, e)
  {
    hide Beats;
    hide KeyOf;
    var checks := before + [c];
    if HasKey(before, k) {
      var i :| 0 <= i < |before| && KeyOf(before[i].row) == k;
      assert KeyOf(checks[i].row) == k;
    }
    if HasKey(checks, k) {
      var i :| 0 <= i < |checks| && KeyOf(checks[i].row) == k;
      assert KeyOf(before[i].row) == k;
    }
    forall e | Effective(before, k, e)
      ensures Effective(checks, k, e)
    {
      var i: nat :| FirstBest(before, k, i) && before[i] == e;
      assert FirstBest(checks, k, i);
    }
  }

  lemma NewKey(before: seq<Check>, c: Check, k: Key)
    requires KeyOf(c.row) == k && !HasKey(before, k)
    ensures HasKey(before + [c], k) && Effective(before + [c], k, c)
  {
    hide Beats;
    hide KeyOf;
    var checks := before + [c];
    BeatsOrder(c.row, c.row, c.row);
    assert checks[|before|] == c;
    assert FirstBest(checks, k, |before|);
  }

  lemma SameKey(before: seq<Check>, c: Check, k: Key, e: Check)
    requires KeyOf(c.row) == k && Effective(before, k, e)
    ensures HasKey(before + [c], k) && Effective(before + [c], k, if Beats(c.row, e.row) then c else e)
  {
    hide Beats;
    hide KeyOf;
    var checks := before + [c];
    var i: nat :| FirstBest(before, k, i) && before[i] == e;
    assert checks[|before|] == c && checks[i] == e && checks[..|before|] == before;
    BestSoFar(checks, k, i);
  }

  lemma BestSoFar(checks: seq<Check>, k: Key, i: nat)
    requires |checks| > 0 && FirstBest(checks[..|checks| - 1], k, i) && KeyOf(checks[|checks| - 1].row) == k
    ensures FirstBest(checks, k, if Beats(checks[|checks| - 1].row, checks[i].row) then |checks| - 1 else i)
  {
    hide Beats;
    hide KeyOf;
    var n := |checks| - 1;
    var before := checks[..n];
    forall h | 0 <= h < n && KeyOf(checks[h].row) == k
      ensures Beats(checks[n].row, checks[i].row) ==> Beats(checks[n].row, checks[h].row)
    {
      assert before[h] == checks[h];
      BeatsOrder(checks[n].row, checks[i].row, checks[h].row);
    }
    BeatsOrder(checks[n].row, checks[n].row, checks[n].row);
  }

  /** A row of the list is the effective one of its key in only one way. */
  lemma FirstBestUnique(checks: seq<Check>, k: Key, i: nat, h: nat)
    requires FirstBest(checks, k, i) && FirstBest(checks, k, h)
    ensures i == h
  {
    hide Beats;
    hide KeyOf;
  }

  /** No two rows of one key rank the same. */
  predicate RanksDiffer(checks: seq<Check>) {
    forall i, h :: 0 <= i < h < |checks| && KeyOf(checks[i].row) == KeyOf(checks[h].row) ==>
      Beats(checks[i].row, checks[h].row) || Beats(checks[h].row, checks[i].row)
  }

  /** An effective row is beaten by no row of its key. */
  lemma BestBeatsNone(checks: seq<Check>, k: Key, e: Check, c: Check)
    requires Effective(checks, k, e) && c in checks && KeyOf(c.row) == k
    ensures e in checks && KeyOf(e.row) == k && !Beats(c.row, e.row)
  {
    hide Beats;
    hide KeyOf;
    var i: nat :| FirstBest(checks, k, i) && checks[i] == e;
    var p :| 0 <= p < |checks| && checks[p] == c;
    BeatsOrder(e.row, c.row, c.row);
  }

  lemma RanksTell(checks: seq<Check>, a: Check, b: Check)
    requires RanksDiffer(checks) && a in checks && b in checks && KeyOf(a.row) == KeyOf(b.row)
    requires !Beats(a.row, b.row) && !Beats(b.row, a.row)
    ensures a == b
  {
    hide Beats;
    hide KeyOf;
    var i :| 0 <= i < |checks| && checks[i] == a;
    var h :| 0 <= h < |checks| && checks[h] == b;
  }

  lemma BestOfBoth(a: seq<Check>, b: seq<Check>, k: Key, e: Check, f: Check)
    requires (forall c :: c in a <==> c in b) && RanksDiffer(a) && Effective(a, k, e) && Effective(b, k, f)
    ensures e == f
  {
    hide Beats;
    hide KeyOf;
    hide RanksDiffer;
    var i: nat :| FirstBest(a, k, i) && a[i] == e;
    var h: nat :| FirstBest(b, k, h) && b[h] == f;
    hide FirstBest;
    assert e in a && f in b;
    BestBeatsNone(a, k, e, f);
    BestBeatsNone(b, k, f, e);
    RanksTell(a, e, f);
  }

  lemma KeysOfBoth(a: seq<Check>, b: seq<Check>, k: Key)
    requires (forall c :: c in a <==> c in b) && HasKey(a, k)
    ensures HasKey(b, k)
  {
    var i :| 0 <= i < |a| && KeyOf(a[i].row) == k;
    assert a[i] in b;
  }

  /** When ranks differ, the order in which the rows arrive does not matter. */
  lemma LatestOrderFree(a: seq<Check>, b: seq<Check>)
    requires multiset(a) == multiset(b) && RanksDiffer(a)
    ensures Latest(a) == Latest(b)
  {
    hide Latest;
    hide HasKey;
    hide Effective;
    hide RanksDiffer;
    forall c
      ensures c in a <==> c in b
    {
      assert c in a <==> c in multiset(a);
    }
    forall k
      ensures k in Latest(a) <==> k in Latest(b)
      ensures k in Latest(a) && k in Latest(b) ==> Latest(a)[k] == Latest(b)[k]
    {
      LatestIsFirstBest(a, k);
      LatestIsFirstBest(b, k);
      if HasKey(a, k) { KeysOfBoth(a, b, k); }
      if HasKey(b, k) { KeysOfBoth(b, a, k); }
      if k in Latest(a) && k in Latest(b) { BestOfBoth(a, b, k, Latest(a)[k], Latest(b)[k]); }
    }
  }

  /** In words: a run that is not completed is never masked by one that is;
      among runs alike in that, none started later than the effective one, as
      text, and of those that started with it none has a later suite. */
  lemma EffectiveInWords(checks: seq<Check>, k: Key, e: Check, c: Check)
    requires Effective(checks, k, e) && c in checks
    requires Lower(c.row.name) == k.name && c.row.appId == k.app
    ensures e in checks && Lower(e.row.name) == k.name && e.row.appId == k.app
    ensures Lower(c.row.status) != "completed" ==> Lower(e.row.status) != "completed"
    ensures (Lower(c.row.status) == "completed") == (Lower(e.row.status) == "completed") ==>
      && !StrLess(e.row.startedAt, c.row.startedAt)
      && (c.row.startedAt == e.row.startedAt ==> !StrLess(e.row.suite, c.row.suite))
  {
    hide Lower;
    hide StrLess;
    BestBeatsNone(checks, k, e, c);
  }

  // ---- numbers compared as text ----

  predicate Digits(s: string) { forall i :: 0 <= i < |s| ==> '0' <= s[i] <= '9' }

  /** A number as it is printed: no leading zero. */
  predicate Decimal(s: string) { s != "" && Digits(s) && (s[0] == '0' ==> |s| == 1) }

  function Pow10(n: nat): (r: nat)
    ensures r >= 1
  {
    if n == 0 then 1 else 10 * Pow10(n - 1)
  }

  function Digit(ch: char): (n: nat)
    requires '0' <= ch <= '9'
    ensures n <= 9
  {
    ch as int - '0' as int
  }

  function Number(s: string): nat
    requires Digits(s)
  {
    if s == "" then 0 else Digit(s[0]) * Pow10(|s| - 1) + Number(s[1..])
  }

  lemma TenTimes(d: nat, p: nat)
    ensures d * (10 * p) == 10 * (d * p)
  {
  }

  lemma NumberUnfolds(s: string)
    requires s != "" && Digits(s)
    ensures Digits(s[1..]) && Number(s) == Digit(s[0]) * Pow10(|s| - 1) + Number(s[1..])
  {
  }

  lemma NumberOfOne(ch: char)
    requires '0' <= ch <= '9'
    ensures Digits([ch]) && Number([ch]) == Digit(ch)
  {
    assert [ch][1..] == "" && Number("") == 0 && Pow10(0) == 1;
  }

  /** One more digit at the end. */
  lemma {:induction false} NumberMore(s: string, ch: char)
    requires Digits(s) && '0' <= ch <= '9'
    ensures Digits(s + [ch]) && Number(s + [ch]) == 10 * Number(s) + Digit(ch)
  {
    hide Number;
    if s == "" {
      assert s + [ch] == [ch];
      NumberOfOne(ch);
      NumberOfNothing();
    } else {
      var t := s + [ch];
      assert t[1..] == s[1..] + [ch] && t[0] == s[0];
      NumberMore(s[1..], ch);
      NumberUnfolds(s);
      assert Digits(t);
      NumberUnfolds(t);
      TenTimes(Digit(s[0]), Pow10(|s| - 1));
      assert Pow10(|t| - 1) == 10 * Pow10(|s| - 1);
    }
  }

  lemma NumberOfNothing()
    ensures Number("") == 0
  {
  }

  lemma {:induction false} NumberBound(s: string)
    requires Digits(s)
    ensures Number(s) < Pow10(|s|)
  {
    if s != "" {
      NumberBound(s[1..]);
      Scale(Digit(s[0]), 9, Pow10(|s| - 1));
    }
  }

  lemma {:induction false} Scale(a: nat, b: nat, p: nat)
    requires a <= b
    ensures a * p <= b * p
    ensures a < b ==> a * p + p <= b * p
  {
    if a < b {
      Scale(a, b - 1, p);
      assert b * p == (b - 1) * p + p;
    }
  }

  /** Numbers of equal length are ordered as their digits are. */
  lemma {:induction false} SameLengthOrder(a: string, b: string)
    requires |a| == |b| && Digits(a) && Digits(b)
    ensures StrLess(a, b) <==> Number(a) < Number(b)
  {
    if a != "" {
      SameLengthOrder(a[1..], b[1..]);
      NumberBound(a[1..]);
      NumberBound(b[1..]);
      var x, y := Digit(a[0]), Digit(b[0]);
      if x < y { Scale(x, y, Pow10(|a| - 1)); } else { Scale(y, x, Pow10(|a| - 1)); }
    }
  }

  lemma {:induction false} ShorterFirst(a: string, b: string)
    requires |a| < |b|
    ensures StrLess(a, b) <==> !StrLess(b[..|a|], a)
  {
    if a != "" {
      assert b[..|a|][1..] == b[1..][..|a| - 1];
      ShorterFirst(a[1..], b[1..]);
    }
  }

  lemma {:induction false} Pow10Grows(m: nat, n: nat)
    requires m <= n
    ensures Pow10(m) <= Pow10(n)
  {
    if m < n { Pow10Grows(m, n - 1); }
  }

  lemma ShorterIsLess(a: string, b: string)
    requires Decimal(a) && Decimal(b) && |a| < |b|
    ensures Number(a) < Number(b)
  {
    NumberBound(a);
    Pow10Grows(|a|, |b| - 1);
    Scale(1, Digit(b[0]), Pow10(|b| - 1));
  }

  /** Two numbers compare as text as they compare as numbers exactly when they
      are equally long, or the shorter one is at most the leading part of the
      longer one of the same length. */
  lemma TextOrderExactly(a: string, b: string)
    requires Decimal(a) && Decimal(b) && |a| <= |b|
    ensures (StrLess(a, b) <==> Number(a) < Number(b)) <==> |a| == |b| || Number(a) <= Number(b[..|a|])
    ensures (StrLess(b, a) <==> Number(b) < Number(a)) <==> |a| == |b| || Number(a) <= Number(b[..|a|])
  {
    StrLessTotal(a, b);
    if |a| == |b| {
      SameLengthOrder(a, b);
      SameLengthOrder(b, a);
    } else {
      ShorterIsLess(a, b);
      ShorterFirst(a, b);
      SameLengthOrder(b[..|a|], a);
    }
  }

  lemma OneRow(c: Check)
    ensures Latest([c]) == map[KeyOf(c.row) := c]
  {
    assert [c][..0] == [];
    assert Latest([c][..0]) == map[];
  }

  /** Of two reruns that started at the same time, that of suite 9 is taken for
      the later one, whichever comes first in the list. */
  lemma NineOutranksTen(row: Row, required: bool)
    ensures var nine := Check(row.(suite := "9"), required, true, []);
      var ten := Check(row.(suite := "10"), required, true, []);
      Latest([nine, ten]) == map[KeyOf(row) := nine] && Latest([ten, nine]) == map[KeyOf(row) := nine]
  {
    hide Lower;
    var nine := Check(row.(suite := "9"), required, true, []);
    var ten := Check(row.(suite := "10"), required, true, []);
    StrLessTotal(row.startedAt, row.startedAt);
    assert StrLess("10", "9") by { assert "10"[0] == '1' && "9"[0] == '9'; }
    StrLessTotal("10", "9");
    assert [nine, ten][..1] == [nine] && [ten, nine][..1] == [ten];
    assert KeyOf(nine.row) == KeyOf(row) && KeyOf(ten.row) == KeyOf(row);
    OneRow(nine);
    OneRow(ten);
    assert !Beats(ten.row, nine.row) && Beats(nine.row, ten.row);
    assert Latest([nine, ten]) == Take(Latest([nine, ten][..1]), ten);
    assert Latest([ten, nine]) == Take(Latest([ten, nine][..1]), nine);
  }
}
