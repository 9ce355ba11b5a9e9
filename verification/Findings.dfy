/** Runs that show where the conditions on runs are needed. */
module Findings {
  import opened Prelude
  import opened Records
  import opened Scheduling
  import opened Engine
  import opened Service
  import opened Lifecycle
  import Checks

  function Conf(): Config {
    Config(1, map[], {"codex_cli"}, 60, "fixture", s => s)
  }

  function Req(aid: Id): Request { Request("t", aid, "codex_cli", false, "p", 3600) }

  function Spec(payload: Id): JobSpec { JobSpec("t", "codex_cli", false, 3600, payload, "p") }

  function JobWith(ids: seq<Id>, payload: Id, state: JState, reason: Reason): Job {
    Job(Spec(payload), ids, state, Result(None, reason, []))
  }

  function AttemptOf(jobId: Id, state: AState, terminal: bool, sid: Id, owner: string, leased: Option<int>,
        reason: Reason): Attempt {
    Attempt(AttemptKey(jobId, "codex_cli", "", 0), state, terminal, sid, Claim(owner, leased, None, false),
            Result(None, reason, []))
  }

  function Ask(repo: Repo): Oracle { Oracle(1, true, 10, repo, StartOk("s", true, true, false)) }

  function Waiting(): Data {
    Data(Queue(map["a" := AttemptOf("j", AState.Queued, false, "", "", None, NoReason)],
               map["j" := JobWith(["a"], "pl", JState.Accepted, NoReason)]),
         map[], map["pl" := Envelope("p", "p")], map[], {}, Log([], [], map["j" := "p"]))
  }

  lemma OneLetter(s: string)
    requires |s| == 1 && 'a' <= s[0] <= 'z'
    ensures SafeIdent(s)
  {
    assert IdentChar(s[0]) && s[0] != '.' && s[|s| - 1] != '\n';
    assert forall i :: 0 <= i < |s| ==> s[i] == s[0];
  }

  /** One more step of a run. */
  lemma Then(c: Config, acts: seq<Act>, act: Act, k: Discipline)
    ensures Run(c, Init(), acts + [act]) == Step(c, Run(c, Init(), acts), act)
    ensures Admissible(c, Init(), acts + [act], k)
       <==> Admissible(c, Init(), acts, k) && Allowed(c, Run(c, Init(), acts), act, k)
  {
    hide Step;
    hide Allowed;
    var w := Run(c, Init(), acts);
    RunConcat(c, Init(), acts, [act], k);
    assert Run(c, w, [act]) == Run(c, Step(c, w, act), []);
  }

  lemma Submitted()
    ensures Step(Conf(), Init(), DoSubmit(Req("a"), "j", "pl", true, 0)) == World(Waiting(), Idle, {})
  {
    hide Advance;
    hide SafeIdent;
    OneLetter("t");
    OneLetter("a");
  }

  function Held(state: AState): Data {
    Waiting().(queue := Waiting().queue.(attempts := map["a" := AttemptOf("j", state, false, "", "d", Some(1), NoReason)]))
  }

  lemma Claimed()
    ensures Step(Conf(), World(Waiting(), Idle, {}), Check("a")) == World(Waiting(), Checked("a"), {})
    ensures Step(Conf(), World(Waiting(), Checked("a"), {}), ClaimChecked("d", 1))
         == World(Held(AState.Claimed), Pc.Claimed("a"), {})
  {
    assert Active(Waiting().queue.attempts) == {};
    assert ActiveOf(Waiting().queue.attempts, "codex_cli") == {};
  }

  function ToClaim(): seq<Act> {
    [DoSubmit(Req("a"), "j", "pl", true, 0)] + [Check("a")] + [ClaimChecked("d", 1)]
  }

  lemma ReachClaim(k: Discipline)
    ensures Run(Conf(), Init(), ToClaim()) == World(Held(AState.Claimed), Pc.Claimed("a"), {})
    ensures Admissible(Conf(), Init(), ToClaim(), k)
  {
    hide Step;
    var c := Conf();
    var submit := DoSubmit(Req("a"), "j", "pl", true, 0);
    Submitted();
    Claimed();
    assert [] + [submit] == [submit];
    Then(c, [], submit, k);
    Then(c, [submit], Check("a"), k);
    Then(c, [submit] + [Check("a")], ClaimChecked("d", 1), k);
  }

  /** Every condition on runs but the last, and with the last. */
  const UNSETTLED_RUN := Discipline(true, true, true, true, false)
  const STRICT_RUN := Discipline(true, true, true, true, true)

  // ---- a crash between two writes leaves a job behind ----

  function TornJob(): World {
    World(Waiting().(queue := Waiting().queue.(attempts :=
            map["a" := AttemptOf("j", AState.Failed, true, "", "d", Some(1), WorktreeFailed)])), Idle, {"j"})
  }

  lemma Torn()
    ensures Step(Conf(), Step(Conf(), World(Held(AState.Claimed), Pc.Claimed("a"), {}), Dispatch(Ask(WorktreeError))), Crash)
         == TornJob()
  {
  }

  lemma NoKeyIn(all: map<Id, Attempt>, key: string)
    requires "a" in all && all["a"].key.idemKey != key
    ensures WithKey(all, ["a"], key).None?
  {
    assert ["a"][1..] == [];
    assert WithKey(all, [], key).None?;
  }

  lemma TornRefuses(id: Option<Id>, key: string)
    ensures RetryReply(Conf(), TornJob().d, "j", id, key) == Refused(NotTerminal)
  {
    hide LoadPayload;
    hide SafeIdent;
    hide RetryId;
    if key != "" { NoKeyIn(TornJob().d.queue.attempts, key); }
  }

  /** The dispatcher dies after it closed the attempt and before it closed the
      job: the job stays open over a closed attempt, and no retry is accepted. */
  lemma CrashStrandsJob()
    ensures var acts := ToClaim() + [Dispatch(Ask(WorktreeError))] + [Crash];
      && Admissible(Conf(), Init(), acts, STRICT_RUN)
      && var d := Run(Conf(), Init(), acts).d;
         && "a" in d.queue.attempts && d.queue.attempts["a"].terminal
         && "j" in d.queue.jobs && !JobEnded(d.queue.jobs["j"].state)
         && forall id, key :: RetryReply(Conf(), d, "j", id, key) == Refused(NotTerminal)
  {
    hide Step;
    hide Fresh;
    var c := Conf();
    ReachClaim(STRICT_RUN);
    Torn();
    var w := Run(c, Init(), ToClaim());
    FreshNoStart(c, w, Dispatch(Ask(WorktreeError)));
    Then(c, ToClaim(), Dispatch(Ask(WorktreeError)), STRICT_RUN);
    FreshNoStart(c, Step(c, w, Dispatch(Ask(WorktreeError))), Crash);
    Then(c, ToClaim() + [Dispatch(Ask(WorktreeError))], Crash, STRICT_RUN);
    forall id: Option<Id>, key
      ensures RetryReply(c, TornJob().d, "j", id, key) == Refused(NotTerminal)
    {
      TornRefuses(id, key);
    }
  }

  lemma FreshNoStart(c: Config, w: World, act: Act)
    requires (act.Dispatch? && !w.pc.Started?) || act.Crash? || act.Monitor? || act.Reconcile? || act.DoCancel?
    ensures Fresh(c, w, act)
  {
  }

  /** Only a write at certain places, or a reconciliation, is excluded. */
  lemma PlainStep(w: World, act: Act)
    requires act.Dispatch? ==> !w.pc.Registered? && !w.pc.Bound? && !w.pc.Failing?
    requires !act.Reconcile?
    ensures !Revives(w, act) && !Drops(w, act) && !Stale(w, act) && !FoundAlive(w, act)
  {
  }

  // ---- a session closed before the dispatcher is done with it ----

  function Opened(state: SState, ended: Option<int>): Session {
    Session(SessionKey("a", true, true, true, false, false, Some(1), 3600), state, None, ended)
  }

  function Registering(): World {
    var d := Held(AState.Running);
    World(d.(sessions := map["s" := Opened(SState.Running, None)], log := d.log.(starts := [Start("a", "j", "p")])),
          Registered("a", d.queue.attempts["a"], d.queue.jobs["j"], "s"), {})
  }

  function GoOn(): Act { Dispatch(Ask(Snapshot)) }

  function Preparing(): World {
    var d := Held(AState.Running);
    World(d, Prepared("a", d.queue.attempts["a"], d.queue.jobs["j"]), {})
  }

  function Starting(): World {
    var d := Held(AState.Running);
    World(d.(log := d.log.(starts := [Start("a", "j", "p")])),
          Started("a", d.queue.attempts["a"], d.queue.jobs["j"], Ask(Snapshot).gateway), {})
  }

  lemma Launched()
    ensures Step(Conf(), World(Held(AState.Claimed), Pc.Claimed("a"), {}), GoOn()) == Preparing()
    ensures Step(Conf(), Preparing(), GoOn()) == Starting()
    ensures Step(Conf(), Starting(), GoOn()) == Registering()
    ensures Fresh(Conf(), Starting(), GoOn())
  {
  }

  function ToSession(): seq<Act> {
    ToClaim() + [GoOn()] + [GoOn()] + [GoOn()]
  }

  lemma ReachSession(k: Discipline)
    ensures Run(Conf(), Init(), ToSession()) == Registering()
    ensures Admissible(Conf(), Init(), ToSession(), k)
  {
    hide Step;
    ReachClaim(k);
    Launched();
    Then(Conf(), ToClaim(), GoOn(), k);
    Then(Conf(), ToClaim() + [GoOn()], GoOn(), k);
    Then(Conf(), ToClaim() + [GoOn()] + [GoOn()], GoOn(), k);
  }

  function CancelIt(): Act { DoCancel("s", true, true, 2) }

  lemma Raced()
    ensures var w1 := Step(Conf(), Registering(), CancelIt());
      && w1.d.queue.attempts.Keys == {"a"} && w1.d.queue.attempts["a"].terminal
      && var w2 := Step(Conf(), w1, GoOn());
         && w2.d.queue.attempts.Keys == {"a"} && w2.d.queue.attempts["a"].state.Running? && !w2.d.queue.attempts["a"].terminal
         && "s" in w2.d.sessions && w2.d.sessions["s"].state.Cancelled?
    ensures Fresh(Conf(), Registering(), CancelIt()) && Fresh(Conf(), Step(Conf(), Registering(), CancelIt()), GoOn())
  {
  }

  /** A cancel between the registration and the dispatcher's next write closes
      the attempt; that write opens it again, over a cancelled session. */
  lemma CancelledAttemptReopens()
    ensures var acts := ToSession() + [CancelIt()];
      && Admissible(Conf(), Init(), acts + [GoOn()], FRESH_RUN)
      && var all := Run(Conf(), Init(), acts).d.queue.attempts;
         var d := Run(Conf(), Init(), acts + [GoOn()]).d;
         && "a" in all && all["a"].terminal
         && "a" in d.queue.attempts && !d.queue.attempts["a"].terminal
         && "s" in d.sessions && d.sessions["s"].state.Cancelled?
  {
    hide Step;
    hide Fresh;
    hide Registering;
    ReachSession(FRESH_RUN);
    Raced();
    Then(Conf(), ToSession(), CancelIt(), FRESH_RUN);
    Then(Conf(), ToSession() + [CancelIt()], GoOn(), FRESH_RUN);
  }

  // ---- a zombie is gone for the monitor and alive for reconciliation ----

  function Bindings(): World {
    var w := Registering();
    var a := w.d.queue.attempts["a"].(sessionId := "s");
    var j := w.d.queue.jobs["j"].(state := JState.Running);
    World(w.d.(queue := Queue(map["a" := a], map["j" := j])), Idle, {})
  }

  lemma SavedBoth()
    ensures Step(Conf(), Step(Conf(), Registering(), GoOn()), GoOn()) == Bindings()
    ensures Allowed(Conf(), Registering(), GoOn(), STRICT_RUN)
    ensures Allowed(Conf(), Step(Conf(), Registering(), GoOn()), GoOn(), STRICT_RUN)
  {
  }

  function NoNews(): Probe { Probe(None, None, None, false, false, map[], true) }

  function SeesZombie(): Act { Monitor("s", Process(true, true, true), NoNews(), 2) }
  function FindsZombie(): Act { Reconcile("s", Process(true, true, true), None, 3) }

  /** What the monitor leaves: the attempt and the session failed, for want of
      an exit code. */
  function Finalised(state: SState): Data {
    var d := Bindings().d;
    var result := Result(None, EvidenceInvalid, [Evidence(BundleId("j", "a", "s"))]);
    var b := Bundle(true, BundleId("j", "a", "s"), "s", None, [], false);
    Data(Queue(map["a" := d.queue.attempts["a"].(state := AState.Failed, terminal := true, result := result)],
               map["j" := d.queue.jobs["j"].(state := JState.Failed, result := result)]),
         map["s" := Opened(state, Some(2))], d.payloads, map[BundleId("j", "a", "s") := b], {"s"},
         d.log.(events := [Event(SessionFailed, "s", "a", None)]))
  }

  lemma ZombieBundle()
    ensures var d := Bindings().d;
      && !GoneRaises(d.sessions["s"], NoNews())
      && var b := BuildBundle(d.queue, "s", d.sessions["s"], NoNews());
      && b == Bundle(true, BundleId("j", "a", "s"), "s", None, [], false)
      && BundleRefs(b, true, d.sessions["s"], NoNews()) == [Evidence(b.id)]
  {
  }

  lemma ZombieHandled()
    ensures HandleGone(Bindings().d, "s", NoNews(), 2) == Finalised(SState.Failed)
  {
    hide BuildBundle;
    hide BundleRefs;
    ZombieBundle();
  }

  lemma ZombieSeen()
    ensures Step(Conf(), Bindings(), SeesZombie()) == World(Finalised(SState.Failed), Idle, {})
  {
    hide HandleGone;
    hide Finalised;
    ZombieHandled();
  }

  lemma ZombieFound()
    ensures Step(Conf(), World(Finalised(SState.Failed), Idle, {}), FindsZombie()) == World(Finalised(SState.Running), Idle, {})
  {
  }

  lemma ZombieCancelled()
    ensures Step(Conf(), World(Finalised(SState.Running), Idle, {}), CancelIt()).d.log.events
         == [Event(SessionFailed, "s", "a", None), Event(SessionCancelled, "s", "a", None)]
  {
  }

  /** The monitor finalises a zombie's session; reconciliation puts it back to
      RUNNING; a cancel then emits a second terminal event. */
  lemma ZombieEndsTwice()
    ensures var acts := ToSession() + [GoOn()] + [GoOn()] + [SeesZombie()] + [FindsZombie()] + [CancelIt()];
      && Admissible(Conf(), Init(), acts, UNSETTLED_RUN)
      && Run(Conf(), Init(), acts).d.log.events
         == [Event(SessionFailed, "s", "a", None), Event(SessionCancelled, "s", "a", None)]
  {
    hide Step;
    hide Registering;
    hide Bindings;
    hide Finalised;
    ReachSession(UNSETTLED_RUN);
    SavedBoth();
    ZombieSeen();
    ZombieFound();
    ZombieCancelled();
    var c := Conf();
    Then(c, ToSession(), GoOn(), UNSETTLED_RUN);
    Then(c, ToSession() + [GoOn()], GoOn(), UNSETTLED_RUN);
    Then(c, ToSession() + [GoOn()] + [GoOn()], SeesZombie(), UNSETTLED_RUN);
    Then(c, ToSession() + [GoOn()] + [GoOn()] + [SeesZombie()], FindsZombie(), UNSETTLED_RUN);
    Then(c, ToSession() + [GoOn()] + [GoOn()] + [SeesZombie()] + [FindsZombie()], CancelIt(), UNSETTLED_RUN);
    BindingsIdle();
  }

  lemma BindingsIdle()
    ensures Bindings().pc.Idle?
  {
  }

  /** After reconciliation looked at an ended session, a cancel emits a terminal
      event for it, told before or not, if and only if its recorded process was
      found alive. */
  lemma EmitsAgainExactly(d: Data, sid: Id, obs: Obs, exit: Option<int>, kill: bool, now: int)
    requires sid in d.sessions && SessionEnded(d.sessions[sid].state)
    ensures var events := Cancel(ReconcileOne(d, sid, obs, exit, now), sid, true, kill, now).log.events;
      if d.sessions[sid].key.managed && d.sessions[sid].key.hasProc && obs.Process? && obs.sameStart && obs.sameBoot
      then events == d.log.events + [Event(SessionCancelled, sid, d.sessions[sid].key.attemptId, None)]
      else events == d.log.events
  {
    hide Settle;
  }

  // ---- generated retry ids ----

  lemma OneRecordMore(all: map<Id, Attempt>, aid: Id, a: Attempt)
    ensures |all[aid := a]| == |all| + 1 <==> aid !in all
  {
    assert all[aid := a].Keys == all.Keys + {aid};
    assert |all[aid := a]| == |all[aid := a].Keys| && |all| == |all.Keys|;
  }

  /** An accepted retry adds a record to the store, next to all that were
      there, if and only if its id is new to the whole store, which the code
      does not check. Otherwise it takes over the record of that id. */
  lemma RetryAddsExactly(c: Config, d: Data, jobId: Id, id: Option<Id>, key: string, now: int)
    requires RetryReply(c, d, jobId, id, key).Enqueued?
    ensures var aid := RetryReply(c, d, jobId, id, key).attemptId;
      var all, all' := d.queue.attempts, Service.Retry(c, d, jobId, id, key, now).queue.attempts;
      && aid in all' && all'[aid] == NewAttempt(jobId, d.queue.jobs[jobId].spec.harness, key, now)
      && (forall x :: x in all && x != aid ==> x in all' && all'[x] == all[x])
      && (|all'| == |all| + 1 <==> aid !in all)
  {
    hide RetryReply;
    var aid := RetryReply(c, d, jobId, id, key).attemptId;
    var all, all' := d.queue.attempts, Service.Retry(c, d, jobId, id, key, now).queue.attempts;
    assert all' == all[aid := all'[aid]];
    OneRecordMore(all, aid, all'[aid]);
  }

  /** Two closed jobs with equally many attempts get the same default id. The
      second retry takes over the record of the first, whose job still lists it. */
  lemma DefaultIdsCollide(c: Config, d: Data, j1: Id, j2: Id, now: int)
    requires j1 != j2
    requires RetryReply(c, d, j1, None, "").Enqueued? && RetryReply(c, d, j2, None, "").Enqueued?
    requires |d.queue.jobs[j1].attempts| == |d.queue.jobs[j2].attempts|
    ensures var d1 := Service.Retry(c, d, j1, None, "", now);
      var d2 := Service.Retry(c, d1, j2, None, "", now);
      var aid := RetryReply(c, d, j1, None, "").attemptId;
      && RetryReply(c, d1, j2, None, "") == Enqueued(j2, aid)
      && aid in d1.queue.attempts && d1.queue.attempts[aid].key.jobId == j1
      && aid in d2.queue.attempts && d2.queue.attempts[aid].key.jobId == j2
      && j1 in d2.queue.jobs && aid in d2.queue.jobs[j1].attempts
  {
    hide SafeIdent;
    hide LoadPayload;
    hide Digits;
    var aid := RetryReply(c, d, j1, None, "").attemptId;
    var q1 := Reopen(d.queue, j1, aid, "", now);
    assert q1.jobs[j2] == d.queue.jobs[j2];
    assert q1.jobs[j1].attempts[|d.queue.jobs[j1].attempts|] == aid;
  }

  /** The number in a default id is printed in decimal. */
  lemma {:induction false} DigitsRead(n: nat)
    ensures Checks.Digits(Service.Digits(n)) && Checks.Number(Service.Digits(n)) == n
  {
    if n >= 10 {
      DigitsRead(n / 10);
      OneDigit(n % 10);
      Checks.NumberMore(Service.Digits(n / 10), "0123456789"[n % 10]);
    } else {
      OneDigit(n);
      Checks.NumberMore("", "0123456789"[n]);
      assert "" + ["0123456789"[n]] == Service.Digits(n);
    }
  }

  lemma OneDigit(n: nat)
    requires n < 10
    ensures var ch := "0123456789"[n]; '0' <= ch <= '9' && ch as int - '0' as int == n
  {
  }

  /** Two jobs get the same default id for a retry exactly when they have
      equally many attempts. */
  lemma DefaultIdsExactly(j1: Job, j2: Job)
    ensures RetryId(j1, None) == RetryId(j2, None) <==> |j1.attempts| == |j2.attempts|
  {
    hide Service.Digits;
    var a, b := Service.Digits(|j1.attempts|), Service.Digits(|j2.attempts|);
    DigitsRead(|j1.attempts|);
    DigitsRead(|j2.attempts|);
    if "retry_" + a == "retry_" + b {
      assert a == ("retry_" + a)[|"retry_"|..] == ("retry_" + b)[|"retry_"|..] == b;
    }
  }

  // ---- identifiers ----

  /** The characters of an identifier, by their code points: digits, capitals,
      small letters, dash, dot and underscore. */
  lemma IdentCharIs(ch: char)
    ensures var n := ch as int;
      IdentChar(ch) <==> 48 <= n <= 57 || 65 <= n <= 90 || 97 <= n <= 122 || n == 45 || n == 46 || n == 95
  {
  }

  lemma LastDot()
    ensures "."[|"."| - 1] == '.' && ".."[|".."| - 1] == '.'
  {
  }

  lemma NotPlain(s: string, i: nat)
    requires i < |s| && !IdentChar(s[i])
    ensures !Plain(s)
  {
  }

  /** What the pattern is meant to let through, and what it lets through: the
      same, and the same with one newline at the end, dots included. */
  lemma IdentExactly(s: string)
    ensures SafeIdent(s)
       <==> (Plain(s) && s != "." && s != "..") || (s != "" && s[|s| - 1] == '\n' && Plain(s[..|s| - 1]))
  {
    if s != "" && s[|s| - 1] == '\n' {
      assert !IdentChar(s[|s| - 1]);
      assert s != "." && s != ".." by { LastDot(); }
      NotPlain(s, |s| - 1);
    }
  }
}
