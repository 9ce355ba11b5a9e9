/** Runs in which the other calls come between the dispatcher's steps, or the
    monitor and reconciliation between each other's. */
module Races {
  import opened Prelude
  import opened Records
  import opened Scheduling
  import opened Engine
  import opened Service
  import opened Lifecycle
  import opened Findings

  // ---- a retry is lost ----

  function Copied(): Result { Result(None, SessionIs(SState.Cancelled), []) }

  function CopyA(): Attempt { Held(AState.Running).queue.attempts["a"] }
  function CopyJ(): Job { Waiting().queue.jobs["j"] }

  function Over(): Attempt { CopyA().(state := AState.Cancelled, terminal := true, result := Copied()) }

  function EarlyCancelled(): World {
    var w := Registering();
    w.(d := w.d.(queue := Queue(map["a" := Over()], map["j" := CopyJ().(state := JState.Cancelled, result := Copied())]),
                 sessions := map["s" := Opened(SState.Cancelled, Some(2))],
                 log := w.d.log.(events := [Event(SessionCancelled, "s", "a", None)])))
  }

  function Again(): Attempt { NewAttempt("j", "codex_cli", "k", 3) }
  function AskAgain(): Act { DoRetry("j", Some("r"), "k", 3) }

  function Retried(): World {
    var w := EarlyCancelled();
    w.(d := w.d.(queue := Queue(map["a" := Over(), "r" := Again()],
                                map["j" := CopyJ().(attempts := ["a", "r"], state := JState.Queued)])))
  }

  function Revived(): World {
    var w := Retried();
    w.(d := w.d.(queue := w.d.queue.(attempts := map["a" := CopyA().(sessionId := "s"), "r" := Again()])),
       pc := Bound("a", "j", CopyJ().(state := JState.Running), "s"))
  }

  function Lost(): World {
    var w := Revived();
    w.(d := w.d.(queue := w.d.queue.(jobs := map["j" := CopyJ().(state := JState.Running)])), pc := Idle)
  }

  function Look(): Act { Monitor("s", Process(true, true, false), NoNews(), 4) }

  function Closed(): World {
    var w := Lost();
    w.(d := w.d.(queue := Queue(map["a" := Over().(sessionId := "s"), "r" := Again()],
                                map["j" := CopyJ().(state := JState.Cancelled, result := Copied())]),
                 emitted := {"s"}))
  }

  lemma CancelledData()
    ensures Cancel(Registering().d, "s", true, true, 2) == EarlyCancelled().d
  {
  }

  lemma CancelledEarly()
    ensures Step(Conf(), Registering(), CancelIt()) == EarlyCancelled()
  {
    hide Cancel;
    CancelledData();
  }

  lemma RetriedEarly()
    ensures RetryReply(Conf(), EarlyCancelled().d, "j", Some("r"), "k") == Enqueued("j", "r")
    ensures Step(Conf(), EarlyCancelled(), AskAgain()) == Retried()
    ensures Fresh(Conf(), EarlyCancelled(), AskAgain())
  {
    hide SafeIdent;
    hide Advance;
    OneLetter("t");
    OneLetter("r");
    NoKeyIn(EarlyCancelled().d.queue.attempts, "k");
    assert ["a"] + ["r"] == ["a", "r"];
  }

  lemma AttemptWritten()
    ensures Advance(Conf(), Retried().d, Retried().pc, Ask(Snapshot)) == (Revived().d, Revived().pc)
  {
    assert Retried().d.queue.attempts["a" := CopyA().(sessionId := "s")] == Revived().d.queue.attempts;
  }

  lemma JobWrittenBack()
    ensures Advance(Conf(), Revived().d, Revived().pc, Ask(Snapshot)) == (Lost().d, Lost().pc)
  {
    assert Revived().d.queue.jobs["j" := CopyJ().(state := JState.Running)] == Lost().d.queue.jobs;
  }

  lemma WrittenBack()
    ensures Step(Conf(), Retried(), GoOn()) == Revived()
    ensures Step(Conf(), Revived(), GoOn()) == Lost()
  {
    hide Advance;
    AttemptWritten();
    JobWrittenBack();
  }

  lemma LookedData()
    ensures MonitorOne(Lost().d, "s", Process(true, true, false), NoNews(), 4) == Closed().d
  {
    hide HandleGone;
    hide Finalize;
    var q := Lost().d.queue;
    assert q.attempts["a" := Over().(sessionId := "s")] == Closed().d.queue.attempts;
  }

  lemma LookedAt()
    ensures Step(Conf(), Lost(), Look()) == Closed()
  {
    hide MonitorOne;
    LookedData();
  }

  lemma KeyTwice()
    ensures RetryReply(Conf(), Closed().d, "j", Some("q"), "k") == Enqueued("j", "q")
  {
    hide SafeIdent;
    OneLetter("t");
    OneLetter("q");
    NoKeyIn(Closed().d.queue.attempts, "k");
  }

  lemma LossIs()
    ensures Retried().d.queue.jobs.Keys == {"j"} && Retried().d.queue.jobs["j"].attempts == ["a", "r"]
    ensures Closed().d.queue.jobs.Keys == {"j"} && Closed().d.queue.jobs["j"].attempts == ["a"]
    ensures "r" in Closed().d.queue.attempts && Closed().d.queue.attempts["r"] == Again()
    ensures !Retried().pc.Started? && !Revived().pc.Started? && !Lost().pc.Started?
  {
  }

  function ToRetry(): seq<Act> { ToSession() + [CancelIt()] + [AskAgain()] }
  function ToLoss(): seq<Act> { ToRetry() + [GoOn()] + [GoOn()] + [Look()] }

  /** A retry accepted while the dispatcher still holds its copy of the job is
      dropped from the job's list by the dispatcher's write, although its
      attempt is stored; the same key is then accepted a second time. */
  lemma RetryLost()
    ensures Admissible(Conf(), Init(), ToLoss(), FRESH_RUN)
    ensures var q := Run(Conf(), Init(), ToRetry()).d.queue; "j" in q.jobs && q.jobs["j"].attempts == ["a", "r"]
    ensures var d := Run(Conf(), Init(), ToLoss()).d;
      && "j" in d.queue.jobs && d.queue.jobs["j"].attempts == ["a"]
      && "r" in d.queue.attempts && d.queue.attempts["r"].key == AttemptKey("j", "codex_cli", "k", 3)
      && RetryReply(Conf(), d, "j", Some("q"), "k") == Enqueued("j", "q")
  {
    hide Step;
    hide Registering;
    hide EarlyCancelled;
    hide Retried;
    hide Revived;
    hide Lost;
    hide Closed;
    hide Fresh;
    var c := Conf();
    LossIs();
    ReachSession(FRESH_RUN);
    CancelledEarly();
    RetriedEarly();
    WrittenBack();
    LookedAt();
    KeyTwice();
    FreshNoStart(c, Registering(), CancelIt());
    FreshNoStart(c, Retried(), GoOn());
    FreshNoStart(c, Revived(), GoOn());
    FreshNoStart(c, Lost(), Look());
    Then(c, ToSession(), CancelIt(), FRESH_RUN);
    Then(c, ToSession() + [CancelIt()], AskAgain(), FRESH_RUN);
    Then(c, ToRetry(), GoOn(), FRESH_RUN);
    Then(c, ToRetry() + [GoOn()], GoOn(), FRESH_RUN);
    Then(c, ToRetry() + [GoOn()] + [GoOn()], Look(), FRESH_RUN);
  }

  // ---- a completed session is told twice ----

  function Good(): Probe { Probe(Some(Collected(Some(0), [], false)), None, None, false, false, map[], true) }
  function SeesEnd(): Act { Monitor("s", NoProcess, Good(), 2) }

  function Proof(): Bundle { Bundle(true, BundleId("j", "a", "s"), "s", Some(0), [], false) }
  function Told(): Event { Event(SessionCompleted, "s", "a", Some(0)) }
  function Done(): Result { Result(Some(0), ExitedNormally, [Evidence(BundleId("j", "a", "s"))]) }

  function Completed(): World {
    var w := Registering();
    w.(d := w.d.(queue := Queue(map["a" := CopyA().(state := AState.Completed, terminal := true, result := Done())],
                                map["j" := CopyJ().(state := JState.Completed, result := Done())]),
                 sessions := map["s" := Opened(SState.Completed, Some(2))],
                 evidence := map[BundleId("j", "a", "s") := Proof()], emitted := {"s"},
                 log := w.d.log.(events := [Told()])))
  }

  function Reopened(): World {
    var w := Completed();
    World(w.d.(queue := Queue(map["a" := CopyA().(sessionId := "s")], map["j" := CopyJ().(state := JState.Running)]),
               emitted := {}), Idle, {})
  }

  lemma ProofIs(q: Queue, ss: Session)
    requires "a" in q.attempts && q.attempts["a"].key.jobId == "j" && q.attempts["a"].result.exit.None?
    requires ss.key == Opened(SState.Running, None).key
    ensures !GoneRaises(ss, Good()) && BuildBundle(q, "s", ss, Good()) == Proof()
    ensures BundleRefs(Proof(), true, ss, Good()) == [Evidence(BundleId("j", "a", "s"))]
  {
  }

  lemma EndSeen()
    ensures HandleGone(Registering().d, "s", Good(), 2) == Completed().d
  {
    hide BuildBundle;
    hide BundleRefs;
    ProofIs(Registering().d.queue, Registering().d.sessions["s"]);
  }

  lemma EndMonitored()
    ensures Step(Conf(), Registering(), SeesEnd()) == Completed()
  {
    hide HandleGone;
    EndSeen();
  }

  function Running(): World {
    var w := Completed();
    w.(d := w.d.(queue := w.d.queue.(attempts := map["a" := CopyA().(sessionId := "s")])),
       pc := Bound("a", "j", CopyJ().(state := JState.Running), "s"))
  }

  lemma ReopenedFirst()
    ensures Step(Conf(), Completed(), GoOn()) == Running()
  {
  }

  lemma ReopenedNow()
    ensures Step(Conf(), Step(Conf(), Running(), GoOn()), Crash) == Reopened()
  {
  }

  lemma EndSeenAgain()
    ensures HandleGone(Reopened().d, "s", Good(), 2).log.events == [Told(), Told()]
  {
    hide BuildBundle;
    hide BundleRefs;
    ProofIs(Reopened().d.queue, Reopened().d.sessions["s"]);
  }

  lemma EndMonitoredAgain()
    ensures Step(Conf(), Reopened(), SeesEnd()).d.log.events == [Told(), Told()]
  {
    hide HandleGone;
    EndSeenAgain();
  }

  /** Fresh ids, and no ended session found alive; a write may revive. */
  const REVIVING_RUN := Discipline(true, false, false, false, true)

  /** A session completed before the dispatcher's last two writes is told once;
      the write revives its attempt, a restart forgets that it was told, and
      the next look tells it again. */
  lemma CompletedToldTwice()
    ensures var acts := ToSession() + [SeesEnd()] + [GoOn()] + [GoOn()] + [Crash] + [SeesEnd()];
      Admissible(Conf(), Init(), acts, REVIVING_RUN) && Run(Conf(), Init(), acts).d.log.events == [Told(), Told()]
  {
    hide Step;
    hide Registering;
    hide Completed;
    hide Reopened;
    hide Running;
    hide Fresh;
    hide FoundAlive;
    var c := Conf();
    var k := REVIVING_RUN;
    var w := Running();
    ReachSession(k);
    EndMonitored();
    ReopenedFirst();
    ReopenedNow();
    EndMonitoredAgain();
    NotStarting();
    PlainRun(c, Registering(), SeesEnd());
    PlainRun(c, Completed(), GoOn());
    PlainRun(c, w, GoOn());
    PlainRun(c, Step(c, w, GoOn()), Crash);
    PlainRun(c, Reopened(), SeesEnd());
    Then(c, ToSession(), SeesEnd(), k);
    Then(c, ToSession() + [SeesEnd()], GoOn(), k);
    Then(c, ToSession() + [SeesEnd()] + [GoOn()], GoOn(), k);
    Then(c, ToSession() + [SeesEnd()] + [GoOn()] + [GoOn()], Crash, k);
    Then(c, ToSession() + [SeesEnd()] + [GoOn()] + [GoOn()] + [Crash], SeesEnd(), k);
  }

  lemma NotStarting()
    ensures !Completed().pc.Started? && !Running().pc.Started?
  {
  }

  lemma PlainRun(c: Config, w: World, act: Act)
    requires (act.Dispatch? && !w.pc.Started?) || act.Crash? || act.Monitor?
    ensures Allowed(c, w, act, REVIVING_RUN)
  {
  }

  // ---- the monitor and a requested cancel ----

  /** A look of the monitor leaves the mark of a requested cancel exactly when
      the session is not managed, has no process, or its attempt is closed,
      when the process is gone or overdue and the session was told before, or
      when the look raises. */
  lemma MarkKeptExactly(d: Data, sid: Id, obs: Obs, p: Probe, now: int)
    requires sid in d.sessions && d.sessions[sid].state.CancelRequested?
    ensures var sessions := MonitorOne(d, sid, obs, p, now).sessions;
      && sid in sessions
      && (sessions[sid].state.CancelRequested? <==>
            var k := d.sessions[sid].key;
            !k.managed || !k.hasProc || Finished(d.queue, k.attemptId)
            || ((obs.NoProcess? || (obs.sameStart && obs.zombie)
                 || (k.timeoutS != 0 && k.startedAt.Some? && now > k.startedAt.value + k.timeoutS))
                && sid in d.emitted)
            || LookRaises(d, sid, obs, p))
  {
    hide Settle;
    hide BuildBundle;
    hide BundleRefs;
    hide AllNamed;
  }

  /** Of a live process in time, the mark is always taken off. */
  lemma LiveMarkLost(d: Data, sid: Id, obs: Obs, p: Probe, now: int)
    requires sid in d.sessions && d.sessions[sid].state.CancelRequested?
    requires var k := d.sessions[sid].key;
      && k.managed && k.hasProc && !Finished(d.queue, k.attemptId)
      && obs.Process? && !(obs.sameStart && obs.zombie)
      && (k.timeoutS == 0 || k.startedAt.None? || now <= k.startedAt.value + k.timeoutS)
    ensures MonitorOne(d, sid, obs, p, now) == d.(sessions := d.sessions[sid := d.sessions[sid].(state := SState.Running)])
  {
  }

  function Marked(state: SState): World {
    var w := Bindings();
    w.(d := w.d.(sessions := map["s" := Opened(state, None)]))
  }

  lemma MarkedThenSeen()
    ensures Step(Conf(), Bindings(), CancelCrash("s")) == Marked(SState.CancelRequested)
    ensures Step(Conf(), Marked(SState.CancelRequested), Look()) == Marked(SState.Running)
  {
    var d := Marked(SState.CancelRequested).d;
    LiveMarkLost(d, "s", Process(true, true, false), NoNews(), 4);
    assert d.sessions["s" := Opened(SState.Running, None)] == map["s" := Opened(SState.Running, None)];
  }

  /** A cancel is under way when the plane restarts; the next look of the
      monitor puts the session back to RUNNING. */
  lemma RequestedCancelForgotten()
    ensures var acts := ToSession() + [GoOn()] + [GoOn()] + [CancelCrash("s")];
      && Admissible(Conf(), Init(), acts + [Look()], STRICT_RUN)
      && var before := Run(Conf(), Init(), acts).d.sessions;
         var after := Run(Conf(), Init(), acts + [Look()]).d.sessions;
         && "s" in before && before["s"].state.CancelRequested?
         && "s" in after && after["s"].state.Running?
  {
    hide Step;
    hide Registering;
    hide Bindings;
    hide Fresh;
    hide Revives;
    hide Drops;
    hide Stale;
    hide FoundAlive;
    var c := Conf();
    ReachSession(STRICT_RUN);
    SavedBoth();
    BindingsIdle();
    MarkedThenSeen();
    FreshMark(c, Bindings());
    PlainStep(Bindings(), CancelCrash("s"));
    FreshNoStart(c, Marked(SState.CancelRequested), Look());
    PlainStep(Marked(SState.CancelRequested), Look());
    Then(c, ToSession(), GoOn(), STRICT_RUN);
    Then(c, ToSession() + [GoOn()], GoOn(), STRICT_RUN);
    Then(c, ToSession() + [GoOn()] + [GoOn()], CancelCrash("s"), STRICT_RUN);
    Then(c, ToSession() + [GoOn()] + [GoOn()] + [CancelCrash("s")], Look(), STRICT_RUN);
  }

  lemma FreshMark(c: Config, w: World)
    ensures Fresh(c, w, CancelCrash("s"))
  {
  }

  // ---- two open attempts of one job ----

  function RevivedAlone(): World {
    var w := EarlyCancelled();
    w.(d := w.d.(queue := w.d.queue.(attempts := map["a" := CopyA().(sessionId := "s")])),
       pc := Bound("a", "j", CopyJ().(state := JState.Running), "s"))
  }

  function AskOnce(): Act { DoRetry("j", Some("r"), "", 9) }

  lemma RevivedOverEnded()
    ensures Step(Conf(), EarlyCancelled(), GoOn()) == RevivedAlone()
  {
    assert EarlyCancelled().d.queue.attempts["a" := CopyA().(sessionId := "s")] == RevivedAlone().d.queue.attempts;
  }

  lemma RetriedBeside()
    ensures RetryReply(Conf(), RevivedAlone().d, "j", Some("r"), "") == Enqueued("j", "r")
    ensures var all := Step(Conf(), RevivedAlone(), AskOnce()).d.queue.attempts;
      "a" in all && "r" in all && all["a"] == CopyA().(sessionId := "s") && all["r"] == NewAttempt("j", "codex_cli", "", 9)
    ensures Fresh(Conf(), RevivedAlone(), AskOnce())
    ensures !EarlyCancelled().pc.Started?
  {
    hide SafeIdent;
    hide Advance;
    OneLetter("t");
    OneLetter("r");
  }

  /** An attempt revived over its ended job is still open when a retry of the
      job is accepted: the job then has two open attempts. */
  lemma RetriedWhileOpen()
    ensures var acts := ToSession() + [CancelIt()] + [GoOn()];
      && Admissible(Conf(), Init(), acts + [AskOnce()], FRESH_RUN)
      && RetryReply(Conf(), Run(Conf(), Init(), acts).d, "j", Some("r"), "") == Enqueued("j", "r")
      && var all := Run(Conf(), Init(), acts + [AskOnce()]).d.queue.attempts;
         && "a" in all && !all["a"].terminal && all["a"].key.jobId == "j"
         && "r" in all && !all["r"].terminal && all["r"].key.jobId == "j"
  {
    hide Step;
    hide Registering;
    hide EarlyCancelled;
    hide RevivedAlone;
    hide Fresh;
    var c := Conf();
    ReachSession(FRESH_RUN);
    CancelledEarly();
    RevivedOverEnded();
    RetriedBeside();
    FreshNoStart(c, Registering(), CancelIt());
    FreshNoStart(c, EarlyCancelled(), GoOn());
    Then(c, ToSession(), CancelIt(), FRESH_RUN);
    Then(c, ToSession() + [CancelIt()], GoOn(), FRESH_RUN);
    Then(c, ToSession() + [CancelIt()] + [GoOn()], AskOnce(), FRESH_RUN);
  }

  // ---- a completion without evidence ----

  function FindsGone(): Act { Reconcile("s", NoProcess, None, 3) }

  lemma GoneFound()
    ensures var d := Step(Conf(), Bindings(), FindsGone()).d;
      && "a" in d.queue.attempts && d.queue.attempts["a"].state.Completed? && d.queue.attempts["a"].result == Result(None, SessionIs(SState.Completed), [])
      && d.evidence == map[]
    ensures !FoundAlive(Bindings(), FindsGone())
  {
  }

  /** Reconciliation finds the process of a session gone, with no exit code, and
      completes the attempt: no exit code, no result, no evidence at all. */
  lemma CompletedUnproved()
    ensures var acts := ToSession() + [GoOn()] + [GoOn()] + [FindsGone()];
      && Admissible(Conf(), Init(), acts, STRICT_RUN)
      && var d := Run(Conf(), Init(), acts).d;
         && "a" in d.queue.attempts && d.queue.attempts["a"].state.Completed?
         && d.queue.attempts["a"].result == Result(None, SessionIs(SState.Completed), []) && d.evidence == map[]
  {
    hide Step;
    hide Registering;
    hide Bindings;
    hide Fresh;
    hide FoundAlive;
    var c := Conf();
    ReachBindings();
    GoneFound();
    FreshNoStart(c, Bindings(), FindsGone());
    Then(c, ToSession() + [GoOn()] + [GoOn()], FindsGone(), STRICT_RUN);
  }

  lemma ReachBindings()
    ensures Run(Conf(), Init(), ToSession() + [GoOn()] + [GoOn()]) == Bindings()
    ensures Admissible(Conf(), Init(), ToSession() + [GoOn()] + [GoOn()], STRICT_RUN)
  {
    hide Step;
    hide Registering;
    hide Bindings;
    hide Fresh;
    hide Revives;
    hide Drops;
    hide Stale;
    hide FoundAlive;
    ReachSession(STRICT_RUN);
    SavedBoth();
    Then(Conf(), ToSession(), GoOn(), STRICT_RUN);
    Then(Conf(), ToSession() + [GoOn()], GoOn(), STRICT_RUN);
  }

  // ---- a deadline ----

  function LateLook(): Act { Monitor("s", Process(true, true, false), NoNews(), 3602) }

  lemma LookInTime()
    ensures Step(Conf(), Bindings(), Look()) == Bindings()
  {
    var d := Bindings().d;
    assert d.sessions["s" := Opened(SState.Running, None)] == d.sessions;
  }

  lemma LookTooLate()
    ensures var d := Step(Conf(), Bindings(), LateLook()).d;
      && d.log.events == [Event(SessionTimedOut, "s", "a", None)]
      && "a" in d.queue.attempts && d.queue.attempts["a"].state.TimedOut? && d.queue.attempts["a"].terminal
      && "j" in d.queue.jobs && d.queue.jobs["j"].state.TimedOut?
  {
  }

  /** A session started at 1 with a timeout of 3600 is left alone at 4 and timed
      out at 3602, with its attempt and its job; at 3601 it still is in time. */
  lemma TimedOutAfterDeadline()
    ensures var acts := ToSession() + [GoOn()] + [GoOn()] + [Look()];
      && Admissible(Conf(), Init(), acts + [LateLook()], STRICT_RUN)
      && Run(Conf(), Init(), acts).d.log.events == []
      && var d := Run(Conf(), Init(), acts + [LateLook()]).d;
         && d.log.events == [Event(SessionTimedOut, "s", "a", None)]
         && "a" in d.queue.attempts && d.queue.attempts["a"].state.TimedOut? && d.queue.attempts["a"].terminal
         && "j" in d.queue.jobs && d.queue.jobs["j"].state.TimedOut?
    ensures Step(Conf(), Bindings(), Monitor("s", Process(true, true, false), NoNews(), 3601)) == Bindings()
  {
    InTimeStill();
    hide Step;
    hide Bindings;
    hide Fresh;
    var c := Conf();
    ReachBindings();
    NothingSaid();
    LookInTime();
    LookTooLate();
    FreshNoStart(c, Bindings(), Look());
    FreshNoStart(c, Bindings(), LateLook());
    PlainStep(Bindings(), Look());
    PlainStep(Bindings(), LateLook());
    Then(c, ToSession() + [GoOn()] + [GoOn()], Look(), STRICT_RUN);
    Then(c, ToSession() + [GoOn()] + [GoOn()] + [Look()], LateLook(), STRICT_RUN);
  }

  lemma InTimeStill()
    ensures Step(Conf(), Bindings(), Monitor("s", Process(true, true, false), NoNews(), 3601)) == Bindings()
  {
    var d := Bindings().d;
    assert d.sessions["s" := Opened(SState.Running, None)] == d.sessions;
  }

  lemma NothingSaid()
    ensures Bindings().d.log.events == []
  {
  }

  // ---- a later attempt overtakes an earlier one ----

  function Other(aid: Id, jobId: Id, now: int): Act { DoSubmit(Req(aid), jobId, "pl", true, now) }

  function Waiter(jobId: Id, now: int): Attempt { NewAttempt(jobId, "codex_cli", "", now) }

  function OneMoreJob(d: Data, aid: Id, jobId: Id, now: int): Data {
    d.(payloads := d.payloads["pl" := Envelope("p", "p")],
       queue := Queue(d.queue.attempts[aid := Waiter(jobId, now)], d.queue.jobs[jobId := NewJob(Conf(), Req(aid), "pl")]),
       log := d.log.(prompts := d.log.prompts[jobId := "p"]))
  }

  /** While "a" runs, "b" and then "e" are queued. */
  function Queued(): World {
    var w := Bindings();
    w.(d := OneMoreJob(OneMoreJob(w.d, "b", "k", 1), "e", "l", 2))
  }

  lemma SubmitIs(w: World, aid: Id, jobId: Id, now: int)
    requires |aid| == 1 && 'a' <= aid[0] <= 'z' && aid !in w.d.queue.attempts && jobId !in w.d.queue.jobs
    ensures Step(Conf(), w, Other(aid, jobId, now)) == w.(d := OneMoreJob(w.d, aid, jobId, now))
    ensures Allowed(Conf(), w, Other(aid, jobId, now), STRICT_RUN)
  {
    hide Advance;
    hide SafeIdent;
    OneLetter("t");
    OneLetter(aid);
  }

  lemma Letters()
    ensures "a" != "b" && "a" != "e" && "b" != "e" && "j" != "k" && "j" != "l" && "k" != "l"
  {
    assert "a"[0] == 'a' && "b"[0] == 'b' && "e"[0] == 'e' && "j"[0] == 'j' && "k"[0] == 'k' && "l"[0] == 'l';
  }

  lemma QueuedIs()
    ensures var w := World(OneMoreJob(Bindings().d, "b", "k", 1), Idle, {});
      && Step(Conf(), Bindings(), Other("b", "k", 1)) == w && Step(Conf(), w, Other("e", "l", 2)) == Queued()
      && Allowed(Conf(), Bindings(), Other("b", "k", 1), STRICT_RUN) && Allowed(Conf(), w, Other("e", "l", 2), STRICT_RUN)
  {
    hide Step;
    hide Allowed;
    Letters();
    SubmitIs(Bindings(), "b", "k", 1);
    SubmitIs(World(OneMoreJob(Bindings().d, "b", "k", 1), Idle, {}), "e", "l", 2);
  }

  lemma Refused()
    ensures Step(Conf(), Queued(), Check("b")) == Queued()
  {
    Letters();
    assert "a" in Active(Queued().d.queue.attempts);
    SubsetSize({"a"}, Active(Queued().d.queue.attempts));
  }

  function Stopped(): World { Step(Conf(), Queued(), CancelIt()) }

  lemma StoppedIs()
    ensures Stopped() == World(Stopped().d, Idle, {})
    ensures var all := Stopped().d.queue.attempts;
      && all.Keys == {"a", "b", "e"} && all["a"].state.Cancelled? && all["b"] == Waiter("k", 1) && all["e"] == Waiter("l", 2)
  {
    Letters();
  }

  lemma LetThroughThen()
    ensures Step(Conf(), Stopped(), Check("e")) == Stopped().(pc := Checked("e"))
    ensures var w := Step(Conf(), Stopped().(pc := Checked("e")), ClaimChecked("d", 3));
      && "b" in w.d.queue.attempts && w.d.queue.attempts["b"] == Waiter("k", 1)
      && "e" in w.d.queue.attempts && w.d.queue.attempts["e"].state.Claimed?
      && w.d.queue.attempts["e"].key == AttemptKey("l", "codex_cli", "", 2)
  {
    hide Stopped;
    Letters();
    StoppedIs();
    var all := Stopped().d.queue.attempts;
    assert Active(all) == {};
    assert ActiveOf(all, "codex_cli") == {};
  }

  function ToQueued(): seq<Act> { ToSession() + [GoOn()] + [GoOn()] + [Other("b", "k", 1)] + [Other("e", "l", 2)] }

  lemma ReachQueued()
    ensures Run(Conf(), Init(), ToQueued()) == Queued() && Admissible(Conf(), Init(), ToQueued(), STRICT_RUN)
  {
    hide Step;
    hide Bindings;
    hide Queued;
    hide Allowed;
    ReachBindings();
    BindingsIdle();
    QueuedIs();
    Then(Conf(), ToSession() + [GoOn()] + [GoOn()], Other("b", "k", 1), STRICT_RUN);
    Then(Conf(), ToSession() + [GoOn()] + [GoOn()] + [Other("b", "k", 1)], Other("e", "l", 2), STRICT_RUN);
  }

  /** One place, taken by "a". In one pass "b", created first, is refused; a
      cancel closes "a"; and "e", created later, is claimed, while "b" waits
      on, never held and never put off. */
  lemma OvertakenAfterCancel()
    ensures var acts := ToQueued() + [Check("b")] + [CancelIt()] + [Check("e")] + [ClaimChecked("d", 3)];
      && Admissible(Conf(), Init(), acts, STRICT_RUN)
      && var all := Run(Conf(), Init(), acts).d.queue.attempts;
         && "b" in all && all["b"] == NewAttempt("k", "codex_cli", "", 1)
         && "e" in all && all["e"].state.Claimed? && all["e"].key == AttemptKey("l", "codex_cli", "", 2)
  {
    hide Step;
    hide Queued;
    hide Stopped;
    hide Allowed;
    var c := Conf();
    var k := STRICT_RUN;
    ReachQueued();
    Refused();
    StoppedIs();
    LetThroughThen();
    QueuedIdle();
    Calm(Queued(), Check("b"));
    Calm(Queued(), CancelIt());
    Calm(Stopped(), Check("e"));
    Calm(Stopped().(pc := Checked("e")), ClaimChecked("d", 3));
    Then(c, ToQueued(), Check("b"), k);
    Then(c, ToQueued() + [Check("b")], CancelIt(), k);
    Then(c, ToQueued() + [Check("b")] + [CancelIt()], Check("e"), k);
    Then(c, ToQueued() + [Check("b")] + [CancelIt()] + [Check("e")], ClaimChecked("d", 3), k);
  }

  lemma QueuedIdle()
    ensures Queued().pc.Idle? && Stopped() == Step(Conf(), Queued(), CancelIt())
  {
  }

  lemma Calm(w: World, act: Act)
    requires act.Check? || act.DoCancel? || act.ClaimChecked?
    ensures Allowed(Conf(), w, act, STRICT_RUN)
  {
  }
}
