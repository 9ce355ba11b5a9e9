/** At most one terminal event per session, and what each event tells. */
module Events {
  import opened Prelude
  import opened Records
  import opened Scheduling
  import opened Engine
  import opened Service
  import opened Lifecycle
  import opened Shapes
  import opened Foundation
  import opened Closure

  function KindState(k: EventKind): AState {
    match k
    case SessionCompleted => AState.Completed
    case SessionFailed => AState.Failed
    case SessionTimedOut => AState.TimedOut
    case SessionCancelled => AState.Cancelled
  }

  predicate EndedSession(sessions: map<Id, Session>, sid: Id) {
    sid in sessions && SessionEnded(sessions[sid].state)
  }

  /** A call that emits `ev`, if any, while it closes the attempt of `sid`
      with `out`, if any. */
  ghost predicate Tells(d: Data, sid: Id, out: Option<Outcome>, ev: Option<Event>, d': Data) {
    && (forall s :: s in d.sessions && s != sid ==> s in d'.sessions && d'.sessions[s] == d.sessions[s])
    && d'.log.events == d.log.events + (if ev.Some? then [ev.value] else [])
    && (out.Some? ==> EndedSession(d'.sessions, sid))
    && (EndedSession(d.sessions, sid) && Finished(d.queue, d.sessions[sid].key.attemptId) ==> EndedSession(d'.sessions, sid))
    && (ev.Some? ==>
          && sid in d.sessions && d.sessions[sid].key.managed
          && ev.value.sid == sid && ev.value.attemptId == d.sessions[sid].key.attemptId
          && !(EndedSession(d.sessions, sid) && Finished(d.queue, ev.value.attemptId))
          && out.Some? && out.value.state == KindState(ev.value.kind)
          && (ev.value.kind.SessionCompleted? ==>
                out.value.reason.ExitedNormally? && ev.value.exit == Some(0)))
  }

  ghost predicate Effect(d: Data, sid: Id, out: Option<Outcome>, ev: Option<Event>, d': Data) {
    Closing(d, sid, out, d') && Tells(d, sid, out, ev, d')
  }

  lemma Nothing(d: Data, sid: Id)
    ensures Effect(d, sid, None, None, d)
  {
    NoUpdate(d.sessions);
  }

  lemma OnlySession(d: Data, sid: Id, ss: Session)
    requires sid in d.sessions && ss.key == d.sessions[sid].key
    requires EndedSession(d.sessions, sid) && Finished(d.queue, ss.key.attemptId) ==> SessionEnded(ss.state)
    ensures Effect(d, sid, None, None, d.(sessions := d.sessions[sid := ss]))
  {
    SessionUpdate(d.sessions, sid, ss);
  }

  lemma FinalizeTells(d: Data, sid: Id, state: SState, o: Outcome, kind: EventKind, exit: Option<int>, now: int)
    returns (out: Option<Outcome>, ev: Option<Event>)
    requires sid in d.sessions && d.sessions[sid].key.managed && !Finished(d.queue, d.sessions[sid].key.attemptId)
    requires Ended(o.state) && o.state == KindState(kind) && SessionEnded(state)
    requires kind.SessionCompleted? ==> o.reason.ExitedNormally? && exit == Some(0)
    ensures Effect(d, sid, out, ev, Finalize(d, sid, state, o, kind, exit, now))
  {
    hide Settle;
    hide SameOwners;
    out := FinalizeShape(d, sid, state, o, kind, exit, now);
    ev := if sid in d.emitted then None else Some(Event(kind, sid, d.sessions[sid].key.attemptId, exit));
    if sid !in d.emitted { out := Some(o); } else { out := None; Nothing(d, sid); }
  }

  lemma GoneTells(d: Data, sid: Id, p: Probe, now: int) returns (out: Option<Outcome>, ev: Option<Event>)
    requires sid in d.sessions && d.sessions[sid].key.managed && !Finished(d.queue, d.sessions[sid].key.attemptId)
    ensures Effect(d, sid, out, ev, HandleGone(d, sid, p, now))
  {
    hide Finalize;
    hide SameOwners;
    hide BuildBundle;
    hide BundleRefs;
    hide ValidBundle;
    hide Settle;
    hide GoneRaises;
    out, ev := None, None;
    Nothing(d, sid);
    if !GoneRaises(d.sessions[sid], p) {
      var b := BuildBundle(d.queue, sid, d.sessions[sid], p);
      var v := Judge(b, p.writable, BundleRefs(b, p.writable, d.sessions[sid], p));
      var d0 := if p.writable then d.(evidence := d.evidence[b.id := b]) else d;
      out, ev := FinalizeTells(d0, sid, v.state, v.outcome, v.kind, b.exitCode, now);
    }
  }

  lemma MonitorTells(d: Data, sid: Id, obs: Obs, p: Probe, now: int) returns (out: Option<Outcome>, ev: Option<Event>)
    ensures Effect(d, sid, out, ev, MonitorOne(d, sid, obs, p, now))
  {
    hide HandleGone;
    hide Finalize;
    hide Settle;
    hide Effect;
    out, ev := None, None;
    Nothing(d, sid);
    if sid in d.sessions && d.sessions[sid].key.managed && !Finished(d.queue, d.sessions[sid].key.attemptId) {
      var ss := d.sessions[sid];
      if ss.state.Cancelled? || ss.state.Failed? || ss.state.Lost? {
        if ss.key.attemptId in d.queue.attempts {
          out := Some(SessionOutcome(ss.state));
          CopyTells(d, sid);
        }
      } else if ss.key.hasProc {
        if MonitorGone(obs) {
          out, ev := GoneTells(d, sid, p, now);
        } else if Overdue(ss.key, now) {
          out, ev := FinalizeTells(d, sid, SState.Failed, Outcome(AState.TimedOut, DeadlinePassed, Some(None), [], false),
                                   SessionTimedOut, None, now);
        } else {
          OnlySession(d, sid, ss.(state := SState.Running));
        }
      }
    }
  }

  lemma CopyTells(d: Data, sid: Id)
    requires sid in d.sessions && d.sessions[sid].key.managed && SessionEnded(d.sessions[sid].state)
    ensures var o := SessionOutcome(d.sessions[sid].state);
      Effect(d, sid, Some(o), None, d.(queue := Settle(d.queue, d.sessions[sid].key.attemptId, o), emitted := d.emitted + {sid}))
  {
    hide Settle;
    NoUpdate(d.sessions);
  }

  lemma CancelDoneTells(d: Data, sid: Id, now: int) returns (out: Option<Outcome>, ev: Option<Event>)
    requires sid in d.sessions && d.sessions[sid].key.managed && !SessionEnded(d.sessions[sid].state)
    ensures Effect(d, sid, out, ev, CancelDone(d, sid, now))
  {
    hide Settle;
    hide SameOwners;
    CancelDoneShape(d, sid, now);
    out := Some(Follow(AState.Cancelled, SState.Cancelled));
    ev := Some(Event(SessionCancelled, sid, d.sessions[sid].key.attemptId, None));
  }

  lemma EndTells(d: Data, sid: Id, exit: Option<int>, now: int) returns (out: Option<Outcome>)
    requires sid in d.sessions && d.sessions[sid].key.managed
    ensures Effect(d, sid, out, None, EndByExit(d, sid, exit, now))
  {
    hide Settle;
    hide SameOwners;
    out := EndShape(d, sid, exit, now);
  }

  lemma ReconcileTells(d: Data, sid: Id, obs: Obs, exit: Option<int>, now: int)
    returns (out: Option<Outcome>, ev: Option<Event>)
    requires EndedSession(d.sessions, sid) && Finished(d.queue, d.sessions[sid].key.attemptId) ==>
      !Observable(d.sessions, sid) || !Matches(obs)
    ensures Effect(d, sid, out, ev, ReconcileOne(d, sid, obs, exit, now))
  {
    hide CancelDone;
    hide EndByExit;
    hide Effect;
    out, ev := None, None;
    Nothing(d, sid);
    if Observable(d.sessions, sid) {
      var ss := d.sessions[sid];
      if Matches(obs) {
        if !ss.state.CancelRequested? { OnlySession(d, sid, ss.(state := SState.Running)); }
      } else if !obs.NoProcess? {
        OnlySession(d, sid, ss.(state := SState.Lost, endedAt := Some(now)));
      } else if ss.state.CancelRequested? {
        out, ev := CancelDoneTells(d, sid, now);
      } else if !SessionEnded(ss.state) {
        out := EndTells(d, sid, exit, now);
      }
    }
  }

  lemma StatusTells(d: Data, sid: Id, obs: Obs, now: int)
    ensures Effect(d, sid, None, None, Status(d, sid, obs, now))
  {
    hide Effect;
    Nothing(d, sid);
    if Observable(d.sessions, sid) {
      var ss := d.sessions[sid];
      OnlySession(d, sid, ss.(state := SState.Completed, endedAt := Some(now)));
      OnlySession(d, sid, ss.(state := SState.Lost, endedAt := Some(now)));
    }
  }

  lemma MarkTells(d: Data, sid: Id)
    ensures Effect(d, sid, None, None, MarkCancel(d, sid))
  {
    hide Effect;
    Nothing(d, sid);
    if Cancellable(d.sessions, sid) {
      OnlySession(d, sid, d.sessions[sid].(state := SState.CancelRequested));
    }
  }

  lemma SessionActTells(c: Config, w: World, act: Act) returns (out: Option<Outcome>, ev: Option<Event>)
    requires SessionAct(act) && Fresh(c, w, act) && !FoundAlive(w, act)
    ensures Effect(w.d, ActSession(act), out, ev, Step(c, w, act).d)
    ensures Step(c, w, act).pc == w.pc
  {
    hide MonitorOne;
    hide Cancel;
    hide ReconcileOne;
    hide Status;
    hide MarkCancel;
    hide Advance;
    hide Submit;
    hide Retry;
    hide RecoverExpired;
    hide TakeClaim;
    hide RetryReply;
    out, ev := None, None;
    match act
    case Monitor(sid, obs, p, now) => out, ev := MonitorTells(w.d, sid, obs, p, now);
    case DoCancel(sid, gateway, kill, now) => out, ev := CancelTells(w.d, sid, gateway, kill, now);
    case Reconcile(sid, obs, exit, now) => out, ev := ReconcileTells(w.d, sid, obs, exit, now);
    case DoStatus(sid, obs, now) => StatusTells(w.d, sid, obs, now);
    case External(sid) =>
    case Tamper(ref, file) => NoUpdate(w.d.sessions);
  }

  lemma CancelTells(d: Data, sid: Id, gateway: bool, kill: bool, now: int)
    returns (out: Option<Outcome>, ev: Option<Event>)
    ensures Effect(d, sid, out, ev, Cancel(d, sid, gateway, kill, now))
  {
    hide CancelDone;
    hide Effect;
    out, ev := None, None;
    Nothing(d, sid);
    if Cancellable(d.sessions, sid)
       && (gateway || (d.sessions[sid].key.scoped && d.sessions[sid].key.hasProc && kill)) {
      out, ev := CancelDoneTells(d, sid, now);
    }
  }

  // ---- the invariant ----

  /** One managed session per attempt; the freshly registered one is the
      dispatcher's. */
  predicate OneSession(sessions: map<Id, Session>, pc: Pc) {
    && (forall s, t ::
          s in sessions && t in sessions && s != t && sessions[s].key.managed && sessions[t].key.managed
          ==> sessions[s].key.attemptId != sessions[t].key.attemptId)
    && (pc.Registered? || pc.Bound? ==>
          pc.sid in sessions && sessions[pc.sid].key.managed && sessions[pc.sid].key.attemptId == pc.aid)
  }

  predicate EventOk(e: Event, all: map<Id, Attempt>, sessions: map<Id, Session>) {
    && EndedSession(sessions, e.sid) && sessions[e.sid].key.managed && sessions[e.sid].key.attemptId == e.attemptId
    && e.attemptId in all && all[e.attemptId].terminal && all[e.attemptId].state == KindState(e.kind)
    && (e.kind.SessionCompleted? ==> all[e.attemptId].result.reason.ExitedNormally? && e.exit == Some(0))
  }

  predicate OncePerSession(events: seq<Event>) {
    forall i, k :: 0 <= i < k < |events| ==> events[i].sid != events[k].sid
  }

  /** A session whose attempt is closed has ended. */
  predicate NoneOpen(all: map<Id, Attempt>, sessions: map<Id, Session>) {
    forall sid ::
      sid in sessions && sessions[sid].key.managed
      && sessions[sid].key.attemptId in all && all[sessions[sid].key.attemptId].terminal
      ==> EndedSession(sessions, sid)
  }

  predicate EventsOk(events: seq<Event>, all: map<Id, Attempt>, sessions: map<Id, Session>) {
    OncePerSession(events) && forall i :: 0 <= i < |events| ==> EventOk(events[i], all, sessions)
  }

  predicate Told(w: World) {
    EventsOk(w.d.log.events, w.d.queue.attempts, w.d.sessions) && NoneOpen(w.d.queue.attempts, w.d.sessions)
  }

  lemma SettleCloses(q: Queue, aid: Id, o: Outcome)
    requires Ended(o.state) && aid in q.attempts
    ensures var all' := Settle(q, aid, o).attempts;
      && aid in all' && all'[aid].terminal && (forall x :: x in q.attempts && x != aid ==> all'[x] == q.attempts[x])
      && (!q.attempts[aid].terminal ==> all'[aid].state == o.state && all'[aid].result.reason == o.reason)
      && all'.Keys == q.attempts.Keys
  {
  }

  lemma EventsStay(d: Data, sid: Id, out: Option<Outcome>, ev: Option<Event>, d': Data, i: nat)
    requires Effect(d, sid, out, ev, d') && ClosedKept(d.queue.attempts, d'.queue.attempts)
    requires i < |d.log.events| && EventOk(d.log.events[i], d.queue.attempts, d.sessions)
    ensures EventOk(d.log.events[i], d'.queue.attempts, d'.sessions)
  {
    hide Settle;
  }

  lemma NewEvent(d: Data, sid: Id, out: Option<Outcome>, ev: Option<Event>, d': Data)
    requires Effect(d, sid, out, ev, d') && ev.Some?
    requires NoneOpen(d.queue.attempts, d.sessions) && ev.value.attemptId in d.queue.attempts
    ensures EventOk(ev.value, d'.queue.attempts, d'.sessions)
    ensures !(EndedSession(d.sessions, sid) && d.queue.attempts[ev.value.attemptId].terminal)
  {
    hide Settle;
    SettleCloses(d.queue, ev.value.attemptId, out.value);
  }

  lemma NoneOpenStays(d: Data, pc: Pc, sid: Id, out: Option<Outcome>, ev: Option<Event>, d': Data)
    requires Effect(d, sid, out, ev, d') && NoneOpen(d.queue.attempts, d.sessions) && OneSession(d.sessions, pc)
    requires out.Some? ==> d.sessions[sid].key.attemptId in d.queue.attempts
    ensures NoneOpen(d'.queue.attempts, d'.sessions)
  {
    hide Settle;
    if out.Some? { SettleCloses(d.queue, d.sessions[sid].key.attemptId, out.value); }
    forall s | s in d'.sessions && d'.sessions[s].key.managed && d'.sessions[s].key.attemptId in d'.queue.attempts
               && d'.queue.attempts[d'.sessions[s].key.attemptId].terminal
      ensures EndedSession(d'.sessions, s)
    {
      assert s in d.sessions;
    }
  }

  lemma EffectTold(c: Config, w: World, sid: Id, out: Option<Outcome>, ev: Option<Event>, d': Data)
    requires Sound(c, w) && OneSession(w.d.sessions, w.pc) && Told(w) && Effect(w.d, sid, out, ev, d')
    requires ClosedKept(w.d.queue.attempts, d'.queue.attempts)
    ensures Told(w.(d := d'))
  {
    hide EventOk;
    hide NoneOpen;
    hide Sound;
    hide OneSession;
    hide ClosedKept;
    hide SameOwners;
    hide Settle;
    if out.Some? { OwnerKnown(c, w, sid); }
    NoneOpenStays(w.d, w.pc, sid, out, ev, d');
    forall i | 0 <= i < |w.d.log.events|
      ensures EventOk(w.d.log.events[i], d'.queue.attempts, d'.sessions)
      ensures ev.Some? ==> w.d.log.events[i].sid != sid
    {
      EventsStay(w.d, sid, out, ev, d', i);
      if ev.Some? {
        NewEvent(w.d, sid, out, ev, d');
        EventEnded(w.d.log.events[i], w.d.queue.attempts, w.d.sessions);
      }
    }
    if ev.Some? { NewEvent(w.d, sid, out, ev, d'); }
  }

  lemma EventEnded(e: Event, all: map<Id, Attempt>, sessions: map<Id, Session>)
    requires EventOk(e, all, sessions)
    ensures EndedSession(sessions, e.sid) && sessions[e.sid].key.attemptId in all
    ensures all[sessions[e.sid].key.attemptId].terminal
  {
  }

  lemma OwnerKnown(c: Config, w: World, sid: Id)
    requires Sound(c, w) && sid in w.d.sessions && w.d.sessions[sid].key.managed
    ensures w.d.sessions[sid].key.attemptId in w.d.queue.attempts
  {
    hide StartsOk;
    hide JobsOk;
    hide ShapeOk;
    hide PcOk;
    hide WasStarted;
    assert OwnerOk(w.d.sessions[sid], w.d.log.starts, w.pc);
    StartedIsPast(c, w, w.d.sessions[sid].key.attemptId);
  }

  // ---- steps that emit nothing ----

  /** Records may move on while no closed attempt appears that a session has. */
  lemma SameTold(w: World, w': World)
    requires Told(w) && w'.d.log.events == w.d.log.events && ClosedKept(w.d.queue.attempts, w'.d.queue.attempts)
    requires w'.d.sessions == w.d.sessions
    requires forall x :: x in w'.d.queue.attempts && w'.d.queue.attempts[x].terminal ==>
      (x in w.d.queue.attempts && w.d.queue.attempts[x].terminal) || !HasSession(w.d.sessions, x)
    ensures Told(w')
  {
    forall i | 0 <= i < |w.d.log.events|
      ensures EventOk(w.d.log.events[i], w'.d.queue.attempts, w.d.sessions)
    {
      assert EventOk(w.d.log.events[i], w.d.queue.attempts, w.d.sessions);
    }
  }

  predicate HasSession(sessions: map<Id, Session>, x: Id) {
    exists sid :: sid in sessions && sessions[sid].key.managed && sessions[sid].key.attemptId == x
  }

  /** Between the claim and the registration the attempt has no session. */
  lemma NoSessionYet(c: Config, w: World)
    requires Sound(c, w) && (w.pc.Claimed? || w.pc.Prepared? || w.pc.Started?)
    ensures !HasSession(w.d.sessions, w.pc.aid)
  {
    hide StartsOk;
    hide JobsOk;
    hide ShapeOk;
    hide WasStarted;
    if w.pc.Claimed? { ClaimedNotStarted(c, w); }
    forall sid | sid in w.d.sessions
      ensures OwnerOk(w.d.sessions[sid], w.d.log.starts, w.pc)
    {
    }
  }

  predicate MayWrite(d: Data, pc: Pc, a: Attempt)
    requires !pc.Idle?
  {
    && (a.terminal ==>
          pc.Claimed? || pc.Prepared? || pc.Started? || pc.Registered?
          || (pc.aid in d.queue.attempts && d.queue.attempts[pc.aid].terminal))
    && (a.state.Completed? ==> pc.Registered? && pc.att.state.Completed?)
  }

  /** One write of the dispatcher: the record of the attempt it holds, which it
      may close at these points, and no event. */
  predicate Span(d: Data, pc: Pc, d': Data) {
    && d'.log.events == d.log.events && d'.evidence == d.evidence
    && (forall x :: x in d'.queue.attempts && !(x in d.queue.attempts && d'.queue.attempts[x] == d.queue.attempts[x]) ==>
          !pc.Idle? && x == pc.aid && MayWrite(d, pc, d'.queue.attempts[x]))
  }

  lemma SaveSpan(d: Data, pc: Pc, a: Attempt)
    requires !pc.Idle? && MayWrite(d, pc, a)
    ensures Span(d, pc, SaveAttempt(d, pc.aid, a))
  {
    hide MayWrite;
  }

  lemma AdvanceSpan(c: Config, d: Data, pc: Pc, o: Oracle)
    ensures Span(d, pc, Advance(c, d, pc, o).0)
    ensures var d' := Advance(c, d, pc, o).0;
      d'.sessions == d.sessions
      || (pc.Started? && pc.gateway.StartOk? && d'.queue == d.queue
          && d'.sessions == d.sessions[pc.gateway.sid := NewSession(c, pc.aid, pc.job, pc.gateway, o.now)])
  {
    hide Span;
    hide LoadPayload;
    hide NewSession;
    hide Begin;
    hide Launch;
    hide Record;
    match pc
    case Claimed(_) => BeginSpan(d, pc, o);
    case Prepared(_, _, _) => LaunchSpan(c, d, pc, o.gateway);
    case Started(_, _, _, _) => RecordSpan(c, d, pc, o.now);
    case Registered(_, a, _, sid) => SaveSpan(d, pc, a.(sessionId := sid));
    case Holding(aid) => HoldingSpan(d, pc);
    case _ => SameSpan(d, pc, Advance(c, d, pc, o).0);
  }

  lemma SameSpan(d: Data, pc: Pc, d': Data)
    requires d'.log.events == d.log.events && d'.queue.attempts == d.queue.attempts && d'.evidence == d.evidence
    ensures Span(d, pc, d')
  {
  }

  lemma HoldingSpan(d: Data, pc: Pc)
    requires pc.Holding?
    ensures Span(d, pc, d.(queue := d.queue.(attempts := Release(d.queue.attempts, pc.aid))))
  {
    hide Span;
    SameSpan(d, pc, d);
    if pc.aid in d.queue.attempts {
      SaveSpan(d, pc, ReleaseRecord(d.queue.attempts[pc.aid]));
    }
  }

  lemma BeginSpan(d: Data, pc: Pc, o: Oracle)
    requires pc.Claimed?
    ensures var d' := Begin(d, pc.aid, o).0; Span(d, pc, d') && d'.sessions == d.sessions
  {
    hide Span;
    SameSpan(d, pc, d);
    if pc.aid in d.queue.attempts && d.queue.attempts[pc.aid].state.Claimed? {
      SaveSpan(d, pc, Begin(d, pc.aid, o).0.queue.attempts[pc.aid]);
    }
  }

  lemma LaunchSpan(c: Config, d: Data, pc: Pc, g: Gateway)
    requires pc.Prepared?
    ensures var d' := Launch(c, d, pc.aid, pc.att, pc.job, g).0; Span(d, pc, d') && d'.sessions == d.sessions
  {
    hide Span;
    hide LoadPayload;
    SaveSpan(d, pc, FailRecord(pc.att, PayloadFailed));
    SaveSpan(d, pc, FailRecord(pc.att, PayloadMismatch));
    SameSpan(d, pc, Launch(c, d, pc.aid, pc.att, pc.job, g).0.(queue := d.queue));
  }

  lemma RecordSpan(c: Config, d: Data, pc: Pc, now: int)
    requires pc.Started?
    ensures var d' := Record(c, d, pc.aid, pc.att, pc.job, pc.gateway, now).0;
      && Span(d, pc, d')
      && (d'.sessions == d.sessions
          || (pc.gateway.StartOk? && d'.queue == d.queue
              && d'.sessions == d.sessions[pc.gateway.sid := NewSession(c, pc.aid, pc.job, pc.gateway, now)]))
  {
    hide Span;
    hide NewSession;
    if pc.gateway.StartFailed? {
      SaveSpan(d, pc, FailRecord(pc.att, Reason.Gateway(pc.gateway.message)));
    } else {
      SameSpan(d, pc, Record(c, d, pc.aid, pc.att, pc.job, pc.gateway, now).0);
    }
  }

  lemma RegisterTold(c: Config, w: World, w': World, sid: Id, ss: Session)
    requires Told(w) && sid !in w.d.sessions && ss.key.attemptId in w.d.queue.attempts
    requires !w.d.queue.attempts[ss.key.attemptId].terminal
    requires w'.d.sessions == w.d.sessions[sid := ss] && w'.d.queue == w.d.queue && w'.d.log.events == w.d.log.events
    ensures Told(w')
  {
    forall i | 0 <= i < |w.d.log.events|
      ensures EventOk(w.d.log.events[i], w.d.queue.attempts, w'.d.sessions)
    {
      assert EventOk(w.d.log.events[i], w.d.queue.attempts, w.d.sessions);
    }
  }

  lemma DispatchTold(c: Config, w: World, o: Oracle)
    requires Sound(c, w) && Told(w) && Fresh(c, w, Dispatch(o)) && !Revives(w, Dispatch(o))
    ensures Told(Step(c, w, Dispatch(o)))
  {
    hide Sound;
    hide Told;
    hide Advance;
    hide HasSession;
    hide ClosedKept;
    hide NewSession;
    hide Revives;
    var w' := Step(c, w, Dispatch(o));
    AdvanceSpan(c, w.d, w.pc, o);
    ClosedExactly(c, w, Dispatch(o));
    if w'.d.sessions != w.d.sessions {
      ClaimedOpen(c, w);
      var ss := NewSession(c, w.pc.aid, w.pc.job, w.pc.gateway, o.now);
      NewSessionOf(c, w.pc.aid, w.pc.job, w.pc.gateway, o.now);
      RegisterTold(c, w, w', w.pc.gateway.sid, ss);
    } else {
      if w.pc.Claimed? || w.pc.Prepared? || w.pc.Started? { NoSessionYet(c, w); }
      if w.pc.Registered? { BindOpen(c, w, o); }
      SameTold(w, w');
    }
  }

  lemma NewSessionOf(c: Config, aid: Id, j: Job, g: Gateway, now: int)
    requires g.StartOk?
    ensures NewSession(c, aid, j, g, now).key.attemptId == aid
  {
  }

  lemma BindOpen(c: Config, w: World, o: Oracle)
    requires Sound(c, w) && w.pc.Registered?
    ensures var all' := Step(c, w, Dispatch(o)).d.queue.attempts; w.pc.aid in all' && !all'[w.pc.aid].terminal
  {
    hide StartsOk;
    hide JobsOk;
    hide ShapeOk;
    hide OwnersOk;
    hide WasStarted;
  }

  /** The remaining calls close nothing. */
  lemma OthersTold(c: Config, w: World, act: Act)
    requires Sound(c, w) && OneSession(w.d.sessions, w.pc) && Told(w) && Fresh(c, w, act)
    requires act.Recover? || act.Check? || act.ClaimChecked? || act.DoSubmit? || act.DoRetry? || act.Crash?
    ensures Told(Step(c, w, act))
  {
    hide Sound;
    hide OneSession;
    hide Told;
    hide ClosedKept;
    hide Fresh;
    OthersOpen(c, w, act);
    ClosedExactly(c, w, act);
    SameTold(w, Step(c, w, act));
  }

  lemma OthersOpen(c: Config, w: World, act: Act)
    requires act.Recover? || act.Check? || act.ClaimChecked? || act.DoSubmit? || act.DoRetry? || act.Crash?
    ensures var w' := Step(c, w, act);
      && w'.d.sessions == w.d.sessions && w'.d.log.events == w.d.log.events
      && ClosedBefore(w.d.queue.attempts, w'.d.queue.attempts)
  {
    hide OnHold;
    hide SubmitReply;
    hide RetryReply;
    hide CanStart;
    hide ClosedBefore;
    hide TakeClaim;
    hide RecoverExpired;
    BeforeUpdate(w.d.queue.attempts, "", NewAttempt("", "", "", 0));
    match act
    case DoSubmit(r, jobId, _, _, now) =>
      BeforeUpdate(w.d.queue.attempts, r.attemptId, NewAttempt(jobId, r.harness, "", now));
    case DoRetry(jobId, id, key, now) =>
      var reply := RetryReply(c, w.d, jobId, id, key);
      if reply.Enqueued? {
        BeforeUpdate(w.d.queue.attempts, reply.attemptId, NewAttempt(jobId, w.d.queue.jobs[jobId].spec.harness, key, now));
      }
    case Recover(now) => BeforeRecover(w.d.queue.attempts, now, c.leaseS);
    case ClaimChecked(owner, now) => BeforeClaim(w.d.queue.attempts, if w.pc.Checked? then w.pc.aid else "", owner, now);
    case _ =>
  }

  predicate ClosedBefore(all: map<Id, Attempt>, all': map<Id, Attempt>) {
    forall x :: x in all' && all'[x].terminal ==> x in all && all[x].terminal
  }

  lemma BeforeUpdate(all: map<Id, Attempt>, x: Id, a: Attempt)
    requires !a.terminal
    ensures ClosedBefore(all, all) && ClosedBefore(all, all[x := a])
  {
  }

  lemma BeforeRecover(all: map<Id, Attempt>, now: int, leaseS: int)
    ensures ClosedBefore(all, RecoverExpired(all, now, leaseS))
  {
  }

  lemma BeforeClaim(all: map<Id, Attempt>, aid: Id, owner: string, now: int)
    ensures ClosedBefore(all, TakeClaim(all, aid, owner, now))
  {
  }

  lemma StepTold(c: Config, w: World, act: Act)
    requires Sound(c, w) && OneSession(w.d.sessions, w.pc) && Told(w)
    requires Fresh(c, w, act) && !Revives(w, act) && !FoundAlive(w, act)
    ensures Told(Step(c, w, act))
  {
    hide Step;
    hide Sound;
    hide OneSession;
    hide Told;
    hide Fresh;
    hide Revives;
    hide FoundAlive;
    hide ClosedKept;
    hide Effect;
    if SessionAct(act) {
      RevivesByDispatch(w, act);
      ClosedExactly(c, w, act);
      var out, ev := SessionActTells(c, w, act);
      EffectTold(c, w, ActSession(act), out, ev, Step(c, w, act).d);
      PcIsNoMatter(w.(d := Step(c, w, act).d), Step(c, w, act));
    } else if act.CancelCrash? {
      MarkTold(c, w, act.sid);
    } else if act.Dispatch? {
      DispatchTold(c, w, act.o);
    } else {
      OthersTold(c, w, act);
    }
  }

  lemma RevivesByDispatch(w: World, act: Act)
    ensures Revives(w, act) ==> act.Dispatch?
  {
  }

  lemma PcIsNoMatter(w: World, w': World)
    requires Told(w) && w'.d.log.events == w.d.log.events && w'.d.queue == w.d.queue && w'.d.sessions == w.d.sessions
    ensures Told(w')
  {
    hide EventsOk;
    hide NoneOpen;
  }

  lemma MarkTold(c: Config, w: World, sid: Id)
    requires Sound(c, w) && OneSession(w.d.sessions, w.pc) && Told(w)
    ensures Told(Step(c, w, CancelCrash(sid)))
  {
    hide Sound;
    hide OneSession;
    hide Told;
    hide Effect;
    hide MarkCancel;
    MarkTells(w.d, sid);
    MarkShape(w.d, sid);
    ClosedSelf(w.d.queue.attempts);
    EffectTold(c, w, sid, None, None, MarkCancel(w.d, sid));
    PcIsNoMatter(w.(d := MarkCancel(w.d, sid)), Step(c, w, CancelCrash(sid)));
  }

  // ---- when it breaks ----

  predicate WasTold(events: seq<Event>, sid: Id) {
    exists i :: 0 <= i < |events| && events[i].sid == sid
  }

  lemma ReviveTold(c: Config, w: World, o: Oracle)
    requires Sound(c, w) && OneSession(w.d.sessions, w.pc) && Told(w) && Revives(w, Dispatch(o))
    ensures Told(Step(c, w, Dispatch(o))) <==> !WasTold(w.d.log.events, w.pc.sid)
  {
    hide StartsOk;
    hide JobsOk;
    hide ShapeOk;
    hide OwnersOk;
    hide WasStarted;
    hide NoneOpen;
    var w' := Step(c, w, Dispatch(o));
    RevivedNoneOpen(w.d.queue.attempts, w.d.sessions, w.pc.aid, w.pc.att.(sessionId := w.pc.sid));
    if WasTold(w.d.log.events, w.pc.sid) {
      var i :| 0 <= i < |w.d.log.events| && w.d.log.events[i].sid == w.pc.sid;
      assert EventOk(w.d.log.events[i], w.d.queue.attempts, w.d.sessions);
      assert !EventOk(w'.d.log.events[i], w'.d.queue.attempts, w'.d.sessions);
    } else {
      forall i | 0 <= i < |w.d.log.events|
        ensures EventOk(w.d.log.events[i], w'.d.queue.attempts, w.d.sessions)
      {
        assert EventOk(w.d.log.events[i], w.d.queue.attempts, w.d.sessions);
      }
    }
  }

  lemma RevivedNoneOpen(all: map<Id, Attempt>, sessions: map<Id, Session>, aid: Id, a: Attempt)
    requires NoneOpen(all, sessions) && !a.terminal
    ensures NoneOpen(all[aid := a], sessions)
  {
  }

  lemma AliveTold(c: Config, w: World, act: Act)
    requires FoundAlive(w, act)
    ensures !Told(Step(c, w, act))
  {
    hide EventsOk;
    hide Settle;
    var w' := Step(c, w, act);
    assert act.sid in w'.d.sessions && !EndedSession(w'.d.sessions, act.sid);
  }

  /** In a state where every event tells of an ended session and a closed
      attempt, and no closed attempt has an open session, a step with fresh
      ids leaves such a state if and only if it neither revives the attempt of
      a session already told nor finds an ended session alive. */
  lemma ToldExactly(c: Config, w: World, act: Act)
    requires Sound(c, w) && OneSession(w.d.sessions, w.pc) && Told(w) && Fresh(c, w, act)
    ensures Told(Step(c, w, act))
       <==> !(Revives(w, act) && WasTold(w.d.log.events, w.pc.sid)) && !FoundAlive(w, act)
  {
    hide Step;
    hide Sound;
    hide OneSession;
    hide Told;
    hide Fresh;
    hide Revives;
    hide FoundAlive;
    hide WasTold;
    RevivesByDispatch(w, act);
    if FoundAlive(w, act) {
      AliveByReconcile(w, act);
      AliveTold(c, w, act);
    } else if Revives(w, act) {
      ReviveTold(c, w, act.o);
    } else {
      StepTold(c, w, act);
    }
  }

  lemma AliveByReconcile(w: World, act: Act)
    ensures FoundAlive(w, act) ==> act.Reconcile?
  {
  }

  // ---- when an event goes out ----

  /** A look of the monitor that finalises, a cancel that kills, and a
      reconciliation that finds a requested cancel done. */
  predicate WillEmit(d: Data, act: Act) {
    match act
    case Monitor(sid, obs, p, now) =>
      && sid in d.sessions && d.sessions[sid].key.managed && !Finished(d.queue, d.sessions[sid].key.attemptId)
      && !d.sessions[sid].state.Cancelled? && !d.sessions[sid].state.Failed? && !d.sessions[sid].state.Lost?
      && d.sessions[sid].key.hasProc && sid !in d.emitted
      && (var k := d.sessions[sid].key;
          || obs.NoProcess? || (obs.sameStart && obs.zombie)
          || (k.timeoutS != 0 && k.startedAt.Some? && now > k.startedAt.value + k.timeoutS))
      && !LookRaises(d, sid, obs, p)
    case DoCancel(sid, gateway, kill, _) =>
      Cancellable(d.sessions, sid) && (gateway || (d.sessions[sid].key.scoped && d.sessions[sid].key.hasProc && kill))
    case Reconcile(sid, obs, _, _) =>
      && sid in d.sessions && d.sessions[sid].key.managed && d.sessions[sid].key.hasProc && obs.NoProcess?
      && d.sessions[sid].state == SState.CancelRequested
    case _ => false
  }

  ghost predicate OneMoreEvent(d: Data, d': Data, sid: Id) {
    exists e :: d'.log.events == d.log.events + [e] && e.sid == sid
  }

  lemma SessionActEmits(c: Config, w: World, act: Act)
    requires SessionAct(act)
    ensures if WillEmit(w.d, act) then OneMoreEvent(w.d, Step(c, w, act).d, ActSession(act))
            else Step(c, w, act).d.log.events == w.d.log.events
  {
    hide Advance;
    hide Submit;
    hide Retry;
    hide RecoverExpired;
    hide TakeClaim;
    hide RetryReply;
    hide Settle;
    hide BuildBundle;
    hide BundleRefs;
    hide AllNamed;
    hide MarkCancel;
    if WillEmit(w.d, act) {
      var events, events' := w.d.log.events, Step(c, w, act).d.log.events;
      assert events' == events + [events'[|events|]];
    }
  }

  lemma OthersEmit(c: Config, w: World, act: Act)
    requires !SessionAct(act)
    ensures Step(c, w, act).d.log.events == w.d.log.events && !WillEmit(w.d, act)
  {
    hide Advance;
    hide SubmitReply;
    hide RetryReply;
    hide CanStart;
    hide OnHold;
    if act.Dispatch? { AdvanceSpan(c, w.d, w.pc, act.o); }
  }

  /** The step tells a session that was told before. */
  predicate Repeats(w: World, act: Act) { WillEmit(w.d, act) && WasTold(w.d.log.events, ActSession(act)) }

  /** In any state whatever, a step sends a second event for a session already
      told if and only if it sends one, and that session was told. */
  lemma RepeatsExactly(c: Config, w: World, act: Act)
    requires OncePerSession(w.d.log.events)
    ensures OncePerSession(Step(c, w, act).d.log.events)
       <==> !Repeats(w, act)
  {
    hide Step;
    hide WillEmit;
    if SessionAct(act) { SessionActEmits(c, w, act); } else { OthersEmit(c, w, act); }
    var events, events' := w.d.log.events, Step(c, w, act).d.log.events;
    if WillEmit(w.d, act) {
      var e :| events' == events + [e] && e.sid == ActSession(act);
      if WasTold(events, e.sid) {
        var i :| 0 <= i < |events| && events[i].sid == e.sid;
        assert events'[i].sid == events'[|events|].sid;
      }
    }
  }

  /** Events are only added. */
  lemma EventsGrow(c: Config, w: World, act: Act)
    ensures w.d.log.events <= Step(c, w, act).d.log.events
  {
    hide Step;
    hide WillEmit;
    if SessionAct(act) { SessionActEmits(c, w, act); } else { OthersEmit(c, w, act); }
  }

  /** In any run whatever, no session is told twice if and only if no step
      emits for a session already told. */
  lemma {:induction false} OneEventExactly(c: Config, acts: seq<Act>)
    ensures OncePerSession(Run(c, Init(), acts).d.log.events)
       <==> forall i :: 0 <= i < |acts| ==> !Repeats(After(c, acts, i), acts[i])
    decreases |acts|
  {
    hide Step;
    hide WillEmit;
    hide WasTold;
    if acts != [] {
      hide Run;
      var n := |acts| - 1;
      var before := acts[..n];
      assert forall i :: 0 <= i <= n ==> before[..i] == acts[..i];
      assert forall i :: 0 <= i <= n ==> After(c, before, i) == After(c, acts, i);
      OneEventExactly(c, before);
      OneStep(c, acts, n);
      assert acts[..n + 1] == acts;
      var w := After(c, acts, n);
      EventsGrow(c, w, acts[n]);
      if OncePerSession(w.d.log.events) { RepeatsExactly(c, w, acts[n]); }
    }
  }

  // ---- one session per attempt ----

  lemma SessionActPlace(c: Config, w: World, act: Act)
    requires SessionAct(act) && Fresh(c, w, act) && OneSession(w.d.sessions, w.pc)
    ensures OneSession(Step(c, w, act).d.sessions, Step(c, w, act).pc)
  {
    hide Step;
    hide Fresh;
    hide Settle;
    var out := SessionShape(c, w, act);
  }

  /** Where the dispatcher is with a session, it is the one it registered. */
  lemma PlaceFrom(c: Config, d: Data, pc: Pc, o: Oracle)
    ensures var (d', pc') := Advance(c, d, pc, o);
      && (pc'.Bound? ==> pc.Registered? && pc'.sid == pc.sid && pc'.aid == pc.aid)
      && (pc'.Registered? ==>
            && pc.Started? && pc.gateway.StartOk? && pc'.sid == pc.gateway.sid && pc'.aid == pc.aid
            && d'.sessions == d.sessions[pc.gateway.sid := NewSession(c, pc.aid, pc.job, pc.gateway, o.now)])
      && (!pc'.Registered? ==> d'.sessions == d.sessions)
  {
    hide LoadPayload;
    hide Release;
    hide NewSession;
  }

  lemma DispatchPlace(c: Config, w: World, o: Oracle)
    requires Sound(c, w) && Fresh(c, w, Dispatch(o)) && OneSession(w.d.sessions, w.pc)
    ensures OneSession(Step(c, w, Dispatch(o)).d.sessions, Step(c, w, Dispatch(o)).pc)
  {
    hide Advance;
    hide StartsOk;
    hide JobsOk;
    hide ShapeOk;
    hide PcOk;
    hide WasStarted;
    PlaceFrom(c, w.d, w.pc, o);
    if w.pc.Started? {
      forall sid | sid in w.d.sessions
        ensures OwnerOk(w.d.sessions[sid], w.d.log.starts, w.pc)
      {
      }
    }
  }

  lemma OthersPlace(c: Config, w: World, act: Act)
    requires !SessionAct(act) && !act.Dispatch? && OneSession(w.d.sessions, w.pc)
    ensures OneSession(Step(c, w, act).d.sessions, Step(c, w, act).pc)
  {
    hide SubmitReply;
    hide RetryReply;
    hide CanStart;
    hide OnHold;
    hide MarkCancel;
    if act.CancelCrash? { MarkShape(w.d, act.sid); }
  }

  lemma StepPlace(c: Config, w: World, act: Act)
    requires Sound(c, w) && Fresh(c, w, act) && OneSession(w.d.sessions, w.pc)
    ensures OneSession(Step(c, w, act).d.sessions, Step(c, w, act).pc)
  {
    hide Step;
    hide Sound;
    hide Fresh;
    hide OneSession;
    if SessionAct(act) { SessionActPlace(c, w, act); }
    else if act.Dispatch? { DispatchPlace(c, w, act.o); }
    else { OthersPlace(c, w, act); }
  }

  lemma {:induction false} ToldFrom(c: Config, w: World, acts: seq<Act>)
    requires Sound(c, w) && OneSession(w.d.sessions, w.pc) && Told(w) && Admissible(c, w, acts, SETTLED_RUN)
    ensures Told(Run(c, w, acts))
    decreases |acts|
  {
    hide Step;
    hide Fresh;
    hide Revives;
    hide FoundAlive;
    hide Sound;
    hide OneSession;
    hide Told;
    if acts != [] {
      StepTold(c, w, acts[0]);
      StepSound(c, w, acts[0]);
      StepPlace(c, w, acts[0]);
      ToldFrom(c, Step(c, w, acts[0]), acts[1..]);
    }
  }

  /** Over monitor, timeout, cancel and reconcile, crashes included, at most one
      terminal event goes out per session, as long as no write revives a closed
      attempt and no ended session is found alive; each names an ended session
      whose attempt is closed the same way, and a completed one has exit
      code 0. */
  lemma OneEventPerSession(c: Config, acts: seq<Act>)
    requires Admissible(c, Init(), acts, SETTLED_RUN)
    ensures var d := Run(c, Init(), acts).d;
      && (forall i, k :: 0 <= i < k < |d.log.events| ==> d.log.events[i].sid != d.log.events[k].sid)
      && (forall i :: 0 <= i < |d.log.events| ==> EventOk(d.log.events[i], d.queue.attempts, d.sessions))
  {
    hide Step;
    hide EventOk;
    ToldFrom(c, Init(), acts);
  }
}
