/** The completed attempts for which there is no evidence. */
module Unproved {
  import opened Prelude
  import opened Records
  import opened Scheduling
  import opened Engine
  import opened Service
  import opened Lifecycle
  import opened Shapes
  import opened Foundation
  import opened Stranded
  import opened Closure
  import opened Events
  import opened EvidenceProof

  /** No exit code and no result reference. */
  predicate Bare(r: Result) { r.exit.None? && r.refs == [] }

  /** Completed because its session was, with nothing to show for it. */
  predicate Bald(a: Attempt) { a.state.Completed? && a.result.reason == SessionIs(SState.Completed) && Bare(a.result) }

  /** An open attempt has no results yet; a completed one was completed by the
      monitor or has none. */
  predicate Traced(a: Attempt) {
    (!a.terminal ==> Bare(a.result)) && (a.state.Completed? ==> ByMonitor(a) || Bald(a))
  }

  predicate AllTraced(all: map<Id, Attempt>) { forall x :: x in all ==> Traced(all[x]) }

  /** The dispatcher's copies were read before any result came in. */
  predicate CopyTraced(pc: Pc) { pc.Prepared? || pc.Started? || pc.Registered? ==> Bare(pc.att.result) }

  predicate Plain(w: World) { AllTraced(w.d.queue.attempts) && CopyTraced(w.pc) }

  lemma TracedUpdate(all: map<Id, Attempt>, x: Id, a: Attempt)
    requires AllTraced(all) && Traced(a)
    ensures AllTraced(all[x := a])
  {
    hide Traced;
  }

  /** An outcome that completes is the monitor's, or brings no results. */
  predicate Telling(o: Outcome) {
    o.state.Completed? ==> o.reason.ExitedNormally? || (o.reason == SessionIs(SState.Completed) && o.exit.None? && o.refs == [])
  }

  lemma SettleTraced(q: Queue, aid: Id, o: Outcome)
    requires Ended(o.state) && AllTraced(q.attempts) && Telling(o)
    ensures AllTraced(Settle(q, aid, o).attempts)
  {
    hide AllTraced;
    if aid in q.attempts && !q.attempts[aid].terminal {
      TracedAt(q.attempts, aid);
      TracedUpdate(q.attempts, aid, Close(q.attempts[aid], o));
    }
  }

  lemma TracedAt(all: map<Id, Attempt>, x: Id)
    requires AllTraced(all) && x in all
    ensures Traced(all[x])
  {
    hide Traced;
  }

  // ---- calls on sessions ----

  lemma GoneTraced(d: Data, sid: Id, p: Probe, now: int)
    requires sid in d.sessions && AllTraced(d.queue.attempts)
    ensures AllTraced(HandleGone(d, sid, p, now).queue.attempts)
  {
    hide AllTraced;
    hide Settle;
    hide BuildBundle;
    hide BundleRefs;
    hide GoneRaises;
    hide ValidBundle;
    if !GoneRaises(d.sessions[sid], p) {
      var b := BuildBundle(d.queue, sid, d.sessions[sid], p);
      var v := Judge(b, p.writable, BundleRefs(b, p.writable, d.sessions[sid], p));
      SettleTraced(d.queue, d.sessions[sid].key.attemptId, v.outcome);
    }
  }

  lemma MonitorTraced(d: Data, sid: Id, obs: Obs, p: Probe, now: int)
    requires AllTraced(d.queue.attempts)
    ensures AllTraced(MonitorOne(d, sid, obs, p, now).queue.attempts)
  {
    hide AllTraced;
    hide Settle;
    hide HandleGone;
    if sid in d.sessions {
      var ss := d.sessions[sid];
      GoneTraced(d, sid, p, now);
      SettleTraced(d.queue, ss.key.attemptId, Outcome(AState.TimedOut, DeadlinePassed, Some(None), [], false));
      if ss.state.Cancelled? || ss.state.Failed? || ss.state.Lost? {
        SettleTraced(d.queue, ss.key.attemptId, SessionOutcome(ss.state));
      }
    }
  }

  lemma CalledTraced(d: Data, act: Act)
    requires AllTraced(d.queue.attempts) && (act.DoCancel? || act.Reconcile?)
    ensures var d' := if act.DoCancel? then Cancel(d, act.sid, act.gateway, act.kill, act.now)
                      else ReconcileOne(d, act.sid, act.obs, act.exit, act.now);
      AllTraced(d'.queue.attempts)
  {
    hide AllTraced;
    hide Settle;
    if act.sid in d.sessions {
      var aid := d.sessions[act.sid].key.attemptId;
      SettleTraced(d.queue, aid, Follow(AState.Cancelled, SState.Cancelled));
      SettleTraced(d.queue, aid, Follow(AState.Completed, SState.Completed));
      SettleTraced(d.queue, aid, Follow(AState.Failed, SState.Failed));
    }
  }

  // ---- the dispatcher ----

  lemma BeginTraced(d: Data, aid: Id, o: Oracle)
    requires AllTraced(d.queue.attempts) && ShapeOk(d.queue.attempts)
    ensures var (d', pc') := Begin(d, aid, o); AllTraced(d'.queue.attempts) && CopyTraced(pc')
  {
    hide AllTraced;
    hide ShapeOk;
    if aid in d.queue.attempts && d.queue.attempts[aid].state.Claimed? {
      TracedAt(d.queue.attempts, aid);
      ShapeAt(d.queue.attempts, aid);
      TracedUpdate(d.queue.attempts, aid, Begin(d, aid, o).0.queue.attempts[aid]);
    }
  }

  lemma LaunchTraced(c: Config, d: Data, pc: Pc, o: Oracle)
    requires (pc.Prepared? || pc.Started?) && AllTraced(d.queue.attempts) && CopyTraced(pc)
    ensures var (d', pc') := Advance(c, d, pc, o); AllTraced(d'.queue.attempts) && CopyTraced(pc')
  {
    hide AllTraced;
    hide LoadPayload;
    hide NewSession;
    TracedUpdate(d.queue.attempts, pc.aid, FailRecord(pc.att, PayloadFailed));
    TracedUpdate(d.queue.attempts, pc.aid, FailRecord(pc.att, PayloadMismatch));
    if pc.Started? && pc.gateway.StartFailed? {
      TracedUpdate(d.queue.attempts, pc.aid, FailRecord(pc.att, Reason.Gateway(pc.gateway.message)));
    }
  }

  lemma AdvanceTraced(c: Config, w: World, o: Oracle)
    requires Sound(c, w) && Plain(w)
    ensures var (d', pc') := Advance(c, w.d, w.pc, o); AllTraced(d'.queue.attempts) && CopyTraced(pc')
  {
    hide AllTraced;
    hide StartsOk;
    hide JobsOk;
    hide ShapeOk;
    hide OwnersOk;
    hide WasStarted;
    hide Begin;
    hide Launch;
    hide Record;
    var all := w.d.queue.attempts;
    match w.pc
    case Claimed(aid) => BeginTraced(w.d, aid, o);
    case Prepared(_, _, _) => LaunchTraced(c, w.d, w.pc, o);
    case Started(_, _, _, _) => LaunchTraced(c, w.d, w.pc, o);
    case Holding(aid) => TracedAt(all, aid); ShapeAt(all, aid); TracedUpdate(all, aid, ReleaseRecord(all[aid]));
    case Registered(aid, a, _, sid) => TracedUpdate(all, aid, a.(sessionId := sid));
    case _ =>
  }

  lemma RecoverTraced(all: map<Id, Attempt>, now: int, leaseS: int)
    requires AllTraced(all) && ShapeOk(all)
    ensures AllTraced(RecoverExpired(all, now, leaseS))
  {
    forall x | x in all
      ensures Traced(RecoverExpired(all, now, leaseS)[x])
    {
      TracedAt(all, x);
      ShapeAt(all, x);
    }
  }

  lemma StepPlain(c: Config, w: World, act: Act)
    requires Sound(c, w) && Plain(w)
    ensures Plain(Step(c, w, act))
  {
    hide Sound;
    hide AllTraced;
    hide Advance;
    hide SubmitReply;
    hide RetryReply;
    hide MonitorOne;
    hide Cancel;
    hide ReconcileOne;
    hide RecoverExpired;
    hide OnHold;
    hide CanStart;
    var all := w.d.queue.attempts;
    SoundShape(c, w);
    match act
    case Recover(now) => RecoverTraced(all, now, c.leaseS);
    case ClaimChecked(owner, now) =>
      if w.pc.Checked? && Claimable(all, w.pc.aid, now) {
        TracedAt(all, w.pc.aid);
        ShapeAt(all, w.pc.aid);
        TracedUpdate(all, w.pc.aid, ClaimRecord(all[w.pc.aid], owner, now));
      }
    case Dispatch(o) => AdvanceTraced(c, w, o);
    case DoSubmit(r, jobId, _, _, now) => TracedUpdate(all, r.attemptId, NewAttempt(jobId, r.harness, "", now));
    case DoRetry(jobId, id, key, now) =>
      var reply := RetryReply(c, w.d, jobId, id, key);
      if reply.Enqueued? {
        TracedUpdate(all, reply.attemptId, NewAttempt(jobId, w.d.queue.jobs[jobId].spec.harness, key, now));
      }
    case Monitor(sid, obs, p, now) => MonitorTraced(w.d, sid, obs, p, now);
    case DoCancel(_, _, _, _) => CalledTraced(w.d, act);
    case Reconcile(_, _, _, _) => CalledTraced(w.d, act);
    case _ =>
  }

  lemma {:induction false} PlainFrom(c: Config, w: World, acts: seq<Act>)
    requires Sound(c, w) && Plain(w) && Admissible(c, w, acts, FRESH_RUN)
    ensures Plain(Run(c, w, acts))
    decreases |acts|
  {
    hide Step;
    hide Fresh;
    hide Sound;
    hide Plain;
    if acts != [] {
      StepPlain(c, w, acts[0]);
      StepSound(c, w, acts[0]);
      PlainFrom(c, Step(c, w, acts[0]), acts[1..]);
    }
  }

  /** In every state reachable with fresh ids, a completed attempt is proved by
      a stored, valid bundle if and only if the monitor completed it. Any other
      has no exit code and no result at all. */
  lemma ProvedExactly(c: Config, acts: seq<Act>, x: Id)
    requires Admissible(c, Init(), acts, FRESH_RUN)
    requires var all := Run(c, Init(), acts).d.queue.attempts; x in all && all[x].state.Completed?
    ensures var d := Run(c, Init(), acts).d;
      && (Proved(x, d.queue.attempts[x], d.evidence) <==> d.queue.attempts[x].result.reason.ExitedNormally?)
      && (d.queue.attempts[x].result.reason.ExitedNormally? <==> !Bald(d.queue.attempts[x]))
  {
    hide Step;
    PlainFrom(c, Init(), acts);
    TracedAt(Run(c, Init(), acts).d.queue.attempts, x);
    if ByMonitor(Run(c, Init(), acts).d.queue.attempts[x]) { CompletedIsProved(c, acts, x); }
  }

  // ---- the step that does it ----

  /** Reconciliation finds the process of an open session gone, and no exit code
      or exit code 0. */
  predicate EndsUnproved(d: Data, act: Act, x: Id) {
    && act.Reconcile? && Observable(d.sessions, act.sid) && d.sessions[act.sid].key.attemptId == x
    && act.obs.NoProcess? && !d.sessions[act.sid].state.CancelRequested? && !SessionEnded(d.sessions[act.sid].state)
    && (act.exit.Some? ==> act.exit.value == 0)
  }

  lemma GoneCompletes(d: Data, sid: Id, p: Probe, now: int, x: Id)
    requires sid in d.sessions && x in d.queue.attempts && !d.queue.attempts[x].state.Completed?
    ensures var all' := HandleGone(d, sid, p, now).queue.attempts; x in all' && !Bald(all'[x])
  {
    hide BuildBundle;
    hide BundleRefs;
    hide GoneRaises;
    hide ValidBundle;
    hide Bare;
  }

  lemma MonitorCompletes(d: Data, sid: Id, obs: Obs, p: Probe, now: int, x: Id)
    requires x in d.queue.attempts && !d.queue.attempts[x].terminal && !d.queue.attempts[x].state.Completed?
    ensures var all' := MonitorOne(d, sid, obs, p, now).queue.attempts; x in all' && !Bald(all'[x])
  {
    hide HandleGone;
    hide Bare;
    hide Amend;
    if sid in d.sessions { GoneCompletes(d, sid, p, now, x); }
  }

  lemma ReconcileCompletes(d: Data, sid: Id, obs: Obs, exit: Option<int>, now: int, x: Id)
    requires x in d.queue.attempts && !d.queue.attempts[x].terminal && !d.queue.attempts[x].state.Completed?
    requires Bare(d.queue.attempts[x].result)
    ensures var all' := ReconcileOne(d, sid, obs, exit, now).queue.attempts;
      x in all' && (Bald(all'[x]) <==> EndsUnproved(d, Act.Reconcile(sid, obs, exit, now), x))
  {
  }

  lemma CancelCompletes(d: Data, sid: Id, gateway: bool, kill: bool, now: int, x: Id)
    requires x in d.queue.attempts && !d.queue.attempts[x].terminal && !d.queue.attempts[x].state.Completed?
    ensures var all' := Cancel(d, sid, gateway, kill, now).queue.attempts; x in all' && !Bald(all'[x])
  {
    hide Amend;
    hide Bare;
  }

  lemma OthersComplete(c: Config, w: World, act: Act, x: Id)
    requires Sound(c, w) && Fresh(c, w, act) && !act.Monitor? && !act.Reconcile? && !act.DoCancel?
    requires x in w.d.queue.attempts && !w.d.queue.attempts[x].terminal && !w.d.queue.attempts[x].state.Completed?
    ensures var all' := Step(c, w, act).d.queue.attempts; x in all' && !all'[x].state.Completed?
  {
    hide StartsOk;
    hide JobsOk;
    hide OwnersOk;
    hide ShapeOk;
    hide WasStarted;
    hide SubmitReply;
    hide RetryReply;
    hide Advance;
    hide CanStart;
    hide OnHold;
    StepSound(c, w, act);
    if act.Dispatch? {
      AdvanceSpan(c, w.d, w.pc, act.o);
    } else if SessionAct(act) {
      hide Step;
      var out := SessionShape(c, w, act);
    } else if act.CancelCrash? {
      MarkShape(w.d, act.sid);
    }
  }

  /** Exactly when a step completes an open attempt without evidence. */
  lemma UnprovedExactly(c: Config, w: World, act: Act, x: Id)
    requires Sound(c, w) && Plain(w) && Fresh(c, w, act)
    requires x in w.d.queue.attempts && !w.d.queue.attempts[x].terminal
    ensures var all' := Step(c, w, act).d.queue.attempts;
      x in all' && (Bald(all'[x]) <==> EndsUnproved(w.d, act, x))
  {
    hide Sound;
    hide Fresh;
    hide MonitorOne;
    hide ReconcileOne;
    hide Cancel;
    hide Advance;
    hide Submit;
    hide Retry;
    SoundShape(c, w);
    ShapeAt(w.d.queue.attempts, x);
    match act
    case Monitor(sid, obs, p, now) => MonitorCompletes(w.d, sid, obs, p, now, x);
    case Reconcile(sid, obs, exit, now) => ReconcileCompletes(w.d, sid, obs, exit, now, x);
    case DoCancel(sid, gateway, kill, now) => CancelCompletes(w.d, sid, gateway, kill, now, x);
    case _ =>
      hide Step;
      OthersComplete(c, w, act, x);
  }
}
