/** The control plane itself: service calls, dispatcher and monitor, written
    against the stores they change. Each call does what the specification
    function of the same name says. */
module ControlPlane {
  import opened Prelude
  import opened Records
  import opened Scheduling
  import opened Engine
  import opened Service
  import opened Lifecycle
  import opened Dispatching
  import opened Reconciliation
  import opened Monitoring
  import opened Stores

  /** `sessions` is the registry, `evidence` the bundle store, `emitted` the
      volatile set of finalised sessions; `log` is history only. */
  class Plane {
    const c: Config
    const scheduler: Scheduler
    const store: PayloadStore
    var sessions: map<Id, Session>
    var evidence: map<BundleId, Bundle>
    var emitted: set<Id>
    ghost var log: Log

    ghost predicate Valid()
      reads this
    {
      scheduler.c == c && store.sha == c.sha
    }

    ghost function Contents(): Data
      reads this, scheduler, store
    {
      Data(Queue(scheduler.attempts, scheduler.jobs), sessions, store.files, evidence, emitted, log)
    }

    constructor (c: Config)
      ensures Valid() && Contents() == Init().d && this.c == c
      ensures fresh(scheduler) && fresh(store)
    {
      this.c := c;
      scheduler := new Scheduler(c);
      store := new PayloadStore(c.sha);
      sessions, evidence, emitted, log := map[], map[], {}, Log([], [], map[]);
    }

    // ---- submit and retry ----

    method CheckSubmit(r: Request, jobId: Id, repoOk: bool) returns (reply: Reply)
      requires Valid()
      ensures reply == SubmitReply(c, Contents().queue, r, jobId, repoOk)
    {
      hide SafeIdent;
      if r.harness !in c.adapters { return Refused(UnknownHarness); }
      if r.attemptId in scheduler.attempts { return Refused(DuplicateAttempt); }
      if !repoOk { return Refused(RepoNotAllowed); }
      if !SafeIdent(r.taskId) || !SafeIdent(r.attemptId) { return Refused(InvalidIdentifier); }
      return Enqueued(jobId, r.attemptId);
    }

    /** Payload, job and attempt are written in this order; the attempt is
        written once as created and once as queued. */
    method Submit(r: Request, jobId: Id, payloadId: Id, repoOk: bool, now: int) returns (reply: Reply)
      requires Valid()
      modifies this`log, scheduler, store
      ensures reply == SubmitReply(c, old(Contents()).queue, r, jobId, repoOk)
      ensures Contents() == Service.Submit(c, old(Contents()), r, jobId, payloadId, repoOk, now)
    {
      hide SubmitReply;
      reply := CheckSubmit(r, jobId, repoOk);
      if reply.Refused? { return; }
      store.Put(payloadId, r.prompt);
      scheduler.SaveJob(jobId, NewJob(c, r, payloadId));
      var attempt := NewAttempt(jobId, r.harness, "", now).(state := AState.Created);
      scheduler.SaveAttempt(r.attemptId, attempt);
      attempt := attempt.(state := AState.Queued);
      scheduler.SaveAttempt(r.attemptId, attempt);
      log := log.(prompts := log.prompts[jobId := r.prompt]);
    }

    /** The first attempt of the list with the key. */
    method FindKey(ids: seq<Id>, key: string) returns (r: Option<Id>)
      ensures r == WithKey(scheduler.attempts, ids, key)
    {
      for i := 0 to |ids|
        invariant WithKey(scheduler.attempts, ids, key) == WithKey(scheduler.attempts, ids[i..], key)
      {
        if ids[i] in scheduler.attempts && scheduler.attempts[ids[i]].key.idemKey == key { return Some(ids[i]); }
        assert ids[i..][1..] == ids[i + 1..];
      }
      return None;
    }

    method CheckRetry(jobId: Id, newId: Option<Id>, key: string) returns (reply: Reply)
      requires Valid()
      ensures reply == RetryReply(c, Contents(), jobId, newId, key)
    {
      hide SafeIdent;
      hide LoadPayload;
      hide WithKey;
      if jobId !in scheduler.jobs { return Refused(UnknownJob); }
      var job := scheduler.jobs[jobId];
      if key != "" {
        var earlier := FindKey(job.attempts, key);
        if earlier.Some? { return Duplicate(earlier.value); }
      }
      if !JobEnded(job.state) { return Refused(NotTerminal); }
      var file := store.Get(c, job.spec.payloadRef);
      if file.None? { return Refused(PayloadError); }
      if file.value.hash != job.spec.contentHash { return Refused(PayloadHashMismatch); }
      var aid := if newId.Some? then newId.value else "retry_" + Digits(|job.attempts|);
      if !SafeIdent(job.spec.taskId) || !SafeIdent(aid) { return Refused(InvalidIdentifier); }
      if aid in job.attempts { return Refused(DuplicateAttempt); }
      return Enqueued(jobId, aid);
    }

    method Retry(jobId: Id, newId: Option<Id>, key: string, now: int) returns (reply: Reply)
      requires Valid()
      modifies scheduler
      ensures reply == RetryReply(c, old(Contents()), jobId, newId, key)
      ensures Contents() == Service.Retry(c, old(Contents()), jobId, newId, key, now)
    {
      hide RetryReply;
      reply := CheckRetry(jobId, newId, key);
      if !reply.Enqueued? { return; }
      var aid := reply.attemptId;
      var job := scheduler.jobs[jobId];
      var attempt := NewAttempt(jobId, job.spec.harness, key, now).(state := AState.Created);
      scheduler.SaveAttempt(aid, attempt);
      job := job.(attempts := job.attempts + [aid], state := JState.Queued,
                  result := Result(None, NoReason, job.result.refs));
      scheduler.SaveJob(jobId, job);
      attempt := attempt.(state := AState.Queued);
      scheduler.SaveAttempt(aid, attempt);
    }

    // ---- the start of one claimed attempt ----

    /** Attempt and job are closed by two writes. */
    method FailStart(aid: Id, a: Attempt, j: Job, reason: Reason)
      modifies scheduler
      ensures Contents() == SaveJob(Fail(old(Contents()), aid, a, j, reason).0, a.key.jobId, FailJob(j, reason))
    {
      var attempt := a.(state := AState.Failed, terminal := true, result := a.result.(reason := reason));
      scheduler.SaveAttempt(aid, attempt);
      var job := j.(state := JState.Failed, result := j.result.(reason := reason));
      scheduler.SaveJob(a.key.jobId, job);
    }

    /** A held attempt is written with its retry time, then released. */
    method HoldBack(aid: Id, a: Attempt, until: int)
      modifies scheduler
      ensures Contents() == SaveAttempts(old(Contents()), Release(old(scheduler.attempts)[aid := HeldRecord(a, until)], aid))
    {
      scheduler.SaveAttempt(aid, a.(claim := a.claim.(held := true, retryAfter := Some(until))));
      scheduler.ReleaseClaim(aid);
    }

    /** The session is registered, then attempt and job are bound to it. */
    method Enrol(aid: Id, a: Attempt, j: Job, g: Gateway, now: int)
      requires g.StartOk?
      modifies this`sessions, scheduler
      ensures Contents() == Enrolled(c, old(Contents()), aid, a, j, g, now)
    {
      hide NewSession;
      sessions := sessions[g.sid := NewSession(c, aid, j, g, now)];
      scheduler.SaveAttempt(aid, a.(sessionId := g.sid));
      scheduler.SaveJob(a.key.jobId, j.(state := JState.Running));
    }

    /** From the persisted RUNNING state on: payload, gateway, bookkeeping. */
    method Start(aid: Id, a: Attempt, j: Job, o: Oracle) returns (raised: bool)
      requires Valid()
      modifies this, scheduler
      ensures Contents() == Finish(c, old(Contents()), Prepared(aid, a, j), o)
      ensures raised == (PayloadIntact(c, store.files, j) && o.gateway.StartRaised?)
    {
      hide Finish;
      hide Enrolled;
      hide LoadPayload;
      hide Fail;
      ghost var d := Contents();
      FinishPrepared(c, d, aid, a, j, o);
      var file := store.Get(c, j.spec.payloadRef);
      if file.None? {
        FailStart(aid, a, j, PayloadFailed);
        return false;
      }
      if file.value.hash != j.spec.contentHash {
        FailStart(aid, a, j, PayloadMismatch);
        return false;
      }
      log := log.(starts := log.starts + [Records.Start(aid, a.key.jobId, file.value.instructions)]);
      match o.gateway
      case StartRaised => return true;
      case StartFailed(message) => FailStart(aid, a, j, Reason.Gateway(message)); return false;
      case StartOk(_, _, _, _) => Enrol(aid, a, j, o.gateway, o.now); return false;
    }

    /** The dispatcher's start of one claimed attempt. The two errors nobody
        handles come back as `raised`. */
    method DispatchClaimed(aid: Id, o: Oracle) returns (raised: bool)
      requires Valid()
      modifies this, scheduler
      ensures Contents() == Finish(c, old(Contents()), Pc.Claimed(aid), o)
      ensures raised == Raises(c, old(Contents()), aid, o)
    {
      hide Finish;
      hide LoadPayload;
      hide Release;
      hide Fail;
      ghost var d := Contents();
      FinishClaimed(c, d, aid, o);
      if aid !in scheduler.attempts || !scheduler.attempts[aid].state.Claimed? { return false; }
      var a := scheduler.attempts[aid];
      if a.key.jobId !in scheduler.jobs { return false; }
      var j := scheduler.jobs[a.key.jobId];
      if j.spec.local && !o.ready {
        HoldBack(aid, a, o.now + o.backoff);
        return false;
      }
      match o.repo
      case RepoError => return true;
      case WorktreeError => FailStart(aid, a, j, WorktreeFailed); return false;
      case Snapshot =>
        a := a.(state := AState.Running);
        scheduler.SaveAttempt(aid, a);
        raised := Start(aid, a, j, o);
    }

    /** One dispatcher pass: lost claims first, then every waiting attempt in
        order of creation; `listing` is the order of the queue file. */
    method DispatchOnce(listing: seq<Id>, owner: string, now: int, ask: Id -> Oracle)
      requires Valid()
      modifies this, scheduler
      ensures var d := SaveAttempts(old(Contents()), RecoverExpired(old(scheduler.attempts), now, c.leaseS));
        Contents() == Pass(c, d, owner, InOrder(d.queue.attempts, listing), ask).0
    {
      hide RecoverExpired;
      hide Pass;
      hide InOrder;
      hide PassOne;
      var _ := scheduler.RecoverExpiredClaims(now);
      ghost var d := Contents();
      var ids := InOrder(scheduler.attempts, listing);
      for i := 0 to |ids|
        invariant Pass(c, d, owner, ids, ask).0 == Pass(c, Contents(), owner, ids[i..], ask).0
      {
        PassUnfold(c, Contents(), owner, ids[i..], ask);
        assert ids[i..][1..] == ids[i + 1..];
        var raised := TakeTurn(owner, ids[i], ask(ids[i]));
        if raised { return; }
      }
      PassUnfold(c, Contents(), owner, [], ask);
    }

    /** Check, claim, start. */
    method TakeTurn(owner: string, aid: Id, o: Oracle) returns (raised: bool)
      requires Valid()
      modifies this, scheduler
      ensures (Contents(), raised) == PassOne(c, old(Contents()), owner, aid, o)
    {
      hide Finish;
      hide Raises;
      hide CanStart;
      hide OnHold;
      if aid !in scheduler.attempts { return false; }
      var can := scheduler.MayStart(scheduler.attempts[aid].key.harness);
      if !can { return false; }
      var claimed := scheduler.Claim(aid, owner, o.now);
      if claimed.None? { return false; }
      raised := DispatchClaimed(aid, o);
    }

    // ---- closing attempts ----

    /** Attempt first, then its job; a closed attempt is left alone. */
    method CloseAttempt(aid: Id, o: Outcome)
      requires Ended(o.state)
      modifies scheduler
      ensures Contents() == old(Contents()).(queue := Settle(old(Contents()).queue, aid, o))
    {
      hide Amend;
      if aid !in scheduler.attempts || scheduler.attempts[aid].terminal { return; }
      var a := scheduler.attempts[aid];
      scheduler.SaveAttempt(aid, a.(state := o.state, terminal := true, result := Amend(a.result, o)));
      if a.key.jobId in scheduler.jobs {
        var j := scheduler.jobs[a.key.jobId];
        if !(o.guarded && j.state.Completed?) {
          scheduler.SaveJob(a.key.jobId, j.(state := Mirror(o.state), result := Amend(j.result, o)));
        }
      }
    }

    // ---- the monitor ----

    /** Exactly once per session, as long as the process lives. */
    method FinalizeSession(sid: Id, state: SState, o: Outcome, kind: EventKind, exit: Option<int>, now: int)
      requires sid in sessions && Ended(o.state)
      modifies this, scheduler
      ensures Contents() == Finalize(old(Contents()), sid, state, o, kind, exit, now)
    {
      hide Settle;
      if sid in emitted { return; }
      var ss := sessions[sid];
      ss := ss.(state := state, endedAt := Some(now));
      sessions := sessions[sid := ss];
      CloseAttempt(ss.key.attemptId, o);
      emitted := emitted + {sid};
      log := log.(events := log.events + [Event(kind, sid, ss.key.attemptId, exit)]);
    }

    /** The exit code, from the first source that knows it. */
    method FindExit(ss: Session, p: Probe) returns (exit: Option<int>)
      ensures exit == RecoverExit(ss, StoredExit(Contents().queue, ss.key.attemptId), p)
    {
      exit := None;
      if ss.key.adapterBound && p.collected.Some? { exit := p.collected.value.exit; }
      if exit.None? && ss.key.attemptId in scheduler.attempts {
        exit := scheduler.attempts[ss.key.attemptId].result.exit;
      }
      if exit.None? && ss.key.scoped { exit := p.scopeExit; }
      if exit.None? && ss.key.fixture && p.acceptance { exit := p.fixtureExit; }
    }

    method ProcessGone(sid: Id, p: Probe, now: int) returns (raised: bool)
      requires sid in sessions
      modifies this, scheduler
      ensures Contents() == HandleGone(old(Contents()), sid, p, now)
      ensures raised == old(GoneRaises(sessions[sid], p))
    {
      hide Finalize;
      hide RecoverExit;
      hide MarkedInvalid;
      hide HashedArtifacts;
      hide ArtifactRefs;
      hide ValidBundle;
      hide Tail;
      var ss := sessions[sid];
      var exit := FindExit(ss, p);
      var artifacts := HashArtifacts(ArtifactsHeard(ss, p), p.digests);
      if artifacts.None? { return true; }
      raised := false;
      var b := Bundle(true, BundleKey(Queue(scheduler.attempts, scheduler.jobs), sid, ss.key.attemptId), sid, exit,
                      artifacts.value, MarkedInvalid(ss, p));
      var refs := ArtifactRefs(ArtifactsHeard(ss, p));
      var valid := false;
      if p.writable {
        evidence := evidence[b.id := b];
        refs := [Evidence(b.id)] + refs;
        valid := Validate(b);
      }
      assert refs == BundleRefs(b, p.writable, ss, p);
      if !valid {
        FinalizeSession(sid, SState.Failed, Outcome(AState.Failed, EvidenceInvalid, Some(exit), refs, false),
                        SessionFailed, exit, now);
      } else if exit != Some(0) {
        FinalizeSession(sid, SState.Failed, Outcome(AState.Failed, ExitedWith(exit), Some(exit), refs, false),
                        SessionFailed, exit, now);
      } else {
        FinalizeSession(sid, SState.Completed, Outcome(AState.Completed, ExitedNormally, Some(exit), refs, false),
                        SessionCompleted, exit, now);
      }
    }

    method MonitorSession(sid: Id, obs: Obs, p: Probe, now: int) returns (raised: bool)
      modifies this, scheduler
      ensures Contents() == MonitorOne(old(Contents()), sid, obs, p, now)
      ensures raised == LookRaises(old(Contents()), sid, obs, p)
    {
      hide GoneRaises;
      raised := false;
      hide Finalize;
      hide HandleGone;
      hide Settle;
      if sid !in sessions || !sessions[sid].key.managed { return; }
      var ss := sessions[sid];
      var aid := ss.key.attemptId;
      if aid in scheduler.attempts && scheduler.attempts[aid].terminal { return; }
      if ss.state.Cancelled? || ss.state.Failed? || ss.state.Lost? {
        if aid in scheduler.attempts {
          CloseAttempt(aid, SessionOutcome(ss.state));
          emitted := emitted + {sid};
        }
        return;
      }
      if !ss.key.hasProc { return; }
      if MonitorGone(obs) {
        raised := ProcessGone(sid, p, now);
        return;
      }
      if Overdue(ss.key, now) {
        FinalizeSession(sid, SState.Failed, Outcome(AState.TimedOut, DeadlinePassed, Some(None), [], false),
                        SessionTimedOut, None, now);
        return;
      }
      if !ss.state.Running? { ss := ss.(state := SState.Running); }
      sessions := sessions[sid := ss];
    }

    /** The pass over all sessions; `looks` counts those it came to. */
    method MonitorOnce(sids: seq<Id>, see: Sight, probes: Id -> Probe, now: int) returns (looks: nat)
      modifies this, scheduler
      ensures (Contents(), looks) == MonitorAll(old(Contents()), sids, see, probes, now)
    {
      hide MonitorOne;
      hide LookRaises;
      looks := 0;
      for i := 0 to |sids|
        invariant looks == i
        invariant MonitorAll(old(Contents()), sids, see, probes, now)
               == (MonitorAll(Contents(), sids[i..], see, probes, now).0,
                   i + MonitorAll(Contents(), sids[i..], see, probes, now).1)
      {
        assert sids[i..][1..] == sids[i + 1..];
        ghost var d := Contents();
        var raised := MonitorSession(sids[i], see(sids[i]), probes(sids[i]), now);
        looks := looks + 1;
        if raised {
          RaisedLook(d, sids[i], see(sids[i]), probes(sids[i]), now);
          return;
        }
      }
    }

    // ---- operator calls on sessions ----

    method FinishCancel(sid: Id, now: int)
      requires sid in sessions
      modifies this, scheduler
      ensures Contents() == CancelDone(old(Contents()), sid, now)
    {
      hide Settle;
      var ss := sessions[sid];
      ss := ss.(state := SState.Cancelled, endedAt := Some(now));
      sessions := sessions[sid := ss];
      CloseAttempt(ss.key.attemptId, Follow(AState.Cancelled, ss.state));
      log := log.(events := log.events + [Event(SessionCancelled, sid, ss.key.attemptId, None)]);
    }

    /** The marker is written before anything is killed, and taken back when
        neither kill worked. */
    method Cancel(sid: Id, gateway: bool, kill: bool, now: int)
      modifies this, scheduler
      ensures Contents() == Service.Cancel(old(Contents()), sid, gateway, kill, now)
    {
      hide Settle;
      if sid !in sessions { return; }
      var ss := sessions[sid];
      if !ss.key.managed { return; }
      if SessionEnded(ss.state) { return; }
      ghost var before := sessions;
      sessions := sessions[sid := ss.(state := SState.CancelRequested)];
      if gateway || (ss.key.scoped && ss.key.hasProc && kill) {
        FinishCancel(sid, now);
        assert before[sid := ss.(state := SState.CancelRequested)][sid := ss.(state := SState.Cancelled, endedAt := Some(now))]
            == before[sid := ss.(state := SState.Cancelled, endedAt := Some(now))];
      } else {
        sessions := sessions[sid := ss];
        assert sessions == before;
      }
    }

    method ReconcileSession(sid: Id, obs: Obs, exit: Option<int>, now: int)
      modifies this, scheduler
      ensures Contents() == ReconcileOne(old(Contents()), sid, obs, exit, now)
    {
      hide Settle;
      if sid !in sessions { return; }
      var ss := sessions[sid];
      if !ss.key.managed || !ss.key.hasProc { return; }
      if obs.NoProcess? {
        if ss.state.CancelRequested? {
          FinishCancel(sid, now);
        } else if !SessionEnded(ss.state) {
          var failed := exit.Some? && exit.value != 0;
          ss := ss.(exitCode := exit, state := if failed then SState.Failed else SState.Completed, endedAt := Some(now));
          sessions := sessions[sid := ss];
          CloseAttempt(ss.key.attemptId, Follow(if failed then AState.Failed else AState.Completed, ss.state));
        }
      } else if Matches(obs) {
        if !ss.state.CancelRequested? { sessions := sessions[sid := ss.(state := SState.Running)]; }
      } else {
        sessions := sessions[sid := ss.(state := SState.Lost, endedAt := Some(now))];
      }
    }

    method Reconcile(sids: seq<Id>, see: Sight, exits: Exits, now: int)
      modifies this, scheduler
      ensures Contents() == ReconcileAll(old(Contents()), sids, see, exits, now)
    {
      hide ReconcileOne;
      for i := 0 to |sids|
        invariant ReconcileAll(old(Contents()), sids, see, exits, now) == ReconcileAll(Contents(), sids[i..], see, exits, now)
      {
        assert sids[i..][1..] == sids[i + 1..];
        ReconcileSession(sids[i], see(sids[i]), exits(sids[i]), now);
      }
    }

    method QueryStatus(sid: Id, obs: Obs, now: int)
      modifies this`sessions
      ensures Contents() == Status(old(Contents()), sid, obs, now)
    {
      if sid !in sessions { return; }
      var ss := sessions[sid];
      if !ss.key.managed || !ss.key.hasProc { return; }
      if obs.NoProcess? {
        if !SessionEnded(ss.state) && !ss.state.CancelRequested? {
          sessions := sessions[sid := ss.(state := SState.Completed, endedAt := Some(now))];
        }
        return;
      }
      if !Matches(obs) { sessions := sessions[sid := ss.(state := SState.Lost, endedAt := Some(now))]; }
    }

    method Observe(sid: Id)
      modifies this`sessions
      ensures Contents() == ObserveExternal(old(Contents()), sid)
    {
      sessions := sessions[sid := ExternalSession()];
    }
  }

  lemma PassUnfold(c: Config, d: Data, owner: string, ids: seq<Id>, ask: Id -> Oracle)
    ensures Pass(c, d, owner, ids, ask).0
         == if ids == [] then d
            else if PassOne(c, d, owner, ids[0], ask(ids[0])).1 then PassOne(c, d, owner, ids[0], ask(ids[0])).0
            else Pass(c, PassOne(c, d, owner, ids[0], ask(ids[0])).0, owner, ids[1..], ask).0
  {
    hide PassOne;
  }

  // ---- the dispatcher's writes, summed up ----

  function Enrolled(c: Config, d: Data, aid: Id, a: Attempt, j: Job, g: Gateway, now: int): Data
    requires g.StartOk?
  {
    SaveJob(SaveAttempt(d.(sessions := d.sessions[g.sid := NewSession(c, aid, j, g, now)]), aid, a.(sessionId := g.sid)),
            a.key.jobId, j.(state := JState.Running))
  }

  function Failed(d: Data, aid: Id, a: Attempt, j: Job, reason: Reason): Data {
    SaveJob(Fail(d, aid, a, j, reason).0, a.key.jobId, FailJob(j, reason))
  }

  predicate PayloadIntact(c: Config, files: map<Id, PayloadFile>, j: Job) {
    && LoadPayload(c, files, j.spec.payloadRef).Some?
    && LoadPayload(c, files, j.spec.payloadRef).value.hash == j.spec.contentHash
  }

  lemma FinishStep(c: Config, d: Data, pc: Pc, o: Oracle)
    requires Rank(pc) > 0
    ensures Finish(c, d, pc, o) == Finish(c, Advance(c, d, pc, o).0, Advance(c, d, pc, o).1, o)
  {
    hide Advance;
    AdvanceRanks(c, d, pc, o);
  }

  lemma FinishFail(c: Config, d: Data, aid: Id, a: Attempt, j: Job, reason: Reason, o: Oracle)
    ensures Finish(c, Fail(d, aid, a, j, reason).0, Fail(d, aid, a, j, reason).1, o) == Failed(d, aid, a, j, reason)
  {
    hide Finish;
    var (d1, pc1) := Fail(d, aid, a, j, reason);
    FinishStep(c, d1, pc1, o);
    FinishDone(c, SaveJob(d1, a.key.jobId, FailJob(j, reason)), o);
  }

  lemma FinishStarted(c: Config, d: Data, aid: Id, a: Attempt, j: Job, g: Gateway, o: Oracle)
    ensures Finish(c, d, Started(aid, a, j, g), o)
         == match g
            case StartRaised => d
            case StartFailed(message) => Failed(d, aid, a, j, Reason.Gateway(message))
            case StartOk(_, _, _, _) => Enrolled(c, d, aid, a, j, g, o.now)
  {
    hide Finish;
    hide Fail;
    hide Failed;
    hide NewSession;
    FinishStep(c, d, Started(aid, a, j, g), o);
    match g
    case StartRaised => FinishDone(c, d, o);
    case StartFailed(message) => FinishFail(c, d, aid, a, j, Reason.Gateway(message), o);
    case StartOk(sid, _, _, _) =>
      var d1 := d.(sessions := d.sessions[sid := NewSession(c, aid, j, g, o.now)]);
      FinishStep(c, d1, Registered(aid, a, j, sid), o);
      var d2 := SaveAttempt(d1, aid, a.(sessionId := sid));
      FinishStep(c, d2, Bound(aid, a.key.jobId, j.(state := JState.Running), sid), o);
      FinishDone(c, Enrolled(c, d, aid, a, j, g, o.now), o);
  }

  lemma FinishPrepared(c: Config, d: Data, aid: Id, a: Attempt, j: Job, o: Oracle)
    ensures var file := LoadPayload(c, d.payloads, j.spec.payloadRef);
      Finish(c, d, Prepared(aid, a, j), o)
      == if file.None? then Failed(d, aid, a, j, PayloadFailed)
         else if file.value.hash != j.spec.contentHash then Failed(d, aid, a, j, PayloadMismatch)
         else
           var d1 := d.(log := d.log.(starts := d.log.starts + [Records.Start(aid, a.key.jobId, file.value.instructions)]));
           match o.gateway
           case StartRaised => d1
           case StartFailed(message) => Failed(d1, aid, a, j, Reason.Gateway(message))
           case StartOk(_, _, _, _) => Enrolled(c, d1, aid, a, j, o.gateway, o.now)
  {
    hide Finish;
    hide Fail;
    hide Failed;
    hide Enrolled;
    hide LoadPayload;
    var file := LoadPayload(c, d.payloads, j.spec.payloadRef);
    FinishStep(c, d, Prepared(aid, a, j), o);
    FinishFail(c, d, aid, a, j, PayloadFailed, o);
    FinishFail(c, d, aid, a, j, PayloadMismatch, o);
    if file.Some? && file.value.hash == j.spec.contentHash {
      FinishStarted(c, d.(log := d.log.(starts := d.log.starts + [Records.Start(aid, a.key.jobId, file.value.instructions)])),
                    aid, a, j, o.gateway, o);
    }
  }

  lemma FinishClaimed(c: Config, d: Data, aid: Id, o: Oracle)
    ensures Finish(c, d, Pc.Claimed(aid), o)
         == if aid !in d.queue.attempts || !d.queue.attempts[aid].state.Claimed? then d
            else
              var a := d.queue.attempts[aid];
              if a.key.jobId !in d.queue.jobs then d
              else
                var j := d.queue.jobs[a.key.jobId];
                if j.spec.local && !o.ready
                then SaveAttempts(d, Release(d.queue.attempts[aid := HeldRecord(a, o.now + o.backoff)], aid))
                else if o.repo.RepoError? then d
                else if o.repo.WorktreeError? then Failed(d, aid, a, j, WorktreeFailed)
                else
                  var running := a.(state := AState.Running);
                  Finish(c, SaveAttempt(d, aid, running), Prepared(aid, running, j), o)
  {
    hide Finish;
    hide Fail;
    hide Failed;
    hide Release;
    FinishStep(c, d, Pc.Claimed(aid), o);
    FinishDone(c, d, o);
    if aid in d.queue.attempts && d.queue.attempts[aid].key.jobId in d.queue.jobs {
      var a := d.queue.attempts[aid];
      var j := d.queue.jobs[a.key.jobId];
      FinishFail(c, d, aid, a, j, WorktreeFailed, o);
      var held := SaveAttempt(d, aid, HeldRecord(a, o.now + o.backoff));
      FinishStep(c, held, Holding(aid), o);
      FinishDone(c, SaveAttempts(d, Release(held.queue.attempts, aid)), o);
    }
  }

  // ---- passes as runs ----

  function ReconcileActs(sids: seq<Id>, see: Sight, exits: Exits, now: int): seq<Act> {
    if sids == [] then []
    else [Act.Reconcile(sids[0], see(sids[0]), exits(sids[0]), now)] + ReconcileActs(sids[1..], see, exits, now)
  }

  /** The reconciliation pass is a run of its looks. */
  lemma {:induction false} ReconcileAllIsRun(c: Config, w: World, sids: seq<Id>, see: Sight, exits: Exits, now: int)
    ensures Run(c, w, ReconcileActs(sids, see, exits, now)) == w.(d := ReconcileAll(w.d, sids, see, exits, now))
    decreases |sids|
  {
    hide ReconcileOne;
    if sids != [] {
      var act := Act.Reconcile(sids[0], see(sids[0]), exits(sids[0]), now);
      var acts := ReconcileActs(sids, see, exits, now);
      assert acts[0] == act && acts[1..] == ReconcileActs(sids[1..], see, exits, now);
      ReconcileAllIsRun(c, Step(c, w, act), sids[1..], see, exits, now);
    }
  }

  /** A dispatcher pass with its lease recovery is a run, too. */
  lemma DispatchOnceIsRun(c: Config, w: World, listing: seq<Id>, owner: string, now: int, ask: Id -> Oracle)
    requires w.pc.Idle?
    ensures var d := SaveAttempts(w.d, RecoverExpired(w.d.queue.attempts, now, c.leaseS));
      var ids := InOrder(d.queue.attempts, listing);
      Run(c, w, [Recover(now)] + PassActs(c, d, owner, ids, ask)) == World(Pass(c, d, owner, ids, ask).0, Idle, w.torn)
  {
    hide RecoverExpired;
    hide Pass;
    hide PassActs;
    hide InOrder;
    var w1 := Step(c, w, Recover(now));
    var ids := InOrder(w1.d.queue.attempts, listing);
    var acts := PassActs(c, w1.d, owner, ids, ask);
    assert ([Recover(now)] + acts)[0] == Recover(now) && ([Recover(now)] + acts)[1..] == acts;
    PassIsRun(c, w1, owner, ids, ask);
  }

  // ---- a start that raises ----

  /** A claimed attempt is still CLAIMED after its turn exactly when its job is
      gone, or the start was not held and the repository could not be resolved. */
  lemma ClaimKeptExactly(c: Config, d: Data, aid: Id, o: Oracle)
    requires aid in d.queue.attempts && d.queue.attempts[aid].state.Claimed?
    ensures var a := d.queue.attempts[aid];
      var all' := Finish(c, d, Pc.Claimed(aid), o).queue.attempts;
      && aid in all'
      && (all'[aid].state.Claimed? <==>
            a.key.jobId !in d.queue.jobs || ((!d.queue.jobs[a.key.jobId].spec.local || o.ready) && o.repo.RepoError?))
  {
    hide Finish;
    hide LoadPayload;
    FinishClaimed(c, d, aid, o);
    var a := d.queue.attempts[aid];
    if a.key.jobId in d.queue.jobs {
      var running := a.(state := AState.Running);
      FinishPrepared(c, SaveAttempt(d, aid, running), aid, running, d.queue.jobs[a.key.jobId], o);
    }
  }

  /** The two errors that end a pass: one leaves the attempt CLAIMED until its
      lease runs out, the other leaves it RUNNING without a session. */
  lemma RaisedLeaves(c: Config, d: Data, aid: Id, o: Oracle)
    requires Raises(c, d, aid, o)
    ensures var d' := Finish(c, d, Pc.Claimed(aid), o);
      && aid in d'.queue.attempts && d'.queue.jobs == d.queue.jobs && d'.sessions == d.sessions
      && (if o.repo.RepoError? then d'.queue.attempts[aid] == d.queue.attempts[aid]
          else d'.queue.attempts[aid] == d.queue.attempts[aid].(state := AState.Running))
  {
    hide Finish;
    hide LoadPayload;
    FinishClaimed(c, d, aid, o);
    var a := d.queue.attempts[aid];
    var running := a.(state := AState.Running);
    FinishPrepared(c, SaveAttempt(d, aid, running), aid, running, d.queue.jobs[a.key.jobId], o);
  }
}
