/** What one look at one session does, in terms of the recorded fingerprint, the
    process found under its pid, and the clock. */
module Looks {
  import opened Prelude
  import opened Records
  import opened Engine
  import opened Service

  /** A process under the recorded pid has that pid. */
  predicate UnderPid(recorded: Fingerprint, found: Option<Found>) {
    found.Some? ==> found.value.proc.pid == recorded.pid
  }

  /** The attempt of the session is known and over. */
  predicate Over(d: Data, sid: Id)
    requires sid in d.sessions
  {
    d.sessions[sid].key.attemptId in d.queue.attempts && d.queue.attempts[d.sessions[sid].key.attemptId].terminal
  }

  /** The monitor watches the session: it is managed, has a process, its attempt
      is open and it is not already cancelled, failed or lost. */
  predicate Watched(d: Data, sid: Id) {
    && sid in d.sessions && d.sessions[sid].key.managed && d.sessions[sid].key.hasProc && !Over(d, sid)
    && d.sessions[sid].state !in {SState.Cancelled, SState.Failed, SState.Lost}
  }

  /** A process of the recorded start time that is no zombie, or any other
      process under the pid. */
  predicate Alive(recorded: Fingerprint, found: Option<Found>) {
    found.Some? && (found.value.proc.start == recorded.start ==> !found.value.zombie)
  }

  /** The attempt, if it is known, ends so; and so does its job. */
  ghost predicate EndedSo(d: Data, d': Data, aid: Id, a: AState, j: JState) {
    aid in d.queue.attempts ==>
      && aid in d'.queue.attempts && d'.queue.attempts[aid].state == a && d'.queue.attempts[aid].terminal
      && var jobId := d.queue.attempts[aid].key.jobId;
         jobId in d.queue.jobs ==> jobId in d'.queue.jobs && d'.queue.jobs[jobId].state == j
  }

  // ---- the monitor ----

  /** A look at a live process emits session.timed_out if and only if there is a
      timeout, a start time, more time has passed since than the timeout, and
      the session was not told before; attempt and job then time out. In time
      the session is RUNNING after the look, and nothing else changes. */
  lemma TimesOutExactly(d: Data, sid: Id, recorded: Fingerprint, found: Option<Found>, p: Probe, now: int)
    requires Watched(d, sid) && UnderPid(recorded, found) && Alive(recorded, found)
    ensures var d' := MonitorOne(d, sid, Compare(recorded, found), p, now);
      var k := d.sessions[sid].key;
      var late := k.timeoutS != 0 && k.startedAt.Some? && now > k.startedAt.value + k.timeoutS;
      && (d'.log.events == d.log.events + [Event(SessionTimedOut, sid, k.attemptId, None)] <==> late && sid !in d.emitted)
      && (late && sid !in d.emitted ==>
            && d'.sessions == d.sessions[sid := d.sessions[sid].(state := SState.Failed, endedAt := Some(now))]
            && EndedSo(d, d', k.attemptId, AState.TimedOut, JState.TimedOut))
      && (late && sid in d.emitted ==> d' == d)
      && (!late ==> d' == d.(sessions := d.sessions[sid := d.sessions[sid].(state := SState.Running)]))
  {
    hide Amend;
    var events := d.log.events;
    assert events != events + [Event(SessionTimedOut, sid, d.sessions[sid].key.attemptId, None)];
  }

  /** A session that is not watched is never timed out, nor put to RUNNING. */
  lemma UnwatchedLook(d: Data, sid: Id, obs: Obs, p: Probe, now: int)
    requires !Watched(d, sid)
    ensures var d' := MonitorOne(d, sid, obs, p, now);
      d'.log.events == d.log.events && d'.sessions == d.sessions && d'.evidence == d.evidence
  {
    hide Settle;
    hide HandleGone;
  }

  /** A missing process, or a zombie of the recorded start time, ends the
      session by its evidence: COMPLETED if and only if the bundle could be
      written, carries no mark of invalid evidence, has exit code 0, and every
      artifact has a non-empty path; FAILED otherwise. */
  lemma GoneEnds(d: Data, sid: Id, recorded: Fingerprint, found: Option<Found>, p: Probe, now: int)
    requires Watched(d, sid) && UnderPid(recorded, found) && !Alive(recorded, found) && sid !in d.emitted
    requires !GoneRaises(d.sessions[sid], p)
    requires forall path :: path in p.digests ==> p.digests[path] != ""
    ensures var d' := MonitorOne(d, sid, Compare(recorded, found), p, now);
      var aid := d.sessions[sid].key.attemptId;
      var ss := d.sessions[sid];
      var arts := ArtifactsHeard(ss, p);
      var exit := RecoverExit(ss, if aid in d.queue.attempts then d.queue.attempts[aid].result.exit else None, p);
      var marked := (ss.key.adapterBound && p.collected.Some? && p.collected.value.invalid)
                    || (ss.key.fixture && p.acceptance && p.fixtureInvalid);
      var good := p.writable && !marked && exit == Some(0)
                  && (forall i :: 0 <= i < |arts| ==> arts[i].0 != Some(""));
      && sid in d'.sessions
      && (if good
          then d'.sessions[sid].state == SState.Completed && EndedSo(d, d', aid, AState.Completed, JState.Completed)
               && d'.log.events == d.log.events + [Event(SessionCompleted, sid, aid, Some(0))]
          else d'.sessions[sid].state == SState.Failed && EndedSo(d, d', aid, AState.Failed, JState.Failed)
               && d'.log.events == d.log.events + [Event(SessionFailed, sid, aid, exit)])
  {
    hide RecoverExit;
    hide Finalize;
    hide Tail;
    hide EndedSo;
    hide BundleRefs;
    hide BuildBundle;
    hide ValidBundle;
    var ss := d.sessions[sid];
    BundleSays(d, sid, p);
    var b := BuildBundle(d.queue, sid, ss, p);
    var v := Judge(b, p.writable, BundleRefs(b, p.writable, ss, p));
    var d0 := if p.writable then d.(evidence := d.evidence[b.id := b]) else d;
    if v.state == SState.Completed {
      FinalizeEnds(d, d0, sid, v.state, v.outcome, v.kind, b.exitCode, now, JState.Completed);
    } else {
      FinalizeEnds(d, d0, sid, v.state, v.outcome, v.kind, b.exitCode, now, JState.Failed);
    }
  }

  lemma BundleSays(d: Data, sid: Id, p: Probe)
    requires sid in d.sessions && !GoneRaises(d.sessions[sid], p)
    requires forall path :: path in p.digests ==> p.digests[path] != ""
    ensures var ss := d.sessions[sid];
      var aid := ss.key.attemptId;
      var arts := ArtifactsHeard(ss, p);
      var b := BuildBundle(d.queue, sid, ss, p);
      var marked := (ss.key.adapterBound && p.collected.Some? && p.collected.value.invalid)
                    || (ss.key.fixture && p.acceptance && p.fixtureInvalid);
      && b.exitCode == RecoverExit(ss, if aid in d.queue.attempts then d.queue.attempts[aid].result.exit else None, p)
      && (ValidBundle(b) <==> !marked && b.exitCode.Some? && forall i :: 0 <= i < |arts| ==> arts[i].0 != Some(""))
  {
    hide RecoverExit;
    hide Tail;
    BundleArtifacts(ArtifactsHeard(d.sessions[sid], p), p.digests);
  }

  lemma FinalizeEnds(d: Data, d0: Data, sid: Id, state: SState, o: Outcome, kind: EventKind, exit: Option<int>,
        now: int, j: JState)
    requires d0 == d.(evidence := d0.evidence) && Watched(d, sid) && sid !in d.emitted && !o.guarded
    requires (o.state == AState.Completed && j == JState.Completed) || (o.state == AState.Failed && j == JState.Failed)
    ensures var d' := Finalize(d0, sid, state, o, kind, exit, now);
      && sid in d'.sessions && d'.sessions[sid].state == state && EndedSo(d, d', d.sessions[sid].key.attemptId, o.state, j)
      && d'.log.events == d.log.events + [Event(kind, sid, d.sessions[sid].key.attemptId, exit)]
  {
    hide Amend;
  }

  /** Of readable files that hash to something, only the paths matter. */
  lemma {:induction false} BundleArtifacts(arts: Artifacts, digests: map<string, string>)
    requires AllNamed(arts) && forall path :: path in digests ==> digests[path] != ""
    ensures |HashedArtifacts(arts, digests)| == |arts|
    ensures forall i :: 0 <= i < |arts| ==>
      HashedArtifacts(arts, digests)[i].0 == arts[i].0.value && HashedArtifacts(arts, digests)[i].1 != Sha("")
  {
    if arts != [] { BundleArtifacts(arts[1..], digests); }
  }

  /** The result references of a finished process: the stored bundle first, then
      one for each artifact with a non-empty path, in order. */
  lemma {:induction false} RefsAre(arts: Artifacts, r: Ref)
    ensures r in ArtifactRefs(arts)
       <==> exists i :: 0 <= i < |arts| && arts[i].0.Some? && arts[i].0.value != ""
                    && r == Artifact(arts[i].0.value + "#" + arts[i].1)
  {
    if arts != [] {
      RefsAre(arts[1..], r);
      assert forall i :: 1 <= i < |arts| ==> arts[i] == arts[1..][i - 1];
      assert forall i :: 0 <= i < |arts[1..]| ==> arts[1..][i] == arts[i + 1];
    }
  }

  /** The bundle is named after job and attempt, or after the session where the
      attempt is unknown, and after the last eight characters of the session. */
  lemma BundleNamed(q: Queue, sid: Id, ss: Session, p: Probe)
    requires !GoneRaises(ss, p)
    ensures var id := BuildBundle(q, sid, ss, p).id;
      && (ss.key.attemptId in q.attempts ==>
            id.jobId == q.attempts[ss.key.attemptId].key.jobId && id.attemptId == ss.key.attemptId)
      && (ss.key.attemptId !in q.attempts ==> id.jobId == "" && id.attemptId == sid)
      && (|sid| <= 8 ==> id.tail == sid)
      && (|sid| >= 8 ==> |id.tail| == 8 && exists front :: sid == front + id.tail)
  {
    hide RecoverExit;
    hide HashedArtifacts;
    hide MarkedInvalid;
    if |sid| >= 8 { assert sid == sid[..|sid| - 8] + Tail(sid); }
  }

  /** The outcome copied from an ended session. */
  lemma CopiedOutcome(s: SState)
    requires SessionEnded(s)
    ensures var o := SessionOutcome(s);
      && (o.state == AState.Cancelled <==> s == SState.Cancelled) && (o.state == AState.Completed <==> s == SState.Completed)
      && (o.state == AState.Failed <==> s in {SState.Failed, SState.Lost})
      && o.reason == SessionIs(s) && o.exit == None && o.refs == [] && !o.guarded
  {
  }

  /** A session that is cancelled, failed or lost takes a still open attempt and
      its job with it, and nothing is emitted. */
  lemma EndedSessionLook(d: Data, sid: Id, obs: Obs, p: Probe, now: int)
    requires sid in d.sessions && d.sessions[sid].key.managed && !Over(d, sid)
    requires d.sessions[sid].state in {SState.Cancelled, SState.Failed, SState.Lost}
    ensures var d' := MonitorOne(d, sid, obs, p, now);
      && d'.sessions == d.sessions && d'.log == d.log && d'.evidence == d.evidence
      && (if d.sessions[sid].state == SState.Cancelled
          then EndedSo(d, d', d.sessions[sid].key.attemptId, AState.Cancelled, JState.Cancelled)
          else EndedSo(d, d', d.sessions[sid].key.attemptId, AState.Failed, JState.Failed))
  {
    hide Amend;
  }

  // ---- what closing an attempt leaves of its results ----

  /** Closing an open attempt writes its state, its reason and, where the outcome
      brings them, its exit code and references; what it does not bring stays.
      The job is written the same way, unless it is completed and the outcome
      spares completed jobs. Nothing else changes. */
  lemma SettleExactly(q: Queue, aid: Id, o: Outcome)
    requires Ended(o.state) && aid in q.attempts && !q.attempts[aid].terminal
    ensures var q', a := Settle(q, aid, o), q.attempts[aid];
      var exit := if o.exit.Some? then o.exit.value else a.result.exit;
      var refs := if o.refs != [] then o.refs else a.result.refs;
      && q'.attempts == q.attempts[aid := a.(state := o.state, terminal := true, result := Result(exit, o.reason, refs))]
      && q'.jobs.Keys == q.jobs.Keys
      && (forall j :: j in q.jobs && j != a.key.jobId ==> q'.jobs[j] == q.jobs[j])
    ensures var q', j := Settle(q, aid, o), q.attempts[aid].key.jobId;
      j in q.jobs ==>
        if o.guarded && q.jobs[j].state == JState.Completed then q'.jobs[j] == q.jobs[j]
        else
          && q'.jobs[j].spec == q.jobs[j].spec && q'.jobs[j].attempts == q.jobs[j].attempts
          && (q'.jobs[j].state == JState.Completed <==> o.state == AState.Completed)
          && (q'.jobs[j].state == JState.Failed <==> o.state == AState.Failed)
          && (q'.jobs[j].state == JState.Cancelled <==> o.state == AState.Cancelled)
          && (q'.jobs[j].state == JState.TimedOut <==> o.state == AState.TimedOut)
          && q'.jobs[j].result.reason == o.reason
          && q'.jobs[j].result.exit == (if o.exit.Some? then o.exit.value else q.jobs[j].result.exit)
          && q'.jobs[j].result.refs == (if o.refs != [] then o.refs else q.jobs[j].result.refs)
  {
  }

  // ---- reconciliation and status ----

  /** Reconciliation of a managed session with a recorded process: the very
      process recorded, with pid, start time and boot id all equal, leaves it
      RUNNING, or CANCEL_REQUESTED; any other process under the pid makes it
      LOST, and nothing else is touched; without a process it ends, as a
      requested cancel or by its exit code. */
  lemma ReconcileLook(d: Data, sid: Id, recorded: Fingerprint, found: Option<Found>, exit: Option<int>, now: int)
    requires sid in d.sessions && d.sessions[sid].key.managed && d.sessions[sid].key.hasProc && UnderPid(recorded, found)
    ensures var d' := ReconcileOne(d, sid, Compare(recorded, found), exit, now);
      var was := d.sessions[sid].state;
      var ended := was in {SState.Cancelled, SState.Completed, SState.Failed, SState.Lost};
      && d'.sessions.Keys == d.sessions.Keys
      && (forall s :: s in d.sessions && s != sid ==> d'.sessions[s] == d.sessions[s])
      && d'.sessions[sid].state
         == (if found.Some? && found.value.proc == recorded
             then if was == SState.CancelRequested then SState.CancelRequested else SState.Running
             else if found.Some? then SState.Lost
             else if was == SState.CancelRequested then SState.Cancelled
             else if ended then was
             else if exit == None || exit == Some(0) then SState.Completed else SState.Failed)
      && (found.Some? ==> d'.queue == d.queue && d'.log == d.log)
      && (found.None? && was == SState.CancelRequested ==>
            d'.log.events == d.log.events + [Event(SessionCancelled, sid, d.sessions[sid].key.attemptId, None)])
      && (found.None? && was != SState.CancelRequested ==> d'.log == d.log)
  {
    hide Settle;
  }

  /** What becomes of attempt and job when the process is gone: they end as the
      session does; a completed job is never rewritten. */
  lemma ReconcileEnds(d: Data, sid: Id, exit: Option<int>, now: int)
    requires sid in d.sessions && d.sessions[sid].key.managed && d.sessions[sid].key.hasProc && !Over(d, sid)
    requires d.sessions[sid].state !in {SState.Cancelled, SState.Completed, SState.Failed, SState.Lost}
    requires forall j :: j in d.queue.jobs ==> d.queue.jobs[j].state != JState.Completed
    ensures var d' := ReconcileOne(d, sid, NoProcess, exit, now);
      var aid := d.sessions[sid].key.attemptId;
      if d.sessions[sid].state == SState.CancelRequested then EndedSo(d, d', aid, AState.Cancelled, JState.Cancelled)
      else if exit == None || exit == Some(0) then EndedSo(d, d', aid, AState.Completed, JState.Completed)
      else EndedSo(d, d', aid, AState.Failed, JState.Failed)
  {
    hide Amend;
  }

  /** A status query writes only this: an open session without a process is
      COMPLETED, and one whose pid belongs to another process is LOST. */
  lemma StatusLook(d: Data, sid: Id, recorded: Fingerprint, found: Option<Found>, now: int)
    requires sid in d.sessions && d.sessions[sid].key.managed && d.sessions[sid].key.hasProc && UnderPid(recorded, found)
    ensures var d' := Status(d, sid, Compare(recorded, found), now);
      var was := d.sessions[sid].state;
      var open := was !in {SState.Cancelled, SState.CancelRequested, SState.Completed, SState.Failed, SState.Lost};
      && d'.sessions.Keys == d.sessions.Keys
      && (forall s :: s in d.sessions && s != sid ==> d'.sessions[s] == d.sessions[s])
      && d'.sessions[sid].state
         == (if found.None? then if open then SState.Completed else was
             else if found.value.proc == recorded then was else SState.Lost)
      && d' == d.(sessions := d'.sessions)
  {
  }

  /** Sessions that are external, or have no recorded process, are touched by
      neither. */
  lemma Untouched(d: Data, sid: Id, obs: Obs, exit: Option<int>, now: int)
    requires sid !in d.sessions || !d.sessions[sid].key.managed || !d.sessions[sid].key.hasProc
    ensures ReconcileOne(d, sid, obs, exit, now) == d && Status(d, sid, obs, now) == d
  {
  }

  /** An external session is registered as running, for nobody's attempt, and is
      never managed. */
  lemma ExternalLook(d: Data, sid: Id)
    ensures var d' := ObserveExternal(d, sid);
      && d' == d.(sessions := d'.sessions) && d'.sessions.Keys == d.sessions.Keys + {sid}
      && (forall s :: s in d.sessions && s != sid ==> d'.sessions[s] == d.sessions[s])
      && var ss := d'.sessions[sid];
         && !ss.key.managed && ss.key.attemptId == "" && ss.key.timeoutS == 120 && ss.state == SState.Running
         && ss.exitCode == None && ss.endedAt == None
  {
  }
}
