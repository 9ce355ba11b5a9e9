/** A completion reported by the monitor rests on a stored, valid bundle. */
module EvidenceProof {
  import opened Prelude
  import opened Records
  import opened Scheduling
  import opened Engine
  import opened Service
  import opened Lifecycle
  import opened Shapes
  import opened Foundation
  import opened Books
  import opened Closure
  import opened Events

  /** The monitor's own completions, as against those copied from a session. */
  predicate ByMonitor(a: Attempt) { a.state.Completed? && a.result.reason.ExitedNormally? }

  /** Exit code 0, and the first result reference names a stored bundle of this
      attempt that validates and recorded the same exit code. */
  predicate Proved(x: Id, a: Attempt, evidence: map<BundleId, Bundle>) {
    && a.result.exit == Some(0)
    && |a.result.refs| > 0 && a.result.refs[0].Evidence?
    && var id := a.result.refs[0].id;
       && id.attemptId == x && id.jobId == a.key.jobId
       && id in evidence && evidence[id].id == id
       && evidence[id].hasSchema && !evidence[id].marker && evidence[id].exitCode == Some(0)
       && forall i :: 0 <= i < |evidence[id].artifacts| ==>
            evidence[id].artifacts[i].0 != "" && evidence[id].artifacts[i].1 != Sha("")
  }

  predicate AllProved(all: map<Id, Attempt>, evidence: map<BundleId, Bundle>) {
    forall x :: x in all && ByMonitor(all[x]) ==> Proved(x, all[x], evidence)
  }

  lemma ProvedUpdate(all: map<Id, Attempt>, evidence: map<BundleId, Bundle>, x: Id, a: Attempt)
    requires AllProved(all, evidence) && (ByMonitor(a) ==> Proved(x, a, evidence))
    ensures AllProved(all[x := a], evidence)
  {
    hide Proved;
    hide ByMonitor;
  }

  /** Storing a bundle for an open attempt touches no bundle of a closed one. */
  lemma ProvedStore(all: map<Id, Attempt>, evidence: map<BundleId, Bundle>, id: BundleId, b: Bundle)
    requires AllProved(all, evidence) && ShapeOk(all)
    requires id.attemptId in all && !all[id.attemptId].terminal
    ensures AllProved(all, evidence[id := b])
  {
    hide ValidBundle;
    forall x | x in all && ByMonitor(all[x])
      ensures Proved(x, all[x], evidence[id := b])
    {
      ShapeAt(all, x);
      assert Proved(x, all[x], evidence);
    }
  }

  lemma SettleProved(q: Queue, evidence: map<BundleId, Bundle>, aid: Id, o: Outcome)
    requires AllProved(q.attempts, evidence) && Ended(o.state)
    requires aid in q.attempts && !q.attempts[aid].terminal ==>
      ByMonitor(Close(q.attempts[aid], o)) ==> Proved(aid, Close(q.attempts[aid], o), evidence)
    ensures AllProved(Settle(q, aid, o).attempts, evidence)
  {
    hide Close;
    hide AllProved;
    hide Proved;
    hide ByMonitor;
    if aid in q.attempts && !q.attempts[aid].terminal {
      ProvedUpdate(q.attempts, evidence, aid, Close(q.attempts[aid], o));
    }
  }

  /** Only a valid bundle with exit code 0, stored, leads to a completion. */
  lemma JudgedProved(a: Attempt, aid: Id, b: Bundle, stored: bool, more: seq<Ref>, evidence: map<BundleId, Bundle>)
    requires stored ==> b.id in evidence && evidence[b.id] == b
    requires b.id.attemptId == aid && b.id.jobId == a.key.jobId
    ensures var o := Judge(b, stored, (if stored then [Evidence(b.id)] else []) + more).outcome;
      ByMonitor(Close(a, o)) ==> Proved(aid, Close(a, o), evidence)
  {
  }

  lemma GoneProved(d: Data, sid: Id, p: Probe, now: int)
    requires sid in d.sessions && AllProved(d.queue.attempts, d.evidence) && ShapeOk(d.queue.attempts)
    requires var aid := d.sessions[sid].key.attemptId; aid in d.queue.attempts && !d.queue.attempts[aid].terminal
    ensures var d' := HandleGone(d, sid, p, now); AllProved(d'.queue.attempts, d'.evidence)
  {
    hide AllProved;
    hide Settle;
    hide Judge;
    hide RecoverExit;
    hide HashedArtifacts;
    hide ArtifactRefs;
    hide MarkedInvalid;
    hide Proved;
    hide ByMonitor;
    hide Close;
    hide GoneRaises;
    var ss := d.sessions[sid];
    if !GoneRaises(ss, p) {
      var aid := ss.key.attemptId;
      var b := BuildBundle(d.queue, sid, ss, p);
      var refs := BundleRefs(b, p.writable, ss, p);
      var v := Judge(b, p.writable, refs);
      var ev' := if p.writable then d.evidence[b.id := b] else d.evidence;
      ProvedStore(d.queue.attempts, d.evidence, b.id, b);
      JudgedProved(d.queue.attempts[aid], aid, b, p.writable, ArtifactRefs(ArtifactsHeard(ss, p)), ev');
      SettleProved(d.queue, ev', aid, v.outcome);
    }
  }

  /** Outcomes copied from a session never claim the monitor's completion. */
  lemma CopiedProved(q: Queue, evidence: map<BundleId, Bundle>, aid: Id, o: Outcome)
    requires AllProved(q.attempts, evidence) && Ended(o.state) && !o.reason.ExitedNormally?
    ensures AllProved(Settle(q, aid, o).attempts, evidence)
  {
    hide AllProved;
    hide Settle;
    SettleProved(q, evidence, aid, o);
  }

  lemma MonitorProved(c: Config, w: World, sid: Id, obs: Obs, p: Probe, now: int)
    requires Sound(c, w) && AllProved(w.d.queue.attempts, w.d.evidence)
    ensures var d' := MonitorOne(w.d, sid, obs, p, now); AllProved(d'.queue.attempts, d'.evidence)
  {
    hide Sound;
    hide AllProved;
    hide HandleGone;
    hide Settle;
    var d := w.d;
    if sid in d.sessions && d.sessions[sid].key.managed && !Finished(d.queue, d.sessions[sid].key.attemptId) {
      var ss := d.sessions[sid];
      OwnerKnown(c, w, sid);
      SoundShape(c, w);
      GoneProved(d, sid, p, now);
      CopiedProved(d.queue, d.evidence, ss.key.attemptId, Outcome(AState.TimedOut, DeadlinePassed, Some(None), [], false));
      if SessionEnded(ss.state) { CopiedProved(d.queue, d.evidence, ss.key.attemptId, SessionOutcome(ss.state)); }
    }
  }

  lemma CalledProved(d: Data, act: Act)
    requires AllProved(d.queue.attempts, d.evidence) && (act.DoCancel? || act.Reconcile?)
    ensures var d' := if act.DoCancel? then Cancel(d, act.sid, act.gateway, act.kill, act.now)
                      else ReconcileOne(d, act.sid, act.obs, act.exit, act.now);
      AllProved(d'.queue.attempts, d'.evidence)
  {
    hide AllProved;
    hide Settle;
    if act.sid in d.sessions {
      var aid := d.sessions[act.sid].key.attemptId;
      CopiedProved(d.queue, d.evidence, aid, Follow(AState.Cancelled, SState.Cancelled));
      CopiedProved(d.queue, d.evidence, aid, Follow(AState.Completed, SState.Completed));
      CopiedProved(d.queue, d.evidence, aid, Follow(AState.Failed, SState.Failed));
    }
  }

  lemma DispatchProved(c: Config, w: World, o: Oracle)
    requires Sound(c, w) && AllProved(w.d.queue.attempts, w.d.evidence)
    ensures var d' := Advance(c, w.d, w.pc, o).0; AllProved(d'.queue.attempts, d'.evidence)
  {
    hide Advance;
    hide Proved;
    hide StartsOk;
    hide JobsOk;
    hide ShapeOk;
    hide OwnersOk;
    hide WasStarted;
    AdvanceSpan(c, w.d, w.pc, o);
  }

  lemma RecoverProved(all: map<Id, Attempt>, evidence: map<BundleId, Bundle>, now: int, leaseS: int)
    requires AllProved(all, evidence)
    ensures AllProved(RecoverExpired(all, now, leaseS), evidence)
  {
    hide Proved;
  }

  lemma StepProved(c: Config, w: World, act: Act)
    requires Sound(c, w) && AllProved(w.d.queue.attempts, w.d.evidence)
    ensures var d' := Step(c, w, act).d; AllProved(d'.queue.attempts, d'.evidence)
  {
    hide Sound;
    hide AllProved;
    hide Advance;
    hide SubmitReply;
    hide RetryReply;
    hide MonitorOne;
    hide Cancel;
    hide ReconcileOne;
    hide RecoverExpired;
    hide OnHold;
    hide CanStart;
    var all := w.d.queue.attempts;
    match act
    case Recover(now) => RecoverProved(all, w.d.evidence, now, c.leaseS);
    case ClaimChecked(owner, now) =>
      if w.pc.Checked? && Claimable(all, w.pc.aid, now) {
        ProvedUpdate(all, w.d.evidence, w.pc.aid, ClaimRecord(all[w.pc.aid], owner, now));
      }
    case Dispatch(o) => DispatchProved(c, w, o);
    case DoSubmit(r, jobId, _, _, now) =>
      ProvedUpdate(all, w.d.evidence, r.attemptId, NewAttempt(jobId, r.harness, "", now));
    case DoRetry(jobId, id, key, now) =>
      var reply := RetryReply(c, w.d, jobId, id, key);
      if reply.Enqueued? {
        ProvedUpdate(all, w.d.evidence, reply.attemptId, NewAttempt(jobId, w.d.queue.jobs[jobId].spec.harness, key, now));
      }
    case Monitor(sid, obs, p, now) => MonitorProved(c, w, sid, obs, p, now);
    case DoCancel(_, _, _, _) => CalledProved(w.d, act);
    case Reconcile(_, _, _, _) => CalledProved(w.d, act);
    case _ =>
  }

  lemma {:induction false} ProvedFrom(c: Config, w: World, acts: seq<Act>)
    requires Sound(c, w) && AllProved(w.d.queue.attempts, w.d.evidence) && Admissible(c, w, acts, FRESH_RUN)
    ensures var d' := Run(c, w, acts).d; AllProved(d'.queue.attempts, d'.evidence)
    decreases |acts|
  {
    hide Step;
    hide Fresh;
    hide Sound;
    hide AllProved;
    if acts != [] {
      StepProved(c, w, acts[0]);
      StepSound(c, w, acts[0]);
      ProvedFrom(c, Step(c, w, acts[0]), acts[1..]);
    }
  }

  /** In every state reachable with fresh ids, an attempt the monitor completed
      has exit code 0 and a stored evidence bundle that validates, whichever
      source its exit code came from. */
  lemma CompletedIsProved(c: Config, acts: seq<Act>, x: Id)
    requires Admissible(c, Init(), acts, FRESH_RUN)
    requires var all := Run(c, Init(), acts).d.queue.attempts; x in all && ByMonitor(all[x])
    ensures var d := Run(c, Init(), acts).d; Proved(x, d.queue.attempts[x], d.evidence)
  {
    hide Step;
    hide Proved;
    hide ByMonitor;
    ProvedFrom(c, Init(), acts);
  }

  // ---- where the exit code comes from ----

  function FirstKnown(sources: seq<Option<int>>): Option<int> {
    if sources == [] then None else if sources[0].Some? then sources[0] else FirstKnown(sources[1..])
  }

  /** The adapter's code comes first, then the stored attempt's, the owned
      scope's, and last the fixture file's. */
  lemma ExitFromFirstSource(ss: Session, stored: Option<int>, p: Probe)
    ensures RecoverExit(ss, stored, p)
         == FirstKnown([if ss.key.adapterBound && p.collected.Some? then p.collected.value.exit else None, stored,
                        if ss.key.scoped then p.scopeExit else None,
                        if ss.key.fixture && p.acceptance then p.fixtureExit else None])
  {
    var adapter := if ss.key.adapterBound && p.collected.Some? then p.collected.value.exit else None;
    var scope := if ss.key.scoped then p.scopeExit else None;
    var fixture := if ss.key.fixture && p.acceptance then p.fixtureExit else None;
    FourSources(adapter, stored, scope, fixture);
  }

  lemma FourSources(a: Option<int>, b: Option<int>, c: Option<int>, d: Option<int>)
    ensures FirstKnown([a, b, c, d]) == if a.Some? then a else if b.Some? then b else if c.Some? then c else d
  {
    assert FirstKnown([]) == None;
    assert [d][1..] == [] && FirstKnown([d]) == d;
    assert [c, d][1..] == [d] && FirstKnown([c, d]) == if c.Some? then c else d;
    assert [b, c, d][1..] == [c, d] && FirstKnown([b, c, d]) == if b.Some? then b else FirstKnown([c, d]);
    assert [a, b, c, d][1..] == [b, c, d];
  }

  /** Outside acceptance mode, or for any harness but the fixture, nothing the
      worktree file says has any effect on the outcome. */
  lemma WorktreeFileIgnored(d: Data, sid: Id, p: Probe, exit: Option<int>, invalid: bool, now: int)
    requires sid in d.sessions && !FixtureTrusted(d.sessions[sid], p)
    ensures HandleGone(d, sid, p, now) == HandleGone(d, sid, p.(fixtureExit := exit, fixtureInvalid := invalid), now)
  {
    hide Finalize;
    hide Judge;
    hide ArtifactRefs;
    hide HashedArtifacts;
    var p' := p.(fixtureExit := exit, fixtureInvalid := invalid);
    var ss := d.sessions[sid];
    assert Heard(ss, p') == Heard(ss, p) && ArtifactsHeard(ss, p') == ArtifactsHeard(ss, p);
    assert !GoneRaises(ss, p) ==> BuildBundle(d.queue, sid, ss, p') == BuildBundle(d.queue, sid, ss, p);
  }
}
