/** Jobs and attempts agree, as long as no write of the dispatcher is stale. */
module Books {
  import opened Prelude
  import opened Records
  import opened Scheduling
  import opened Engine
  import opened Service
  import opened Lifecycle
  import opened Shapes
  import opened Foundation

  /** The attempts of one job: its own, distinct, and over except the last. */
  predicate Chain(jobId: Id, ids: seq<Id>, all: map<Id, Attempt>) {
    && |ids| > 0
    && (forall i, k :: 0 <= i < k < |ids| ==> ids[i] != ids[k])
    && (forall i :: 0 <= i < |ids| ==> ids[i] in all && all[ids[i]].key.jobId == jobId)
    && (forall i :: 0 <= i < |ids| - 1 ==> all[ids[i]].terminal)
  }

  /** No two attempts of the list share a non-empty idempotency key. */
  predicate KeysOnce(ids: seq<Id>, all: map<Id, Attempt>)
    requires forall i :: 0 <= i < |ids| ==> ids[i] in all
  {
    forall i, k :: 0 <= i < k < |ids| ==>
      all[ids[i]].key.idemKey != "" ==> all[ids[i]].key.idemKey != all[ids[k]].key.idemKey
  }

  /** The job has ended exactly when its last attempt has, the same way. */
  predicate InStep(state: JState, last: Attempt, exempt: bool) {
    && (JobEnded(state) ==> Ended(last.state) && last.terminal && state == Mirror(last.state))
    && (last.terminal ==> JobEnded(state) || exempt)
  }

  predicate JobOk(jobId: Id, job: Job, all: map<Id, Attempt>, exempt: bool) {
    && Chain(jobId, job.attempts, all)
    && KeysOnce(job.attempts, all)
    && InStep(job.state, all[job.attempts[|job.attempts| - 1]], exempt)
  }

  /** A job whose attempt was closed but whose own write is outstanding, or was
      lost in a crash. */
  predicate Exempt(w: World, jobId: Id) {
    jobId in w.torn || (w.pc.Failing? && w.pc.jobId == jobId)
  }

  predicate Owned(a: Attempt, x: Id, jobs: map<Id, Job>) {
    a.key.jobId in jobs && x in jobs[a.key.jobId].attempts
  }

  /** The dispatcher's attempt is the last of its open job, of which it holds
      an exact copy. */
  predicate Carried(aid: Id, jobId: Id, job: Job, q: Queue) {
    && aid in q.attempts && q.attempts[aid].key.jobId == jobId
    && jobId in q.jobs && job.attempts == q.jobs[jobId].attempts && job.spec == q.jobs[jobId].spec
    && !JobEnded(q.jobs[jobId].state)
    && |job.attempts| > 0 && job.attempts[|job.attempts| - 1] == aid
  }

  /** The bound attempt was closed meanwhile, and with it its job, which may
      have been retried since. */
  predicate MovedOn(aid: Id, jobId: Id, job: Job, q: Queue) {
    && aid in q.attempts && q.attempts[aid].terminal
    && jobId in q.jobs && job.attempts <= q.jobs[jobId].attempts
    && (JobEnded(q.jobs[jobId].state) || |job.attempts| < |q.jobs[jobId].attempts|)
  }

  predicate PcExact(pc: Pc, q: Queue) {
    match pc
    case Failing(aid, jobId, job) =>
      Carried(aid, jobId, job, q) && q.attempts[aid].terminal && q.attempts[aid].state.Failed? && job.state.Failed?
    case Prepared(aid, att, job) =>
      Carried(aid, att.key.jobId, job, q) && !q.attempts[aid].terminal && !JobEnded(job.state)
    case Started(aid, att, job, _) =>
      Carried(aid, att.key.jobId, job, q) && !q.attempts[aid].terminal && !JobEnded(job.state)
    case Registered(aid, att, job, _) =>
      || (aid in q.attempts && q.attempts[aid].terminal)
      || (Carried(aid, att.key.jobId, job, q) && !q.attempts[aid].terminal && !JobEnded(job.state) && q.attempts[aid] == att)
    case Bound(aid, jobId, job, _) =>
      || MovedOn(aid, jobId, job, q)
      || (Carried(aid, jobId, job, q) && !q.attempts[aid].terminal && job.state.Running?)
    case _ => true
  }

  predicate JobsInStep(w: World) {
    forall j :: j in w.d.queue.jobs ==> JobOk(j, w.d.queue.jobs[j], w.d.queue.attempts, Exempt(w, j))
  }

  predicate AllOwned(q: Queue) {
    forall x :: x in q.attempts ==> Owned(q.attempts[x], x, q.jobs)
  }

  predicate Balanced(w: World) {
    JobsInStep(w) && AllOwned(w.d.queue) && PcExact(w.pc, w.d.queue)
  }

  // ---- single jobs ----

  /** An open attempt is the last of its open job. */
  lemma OpenIsLast(w: World, x: Id)
    requires Balanced(w) && x in w.d.queue.attempts && !w.d.queue.attempts[x].terminal
    ensures var jobId := w.d.queue.attempts[x].key.jobId;
      && jobId in w.d.queue.jobs
      && |w.d.queue.jobs[jobId].attempts| > 0
      && w.d.queue.jobs[jobId].attempts[|w.d.queue.jobs[jobId].attempts| - 1] == x
      && !JobEnded(w.d.queue.jobs[jobId].state)
  {
    hide PcExact;
    hide KeysOnce;
    assert Owned(w.d.queue.attempts[x], x, w.d.queue.jobs);
    var jobId := w.d.queue.attempts[x].key.jobId;
    assert JobOk(jobId, w.d.queue.jobs[jobId], w.d.queue.attempts, Exempt(w, jobId));
  }

  /** Every record is still there, under its key, open or over as before. */
  predicate SameStanding(all: map<Id, Attempt>, all': map<Id, Attempt>) {
    forall x :: x in all ==>
      x in all' && all'[x].key == all[x].key && all'[x].terminal == all[x].terminal
      && (all[x].terminal ==> all'[x].state == all[x].state)
  }

  lemma JobFrame(jobId: Id, job: Job, all: map<Id, Attempt>, exempt: bool, all': map<Id, Attempt>)
    requires JobOk(jobId, job, all, exempt) && SameStanding(all, all')
    ensures JobOk(jobId, job, all', exempt)
  {
  }

  /** Closing an attempt of another job changes nothing here. */
  lemma JobElsewhere(jobId: Id, job: Job, all: map<Id, Attempt>, exempt: bool, x: Id, a: Attempt)
    requires JobOk(jobId, job, all, exempt) && x in all && all[x].key.jobId != jobId
    ensures JobOk(jobId, job, all[x := a], exempt)
  {
  }

  /** Closing the last attempt and, unless it is exempt, its job. */
  lemma JobClosed(jobId: Id, job: Job, all: map<Id, Attempt>, exempt: bool, x: Id, a: Attempt, job': Job, exempt': bool)
    requires JobOk(jobId, job, all, exempt)
    requires job.attempts[|job.attempts| - 1] == x && a.key == all[x].key && a.terminal && Ended(a.state)
    requires job'.attempts == job.attempts
    requires (JobEnded(job'.state) && job'.state == Mirror(a.state)) || (!JobEnded(job'.state) && exempt')
    ensures JobOk(jobId, job', all[x := a], exempt')
  {
  }

  /** Saving open records again keeps the books, whatever the dispatcher does
      next, as long as no job loses its exemption. */
  lemma StandingFrame(w: World, w': World)
    requires JobsInStep(w) && AllOwned(w.d.queue)
    requires SameStanding(w.d.queue.attempts, w'.d.queue.attempts)
    requires w'.d.queue.attempts.Keys == w.d.queue.attempts.Keys && w'.d.queue.jobs == w.d.queue.jobs
    requires forall j :: Exempt(w, j) ==> Exempt(w', j)
    ensures JobsInStep(w') && AllOwned(w'.d.queue)
  {
    hide JobOk;
    hide Exempt;
    forall j | j in w'.d.queue.jobs
      ensures JobOk(j, w'.d.queue.jobs[j], w'.d.queue.attempts, Exempt(w', j))
    {
      JobFrame(j, w.d.queue.jobs[j], w.d.queue.attempts, Exempt(w, j), w'.d.queue.attempts);
      MoreExempt(j, w.d.queue.jobs[j], w'.d.queue.attempts, Exempt(w, j), Exempt(w', j));
    }
    forall x | x in w'.d.queue.attempts
      ensures Owned(w'.d.queue.attempts[x], x, w'.d.queue.jobs)
    {
      assert Owned(w.d.queue.attempts[x], x, w.d.queue.jobs);
    }
  }

  lemma MoreExempt(jobId: Id, job: Job, all: map<Id, Attempt>, exempt: bool, exempt': bool)
    requires JobOk(jobId, job, all, exempt) && (exempt ==> exempt')
    ensures JobOk(jobId, job, all, exempt')
  {
  }

  // ---- closing an attempt ----

  lemma SettleJobsInStep(w: World, aid: Id, o: Outcome)
    requires Balanced(w) && Ended(o.state) && aid in w.d.queue.attempts && !w.d.queue.attempts[aid].terminal
    ensures JobsInStep(w.(d := w.d.(queue := Settle(w.d.queue, aid, o))))
  {
    hide JobOk;
    hide Amend;
    hide PcExact;
    var q := w.d.queue;
    var jobId := q.attempts[aid].key.jobId;
    var a := Close(q.attempts[aid], o);
    var w' := w.(d := w.d.(queue := Settle(q, aid, o)));
    OpenIsLast(w, aid);
    forall j | j in w'.d.queue.jobs
      ensures JobOk(j, w'.d.queue.jobs[j], w'.d.queue.attempts, Exempt(w', j))
    {
      assert JobOk(j, q.jobs[j], q.attempts, Exempt(w, j));
      if j == jobId {
        JobClosed(j, q.jobs[j], q.attempts, Exempt(w, j), aid, a, CloseJob(q.jobs[j], o), Exempt(w', j));
      } else {
        JobElsewhere(j, q.jobs[j], q.attempts, Exempt(w, j), aid, a);
      }
    }
  }

  lemma SettlePcExact(w: World, aid: Id, o: Outcome)
    requires Balanced(w) && Ended(o.state) && aid in w.d.queue.attempts && !w.d.queue.attempts[aid].terminal
    requires w.pc.Prepared? || w.pc.Started? ==> aid != w.pc.aid
    ensures PcExact(w.pc, Settle(w.d.queue, aid, o))
  {
    hide Amend;
    hide JobsInStep;
    hide AllOwned;
    OpenIsLast(w, aid);
  }

  lemma SettleOwned(q: Queue, aid: Id, o: Outcome)
    requires AllOwned(q) && Ended(o.state)
    ensures AllOwned(Settle(q, aid, o))
  {
    hide Amend;
    var q' := Settle(q, aid, o);
    forall x | x in q'.attempts
      ensures Owned(q'.attempts[x], x, q'.jobs)
    {
      assert Owned(q.attempts[x], x, q.jobs);
    }
  }

  lemma ClosingBalanced(c: Config, w: World, sid: Id, out: Option<Outcome>, d': Data)
    requires Balanced(w) && Closing(w.d, sid, out, d')
    requires out.Some? && (w.pc.Prepared? || w.pc.Started?) ==> w.d.sessions[sid].key.attemptId != w.pc.aid
    ensures Balanced(w.(d := d'))
  {
    hide Settle;
    hide PcExact;
    hide AllOwned;
    hide JobOk;
    if out.Some? {
      var aid := w.d.sessions[sid].key.attemptId;
      SettleOwned(w.d.queue, aid, out.value);
      if aid in w.d.queue.attempts && !w.d.queue.attempts[aid].terminal {
        SettleJobsInStep(w, aid, out.value);
        SettlePcExact(w, aid, out.value);
        SameJobsInStep(w.(d := w.d.(queue := d'.queue)), w.(d := d'));
      } else {
        SettleNothing(w.d.queue, aid, out.value);
        SameJobsInStep(w, w.(d := d'));
      }
    } else {
      SameJobsInStep(w, w.(d := d'));
    }
  }

  lemma SettleNothing(q: Queue, aid: Id, o: Outcome)
    requires Ended(o.state) && (aid !in q.attempts || q.attempts[aid].terminal)
    ensures Settle(q, aid, o) == q
  {
  }

  lemma SameJobsInStep(w: World, w': World)
    requires JobsInStep(w) && w'.d.queue == w.d.queue && w'.pc == w.pc && w'.torn == w.torn
    ensures JobsInStep(w')
  {
    forall j | j in w'.d.queue.jobs
      ensures JobOk(j, w'.d.queue.jobs[j], w'.d.queue.attempts, Exempt(w', j))
    {
      assert JobOk(j, w.d.queue.jobs[j], w.d.queue.attempts, Exempt(w, j));
    }
  }

  /** No session belongs to an attempt that is about to be started. */
  lemma SessionElsewhere(c: Config, w: World, sid: Id)
    requires Sound(c, w) && sid in w.d.sessions && w.d.sessions[sid].key.managed && (w.pc.Prepared? || w.pc.Started?)
    ensures w.d.sessions[sid].key.attemptId != w.pc.aid
  {
    hide StartsOk;
    hide JobsOk;
    hide ShapeOk;
    hide WasStarted;
    assert OwnerOk(w.d.sessions[sid], w.d.log.starts, w.pc);
  }

  lemma SessionActBalanced(c: Config, w: World, act: Act)
    requires Sound(c, w) && Balanced(w) && SessionAct(act) && Fresh(c, w, act)
    ensures Balanced(Step(c, w, act))
  {
    hide Step;
    hide Sound;
    hide Balanced;
    hide Fresh;
    var out := SessionShape(c, w, act);
    if out.Some? && (w.pc.Prepared? || w.pc.Started?) {
      SessionElsewhere(c, w, ActSession(act));
    }
    ClosingBalanced(c, w, ActSession(act), out, Step(c, w, act).d);
  }

  // ---- records saved again ----

  /** New and resaved records next to untouched ones: the dispatcher's own
      attempt and job are among the untouched. */
  lemma PcExactKept(pc: Pc, q: Queue, q': Queue)
    requires PcExact(pc, q)
    requires forall x :: x in q.attempts ==> x in q'.attempts && q'.attempts[x] == q.attempts[x]
    requires forall j :: j in q.jobs ==>
      j in q'.jobs && (q'.jobs[j] == q.jobs[j] || (JobEnded(q.jobs[j].state) && q.jobs[j].attempts < q'.jobs[j].attempts))
    ensures PcExact(pc, q')
  {
  }

  lemma SaveStanding(all: map<Id, Attempt>, x: Id, a: Attempt)
    requires x in all && a.key == all[x].key && !all[x].terminal && !a.terminal
    ensures SameStanding(all, all[x := a]) && all[x := a].Keys == all.Keys
  {
  }

  lemma RecoverStanding(all: map<Id, Attempt>, now: int, leaseS: int)
    requires ShapeOk(all)
    ensures var all' := RecoverExpired(all, now, leaseS); SameStanding(all, all') && all'.Keys == all.Keys
  {
    forall x | x in all
      ensures RecordOk(all[x])
    {
      ShapeAt(all, x);
    }
  }

  lemma RecoverBalanced(c: Config, w: World, now: int)
    requires Sound(c, w) && Balanced(w)
    ensures Balanced(Step(c, w, Recover(now)))
  {
    hide RecoverExpired;
    hide AllOwned;
    hide JobsInStep;
    hide StartsOk;
    hide JobsOk;
    hide OwnersOk;
    hide PcOk;
    hide ShapeOk;
    if w.pc.Idle? {
      RecoverStanding(w.d.queue.attempts, now, c.leaseS);
      StandingFrame(w, Step(c, w, Recover(now)));
    }
  }

  lemma ClaimBalanced(c: Config, w: World, owner: string, now: int)
    requires Sound(c, w) && Balanced(w)
    ensures Balanced(Step(c, w, ClaimChecked(owner, now)))
  {
    hide AllOwned;
    hide JobsInStep;
    hide StartsOk;
    hide JobsOk;
    hide OwnersOk;
    hide ShapeOk;
    var w' := Step(c, w, ClaimChecked(owner, now));
    if w.pc.Checked? {
      if Claimable(w.d.queue.attempts, w.pc.aid, now) {
        ShapeAt(w.d.queue.attempts, w.pc.aid);
        SaveStanding(w.d.queue.attempts, w.pc.aid, ClaimRecord(w.d.queue.attempts[w.pc.aid], owner, now));
      } else {
        SelfStanding(w.d.queue.attempts);
      }
      StandingFrame(w, w');
    }
  }

  lemma SelfStanding(all: map<Id, Attempt>)
    ensures SameStanding(all, all)
  {
  }

  // ---- the dispatcher's writes ----

  ghost predicate KeepsBalance(w: World, r: (Data, Pc)) {
    Balanced(World(r.0, r.1, w.torn))
  }

  /** Saving the open attempt again, open. */
  lemma SaveBalanced(w: World, aid: Id, a: Attempt, pc': Pc)
    requires Balanced(w) && !w.pc.Failing?
    requires aid in w.d.queue.attempts && a.key == w.d.queue.attempts[aid].key
    requires !w.d.queue.attempts[aid].terminal && !a.terminal
    requires PcExact(pc', SaveAttempt(w.d, aid, a).queue)
    ensures KeepsBalance(w, (SaveAttempt(w.d, aid, a), pc'))
  {
    hide AllOwned;
    hide JobsInStep;
    hide PcExact;
    SaveStanding(w.d.queue.attempts, aid, a);
    StandingFrame(w, World(SaveAttempt(w.d, aid, a), pc', w.torn));
  }

  /** Only the position changes. */
  lemma MoveBalanced(w: World, pc': Pc)
    requires Balanced(w) && !w.pc.Failing? && PcExact(pc', w.d.queue)
    ensures KeepsBalance(w, (w.d, pc'))
  {
    hide AllOwned;
    hide JobsInStep;
    hide PcExact;
    SelfStanding(w.d.queue.attempts);
    StandingFrame(w, World(w.d, pc', w.torn));
  }

  /** The first of the two writes of a failed start: the attempt is over, the
      job's own write is outstanding. */
  lemma FailBalanced(w: World, aid: Id, a: Attempt, j: Job, reason: Reason)
    requires Balanced(w) && !w.pc.Failing? && Carried(aid, a.key.jobId, j, w.d.queue)
    requires a.key == w.d.queue.attempts[aid].key && !w.d.queue.attempts[aid].terminal
    ensures KeepsBalance(w, Fail(w.d, aid, a, j, reason))
  {
    hide JobOk;
    var q := w.d.queue;
    var jobId := a.key.jobId;
    var a' := FailRecord(a, reason);
    var r := Fail(w.d, aid, a, j, reason);
    var w' := World(r.0, r.1, w.torn);
    forall k | k in q.jobs
      ensures JobOk(k, q.jobs[k], q.attempts[aid := a'], Exempt(w', k))
    {
      assert JobOk(k, q.jobs[k], q.attempts, Exempt(w, k));
      if k == jobId {
        JobClosed(k, q.jobs[k], q.attempts, Exempt(w, k), aid, a', q.jobs[k], true);
      } else {
        JobElsewhere(k, q.jobs[k], q.attempts, Exempt(w, k), aid, a');
      }
    }
    var all' := q.attempts[aid := a'];
    forall x | x in all'
      ensures Owned(all'[x], x, q.jobs)
    {
      assert Owned(q.attempts[x], x, q.jobs);
    }
  }

  lemma BeginCarries(c: Config, w: World)
    requires Sound(c, w) && Balanced(w) && w.pc.Claimed?
    ensures var a := w.d.queue.attempts[w.pc.aid];
      && w.pc.aid in w.d.queue.attempts && !a.terminal && a.key.jobId in w.d.queue.jobs
      && Carried(w.pc.aid, a.key.jobId, w.d.queue.jobs[a.key.jobId], w.d.queue)
      && !JobEnded(w.d.queue.jobs[a.key.jobId].state)
  {
    hide StartsOk;
    hide JobsOk;
    hide OwnersOk;
    hide ShapeOk;
    hide JobsInStep;
    hide AllOwned;
    ShapeAt(w.d.queue.attempts, w.pc.aid);
    OpenIsLast(w, w.pc.aid);
  }

  lemma BeginBalanced(c: Config, w: World, o: Oracle)
    requires Sound(c, w) && Balanced(w) && w.pc.Claimed?
    ensures KeepsBalance(w, Begin(w.d, w.pc.aid, o))
  {
    hide Sound;
    hide Balanced;
    hide KeepsBalance;
    hide Fail;
    var aid := w.pc.aid;
    BeginCarries(c, w);
    var a := w.d.queue.attempts[aid];
    var j := w.d.queue.jobs[a.key.jobId];
    var running := a.(state := AState.Running);
    FailBalanced(w, aid, a, j, WorktreeFailed);
    MoveBalanced(w, Idle);
    SaveBalanced(w, aid, HeldRecord(a, o.now + o.backoff), Holding(aid));
    SaveBalanced(w, aid, running, Prepared(aid, running, j));
  }

  lemma HoldingBalanced(c: Config, w: World)
    requires Sound(c, w) && Balanced(w) && w.pc.Holding?
    ensures var d' := w.d.(queue := w.d.queue.(attempts := Release(w.d.queue.attempts, w.pc.aid)));
      KeepsBalance(w, (d', Idle))
  {
    hide StartsOk;
    hide JobsOk;
    hide OwnersOk;
    hide ShapeOk;
    hide JobsInStep;
    hide AllOwned;
    hide KeepsBalance;
    ShapeAt(w.d.queue.attempts, w.pc.aid);
    SaveBalanced(w, w.pc.aid, ReleaseRecord(w.d.queue.attempts[w.pc.aid]), Idle);
  }

  /** The second write: the job joins its attempt. */
  lemma JobWritten(w: World)
    requires Balanced(w) && (w.pc.Failing? || w.pc.Bound?)
    requires w.pc.Bound? ==> !MovedOn(w.pc.aid, w.pc.jobId, w.pc.job, w.d.queue)
    ensures KeepsBalance(w, (SaveJob(w.d, w.pc.jobId, w.pc.job), Idle))
  {
    hide JobOk;
    var q := w.d.queue;
    var w' := World(SaveJob(w.d, w.pc.jobId, w.pc.job), Idle, w.torn);
    forall k | k in w'.d.queue.jobs
      ensures JobOk(k, w'.d.queue.jobs[k], q.attempts, Exempt(w', k))
    {
      assert JobOk(k, q.jobs[k], q.attempts, Exempt(w, k));
      if k == w.pc.jobId {
        JobRestated(k, q.jobs[k], q.attempts, Exempt(w, k), w.pc.job, Exempt(w', k));
      }
    }
    forall x | x in q.attempts
      ensures Owned(q.attempts[x], x, w'.d.queue.jobs)
    {
      assert Owned(q.attempts[x], x, q.jobs);
    }
  }

  lemma JobRestated(jobId: Id, job: Job, all: map<Id, Attempt>, exempt: bool, job': Job, exempt': bool)
    requires JobOk(jobId, job, all, exempt) && job'.attempts == job.attempts
    requires InStep(job'.state, all[job.attempts[|job.attempts| - 1]], exempt')
    ensures JobOk(jobId, job', all, exempt')
  {
  }

  lemma LaunchBalanced(c: Config, w: World, g: Gateway)
    requires Sound(c, w) && Balanced(w) && w.pc.Prepared?
    ensures KeepsBalance(w, Launch(c, w.d, w.pc.aid, w.pc.att, w.pc.job, g))
  {
    hide Fail;
    hide JobsInStep;
    hide AllOwned;
    hide StartsOk;
    hide JobsOk;
    hide OwnersOk;
    hide ShapeOk;
    hide LoadPayload;
    var r := Launch(c, w.d, w.pc.aid, w.pc.att, w.pc.job, g);
    var file := LoadPayload(c, w.d.payloads, w.pc.job.spec.payloadRef);
    FailBalanced(w, w.pc.aid, w.pc.att, w.pc.job, PayloadFailed);
    FailBalanced(w, w.pc.aid, w.pc.att, w.pc.job, PayloadMismatch);
    if file.Some? && file.value.hash == w.pc.job.spec.contentHash {
      MoveBalanced(w, r.1);
      LogIsNoMatter(World(w.d, r.1, w.torn), r.0);
    }
  }

  lemma LogIsNoMatter(w: World, d': Data)
    requires Balanced(w) && d'.queue == w.d.queue && d'.sessions == w.d.sessions
    ensures Balanced(w.(d := d'))
  {
    hide PcExact;
    hide AllOwned;
    hide JobOk;
    SameJobsInStep(w, w.(d := d'));
  }

  lemma RecordBalanced(c: Config, w: World, o: Oracle)
    requires Sound(c, w) && Balanced(w) && w.pc.Started? && Fresh(c, w, Dispatch(o))
    ensures KeepsBalance(w, Record(c, w.d, w.pc.aid, w.pc.att, w.pc.job, w.pc.gateway, o.now))
  {
    hide Fail;
    hide JobsInStep;
    hide AllOwned;
    hide StartsOk;
    hide JobsOk;
    hide ShapeOk;
    match w.pc.gateway
    case StartRaised => MoveBalanced(w, Idle);
    case StartFailed(message) => FailBalanced(w, w.pc.aid, w.pc.att, w.pc.job, Reason.Gateway(message));
    case StartOk(sid, _, _, _) => RegisterBalanced(c, w, sid, NewSession(c, w.pc.aid, w.pc.job, w.pc.gateway, o.now));
  }

  lemma RegisterBalanced(c: Config, w: World, sid: Id, ss: Session)
    requires Sound(c, w) && Balanced(w) && w.pc.Started? && sid !in w.d.sessions
    requires ss.key.managed && ss.key.attemptId == w.pc.aid
    ensures KeepsBalance(w, (w.d.(sessions := w.d.sessions[sid := ss]), Registered(w.pc.aid, w.pc.att, w.pc.job, sid)))
  {
    hide StartsOk;
    hide JobsOk;
    hide ShapeOk;
    hide AllOwned;
    hide JobOk;
    var pc' := Registered(w.pc.aid, w.pc.att, w.pc.job, sid);
    var w' := World(w.d.(sessions := w.d.sessions[sid := ss]), pc', w.torn);
    forall s | s in w.d.sessions
      ensures OwnerOk(w.d.sessions[s], w.d.log.starts, w.pc)
    {
    }
    forall k | k in w.d.queue.jobs
      ensures JobOk(k, w.d.queue.jobs[k], w.d.queue.attempts, Exempt(w', k))
    {
      assert JobOk(k, w.d.queue.jobs[k], w.d.queue.attempts, Exempt(w, k));
    }
  }

  lemma BindBalanced(w: World)
    requires Balanced(w) && w.pc.Registered? && w.pc.aid in w.d.queue.attempts && !w.d.queue.attempts[w.pc.aid].terminal
    ensures KeepsBalance(w, (SaveAttempt(w.d, w.pc.aid, w.pc.att.(sessionId := w.pc.sid)),
      Bound(w.pc.aid, w.pc.att.key.jobId, w.pc.job.(state := JState.Running), w.pc.sid)))
  {
    hide JobsInStep;
    hide AllOwned;
    hide KeepsBalance;
    SaveBalanced(w, w.pc.aid, w.pc.att.(sessionId := w.pc.sid),
                 Bound(w.pc.aid, w.pc.att.key.jobId, w.pc.job.(state := JState.Running), w.pc.sid));
  }

  /** A current write finds its attempt as the dispatcher left it. */
  lemma BindsOpen(c: Config, w: World, o: Oracle)
    requires Sound(c, w) && !Stale(w, Dispatch(o))
    ensures w.pc.Registered? ==> w.pc.aid in w.d.queue.attempts && !w.d.queue.attempts[w.pc.aid].terminal
    ensures w.pc.Bound? ==> !MovedOn(w.pc.aid, w.pc.jobId, w.pc.job, w.d.queue)
  {
    hide StartsOk;
    hide JobsOk;
    hide OwnersOk;
    hide ShapeOk;
    hide WasStarted;
  }

  lemma AdvanceBalanced(c: Config, w: World, o: Oracle)
    requires Sound(c, w) && Balanced(w) && Fresh(c, w, Dispatch(o)) && !Stale(w, Dispatch(o))
    ensures KeepsBalance(w, Advance(c, w.d, w.pc, o))
  {
    BindsOpen(c, w, o);
    hide Stale;
    hide Sound;
    hide Fresh;
    hide Balanced;
    hide Begin;
    hide Launch;
    hide Record;
    match w.pc
    case Idle => SameBalance(w);
    case Checked(_) => SameBalance(w);
    case Claimed(_) => BeginBalanced(c, w, o);
    case Holding(_) => HoldingBalanced(c, w);
    case Failing(_, _, _) => JobWritten(w);
    case Prepared(_, _, _) => LaunchBalanced(c, w, o.gateway);
    case Started(_, _, _, _) => RecordBalanced(c, w, o);
    case Registered(_, _, _, _) => BindBalanced(w);
    case Bound(_, _, _, _) => JobWritten(w);
  }

  lemma SameBalance(w: World)
    requires Balanced(w)
    ensures KeepsBalance(w, (w.d, w.pc))
  {
    hide Balanced;
    assert World(w.d, w.pc, w.torn) == w;
  }

  // ---- submit, retry, restart ----

  lemma NewJobOk(c: Config, r: Request, jobId: Id, payloadId: Id, all: map<Id, Attempt>, exempt: bool)
    requires r.attemptId in all && all[r.attemptId].key.jobId == jobId && !all[r.attemptId].terminal
    ensures JobOk(jobId, NewJob(c, r, payloadId), all, exempt)
  {
  }

  lemma SubmitBalanced(c: Config, w: World, r: Request, jobId: Id, payloadId: Id, repoOk: bool, now: int)
    requires Balanced(w) && jobId !in w.d.queue.jobs
    ensures Balanced(w.(d := Submit(c, w.d, r, jobId, payloadId, repoOk, now)))
  {
    hide JobOk;
    hide SafeIdent;
    hide PcExact;
    if !SubmitReply(c, w.d.queue, r, jobId, repoOk).Refused? {
      var q := w.d.queue;
      var d' := Submit(c, w.d, r, jobId, payloadId, repoOk, now);
      var w' := w.(d := d');
      PcExactKept(w.pc, q, d'.queue);
      forall k | k in d'.queue.jobs
        ensures JobOk(k, d'.queue.jobs[k], d'.queue.attempts, Exempt(w', k))
      {
        if k == jobId {
          NewJobOk(c, r, jobId, payloadId, d'.queue.attempts, Exempt(w', k));
        } else {
          assert JobOk(k, q.jobs[k], q.attempts, Exempt(w, k));
          JobFrame(k, q.jobs[k], q.attempts, Exempt(w, k), d'.queue.attempts);
        }
      }
      forall x | x in d'.queue.attempts
        ensures Owned(d'.queue.attempts[x], x, d'.queue.jobs)
      {
        if x != r.attemptId { assert Owned(q.attempts[x], x, q.jobs); }
      }
    }
  }

  /** An accepted retry: the job is over, its id and key are new to it. */
  lemma RetryFacts(c: Config, d: Data, jobId: Id, id: Option<Id>, key: string)
    requires RetryReply(c, d, jobId, id, key).Enqueued?
    ensures jobId in d.queue.jobs && JobEnded(d.queue.jobs[jobId].state)
    ensures RetryReply(c, d, jobId, id, key).attemptId !in d.queue.jobs[jobId].attempts
    ensures key != "" ==> WithKey(d.queue.attempts, d.queue.jobs[jobId].attempts, key).None?
  {
    hide SafeIdent;
    hide LoadPayload;
    hide WithKey;
    hide RetryId;
  }

  lemma {:induction false} WithKeyFinds(all: map<Id, Attempt>, ids: seq<Id>, key: string)
    ensures WithKey(all, ids, key).None? <==>
            forall i :: 0 <= i < |ids| ==> ids[i] in all ==> all[ids[i]].key.idemKey != key
    ensures WithKey(all, ids, key).Some? ==>
            exists i :: 0 <= i < |ids| && WithKey(all, ids, key).value == ids[i] && ids[i] in all
                        && all[ids[i]].key.idemKey == key
  {
    if ids != [] {
      WithKeyFinds(all, ids[1..], key);
      assert forall i :: 1 <= i < |ids| ==> ids[i] == ids[1..][i - 1];
    }
  }

  lemma ReopenedOk(jobId: Id, job: Job, all: map<Id, Attempt>, exempt: bool, aid: Id, a: Attempt, exempt': bool)
    requires JobOk(jobId, job, all, exempt) && JobEnded(job.state)
    requires aid !in all && a.key.jobId == jobId && !a.terminal && !Ended(a.state)
    requires a.key.idemKey != "" ==> WithKey(all, job.attempts, a.key.idemKey).None?
    ensures JobOk(jobId, Reopened(job, aid), all[aid := a], exempt')
  {
    if a.key.idemKey != "" { WithKeyFinds(all, job.attempts, a.key.idemKey); }
  }

  lemma RetryBalanced(c: Config, w: World, jobId: Id, id: Option<Id>, key: string, now: int)
    requires Balanced(w) && Fresh(c, w, DoRetry(jobId, id, key, now))
    ensures Balanced(w.(d := Service.Retry(c, w.d, jobId, id, key, now)))
  {
    hide RetryReply;
    hide JobOk;
    hide PcExact;
    hide WithKey;
    hide Reopened;
    var reply := RetryReply(c, w.d, jobId, id, key);
    if reply.Enqueued? {
      RetryFacts(c, w.d, jobId, id, key);
      var q := w.d.queue;
      var aid := reply.attemptId;
      var a := NewAttempt(jobId, q.jobs[jobId].spec.harness, key, now);
      var q' := Reopen(q, jobId, aid, key, now);
      var w' := w.(d := w.d.(queue := q'));
      ReopenedLonger(q.jobs[jobId], aid);
      PcExactKept(w.pc, q, q');
      forall k | k in q'.jobs
        ensures JobOk(k, q'.jobs[k], q'.attempts, Exempt(w', k))
      {
        assert JobOk(k, q.jobs[k], q.attempts, Exempt(w, k));
        if k == jobId {
          ReopenedOk(k, q.jobs[k], q.attempts, Exempt(w, k), aid, a, Exempt(w', k));
        } else {
          JobFrame(k, q.jobs[k], q.attempts, Exempt(w, k), q'.attempts);
        }
      }
      ReopenOwned(q, jobId, aid, key, now);
    }
  }

  lemma ReopenedLonger(j: Job, aid: Id)
    ensures j.attempts < Reopened(j, aid).attempts
  {
  }

  lemma ReopenOwned(q: Queue, jobId: Id, aid: Id, key: string, now: int)
    requires AllOwned(q) && jobId in q.jobs
    ensures AllOwned(Reopen(q, jobId, aid, key, now))
  {
    var q' := Reopen(q, jobId, aid, key, now);
    forall x | x in q'.attempts
      ensures Owned(q'.attempts[x], x, q'.jobs)
    {
      if x != aid { assert Owned(q.attempts[x], x, q.jobs); }
    }
  }

  lemma RestartBalanced(w: World)
    requires Balanced(w)
    ensures Balanced(Restart(w))
  {
    hide JobOk;
    hide AllOwned;
    forall k | k in w.d.queue.jobs
      ensures JobOk(k, w.d.queue.jobs[k], w.d.queue.attempts, Exempt(Restart(w), k))
    {
      assert JobOk(k, w.d.queue.jobs[k], w.d.queue.attempts, Exempt(w, k));
    }
  }

  lemma CheckBalanced(c: Config, w: World, aid: Id)
    requires Balanced(w)
    ensures Balanced(Step(c, w, Check(aid)))
  {
    hide Balanced;
    hide CanStart;
    if w.pc.Idle? {
      MoveBalanced(w, Checked(aid));
    }
  }

  // ---- every step, every run without a stale write ----

  lemma StepBalanced(c: Config, w: World, act: Act)
    requires Sound(c, w) && Balanced(w) && Fresh(c, w, act) && !Stale(w, act)
    ensures Balanced(Step(c, w, act))
  {
    hide Sound;
    hide Balanced;
    hide Fresh;
    hide Stale;
    hide Advance;
    hide Submit;
    hide Retry;
    hide MonitorOne;
    hide Cancel;
    hide ReconcileOne;
    hide Status;
    hide MarkCancel;
    hide RecoverExpired;
    hide TakeClaim;
    match act
    case Recover(now) => RecoverBalanced(c, w, now);
    case Check(aid) => CheckBalanced(c, w, aid);
    case ClaimChecked(owner, now) => ClaimBalanced(c, w, owner, now);
    case Dispatch(o) => AdvanceBalanced(c, w, o);
    case DoSubmit(r, jobId, payloadId, repoOk, now) =>
      FreshSubmit(c, w, act);
      SubmitBalanced(c, w, r, jobId, payloadId, repoOk, now);
    case DoRetry(jobId, id, key, now) => RetryBalanced(c, w, jobId, id, key, now);
    case CancelCrash(sid) =>
      MarkShape(w.d, sid);
      ClosingBalanced(c, w, sid, None, MarkCancel(w.d, sid));
      RestartBalanced(w.(d := MarkCancel(w.d, sid)));
    case Crash => RestartBalanced(w);
    case _ => SessionActBalanced(c, w, act);
  }

  lemma {:induction false} BalancedFrom(c: Config, w: World, acts: seq<Act>, k: Discipline)
    requires Sound(c, w) && Balanced(w) && k.newIds && k.current && Admissible(c, w, acts, k)
    ensures Sound(c, Run(c, w, acts)) && Balanced(Run(c, w, acts))
    decreases |acts|
  {
    hide Step;
    hide Fresh;
    hide Stale;
    hide FoundAlive;
    hide Revives;
    hide Drops;
    hide Sound;
    hide Balanced;
    if acts != [] {
      StepSound(c, w, acts[0]);
      StepBalanced(c, w, acts[0]);
      BalancedFrom(c, Step(c, w, acts[0]), acts[1..], k);
    }
  }

  lemma BalancedRun(c: Config, acts: seq<Act>, k: Discipline)
    requires k.newIds && k.current && Admissible(c, Init(), acts, k)
    ensures Sound(c, Run(c, Init(), acts)) && Balanced(Run(c, Init(), acts))
  {
    hide Step;
    BalancedFrom(c, Init(), acts, k);
  }
}
