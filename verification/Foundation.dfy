/** What holds along every run with fresh identifiers: record shape, at most
    one start per attempt, owners of sessions, and the dispatcher's copies. */
module Foundation {
  import opened Prelude
  import opened Records
  import opened Scheduling
  import opened Engine
  import opened Service
  import opened Lifecycle
  import opened Shapes

  predicate RecordOk(a: Attempt) { a.terminal <==> Ended(a.state) }

  predicate ShapeOk(all: map<Id, Attempt>) {
    forall x :: x in all ==> RecordOk(all[x])
  }

  /** Running or over: past the point where the dispatcher may pick it up. */
  predicate Past(a: Attempt) { a.state.Running? || Ended(a.state) }

  predicate WasStarted(starts: seq<Start>, x: Id) {
    exists i :: 0 <= i < |starts| && starts[i].attemptId == x
  }

  /** A started attempt never waits again, and it was given its job's prompt. */
  predicate GoodStart(c: Config, s: Start, all: map<Id, Attempt>, prompts: map<Id, string>) {
    && s.attemptId in all && Past(all[s.attemptId])
    && all[s.attemptId].key.jobId == s.jobId
    && s.jobId in prompts && c.sha(s.prompt) == c.sha(prompts[s.jobId])
  }

  predicate OncePerAttempt(starts: seq<Start>) {
    forall i, k :: 0 <= i < k < |starts| ==> starts[i].attemptId != starts[k].attemptId
  }

  predicate StartsOk(c: Config, starts: seq<Start>, all: map<Id, Attempt>, prompts: map<Id, string>) {
    OncePerAttempt(starts) && forall i :: 0 <= i < |starts| ==> GoodStart(c, starts[i], all, prompts)
  }

  predicate JobsOk(c: Config, jobs: map<Id, Job>, prompts: map<Id, string>) {
    && (forall j :: j in jobs ==> j in prompts && jobs[j].spec.contentHash == c.sha(prompts[j]))
    && (forall j :: j in prompts ==> j in jobs)
  }

  /** Managed sessions belong to started attempts; between the start call and
      the registration no session of that attempt exists yet. */
  predicate OwnerOk(ss: Session, starts: seq<Start>, pc: Pc) {
    ss.key.managed ==> WasStarted(starts, ss.key.attemptId) && (pc.Started? ==> ss.key.attemptId != pc.aid)
  }

  predicate OwnersOk(sessions: map<Id, Session>, starts: seq<Start>, pc: Pc) {
    forall sid :: sid in sessions ==> OwnerOk(sessions[sid], starts, pc)
  }

  predicate KnownJob(jobId: Id, job: Job, jobs: map<Id, Job>) {
    jobId in jobs && job.spec == jobs[jobId].spec
  }

  /** The stored attempt is the dispatcher's copy and its job is known. */
  predicate CopyOk(aid: Id, att: Attempt, job: Job, q: Queue) {
    aid in q.attempts && q.attempts[aid] == att && att.state.Running? && KnownJob(att.key.jobId, job, q.jobs)
  }

  /** What the dispatcher carries at each point, against the store. */
  predicate PcOk(pc: Pc, q: Queue, starts: seq<Start>) {
    match pc
    case Idle => true
    case Checked(aid) => aid in q.attempts
    case Claimed(aid) => aid in q.attempts && q.attempts[aid].state.Claimed?
    case Holding(aid) => aid in q.attempts && q.attempts[aid].state.Claimed?
    case Failing(aid, jobId, job) => aid in q.attempts && KnownJob(jobId, job, q.jobs)
    case Prepared(aid, att, job) => CopyOk(aid, att, job, q) && !WasStarted(starts, aid)
    case Started(aid, att, job, _) => CopyOk(aid, att, job, q) && WasStarted(starts, aid)
    case Registered(aid, att, job, _) =>
      && aid in q.attempts && att.key == q.attempts[aid].key && att.state.Running? && RecordOk(att)
      && KnownJob(att.key.jobId, job, q.jobs)
    case Bound(aid, jobId, job, _) => aid in q.attempts && KnownJob(jobId, job, q.jobs)
  }

  predicate Sound(c: Config, w: World) {
    && ShapeOk(w.d.queue.attempts)
    && StartsOk(c, w.d.log.starts, w.d.queue.attempts, w.d.log.prompts)
    && JobsOk(c, w.d.queue.jobs, w.d.log.prompts)
    && OwnersOk(w.d.sessions, w.d.log.starts, w.pc)
    && PcOk(w.pc, w.d.queue, w.d.log.starts)
  }

  predicate SteadyAttempts(all: map<Id, Attempt>, all': map<Id, Attempt>) {
    forall x :: x in all ==> x in all' && all'[x].key == all[x].key
  }

  predicate SteadyJobs(jobs: map<Id, Job>, jobs': map<Id, Job>) {
    forall j :: j in jobs ==> j in jobs' && jobs'[j].spec == jobs[j].spec
  }

  /** Records persist and keep what was fixed at their creation. */
  predicate Steady(q: Queue, q': Queue) {
    SteadyAttempts(q.attempts, q'.attempts) && SteadyJobs(q.jobs, q'.jobs)
  }

  // ---- one attempt rewritten ----

  lemma RewriteShape(all: map<Id, Attempt>, aid: Id, a: Attempt)
    requires ShapeOk(all) && RecordOk(a)
    ensures ShapeOk(all[aid := a])
  {
  }

  lemma RewriteStarts(c: Config, starts: seq<Start>, all: map<Id, Attempt>, prompts: map<Id, string>, aid: Id,
        a: Attempt)
    requires StartsOk(c, starts, all, prompts)
    requires WasStarted(starts, aid) ==> aid in all && a.key == all[aid].key && Past(a)
    ensures StartsOk(c, starts, all[aid := a], prompts)
  {
    forall i | 0 <= i < |starts|
      ensures GoodStart(c, starts[i], all[aid := a], prompts)
    {
      assert GoodStart(c, starts[i], all, prompts);
    }
  }

  lemma RewriteSteady(all: map<Id, Attempt>, aid: Id, a: Attempt)
    requires aid in all ==> a.key == all[aid].key
    ensures SteadyAttempts(all, all[aid := a])
  {
  }

  lemma StartedIsPast(c: Config, w: World, x: Id)
    requires Sound(c, w) && WasStarted(w.d.log.starts, x)
    ensures x in w.d.queue.attempts && Past(w.d.queue.attempts[x])
  {
    var i :| 0 <= i < |w.d.log.starts| && w.d.log.starts[i].attemptId == x;
    assert GoodStart(c, w.d.log.starts[i], w.d.queue.attempts, w.d.log.prompts);
  }

  lemma SteadySelf(q: Queue)
    ensures Steady(q, q)
  {
  }

  lemma SteadyChain(q0: Queue, q1: Queue, q2: Queue)
    requires Steady(q0, q1) && Steady(q1, q2)
    ensures Steady(q0, q2)
  {
  }

  // ---- session calls ----

  lemma OwnersStay(sessions: map<Id, Session>, sessions': map<Id, Session>, starts: seq<Start>, pc: Pc)
    requires OwnersOk(sessions, starts, pc) && SameOwners(sessions, sessions')
    ensures OwnersOk(sessions', starts, pc)
  {
    forall sid | sid in sessions'
      ensures OwnerOk(sessions'[sid], starts, pc)
    {
      if sid in sessions {
        assert OwnerOk(sessions[sid], starts, pc);
      }
    }
  }

  lemma SettleSteady(q: Queue, aid: Id, o: Outcome)
    requires Ended(o.state)
    ensures Steady(q, Settle(q, aid, o))
  {
    hide Amend;
    SteadySelf(q);
  }

  lemma SettleJobs(c: Config, q: Queue, prompts: map<Id, string>, aid: Id, o: Outcome)
    requires Ended(o.state) && JobsOk(c, q.jobs, prompts)
    ensures JobsOk(c, Settle(q, aid, o).jobs, prompts)
  {
    hide Amend;
  }

  lemma SettlePc(c: Config, w: World, aid: Id, o: Outcome)
    requires Sound(c, w) && Ended(o.state) && WasStarted(w.d.log.starts, aid)
    requires w.pc.Started? ==> aid != w.pc.aid
    ensures PcOk(w.pc, Settle(w.d.queue, aid, o), w.d.log.starts)
  {
    hide Amend;
    hide StartsOk;
    hide JobsOk;
    hide OwnersOk;
    StartedIsPast(c, w, aid);
  }

  lemma SettleSound(c: Config, w: World, aid: Id, o: Outcome)
    requires Sound(c, w) && Ended(o.state) && WasStarted(w.d.log.starts, aid)
    requires w.pc.Started? ==> aid != w.pc.aid
    ensures Sound(c, w.(d := w.d.(queue := Settle(w.d.queue, aid, o))))
    ensures Steady(w.d.queue, Settle(w.d.queue, aid, o))
  {
    hide Amend;
    hide PcOk;
    hide WasStarted;
    hide OwnersOk;
    hide StartsOk;
    hide JobsOk;
    SettleSteady(w.d.queue, aid, o);
    SettlePc(c, w, aid, o);
    SettleJobs(c, w.d.queue, w.d.log.prompts, aid, o);
    if aid in w.d.queue.attempts {
      var a := Close(w.d.queue.attempts[aid], o);
      RewriteShape(w.d.queue.attempts, aid, a);
      RewriteStarts(c, w.d.log.starts, w.d.queue.attempts, w.d.log.prompts, aid, a);
    }
  }

  /** Any call that changes sessions and at most closes one started attempt. */
  lemma ClosingSound(c: Config, w: World, sid: Id, out: Option<Outcome>, d': Data)
    requires Sound(c, w) && Closing(w.d, sid, out, d')
    ensures Sound(c, w.(d := d')) && Steady(w.d.queue, d'.queue)
  {
    hide Settle;
    hide PcOk;
    hide StartsOk;
    hide JobsOk;
    hide ShapeOk;
    hide Steady;
    SteadySelf(w.d.queue);
    OwnersStay(w.d.sessions, d'.sessions, w.d.log.starts, w.pc);
    if out.Some? {
      assert OwnerOk(w.d.sessions[sid], w.d.log.starts, w.pc);
      SettleSound(c, w, w.d.sessions[sid].key.attemptId, out.value);
    }
  }

  // ---- the other calls ----

  lemma RecoverRecords(c: Config, starts: seq<Start>, all: map<Id, Attempt>, prompts: map<Id, string>, now: int)
    requires ShapeOk(all) && StartsOk(c, starts, all, prompts)
    ensures var all' := RecoverExpired(all, now, c.leaseS);
      ShapeOk(all') && StartsOk(c, starts, all', prompts) && SteadyAttempts(all, all')
  {
    var all' := RecoverExpired(all, now, c.leaseS);
    forall i | 0 <= i < |starts|
      ensures GoodStart(c, starts[i], all', prompts)
    {
      assert GoodStart(c, starts[i], all, prompts);
    }
  }

  lemma RecoverSound(c: Config, w: World, now: int)
    requires Sound(c, w)
    ensures Sound(c, Step(c, w, Recover(now))) && Steady(w.d.queue, Step(c, w, Recover(now)).d.queue)
  {
    hide RecoverExpired;
    hide StartsOk;
    hide JobsOk;
    hide OwnersOk;
    hide ShapeOk;
    RecoverRecords(c, w.d.log.starts, w.d.queue.attempts, w.d.log.prompts, now);
    SteadySelf(w.d.queue);
  }

  lemma CheckSound(c: Config, w: World, aid: Id)
    requires Sound(c, w)
    ensures Sound(c, Step(c, w, Check(aid)))
  {
    hide CanStart;
  }

  lemma ClaimSound(c: Config, w: World, owner: string, now: int)
    requires Sound(c, w)
    ensures var w' := Step(c, w, ClaimChecked(owner, now)); Sound(c, w') && Steady(w.d.queue, w'.d.queue)
  {
    hide StartsOk;
    hide JobsOk;
    hide ShapeOk;
    hide WasStarted;
    SteadySelf(w.d.queue);
    if w.pc.Checked? && Claimable(w.d.queue.attempts, w.pc.aid, now) {
      var a := ClaimRecord(w.d.queue.attempts[w.pc.aid], owner, now);
      if WasStarted(w.d.log.starts, w.pc.aid) { StartedIsPast(c, w, w.pc.aid); }
      assert RecordOk(w.d.queue.attempts[w.pc.aid]) by { ShapeAt(w.d.queue.attempts, w.pc.aid); }
      RewriteShape(w.d.queue.attempts, w.pc.aid, a);
      RewriteStarts(c, w.d.log.starts, w.d.queue.attempts, w.d.log.prompts, w.pc.aid, a);
    }
  }

  lemma ShapeAt(all: map<Id, Attempt>, x: Id)
    requires ShapeOk(all) && x in all
    ensures RecordOk(all[x])
  {
  }

  /** A new attempt that was never started, whatever its job. */
  lemma AddStarts(c: Config, starts: seq<Start>, all: map<Id, Attempt>, prompts: map<Id, string>,
                  aid: Id, a: Attempt, jobs: map<Id, Job>, jobId: Id, prompt: string)
    requires StartsOk(c, starts, all, prompts) && aid !in all && JobsOk(c, jobs, prompts) && jobId !in jobs
    ensures StartsOk(c, starts, all[aid := a], prompts) && StartsOk(c, starts, all[aid := a], prompts[jobId := prompt])
  {
    forall i | 0 <= i < |starts|
      ensures GoodStart(c, starts[i], all[aid := a], prompts)
      ensures GoodStart(c, starts[i], all[aid := a], prompts[jobId := prompt])
    {
      assert GoodStart(c, starts[i], all, prompts);
    }
  }

  /** Adding records leaves the dispatcher's copies in order. */
  lemma PcKept(pc: Pc, q: Queue, q': Queue, starts: seq<Start>)
    requires PcOk(pc, q, starts) && SteadyJobs(q.jobs, q'.jobs)
    requires forall x :: x in q.attempts ==> x in q'.attempts && q'.attempts[x] == q.attempts[x]
    ensures PcOk(pc, q', starts)
  {
    hide WasStarted;
  }

  lemma AddJob(c: Config, jobs: map<Id, Job>, prompts: map<Id, string>, r: Request, jobId: Id, payloadId: Id)
    requires JobsOk(c, jobs, prompts) && jobId !in jobs
    ensures JobsOk(c, jobs[jobId := NewJob(c, r, payloadId)], prompts[jobId := r.prompt])
    ensures SteadyJobs(jobs, jobs[jobId := NewJob(c, r, payloadId)])
  {
  }

  lemma SubmitSound(c: Config, w: World, r: Request, jobId: Id, payloadId: Id, repoOk: bool, now: int)
    requires Sound(c, w) && jobId !in w.d.queue.jobs
    ensures var d' := Submit(c, w.d, r, jobId, payloadId, repoOk, now);
      Sound(c, w.(d := d')) && Steady(w.d.queue, d'.queue)
  {
    hide SafeIdent;
    hide StartsOk;
    hide OwnersOk;
    hide JobsOk;
    hide PcOk;
    hide NewJob;
    hide SteadyJobs;
    SteadySelf(w.d.queue);
    if !SubmitReply(c, w.d.queue, r, jobId, repoOk).Refused? {
      AddStarts(c, w.d.log.starts, w.d.queue.attempts, w.d.log.prompts, r.attemptId,
                NewAttempt(jobId, r.harness, "", now), w.d.queue.jobs, jobId, r.prompt);
      AddJob(c, w.d.queue.jobs, w.d.log.prompts, r, jobId, payloadId);
      PcKept(w.pc, w.d.queue, Submit(c, w.d, r, jobId, payloadId, repoOk, now).queue, w.d.log.starts);
    }
  }

  lemma ReopenJobs(c: Config, jobs: map<Id, Job>, prompts: map<Id, string>, jobId: Id, aid: Id)
    requires JobsOk(c, jobs, prompts) && jobId in jobs
    ensures JobsOk(c, jobs[jobId := Reopened(jobs[jobId], aid)], prompts)
    ensures SteadyJobs(jobs, jobs[jobId := Reopened(jobs[jobId], aid)])
  {
  }

  lemma RetrySound(c: Config, w: World, jobId: Id, id: Option<Id>, key: string, now: int)
    requires Sound(c, w) && Fresh(c, w, DoRetry(jobId, id, key, now))
    ensures var d' := Service.Retry(c, w.d, jobId, id, key, now);
      Sound(c, w.(d := d')) && Steady(w.d.queue, d'.queue)
  {
    hide RetryReply;
    hide StartsOk;
    hide OwnersOk;
    hide JobsOk;
    hide PcOk;
    hide WasStarted;
    hide Reopened;
    hide SteadyJobs;
    SteadySelf(w.d.queue);
    var reply := RetryReply(c, w.d, jobId, id, key);
    if reply.Enqueued? {
      var aid := reply.attemptId;
      var a := NewAttempt(jobId, w.d.queue.jobs[jobId].spec.harness, key, now);
      if WasStarted(w.d.log.starts, aid) { StartedIsPast(c, w, aid); }
      RewriteStarts(c, w.d.log.starts, w.d.queue.attempts, w.d.log.prompts, aid, a);
      ReopenJobs(c, w.d.queue.jobs, w.d.log.prompts, jobId, aid);
      PcKept(w.pc, w.d.queue, Reopen(w.d.queue, jobId, aid, key, now), w.d.log.starts);
    }
  }

  lemma RestartSound(c: Config, w: World)
    requires Sound(c, w)
    ensures Sound(c, Restart(w)) && Steady(w.d.queue, Restart(w).d.queue)
  {
    hide StartsOk;
    hide JobsOk;
    hide ShapeOk;
    hide WasStarted;
    SteadySelf(w.d.queue);
    forall sid | sid in w.d.sessions
      ensures OwnerOk(w.d.sessions[sid], w.d.log.starts, Idle)
    {
      assert OwnerOk(w.d.sessions[sid], w.d.log.starts, w.pc);
    }
  }

  // ---- the dispatcher ----

  /** Saving the held attempt under its key. */
  lemma SaveSound(c: Config, w: World, aid: Id, a: Attempt, pc': Pc)
    requires Sound(c, w) && aid in w.d.queue.attempts && a.key == w.d.queue.attempts[aid].key && RecordOk(a)
    requires WasStarted(w.d.log.starts, aid) ==> Past(a)
    requires PcOk(pc', SaveAttempt(w.d, aid, a).queue, w.d.log.starts) && !pc'.Started?
    ensures Sound(c, World(SaveAttempt(w.d, aid, a), pc', w.torn))
    ensures Steady(w.d.queue, SaveAttempt(w.d, aid, a).queue)
  {
    hide StartsOk;
    hide JobsOk;
    hide ShapeOk;
    hide WasStarted;
    hide PcOk;
    RewriteShape(w.d.queue.attempts, aid, a);
    RewriteStarts(c, w.d.log.starts, w.d.queue.attempts, w.d.log.prompts, aid, a);
    RewriteSteady(w.d.queue.attempts, aid, a);
    SteadySelf(w.d.queue);
    OwnersElsewhere(w.d.sessions, w.d.log.starts, w.pc, pc');
  }

  lemma OwnersElsewhere(sessions: map<Id, Session>, starts: seq<Start>, pc: Pc, pc': Pc)
    requires OwnersOk(sessions, starts, pc) && (pc'.Started? ==> pc.Started? && pc.aid == pc'.aid)
    ensures OwnersOk(sessions, starts, pc')
  {
    forall sid | sid in sessions
      ensures OwnerOk(sessions[sid], starts, pc')
    {
      assert OwnerOk(sessions[sid], starts, pc);
    }
  }

  /** Moving on without a write. */
  lemma MoveSound(c: Config, w: World, pc': Pc)
    requires Sound(c, w) && PcOk(pc', w.d.queue, w.d.log.starts) && !pc'.Started?
    ensures Sound(c, w.(pc := pc')) && Steady(w.d.queue, w.d.queue)
  {
    hide StartsOk;
    hide JobsOk;
    hide ShapeOk;
    hide PcOk;
    SteadySelf(w.d.queue);
    OwnersElsewhere(w.d.sessions, w.d.log.starts, w.pc, pc');
  }

  /** Step results for the dispatcher, spelled out. */
  ghost predicate KeepsSound(c: Config, w: World, r: (Data, Pc)) {
    Sound(c, World(r.0, r.1, w.torn)) && Steady(w.d.queue, r.0.queue)
  }

  lemma BeginSound(c: Config, w: World, o: Oracle)
    requires Sound(c, w) && w.pc.Claimed?
    ensures KeepsSound(c, w, Begin(w.d, w.pc.aid, o))
  {
    hide Sound;
    hide Steady;
    var aid := w.pc.aid;
    var (d', pc') := Begin(w.d, aid, o);
    ClaimedNotStarted(c, w);
    if pc'.Idle? {
      MoveSound(c, w, Idle);
    } else {
      SaveSound(c, w, aid, d'.queue.attempts[aid], pc');
    }
  }

  lemma ClaimedNotStarted(c: Config, w: World)
    requires Sound(c, w) && w.pc.Claimed?
    ensures w.pc.aid in w.d.queue.attempts && !WasStarted(w.d.log.starts, w.pc.aid)
    ensures RecordOk(w.d.queue.attempts[w.pc.aid])
  {
    hide JobsOk;
    hide OwnersOk;
    ShapeAt(w.d.queue.attempts, w.pc.aid);
    if WasStarted(w.d.log.starts, w.pc.aid) { StartedIsPast(c, w, w.pc.aid); }
  }

  lemma HoldingSound(c: Config, w: World)
    requires Sound(c, w) && w.pc.Holding?
    ensures var d' := w.d.(queue := w.d.queue.(attempts := Release(w.d.queue.attempts, w.pc.aid)));
      KeepsSound(c, w, (d', Idle))
  {
    hide StartsOk;
    hide JobsOk;
    hide OwnersOk;
    var aid := w.pc.aid;
    ShapeAt(w.d.queue.attempts, aid);
    if WasStarted(w.d.log.starts, aid) { StartedIsPast(c, w, aid); }
    SaveSound(c, w, aid, ReleaseRecord(w.d.queue.attempts[aid]), Idle);
  }

  lemma SaveJobSound(c: Config, w: World, jobId: Id, job: Job)
    requires Sound(c, w) && KnownJob(jobId, job, w.d.queue.jobs)
    ensures KeepsSound(c, w, (SaveJob(w.d, jobId, job), Idle))
  {
    hide StartsOk;
    hide ShapeOk;
    SteadySelf(w.d.queue);
    OwnersElsewhere(w.d.sessions, w.d.log.starts, w.pc, Idle);
  }

  lemma FailSound(c: Config, w: World, reason: Reason)
    requires Sound(c, w) && (w.pc.Prepared? || w.pc.Started?)
    ensures KeepsSound(c, w, Fail(w.d, w.pc.aid, w.pc.att, w.pc.job, reason))
  {
    hide StartsOk;
    hide JobsOk;
    hide ShapeOk;
    hide OwnersOk;
    hide WasStarted;
    hide Steady;
    SaveSound(c, w, w.pc.aid, FailRecord(w.pc.att, reason),
              Failing(w.pc.aid, w.pc.att.key.jobId, FailJob(w.pc.job, reason)));
  }

  lemma StartedMore(starts: seq<Start>, s: Start, x: Id)
    ensures WasStarted(starts + [s], x) <==> WasStarted(starts, x) || x == s.attemptId
  {
    if WasStarted(starts, x) {
      var i :| 0 <= i < |starts| && starts[i].attemptId == x;
      assert (starts + [s])[i].attemptId == x;
    }
    if x == s.attemptId {
      assert (starts + [s])[|starts|].attemptId == x;
    }
  }

  lemma AppendStart(c: Config, starts: seq<Start>, all: map<Id, Attempt>, prompts: map<Id, string>, s: Start)
    requires StartsOk(c, starts, all, prompts) && GoodStart(c, s, all, prompts) && !WasStarted(starts, s.attemptId)
    ensures StartsOk(c, starts + [s], all, prompts)
  {
    forall i | 0 <= i < |starts|
      ensures GoodStart(c, starts[i], all, prompts) && starts[i].attemptId != s.attemptId
    {
    }
  }

  /** No session of the attempt being started exists: none existed before the
      start, for sessions belong to started attempts. */
  lemma AppendOwners(sessions: map<Id, Session>, starts: seq<Start>, pc: Pc, s: Start, pc': Pc)
    requires OwnersOk(sessions, starts, pc) && !WasStarted(starts, s.attemptId)
    requires pc'.Started? ==> pc'.aid == s.attemptId
    ensures OwnersOk(sessions, starts + [s], pc')
  {
    forall sid | sid in sessions
      ensures OwnerOk(sessions[sid], starts + [s], pc')
    {
      assert OwnerOk(sessions[sid], starts, pc);
      StartedMore(starts, s, sessions[sid].key.attemptId);
    }
  }

  lemma StartSound(c: Config, w: World, prompt: string, g: Gateway)
    requires Sound(c, w) && w.pc.Prepared?
    requires c.sha(prompt) == w.pc.job.spec.contentHash
    ensures var s := Start(w.pc.aid, w.pc.att.key.jobId, prompt);
      KeepsSound(c, w, (w.d.(log := w.d.log.(starts := w.d.log.starts + [s])), Started(w.pc.aid, w.pc.att, w.pc.job, g)))
  {
    hide StartsOk;
    hide ShapeOk;
    hide OwnersOk;
    hide WasStarted;
    var s := Start(w.pc.aid, w.pc.att.key.jobId, prompt);
    SteadySelf(w.d.queue);
    AppendStart(c, w.d.log.starts, w.d.queue.attempts, w.d.log.prompts, s);
    AppendOwners(w.d.sessions, w.d.log.starts, w.pc, s, Started(w.pc.aid, w.pc.att, w.pc.job, g));
    StartedMore(w.d.log.starts, s, w.pc.aid);
  }

  /** Only a payload with the job's hash reaches the gateway. */
  lemma LaunchSound(c: Config, w: World, g: Gateway)
    requires Sound(c, w) && w.pc.Prepared?
    ensures KeepsSound(c, w, Launch(c, w.d, w.pc.aid, w.pc.att, w.pc.job, g))
  {
    hide Sound;
    hide KeepsSound;
    hide Fail;
    var file := LoadPayload(c, w.d.payloads, w.pc.job.spec.payloadRef);
    FailSound(c, w, PayloadFailed);
    FailSound(c, w, PayloadMismatch);
    if file.Some? && file.value.hash == w.pc.job.spec.contentHash {
      StartSound(c, w, file.value.instructions, g);
    }
  }

  lemma RegisterSound(c: Config, w: World, sid: Id, ss: Session)
    requires Sound(c, w) && w.pc.Started? && sid !in w.d.sessions
    requires ss.key.managed && ss.key.attemptId == w.pc.aid
    ensures KeepsSound(c, w, (w.d.(sessions := w.d.sessions[sid := ss]), Registered(w.pc.aid, w.pc.att, w.pc.job, sid)))
  {
    hide StartsOk;
    hide JobsOk;
    hide WasStarted;
    var pc' := Registered(w.pc.aid, w.pc.att, w.pc.job, sid);
    SteadySelf(w.d.queue);
    OwnersElsewhere(w.d.sessions, w.d.log.starts, w.pc, pc');
    var sessions' := w.d.sessions[sid := ss];
    forall x | x in sessions'
      ensures OwnerOk(sessions'[x], w.d.log.starts, pc')
    {
      if x != sid { assert OwnerOk(w.d.sessions[x], w.d.log.starts, pc'); }
    }
  }

  lemma RecordSound(c: Config, w: World, o: Oracle)
    requires Sound(c, w) && w.pc.Started? && Fresh(c, w, Dispatch(o))
    ensures KeepsSound(c, w, Record(c, w.d, w.pc.aid, w.pc.att, w.pc.job, w.pc.gateway, o.now))
  {
    hide KeepsSound;
    hide Fail;
    hide RetryReply;
    match w.pc.gateway
    case StartRaised => RaisedSound(c, w);
    case StartFailed(message) => FailSound(c, w, Reason.Gateway(message));
    case StartOk(sid, _, _, _) =>
      RegisterSound(c, w, sid, NewSession(c, w.pc.aid, w.pc.job, w.pc.gateway, o.now));
  }

  lemma RaisedSound(c: Config, w: World)
    requires Sound(c, w)
    ensures KeepsSound(c, w, (w.d, Idle))
  {
    hide Sound;
    hide Steady;
    MoveSound(c, w, Idle);
  }

  lemma BindSound(c: Config, w: World)
    requires Sound(c, w) && w.pc.Registered?
    ensures KeepsSound(c, w, (SaveAttempt(w.d, w.pc.aid, w.pc.att.(sessionId := w.pc.sid)),
      Bound(w.pc.aid, w.pc.att.key.jobId, w.pc.job.(state := JState.Running), w.pc.sid)))
  {
    hide StartsOk;
    hide JobsOk;
    hide ShapeOk;
    hide OwnersOk;
    hide WasStarted;
    hide Steady;
    SaveSound(c, w, w.pc.aid, w.pc.att.(sessionId := w.pc.sid),
              Bound(w.pc.aid, w.pc.att.key.jobId, w.pc.job.(state := JState.Running), w.pc.sid));
  }

  lemma AdvanceSound(c: Config, w: World, o: Oracle)
    requires Sound(c, w) && Fresh(c, w, Dispatch(o))
    ensures KeepsSound(c, w, Advance(c, w.d, w.pc, o))
  {
    hide Fresh;
    hide KeepsSound;
    hide Begin;
    hide Launch;
    hide Record;
    hide StartsOk;
    hide JobsOk;
    hide ShapeOk;
    hide OwnersOk;
    hide WasStarted;
    match w.pc
    case Idle => RaisedSound(c, w);
    case Checked(_) => StayedSound(c, w);
    case Claimed(_) => BeginSound(c, w, o);
    case Holding(_) => HoldingSound(c, w);
    case Failing(_, jobId, j) => SaveJobSound(c, w, jobId, j);
    case Prepared(_, _, _) => LaunchSound(c, w, o.gateway);
    case Started(_, _, _, _) => RecordSound(c, w, o);
    case Registered(_, _, _, _) => BindSound(c, w);
    case Bound(_, jobId, j, _) => SaveJobSound(c, w, jobId, j);
  }

  lemma StayedSound(c: Config, w: World)
    requires Sound(c, w)
    ensures KeepsSound(c, w, (w.d, w.pc))
  {
    hide Sound;
    SteadySelf(w.d.queue);
    assert World(w.d, w.pc, w.torn) == w;
  }

  // ---- every step, every run ----

  lemma StepSound(c: Config, w: World, act: Act)
    requires Sound(c, w) && Fresh(c, w, act)
    ensures Sound(c, Step(c, w, act)) && Steady(w.d.queue, Step(c, w, act).d.queue)
  {
    hide Sound;
    hide Fresh;
    hide Steady;
    hide Advance;
    hide Submit;
    hide Retry;
    hide MonitorOne;
    hide Cancel;
    hide ReconcileOne;
    hide Status;
    hide MarkCancel;
    hide RecoverExpired;
    hide TakeClaim;
    match act
    case Recover(now) => RecoverSound(c, w, now);
    case Check(aid) => CheckSound(c, w, aid); SteadySelf(w.d.queue);
    case ClaimChecked(owner, now) => ClaimSound(c, w, owner, now);
    case Dispatch(o) => AdvanceSound(c, w, o);
    case DoSubmit(r, jobId, payloadId, repoOk, now) =>
      FreshSubmit(c, w, act);
      SubmitSound(c, w, r, jobId, payloadId, repoOk, now);
    case DoRetry(jobId, id, key, now) => RetrySound(c, w, jobId, id, key, now);
    case CancelCrash(sid) =>
      MarkShape(w.d, sid);
      ClosingSound(c, w, sid, None, MarkCancel(w.d, sid));
      RestartSound(c, w.(d := MarkCancel(w.d, sid)));
      SteadyChain(w.d.queue, MarkCancel(w.d, sid).queue, Step(c, w, act).d.queue);
    case Crash => RestartSound(c, w);
    case _ =>
      hide Step;
      var out := SessionShape(c, w, act);
      ClosingSound(c, w, ActSession(act), out, Step(c, w, act).d);
  }

  lemma FreshSubmit(c: Config, w: World, act: Act)
    requires act.DoSubmit? && Fresh(c, w, act)
    ensures act.jobId !in w.d.queue.jobs
  {
  }

  lemma {:induction false} SoundFrom(c: Config, w: World, acts: seq<Act>, k: Discipline)
    requires Sound(c, w) && k.newIds && Admissible(c, w, acts, k)
    ensures Sound(c, Run(c, w, acts)) && Steady(w.d.queue, Run(c, w, acts).d.queue)
    decreases |acts|
  {
    hide Step;
    hide Fresh;
    hide Sound;
    hide Steady;
    SteadySelf(w.d.queue);
    if acts != [] {
      StepSound(c, w, acts[0]);
      SoundFrom(c, Step(c, w, acts[0]), acts[1..], k);
      SteadyChain(w.d.queue, Step(c, w, acts[0]).d.queue, Run(c, w, acts).d.queue);
    }
  }

  lemma SoundRun(c: Config, acts: seq<Act>, k: Discipline)
    requires k.newIds && Admissible(c, Init(), acts, k)
    ensures Sound(c, Run(c, Init(), acts))
  {
    hide Step;
    SoundFrom(c, Init(), acts, k);
  }
}
