/** Open attempts and open jobs, along every run in which no write revives a
    closed attempt. */
module Openings {
  import opened Prelude
  import opened Records
  import opened Scheduling
  import opened Engine
  import opened Service
  import opened Lifecycle
  import opened Shapes
  import opened Foundation
  import opened Stranded

  predicate AtHome(a: Attempt, jobs: map<Id, Job>) {
    a.key.jobId in jobs && (!a.terminal ==> !JobEnded(jobs[a.key.jobId].state))
  }

  /** Every attempt has its job; an open one has an open job, and is the only
      open one of it. */
  predicate OpenOk(all: map<Id, Attempt>, jobs: map<Id, Job>) {
    && (forall x :: x in all ==> AtHome(all[x], jobs))
    && (forall x, y ::
          x in all && y in all && !all[x].terminal && !all[y].terminal && all[x].key.jobId == all[y].key.jobId
          ==> x == y)
  }

  /** A job about to be closed has no open attempt, and is not closed yet. */
  predicate WriteOk(pc: Pc, all: map<Id, Attempt>, jobs: map<Id, Job>) {
    && (pc.Failing? ==> pc.jobId in jobs && !JobEnded(jobs[pc.jobId].state) && AllClosed(all, pc.jobId))
    && (pc.Bound? ==> !JobEnded(pc.job.state))
  }

  predicate Ordered(w: World) {
    && OpenOk(w.d.queue.attempts, w.d.queue.jobs) && WriteOk(w.pc, w.d.queue.attempts, w.d.queue.jobs)
    && forall j :: j in w.torn ==> Stuck(w, j)
  }

  // ---- records ----

  /** Same records as far as this goes. */
  predicate SameOpen(all: map<Id, Attempt>, all': map<Id, Attempt>) {
    && all'.Keys == all.Keys
    && forall x :: x in all ==> all'[x].key == all[x].key && all'[x].terminal == all[x].terminal
  }

  lemma SameOpenOk(all: map<Id, Attempt>, all': map<Id, Attempt>, jobs: map<Id, Job>, pc: Pc)
    requires SameOpen(all, all') && OpenOk(all, jobs) && WriteOk(pc, all, jobs)
    ensures OpenOk(all', jobs) && WriteOk(pc, all', jobs)
  {
    forall x | x in all'
      ensures AtHome(all'[x], jobs)
    {
      assert AtHome(all[x], jobs);
    }
  }

  lemma SaveOpen(all: map<Id, Attempt>, x: Id, a: Attempt)
    requires x in all && a.key == all[x].key && a.terminal == all[x].terminal
    ensures SameOpen(all, all[x := a])
  {
  }

  /** Closing an attempt leaves its job without an open one. */
  lemma CloseOpen(all: map<Id, Attempt>, jobs: map<Id, Job>, x: Id, a: Attempt)
    requires OpenOk(all, jobs) && x in all && !all[x].terminal && a.key == all[x].key && a.terminal
    ensures OpenOk(all[x := a], jobs) && AllClosed(all[x := a], a.key.jobId)
    ensures a.key.jobId in jobs && !JobEnded(jobs[a.key.jobId].state)
  {
    assert AtHome(all[x], jobs);
    var all' := all[x := a];
    forall y | y in all'
      ensures AtHome(all'[y], jobs)
    {
      assert AtHome(all[y], jobs);
    }
  }

  /** A job without an open attempt, or any job that stays open, may be saved. */
  lemma SaveJobOpen(all: map<Id, Attempt>, jobs: map<Id, Job>, j: Id, job: Job)
    requires OpenOk(all, jobs) && (AllClosed(all, j) || !JobEnded(job.state))
    ensures OpenOk(all, jobs[j := job])
  {
    forall x | x in all
      ensures AtHome(all[x], jobs[j := job])
    {
      assert AtHome(all[x], jobs);
    }
  }

  /** A new attempt of a job without an open one. */
  lemma AddOpen(all: map<Id, Attempt>, jobs: map<Id, Job>, x: Id, a: Attempt, job: Job, pc: Pc)
    requires OpenOk(all, jobs) && WriteOk(pc, all, jobs) && x !in all && !JobEnded(job.state)
    requires a.key.jobId !in jobs || JobEnded(jobs[a.key.jobId].state)
    ensures OpenOk(all[x := a], jobs[a.key.jobId := job]) && WriteOk(pc, all[x := a], jobs[a.key.jobId := job])
  {
    var all', jobs' := all[x := a], jobs[a.key.jobId := job];
    forall y | y in all'
      ensures AtHome(all'[y], jobs')
      ensures y != x && all'[y].key.jobId == a.key.jobId ==> all'[y].terminal
    {
      if y != x { assert AtHome(all[y], jobs); }
    }
  }

  lemma SettleOpen(q: Queue, aid: Id, o: Outcome, pc: Pc)
    requires Ended(o.state) && OpenOk(q.attempts, q.jobs) && WriteOk(pc, q.attempts, q.jobs)
    ensures var q' := Settle(q, aid, o); OpenOk(q'.attempts, q'.jobs) && WriteOk(pc, q'.attempts, q'.jobs)
  {
    hide Amend;
    hide OpenOk;
    if aid in q.attempts && !q.attempts[aid].terminal {
      var a := Close(q.attempts[aid], o);
      CloseOpen(q.attempts, q.jobs, aid, a);
      SaveJobOpen(q.attempts[aid := a], q.jobs, a.key.jobId, CloseJob(q.jobs[a.key.jobId], o));
    }
  }

  // ---- steps ----

  lemma SessionActOpen(c: Config, w: World, act: Act)
    requires Ordered(w) && SessionAct(act) && Fresh(c, w, act)
    ensures var w' := Step(c, w, act);
      OpenOk(w'.d.queue.attempts, w'.d.queue.jobs) && WriteOk(w'.pc, w'.d.queue.attempts, w'.d.queue.jobs)
  {
    hide Step;
    hide Fresh;
    hide Settle;
    hide SameOwners;
    hide OpenOk;
    hide WriteOk;
    hide Stuck;
    var out := SessionShape(c, w, act);
    if out.Some? { SettleOpen(w.d.queue, w.d.sessions[ActSession(act)].key.attemptId, out.value, w.pc); }
  }

  ghost predicate Opens(r: (Data, Pc)) {
    OpenOk(r.0.queue.attempts, r.0.queue.jobs) && WriteOk(r.1, r.0.queue.attempts, r.0.queue.jobs)
  }

  lemma FailOpens(d: Data, aid: Id, a: Attempt, j: Job, reason: Reason)
    requires OpenOk(d.queue.attempts, d.queue.jobs) && aid in d.queue.attempts
    requires a == d.queue.attempts[aid] && !a.terminal
    ensures Opens(Fail(d, aid, a, j, reason))
  {
    hide OpenOk;
    CloseOpen(d.queue.attempts, d.queue.jobs, aid, FailRecord(a, reason));
  }

  lemma BeginOpens(c: Config, w: World, o: Oracle)
    requires Sound(c, w) && Ordered(w) && w.pc.Claimed?
    ensures Opens(Begin(w.d, w.pc.aid, o))
  {
    hide Sound;
    hide OpenOk;
    hide Fail;
    hide Stuck;
    OpenElsewhere(c, w);
    var aid := w.pc.aid;
    var a := w.d.queue.attempts[aid];
    if a.key.jobId in w.d.queue.jobs { FailOpens(w.d, aid, a, w.d.queue.jobs[a.key.jobId], WorktreeFailed); }
    SaveOpen(w.d.queue.attempts, aid, HeldRecord(a, o.now + o.backoff));
    SameOpenOk(w.d.queue.attempts, w.d.queue.attempts[aid := HeldRecord(a, o.now + o.backoff)], w.d.queue.jobs, Idle);
    SaveOpen(w.d.queue.attempts, aid, a.(state := AState.Running));
    SameOpenOk(w.d.queue.attempts, w.d.queue.attempts[aid := a.(state := AState.Running)], w.d.queue.jobs, Idle);
  }

  lemma LaunchOpens(c: Config, w: World, o: Oracle)
    requires Sound(c, w) && Ordered(w) && (w.pc.Prepared? || w.pc.Started?)
    ensures Opens(Advance(c, w.d, w.pc, o))
  {
    hide Sound;
    hide OpenOk;
    hide Fail;
    hide LoadPayload;
    hide NewSession;
    hide Stuck;
    OpenElsewhere(c, w);
    FailOpens(w.d, w.pc.aid, w.pc.att, w.pc.job, PayloadFailed);
    FailOpens(w.d, w.pc.aid, w.pc.att, w.pc.job, PayloadMismatch);
    if w.pc.Started? && w.pc.gateway.StartFailed? {
      FailOpens(w.d, w.pc.aid, w.pc.att, w.pc.job, Reason.Gateway(w.pc.gateway.message));
    }
  }

  lemma SaveAgainOpens(c: Config, w: World, o: Oracle)
    requires Sound(c, w) && Ordered(w) && !Revives(w, Dispatch(o)) && (w.pc.Holding? || w.pc.Registered?)
    ensures Opens(Advance(c, w.d, w.pc, o))
  {
    hide StartsOk;
    hide JobsOk;
    hide OwnersOk;
    hide ShapeOk;
    hide WasStarted;
    hide OpenOk;
    hide Stuck;
    if w.pc.Holding? { OpenElsewhere(c, w); }
    var all' := Advance(c, w.d, w.pc, o).0.queue.attempts;
    if w.pc.Registered? {
      RunningOpen(c, w);
      SaveOpen(w.d.queue.attempts, w.pc.aid, w.pc.att.(sessionId := w.pc.sid));
    } else {
      SaveOpen(w.d.queue.attempts, w.pc.aid, ReleaseRecord(w.d.queue.attempts[w.pc.aid]));
    }
    SameOpenOk(w.d.queue.attempts, all', w.d.queue.jobs, Idle);
    BoundOpen(c, w, o);
  }

  lemma RunningOpen(c: Config, w: World)
    requires Sound(c, w) && w.pc.Registered?
    ensures !w.pc.att.terminal && w.pc.aid in w.d.queue.attempts && w.pc.att.key == w.d.queue.attempts[w.pc.aid].key
  {
    hide StartsOk;
    hide JobsOk;
    hide OwnersOk;
    hide ShapeOk;
    hide WasStarted;
  }

  lemma BoundOpen(c: Config, w: World, o: Oracle)
    requires w.pc.Holding? || w.pc.Registered?
    ensures var pc' := Advance(c, w.d, w.pc, o).1; !pc'.Failing? && (pc'.Bound? ==> !JobEnded(pc'.job.state))
  {
    hide Release;
  }

  lemma DispatchOpen(c: Config, w: World, o: Oracle)
    requires Sound(c, w) && Ordered(w) && !Revives(w, Dispatch(o))
    ensures Opens(Advance(c, w.d, w.pc, o))
  {
    hide Sound;
    hide OpenOk;
    hide Begin;
    hide Launch;
    hide Record;
    hide Revives;
    hide Stuck;
    match w.pc
    case Claimed(_) => BeginOpens(c, w, o);
    case Prepared(_, _, _) => LaunchOpens(c, w, o);
    case Started(_, _, _, _) => LaunchOpens(c, w, o);
    case Holding(_) => SaveAgainOpens(c, w, o);
    case Registered(_, _, _, _) => SaveAgainOpens(c, w, o);
    case Failing(_, jobId, j) => SaveJobOpen(w.d.queue.attempts, w.d.queue.jobs, jobId, j);
    case Bound(_, jobId, j, _) => SaveJobOpen(w.d.queue.attempts, w.d.queue.jobs, jobId, j);
    case _ =>
  }

  lemma RecoverOpen(all: map<Id, Attempt>, now: int, leaseS: int)
    ensures SameOpen(all, RecoverExpired(all, now, leaseS))
  {
  }

  lemma ClaimOpen(all: map<Id, Attempt>, aid: Id, owner: string, now: int)
    ensures SameOpen(all, TakeClaim(all, aid, owner, now))
  {
  }

  lemma OthersOpen(c: Config, w: World, act: Act)
    requires Ordered(w) && Fresh(c, w, act)
    requires act.Recover? || act.Check? || act.ClaimChecked? || act.DoSubmit? || act.DoRetry? || act.Crash? || act.CancelCrash?
    ensures var w' := Step(c, w, act);
      OpenOk(w'.d.queue.attempts, w'.d.queue.jobs) && WriteOk(w'.pc, w'.d.queue.attempts, w'.d.queue.jobs)
  {
    hide SafeIdent;
    hide RetryReply;
    hide MarkCancel;
    hide CanStart;
    hide OnHold;
    hide RecoverExpired;
    hide TakeClaim;
    hide OpenOk;
    hide Stuck;
    var q := w.d.queue;
    match act
    case Recover(now) =>
      RecoverOpen(q.attempts, now, c.leaseS);
      SameOpenOk(q.attempts, RecoverExpired(q.attempts, now, c.leaseS), q.jobs, w.pc);
    case ClaimChecked(owner, now) =>
      if w.pc.Checked? {
        ClaimOpen(q.attempts, w.pc.aid, owner, now);
        SameOpenOk(q.attempts, TakeClaim(q.attempts, w.pc.aid, owner, now), q.jobs, w.pc);
      }
    case DoSubmit(r, jobId, payloadId, repoOk, now) =>
      if !SubmitReply(c, q, r, jobId, repoOk).Refused? {
        AddOpen(q.attempts, q.jobs, r.attemptId, NewAttempt(jobId, r.harness, "", now), NewJob(c, r, payloadId), w.pc);
      }
    case DoRetry(jobId, id, key, now) =>
      var reply := RetryReply(c, w.d, jobId, id, key);
      if reply.Enqueued? {
        OnlyEndedRetried(c, w.d, jobId, id, key);
        AddOpen(q.attempts, q.jobs, reply.attemptId, NewAttempt(jobId, q.jobs[jobId].spec.harness, key, now),
                Reopened(q.jobs[jobId], reply.attemptId), w.pc);
      }
    case CancelCrash(sid) => MarkShape(w.d, sid);
    case _ =>
  }

  lemma TornStays(c: Config, w: World, act: Act)
    requires Sound(c, w) && Ordered(w) && Fresh(c, w, act)
    ensures forall j :: j in Step(c, w, act).torn ==> Stuck(Step(c, w, act), j)
  {
    hide Step;
    hide Sound;
    hide Fresh;
    hide Stuck;
    hide OpenOk;
    var w' := Step(c, w, act);
    forall j | j in w'.torn
      ensures Stuck(w', j)
    {
      TornOnly(c, w, act, j);
      if j in w.torn { StepStuck(c, w, act, j); } else { NewlyTorn(c, w, act); }
    }
  }

  lemma TornOnly(c: Config, w: World, act: Act, j: Id)
    requires j in Step(c, w, act).torn
    ensures j in w.torn || ((act.Crash? || act.CancelCrash?) && w.pc.Failing? && w.pc.jobId == j)
  {
    hide Advance;
    hide Submit;
    hide Retry;
    hide MonitorOne;
    hide Cancel;
    hide ReconcileOne;
    hide Status;
    hide MarkCancel;
    hide RecoverExpired;
    hide TakeClaim;
    hide CanStart;
    hide OnHold;
  }

  /** A crash between the two writes of a failed start strands the job. */
  lemma NewlyTorn(c: Config, w: World, act: Act)
    requires Ordered(w) && (act.Crash? || act.CancelCrash?) && w.pc.Failing?
    ensures Stuck(Step(c, w, act), w.pc.jobId)
  {
    hide MarkCancel;
    hide OpenOk;
    if act.CancelCrash? { MarkShape(w.d, act.sid); }
  }

  lemma StepOrdered(c: Config, w: World, act: Act)
    requires Sound(c, w) && Ordered(w) && Fresh(c, w, act) && !Revives(w, act)
    ensures Ordered(Step(c, w, act))
  {
    hide Sound;
    hide Fresh;
    hide Revives;
    hide OpenOk;
    hide WriteOk;
    hide Stuck;
    TornStays(c, w, act);
    hide Step;
    if SessionAct(act) { SessionActOpen(c, w, act); }
    else if act.Dispatch? { DispatchOpen(c, w, act.o); DispatchIs(c, w, act.o); }
    else { OthersOpen(c, w, act); }
  }

  lemma DispatchIs(c: Config, w: World, o: Oracle)
    ensures Step(c, w, Dispatch(o)) == World(Advance(c, w.d, w.pc, o).0, Advance(c, w.d, w.pc, o).1, w.torn)
  {
  }

  lemma {:induction false} OrderedFrom(c: Config, w: World, acts: seq<Act>, k: Discipline)
    requires Sound(c, w) && Ordered(w) && k.newIds && (k.kept || k.current) && Admissible(c, w, acts, k)
    ensures Sound(c, Run(c, w, acts)) && Ordered(Run(c, w, acts))
    decreases |acts|
  {
    hide Step;
    hide Fresh;
    hide Revives;
    hide Overwrites;
    hide Drops;
    hide FoundAlive;
    hide Sound;
    hide Ordered;
    if acts != [] {
      StepSound(c, w, acts[0]);
      StepOrdered(c, w, acts[0]);
      OrderedFrom(c, Step(c, w, acts[0]), acts[1..], k);
    }
  }

  lemma OrderedRun(c: Config, acts: seq<Act>, k: Discipline)
    requires k.newIds && (k.kept || k.current) && Admissible(c, Init(), acts, k)
    ensures Sound(c, Run(c, Init(), acts)) && Ordered(Run(c, Init(), acts))
  {
    hide Step;
    OrderedFrom(c, Init(), acts, k);
  }

  // ---- what follows ----

  /** In every run that revives nothing, a job has at most one open attempt,
      and none once it has ended. */
  lemma EndedMeansClosed(c: Config, acts: seq<Act>, x: Id, y: Id)
    requires Admissible(c, Init(), acts, KEPT_RUN)
    requires var all := Run(c, Init(), acts).d.queue.attempts;
      x in all && y in all && all[x].key.jobId == all[y].key.jobId && !all[x].terminal
    ensures var q := Run(c, Init(), acts).d.queue;
      q.attempts[x].key.jobId in q.jobs && !JobEnded(q.jobs[q.attempts[x].key.jobId].state) && (x == y || q.attempts[y].terminal)
  {
    hide Step;
    hide Stuck;
    hide WriteOk;
    OrderedRun(c, acts, KEPT_RUN);
    var q := Run(c, Init(), acts).d.queue;
    assert AtHome(q.attempts[x], q.jobs);
  }

  /** A retry opens a new attempt only when every attempt the job ever had is
      closed. */
  lemma RetryAfterAll(c: Config, acts: seq<Act>, jobId: Id, id: Option<Id>, key: string, x: Id)
    requires Admissible(c, Init(), acts, KEPT_RUN)
    requires var d := Run(c, Init(), acts).d;
      RetryReply(c, d, jobId, id, key).Enqueued? && x in d.queue.attempts && d.queue.attempts[x].key.jobId == jobId
    ensures Run(c, Init(), acts).d.queue.attempts[x].terminal
  {
    hide Step;
    hide Stuck;
    hide RetryReply;
    var d := Run(c, Init(), acts).d;
    OnlyEndedRetried(c, d, jobId, id, key);
    OrderedRun(c, acts, KEPT_RUN);
    assert AtHome(d.queue.attempts[x], d.queue.jobs);
  }

  /** A job torn by a crash stays as it is for ever: nothing ends it, and every
      retry of it that is not a duplicate is refused. */
  lemma StrandedForever(c: Config, before: seq<Act>, after: seq<Act>, j: Id, id: Option<Id>, key: string)
    requires Admissible(c, Init(), before, KEPT_RUN) && Admissible(c, Run(c, Init(), before), after, FRESH_RUN)
    requires j in Run(c, Init(), before).torn
    ensures var was := Run(c, Init(), before).d;
      var d := Run(c, Init(), before + after).d;
      && j in was.queue.jobs && j in d.queue.jobs && d.queue.jobs[j] == was.queue.jobs[j]
      && !JobEnded(d.queue.jobs[j].state) && !RetryReply(c, d, j, id, key).Enqueued?
  {
    hide Step;
    hide Sound;
    hide Fresh;
    hide AllClosed;
    hide Holds;
    hide OpenOk;
    hide WriteOk;
    hide RetryReply;
    var w := Run(c, Init(), before);
    OrderedRun(c, before, KEPT_RUN);
    RunConcat(c, Init(), before, after, FRESH_RUN);
    StuckFrom(c, w, after, j);
    var d := Run(c, Init(), before + after).d;
    if RetryReply(c, d, j, id, key).Enqueued? { OnlyEndedRetried(c, d, j, id, key); }
  }
}
