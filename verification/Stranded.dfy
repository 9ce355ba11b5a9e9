/** A job left open over closed attempts is never picked up again. */
module Stranded {
  import opened Prelude
  import opened Records
  import opened Scheduling
  import opened Engine
  import opened Service
  import opened Lifecycle
  import opened Shapes
  import opened Foundation

  predicate AllClosed(all: map<Id, Attempt>, j: Id) {
    forall x :: x in all && all[x].key.jobId == j ==> all[x].terminal
  }

  /** The dispatcher is about to write this job. */
  predicate Holds(pc: Pc, j: Id) {
    || ((pc.Failing? || pc.Bound?) && pc.jobId == j)
    || (pc.Registered? && pc.att.key.jobId == j)
  }

  /** The job is open, its attempts are not, and nobody is about to write it. */
  predicate Stuck(w: World, j: Id) {
    && j in w.d.queue.jobs && !JobEnded(w.d.queue.jobs[j].state)
    && AllClosed(w.d.queue.attempts, j) && !Holds(w.pc, j)
  }

  ghost predicate StillStuck(w: World, w': World, j: Id) {
    Stuck(w', j) && j in w.d.queue.jobs && w'.d.queue.jobs[j] == w.d.queue.jobs[j]
  }

  lemma SettleElsewhere(q: Queue, aid: Id, o: Outcome, j: Id)
    requires Ended(o.state) && AllClosed(q.attempts, j) && j in q.jobs
    ensures var q' := Settle(q, aid, o); AllClosed(q'.attempts, j) && j in q'.jobs && q'.jobs[j] == q.jobs[j]
  {
    hide Amend;
  }

  lemma SessionActStuck(c: Config, w: World, act: Act, j: Id)
    requires Stuck(w, j) && SessionAct(act) && Fresh(c, w, act)
    ensures StillStuck(w, Step(c, w, act), j)
  {
    hide Step;
    hide Fresh;
    hide Settle;
    hide SameOwners;
    hide AllClosed;
    hide Holds;
    var out := SessionShape(c, w, act);
    if out.Some? { SettleElsewhere(w.d.queue, w.d.sessions[ActSession(act)].key.attemptId, out.value, j); }
  }

  /** The attempt the dispatcher writes next, if it writes one. */
  predicate Writes(pc: Pc) {
    pc.Claimed? || pc.Holding? || pc.Prepared? || pc.Started? || pc.Registered?
  }

  /** Where the dispatcher comes to hold a job. */
  lemma HoldsFrom(c: Config, d: Data, pc: Pc, o: Oracle, j: Id)
    requires Holds(Advance(c, d, pc, o).1, j)
    ensures || (pc.Claimed? && pc.aid in d.queue.attempts && d.queue.attempts[pc.aid].key.jobId == j)
            || ((pc.Prepared? || pc.Started? || pc.Registered?) && pc.att.key.jobId == j)
  {
    hide LoadPayload;
    hide NewSession;
  }

  /** The job list changes only by the dispatcher's own job write. */
  lemma AdvanceJobs(c: Config, d: Data, pc: Pc, o: Oracle)
    ensures Advance(c, d, pc, o).0.queue.jobs
         == if pc.Failing? || pc.Bound? then d.queue.jobs[pc.jobId := pc.job] else d.queue.jobs
  {
    hide LoadPayload;
    hide Release;
    hide NewSession;
  }

  /** Every other attempt is one of before, and the same. */
  ghost predicate OnlyAttempt(all: map<Id, Attempt>, all': map<Id, Attempt>, aid: Id) {
    forall x :: x in all' && x != aid ==> x in all && all'[x] == all[x]
  }

  lemma BeginOnly(d: Data, aid: Id, o: Oracle)
    ensures OnlyAttempt(d.queue.attempts, Begin(d, aid, o).0.queue.attempts, aid)
  {
  }

  lemma LaunchOnly(c: Config, d: Data, pc: Pc, o: Oracle)
    requires pc.Prepared? || pc.Started?
    ensures OnlyAttempt(d.queue.attempts, Advance(c, d, pc, o).0.queue.attempts, pc.aid)
  {
    hide LoadPayload;
    hide NewSession;
    hide FailRecord;
    hide FailJob;
  }

  /** Of the attempts, only the one it holds. */
  lemma AdvanceOnly(c: Config, d: Data, pc: Pc, o: Oracle)
    ensures var all' := Advance(c, d, pc, o).0.queue.attempts;
      if Writes(pc) then forall x :: x in all' && x != pc.aid ==> x in d.queue.attempts && all'[x] == d.queue.attempts[x]
      else all' == d.queue.attempts
  {
    hide Begin;
    hide Launch;
    hide Record;
    match pc
    case Claimed(aid) => BeginOnly(d, aid, o);
    case Prepared(_, _, _) => LaunchOnly(c, d, pc, o);
    case Started(_, _, _, _) => LaunchOnly(c, d, pc, o);
    case _ =>
  }

  lemma OpenElsewhere(c: Config, w: World)
    requires Sound(c, w) && Writes(w.pc) && !w.pc.Registered?
    ensures w.pc.aid in w.d.queue.attempts && !w.d.queue.attempts[w.pc.aid].terminal
    ensures w.pc.Prepared? || w.pc.Started? ==> w.pc.att == w.d.queue.attempts[w.pc.aid]
  {
    hide StartsOk;
    hide JobsOk;
    hide OwnersOk;
    hide WasStarted;
    ShapeAt(w.d.queue.attempts, w.pc.aid);
  }

  /** The attempt the dispatcher writes belongs to another job. */
  lemma HeldElsewhere(c: Config, w: World, j: Id)
    requires Sound(c, w) && Stuck(w, j) && Writes(w.pc)
    ensures w.pc.aid in w.d.queue.attempts && w.d.queue.attempts[w.pc.aid].key.jobId != j
    ensures w.pc.Prepared? || w.pc.Started? || w.pc.Registered? ==> w.pc.att.key.jobId != j
  {
    hide StartsOk;
    hide JobsOk;
    hide OwnersOk;
    hide ShapeOk;
    hide WasStarted;
    if !w.pc.Registered? { OpenElsewhere(c, w); }
  }

  lemma DispatchStuck(c: Config, w: World, o: Oracle, j: Id)
    requires Sound(c, w) && Stuck(w, j) && Fresh(c, w, Dispatch(o))
    ensures StillStuck(w, Step(c, w, Dispatch(o)), j)
  {
    hide Sound;
    hide Fresh;
    hide Advance;
    var w' := Step(c, w, Dispatch(o));
    AdvanceJobs(c, w.d, w.pc, o);
    AdvanceOnly(c, w.d, w.pc, o);
    StepSound(c, w, Dispatch(o));
    if Writes(w.pc) { HeldElsewhere(c, w, j); }
    if Holds(w'.pc, j) { HoldsFrom(c, w.d, w.pc, o, j); }
  }

  lemma OthersStuck(c: Config, w: World, act: Act, j: Id)
    requires Stuck(w, j) && Fresh(c, w, act)
    requires act.Recover? || act.Check? || act.ClaimChecked? || act.DoSubmit? || act.DoRetry? || act.Crash? || act.CancelCrash?
    ensures StillStuck(w, Step(c, w, act), j)
  {
    hide SubmitReply;
    hide RetryReply;
    hide MarkCancel;
    hide CanStart;
    hide OnHold;
    hide RecoverExpired;
    match act
    case Recover(now) => RecoverClosed(w.d.queue.attempts, now, c.leaseS, j);
    case DoRetry(jobId, id, key, _) =>
      if RetryReply(c, w.d, jobId, id, key).Enqueued? { OnlyEndedRetried(c, w.d, jobId, id, key); }
    case CancelCrash(sid) => MarkShape(w.d, sid);
    case _ =>
  }

  /** Only a job that has ended is retried. */
  lemma OnlyEndedRetried(c: Config, d: Data, jobId: Id, id: Option<Id>, key: string)
    requires RetryReply(c, d, jobId, id, key).Enqueued?
    ensures jobId in d.queue.jobs && JobEnded(d.queue.jobs[jobId].state)
  {
    hide SafeIdent;
    hide LoadPayload;
    hide WithKey;
    hide RetryId;
  }

  lemma RecoverClosed(all: map<Id, Attempt>, now: int, leaseS: int, j: Id)
    requires AllClosed(all, j)
    ensures AllClosed(RecoverExpired(all, now, leaseS), j)
  {
  }

  lemma StepStuck(c: Config, w: World, act: Act, j: Id)
    requires Sound(c, w) && Stuck(w, j) && Fresh(c, w, act)
    ensures StillStuck(w, Step(c, w, act), j)
  {
    hide Step;
    hide Sound;
    hide Stuck;
    hide StillStuck;
    hide Fresh;
    if SessionAct(act) { SessionActStuck(c, w, act, j); }
    else if act.Dispatch? { DispatchStuck(c, w, act.o, j); }
    else { OthersStuck(c, w, act, j); }
  }

  lemma {:induction false} StuckFrom(c: Config, w: World, acts: seq<Act>, j: Id)
    requires Sound(c, w) && Stuck(w, j) && Admissible(c, w, acts, FRESH_RUN)
    ensures StillStuck(w, Run(c, w, acts), j)
    decreases |acts|
  {
    hide Step;
    hide Sound;
    hide Fresh;
    hide AllClosed;
    hide Holds;
    if acts != [] {
      StepStuck(c, w, acts[0], j);
      StepSound(c, w, acts[0]);
      StuckFrom(c, Step(c, w, acts[0]), acts[1..], j);
    }
  }

  // ---- attempts that run without a session ----

  /** A start that raised, or was cut short by a crash, leaves this behind. */
  predicate Orphaned(w: World, x: Id) {
    && x in w.d.queue.attempts && w.d.queue.attempts[x].state.Running? && !w.d.queue.attempts[x].terminal
    && (forall sid :: sid in w.d.sessions && w.d.sessions[sid].key.managed ==> w.d.sessions[sid].key.attemptId != x)
    && (w.pc.Idle? || w.pc.Checked? || w.pc.aid != x)
  }

  ghost predicate StillOrphaned(w: World, w': World, x: Id) {
    Orphaned(w', x) && x in w.d.queue.attempts && w'.d.queue.attempts[x] == w.d.queue.attempts[x]
  }

  lemma SettleOther(q: Queue, aid: Id, o: Outcome, x: Id)
    requires Ended(o.state) && x in q.attempts && aid != x
    ensures x in Settle(q, aid, o).attempts && Settle(q, aid, o).attempts[x] == q.attempts[x]
  {
    hide Amend;
  }

  lemma SessionActOrphan(c: Config, w: World, act: Act, x: Id)
    requires Orphaned(w, x) && SessionAct(act) && Fresh(c, w, act)
    ensures StillOrphaned(w, Step(c, w, act), x)
  {
    hide Step;
    hide Fresh;
    hide Settle;
    var out := SessionShape(c, w, act);
    if out.Some? { SettleOther(w.d.queue, w.d.sessions[ActSession(act)].key.attemptId, out.value, x); }
  }

  lemma DispatchOrphan(c: Config, w: World, o: Oracle, x: Id)
    requires Sound(c, w) && Orphaned(w, x) && Fresh(c, w, Dispatch(o))
    ensures StillOrphaned(w, Step(c, w, Dispatch(o)), x)
  {
    hide Sound;
    hide Fresh;
    hide Advance;
    AdvanceOnly(c, w.d, w.pc, o);
    StepSound(c, w, Dispatch(o));
    NewSessionOnly(c, w.d, w.pc, o);
  }

  /** The dispatcher registers sessions of the attempt it holds only. */
  lemma NewSessionOnly(c: Config, d: Data, pc: Pc, o: Oracle)
    ensures var (d', pc') := Advance(c, d, pc, o);
      && (forall sid :: sid in d'.sessions ==>
            (sid in d.sessions && d'.sessions[sid] == d.sessions[sid])
            || (pc.Started? && d'.sessions[sid].key.attemptId == pc.aid))
      && (!pc'.Idle? && !pc'.Checked? ==> !pc.Idle? && !pc.Checked? && pc'.aid == pc.aid)
  {
    hide LoadPayload;
    hide Release;
  }

  lemma OthersOrphan(c: Config, w: World, act: Act, x: Id)
    requires Orphaned(w, x) && Fresh(c, w, act)
    requires act.Recover? || act.Check? || act.ClaimChecked? || act.DoSubmit? || act.DoRetry? || act.Crash? || act.CancelCrash?
    ensures StillOrphaned(w, Step(c, w, act), x)
  {
    hide SafeIdent;
    hide RetryReply;
    hide MarkCancel;
    hide CanStart;
    hide OnHold;
    match act
    case CancelCrash(sid) => MarkShape(w.d, sid);
    case _ =>
  }

  lemma {:induction false} OrphanedForever(c: Config, w: World, acts: seq<Act>, x: Id)
    requires Sound(c, w) && Orphaned(w, x) && Admissible(c, w, acts, FRESH_RUN)
    ensures StillOrphaned(w, Run(c, w, acts), x)
    decreases |acts|
  {
    hide Step;
    hide Sound;
    hide Fresh;
    if acts != [] {
      hide Orphaned;
      var act := acts[0];
      if SessionAct(act) { SessionActOrphan(c, w, act, x); }
      else if act.Dispatch? { DispatchOrphan(c, w, act.o, x); }
      else { OthersOrphan(c, w, act, x); }
      StepSound(c, w, act);
      OrphanedForever(c, Step(c, w, act), acts[1..], x);
    }
  }

  /** An attempt whose start raised, or was cut short by a crash after its
      RUNNING record was written, keeps that record and its place for ever. */
  lemma CutShortForever(c: Config, before: seq<Act>, act: Act, after: seq<Act>)
    requires Admissible(c, Init(), before + [act] + after, FRESH_RUN)
    requires var pc := Run(c, Init(), before).pc;
      || (act.Crash? && (pc.Prepared? || pc.Started?))
      || (act.Dispatch? && pc.Started? && pc.gateway.StartRaised?)
    ensures var w := Run(c, Init(), before);
      var q := Run(c, Init(), before + [act] + after).d.queue;
      w.pc.aid in q.attempts && q.attempts[w.pc.aid] == w.pc.att && Busy(q.attempts[w.pc.aid])
  {
    hide Step;
    hide Sound;
    hide Fresh;
    var acts := before + [act] + after;
    var n := |before|;
    assert acts[..n] == before && acts[n] == act && acts[n + 1..] == after && acts[..|acts|] == acts;
    var w, w1 := Run(c, Init(), before), After(c, acts, n + 1);
    OneStep(c, acts, n);
    StepByStep(c, acts, FRESH_RUN);
    Stretch(c, acts, n + 1, |acts|, FRESH_RUN);
    SoundRun(c, acts[..n + 1], FRESH_RUN);
    Stretch(c, acts, n, n, FRESH_RUN);
    SoundRun(c, before, FRESH_RUN);
    CutShort(c, w, act);
    OrphanedForever(c, w1, after, w.pc.aid);
  }

  lemma CutShort(c: Config, w: World, act: Act)
    requires Sound(c, w)
    requires (act.Crash? && (w.pc.Prepared? || w.pc.Started?)) || (act.Dispatch? && w.pc.Started? && w.pc.gateway.StartRaised?)
    ensures var w' := Step(c, w, act);
      Orphaned(w', w.pc.aid) && w'.d.queue.attempts[w.pc.aid] == w.pc.att && w.pc.att.state.Running?
  {
    hide StartsOk;
    hide JobsOk;
    hide WasStarted;
    OpenElsewhere(c, w);
    forall sid | sid in w.d.sessions
      ensures OwnerOk(w.d.sessions[sid], w.d.log.starts, w.pc)
    {
    }
  }
}
