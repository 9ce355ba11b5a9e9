/** A job has at most one open attempt, and none once it has ended, exactly as
    long as no write revives a closed attempt. */
module Reopening {
  import opened Prelude
  import opened Records
  import opened Scheduling
  import opened Engine
  import opened Service
  import opened Lifecycle
  import opened Shapes
  import opened Foundation
  import opened Stranded
  import opened Openings

  predicate Queueing(all: map<Id, Attempt>, y: Id, j: Id) {
    y in all && all[y].key.jobId == j && all[y].state.Queued?
  }

  /** The job of a closed attempt has ended, or was retried. */
  ghost predicate Over(q: Queue, aid: Id, j: Id) {
    aid in q.attempts && q.attempts[aid].terminal ==>
      j in q.jobs && (JobEnded(q.jobs[j].state) || exists y :: Queueing(q.attempts, y, j))
  }

  /** So it is while the dispatcher is about to write a registered attempt. */
  ghost predicate Left(w: World) {
    w.pc.Registered? ==> Over(w.d.queue, w.pc.aid, w.pc.att.key.jobId)
  }

  lemma SettleOver(q: Queue, z: Id, o: Outcome, aid: Id, j: Id)
    requires Ended(o.state) && Over(q, aid, j) && j in q.jobs
    requires aid in q.attempts ==> q.attempts[aid].key.jobId == j
    ensures Over(Settle(q, z, o), aid, j)
  {
    hide Amend;
    var q' := Settle(q, z, o);
    if aid in q.attempts && q.attempts[aid].terminal && !JobEnded(q.jobs[j].state) {
      var y :| Queueing(q.attempts, y, j);
      if y != z { assert Queueing(q'.attempts, y, j); }
    }
  }

  lemma RetryOver(c: Config, w: World, act: Act, aid: Id, j: Id)
    requires act.DoRetry? && Fresh(c, w, act) && Over(w.d.queue, aid, j) && aid in w.d.queue.attempts
    ensures Over(Step(c, w, act).d.queue, aid, j)
  {
    hide RetryReply;
    var q, q' := w.d.queue, Step(c, w, act).d.queue;
    var reply := RetryReply(c, w.d, act.jobId, act.newId, act.key);
    if reply.Enqueued? {
      OnlyEndedRetried(c, w.d, act.jobId, act.newId, act.key);
      if act.jobId == j { assert Queueing(q'.attempts, reply.attemptId, j); }
      if y :| Queueing(q.attempts, y, j) { assert Queueing(q'.attempts, y, j); }
    }
  }

  lemma SubmitOver(c: Config, w: World, act: Act, aid: Id, j: Id)
    requires act.DoSubmit? && Fresh(c, w, act) && Over(w.d.queue, aid, j) && aid in w.d.queue.attempts
    requires j in w.d.queue.jobs
    ensures Over(Step(c, w, act).d.queue, aid, j)
  {
    hide SafeIdent;
    var q, q' := w.d.queue, Step(c, w, act).d.queue;
    if y :| Queueing(q.attempts, y, j) { assert Queueing(q'.attempts, y, j); }
  }

  lemma RegisteredKnown(c: Config, w: World)
    requires Sound(c, w) && w.pc.Registered?
    ensures var j := w.pc.att.key.jobId;
      j in w.d.queue.jobs && w.pc.aid in w.d.queue.attempts && w.d.queue.attempts[w.pc.aid].key.jobId == j
  {
    hide StartsOk;
    hide JobsOk;
    hide ShapeOk;
    hide OwnersOk;
    hide WasStarted;
  }

  /** A session is registered over an open attempt. */
  lemma DispatchLeft(c: Config, w: World, o: Oracle)
    requires Sound(c, w)
    ensures Left(Step(c, w, Dispatch(o)))
  {
    hide Sound;
    hide Advance;
    hide Over;
    RegistersOpen(c, w.d, w.pc, o);
    var w' := Step(c, w, Dispatch(o));
    if w'.pc.Registered? {
      OpenElsewhere(c, w);
      OpenIsLeft(w.d.queue, w.pc.aid, w.pc.att.key.jobId);
    }
  }

  lemma OpenIsLeft(q: Queue, aid: Id, j: Id)
    requires aid in q.attempts && !q.attempts[aid].terminal
    ensures Over(q, aid, j)
  {
  }

  lemma RegistersOpen(c: Config, d: Data, pc: Pc, o: Oracle)
    ensures var (d', pc') := Advance(c, d, pc, o);
      pc'.Registered? ==> pc.Started? && d'.queue == d.queue && pc'.aid == pc.aid && pc'.att == pc.att
  {
    hide LoadPayload;
    hide Release;
    hide NewSession;
  }

  lemma OthersLeft(c: Config, w: World, act: Act)
    requires Left(w) && (act.Recover? || act.Check? || act.ClaimChecked? || act.Crash? || act.CancelCrash?)
    ensures Left(Step(c, w, act))
  {
    hide Over;
    hide MarkCancel;
    hide CanStart;
    hide OnHold;
    hide RecoverExpired;
    hide TakeClaim;
  }

  lemma StepLeft(c: Config, w: World, act: Act)
    requires Sound(c, w) && Left(w) && Fresh(c, w, act)
    ensures Left(Step(c, w, act))
  {
    hide Sound;
    hide Fresh;
    hide Over;
    hide Advance;
    hide Submit;
    hide Retry;
    hide Settle;
    if w.pc.Registered? { RegisteredKnown(c, w); }
    if act.Dispatch? {
      DispatchLeft(c, w, act.o);
    } else if act.DoSubmit? {
      if w.pc.Registered? { SubmitOver(c, w, act, w.pc.aid, w.pc.att.key.jobId); }
    } else if act.DoRetry? {
      if w.pc.Registered? { RetryOver(c, w, act, w.pc.aid, w.pc.att.key.jobId); }
    } else if SessionAct(act) {
      hide Step;
      var out := SessionShape(c, w, act);
      if out.Some? && w.pc.Registered? {
        SettleOver(w.d.queue, w.d.sessions[ActSession(act)].key.attemptId, out.value, w.pc.aid, w.pc.att.key.jobId);
      }
    } else {
      hide Step;
      OthersLeft(c, w, act);
    }
  }

  predicate SinglyOpen(w: World) { OpenOk(w.d.queue.attempts, w.d.queue.jobs) }

  /** A revived attempt is open over an ended job, or beside a waiting one. */
  lemma RevivalOpens(c: Config, w: World, o: Oracle)
    requires Sound(c, w) && Left(w) && Revives(w, Dispatch(o))
    ensures !SinglyOpen(Step(c, w, Dispatch(o)))
  {
    hide StartsOk;
    hide JobsOk;
    hide OwnersOk;
    hide WasStarted;
    var q, q' := w.d.queue, Step(c, w, Dispatch(o)).d.queue;
    var x, j := w.pc.aid, w.pc.att.key.jobId;
    RunningOpen(c, w);
    if JobEnded(q.jobs[j].state) {
      assert !AtHome(q'.attempts[x], q'.jobs);
    } else {
      var y :| Queueing(q.attempts, y, j);
      ShapeAt(q.attempts, x);
      ShapeAt(q.attempts, y);
      assert y != x && !q'.attempts[y].terminal && !q'.attempts[x].terminal;
    }
  }

  /** In a state where a job has at most one open attempt, and none once it has
      ended, a step with fresh ids keeps it so if and only if it does not
      revive a closed attempt. */
  lemma OpenExactly(c: Config, w: World, act: Act)
    requires Sound(c, w) && Ordered(w) && Left(w) && Fresh(c, w, act)
    ensures SinglyOpen(Step(c, w, act)) <==> !Revives(w, act)
  {
    hide Step;
    hide Sound;
    hide Fresh;
    hide Left;
    hide OpenOk;
    hide Revives;
    if Revives(w, act) {
      RevivesDispatch(w, act);
      RevivalOpens(c, w, act.o);
    } else {
      StepOrdered(c, w, act);
    }
  }

  lemma RevivesDispatch(w: World, act: Act)
    requires Revives(w, act)
    ensures act.Dispatch?
  {
  }

  lemma {:induction false} LeftFrom(c: Config, w: World, acts: seq<Act>)
    requires Sound(c, w) && Left(w) && Admissible(c, w, acts, FRESH_RUN)
    ensures Left(Run(c, w, acts))
    decreases |acts|
  {
    hide Step;
    hide Sound;
    hide Fresh;
    hide Left;
    if acts != [] {
      StepSound(c, w, acts[0]);
      StepLeft(c, w, acts[0]);
      LeftFrom(c, Step(c, w, acts[0]), acts[1..]);
    }
  }

  /** Along a run with fresh ids every job has at most one open attempt at every
      moment, and none once it has ended, if and only if no step revives a
      closed attempt. */
  lemma {:induction false} OpenKept(c: Config, acts: seq<Act>)
    requires Admissible(c, Init(), acts, FRESH_RUN)
    ensures (forall i :: 0 <= i <= |acts| ==> SinglyOpen(After(c, acts, i))) <==> Admissible(c, Init(), acts, KEPT_RUN)
    decreases |acts|
  {
    hide Run;
    hide Step;
    hide Sound;
    hide Left;
    hide OpenOk;
    hide WriteOk;
    hide Stuck;
    hide Fresh;
    hide Revives;
    StepByStep(c, acts, KEPT_RUN);
    StepByStep(c, acts, FRESH_RUN);
    if acts == [] {
      OrderedRun(c, acts, KEPT_RUN);
    } else {
      var n := |acts| - 1;
      var before := acts[..n];
      assert forall i :: 0 <= i <= n ==> before[..i] == acts[..i];
      assert forall i :: 0 <= i <= n ==> After(c, before, i) == After(c, acts, i);
      Stretch(c, acts, n, n, FRESH_RUN);
      OpenKept(c, before);
      StepByStep(c, before, KEPT_RUN);
      OneStep(c, acts, n);
      assert acts[..n + 1] == acts;
      if Admissible(c, Init(), before, KEPT_RUN) {
        OrderedRun(c, before, KEPT_RUN);
        LeftInit(c);
        LeftFrom(c, Init(), before);
        OpenExactly(c, After(c, acts, n), acts[n]);
      }
      if forall i :: 0 <= i <= |acts| ==> SinglyOpen(After(c, acts, i)) {
        assert SinglyOpen(After(c, acts, n + 1));
      }
    }
  }

  lemma LeftInit(c: Config)
    ensures Left(Init()) && Sound(c, Init())
  {
  }

  /** An accepted retry opens the only open attempt of its job if and only if
      every attempt the job ever had is closed; and so it is wherever a job has
      at most one open attempt, and none once it has ended. */
  lemma RetryAloneExactly(c: Config, w: World, jobId: Id, id: Option<Id>, key: string, now: int)
    requires RetryReply(c, w.d, jobId, id, key).Enqueued? && Fresh(c, w, DoRetry(jobId, id, key, now))
    ensures var all, all' := w.d.queue.attempts, Step(c, w, DoRetry(jobId, id, key, now)).d.queue.attempts;
      var aid := RetryReply(c, w.d, jobId, id, key).attemptId;
      && aid in all' && !all'[aid].terminal && all'[aid].key.jobId == jobId
      && ((forall x :: x in all' && all'[x].key.jobId == jobId && !all'[x].terminal ==> x == aid) <==> AllClosed(all, jobId))
      && (SinglyOpen(w) ==> AllClosed(all, jobId))
  {
    hide RetryReply;
    OnlyEndedRetried(c, w.d, jobId, id, key);
    var all, all' := w.d.queue.attempts, Step(c, w, DoRetry(jobId, id, key, now)).d.queue.attempts;
    var aid := RetryReply(c, w.d, jobId, id, key).attemptId;
    assert forall x :: x in all ==> x in all' && x != aid && all'[x] == all[x];
    if SinglyOpen(w) {
      forall x | x in all && all[x].key.jobId == jobId
        ensures all[x].terminal
      {
        assert AtHome(all[x], w.d.queue.jobs);
      }
    }
  }
}
