/** Closed attempts stay as they are. */
module Closure {
  import opened Prelude
  import opened Records
  import opened Scheduling
  import opened Engine
  import opened Service
  import opened Lifecycle
  import opened Shapes
  import opened Foundation

  /** Every closed record is still there, field for field. */
  predicate ClosedKept(all: map<Id, Attempt>, all': map<Id, Attempt>) {
    forall x :: x in all && all[x].terminal ==> x in all' && all'[x] == all[x]
  }

  lemma ClosedSelf(all: map<Id, Attempt>)
    ensures ClosedKept(all, all)
  {
  }

  lemma ClosedUpdate(all: map<Id, Attempt>, aid: Id, a: Attempt)
    ensures ClosedKept(all, all[aid := a]) <==> aid !in all || !all[aid].terminal || a == all[aid]
  {
    var all' := all[aid := a];
    if aid in all && all[aid].terminal && a != all[aid] {
      assert all'[aid] != all[aid];
    }
  }

  lemma SettleKeepsClosed(q: Queue, aid: Id, o: Outcome)
    requires Ended(o.state)
    ensures ClosedKept(q.attempts, Settle(q, aid, o).attempts)
  {
    hide Amend;
  }

  lemma RecoverKeepsClosed(all: map<Id, Attempt>, now: int, leaseS: int)
    requires ShapeOk(all)
    ensures ClosedKept(all, RecoverExpired(all, now, leaseS))
  {
    forall x | x in all
      ensures RecordOk(all[x])
    {
      ShapeAt(all, x);
    }
  }

  lemma BeginClosed(c: Config, w: World, o: Oracle)
    requires Sound(c, w) && w.pc.Claimed?
    ensures ClosedKept(w.d.queue.attempts, Begin(w.d, w.pc.aid, o).0.queue.attempts)
  {
    hide Sound;
    hide ClosedKept;
    ClaimedNotStarted(c, w);
    ClosedSelf(w.d.queue.attempts);
    var d' := Begin(w.d, w.pc.aid, o).0;
    ClosedUpdate(w.d.queue.attempts, w.pc.aid, d'.queue.attempts[w.pc.aid]);
    ClaimedOpen(c, w);
  }

  lemma ClaimedOpen(c: Config, w: World)
    requires Sound(c, w) && (w.pc.Claimed? || w.pc.Holding? || w.pc.Prepared? || w.pc.Started?)
    ensures w.pc.aid in w.d.queue.attempts && !w.d.queue.attempts[w.pc.aid].terminal
  {
    hide StartsOk;
    hide JobsOk;
    hide OwnersOk;
    hide WasStarted;
    ShapeAt(w.d.queue.attempts, w.pc.aid);
  }

  lemma LaunchClosed(c: Config, w: World, o: Oracle)
    requires Sound(c, w) && (w.pc.Prepared? || w.pc.Started?)
    ensures ClosedKept(w.d.queue.attempts, Advance(c, w.d, w.pc, o).0.queue.attempts)
  {
    hide Sound;
    hide ClosedKept;
    hide LoadPayload;
    hide NewSession;
    ClaimedOpen(c, w);
    ClosedSelf(w.d.queue.attempts);
    var d' := Advance(c, w.d, w.pc, o).0;
    ClosedUpdate(w.d.queue.attempts, w.pc.aid, d'.queue.attempts[w.pc.aid]);
  }

  lemma BindClosed(c: Config, w: World, o: Oracle)
    requires Sound(c, w) && w.pc.Registered?
    ensures ClosedKept(w.d.queue.attempts, Advance(c, w.d, w.pc, o).0.queue.attempts) <==> !Revives(w, Dispatch(o))
  {
    hide ClosedKept;
    hide StartsOk;
    hide JobsOk;
    hide OwnersOk;
    hide ShapeOk;
    ClosedUpdate(w.d.queue.attempts, w.pc.aid, w.pc.att.(sessionId := w.pc.sid));
    if w.d.queue.attempts[w.pc.aid].terminal {
      ShapeAt(w.d.queue.attempts, w.pc.aid);
    }
  }

  lemma AdvanceClosed(c: Config, w: World, o: Oracle)
    requires Sound(c, w)
    ensures ClosedKept(w.d.queue.attempts, Advance(c, w.d, w.pc, o).0.queue.attempts) <==> !Revives(w, Dispatch(o))
  {
    hide Sound;
    hide Begin;
    hide Launch;
    hide Record;
    hide ClosedKept;
    ClosedSelf(w.d.queue.attempts);
    match w.pc
    case Claimed(_) => BeginClosed(c, w, o);
    case Holding(_) =>
      ClaimedOpen(c, w);
      ClosedUpdate(w.d.queue.attempts, w.pc.aid, ReleaseRecord(w.d.queue.attempts[w.pc.aid]));
    case Prepared(_, _, _) => LaunchClosed(c, w, o);
    case Started(_, _, _, _) => LaunchClosed(c, w, o);
    case Registered(_, _, _, _) => BindClosed(c, w, o);
    case _ =>
  }

  lemma AddClosed(c: Config, w: World, act: Act)
    requires Fresh(c, w, act) && (act.DoSubmit? || act.DoRetry?)
    ensures ClosedKept(w.d.queue.attempts, Step(c, w, act).d.queue.attempts)
  {
    hide SafeIdent;
    hide RetryReply;
    hide ClosedKept;
    ClosedSelf(w.d.queue.attempts);
    if act.DoSubmit? {
      ClosedUpdate(w.d.queue.attempts, act.r.attemptId, NewAttempt(act.jobId, act.r.harness, "", act.now));
    } else {
      var reply := RetryReply(c, w.d, act.jobId, act.newId, act.key);
      if reply.Enqueued? {
        ClosedUpdate(w.d.queue.attempts, reply.attemptId,
                     NewAttempt(act.jobId, w.d.queue.jobs[act.jobId].spec.harness, act.key, act.now));
      }
    }
  }

  lemma ClaimClosed(c: Config, w: World, act: Act)
    requires Sound(c, w) && act.ClaimChecked?
    ensures ClosedKept(w.d.queue.attempts, Step(c, w, act).d.queue.attempts)
  {
    hide StartsOk;
    hide JobsOk;
    hide OwnersOk;
    hide ShapeOk;
    hide OnHold;
    hide ClosedKept;
    ClosedSelf(w.d.queue.attempts);
    if w.pc.Checked? && Claimable(w.d.queue.attempts, w.pc.aid, act.now) {
      ShapeAt(w.d.queue.attempts, w.pc.aid);
      ClosedUpdate(w.d.queue.attempts, w.pc.aid, ClaimRecord(w.d.queue.attempts[w.pc.aid], act.owner, act.now));
    }
  }

  lemma SessionActClosed(c: Config, w: World, act: Act)
    requires SessionAct(act) && Fresh(c, w, act)
    ensures ClosedKept(w.d.queue.attempts, Step(c, w, act).d.queue.attempts)
  {
    hide Step;
    hide Fresh;
    hide Settle;
    hide ClosedKept;
    hide SameOwners;
    ClosedSelf(w.d.queue.attempts);
    var out := SessionShape(c, w, act);
    if out.Some? { SettleKeepsClosed(w.d.queue, w.d.sessions[ActSession(act)].key.attemptId, out.value); }
  }

  /** A step leaves every closed attempt record as it is exactly when it is
      not that one write. */
  lemma ClosedExactly(c: Config, w: World, act: Act)
    requires Sound(c, w) && Fresh(c, w, act)
    ensures ClosedKept(w.d.queue.attempts, Step(c, w, act).d.queue.attempts) <==> !Revives(w, act)
  {
    hide Sound;
    hide Fresh;
    hide Advance;
    hide Submit;
    hide Retry;
    hide MonitorOne;
    hide Cancel;
    hide ReconcileOne;
    hide Status;
    hide MarkCancel;
    hide RecoverExpired;
    hide TakeClaim;
    hide ClosedKept;
    ClosedSelf(w.d.queue.attempts);
    match act
    case Recover(now) => SoundShape(c, w); RecoverKeepsClosed(w.d.queue.attempts, now, c.leaseS);
    case ClaimChecked(_, _) => ClaimClosed(c, w, act);
    case Dispatch(o) => AdvanceClosed(c, w, o);
    case DoSubmit(_, _, _, _, _) => AddClosed(c, w, act);
    case DoRetry(_, _, _, _) => AddClosed(c, w, act);
    case Check(_) =>
    case CancelCrash(sid) => MarkShape(w.d, sid);
    case Crash =>
    case _ => SessionActClosed(c, w, act);
  }

  lemma SoundShape(c: Config, w: World)
    requires Sound(c, w)
    ensures ShapeOk(w.d.queue.attempts)
  {
  }

  lemma {:induction false} ClosedFrom(c: Config, w: World, acts: seq<Act>, k: Discipline)
    requires Sound(c, w) && k.newIds && k.kept && Admissible(c, w, acts, k)
    ensures ClosedKept(w.d.queue.attempts, Run(c, w, acts).d.queue.attempts)
    decreases |acts|
  {
    hide Step;
    hide Fresh;
    hide Revives;
    hide Drops;
    hide Stale;
    hide FoundAlive;
    hide Sound;
    if acts != [] {
      ClosedExactly(c, w, acts[0]);
      StepSound(c, w, acts[0]);
      ClosedFrom(c, Step(c, w, acts[0]), acts[1..], k);
    }
  }

  /** Along a run with fresh ids every attempt record, once closed, is the same
      at any later moment, if and only if no step revives a closed attempt. */
  lemma ClosedForever(c: Config, acts: seq<Act>)
    requires Admissible(c, Init(), acts, FRESH_RUN)
    ensures (forall i, h :: 0 <= i <= h <= |acts| ==>
              ClosedKept(After(c, acts, i).d.queue.attempts, After(c, acts, h).d.queue.attempts))
       <==> Admissible(c, Init(), acts, KEPT_RUN)
  {
    hide Run;
    hide Step;
    hide Sound;
    hide ClosedKept;
    hide Fresh;
    hide Revives;
    StepByStep(c, acts, FRESH_RUN);
    StepByStep(c, acts, KEPT_RUN);
    if Admissible(c, Init(), acts, KEPT_RUN) {
      forall i, h | 0 <= i <= h <= |acts|
        ensures ClosedKept(After(c, acts, i).d.queue.attempts, After(c, acts, h).d.queue.attempts)
      {
        Stretch(c, acts, i, h, KEPT_RUN);
        SoundRun(c, acts[..i], KEPT_RUN);
        ClosedFrom(c, After(c, acts, i), acts[i..h], KEPT_RUN);
      }
    }
    if forall i, h :: 0 <= i <= h <= |acts| ==>
         ClosedKept(After(c, acts, i).d.queue.attempts, After(c, acts, h).d.queue.attempts) {
      forall i | 0 <= i < |acts|
        ensures Allowed(c, After(c, acts, i), acts[i], KEPT_RUN)
      {
        Stretch(c, acts, i, i, FRESH_RUN);
        SoundRun(c, acts[..i], FRESH_RUN);
        OneStep(c, acts, i);
        ClosedExactly(c, After(c, acts, i), acts[i]);
        assert ClosedKept(After(c, acts, i).d.queue.attempts, After(c, acts, i + 1).d.queue.attempts);
      }
    }
  }
}
