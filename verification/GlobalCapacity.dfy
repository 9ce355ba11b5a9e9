/** The global limit over every run, with no condition on the run at all. */
module GlobalCapacity {
  import opened Prelude
  import opened Records
  import opened Scheduling
  import opened Service
  import opened Lifecycle
  import opened Shapes

  /** From its claim on, the dispatcher's attempt keeps its place, whatever
      the store says about it between two writes. */
  function Hold(pc: Pc): set<Id> {
    if pc.Idle? || pc.Checked? then {} else {pc.aid}
  }

  function Occupied(w: World): set<Id> {
    Active(w.d.queue.attempts) + Hold(w.pc)
  }

  predicate WithinGlobal(c: Config, w: World) {
    |Occupied(w)| + (if w.pc.Checked? then 1 else 0) <= Max(0, c.globalLimit)
  }

  lemma Shrunk(c: Config, w: World, w': World)
    requires WithinGlobal(c, w)
    requires Occupied(w') <= Occupied(w)
    requires w'.pc.Checked? ==> w.pc.Checked?
    ensures WithinGlobal(c, w')
  {
    SubsetSize(Occupied(w'), Occupied(w));
  }

  lemma SettleFrees(q: Queue, aid: Id, o: Outcome)
    requires Ended(o.state)
    ensures Active(Settle(q, aid, o).attempts) <= Active(q.attempts)
  {
  }

  lemma SaveFrees(all: map<Id, Attempt>, aid: Id, a: Attempt)
    ensures Active(all[aid := a]) <= Active(all) + {aid}
    ensures !Busy(a) ==> Active(all[aid := a]) <= Active(all)
  {
  }

  lemma RecoveryFrees(all: map<Id, Attempt>, now: int, leaseS: int)
    ensures Active(RecoverExpired(all, now, leaseS)) <= Active(all)
  {
  }

  lemma LaunchFrees(c: Config, w: World, o: Oracle)
    requires w.pc.Prepared?
    ensures Occupied(Step(c, w, Dispatch(o))) <= Occupied(w) && !Step(c, w, Dispatch(o)).pc.Checked?
  {
    hide LoadPayload;
    hide Active;
    SaveFrees(w.d.queue.attempts, w.pc.aid, FailRecord(w.pc.att, PayloadFailed));
    SaveFrees(w.d.queue.attempts, w.pc.aid, FailRecord(w.pc.att, PayloadMismatch));
  }

  lemma RecordFrees(c: Config, w: World, o: Oracle)
    requires w.pc.Started?
    ensures Occupied(Step(c, w, Dispatch(o))) <= Occupied(w) && !Step(c, w, Dispatch(o)).pc.Checked?
  {
    hide Active;
    var g := w.pc.gateway;
    if g.StartFailed? {
      SaveFrees(w.d.queue.attempts, w.pc.aid, FailRecord(w.pc.att, Reason.Gateway(g.message)));
    }
  }

  lemma BeginFrees(c: Config, w: World, o: Oracle)
    requires w.pc.Claimed?
    ensures Occupied(Step(c, w, Dispatch(o))) <= Occupied(w) && !Step(c, w, Dispatch(o)).pc.Checked?
  {
    hide Active;
    var (d', pc') := Begin(w.d, w.pc.aid, o);
    if w.pc.aid in w.d.queue.attempts {
      SaveFrees(w.d.queue.attempts, w.pc.aid, d'.queue.attempts[w.pc.aid]);
    }
  }

  /** The dispatcher's writes concern the one attempt it holds. */
  lemma DispatchFrees(c: Config, w: World, o: Oracle)
    ensures Occupied(Step(c, w, Dispatch(o))) <= Occupied(w)
    ensures Step(c, w, Dispatch(o)).pc.Checked? ==> w.pc.Checked?
  {
    hide Active;
    if w.pc.Claimed? { BeginFrees(c, w, o); }
    else if w.pc.Prepared? { LaunchFrees(c, w, o); }
    else if w.pc.Started? { RecordFrees(c, w, o); }
    else if w.pc.Holding? && w.pc.aid in w.d.queue.attempts {
      SaveFrees(w.d.queue.attempts, w.pc.aid, ReleaseRecord(w.d.queue.attempts[w.pc.aid]));
    } else if w.pc.Registered? {
      SaveFrees(w.d.queue.attempts, w.pc.aid, w.pc.att.(sessionId := w.pc.sid));
    }
  }

  /** No step but the dispatcher's check and claim takes a place; even a retry
      that overwrites a foreign record only frees one. */
  lemma OthersFree(c: Config, w: World, act: Act)
    requires !act.Check? && !act.ClaimChecked?
    ensures Occupied(Step(c, w, act)) <= Occupied(w)
    ensures Step(c, w, act).pc.Checked? ==> w.pc.Checked?
  {
    hide Active;
    hide Advance;
    hide SubmitReply;
    hide RetryReply;
    hide RecoverExpired;
    hide MarkCancel;
    hide Settle;
    match act
    case Recover(now) => RecoveryFrees(w.d.queue.attempts, now, c.leaseS);
    case Dispatch(o) => DispatchFrees(c, w, o);
    case DoSubmit(r, jobId, _, _, now) =>
      SaveFrees(w.d.queue.attempts, r.attemptId, NewAttempt(jobId, r.harness, "", now));
    case DoRetry(jobId, id, key, now) =>
      var reply := RetryReply(c, w.d, jobId, id, key);
      if reply.Enqueued? {
        SaveFrees(w.d.queue.attempts, reply.attemptId, NewAttempt(jobId, w.d.queue.jobs[jobId].spec.harness, key, now));
      }
    case CancelCrash(sid) => MarkShape(w.d, sid);
    case External(_) =>
    case Crash =>
    case _ => SessionActFrees(c, w, act);
  }

  lemma SessionActFrees(c: Config, w: World, act: Act)
    requires SessionAct(act) && !act.External?
    ensures Occupied(Step(c, w, act)) <= Occupied(w) && Step(c, w, act).pc == w.pc
  {
    hide Step;
    hide Settle;
    hide Active;
    var out := SessionShape(c, w, act);
    if out.Some? {
      SettleFrees(w.d.queue, w.d.sessions[ActSession(act)].key.attemptId, out.value);
    }
  }

  lemma CheckWithin(c: Config, w: World, aid: Id)
    requires WithinGlobal(c, w)
    ensures WithinGlobal(c, Step(c, w, Check(aid)))
  {
    hide Active;
    hide ActiveOf;
    assert Occupied(Step(c, w, Check(aid))) == Occupied(w);
  }

  /** The claim takes the place that the check reserved. */
  lemma ClaimWithin(c: Config, w: World, owner: string, now: int)
    requires WithinGlobal(c, w)
    ensures WithinGlobal(c, Step(c, w, ClaimChecked(owner, now)))
  {
    hide OnHold;
    var w' := Step(c, w, ClaimChecked(owner, now));
    if w.pc.Checked? {
      var all := w.d.queue.attempts;
      if Claimable(all, w.pc.aid, now) {
        SaveFrees(all, w.pc.aid, ClaimRecord(all[w.pc.aid], owner, now));
        assert Occupied(w') <= Occupied(w) + {w.pc.aid};
        SubsetSize(Occupied(w'), Occupied(w) + {w.pc.aid});
      } else {
        Shrunk(c, w, w');
      }
    }
  }

  lemma StepWithinGlobal(c: Config, w: World, act: Act)
    requires WithinGlobal(c, w)
    ensures WithinGlobal(c, Step(c, w, act))
  {
    hide Step;
    hide WithinGlobal;
    hide Occupied;
    if act.Check? {
      CheckWithin(c, w, act.aid);
    } else if act.ClaimChecked? {
      ClaimWithin(c, w, act.owner, act.now);
    } else {
      OthersFree(c, w, act);
      Shrunk(c, w, Step(c, w, act));
    }
  }

  lemma {:induction false} GlobalLimitFrom(c: Config, w: World, acts: seq<Act>)
    requires WithinGlobal(c, w)
    ensures WithinGlobal(c, Run(c, w, acts))
    decreases |acts|
  {
    hide Step;
    if acts != [] {
      StepWithinGlobal(c, w, acts[0]);
      GlobalLimitFrom(c, Step(c, w, acts[0]), acts[1..]);
    }
  }

  /** In every reachable state, RUNNING plus CLAIMED attempts stay within the
      global limit, with every other call interleaved between the dispatcher's
      check, claim and writes. */
  lemma GlobalLimit(c: Config, acts: seq<Act>)
    ensures var all := Run(c, Init(), acts).d.queue.attempts;
      |set x | x in all && (all[x].state.Running? || all[x].state.Claimed?)| <= (if c.globalLimit > 0 then c.globalLimit else 0)
  {
    hide Step;
    assert Occupied(Init()) == {};
    GlobalLimitFrom(c, Init(), acts);
    var w := Run(c, Init(), acts);
    var all := w.d.queue.attempts;
    assert Active(all) == set x | x in all && (all[x].state.Running? || all[x].state.Claimed?);
    SubsetSize(Active(w.d.queue.attempts), Occupied(w));
  }
}
