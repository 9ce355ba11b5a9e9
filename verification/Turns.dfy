/** What becomes of attempts that wait, when any other call may come between
    the turns of a dispatcher pass and between the steps of one turn. */
module Turns {
  import opened Prelude
  import opened Ordering
  import opened Records
  import opened Scheduling
  import opened Engine
  import opened Service
  import opened Lifecycle
  import opened Shapes
  import opened Foundation
  import opened Stranded
  import opened Dispatching

  // ---- places given back ----

  /** An attempt that held a place of its harness holds it no more. */
  predicate Frees(all: map<Id, Attempt>, all': map<Id, Attempt>, x: Id) {
    && x in all && Busy(all[x])
    && !(x in all' && Busy(all'[x]) && all'[x].key.harness == all[x].key.harness)
  }

  lemma RoomNeedsPlace(c: Config, all: map<Id, Attempt>, all': map<Id, Attempt>, h: string)
    requires !CanStart(c, all, h) && CanStart(c, all', h)
    ensures exists x :: Frees(all, all', x)
  {
    if forall x :: !Frees(all, all', x) {
      assert forall x :: x in all && Busy(all[x]) ==> !Frees(all, all', x);
      SubsetSize(Active(all), Active(all'));
      SubsetSize(ActiveOf(all, h), ActiveOf(all', h));
    }
  }

  /** Over all attempts and for the harness, the places given back since an
      earlier state outnumber those taken up since by enough. */
  predicate EnoughBack(c: Config, all: map<Id, Attempt>, all': map<Id, Attempt>, h: string) {
    var (was, now) := (Active(all), Active(all'));
    var (wasOf, nowOf) := (ActiveOf(all, h), ActiveOf(all', h));
    && |was| + |now - was| < c.globalLimit + |was - now|
    && |wasOf| + |nowOf - wasOf| < HarnessLimit(c, h) + |wasOf - nowOf|
  }

  lemma RoomExactly(c: Config, all: map<Id, Attempt>, all': map<Id, Attempt>, h: string)
    ensures CanStart(c, all', h) <==> EnoughBack(c, all, all', h)
  {
    Outnumber(Active(all), Active(all'));
    Outnumber(ActiveOf(all, h), ActiveOf(all', h));
  }

  lemma Outnumber(was: set<Id>, now: set<Id>)
    ensures |now| == |was| - |was - now| + |now - was|
  {
    assert was == (was - now) + (was * now);
    assert now == (now - was) + (was * now);
  }

  /** Step `j` gives back a place that was held at every moment since `i`. */
  ghost predicate GivenBack(c: Config, acts: seq<Act>, i: nat, j: nat, x: Id)
    requires i <= j < |acts|
  {
    var all := After(c, acts, i).d.queue.attempts;
    && Frees(all, After(c, acts, j + 1).d.queue.attempts, x)
    && forall h :: i <= h <= j ==> !Frees(all, After(c, acts, h).d.queue.attempts, x)
  }

  lemma {:induction false} FirstGivenBack(c: Config, acts: seq<Act>, i: nat, k: nat, x: Id) returns (j: nat)
    requires i <= k <= |acts| && Frees(After(c, acts, i).d.queue.attempts, After(c, acts, k).d.queue.attempts, x)
    ensures i <= j < k && GivenBack(c, acts, i, j, x)
    decreases k
  {
    hide Run;
    if h :| i <= h < k && Frees(After(c, acts, i).d.queue.attempts, After(c, acts, h).d.queue.attempts, x) {
      j := FirstGivenBack(c, acts, i, h, x);
    } else {
      assert k != i;
      j := k - 1;
    }
  }

  // ---- who gives them back ----

  /** The calls that close attempts. */
  predicate Closes(act: Act) { act.Monitor? || act.DoCancel? || act.Reconcile? }

  /** These, lease recovery, and a retry that takes over a record. */
  predicate FromOutside(c: Config, w: World, act: Act) {
    Closes(act) || act.Recover? || (act.DoRetry? && !Fresh(c, w, act))
  }

  lemma GivesBack(c: Config, w: World, act: Act, x: Id)
    requires Frees(w.d.queue.attempts, Step(c, w, act).d.queue.attempts, x)
    ensures FromOutside(c, w, act) || (act.Dispatch? && Writes(w.pc) && w.pc.aid == x)
  {
    hide Advance;
    hide SubmitReply;
    hide RetryReply;
    hide MarkCancel;
    hide Status;
    hide CanStart;
    hide OnHold;
    match act
    case Dispatch(o) => if !(Writes(w.pc) && w.pc.aid == x) { AdvanceKeepsOther(c, w, o, x); }
    case CancelCrash(sid) => MarkShape(w.d, sid);
    case DoStatus(sid, obs, now) => StatusShape(w.d, sid, obs, now);
    case DoSubmit(r, jobId, _, repoOk, _) => NewAttemptId(c, w.d.queue, r, jobId, repoOk);
    case _ =>
  }

  lemma NewAttemptId(c: Config, q: Queue, r: Request, jobId: Id, repoOk: bool)
    ensures !SubmitReply(c, q, r, jobId, repoOk).Refused? ==> r.attemptId !in q.attempts
  {
  }

  lemma BeginKeys(d: Data, aid: Id, o: Oracle)
    ensures d.queue.attempts.Keys <= Begin(d, aid, o).0.queue.attempts.Keys
  {
  }

  lemma LaunchKeys(c: Config, d: Data, pc: Pc, o: Oracle)
    requires pc.Prepared? || pc.Started?
    ensures d.queue.attempts.Keys <= Advance(c, d, pc, o).0.queue.attempts.Keys
  {
    hide LoadPayload;
    hide NewSession;
    hide FailRecord;
    hide FailJob;
  }

  /** No attempt is ever taken out of the store. */
  lemma AdvanceKeys(c: Config, d: Data, pc: Pc, o: Oracle)
    ensures d.queue.attempts.Keys <= Advance(c, d, pc, o).0.queue.attempts.Keys
  {
    hide Begin;
    hide Launch;
    hide Record;
    match pc
    case Claimed(aid) => BeginKeys(d, aid, o);
    case Prepared(_, _, _) => LaunchKeys(c, d, pc, o);
    case Started(_, _, _, _) => LaunchKeys(c, d, pc, o);
    case _ =>
  }

  lemma AdvanceKeepsOther(c: Config, w: World, o: Oracle, x: Id)
    requires x in w.d.queue.attempts && !(Writes(w.pc) && w.pc.aid == x)
    ensures var all' := Advance(c, w.d, w.pc, o).0.queue.attempts; x in all' && all'[x] == w.d.queue.attempts[x]
  {
    hide Advance;
    AdvanceOnly(c, w.d, w.pc, o);
    AdvanceKeys(c, w.d, w.pc, o);
    assert x in w.d.queue.attempts.Keys;
  }

  /** The dispatcher is not at work on this attempt. */
  predicate Away(pc: Pc, x: Id) { pc.Idle? || pc.Checked? || pc.aid != x }

  lemma StaysAway(c: Config, w: World, act: Act, x: Id)
    requires x in w.d.queue.attempts && Busy(w.d.queue.attempts[x]) && Away(w.pc, x)
    ensures Away(Step(c, w, act).pc, x)
  {
    hide Advance;
    hide Submit;
    hide Retry;
    hide MonitorOne;
    hide Cancel;
    hide ReconcileOne;
    hide Status;
    hide MarkCancel;
    hide CanStart;
    hide OnHold;
    hide RecoverExpired;
    hide TakeClaim;
    if act.Dispatch? { NewSessionOnly(c, w.d, w.pc, act.o); }
  }

  /** An attempt that is busy while the dispatcher is idle is out of its hands. */
  lemma {:induction false} AwayUpTo(c: Config, acts: seq<Act>, i: nat, j: nat, x: Id)
    requires i <= j < |acts| && GivenBack(c, acts, i, j, x) && After(c, acts, i).pc.Idle?
    ensures Away(After(c, acts, j).pc, x)
  {
    hide Run;
    hide Step;
    var k := i;
    while k < j
      invariant i <= k <= j && Away(After(c, acts, k).pc, x)
    {
      assert !Frees(After(c, acts, i).d.queue.attempts, After(c, acts, k).d.queue.attempts, x);
      StaysAway(c, After(c, acts, k), acts[k], x);
      OneStep(c, acts, k);
      k := k + 1;
    }
  }

  /** In any run whatever: if an attempt was refused for want of capacity, and
      there is room for its harness later, then some attempt that held a place
      at the refusal, and all the time since, lost it to a look of the monitor,
      a cancel, a reconciliation, a lease recovery, or a retry that took over
      its record; never to the dispatcher's own turns in between. */
  lemma RoomIsGivenBack(c: Config, acts: seq<Act>, i: nat, k: nat, h: string)
    requires i <= k <= |acts| && After(c, acts, i).pc.Idle?
    requires !CanStart(c, After(c, acts, i).d.queue.attempts, h) && CanStart(c, After(c, acts, k).d.queue.attempts, h)
    ensures exists x, j :: i <= j < k && GivenBack(c, acts, i, j, x) && FromOutside(c, After(c, acts, j), acts[j])
  {
    hide Run;
    hide Step;
    hide Fresh;
    hide CanStart;
    hide Frees;
    RoomNeedsPlace(c, After(c, acts, i).d.queue.attempts, After(c, acts, k).d.queue.attempts, h);
    var x :| Frees(After(c, acts, i).d.queue.attempts, After(c, acts, k).d.queue.attempts, x);
    var j := FirstGivenBack(c, acts, i, k, x);
    AwayUpTo(c, acts, i, j, x);
    OneStep(c, acts, j);
    LastKept(After(c, acts, i).d.queue.attempts, After(c, acts, j).d.queue.attempts, After(c, acts, j + 1).d.queue.attempts, x);
    GivesBack(c, After(c, acts, j), acts[j], x);
  }

  /** In any run whatever: an attempt whose check comes after another was
      refused is let through if and only if enough places were given back. */
  lemma OvertakesExactly(c: Config, acts: seq<Act>, i: nat, k: nat, y: Id)
    requires i < k < |acts| && acts[k] == Check(y) && After(c, acts, k).pc.Idle?
    requires y in After(c, acts, k).d.queue.attempts
    ensures var all, all' := After(c, acts, i).d.queue.attempts, After(c, acts, k).d.queue.attempts;
      After(c, acts, k + 1).pc == Checked(y) <==> EnoughBack(c, all, all', all'[y].key.harness)
  {
    hide Run;
    hide CanStart;
    hide EnoughBack;
    OneStep(c, acts, k);
    var all' := After(c, acts, k).d.queue.attempts;
    RoomExactly(c, After(c, acts, i).d.queue.attempts, all', all'[y].key.harness);
  }

  lemma LastKept(all: map<Id, Attempt>, all1: map<Id, Attempt>, all2: map<Id, Attempt>, x: Id)
    requires Frees(all, all2, x) && !Frees(all, all1, x)
    ensures Frees(all1, all2, x)
  {
  }

  // ---- one turn, with other calls in between ----

  /** The dispatcher's turn of `x` is over, or has not come. */
  predicate Elsewhere(pc: Pc, x: Id) { pc.Idle? || pc.aid != x }

  predicate Ends(act: Act) { act.Recover? || act.Crash? || act.CancelCrash? }

  /** No other step puts an attempt back into the queue. */
  lemma OthersLeave(c: Config, w: World, act: Act, x: Id)
    requires Fresh(c, w, act) && x in w.d.queue.attempts && !Ends(act)
    requires act.Dispatch? || act.ClaimChecked? ==> Elsewhere(w.pc, x)
    ensures var all' := Step(c, w, act).d.queue.attempts;
      x in all' && (all'[x] == w.d.queue.attempts[x] || Ended(all'[x].state))
  {
    hide Advance;
    hide SubmitReply;
    hide RetryReply;
    hide CanStart;
    hide OnHold;
    if SessionAct(act) {
      hide Step;
      hide Fresh;
      var out := SessionShape(c, w, act);
    } else if act.Dispatch? {
      AdvanceKeepsOther(c, w, act.o, x);
    } else if act.DoSubmit? {
      NewAttemptId(c, w.d.queue, act.r, act.jobId, act.repoOk);
    }
  }

  lemma OthersStand(c: Config, w: World, act: Act, x: Id)
    requires !Ends(act) && act != Check(x) && Fresh(c, w, act)
    ensures var pc' := Step(c, w, act).pc;
      if act.Dispatch? || act.ClaimChecked? then Elsewhere(w.pc, x) ==> Elsewhere(pc', x)
      else pc' == w.pc || (Elsewhere(w.pc, x) && Elsewhere(pc', x))
  {
    hide Advance;
    hide SubmitReply;
    hide RetryReply;
    hide CanStart;
    hide OnHold;
    hide TakeClaim;
    if SessionAct(act) {
      hide Step;
      hide Fresh;
      var out := SessionShape(c, w, act);
    } else if act.Dispatch? {
      NewSessionOnly(c, w.d, w.pc, act.o);
      IdleOrSame(c, w.d, w.pc, act.o);
    }
  }

  lemma IdleOrSame(c: Config, d: Data, pc: Pc, o: Oracle)
    ensures var pc' := Advance(c, d, pc, o).1; pc'.Idle? || (!pc.Idle? && pc'.aid == pc.aid)
    ensures Advance(c, d, pc, o).1.Checked? ==> pc.Checked?
  {
    hide LoadPayload;
    hide Release;
    hide NewSession;
  }

  /** The claim at the end of a check either takes the attempt or finds it on
      hold, or no longer waiting. */
  lemma ClaimTurn(c: Config, w: World, owner: string, now: int, x: Id)
    requires w.pc == Checked(x) && x in w.d.queue.attempts
    ensures var w' := Step(c, w, ClaimChecked(owner, now));
      var a := w.d.queue.attempts[x];
      && x in w'.d.queue.attempts
      && if a.state.Queued? && !OnHold(a, now) then w'.pc == Pc.Claimed(x) && w'.d.queue.attempts[x].state.Claimed?
         else w'.pc.Idle? && w'.d.queue.attempts[x] == a
  {
    hide OnHold;
  }

  /** What the dispatcher's own write makes of the attempt it holds: only the
      end of a hold puts it back into the queue. */
  ghost predicate Moves(pc: Pc, a: Attempt, o: Oracle, r: (Data, Pc)) {
    && !pc.Idle? && pc.aid in r.0.queue.attempts && !r.1.Checked?
    && var a' := r.0.queue.attempts[pc.aid];
       && (if pc.Holding? then r.1.Idle? && a' == ReleaseRecord(a) else !a'.state.Queued?)
       && (r.1.Holding? ==> pc.Claimed? && HeldBy(o, a'))
  }

  lemma BeginMoves(d: Data, aid: Id, o: Oracle)
    requires aid in d.queue.attempts && !d.queue.attempts[aid].state.Queued?
    ensures Moves(Pc.Claimed(aid), d.queue.attempts[aid], o, Begin(d, aid, o))
  {
  }

  lemma LaunchMoves(c: Config, d: Data, pc: Pc, o: Oracle)
    requires (pc.Prepared? || pc.Started?) && pc.aid in d.queue.attempts && !d.queue.attempts[pc.aid].state.Queued?
    ensures Moves(pc, d.queue.attempts[pc.aid], o, Advance(c, d, pc, o))
  {
    hide LoadPayload;
    hide NewSession;
    hide HeldBy;
    hide FailJob;
  }

  lemma LastMoves(c: Config, d: Data, pc: Pc, o: Oracle)
    requires pc.Holding? || pc.Failing? || pc.Registered? || pc.Bound?
    requires pc.aid in d.queue.attempts && !d.queue.attempts[pc.aid].state.Queued?
    requires (pc.Holding? ==> d.queue.attempts[pc.aid].state.Claimed?) && (pc.Registered? ==> pc.att.state.Running?)
    ensures Moves(pc, d.queue.attempts[pc.aid], o, Advance(c, d, pc, o))
  {
    hide HeldBy;
  }

  lemma DispatchTurn(c: Config, w: World, o: Oracle, x: Id)
    requires Sound(c, w) && !Elsewhere(w.pc, x) && !w.pc.Checked?
    requires x in w.d.queue.attempts && !w.d.queue.attempts[x].state.Queued?
    ensures Moves(w.pc, w.d.queue.attempts[x], o, Advance(c, w.d, w.pc, o))
  {
    hide StartsOk;
    hide JobsOk;
    hide ShapeOk;
    hide OwnersOk;
    hide WasStarted;
    hide Begin;
    hide Launch;
    hide Record;
    hide Moves;
    match w.pc
    case Claimed(_) => BeginMoves(w.d, x, o);
    case Prepared(_, _, _) => LaunchMoves(c, w.d, w.pc, o);
    case Started(_, _, _, _) => LaunchMoves(c, w.d, w.pc, o);
    case _ => LastMoves(c, w.d, w.pc, o);
  }

  /** The attempt was found on hold by its own claim. */
  ghost predicate PutOff(c: Config, acts: seq<Act>, i: nat, h: nat, x: Id)
    requires i <= h <= |acts| && x in After(c, acts, i).d.queue.attempts
  {
    exists j :: i < j < h && acts[j].ClaimChecked? && After(c, acts, j).pc == Checked(x)
                && OnHold(After(c, acts, i).d.queue.attempts[x], acts[j].now)
  }

  /** The admission gate refused the attempt in its own turn. */
  ghost predicate HeldIn(c: Config, acts: seq<Act>, i: nat, h: nat, x: Id, a: Attempt)
    requires i <= h <= |acts|
  {
    exists j :: i < j < h && acts[j].Dispatch? && After(c, acts, j).pc == Pc.Claimed(x) && HeldBy(acts[j].o, a)
  }

  /** How matters stand with an attempt since its check at step `i`. */
  ghost predicate Waits(c: Config, acts: seq<Act>, i: nat, h: nat, x: Id)
    requires i <= h <= |acts| && x in After(c, acts, i).d.queue.attempts
  {
    var w, w0 := After(c, acts, h), After(c, acts, i);
    && x in w.d.queue.attempts
    && var a, a0 := w.d.queue.attempts[x], w0.d.queue.attempts[x];
       if Elsewhere(w.pc, x) then
         a.state.Queued? ==>
           || (a == a0 && !CanStart(c, w0.d.queue.attempts, a0.key.harness))
           || (a == a0 && PutOff(c, acts, i, h, x))
           || HeldIn(c, acts, i, h, x, a)
       else if w.pc.Checked? then a.state.Queued? ==> a == a0
       else !a.state.Queued? && (w.pc.Holding? && a.state.Claimed? ==> HeldIn(c, acts, i, h, x, a))
  }

  lemma CheckedFirst(c: Config, acts: seq<Act>, i: nat, x: Id)
    requires i < |acts| && acts[i] == Check(x) && After(c, acts, i).pc.Idle?
    requires x in After(c, acts, i).d.queue.attempts
    ensures Waits(c, acts, i, i + 1, x)
  {
    hide Run;
    hide CanStart;
    hide PutOff;
    hide HeldIn;
    OneStep(c, acts, i);
  }

  lemma LaterPutOff(c: Config, acts: seq<Act>, i: nat, h: nat, x: Id, a: Attempt)
    requires i <= h < |acts| && x in After(c, acts, i).d.queue.attempts
    ensures PutOff(c, acts, i, h, x) ==> PutOff(c, acts, i, h + 1, x)
    ensures HeldIn(c, acts, i, h, x, a) ==> HeldIn(c, acts, i, h + 1, x, a)
  {
    hide After;
    hide OnHold;
    hide HeldBy;
    if PutOff(c, acts, i, h, x) {
      var j :| && i < j < h && acts[j].ClaimChecked? && After(c, acts, j).pc == Checked(x)
               && OnHold(After(c, acts, i).d.queue.attempts[x], acts[j].now);
      assert acts[j].ClaimChecked?;
    }
    if HeldIn(c, acts, i, h, x, a) {
      var j :| i < j < h && acts[j].Dispatch? && After(c, acts, j).pc == Pc.Claimed(x) && HeldBy(acts[j].o, a);
      assert acts[j].Dispatch?;
    }
  }

  lemma WaitsStep(c: Config, acts: seq<Act>, i: nat, h: nat, x: Id)
    requires i < h < |acts| && x in After(c, acts, i).d.queue.attempts && Waits(c, acts, i, h, x)
    requires Sound(c, After(c, acts, h)) && Fresh(c, After(c, acts, h), acts[h])
    requires !Ends(acts[h]) && acts[h] != Check(x)
    ensures Waits(c, acts, i, h + 1, x)
  {
    hide Run;
    hide Step;
    hide Sound;
    hide Fresh;
    hide CanStart;
    hide OnHold;
    hide PutOff;
    hide HeldIn;
    var w, act := After(c, acts, h), acts[h];
    var a := w.d.queue.attempts[x];
    OneStep(c, acts, h);
    LaterPutOff(c, acts, i, h, x, a);
    if Elsewhere(w.pc, x) || !(act.Dispatch? || act.ClaimChecked?) {
      OthersLeave(c, w, act, x);
      OthersStand(c, w, act, x);
    } else if act.ClaimChecked? {
      ClaimMoves(c, acts, i, h, x);
    } else {
      DispatchMoves(c, acts, i, h, x);
    }
  }

  lemma ClaimMoves(c: Config, acts: seq<Act>, i: nat, h: nat, x: Id)
    requires i < h < |acts| && x in After(c, acts, i).d.queue.attempts && Waits(c, acts, i, h, x)
    requires acts[h].ClaimChecked? && !Elsewhere(After(c, acts, h).pc, x)
    ensures Waits(c, acts, i, h + 1, x)
  {
    hide Run;
    hide CanStart;
    hide OnHold;
    hide HeldIn;
    var w, act := After(c, acts, h), acts[h];
    var a := w.d.queue.attempts[x];
    OneStep(c, acts, h);
    LaterPutOff(c, acts, i, h, x, a);
    if w.pc.Checked? {
      ClaimTurn(c, w, act.owner, act.now, x);
      hide Step;
      if a.state.Queued? && OnHold(a, act.now) { assert acts[h].ClaimChecked? && After(c, acts, h).pc == Checked(x); }
    }
  }

  lemma DispatchMoves(c: Config, acts: seq<Act>, i: nat, h: nat, x: Id)
    requires i < h < |acts| && x in After(c, acts, i).d.queue.attempts && Waits(c, acts, i, h, x)
    requires Sound(c, After(c, acts, h)) && acts[h].Dispatch? && !Elsewhere(After(c, acts, h).pc, x)
    ensures Waits(c, acts, i, h + 1, x)
  {
    hide Run;
    hide CanStart;
    hide OnHold;
    hide PutOff;
    hide Advance;
    hide HeldIn;
    hide HeldBy;
    hide Sound;
    var w, o := After(c, acts, h), acts[h].o;
    var a := w.d.queue.attempts[x];
    OneStep(c, acts, h);
    if w.pc.Checked? {
      CheckedStays(c, w, o);
    } else {
      DispatchTurn(c, w, o, x);
      IdleOrSame(c, w.d, w.pc, o);
      if w.pc.Holding? {
        HoldingClaimed(c, w);
        HeldStays(c, acts, i, h, x, a);
      }
      if w.pc.Claimed? { HeldHere(c, acts, i, h, x, Advance(c, w.d, w.pc, o).0.queue.attempts[x]); }
    }
  }

  lemma HoldingClaimed(c: Config, w: World)
    requires Sound(c, w) && w.pc.Holding?
    ensures w.pc.aid in w.d.queue.attempts && w.d.queue.attempts[w.pc.aid].state.Claimed?
  {
    hide StartsOk;
    hide JobsOk;
    hide ShapeOk;
    hide OwnersOk;
  }

  lemma HeldHere(c: Config, acts: seq<Act>, i: nat, h: nat, x: Id, a: Attempt)
    requires i < h < |acts| && acts[h].Dispatch? && After(c, acts, h).pc == Pc.Claimed(x)
    ensures HeldBy(acts[h].o, a) ==> HeldIn(c, acts, i, h + 1, x, a)
  {
    hide After;
    hide HeldBy;
    assert acts[h].Dispatch?;
  }

  lemma HeldStays(c: Config, acts: seq<Act>, i: nat, h: nat, x: Id, a: Attempt)
    requires i <= h < |acts| && HeldIn(c, acts, i, h, x, a)
    ensures HeldIn(c, acts, i, h + 1, x, ReleaseRecord(a))
  {
    hide After;
    var j :| i < j < h && acts[j].Dispatch? && After(c, acts, j).pc == Pc.Claimed(x) && HeldBy(acts[j].o, a);
    assert acts[j].Dispatch?;
  }

  lemma CheckedStays(c: Config, w: World, o: Oracle)
    requires w.pc.Checked?
    ensures Step(c, w, Dispatch(o)) == w
  {
  }

  /** From step `i` on, no restart, no lease recovery and no second check. */
  predicate Undisturbed(acts: seq<Act>, i: nat, h: nat, x: Id)
    requires i < h <= |acts|
  {
    forall j :: i < j < h ==> !Ends(acts[j]) && acts[j] != Check(x)
  }

  lemma {:induction false} WaitsUpTo(c: Config, acts: seq<Act>, i: nat, h: nat, x: Id)
    requires Admissible(c, Init(), acts, FRESH_RUN) && i < h <= |acts|
    requires acts[i] == Check(x) && After(c, acts, i).pc.Idle? && x in After(c, acts, i).d.queue.attempts
    requires Undisturbed(acts, i, h, x)
    ensures Waits(c, acts, i, h, x)
    decreases h
  {
    hide After;
    hide Fresh;
    hide Sound;
    hide Waits;
    hide Ends;
    if h == i + 1 {
      CheckedFirst(c, acts, i, x);
    } else {
      WaitsUpTo(c, acts, i, h - 1, x);
      StepByStep(c, acts, FRESH_RUN);
      SoundAt(c, acts, h - 1);
      WaitsStep(c, acts, i, h - 1, x);
    }
  }

  lemma SoundAt(c: Config, acts: seq<Act>, h: nat)
    requires Admissible(c, Init(), acts, FRESH_RUN) && h <= |acts|
    ensures Sound(c, After(c, acts, h))
  {
    hide Step;
    hide Sound;
    Stretch(c, acts, h, h, FRESH_RUN);
    SoundRun(c, acts[..h], FRESH_RUN);
  }

  /** A look of the monitor, a cancel or a reconciliation after step `i` closed
      an attempt that had held its place ever since. */
  ghost predicate ClosedBetween(c: Config, acts: seq<Act>, i: nat, k: nat)
    requires i <= k <= |acts|
  {
    exists x, j :: i <= j < k && GivenBack(c, acts, i, j, x) && Closes(acts[j])
  }

  lemma RoomIsClosedBetween(c: Config, acts: seq<Act>, i: nat, k: nat, x: Id, h: string)
    requires Admissible(c, Init(), acts, FRESH_RUN) && i < k <= |acts| && Undisturbed(acts, i, k, x)
    requires acts[i].Check? && After(c, acts, i).pc.Idle?
    requires !CanStart(c, After(c, acts, i).d.queue.attempts, h) && CanStart(c, After(c, acts, k).d.queue.attempts, h)
    ensures ClosedBetween(c, acts, i, k)
  {
    hide After;
    hide Fresh;
    hide CanStart;
    hide GivenBack;
    RoomIsGivenBack(c, acts, i, k, h);
    var y, j :| i <= j < k && GivenBack(c, acts, i, j, y) && FromOutside(c, After(c, acts, j), acts[j]);
    StepByStep(c, acts, FRESH_RUN);
    assert Closes(acts[j]);
  }

  /** Why an attempt still waits after its turn, whatever came in between: it
      was on hold at its own claim, the admission gate refused it in its own
      turn, there is no room now either, or a call closed a running attempt
      after it had been refused. */
  lemma StillWaiting(c: Config, acts: seq<Act>, i: nat, h: nat, x: Id)
    requires Admissible(c, Init(), acts, FRESH_RUN) && i < h <= |acts|
    requires acts[i] == Check(x) && After(c, acts, i).pc.Idle? && x in After(c, acts, i).d.queue.attempts
    requires Undisturbed(acts, i, h, x) && Elsewhere(After(c, acts, h).pc, x)
    ensures var all := After(c, acts, h).d.queue.attempts;
      && x in all
      && (all[x].state.Queued? ==>
            || HeldIn(c, acts, i, h, x, all[x])
            || (all[x] == After(c, acts, i).d.queue.attempts[x]
                && (PutOff(c, acts, i, h, x) || ClosedBetween(c, acts, i, h) || !CanStart(c, all, all[x].key.harness))))
  {
    hide After;
    hide CanStart;
    hide PutOff;
    hide HeldIn;
    hide ClosedBetween;
    WaitsUpTo(c, acts, i, h, x);
    var all, all0 := After(c, acts, h).d.queue.attempts, After(c, acts, i).d.queue.attempts;
    if CanStart(c, all, all0[x].key.harness) && !CanStart(c, all0, all0[x].key.harness) {
      RoomIsClosedBetween(c, acts, i, h, x, all0[x].key.harness);
    }
  }

  // ---- a pass, with other calls in between ----

  /** In steps `s` to `e` of the run the dispatcher comes to the first |at|
      attempts of the list, to attempt `m` at step `at[m]`, and to no other;
      there is no restart and no other pass. */
  ghost predicate PassIn(c: Config, acts: seq<Act>, s: nat, e: nat, at: seq<nat>, ids: seq<Id>) {
    && s <= e <= |acts| && |at| <= |ids| && Distinct(ids)
    && (forall m :: 0 <= m < |at| ==>
          s <= at[m] < e && acts[at[m]] == Check(ids[m]) && After(c, acts, at[m]).pc.Idle?
          && ids[m] in After(c, acts, at[m]).d.queue.attempts)
    && (forall m, n :: 0 <= m < n < |at| ==> at[m] < at[n])
    && (forall j :: s <= j < e ==> !Ends(acts[j]) && (acts[j].Check? ==> j in at))
  }

  lemma PassUndisturbed(c: Config, acts: seq<Act>, s: nat, e: nat, at: seq<nat>, ids: seq<Id>, m: nat, h: nat)
    requires PassIn(c, acts, s, e, at, ids) && m < |at| && at[m] < h <= e
    ensures Undisturbed(acts, at[m], h, ids[m])
  {
    hide After;
    hide Ends;
    forall j | at[m] < j < h
      ensures !Ends(acts[j]) && acts[j] != Check(ids[m])
    {
      if acts[j].Check? {
        var n :| 0 <= n < |at| && at[n] == j;
        assert acts[at[n]] == Check(ids[n]);
        assert n != m;
      }
    }
  }

  /** Work-conserving: when the pass is over, an attempt that had its turn and
      still waits was on hold or refused by admission then, or finds no room
      now either, or a place was given back after it was refused. */
  lemma WorkConservingInRun(c: Config, acts: seq<Act>, s: nat, e: nat, at: seq<nat>, ids: seq<Id>, m: nat)
    requires Admissible(c, Init(), acts, FRESH_RUN) && PassIn(c, acts, s, e, at, ids) && m < |at|
    requires After(c, acts, e).pc.Idle?
    ensures var all := After(c, acts, e).d.queue.attempts;
      && ids[m] in all
      && (all[ids[m]].state.Queued? ==>
            || PutOff(c, acts, at[m], e, ids[m])
            || HeldIn(c, acts, at[m], e, ids[m], all[ids[m]])
            || !CanStart(c, all, all[ids[m]].key.harness)
            || ClosedBetween(c, acts, at[m], e))
  {
    hide After;
    hide CanStart;
    hide PutOff;
    hide HeldIn;
    hide ClosedBetween;
    PassUndisturbed(c, acts, s, e, at, ids, m, e);
    StillWaiting(c, acts, at[m], e, ids[m]);
  }

  /** No overtaking, but for places given back: when a later attempt of the
      list is let through, an earlier one of its harness that still waits was
      on hold or refused by admission in its turn, or a call closed a running
      attempt between the two turns. */
  lemma NoOvertakingInRun(c: Config, acts: seq<Act>, s: nat, e: nat, at: seq<nat>, ids: seq<Id>, m: nat, n: nat)
    requires Admissible(c, Init(), acts, FRESH_RUN) && PassIn(c, acts, s, e, at, ids) && m < n < |at|
    requires After(c, acts, at[n] + 1).pc == Checked(ids[n])
    ensures var all := After(c, acts, at[n]).d.queue.attempts;
      && ids[m] in all && ids[n] in all
      && (all[ids[m]].state.Queued? && all[ids[m]].key.harness == all[ids[n]].key.harness ==>
            || PutOff(c, acts, at[m], at[n], ids[m])
            || HeldIn(c, acts, at[m], at[n], ids[m], all[ids[m]])
            || ClosedBetween(c, acts, at[m], at[n]))
  {
    hide After;
    hide CanStart;
    hide PutOff;
    hide HeldIn;
    hide ClosedBetween;
    PassUndisturbed(c, acts, s, e, at, ids, m, at[n]);
    StillWaiting(c, acts, at[m], at[n], ids[m]);
    LetThrough(c, acts, at[n], ids[n]);
  }

  lemma LetThrough(c: Config, acts: seq<Act>, k: nat, y: Id)
    requires k < |acts| && acts[k] == Check(y) && After(c, acts, k).pc.Idle? && After(c, acts, k + 1).pc == Checked(y)
    ensures var all := After(c, acts, k).d.queue.attempts; y in all && CanStart(c, all, all[y].key.harness)
  {
    hide Run;
    hide CanStart;
    OneStep(c, acts, k);
  }

  /** The same by creation time, over any order of the queue file: the pass
      came to `y`, created later than `x` in the same harness, and let it
      through. */
  lemma FirstInFirstOutInRun(c: Config, acts: seq<Act>, s: nat, e: nat, at: seq<nat>, listing: seq<Id>, n: nat, x: Id)
    requires Admissible(c, Init(), acts, FRESH_RUN) && s <= |acts| && Distinct(listing) && x in listing
    requires var all := After(c, acts, s).d.queue.attempts;
      var ids := InOrder(all, listing);
      && PassIn(c, acts, s, e, at, ids) && n < |at|
      && x in all && all[x].state.Queued? && CreatedAt(all, x) < CreatedAt(all, ids[n])
      && After(c, acts, at[n] + 1).pc == Checked(ids[n])
    ensures var y := InOrder(After(c, acts, s).d.queue.attempts, listing)[n];
      var all := After(c, acts, at[n]).d.queue.attempts;
      exists m :: 0 <= m < n && acts[at[m]] == Check(x) && x in all && y in all
        && (all[x].state.Queued? && all[x].key.harness == all[y].key.harness ==>
              || PutOff(c, acts, at[m], at[n], x)
              || HeldIn(c, acts, at[m], at[n], x, all[x])
              || ClosedBetween(c, acts, at[m], at[n]))
  {
    hide After;
    hide PutOff;
    hide HeldIn;
    hide ClosedBetween;
    hide InOrder;
    var all := After(c, acts, s).d.queue.attempts;
    var ids := InOrder(all, listing);
    InOrderAre(all, listing);
    var m :| 0 <= m < |ids| && ids[m] == x;
    assert m < n;
    NoOvertakingInRun(c, acts, s, e, at, ids, m, n);
  }
}
