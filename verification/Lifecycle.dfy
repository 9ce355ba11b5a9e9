/** The control plane as a transition system: one dispatcher that can be
    interrupted between any two of its writes, and the other calls as single
    steps, over one persistent store. */
module Lifecycle {
  import opened Prelude
  import opened Records
  import opened Scheduling
  import opened Engine
  import opened Service

  /** `torn`: jobs whose dispatcher died between closing the attempt and
      closing the job. It is history only; no step reads it. */
  datatype World = World(d: Data, pc: Pc, torn: set<Id>)

  datatype Act =
    | Recover(now: int)
    | Check(aid: Id)
    | ClaimChecked(owner: string, now: int)
    | Dispatch(o: Oracle)
    | DoSubmit(r: Request, jobId: Id, payloadId: Id, repoOk: bool, now: int)
    | DoRetry(jobId: Id, newId: Option<Id>, key: string, now: int)
    | Monitor(sid: Id, obs: Obs, p: Probe, now: int)
    | DoCancel(sid: Id, gateway: bool, kill: bool, now: int)
    | CancelCrash(sid: Id)
    | Reconcile(sid: Id, obs: Obs, exit: Option<int>, now: int)
    | DoStatus(sid: Id, obs: Obs, now: int)
    | External(sid: Id)
    | Tamper(ref: Id, file: Option<PayloadFile>)
    | Crash

  function Init(): World {
    World(Data(Queue(map[], map[]), map[], map[], map[], {}, Log([], [], map[])), Idle, {})
  }

  /** A crash loses the volatile set of finalised sessions and the dispatcher's
      position; everything written stays. */
  function Restart(w: World): World {
    World(w.d.(emitted := {}), Idle, if w.pc.Failing? then w.torn + {w.pc.jobId} else w.torn)
  }

  function SaveAttempts(d: Data, all: map<Id, Attempt>): Data {
    d.(queue := d.queue.(attempts := all))
  }

  function Step(c: Config, w: World, act: Act): World {
    match act
    case Recover(now) =>
      if w.pc.Idle? then w.(d := SaveAttempts(w.d, RecoverExpired(w.d.queue.attempts, now, c.leaseS))) else w
    case Check(aid) =>
      if w.pc.Idle? && aid in w.d.queue.attempts && CanStart(c, w.d.queue.attempts, w.d.queue.attempts[aid].key.harness)
      then w.(pc := Checked(aid)) else w
    case ClaimChecked(owner, now) =>
      if !w.pc.Checked? then w
      else if Claimable(w.d.queue.attempts, w.pc.aid, now)
      then w.(d := SaveAttempts(w.d, TakeClaim(w.d.queue.attempts, w.pc.aid, owner, now)), pc := Pc.Claimed(w.pc.aid))
      else w.(pc := Idle)
    case Dispatch(o) => World(Advance(c, w.d, w.pc, o).0, Advance(c, w.d, w.pc, o).1, w.torn)
    case DoSubmit(r, jobId, payloadId, repoOk, now) => w.(d := Submit(c, w.d, r, jobId, payloadId, repoOk, now))
    case DoRetry(jobId, aid, key, now) => w.(d := Service.Retry(c, w.d, jobId, aid, key, now))
    case Monitor(sid, obs, p, now) => w.(d := MonitorOne(w.d, sid, obs, p, now))
    case DoCancel(sid, gateway, kill, now) => w.(d := Cancel(w.d, sid, gateway, kill, now))
    case CancelCrash(sid) => Restart(w.(d := MarkCancel(w.d, sid)))
    case Reconcile(sid, obs, exit, now) => w.(d := ReconcileOne(w.d, sid, obs, exit, now))
    case DoStatus(sid, obs, now) => w.(d := Status(w.d, sid, obs, now))
    case External(sid) => w.(d := ObserveExternal(w.d, sid))
    case Tamper(ref, file) =>
      w.(d := w.d.(payloads := if file.Some? then w.d.payloads[ref := file.value] else w.d.payloads - {ref}))
    case Crash => Restart(w)
  }

  function Run(c: Config, w: World, acts: seq<Act>): World
    decreases |acts|
  {
    if acts == [] then w else Run(c, Step(c, w, acts[0]), acts[1..])
  }

  // ---- conditions on runs ----

  /** Generated identifiers are new. The code checks a retry's attempt id
      against the job's own list only. */
  predicate Fresh(c: Config, w: World, act: Act) {
    match act
    case DoSubmit(_, jobId, _, _, _) => jobId !in w.d.queue.jobs
    case DoRetry(jobId, aid, key, _) =>
      var reply := RetryReply(c, w.d, jobId, aid, key);
      reply.Enqueued? ==> reply.attemptId !in w.d.queue.attempts
    case Dispatch(_) => w.pc.Started? && w.pc.gateway.StartOk? ==> w.pc.gateway.sid !in w.d.sessions
    case External(sid) => sid !in w.d.sessions
    case _ => true
  }

  /** The dispatcher saves its own copy of an attempt that was closed since
      the session was registered. */
  predicate Revives(w: World, act: Act) {
    && act.Dispatch? && w.pc.Registered?
    && w.pc.aid in w.d.queue.attempts && w.d.queue.attempts[w.pc.aid].terminal
  }

  /** The dispatcher saves its own copy of a job whose list of attempts is not
      what it was when the copy was read. */
  predicate Drops(w: World, act: Act) {
    && act.Dispatch? && (w.pc.Failing? || w.pc.Bound?)
    && w.pc.jobId in w.d.queue.jobs && w.d.queue.jobs[w.pc.jobId].attempts != w.pc.job.attempts
  }

  /** The dispatcher saves a job as RUNNING that has ended, or was retried,
      since its attempt was bound. */
  predicate Overwrites(w: World, act: Act) {
    && act.Dispatch? && w.pc.Bound? && w.pc.jobId in w.d.queue.jobs
    && (JobEnded(w.d.queue.jobs[w.pc.jobId].state) || w.d.queue.jobs[w.pc.jobId].attempts != w.pc.job.attempts)
  }

  /** A write that undoes what another call did in the meantime. */
  predicate Stale(w: World, act: Act) { Revives(w, act) || Overwrites(w, act) }

  /** Reconciliation finds the recorded process of an ended session alive
      although the attempt is closed. */
  predicate FoundAlive(w: World, act: Act) {
    && act.Reconcile? && Observable(w.d.sessions, act.sid) && act.obs.Process? && act.obs.sameStart && act.obs.sameBoot
    && SessionEnded(w.d.sessions[act.sid].state) && Finished(w.d.queue, w.d.sessions[act.sid].key.attemptId)
  }

  /** What a run keeps to: fresh ids, no revived attempt, no dropped retry, no
      stale write at all, no ended session found alive. */
  datatype Discipline = Discipline(newIds: bool, kept: bool, listed: bool, current: bool, settled: bool)

  const ANY_RUN := Discipline(false, false, false, false, false)
  const FRESH_RUN := Discipline(true, false, false, false, false)
  const KEPT_RUN := Discipline(true, true, false, false, false)
  const LISTED_RUN := Discipline(true, false, true, false, false)
  const CURRENT_RUN := Discipline(true, false, false, true, false)
  const SETTLED_RUN := Discipline(true, true, false, false, true)

  predicate Allowed(c: Config, w: World, act: Act, k: Discipline) {
    && (k.newIds ==> Fresh(c, w, act))
    && (k.kept ==> !Revives(w, act))
    && (k.listed ==> !Drops(w, act))
    && (k.current ==> !Stale(w, act))
    && (k.settled ==> !FoundAlive(w, act))
  }

  predicate Admissible(c: Config, w: World, acts: seq<Act>, k: Discipline)
    decreases |acts|
  {
    acts == [] || (Allowed(c, w, acts[0], k) && Admissible(c, Step(c, w, acts[0]), acts[1..], k))
  }

  lemma {:induction false} RunConcat(c: Config, w: World, before: seq<Act>, after: seq<Act>, k: Discipline)
    ensures Run(c, w, before + after) == Run(c, Run(c, w, before), after)
    ensures Admissible(c, w, before + after, k)
       <==> Admissible(c, w, before, k) && Admissible(c, Run(c, w, before), after, k)
    decreases |before|
  {
    if before == [] {
      assert before + after == after;
    } else {
      assert (before + after)[0] == before[0] && (before + after)[1..] == before[1..] + after;
      RunConcat(c, Step(c, w, before[0]), before[1..], after, k);
    }
  }

  /** The state after the first `i` steps. */
  function After(c: Config, acts: seq<Act>, i: nat): World
    requires i <= |acts|
  {
    Run(c, Init(), acts[..i])
  }

  lemma OneStep(c: Config, acts: seq<Act>, i: nat)
    requires i < |acts|
    ensures After(c, acts, i + 1) == Step(c, After(c, acts, i), acts[i])
  {
    hide Step;
    assert acts[..i + 1] == acts[..i] + [acts[i]];
    RunConcat(c, Init(), acts[..i], [acts[i]], ANY_RUN);
    var w := After(c, acts, i);
    assert Run(c, w, [acts[i]]) == Run(c, Step(c, w, acts[i]), []);
  }

  /** A run keeps to a discipline exactly when each of its steps does. */
  lemma {:induction false} StepByStep(c: Config, acts: seq<Act>, k: Discipline)
    ensures Admissible(c, Init(), acts, k) <==> forall i :: 0 <= i < |acts| ==> Allowed(c, After(c, acts, i), acts[i], k)
    decreases |acts|
  {
    hide Step;
    hide Allowed;
    if acts != [] {
      var n := |acts| - 1;
      var before := acts[..n];
      assert acts == before + [acts[n]];
      RunConcat(c, Init(), before, [acts[n]], k);
      StepByStep(c, before, k);
      assert forall i :: 0 <= i <= n ==> before[..i] == acts[..i];
      var w := After(c, acts, n);
      assert Admissible(c, w, [acts[n]], k) <==> Allowed(c, w, acts[n], k) && Admissible(c, Step(c, w, acts[n]), [], k);
      assert forall i :: 0 <= i < n ==> After(c, before, i) == After(c, acts, i);
    }
  }

  /** Any stretch of an admissible run is admissible. */
  lemma Stretch(c: Config, acts: seq<Act>, i: nat, h: nat, k: Discipline)
    requires i <= h <= |acts| && Admissible(c, Init(), acts, k)
    ensures Admissible(c, Init(), acts[..i], k) && Admissible(c, After(c, acts, i), acts[i..h], k)
    ensures After(c, acts, h) == Run(c, After(c, acts, i), acts[i..h])
  {
    hide Step;
    hide Allowed;
    assert acts == acts[..h] + acts[h..];
    RunConcat(c, Init(), acts[..h], acts[h..], k);
    assert acts[..h] == acts[..i] + acts[i..h];
    RunConcat(c, Init(), acts[..i], acts[i..h], k);
  }
}
