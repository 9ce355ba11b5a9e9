/** The list of attempts a job keeps, and what a repeated retry names, along
    every run with fresh ids. */
module Lists {
  import opened Prelude
  import opened Records
  import opened Scheduling
  import opened Engine
  import opened Service
  import opened Lifecycle
  import opened Shapes
  import opened Foundation
  import opened Books
  import opened Stranded

  /** The attempts of one job: its own, distinct, with distinct keys. */
  predicate ListOk(j: Id, ids: seq<Id>, all: map<Id, Attempt>) {
    && |ids| > 0
    && (forall i, k :: 0 <= i < k < |ids| ==> ids[i] != ids[k])
    && (forall i :: 0 <= i < |ids| ==> ids[i] in all && all[ids[i]].key.jobId == j)
    && KeysOnce(ids, all)
  }

  predicate ListsOk(q: Queue) {
    forall j :: j in q.jobs ==> ListOk(j, q.jobs[j].attempts, q.attempts)
  }

  /** A copy of a job names some of the attempts of the stored one, in order. */
  predicate Lags(jobId: Id, job: Job, jobs: map<Id, Job>) {
    jobId in jobs && |job.attempts| > 0 && job.attempts <= jobs[jobId].attempts
  }

  predicate LagOk(pc: Pc, jobs: map<Id, Job>) {
    match pc
    case Failing(_, jobId, job) => Lags(jobId, job, jobs)
    case Prepared(_, att, job) => Lags(att.key.jobId, job, jobs)
    case Started(_, att, job, _) => Lags(att.key.jobId, job, jobs)
    case Registered(_, att, job, _) => Lags(att.key.jobId, job, jobs)
    case Bound(_, jobId, job, _) => Lags(jobId, job, jobs)
    case _ => true
  }

  predicate Listed(w: World) { ListsOk(w.d.queue) && LagOk(w.pc, w.d.queue.jobs) }

  /** No job disappears, changes its terms or loses an attempt. */
  predicate Grown(jobs: map<Id, Job>, jobs': map<Id, Job>) {
    forall j :: j in jobs ==> j in jobs' && jobs'[j].spec == jobs[j].spec && jobs[j].attempts <= jobs'[j].attempts
  }

  // ---- one list ----

  lemma ListFrame(j: Id, ids: seq<Id>, all: map<Id, Attempt>, all': map<Id, Attempt>)
    requires ListOk(j, ids, all) && SteadyAttempts(all, all')
    ensures ListOk(j, ids, all')
  {
  }

  lemma ListPrefix(j: Id, ids: seq<Id>, all: map<Id, Attempt>, less: seq<Id>)
    requires ListOk(j, ids, all) && |less| > 0 && less <= ids
    ensures ListOk(j, less, all)
  {
  }

  lemma ListMore(j: Id, ids: seq<Id>, all: map<Id, Attempt>, aid: Id, a: Attempt)
    requires ListOk(j, ids, all) && aid !in all && a.key.jobId == j
    requires a.key.idemKey != "" ==> WithKey(all, ids, a.key.idemKey).None?
    ensures ListOk(j, ids + [aid], all[aid := a])
  {
    if a.key.idemKey != "" { WithKeyFinds(all, ids, a.key.idemKey); }
  }

  /** Jobs may change in anything but their lists. */
  predicate SameLists(jobs: map<Id, Job>, jobs': map<Id, Job>) {
    && jobs'.Keys == jobs.Keys
    && forall j :: j in jobs ==> jobs'[j].attempts == jobs[j].attempts && jobs'[j].spec == jobs[j].spec
  }

  lemma SameListed(q: Queue, q': Queue, pc: Pc)
    requires ListsOk(q) && LagOk(pc, q.jobs) && SameLists(q.jobs, q'.jobs) && SteadyAttempts(q.attempts, q'.attempts)
    ensures ListsOk(q') && LagOk(pc, q'.jobs) && Grown(q.jobs, q'.jobs)
  {
    hide ListOk;
    hide SteadyAttempts;
    forall j | j in q'.jobs
      ensures ListOk(j, q'.jobs[j].attempts, q'.attempts)
    {
      ListFrame(j, q.jobs[j].attempts, q.attempts, q'.attempts);
    }
  }

  lemma LagMore(pc: Pc, jobs: map<Id, Job>, jobs': map<Id, Job>)
    requires LagOk(pc, jobs) && Grown(jobs, jobs')
    ensures LagOk(pc, jobs')
  {
  }

  lemma SettleLists(q: Queue, aid: Id, o: Outcome)
    requires Ended(o.state)
    ensures SameLists(q.jobs, Settle(q, aid, o).jobs)
  {
    hide Amend;
  }

  lemma SelfLists(jobs: map<Id, Job>)
    ensures SameLists(jobs, jobs) && Grown(jobs, jobs)
  {
  }

  // ---- steps ----

  lemma SessionActLists(c: Config, w: World, act: Act)
    requires SessionAct(act) && Fresh(c, w, act)
    ensures SameLists(w.d.queue.jobs, Step(c, w, act).d.queue.jobs) && Step(c, w, act).pc == w.pc
  {
    hide Step;
    hide Fresh;
    hide Settle;
    hide SameOwners;
    hide SameLists;
    SelfLists(w.d.queue.jobs);
    var out := SessionShape(c, w, act);
    if out.Some? { SettleLists(w.d.queue, w.d.sessions[ActSession(act)].key.attemptId, out.value); }
  }

  lemma SubmitLists(c: Config, w: World, act: Act)
    requires Listed(w) && act.DoSubmit? && act.jobId !in w.d.queue.jobs
    requires SteadyAttempts(w.d.queue.attempts, Step(c, w, act).d.queue.attempts)
    ensures Listed(Step(c, w, act)) && Grown(w.d.queue.jobs, Step(c, w, act).d.queue.jobs)
  {
    hide SubmitReply;
    hide ListOk;
    hide SteadyAttempts;
    hide LagOk;
    var q, q' := w.d.queue, Step(c, w, act).d.queue;
    SelfLists(q.jobs);
    assert q'.jobs == q.jobs || q'.jobs == q.jobs[act.jobId := NewJob(c, act.r, act.payloadId)];
    assert Step(c, w, act).pc == w.pc;
    LagMore(w.pc, q.jobs, q'.jobs);
    forall j | j in q'.jobs
      ensures ListOk(j, q'.jobs[j].attempts, q'.attempts)
    {
      if j in q.jobs { ListFrame(j, q.jobs[j].attempts, q.attempts, q'.attempts); }
      else { FirstList(j, act.r.attemptId, q'.attempts); }
    }
  }

  lemma FirstList(j: Id, aid: Id, all: map<Id, Attempt>)
    requires aid in all && all[aid].key.jobId == j
    ensures ListOk(j, [aid], all)
  {
  }

  lemma RetryLists(c: Config, w: World, act: Act)
    requires Listed(w) && act.DoRetry? && Fresh(c, w, act)
    requires SteadyAttempts(w.d.queue.attempts, Step(c, w, act).d.queue.attempts)
    ensures Listed(Step(c, w, act)) && Grown(w.d.queue.jobs, Step(c, w, act).d.queue.jobs)
  {
    hide RetryReply;
    hide ListOk;
    hide SteadyAttempts;
    hide WithKey;
    var q, q' := w.d.queue, Step(c, w, act).d.queue;
    SelfLists(q.jobs);
    var reply := RetryReply(c, w.d, act.jobId, act.newId, act.key);
    if reply.Enqueued? {
      RetryFacts(c, w.d, act.jobId, act.newId, act.key);
      var a := NewAttempt(act.jobId, q.jobs[act.jobId].spec.harness, act.key, act.now);
      forall j | j in q'.jobs
        ensures ListOk(j, q'.jobs[j].attempts, q'.attempts)
      {
        if j == act.jobId { ListMore(j, q.jobs[j].attempts, q.attempts, reply.attemptId, a); }
        else { ListFrame(j, q.jobs[j].attempts, q.attempts, q'.attempts); }
      }
      LagMore(w.pc, q.jobs, q'.jobs);
    }
  }

  /** A copy read now lags no further, and none is ever ahead. */
  lemma LagFrom(c: Config, d: Data, pc: Pc, o: Oracle)
    requires LagOk(pc, d.queue.jobs) && ListsOk(d.queue)
    ensures LagOk(Advance(c, d, pc, o).1, Advance(c, d, pc, o).0.queue.jobs)
  {
    hide LoadPayload;
    hide Release;
    hide NewSession;
    if pc.Claimed? && pc.aid in d.queue.attempts && d.queue.attempts[pc.aid].key.jobId in d.queue.jobs {
      ListHas(d.queue, d.queue.attempts[pc.aid].key.jobId);
    }
    hide ListsOk;
  }

  lemma ListHas(q: Queue, j: Id)
    requires ListsOk(q) && j in q.jobs
    ensures |q.jobs[j].attempts| > 0
  {
  }

  lemma DispatchLists(c: Config, w: World, o: Oracle)
    requires Sound(c, w) && Listed(w) && Fresh(c, w, Dispatch(o))
    ensures Listed(Step(c, w, Dispatch(o)))
  {
    hide Sound;
    hide Fresh;
    hide Advance;
    hide ListOk;
    hide SteadyAttempts;
    var q, q' := w.d.queue, Step(c, w, Dispatch(o)).d.queue;
    AdvanceJobs(c, w.d, w.pc, o);
    LagFrom(c, w.d, w.pc, o);
    StepSound(c, w, Dispatch(o));
    forall j | j in q'.jobs
      ensures ListOk(j, q'.jobs[j].attempts, q'.attempts)
    {
      if j in q.jobs {
        ListHas(q, j);
        ListPrefix(j, q.jobs[j].attempts, q.attempts, q'.jobs[j].attempts);
        ListFrame(j, q'.jobs[j].attempts, q.attempts, q'.attempts);
      }
    }
  }

  /** The dispatcher's job write is the only one that can shrink a list. */
  lemma DispatchGrows(c: Config, w: World, o: Oracle)
    requires Sound(c, w) && Listed(w)
    ensures Grown(w.d.queue.jobs, Step(c, w, Dispatch(o)).d.queue.jobs) <==> !Drops(w, Dispatch(o))
  {
    hide StartsOk;
    hide JobsOk;
    hide OwnersOk;
    hide ShapeOk;
    hide WasStarted;
    hide ListsOk;
    hide Advance;
    var jobs := w.d.queue.jobs;
    AdvanceJobs(c, w.d, w.pc, o);
    SelfLists(jobs);
    if w.pc.Failing? || w.pc.Bound? {
      var jobs' := jobs[w.pc.jobId := w.pc.job];
      if jobs[w.pc.jobId].attempts != w.pc.job.attempts { assert !(jobs[w.pc.jobId].attempts <= jobs'[w.pc.jobId].attempts); }
    }
  }

  lemma OthersLists(c: Config, w: World, act: Act)
    requires act.Recover? || act.Check? || act.ClaimChecked? || act.Crash? || act.CancelCrash?
    ensures var w' := Step(c, w, act);
      w'.d.queue.jobs == w.d.queue.jobs && (w'.pc == w.pc || w'.pc.Idle? || w'.pc.Checked? || w'.pc.Claimed?)
  {
    hide MarkCancel;
    hide CanStart;
    hide OnHold;
    hide RecoverExpired;
    hide TakeClaim;
    if act.CancelCrash? { MarkShape(w.d, act.sid); }
  }

  /** Every step with fresh ids keeps the lists in order; it keeps every job's
      list, but for growth, exactly when it drops no retry. */
  lemma GrowsExactly(c: Config, w: World, act: Act)
    requires Sound(c, w) && Listed(w) && Fresh(c, w, act)
    ensures Listed(Step(c, w, act))
    ensures Grown(w.d.queue.jobs, Step(c, w, act).d.queue.jobs) <==> !Drops(w, act)
  {
    hide Step;
    hide Sound;
    hide Fresh;
    hide ListsOk;
    hide Grown;
    hide SameLists;
    hide SteadyAttempts;
    var q, q' := w.d.queue, Step(c, w, act).d.queue;
    StepSound(c, w, act);
    SelfLists(q.jobs);
    if act.Dispatch? {
      DispatchLists(c, w, act.o);
      DispatchGrows(c, w, act.o);
    } else if act.DoSubmit? {
      FreshSubmit(c, w, act);
      SubmitLists(c, w, act);
    } else if act.DoRetry? {
      RetryLists(c, w, act);
    } else if SessionAct(act) {
      SessionActLists(c, w, act);
      SameListed(q, q', w.pc);
    } else {
      OthersLists(c, w, act);
      SameListed(q, q', w.pc);
    }
  }

  lemma {:induction false} ListedFrom(c: Config, w: World, acts: seq<Act>, k: Discipline)
    requires Sound(c, w) && Listed(w) && k.newIds && Admissible(c, w, acts, k)
    ensures Sound(c, Run(c, w, acts)) && Listed(Run(c, w, acts))
    ensures k.listed ==> Grown(w.d.queue.jobs, Run(c, w, acts).d.queue.jobs)
    decreases |acts|
  {
    hide Step;
    hide Sound;
    hide Listed;
    hide Fresh;
    hide Revives;
    hide Drops;
    hide Stale;
    hide FoundAlive;
    SelfLists(w.d.queue.jobs);
    if acts != [] {
      StepSound(c, w, acts[0]);
      GrowsExactly(c, w, acts[0]);
      ListedFrom(c, Step(c, w, acts[0]), acts[1..], k);
    }
  }

  lemma ListedRun(c: Config, acts: seq<Act>, k: Discipline)
    requires k.newIds && Admissible(c, Init(), acts, k)
    ensures Sound(c, Run(c, Init(), acts)) && Listed(Run(c, Init(), acts))
  {
    hide Step;
    ListedFrom(c, Init(), acts, k);
  }

  /** Along a run with fresh ids the jobs only grow, from any moment to any
      later one, if and only if no step writes back a list that has grown
      since it was read. */
  lemma JobsOnlyGrow(c: Config, acts: seq<Act>)
    requires Admissible(c, Init(), acts, FRESH_RUN)
    ensures (forall i, h :: 0 <= i <= h <= |acts| ==>
              Grown(After(c, acts, i).d.queue.jobs, After(c, acts, h).d.queue.jobs))
       <==> Admissible(c, Init(), acts, LISTED_RUN)
  {
    hide Run;
    hide Step;
    hide Sound;
    hide Listed;
    hide Grown;
    hide Fresh;
    hide Drops;
    StepByStep(c, acts, FRESH_RUN);
    StepByStep(c, acts, LISTED_RUN);
    if Admissible(c, Init(), acts, LISTED_RUN) {
      forall i, h | 0 <= i <= h <= |acts|
        ensures Grown(After(c, acts, i).d.queue.jobs, After(c, acts, h).d.queue.jobs)
      {
        Stretch(c, acts, i, h, LISTED_RUN);
        ListedRun(c, acts[..i], LISTED_RUN);
        ListedFrom(c, After(c, acts, i), acts[i..h], LISTED_RUN);
      }
    }
    if forall i, h :: 0 <= i <= h <= |acts| ==>
         Grown(After(c, acts, i).d.queue.jobs, After(c, acts, h).d.queue.jobs) {
      forall i | 0 <= i < |acts|
        ensures Allowed(c, After(c, acts, i), acts[i], LISTED_RUN)
      {
        Stretch(c, acts, i, i, FRESH_RUN);
        ListedRun(c, acts[..i], FRESH_RUN);
        OneStep(c, acts, i);
        GrowsExactly(c, After(c, acts, i), acts[i]);
        assert Grown(After(c, acts, i).d.queue.jobs, After(c, acts, i + 1).d.queue.jobs);
      }
    }
  }

  // ---- idempotency ----

  /** The one attempt of a list with a given non-empty key is the one found. */
  lemma KeyFound(all: map<Id, Attempt>, ids: seq<Id>, i: nat)
    requires forall k :: 0 <= k < |ids| ==> ids[k] in all
    requires KeysOnce(ids, all) && i < |ids| && all[ids[i]].key.idemKey != ""
    ensures WithKey(all, ids, all[ids[i]].key.idemKey) == Some(ids[i])
  {
    WithKeyFinds(all, ids, all[ids[i]].key.idemKey);
    assert ids[i] in all;
  }

  lemma RetryAdds(c: Config, w: World, jobId: Id, id: Option<Id>, key: string, now: int)
    requires RetryReply(c, w.d, jobId, id, key).Enqueued?
    ensures var q' := Step(c, w, DoRetry(jobId, id, key, now)).d.queue;
      var aid := RetryReply(c, w.d, jobId, id, key).attemptId;
      && jobId in q'.jobs && |q'.jobs[jobId].attempts| > 0 && aid in q'.attempts
      && q'.jobs[jobId].attempts == w.d.queue.jobs[jobId].attempts + [aid]
      && q'.attempts[aid].key.idemKey == key && q'.attempts[aid].key.jobId == jobId
  {
    hide RetryReply;
  }

  lemma DuplicateReply(c: Config, d: Data, jobId: Id, id: Option<Id>, key: string, now: int)
    requires key != "" && jobId in d.queue.jobs
    ensures var found := WithKey(d.queue.attempts, d.queue.jobs[jobId].attempts, key);
      && (found.Some? ==> RetryReply(c, d, jobId, id, key) == Duplicate(found.value))
      && (found.None? ==> !RetryReply(c, d, jobId, id, key).Duplicate?)
    ensures RetryReply(c, d, jobId, id, key).Duplicate? ==> Service.Retry(c, d, jobId, id, key, now) == d
  {
    hide WithKey;
    hide LoadPayload;
    hide SafeIdent;
    hide RetryId;
  }

  /** A later retry of the same job with the same key names the first one's
      attempt exactly when the job still lists it. */
  lemma NamesExactly(c: Config, w: World, jobId: Id, first: Id, id: Option<Id>, key: string, now: int)
    requires Listed(w) && key != "" && jobId in w.d.queue.jobs
    requires first in w.d.queue.attempts && w.d.queue.attempts[first].key.idemKey == key
    ensures RetryReply(c, w.d, jobId, id, key) == Duplicate(first) <==> first in w.d.queue.jobs[jobId].attempts
    ensures RetryReply(c, w.d, jobId, id, key).Duplicate? ==> Service.Retry(c, w.d, jobId, id, key, now) == w.d
  {
    hide RetryReply;
    hide Service.Retry;
    hide LagOk;
    hide WithKey;
    var all, ids := w.d.queue.attempts, w.d.queue.jobs[jobId].attempts;
    assert ListOk(jobId, ids, all);
    DuplicateReply(c, w.d, jobId, id, key, now);
    WithKeyFinds(all, ids, key);
    if first in ids {
      var i :| 0 <= i < |ids| && ids[i] == first;
      KeyFound(all, ids, i);
    }
  }

  /** Once a retry with a key was accepted, a retry of that job with the same
      key, at any later point of a run with fresh ids and with any proposed id,
      names that same attempt if and only if the job still lists it. It does
      so as long as no step drops a retry. A duplicate changes nothing. */
  lemma RetryOncePerKey(c: Config, before: seq<Act>, retry: Act, after: seq<Act>, id: Option<Id>, now: int)
    requires retry.DoRetry? && retry.key != ""
    requires Admissible(c, Init(), before + [retry] + after, FRESH_RUN)
    requires RetryReply(c, Run(c, Init(), before).d, retry.jobId, retry.newId, retry.key).Enqueued?
    ensures var d := Run(c, Init(), before + [retry] + after).d;
      var first := RetryReply(c, Run(c, Init(), before).d, retry.jobId, retry.newId, retry.key).attemptId;
      var reply := RetryReply(c, d, retry.jobId, id, retry.key);
      && retry.jobId in d.queue.jobs
      && (reply == Duplicate(first) <==> first in d.queue.jobs[retry.jobId].attempts)
      && (reply.Duplicate? ==> Service.Retry(c, d, retry.jobId, id, retry.key, now) == d)
      && (Admissible(c, Init(), before + [retry] + after, LISTED_RUN) ==> reply == Duplicate(first))
  {
    hide Step;
    hide Fresh;
    hide Drops;
    hide Sound;
    hide Listed;
    hide RetryReply;
    hide Service.Retry;
    var acts := before + [retry] + after;
    var n := |before|;
    assert acts[..n] == before && acts[n] == retry && acts[..|acts|] == acts;
    var w, w1 := Run(c, Init(), before), After(c, acts, n + 1);
    OneStep(c, acts, n);
    RetryAdds(c, w, retry.jobId, retry.newId, retry.key, retry.now);
    var aid := RetryReply(c, w.d, retry.jobId, retry.newId, retry.key).attemptId;
    Stretch(c, acts, n + 1, |acts|, FRESH_RUN);
    ListedRun(c, acts[..n + 1], FRESH_RUN);
    ListedFrom(c, w1, acts[n + 1..], FRESH_RUN);
    SoundFrom(c, w1, acts[n + 1..], FRESH_RUN);
    var w2 := Run(c, Init(), acts);
    NamesExactly(c, w2, retry.jobId, aid, id, retry.key, now);
    if Admissible(c, Init(), acts, LISTED_RUN) {
      Stretch(c, acts, n + 1, |acts|, LISTED_RUN);
      ListedFrom(c, w1, acts[n + 1..], LISTED_RUN);
      assert w1.d.queue.jobs[retry.jobId].attempts[|w.d.queue.jobs[retry.jobId].attempts|] == aid;
      assert aid in w2.d.queue.jobs[retry.jobId].attempts;
    }
  }

  /** No list names two attempts with the same non-empty key. */
  lemma KeyOncePerList(c: Config, acts: seq<Act>, j: Id, i: nat, k: nat)
    requires Admissible(c, Init(), acts, FRESH_RUN) && j in Run(c, Init(), acts).d.queue.jobs
    requires i < k < |Run(c, Init(), acts).d.queue.jobs[j].attempts|
    ensures var q := Run(c, Init(), acts).d.queue;
      var x, y := q.jobs[j].attempts[i], q.jobs[j].attempts[k];
      && x in q.attempts && y in q.attempts && x != y
      && (q.attempts[x].key.idemKey != "" ==> q.attempts[x].key.idemKey != q.attempts[y].key.idemKey)
  {
    hide Step;
    ListedRun(c, acts, FRESH_RUN);
    var q := Run(c, Init(), acts).d.queue;
    assert ListOk(j, q.jobs[j].attempts, q.attempts);
  }

  // ---- every attempt stays listed ----

  lemma OwnedMore(q: Queue, q': Queue)
    requires AllOwned(q) && Grown(q.jobs, q'.jobs) && SteadyAttempts(q.attempts, q'.attempts)
    requires forall x :: x in q'.attempts && x !in q.attempts ==> Owned(q'.attempts[x], x, q'.jobs)
    ensures AllOwned(q')
  {
    forall x | x in q'.attempts
      ensures Owned(q'.attempts[x], x, q'.jobs)
    {
      if x in q.attempts { assert Owned(q.attempts[x], x, q.jobs); }
    }
  }

  lemma NewOwned(c: Config, w: World, act: Act)
    requires Sound(c, w) && Fresh(c, w, act)
    ensures var q' := Step(c, w, act).d.queue;
      forall x :: x in q'.attempts && x !in w.d.queue.attempts ==> Owned(q'.attempts[x], x, q'.jobs)
  {
    hide Sound;
    hide Fresh;
    hide Advance;
    hide SubmitReply;
    hide RetryReply;
    hide MonitorOne;
    hide Cancel;
    hide ReconcileOne;
    hide Status;
    hide MarkCancel;
    hide CanStart;
    hide OnHold;
    match act
    case Dispatch(o) => NoNew(c, w, o);
    case DoSubmit(_, _, _, _, _) =>
    case DoRetry(jobId, id, key, now) =>
      if RetryReply(c, w.d, jobId, id, key).Enqueued? { RetryAdds(c, w, jobId, id, key, now); }
    case Recover(_) =>
    case Check(_) =>
    case ClaimChecked(_, _) =>
    case CancelCrash(sid) => MarkShape(w.d, sid);
    case Crash =>
    case _ => SessionActNoNew(c, w, act);
  }

  lemma NoNew(c: Config, w: World, o: Oracle)
    requires Sound(c, w)
    ensures forall x :: x in Advance(c, w.d, w.pc, o).0.queue.attempts ==> x in w.d.queue.attempts
  {
    hide StartsOk;
    hide JobsOk;
    hide OwnersOk;
    hide ShapeOk;
    hide WasStarted;
    hide Advance;
    AdvanceOnly(c, w.d, w.pc, o);
  }

  lemma SessionActNoNew(c: Config, w: World, act: Act)
    requires SessionAct(act) && Fresh(c, w, act)
    ensures forall x :: x in Step(c, w, act).d.queue.attempts ==> x in w.d.queue.attempts
  {
    hide Step;
    hide Fresh;
    hide SameOwners;
    hide Amend;
    var out := SessionShape(c, w, act);
  }

  lemma {:induction false} OwnedFrom(c: Config, w: World, acts: seq<Act>)
    requires Sound(c, w) && Listed(w) && AllOwned(w.d.queue) && Admissible(c, w, acts, LISTED_RUN)
    ensures AllOwned(Run(c, w, acts).d.queue)
    decreases |acts|
  {
    hide Step;
    hide Sound;
    hide Listed;
    hide Fresh;
    hide Drops;
    hide AllOwned;
    hide Grown;
    hide SteadyAttempts;
    hide Owned;
    if acts != [] {
      StepSound(c, w, acts[0]);
      GrowsExactly(c, w, acts[0]);
      NewOwned(c, w, acts[0]);
      OwnedMore(w.d.queue, Step(c, w, acts[0]).d.queue);
      OwnedFrom(c, Step(c, w, acts[0]), acts[1..]);
    }
  }

  lemma OwnedRun(c: Config, acts: seq<Act>)
    requires Admissible(c, Init(), acts, LISTED_RUN)
    ensures AllOwned(Run(c, Init(), acts).d.queue)
  {
    hide Step;
    OwnedFrom(c, Init(), acts);
  }

  /** As long as no step drops a retry, no two stored attempts of a job share a
      non-empty key, listed or not. */
  lemma KeyOncePerJob(c: Config, acts: seq<Act>, x: Id, y: Id)
    requires Admissible(c, Init(), acts, LISTED_RUN)
    requires var all := Run(c, Init(), acts).d.queue.attempts;
      && x in all && y in all && x != y && all[x].key.jobId == all[y].key.jobId && all[x].key.idemKey != ""
    ensures var all := Run(c, Init(), acts).d.queue.attempts; all[x].key.idemKey != all[y].key.idemKey
  {
    hide Step;
    hide LagOk;
    ListedRun(c, acts, LISTED_RUN);
    OwnedRun(c, acts);
    var q := Run(c, Init(), acts).d.queue;
    var j := q.attempts[x].key.jobId;
    assert Owned(q.attempts[x], x, q.jobs) && Owned(q.attempts[y], y, q.jobs);
    assert ListOk(j, q.jobs[j].attempts, q.attempts);
    var i :| 0 <= i < |q.jobs[j].attempts| && q.jobs[j].attempts[i] == x;
    var k :| 0 <= k < |q.jobs[j].attempts| && q.jobs[j].attempts[k] == y;
  }
}
