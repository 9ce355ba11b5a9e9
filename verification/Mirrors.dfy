/** When a job ends as its last attempt does. */
module Mirrors {
  import opened Prelude
  import opened Records
  import opened Scheduling
  import opened Engine
  import opened Service
  import opened Lifecycle
  import opened Shapes
  import opened Foundation
  import opened Stranded
  import opened Openings
  import opened Books

  predicate InBooks(w: World) { JobsInStep(w) && AllOwned(w.d.queue) }

  /** Opening any attempt of an agreeing job again breaks the agreement. */
  lemma OpenedOut(j: Id, job: Job, all: map<Id, Attempt>, x: Id, a: Attempt, exempt: bool)
    requires JobOk(j, job, all, false) && x in job.attempts && all[x].terminal && !a.terminal
    ensures !JobOk(j, job, all[x := a], exempt)
  {
    hide KeysOnce;
    var i :| 0 <= i < |job.attempts| && job.attempts[i] == x;
  }

  /** A revived attempt belongs to a job that has ended, or goes before the
      last of its list. */
  lemma RevivalBreaks(c: Config, w: World, o: Oracle)
    requires Sound(c, w) && Balanced(w) && Ordered(w) && Revives(w, Dispatch(o))
    ensures !InBooks(Step(c, w, Dispatch(o)))
  {
    hide Sound;
    hide OpenOk;
    hide WriteOk;
    hide JobsInStep;
    hide AllOwned;
    hide JobOk;
    hide PcExact;
    var w' := Step(c, w, Dispatch(o));
    var aid, j := w.pc.aid, w.pc.att.key.jobId;
    RunningOpen(c, w);
    NotTorn(w, j);
    OwnerOf(w, aid);
    JobHolds(w, j);
    OpenedOut(j, w.d.queue.jobs[j], w.d.queue.attempts, aid, w.pc.att.(sessionId := w.pc.sid), Exempt(w', j));
    if InBooks(w') { JobHolds(w', j); }
  }

  lemma NotTorn(w: World, j: Id)
    requires Ordered(w) && Holds(w.pc, j)
    ensures j !in w.torn
  {
    hide OpenOk;
    hide WriteOk;
  }

  /** A stale job write opens a job over closed attempts, or loses one. */
  lemma OverwriteBreaks(c: Config, w: World, o: Oracle)
    requires Sound(c, w) && Balanced(w) && Ordered(w) && Overwrites(w, Dispatch(o))
    ensures !InBooks(Step(c, w, Dispatch(o)))
  {
    hide Sound;
    hide OpenOk;
    hide KeysOnce;
    hide JobsInStep;
    hide AllOwned;
    hide InStep;
    var w' := Step(c, w, Dispatch(o));
    var j := w.pc.jobId;
    NotTorn(w, j);
    assert MovedOn(w.pc.aid, j, w.pc.job, w.d.queue);
    BoundRunning(w);
    JobHolds(w, j);
    if InBooks(w') {
      JobHolds(w', j);
      if w.pc.job.attempts == w.d.queue.jobs[j].attempts {
        EndedLast(j, w.d.queue.jobs[j], w.d.queue.attempts, Exempt(w, j));
        OpenLast(j, w'.d.queue.jobs[j], w'.d.queue.attempts);
      } else {
        var x := w.d.queue.jobs[j].attempts[|w.pc.job.attempts|];
        OwnerOf(w', x);
      }
    }
  }

  lemma BoundRunning(w: World)
    requires Balanced(w) && Ordered(w) && w.pc.Bound?
    ensures !JobEnded(w.pc.job.state) && |w.pc.job.attempts| >= 0
  {
    hide JobsInStep;
    hide AllOwned;
    hide OpenOk;
    hide PcExact;
    hide Stuck;
  }

  lemma JobHolds(w: World, j: Id)
    requires JobsInStep(w) && j in w.d.queue.jobs
    ensures JobOk(j, w.d.queue.jobs[j], w.d.queue.attempts, Exempt(w, j))
  {
  }

  lemma OwnerOf(w: World, x: Id)
    requires AllOwned(w.d.queue) && x in w.d.queue.attempts
    ensures Owned(w.d.queue.attempts[x], x, w.d.queue.jobs)
  {
  }

  lemma EndedLast(j: Id, job: Job, all: map<Id, Attempt>, exempt: bool)
    requires JobOk(j, job, all, exempt) && JobEnded(job.state)
    ensures all[job.attempts[|job.attempts| - 1]].terminal
  {
  }

  lemma OpenLast(j: Id, job: Job, all: map<Id, Attempt>)
    requires JobOk(j, job, all, false) && !JobEnded(job.state)
    ensures !all[job.attempts[|job.attempts| - 1]].terminal
  {
  }

  /** In a state where they do, jobs and attempts still agree after a step
      with fresh ids if and only if the step is no stale write. */
  lemma BooksExactly(c: Config, w: World, act: Act)
    requires Sound(c, w) && Balanced(w) && Ordered(w) && Fresh(c, w, act)
    ensures InBooks(Step(c, w, act)) <==> !Stale(w, act)
  {
    hide Step;
    hide Sound;
    hide Ordered;
    hide Fresh;
    hide Revives;
    hide Overwrites;
    hide InBooks;
    if !Stale(w, act) {
      StepBalanced(c, w, act);
      BooksOf(Step(c, w, act));
    } else {
      StaleDispatch(w, act);
      if Revives(w, act) { RevivalBreaks(c, w, act.o); } else { OverwriteBreaks(c, w, act.o); }
    }
  }

  lemma BooksOf(w: World)
    requires Balanced(w)
    ensures InBooks(w)
  {
    hide JobsInStep;
    hide AllOwned;
    hide PcExact;
  }

  lemma StaleDispatch(w: World, act: Act)
    requires Stale(w, act)
    ensures act.Dispatch?
  {
  }

  /** Along a run with fresh ids jobs and attempts agree at every moment if and
      only if no step is a stale write. */
  lemma {:induction false} BooksKept(c: Config, acts: seq<Act>)
    requires Admissible(c, Init(), acts, FRESH_RUN)
    ensures (forall i :: 0 <= i <= |acts| ==> InBooks(After(c, acts, i))) <==> Admissible(c, Init(), acts, CURRENT_RUN)
    decreases |acts|
  {
    hide Run;
    hide Step;
    hide Sound;
    hide Balanced;
    hide Ordered;
    hide InBooks;
    hide Fresh;
    hide Stale;
    StepByStep(c, acts, CURRENT_RUN);
    StepByStep(c, acts, FRESH_RUN);
    if acts == [] {
      BalancedRun(c, acts, CURRENT_RUN);
      BooksOf(After(c, acts, 0));
    } else {
      var n := |acts| - 1;
      var before := acts[..n];
      assert forall i :: 0 <= i <= n ==> before[..i] == acts[..i];
      assert forall i :: 0 <= i <= n ==> After(c, before, i) == After(c, acts, i);
      Stretch(c, acts, n, n, FRESH_RUN);
      BooksKept(c, before);
      StepByStep(c, before, CURRENT_RUN);
      OneStep(c, acts, n);
      assert acts[..n + 1] == acts;
      if Admissible(c, Init(), before, CURRENT_RUN) {
        BalancedRun(c, before, CURRENT_RUN);
        OrderedRun(c, before, CURRENT_RUN);
        BooksExactly(c, After(c, acts, n), acts[n]);
      }
      if forall i :: 0 <= i <= |acts| ==> InBooks(After(c, acts, i)) {
        assert InBooks(After(c, acts, n + 1));
      }
    }
  }

  lemma ExemptIsOut(w: World, j: Id)
    requires Balanced(w) && Ordered(w) && Exempt(w, j)
    ensures j in w.d.queue.jobs && !JobEnded(w.d.queue.jobs[j].state) && AllClosed(w.d.queue.attempts, j)
  {
    hide JobsInStep;
    hide AllOwned;
    hide PcExact;
    hide OpenOk;
  }

  /** After every run without a stale write: the attempts of a job are its own
      and distinct, and all but the last are closed; a job that has ended did
      so as its last attempt did; and job and last attempt agree on whether
      they are over if and only if no write of the job is outstanding or lost. */
  lemma JobMirrorsLast(c: Config, acts: seq<Act>, j: Id)
    requires Admissible(c, Init(), acts, CURRENT_RUN) && j in Run(c, Init(), acts).d.queue.jobs
    ensures var w := Run(c, Init(), acts);
      var job := w.d.queue.jobs[j];
      var all := w.d.queue.attempts;
      && |job.attempts| > 0
      && (forall i :: 0 <= i < |job.attempts| ==> job.attempts[i] in all && all[job.attempts[i]].key.jobId == j)
      && (forall i, k :: 0 <= i < k < |job.attempts| ==> job.attempts[i] != job.attempts[k])
      && (forall i :: 0 <= i < |job.attempts| - 1 ==> all[job.attempts[i]].terminal)
      && var last := all[job.attempts[|job.attempts| - 1]];
         var over := job.state in {JState.Completed, JState.Failed, JState.Cancelled, JState.TimedOut};
         && (job.state == JState.Completed ==> last.state == AState.Completed)
         && (job.state == JState.Failed ==> last.state == AState.Failed)
         && (job.state == JState.Cancelled ==> last.state == AState.Cancelled)
         && (job.state == JState.TimedOut ==> last.state == AState.TimedOut)
         && ((over <==> last.terminal) <==> !Exempt(w, j))
  {
    hide Step;
    hide Sound;
    hide Ordered;
    BalancedRun(c, acts, CURRENT_RUN);
    OrderedRun(c, acts, CURRENT_RUN);
    var w := Run(c, Init(), acts);
    hide Run;
    JobAt(w, j);
    if Exempt(w, j) { ExemptIsOut(w, j); }
  }

  lemma JobAt(w: World, j: Id)
    requires Balanced(w) && j in w.d.queue.jobs
    ensures JobOk(j, w.d.queue.jobs[j], w.d.queue.attempts, Exempt(w, j))
  {
    hide AllOwned;
    hide PcExact;
    hide JobOk;
  }
}
