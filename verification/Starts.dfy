/** Starts, prompts and per-harness capacity over every run with fresh ids. */
module Starts {
  import opened Prelude
  import opened Records
  import opened Scheduling
  import opened Engine
  import opened Service
  import opened Lifecycle
  import opened Shapes
  import opened GlobalCapacity
  import opened Foundation

  /** Crashes, restarts and lease recovery included, the gateway is asked to
      start an attempt at most once. */
  lemma StartedAtMostOnce(c: Config, acts: seq<Act>)
    requires Admissible(c, Init(), acts, FRESH_RUN)
    ensures var starts := Run(c, Init(), acts).d.log.starts;
      forall i, k :: 0 <= i < k < |starts| ==> starts[i].attemptId != starts[k].attemptId
  {
    hide Step;
    SoundRun(c, acts, FRESH_RUN);
  }

  // ---- prompts ----

  predicate SamePrompts(p: map<Id, string>, p': map<Id, string>) {
    forall j :: j in p ==> j in p' && p'[j] == p[j]
  }

  lemma AdvanceKeepsPrompts(c: Config, d: Data, pc: Pc, o: Oracle)
    ensures Advance(c, d, pc, o).0.log.prompts == d.log.prompts
  {
    hide LoadPayload;
    hide Release;
    hide NewSession;
  }

  lemma OneMorePrompt(p: map<Id, string>, j: Id, prompt: string)
    requires j !in p
    ensures SamePrompts(p, p[j := prompt])
  {
  }

  lemma FreshJobNoPrompt(c: Config, w: World, act: Act)
    requires Sound(c, w) && Fresh(c, w, act) && act.DoSubmit?
    ensures act.jobId !in w.d.log.prompts
  {
    hide StartsOk;
    hide OwnersOk;
    hide ShapeOk;
    hide PcOk;
  }

  lemma StepKeepsPrompts(c: Config, w: World, act: Act)
    requires Sound(c, w) && Fresh(c, w, act)
    ensures SamePrompts(w.d.log.prompts, Step(c, w, act).d.log.prompts)
  {
    hide Sound;
    hide Fresh;
    hide SamePrompts;
    hide Advance;
    hide RetryReply;
    hide SubmitReply;
    hide RecoverExpired;
    hide TakeClaim;
    hide MonitorOne;
    hide Cancel;
    hide ReconcileOne;
    hide Status;
    hide MarkCancel;
    var prompts := w.d.log.prompts;
    assert SamePrompts(prompts, prompts) by { NoNewPrompt(prompts); }
    match act
    case Dispatch(o) => AdvanceKeepsPrompts(c, w.d, w.pc, o);
    case CancelCrash(sid) => MarkShape(w.d, sid);
    case Recover(_) =>
    case Check(_) =>
    case ClaimChecked(_, _) =>
    case DoSubmit(r, jobId, _, _, _) =>
      FreshJobNoPrompt(c, w, act);
      OneMorePrompt(prompts, jobId, r.prompt);
    case DoRetry(_, _, _, _) =>
    case Crash =>
    case _ => var _ := SessionShape(c, w, act);
  }

  lemma NoNewPrompt(p: map<Id, string>)
    ensures SamePrompts(p, p)
  {
  }

  lemma {:induction false} PromptsKept(c: Config, w: World, acts: seq<Act>, k: Discipline)
    requires Sound(c, w) && k.newIds && Admissible(c, w, acts, k)
    ensures SamePrompts(w.d.log.prompts, Run(c, w, acts).d.log.prompts)
    decreases |acts|
  {
    hide Step;
    hide Fresh;
    hide Sound;
    if acts != [] {
      StepKeepsPrompts(c, w, acts[0]);
      StepSound(c, w, acts[0]);
      PromptsKept(c, Step(c, w, acts[0]), acts[1..], k);
    }
  }

  ghost predicate Injective(f: string -> string) {
    forall x, y :: f(x) == f(y) ==> x == y
  }

  /** Whatever happens to the payload files, each prompt handed to the gateway
      for a job, by any attempt of it, is the prompt with which it was
      submitted. */
  lemma PromptIntact(c: Config, before: seq<Act>, submit: Act, after: seq<Act>, i: nat)
    requires Injective(c.sha) && submit.DoSubmit?
    requires Admissible(c, Init(), before + [submit] + after, FRESH_RUN)
    requires var w := Run(c, Init(), before); SubmitReply(c, w.d.queue, submit.r, submit.jobId, submit.repoOk).Enqueued?
    requires var starts := Run(c, Init(), before + [submit] + after).d.log.starts;
      i < |starts| && starts[i].jobId == submit.jobId
    ensures Run(c, Init(), before + [submit] + after).d.log.starts[i].prompt == submit.r.prompt
  {
    var w := Run(c, Init(), before);
    var w1 := Step(c, w, submit);
    assert w1.d.log.prompts[submit.jobId] == submit.r.prompt;
    hide Step;
    hide Fresh;
    hide SubmitReply;
    assert before + [submit] + after == before + ([submit] + after);
    RunConcat(c, Init(), before, [submit] + after, FRESH_RUN);
    assert ([submit] + after)[0] == submit && ([submit] + after)[1..] == after;
    assert Run(c, w, [submit] + after) == Run(c, w1, after);
    SoundRun(c, before, FRESH_RUN);
    StepSound(c, w, submit);
    PromptsKept(c, w1, after, FRESH_RUN);
    SoundRun(c, before + [submit] + after, FRESH_RUN);
    var w2 := Run(c, w1, after);
    assert GoodStart(c, w2.d.log.starts[i], w2.d.queue.attempts, w2.d.log.prompts);
  }

  // ---- per-harness capacity ----

  function OccupiedOf(w: World, h: string): set<Id> {
    set x | x in Occupied(w) && x in w.d.queue.attempts && w.d.queue.attempts[x].key.harness == h
  }

  predicate ReservedFor(w: World, h: string) {
    w.pc.Checked? && w.pc.aid in w.d.queue.attempts && w.d.queue.attempts[w.pc.aid].key.harness == h
  }

  predicate WithinHarness(c: Config, w: World, h: string) {
    |OccupiedOf(w, h)| + (if ReservedFor(w, h) then 1 else 0) <= Max(0, HarnessLimit(c, h))
  }

  /** Harnesses never change, so no place moves from one harness to another. */
  lemma OthersFreeHarness(c: Config, w: World, act: Act, h: string)
    requires Sound(c, w) && WithinHarness(c, w, h) && Fresh(c, w, act)
    requires !act.Check? && !act.ClaimChecked?
    ensures WithinHarness(c, Step(c, w, act), h)
  {
    hide Step;
    hide Fresh;
    hide StartsOk;
    hide JobsOk;
    hide OwnersOk;
    hide HarnessLimit;
    var w' := Step(c, w, act);
    StepSound(c, w, act);
    OthersFree(c, w, act);
    PcKnown(c, w);
    PcKnown(c, w');
    assert OccupiedOf(w', h) <= OccupiedOf(w, h);
    SubsetSize(OccupiedOf(w', h), OccupiedOf(w, h));
    assert w'.pc.Checked? ==> w.pc.Checked? && w'.pc.aid == w.pc.aid by {
      if w'.pc.Checked? { CheckedStays(c, w, act); }
    }
  }

  lemma PcKnown(c: Config, w: World)
    requires Sound(c, w)
    ensures Occupied(w) <= w.d.queue.attempts.Keys && (w.pc.Checked? ==> w.pc.aid in w.d.queue.attempts)
  {
    hide StartsOk;
    hide JobsOk;
    hide OwnersOk;
    hide ShapeOk;
  }

  lemma CheckedStays(c: Config, w: World, act: Act)
    requires !act.Check? && Step(c, w, act).pc.Checked?
    ensures w.pc == Step(c, w, act).pc
  {
    hide LoadPayload;
    hide Release;
    hide NewSession;
    hide MonitorOne;
    hide Cancel;
    hide ReconcileOne;
    hide Status;
    hide MarkCancel;
    hide Submit;
    hide Retry;
    hide TakeClaim;
    hide RecoverExpired;
  }

  lemma CheckHarness(c: Config, w: World, aid: Id, h: string)
    requires WithinHarness(c, w, h)
    ensures WithinHarness(c, Step(c, w, Check(aid)), h)
  {
    hide Busy;
    var w' := Step(c, w, Check(aid));
    assert OccupiedOf(w', h) == OccupiedOf(w, h);
    if w' != w {
      assert OccupiedOf(w, h) == ActiveOf(w.d.queue.attempts, h);
    }
  }

  lemma ClaimOccupies(w: World, aid: Id, a: Attempt, h: string)
    requires w.pc == Checked(aid) && aid in w.d.queue.attempts && a.key == w.d.queue.attempts[aid].key
    ensures var w' := w.(d := SaveAttempts(w.d, w.d.queue.attempts[aid := a]), pc := Pc.Claimed(aid));
      OccupiedOf(w', h) <= OccupiedOf(w, h) + (if a.key.harness == h then {aid} else {})
  {
  }

  lemma ClaimHarness(c: Config, w: World, owner: string, now: int, h: string)
    requires WithinHarness(c, w, h)
    ensures WithinHarness(c, Step(c, w, ClaimChecked(owner, now)), h)
  {
    hide OnHold;
    hide HarnessLimit;
    var w' := Step(c, w, ClaimChecked(owner, now));
    if w.pc.Checked? {
      var all, aid := w.d.queue.attempts, w.pc.aid;
      if Claimable(all, aid, now) {
        ClaimOccupies(w, aid, ClaimRecord(all[aid], owner, now), h);
        hide OccupiedOf;
        SubsetSize(OccupiedOf(w', h), OccupiedOf(w, h) + (if all[aid].key.harness == h then {aid} else {}));
      } else {
        assert OccupiedOf(w', h) == OccupiedOf(w, h);
      }
    }
  }

  lemma {:induction false} HarnessLimitFrom(c: Config, w: World, acts: seq<Act>, h: string)
    requires Sound(c, w) && WithinHarness(c, w, h) && Admissible(c, w, acts, FRESH_RUN)
    ensures WithinHarness(c, Run(c, w, acts), h)
    decreases |acts|
  {
    hide Step;
    hide Fresh;
    hide Sound;
    hide WithinHarness;
    if acts != [] {
      var act := acts[0];
      StepSound(c, w, act);
      if act.Check? { CheckHarness(c, w, act.aid, h); }
      else if act.ClaimChecked? { ClaimHarness(c, w, act.owner, act.now, h); }
      else { OthersFreeHarness(c, w, act, h); }
      HarnessLimitFrom(c, Step(c, w, act), acts[1..], h);
    }
  }

  /** In every state reachable with fresh ids, each harness stays within its
      own limit. */
  lemma HarnessLimitHolds(c: Config, acts: seq<Act>, h: string)
    requires Admissible(c, Init(), acts, FRESH_RUN)
    ensures var all := Run(c, Init(), acts).d.queue.attempts;
      var limit := if h in c.overrides then c.overrides[h]
                   else if h in {"hermes_scoped", "codex_cli", "hermes"} then 2 else 1;
      |set x | x in all && (all[x].state.Running? || all[x].state.Claimed?) && all[x].key.harness == h|
      <= (if limit > 0 then limit else 0)
  {
    hide Step;
    LimitIs(c, h);
    hide HarnessLimit;
    assert OccupiedOf(Init(), h) == {};
    HarnessLimitFrom(c, Init(), acts, h);
    var w := Run(c, Init(), acts);
    var all := w.d.queue.attempts;
    assert ActiveOf(all, h)
        == set x | x in all && (all[x].state.Running? || all[x].state.Claimed?) && all[x].key.harness == h;
    SubsetSize(ActiveOf(w.d.queue.attempts, h), OccupiedOf(w, h));
  }
}
