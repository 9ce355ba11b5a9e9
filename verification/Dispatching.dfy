/** One pass of the dispatcher over the waiting attempts, with no other call in
    between its turns; module Turns is about passes with other calls in between. */
module Dispatching {
  import opened Prelude
  import opened Ordering
  import opened Records
  import opened Scheduling
  import opened Engine
  import opened Service
  import opened Lifecycle

  // ---- one claimed attempt, from its first write to its last ----

  function Rank(pc: Pc): nat {
    match pc
    case Claimed(_) => 5
    case Prepared(_, _, _) => 4
    case Started(_, _, _, _) => 3
    case Registered(_, _, _, _) => 2
    case Bound(_, _, _, _) => 1
    case Failing(_, _, _) => 1
    case Holding(_) => 1
    case _ => 0
  }

  lemma AdvanceRanks(c: Config, d: Data, pc: Pc, o: Oracle)
    requires Rank(pc) > 0
    ensures Rank(Advance(c, d, pc, o).1) < Rank(pc)
  {
    hide LoadPayload;
    hide Release;
    hide NewSession;
  }

  /** Every write that is still outstanding. */
  function Finish(c: Config, d: Data, pc: Pc, o: Oracle): Data
    decreases Rank(pc)
  {
    if Rank(pc) == 0 then d
    else
      AdvanceRanks(c, d, pc, o);
      Finish(c, Advance(c, d, pc, o).0, Advance(c, d, pc, o).1, o)
  }

  /** The two errors nobody handles on the way: the repository was taken off
      the allowlist, or the gateway raised. They end the whole pass. */
  predicate Raises(c: Config, d: Data, aid: Id, o: Oracle) {
    && aid in d.queue.attempts && d.queue.attempts[aid].state.Claimed?
    && d.queue.attempts[aid].key.jobId in d.queue.jobs
    && var j := d.queue.jobs[d.queue.attempts[aid].key.jobId];
       && (!j.spec.local || o.ready)
       && (o.repo.RepoError?
           || (o.repo.Snapshot? && o.gateway.StartRaised?
               && LoadPayload(c, d.payloads, j.spec.payloadRef).Some?
               && LoadPayload(c, d.payloads, j.spec.payloadRef).value.hash == j.spec.contentHash))
  }

  /** One iteration: check, claim, start. */
  function PassOne(c: Config, d: Data, owner: string, aid: Id, o: Oracle): (Data, bool) {
    if aid !in d.queue.attempts || !CanStart(c, d.queue.attempts, d.queue.attempts[aid].key.harness)
       || !Claimable(d.queue.attempts, aid, o.now) then (d, false)
    else
      var d1 := SaveAttempts(d, TakeClaim(d.queue.attempts, aid, owner, o.now));
      (Finish(c, d1, Pc.Claimed(aid), o), Raises(c, d1, aid, o))
  }

  /** The final store and how many attempts had their turn. */
  function Pass(c: Config, d: Data, owner: string, ids: seq<Id>, ask: Id -> Oracle): (Data, nat)
    decreases |ids|
  {
    if ids == [] then (d, 0)
    else
      var (d1, raised) := PassOne(c, d, owner, ids[0], ask(ids[0]));
      if raised then (d1, 1)
      else var (d2, n) := Pass(c, d1, owner, ids[1..], ask); (d2, n + 1)
  }

  // ---- what one iteration leaves of the attempts ----

  /** Only the record of `aid` differs, under the same key. */
  predicate OnlyOne(all: map<Id, Attempt>, aid: Id, all': map<Id, Attempt>) {
    && all'.Keys == all.Keys
    && forall x :: x in all ==> all'[x].key == all[x].key && (x != aid ==> all'[x] == all[x])
  }

  lemma OnlyOneTwice(all: map<Id, Attempt>, aid: Id, all1: map<Id, Attempt>, all2: map<Id, Attempt>)
    requires OnlyOne(all, aid, all1) && OnlyOne(all1, aid, all2)
    ensures OnlyOne(all, aid, all2)
  {
  }

  lemma OneSave(all: map<Id, Attempt>, aid: Id, a: Attempt)
    requires aid in all && a.key == all[aid].key
    ensures OnlyOne(all, aid, all[aid := a]) && OnlyOne(all, aid, all)
  {
  }

  /** The admission gate refused the attempt and set its next try. */
  predicate HeldBy(o: Oracle, a: Attempt) {
    !o.ready && a.claim.held && a.claim.retryAfter == Some(o.now + o.backoff)
  }

  /** It did so just now, and the attempt is back in the queue. */
  predicate HeldNow(o: Oracle, a: Attempt) { a.state.Queued? && HeldBy(o, a) }

  /** Where the dispatcher stands, by the stored record of its attempt. */
  predicate Stands(pc: Pc, a: Attempt, o: Oracle) {
    match pc
    case Claimed(_) => a.state.Claimed?
    case Holding(_) => a.state.Claimed? && HeldBy(o, a)
    case Failing(_, _, _) => a.state.Failed?
    case Prepared(_, att, _) => a.state.Running? && att == a
    case Started(_, att, _, _) => a.state.Running? && att == a
    case Registered(_, att, _, _) => a.state.Running? && att == a
    case Bound(_, _, _, _) => a.state.Running?
    case _ => Busy(a) || a.state.Failed? || HeldNow(o, a)
  }

  ghost predicate Turn(all: map<Id, Attempt>, aid: Id, o: Oracle, r: (Data, Pc)) {
    && aid in all && OnlyOne(all, aid, r.0.queue.attempts)
    && (Rank(r.1) > 0 ==> r.1.aid == aid)
    && !r.1.Checked? && Stands(r.1, r.0.queue.attempts[aid], o)
  }

  lemma BeginTurn(d: Data, aid: Id, o: Oracle)
    requires aid in d.queue.attempts && d.queue.attempts[aid].state.Claimed?
    ensures Turn(d.queue.attempts, aid, o, Begin(d, aid, o))
  {
    hide OnlyOne;
    OneSave(d.queue.attempts, aid, Begin(d, aid, o).0.queue.attempts[aid]);
  }

  lemma FailTurn(d: Data, aid: Id, a: Attempt, j: Job, reason: Reason, o: Oracle)
    requires aid in d.queue.attempts && a == d.queue.attempts[aid]
    ensures Turn(d.queue.attempts, aid, o, Fail(d, aid, a, j, reason))
  {
    hide OnlyOne;
    OneSave(d.queue.attempts, aid, FailRecord(a, reason));
  }

  lemma LaunchTurn(c: Config, d: Data, pc: Pc, o: Oracle)
    requires pc.Prepared? && pc.aid in d.queue.attempts && Stands(pc, d.queue.attempts[pc.aid], o)
    ensures Turn(d.queue.attempts, pc.aid, o, Launch(c, d, pc.aid, pc.att, pc.job, o.gateway))
  {
    hide OnlyOne;
    hide LoadPayload;
    hide Fail;
    OneSave(d.queue.attempts, pc.aid, pc.att);
    FailTurn(d, pc.aid, pc.att, pc.job, PayloadFailed, o);
    FailTurn(d, pc.aid, pc.att, pc.job, PayloadMismatch, o);
  }

  lemma RecordTurn(c: Config, d: Data, pc: Pc, o: Oracle)
    requires pc.Started? && pc.aid in d.queue.attempts && Stands(pc, d.queue.attempts[pc.aid], o)
    ensures Turn(d.queue.attempts, pc.aid, o, Record(c, d, pc.aid, pc.att, pc.job, pc.gateway, o.now))
  {
    hide OnlyOne;
    hide Fail;
    OneSave(d.queue.attempts, pc.aid, pc.att);
    if pc.gateway.StartFailed? {
      FailTurn(d, pc.aid, pc.att, pc.job, Reason.Gateway(pc.gateway.message), o);
    }
  }

  lemma AdvanceTurn(c: Config, d: Data, pc: Pc, o: Oracle)
    requires Rank(pc) > 0 && pc.aid in d.queue.attempts && Stands(pc, d.queue.attempts[pc.aid], o)
    ensures Turn(d.queue.attempts, pc.aid, o, Advance(c, d, pc, o))
  {
    hide OnlyOne;
    hide Begin;
    hide Launch;
    hide Record;
    hide Turn;
    match pc
    case Claimed(_) => BeginTurn(d, pc.aid, o);
    case Prepared(_, _, _) => LaunchTurn(c, d, pc, o);
    case Started(_, _, _, _) => RecordTurn(c, d, pc, o);
    case _ => LastTurn(c, d, pc, o);
  }

  lemma LastTurn(c: Config, d: Data, pc: Pc, o: Oracle)
    requires pc.Holding? || pc.Failing? || pc.Registered? || pc.Bound?
    requires pc.aid in d.queue.attempts && Stands(pc, d.queue.attempts[pc.aid], o)
    ensures Turn(d.queue.attempts, pc.aid, o, Advance(c, d, pc, o))
  {
    hide OnlyOne;
    var a := d.queue.attempts[pc.aid];
    OneSave(d.queue.attempts, pc.aid, a);
    OneSave(d.queue.attempts, pc.aid, ReleaseRecord(a));
    if pc.Registered? { OneSave(d.queue.attempts, pc.aid, pc.att.(sessionId := pc.sid)); }
  }

  lemma {:induction false} FinishTurn(c: Config, d: Data, pc: Pc, aid: Id, o: Oracle)
    requires aid in d.queue.attempts && !pc.Checked? && Stands(pc, d.queue.attempts[aid], o)
    requires Rank(pc) > 0 ==> pc.aid == aid
    ensures var all' := Finish(c, d, pc, o).queue.attempts;
      && OnlyOne(d.queue.attempts, aid, all')
      && (Busy(all'[aid]) || all'[aid].state.Failed? || HeldNow(o, all'[aid]))
    decreases Rank(pc)
  {
    hide Advance;
    hide OnlyOne;
    if Rank(pc) == 0 {
      OneSave(d.queue.attempts, aid, d.queue.attempts[aid]);
    } else {
      AdvanceRanks(c, d, pc, o);
      AdvanceTurn(c, d, pc, o);
      var (d', pc') := Advance(c, d, pc, o);
      OneKeys(d.queue.attempts, aid, d'.queue.attempts);
      FinishTurn(c, d', pc', aid, o);
      OnlyOneTwice(d.queue.attempts, aid, d'.queue.attempts, Finish(c, d', pc', o).queue.attempts);
    }
  }

  lemma OneKeys(all: map<Id, Attempt>, aid: Id, all': map<Id, Attempt>)
    requires OnlyOne(all, aid, all')
    ensures all'.Keys == all.Keys
  {
  }

  /** One iteration changes no other record, frees no place, and leaves its own
      attempt waiting only if it was refused or held. */
  lemma OneTurn(c: Config, d: Data, owner: string, aid: Id, o: Oracle)
    ensures var all := d.queue.attempts;
      var all' := PassOne(c, d, owner, aid, o).0.queue.attempts;
      && OnlyOne(all, aid, all')
      && (aid in all ==>
            all'[aid] == all[aid]
            || (all[aid].state.Queued? && CanStart(c, all, all[aid].key.harness) && !OnHold(all[aid], o.now)
                && (Busy(all'[aid]) || all'[aid].state.Failed? || HeldNow(o, all'[aid]))))
      && (aid in all && all[aid].state.Queued? && all'[aid].state.Queued? ==>
            !CanStart(c, all, all[aid].key.harness) || OnHold(all[aid], o.now) || HeldNow(o, all'[aid]))
  {
    hide OnlyOne;
    hide Finish;
    hide Raises;
    hide CanStart;
    hide OnHold;
    var all := d.queue.attempts;
    if aid in all {
      OneSave(all, aid, all[aid]);
      var a := ClaimRecord(all[aid], owner, o.now);
      OneSave(all, aid, a);
      if CanStart(c, all, all[aid].key.harness) && Claimable(all, aid, o.now) {
        var d1 := SaveAttempts(d, TakeClaim(all, aid, owner, o.now));
        FinishTurn(c, d1, Pc.Claimed(aid), aid, o);
        OnlyOneTwice(all, aid, d1.queue.attempts, Finish(c, d1, Pc.Claimed(aid), o).queue.attempts);
      }
    } else {
      OneSelf(all, aid);
    }
  }

  lemma OneSelf(all: map<Id, Attempt>, aid: Id)
    ensures OnlyOne(all, aid, all)
  {
  }

  // ---- the whole pass ----

  /** No place was given back. */
  predicate Fuller(all: map<Id, Attempt>, all': map<Id, Attempt>) {
    && all'.Keys == all.Keys
    && forall x :: x in all ==> all'[x].key == all[x].key && (Busy(all[x]) ==> Busy(all'[x]))
  }

  lemma FullerRefuses(c: Config, all: map<Id, Attempt>, all': map<Id, Attempt>, h: string)
    requires Fuller(all, all') && CanStart(c, all', h)
    ensures CanStart(c, all, h)
  {
    assert Active(all) <= Active(all');
    assert ActiveOf(all, h) <= ActiveOf(all', h);
    SubsetSize(Active(all), Active(all'));
    SubsetSize(ActiveOf(all, h), ActiveOf(all', h));
  }

  lemma TurnFills(c: Config, d: Data, owner: string, aid: Id, o: Oracle)
    ensures Fuller(d.queue.attempts, PassOne(c, d, owner, aid, o).0.queue.attempts)
  {
    hide PassOne;
    hide CanStart;
    hide OnHold;
    OneTurn(c, d, owner, aid, o);
  }

  lemma FullerTwice(all: map<Id, Attempt>, all1: map<Id, Attempt>, all2: map<Id, Attempt>)
    requires Fuller(all, all1) && Fuller(all1, all2)
    ensures Fuller(all, all2)
  {
  }

  lemma {:induction false} PassFills(c: Config, d: Data, owner: string, ids: seq<Id>, ask: Id -> Oracle)
    ensures var (d', n) := Pass(c, d, owner, ids, ask);
      Fuller(d.queue.attempts, d'.queue.attempts) && n <= |ids|
    decreases |ids|
  {
    hide PassOne;
    hide Fuller;
    if ids == [] {
      FullerSelf(d.queue.attempts);
    } else {
      var (d1, raised) := PassOne(c, d, owner, ids[0], ask(ids[0]));
      TurnFills(c, d, owner, ids[0], ask(ids[0]));
      PassFills(c, d1, owner, ids[1..], ask);
      FullerTwice(d.queue.attempts, d1.queue.attempts, Pass(c, d1, owner, ids[1..], ask).0.queue.attempts);
    }
  }

  lemma FullerSelf(all: map<Id, Attempt>)
    ensures Fuller(all, all)
  {
  }

  /** A pass touches the records it was given only. */
  lemma {:induction false} PassElsewhere(c: Config, d: Data, owner: string, ids: seq<Id>, ask: Id -> Oracle, x: Id)
    requires x in d.queue.attempts && x !in ids
    ensures var all' := Pass(c, d, owner, ids, ask).0.queue.attempts; x in all' && all'[x] == d.queue.attempts[x]
    decreases |ids|
  {
    hide PassOne;
    hide CanStart;
    hide OnHold;
    if ids != [] {
      var (d1, raised) := PassOne(c, d, owner, ids[0], ask(ids[0]));
      OneTurn(c, d, owner, ids[0], ask(ids[0]));
      PassElsewhere(c, d1, owner, ids[1..], ask, x);
    }
  }

  /** The rest of a pass, seen from its beginning. */
  lemma PassTail(c: Config, d: Data, owner: string, ids: seq<Id>, ask: Id -> Oracle)
    requires Pass(c, d, owner, ids, ask).1 > 1
    ensures |ids| > 0
    ensures var d1 := PassOne(c, d, owner, ids[0], ask(ids[0])).0;
      Pass(c, d, owner, ids, ask) == (Pass(c, d1, owner, ids[1..], ask).0, Pass(c, d1, owner, ids[1..], ask).1 + 1)
  {
    hide PassOne;
  }

  /** The attempts after the first are still as they were. */
  lemma FirstOnly(c: Config, d: Data, owner: string, ids: seq<Id>, ask: Id -> Oracle)
    requires ids != [] && Distinct(ids) && (forall x :: x in ids ==> x in d.queue.attempts)
    ensures var all1 := PassOne(c, d, owner, ids[0], ask(ids[0])).0.queue.attempts;
      && Distinct(ids[1..]) && ids[0] !in ids[1..]
      && (forall x :: x in ids[1..] ==> x in all1 && all1[x] == d.queue.attempts[x])
  {
    hide PassOne;
    hide CanStart;
    hide OnHold;
    OneTurn(c, d, owner, ids[0], ask(ids[0]));
  }

  /** Work-conserving, if nothing comes in between: an attempt that had its turn and still waits is on hold,
      held by the admission gate, or refused by the final state too. */
  lemma {:induction false} WorkConserving(
      c: Config, d: Data, owner: string, ids: seq<Id>, ask: Id -> Oracle, i: nat)
    requires Distinct(ids) && (forall x :: x in ids ==> x in d.queue.attempts)
    requires i < Pass(c, d, owner, ids, ask).1 && i < |ids| && d.queue.attempts[ids[i]].state.Queued?
    ensures var all' := Pass(c, d, owner, ids, ask).0.queue.attempts;
      && ids[i] in all'
      && (all'[ids[i]].state.Queued? ==>
            || OnHold(d.queue.attempts[ids[i]], ask(ids[i]).now)
            || HeldNow(ask(ids[i]), all'[ids[i]])
            || !CanStart(c, all', all'[ids[i]].key.harness))
    decreases |ids|
  {
    hide PassOne;
    hide CanStart;
    hide OnHold;
    var all := d.queue.attempts;
    var (d1, raised) := PassOne(c, d, owner, ids[0], ask(ids[0]));
    var all' := Pass(c, d, owner, ids, ask).0.queue.attempts;
    FirstOnly(c, d, owner, ids, ask);
    OneTurn(c, d, owner, ids[0], ask(ids[0]));
    PassFills(c, d, owner, ids, ask);
    if i == 0 {
      if !raised { PassElsewhere(c, d1, owner, ids[1..], ask, ids[0]); }
      if CanStart(c, all', all[ids[0]].key.harness) { FullerRefuses(c, all, all', all[ids[0]].key.harness); }
    } else {
      PassTail(c, d, owner, ids, ask);
      WorkConserving(c, d1, owner, ids[1..], ask, i - 1);
    }
  }

  /** An attempt that was taken found room, and found it from the start on. */
  lemma {:induction false} TakenFoundRoom(
      c: Config, d: Data, owner: string, ids: seq<Id>, ask: Id -> Oracle, k: nat)
    requires Distinct(ids) && (forall x :: x in ids ==> x in d.queue.attempts) && k < |ids|
    requires var all' := Pass(c, d, owner, ids, ask).0.queue.attempts;
      ids[k] in all' && all'[ids[k]] != d.queue.attempts[ids[k]]
    ensures k < Pass(c, d, owner, ids, ask).1
    ensures CanStart(c, d.queue.attempts, d.queue.attempts[ids[k]].key.harness)
    decreases |ids|
  {
    hide PassOne;
    hide CanStart;
    hide OnHold;
    hide Fuller;
    var (d1, raised) := PassOne(c, d, owner, ids[0], ask(ids[0]));
    FirstOnly(c, d, owner, ids, ask);
    OneTurn(c, d, owner, ids[0], ask(ids[0]));
    if k == 0 {
      if !raised { PassElsewhere(c, d1, owner, ids[1..], ask, ids[0]); }
    } else {
      assert ids[k] == ids[1..][k - 1];
      TakenFoundRoom(c, d1, owner, ids[1..], ask, k - 1);
      TurnFills(c, d, owner, ids[0], ask(ids[0]));
      FullerRefuses(c, d.queue.attempts, d1.queue.attempts, d.queue.attempts[ids[k]].key.harness);
    }
  }

  /** No overtaking, if nothing comes in between: when a later attempt of the
      same harness was taken, an earlier one is not waiting for capacity. */
  lemma {:induction false} NoOvertaking(
      c: Config, d: Data, owner: string, ids: seq<Id>, ask: Id -> Oracle, i: nat, k: nat)
    requires Distinct(ids) && (forall x :: x in ids ==> x in d.queue.attempts && d.queue.attempts[x].state.Queued?)
    requires i < k < |ids| && d.queue.attempts[ids[i]].key.harness == d.queue.attempts[ids[k]].key.harness
    requires var all' := Pass(c, d, owner, ids, ask).0.queue.attempts;
      ids[k] in all' && all'[ids[k]] != d.queue.attempts[ids[k]]
    ensures var all' := Pass(c, d, owner, ids, ask).0.queue.attempts;
      && ids[i] in all'
      && (all'[ids[i]].state.Queued? ==>
            OnHold(d.queue.attempts[ids[i]], ask(ids[i]).now) || HeldNow(ask(ids[i]), all'[ids[i]]))
    decreases |ids|
  {
    hide PassOne;
    hide CanStart;
    hide OnHold;
    var (d1, raised) := PassOne(c, d, owner, ids[0], ask(ids[0]));
    FirstOnly(c, d, owner, ids, ask);
    OneTurn(c, d, owner, ids[0], ask(ids[0]));
    TakenFoundRoom(c, d, owner, ids, ask, k);
    PassTail(c, d, owner, ids, ask);
    assert ids[k] == ids[1..][k - 1];
    if i == 0 {
      PassElsewhere(c, d1, owner, ids[1..], ask, ids[0]);
    } else {
      assert ids[i] == ids[1..][i - 1];
      NoOvertaking(c, d1, owner, ids[1..], ask, i - 1, k - 1);
    }
  }

  /** The store before the turn of attempt `k`, if every earlier one is taken
      to its end. */
  function Before(c: Config, d: Data, owner: string, ids: seq<Id>, ask: Id -> Oracle, k: nat): Data
    requires k <= |ids|
    decreases k
  {
    if k == 0 then d else Before(c, PassOne(c, d, owner, ids[0], ask(ids[0])).0, owner, ids[1..], ask, k - 1)
  }

  predicate RaisesAt(c: Config, d: Data, owner: string, ids: seq<Id>, ask: Id -> Oracle, k: nat)
    requires k < |ids|
  {
    PassOne(c, Before(c, d, owner, ids, ask, k), owner, ids[k], ask(ids[k])).1
  }

  /** A pass ends early exactly at the first attempt whose start raises: an
      attempt has its turn if and only if none before it raised, and what the
      pass leaves is what those turns made of the store. */
  lemma {:induction false} PassStopsExactly(c: Config, d: Data, owner: string, ids: seq<Id>, ask: Id -> Oracle, k: nat)
    requires k < |ids|
    ensures var (d', n) := Pass(c, d, owner, ids, ask);
      && (k < n <==> forall i :: 0 <= i < k ==> !RaisesAt(c, d, owner, ids, ask, i))
      && n <= |ids| && d' == Before(c, d, owner, ids, ask, n)
    decreases |ids|
  {
    hide PassOne;
    var (d1, raised) := PassOne(c, d, owner, ids[0], ask(ids[0]));
    assert RaisesAt(c, d, owner, ids, ask, 0) == raised;
    forall i | 0 <= i < |ids| - 1
      ensures RaisesAt(c, d, owner, ids, ask, i + 1) == RaisesAt(c, d1, owner, ids[1..], ask, i)
    {
    }
    if raised {
      assert Before(c, d, owner, ids, ask, 1) == Before(c, d1, owner, ids[1..], ask, 0);
    } else if |ids| == 1 {
      assert Pass(c, d1, owner, ids[1..], ask) == (d1, 0);
      assert Before(c, d, owner, ids, ask, 1) == Before(c, d1, owner, ids[1..], ask, 0);
    } else {
      PassStopsExactly(c, d1, owner, ids[1..], ask, if k == 0 then 0 else k - 1);
      if k > 0 {
        LaterRaises(c, d, owner, ids, ask, k);
      }
    }
  }

  lemma LaterRaises(c: Config, d: Data, owner: string, ids: seq<Id>, ask: Id -> Oracle, k: nat)
    requires 0 < k < |ids| && !PassOne(c, d, owner, ids[0], ask(ids[0])).1
    ensures var d1 := PassOne(c, d, owner, ids[0], ask(ids[0])).0;
      (forall i :: 0 <= i < k ==> !RaisesAt(c, d, owner, ids, ask, i))
      <==> (forall i :: 0 <= i < k - 1 ==> !RaisesAt(c, d1, owner, ids[1..], ask, i))
  {
    hide PassOne;
    var d1 := PassOne(c, d, owner, ids[0], ask(ids[0])).0;
    assert !RaisesAt(c, d, owner, ids, ask, 0);
    forall i | 0 <= i < |ids| - 1
      ensures RaisesAt(c, d, owner, ids, ask, i + 1) == RaisesAt(c, d1, owner, ids[1..], ask, i)
    {
    }
    if forall i :: 0 <= i < k - 1 ==> !RaisesAt(c, d1, owner, ids[1..], ask, i) {
      forall i | 0 <= i < k
        ensures !RaisesAt(c, d, owner, ids, ask, i)
      {
        if i > 0 { assert RaisesAt(c, d, owner, ids, ask, (i - 1) + 1) == RaisesAt(c, d1, owner, ids[1..], ask, i - 1); }
      }
    }
  }

  // ---- first in, first out ----

  function Waiting(all: map<Id, Attempt>, listing: seq<Id>): seq<Id> {
    if listing == [] then []
    else (if listing[0] in all && all[listing[0]].state.Queued? then [listing[0]] else []) + Waiting(all, listing[1..])
  }

  function CreatedAt(all: map<Id, Attempt>, x: Id): int {
    if x in all then all[x].key.createdAt else 0
  }

  function Earlier(all: map<Id, Attempt>): (Id, Id) -> bool {
    (x, y) => CreatedAt(all, x) < CreatedAt(all, y)
  }

  /** The waiting attempts by creation time; `listing` is the store's order. */
  function InOrder(all: map<Id, Attempt>, listing: seq<Id>): seq<Id> {
    Sort(Waiting(all, listing), Earlier(all))
  }

  lemma {:induction false} WaitingAre(all: map<Id, Attempt>, listing: seq<Id>)
    requires Distinct(listing)
    ensures Distinct(Waiting(all, listing))
    ensures forall x :: x in Waiting(all, listing) <==> x in listing && x in all && all[x].state.Queued?
  {
    if listing != [] {
      WaitingAre(all, listing[1..]);
      assert forall x :: x in listing <==> x == listing[0] || x in listing[1..];
      assert listing[0] !in listing[1..];
    }
  }

  lemma InOrderAre(all: map<Id, Attempt>, listing: seq<Id>)
    requires Distinct(listing)
    ensures var ids := InOrder(all, listing);
      && Distinct(ids) && Ascending(ids, Earlier(all))
      && forall x :: x in ids <==> x in listing && x in all && all[x].state.Queued?
  {
    var lt := Earlier(all);
    WaitingAre(all, listing);
    SortDistinct(Waiting(all, listing), lt);
    SortAscends(Waiting(all, listing), lt);
    forall x
      ensures x in InOrder(all, listing) <==> x in Waiting(all, listing)
    {
      SortMembers(Waiting(all, listing), lt, x);
    }
  }

  /** First in, first out per harness, if nothing comes in between: when a waiting attempt was taken, no
      attempt of its harness created before it is left waiting for capacity. */
  lemma FirstInFirstOut(c: Config, d: Data, owner: string, listing: seq<Id>, ask: Id -> Oracle, x: Id, y: Id)
    requires Distinct(listing) && x in listing && y in listing && x in d.queue.attempts && y in d.queue.attempts
    requires d.queue.attempts[x].state.Queued? && d.queue.attempts[y].state.Queued?
    requires d.queue.attempts[x].key.harness == d.queue.attempts[y].key.harness
    requires d.queue.attempts[x].key.createdAt < d.queue.attempts[y].key.createdAt
    requires var all' := Pass(c, d, owner, InOrder(d.queue.attempts, listing), ask).0.queue.attempts;
      y in all' && all'[y] != d.queue.attempts[y]
    ensures var all' := Pass(c, d, owner, InOrder(d.queue.attempts, listing), ask).0.queue.attempts;
      x in all' && (all'[x].state.Queued? ==> OnHold(d.queue.attempts[x], ask(x).now) || HeldNow(ask(x), all'[x]))
  {
    hide Pass;
    hide OnHold;
    hide InOrder;
    InOrderAre(d.queue.attempts, listing);
    var ids := InOrder(d.queue.attempts, listing);
    var i :| 0 <= i < |ids| && ids[i] == x;
    var k :| 0 <= k < |ids| && ids[k] == y;
    NoOvertaking(c, d, owner, ids, ask, i, k);
  }

  // ---- a pass is a run ----

  function Rest(o: Oracle): seq<Act> {
    [Dispatch(o), Dispatch(o), Dispatch(o), Dispatch(o), Dispatch(o)]
  }

  function TurnActs(owner: string, aid: Id, o: Oracle): seq<Act> {
    [Check(aid), ClaimChecked(owner, o.now)] + Rest(o)
  }

  function PassActs(c: Config, d: Data, owner: string, ids: seq<Id>, ask: Id -> Oracle): seq<Act>
    decreases |ids|
  {
    if ids == [] then []
    else
      var (d1, raised) := PassOne(c, d, owner, ids[0], ask(ids[0]));
      TurnActs(owner, ids[0], ask(ids[0])) + if raised then [] else PassActs(c, d1, owner, ids[1..], ask)
  }

  function Repeat(o: Oracle, n: nat): seq<Act> {
    if n == 0 then [] else [Dispatch(o)] + Repeat(o, n - 1)
  }

  lemma {:induction false} FinishIsRun(c: Config, w: World, o: Oracle, n: nat)
    requires Rank(w.pc) <= n && !w.pc.Checked?
    ensures Run(c, w, Repeat(o, n)) == World(Finish(c, w.d, w.pc, o), Idle, w.torn)
    decreases n
  {
    hide Advance;
    if Rank(w.pc) > 0 { AdvanceRanks(c, w.d, w.pc, o); NotChecked(c, w.d, w.pc, o); } else { IdleStays(c, w, o); }
    if n > 0 {
      var w1 := Step(c, w, Dispatch(o));
      assert Repeat(o, n)[0] == Dispatch(o) && Repeat(o, n)[1..] == Repeat(o, n - 1);
      FinishIsRun(c, w1, o, n - 1);
    }
  }

  lemma NotChecked(c: Config, d: Data, pc: Pc, o: Oracle)
    requires !pc.Checked?
    ensures !Advance(c, d, pc, o).1.Checked?
  {
    hide LoadPayload;
    hide Release;
    hide NewSession;
  }

  lemma IdleStays(c: Config, w: World, o: Oracle)
    requires Rank(w.pc) == 0 && !w.pc.Checked?
    ensures Step(c, w, Dispatch(o)) == w && w == World(w.d, Idle, w.torn)
  {
  }

  lemma TurnIsRun(c: Config, w: World, owner: string, aid: Id, o: Oracle)
    requires w.pc.Idle?
    ensures Run(c, w, TurnActs(owner, aid, o)) == World(PassOne(c, w.d, owner, aid, o).0, Idle, w.torn)
  {
    hide Finish;
    hide Advance;
    hide CanStart;
    hide TakeClaim;
    var acts := TurnActs(owner, aid, o);
    var w1 := Step(c, w, Check(aid));
    var w2 := Step(c, w1, ClaimChecked(owner, o.now));
    assert acts[1..][1..] == Rest(o);
    assert Run(c, w, acts) == Run(c, w1, acts[1..]) == Run(c, w2, Rest(o));
    RestIs(o);
    FinishIsRun(c, w2, o, 5);
    FinishDone(c, w.d, o);
  }

  lemma RestIs(o: Oracle)
    ensures Rest(o) == Repeat(o, 5)
  {
    assert Repeat(o, 1) == [Dispatch(o)];
    assert Repeat(o, 3) == [Dispatch(o), Dispatch(o), Dispatch(o)];
  }

  lemma FinishDone(c: Config, d: Data, o: Oracle)
    ensures Finish(c, d, Idle, o) == d
  {
  }

  /** A pass is a run of the dispatcher's steps: whatever holds of every run
      holds after any number of passes. */
  lemma {:induction false} PassIsRun(c: Config, w: World, owner: string, ids: seq<Id>, ask: Id -> Oracle)
    requires w.pc.Idle?
    ensures Run(c, w, PassActs(c, w.d, owner, ids, ask)) == World(Pass(c, w.d, owner, ids, ask).0, Idle, w.torn)
    decreases |ids|
  {
    hide PassOne;
    hide TurnActs;
    hide Step;
    if ids != [] {
      var (d1, raised) := PassOne(c, w.d, owner, ids[0], ask(ids[0]));
      var turn := TurnActs(owner, ids[0], ask(ids[0]));
      TurnIsRun(c, w, owner, ids[0], ask(ids[0]));
      if raised {
        assert turn + [] == turn;
      } else {
        RunConcat(c, w, turn, PassActs(c, d1, owner, ids[1..], ask), ANY_RUN);
        PassIsRun(c, World(d1, Idle, w.torn), owner, ids[1..], ask);
      }
    }
  }
}
