/** Every call that works on a session leaves the queue alone or closes that
    session's attempt, and keeps the identity of every session. All invariants
    go through this one fact. */
module Shapes {
  import opened Prelude
  import opened Records
  import opened Scheduling
  import opened Engine
  import opened Service
  import opened Lifecycle

  /** Known sessions keep their identity; new ones are external. */
  ghost predicate SameOwners(before: map<Id, Session>, after: map<Id, Session>) {
    && (forall sid :: sid in before ==> sid in after && after[sid].key == before[sid].key)
    && (forall sid :: sid in after && sid !in before ==> !after[sid].key.managed)
  }

  ghost predicate SameHistory(d: Data, d': Data) {
    d'.log.starts == d.log.starts && d'.log.prompts == d.log.prompts
  }

  /** The queue stays, or the attempt of managed session `sid` is closed. */
  ghost predicate Closing(d: Data, sid: Id, o: Option<Outcome>, d': Data) {
    && SameOwners(d.sessions, d'.sessions) && SameHistory(d, d')
    && (o.None? ==> d'.queue == d.queue)
    && (o.Some? ==> Ended(o.value.state) && sid in d.sessions && d.sessions[sid].key.managed
                    && d'.queue == Settle(d.queue, d.sessions[sid].key.attemptId, o.value))
  }

  predicate SessionAct(act: Act) {
    act.Monitor? || act.DoCancel? || act.Reconcile? || act.DoStatus? || act.External? || act.Tamper?
  }

  function ActSession(act: Act): Id
    requires SessionAct(act)
  {
    match act
    case Monitor(sid, _, _, _) => sid
    case DoCancel(sid, _, _, _) => sid
    case Reconcile(sid, _, _, _) => sid
    case DoStatus(sid, _, _) => sid
    case External(sid) => sid
    case _ => ""
  }

  lemma SessionUpdate(sessions: map<Id, Session>, sid: Id, ss: Session)
    requires sid in sessions && sessions[sid].key == ss.key
    ensures SameOwners(sessions, sessions[sid := ss])
  {
  }

  lemma NoUpdate(sessions: map<Id, Session>)
    ensures SameOwners(sessions, sessions)
  {
  }

  lemma FinalizeShape(d: Data, sid: Id, state: SState, o: Outcome, kind: EventKind, exit: Option<int>, now: int)
    returns (out: Option<Outcome>)
    requires sid in d.sessions && d.sessions[sid].key.managed && Ended(o.state)
    ensures Closing(d, sid, out, Finalize(d, sid, state, o, kind, exit, now))
  {
    hide Settle;
    hide SameOwners;
    NoUpdate(d.sessions);
    SessionUpdate(d.sessions, sid, d.sessions[sid].(state := state, endedAt := Some(now)));
    out := if sid in d.emitted then None else Some(o);
  }

  lemma GoneShape(d: Data, sid: Id, p: Probe, now: int) returns (out: Option<Outcome>)
    requires sid in d.sessions && d.sessions[sid].key.managed
    ensures Closing(d, sid, out, HandleGone(d, sid, p, now))
  {
    hide Finalize;
    hide SameOwners;
    hide Judge;
    hide BuildBundle;
    hide BundleRefs;
    hide GoneRaises;
    out := None;
    NoUpdate(d.sessions);
    if !GoneRaises(d.sessions[sid], p) {
      var b := BuildBundle(d.queue, sid, d.sessions[sid], p);
      var v := Judge(b, p.writable, BundleRefs(b, p.writable, d.sessions[sid], p));
      var d0 := if p.writable then d.(evidence := d.evidence[b.id := b]) else d;
      out := FinalizeShape(d0, sid, v.state, v.outcome, v.kind, b.exitCode, now);
    }
  }

  lemma MonitorShape(d: Data, sid: Id, obs: Obs, p: Probe, now: int) returns (out: Option<Outcome>)
    ensures Closing(d, sid, out, MonitorOne(d, sid, obs, p, now))
  {
    hide HandleGone;
    hide Finalize;
    hide Settle;
    hide SameOwners;
    NoUpdate(d.sessions);
    out := None;
    if sid in d.sessions && d.sessions[sid].key.managed && !Finished(d.queue, d.sessions[sid].key.attemptId) {
      var ss := d.sessions[sid];
      SessionUpdate(d.sessions, sid, ss.(state := SState.Running));
      if ss.state.Cancelled? || ss.state.Failed? || ss.state.Lost? {
        out := if ss.key.attemptId in d.queue.attempts then Some(SessionOutcome(ss.state)) else None;
      } else if ss.key.hasProc && MonitorGone(obs) {
        out := GoneShape(d, sid, p, now);
      } else if ss.key.hasProc && Overdue(ss.key, now) {
        out := FinalizeShape(d, sid, SState.Failed, Outcome(AState.TimedOut, DeadlinePassed, Some(None), [], false),
                             SessionTimedOut, None, now);
      }
    }
  }

  lemma CancelDoneShape(d: Data, sid: Id, now: int)
    requires sid in d.sessions && d.sessions[sid].key.managed
    ensures Closing(d, sid, Some(Follow(AState.Cancelled, SState.Cancelled)), CancelDone(d, sid, now))
  {
    hide Settle;
    hide SameOwners;
    SessionUpdate(d.sessions, sid, d.sessions[sid].(state := SState.Cancelled, endedAt := Some(now)));
  }

  lemma CancelShape(d: Data, sid: Id, gateway: bool, kill: bool, now: int) returns (out: Option<Outcome>)
    ensures Closing(d, sid, out, Cancel(d, sid, gateway, kill, now))
  {
    hide CancelDone;
    hide SameOwners;
    hide Settle;
    NoUpdate(d.sessions);
    out := None;
    if Cancel(d, sid, gateway, kill, now) != d {
      CancelDoneShape(d, sid, now);
      out := Some(Follow(AState.Cancelled, SState.Cancelled));
    }
  }

  lemma EndShape(d: Data, sid: Id, exit: Option<int>, now: int) returns (out: Option<Outcome>)
    requires sid in d.sessions && d.sessions[sid].key.managed
    ensures Closing(d, sid, out, EndByExit(d, sid, exit, now))
  {
    hide Settle;
    hide SameOwners;
    var end := if exit.Some? && exit.value != 0 then (AState.Failed, SState.Failed)
               else (AState.Completed, SState.Completed);
    SessionUpdate(d.sessions, sid, d.sessions[sid].(exitCode := exit, state := end.1, endedAt := Some(now)));
    out := Some(Follow(end.0, end.1));
  }

  lemma ReconcileShape(d: Data, sid: Id, obs: Obs, exit: Option<int>, now: int) returns (out: Option<Outcome>)
    ensures Closing(d, sid, out, ReconcileOne(d, sid, obs, exit, now))
  {
    hide CancelDone;
    hide EndByExit;
    hide SameOwners;
    hide Settle;
    NoUpdate(d.sessions);
    out := None;
    if Observable(d.sessions, sid) {
      var ss := d.sessions[sid];
      if !obs.NoProcess? {
        SessionUpdate(d.sessions, sid, ss.(state := SState.Running));
        SessionUpdate(d.sessions, sid, ss.(state := SState.Lost, endedAt := Some(now)));
      } else if ss.state.CancelRequested? {
        CancelDoneShape(d, sid, now);
        out := Some(Follow(AState.Cancelled, SState.Cancelled));
      } else if !SessionEnded(ss.state) {
        out := EndShape(d, sid, exit, now);
      }
    }
  }

  lemma StatusShape(d: Data, sid: Id, obs: Obs, now: int)
    ensures Closing(d, sid, None, Status(d, sid, obs, now))
  {
    hide SameOwners;
    NoUpdate(d.sessions);
    if sid in d.sessions {
      var ss := d.sessions[sid];
      SessionUpdate(d.sessions, sid, ss.(state := SState.Completed, endedAt := Some(now)));
      SessionUpdate(d.sessions, sid, ss.(state := SState.Lost, endedAt := Some(now)));
    }
  }

  lemma MarkShape(d: Data, sid: Id)
    ensures Closing(d, sid, None, MarkCancel(d, sid))
  {
    hide SameOwners;
    NoUpdate(d.sessions);
    if sid in d.sessions {
      SessionUpdate(d.sessions, sid, d.sessions[sid].(state := SState.CancelRequested));
    }
  }

  lemma SessionShape(c: Config, w: World, act: Act) returns (out: Option<Outcome>)
    requires SessionAct(act) && Fresh(c, w, act)
    ensures Closing(w.d, ActSession(act), out, Step(c, w, act).d)
    ensures out.Some? ==> act.Monitor? || act.DoCancel? || act.Reconcile?
    ensures Step(c, w, act) == w.(d := Step(c, w, act).d)
  {
    hide MonitorOne;
    hide Cancel;
    hide ReconcileOne;
    hide Settle;
    hide Advance;
    hide Submit;
    hide Retry;
    hide RecoverExpired;
    hide TakeClaim;
    hide CanStart;
    hide RetryReply;
    hide Status;
    hide MarkCancel;
    out := None;
    match act
    case Monitor(sid, obs, p, now) => out := MonitorShape(w.d, sid, obs, p, now);
    case DoCancel(sid, gateway, kill, now) => out := CancelShape(w.d, sid, gateway, kill, now);
    case Reconcile(sid, obs, exit, now) => out := ReconcileShape(w.d, sid, obs, exit, now);
    case DoStatus(sid, obs, now) => StatusShape(w.d, sid, obs, now);
    case External(sid) =>
    case Tamper(ref, file) =>
  }
}
