/** A whole reconciliation pass, and what a second one can still change. */
module Reconciliation {
  import opened Prelude
  import opened Records
  import opened Engine
  import opened Service

  /** What the pass sees of each session's process, and the exit codes it
      recovers from scopes and fixture files. */
  type Sight = Id -> Obs
  type Exits = Id -> Option<int>

  function ReconcileAll(d: Data, sids: seq<Id>, see: Sight, exits: Exits, now: int): Data
    decreases |sids|
  {
    if sids == [] then d
    else ReconcileAll(ReconcileOne(d, sids[0], see(sids[0]), exits(sids[0]), now), sids[1..], see, exits, now)
  }

  /** The recorded process itself: a process under its pid, with the same start
      time and boot id. */
  predicate Same(obs: Obs) { obs.Process? && obs.sameStart && obs.sameBoot }

  /** The label agrees with what is seen. */
  predicate Agrees(sessions: map<Id, Session>, sid: Id, obs: Obs) {
    Observable(sessions, sid) ==>
      var state := sessions[sid].state;
      if obs.NoProcess? then SessionEnded(state)
      else if Same(obs) then state.Running? || state.CancelRequested?
      else state.Lost?
  }

  /** Everything about each session but the time it ended. */
  predicate SameButTime(d: Data, d': Data) {
    && d'.queue == d.queue && d'.log == d.log && d'.emitted == d.emitted && d'.evidence == d.evidence
    && d'.payloads == d.payloads && d'.sessions.Keys == d.sessions.Keys
    && forall sid :: sid in d.sessions ==> d'.sessions[sid] == d.sessions[sid].(endedAt := d'.sessions[sid].endedAt)
  }

  /** What becomes of one session's record. */
  function Relabelled(ss: Session, obs: Obs, exit: Option<int>, now: int): Session {
    if Matches(obs) then if ss.state.CancelRequested? then ss else ss.(state := SState.Running)
    else if !obs.NoProcess? then ss.(state := SState.Lost, endedAt := Some(now))
    else if ss.state.CancelRequested? then ss.(state := SState.Cancelled, endedAt := Some(now))
    else if SessionEnded(ss.state) then ss
    else ss.(exitCode := exit, endedAt := Some(now),
             state := if exit.Some? && exit.value != 0 then SState.Failed else SState.Completed)
  }

  lemma RelabelledIs(d: Data, sid: Id, obs: Obs, exit: Option<int>, now: int)
    ensures ReconcileOne(d, sid, obs, exit, now).sessions
         == if Observable(d.sessions, sid) then d.sessions[sid := Relabelled(d.sessions[sid], obs, exit, now)] else d.sessions
  {
    hide Settle;
    if Observable(d.sessions, sid) { assert d.sessions[sid := d.sessions[sid]] == d.sessions; }
  }

  /** One look at `sid` concerns no other session and none that is external,
      makes its own label agree, keeps a requested cancel of a live process and
      starts nothing that is not live. */
  predicate Looked(before: map<Id, Session>, sid: Id, obs: Obs, after: map<Id, Session>) {
    && after.Keys == before.Keys
    && (forall s :: s in before && (s != sid || !before[s].key.managed) ==> after[s] == before[s])
    && (sid in before ==>
          && after[sid].key == before[sid].key
          && (Same(obs) && before[sid].state.CancelRequested? ==> after[sid].state.CancelRequested?)
          && (!Same(obs) && !before[sid].state.Running? ==> !after[sid].state.Running?))
    && Agrees(after, sid, obs)
  }

  lemma OneLook(d: Data, sid: Id, obs: Obs, exit: Option<int>, now: int)
    ensures Looked(d.sessions, sid, obs, ReconcileOne(d, sid, obs, exit, now).sessions)
  {
    hide ReconcileOne;
    RelabelledIs(d, sid, obs, exit, now);
  }

  lemma OneAgain(d: Data, sid: Id, obs: Obs, exit: Option<int>, now: int)
    requires Agrees(d.sessions, sid, obs)
    ensures SameButTime(d, ReconcileOne(d, sid, obs, exit, now))
  {
    hide CancelDone;
    hide EndByExit;
    if Observable(d.sessions, sid) && Matches(obs) && d.sessions[sid].state.Running? {
      assert d.sessions[sid := d.sessions[sid]] == d.sessions;
    }
  }

  lemma {:induction false} AllLook(d: Data, sids: seq<Id>, see: Sight, exits: Exits, now: int, sid: Id)
    ensures var after := ReconcileAll(d, sids, see, exits, now).sessions;
      && after.Keys == d.sessions.Keys
      && (sid in d.sessions ==>
            && after[sid].key == d.sessions[sid].key
            && (!d.sessions[sid].key.managed ==> after[sid] == d.sessions[sid])
            && (Same(see(sid)) && d.sessions[sid].state.CancelRequested? ==> after[sid].state.CancelRequested?)
            && (!Same(see(sid)) && !d.sessions[sid].state.Running? ==> !after[sid].state.Running?))
      && (sid in sids || Agrees(d.sessions, sid, see(sid)) ==> Agrees(after, sid, see(sid)))
    decreases |sids|
  {
    hide ReconcileOne;
    if sids != [] {
      var d1 := ReconcileOne(d, sids[0], see(sids[0]), exits(sids[0]), now);
      OneLook(d, sids[0], see(sids[0]), exits(sids[0]), now);
      AllLook(d1, sids[1..], see, exits, now, sid);
    }
  }

  /** A pass never takes a session from CANCEL_REQUESTED to RUNNING and never
      touches an external session. */
  lemma CancelSurvivesPass(d: Data, sids: seq<Id>, see: Sight, exits: Exits, now: int, sid: Id)
    requires sid in d.sessions
    ensures var after := ReconcileAll(d, sids, see, exits, now).sessions;
      && sid in after
      && (d.sessions[sid].state.CancelRequested? ==> !after[sid].state.Running?)
      && (!d.sessions[sid].key.managed ==> after[sid] == d.sessions[sid])
  {
    AllLook(d, sids, see, exits, now, sid);
  }

  lemma SameTwice(d: Data, d1: Data, d2: Data)
    requires SameButTime(d, d1) && SameButTime(d1, d2)
    ensures SameButTime(d, d2)
  {
  }

  lemma {:induction false} AllAgain(d: Data, sids: seq<Id>, see: Sight, exits: Exits, now: int)
    requires forall sid :: sid in sids ==> Agrees(d.sessions, sid, see(sid))
    ensures SameButTime(d, ReconcileAll(d, sids, see, exits, now))
    decreases |sids|
  {
    hide ReconcileOne;
    hide SameButTime;
    hide Agrees;
    if sids == [] {
      SelfTime(d);
    } else {
      var d1 := ReconcileOne(d, sids[0], see(sids[0]), exits(sids[0]), now);
      OneAgain(d, sids[0], see(sids[0]), exits(sids[0]), now);
      forall sid | sid in sids[1..]
        ensures Agrees(d1.sessions, sid, see(sid))
      {
        AgreesStill(d, d1, sid, see(sid));
      }
      AllAgain(d1, sids[1..], see, exits, now);
      SameTwice(d, d1, ReconcileAll(d, sids, see, exits, now));
    }
  }

  lemma SelfTime(d: Data)
    ensures SameButTime(d, d)
  {
  }

  lemma AgreesStill(d: Data, d': Data, sid: Id, obs: Obs)
    requires SameButTime(d, d') && Agrees(d.sessions, sid, obs)
    ensures Agrees(d'.sessions, sid, obs)
  {
  }

  /** With the observed processes held fixed, a second pass changes no session,
      attempt or job but for the end time of mismatched sessions, and emits
      nothing. */
  lemma SecondPassIsIdle(d: Data, sids: seq<Id>, see: Sight, exits: Exits, now: int, exits': Exits, now': int)
    ensures var d1 := ReconcileAll(d, sids, see, exits, now);
      SameButTime(d1, ReconcileAll(d1, sids, see, exits', now'))
  {
    hide ReconcileOne;
    hide SameButTime;
    hide Agrees;
    var d1 := ReconcileAll(d, sids, see, exits, now);
    forall sid | sid in sids
      ensures Agrees(d1.sessions, sid, see(sid))
    {
      AllLook(d, sids, see, exits, now, sid);
    }
    AllAgain(d1, sids, see, exits', now');
  }
}
