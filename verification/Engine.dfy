/** The monitor: what one look at one session does, the evidence it stores and
    the exactly-once finalisation. */
module Engine {
  import opened Prelude
  import opened Records

  /** What was recorded of a session's process, and what the process table has
      under that pid now. */
  datatype Fingerprint = Fingerprint(pid: int, start: string, boot: string)
  datatype Found = Found(proc: Fingerprint, zombie: bool)

  /** The recorded pid compared with the process table. */
  datatype Obs = NoProcess | Process(sameStart: bool, sameBoot: bool, zombie: bool)

  function Compare(recorded: Fingerprint, found: Option<Found>): Obs {
    if found.None? then NoProcess
    else Process(found.value.proc.start == recorded.start, found.value.proc.boot == recorded.boot, found.value.zombie)
  }

  /** The monitor counts a zombie as gone and never looks at the boot id. */
  predicate MonitorGone(o: Obs) { o.NoProcess? || (o.sameStart && o.zombie) }

  /** The service compares pid, start time and boot id only. */
  predicate Matches(o: Obs) { o.Process? && o.sameStart && o.sameBoot }

  /** An artifact comes with its path, if it has one, and the hash it claims. */
  type Artifacts = seq<(Option<string>, string)>

  datatype Collected = Collected(exit: Option<int>, artifacts: Artifacts, invalid: bool)

  /** Everything the handler of a finished process asks its surroundings.
      `digests` are the hashes of the readable artifact files; `writable` says
      whether the evidence file could be written. */
  datatype Probe = Probe(
    collected: Option<Collected>, scopeExit: Option<int>, fixtureExit: Option<int>,
    fixtureInvalid: bool, acceptance: bool, digests: map<string, string>, writable: bool)

  function Heard(ss: Session, p: Probe): Option<Collected> {
    if ss.key.adapterBound then p.collected else None
  }

  predicate FixtureTrusted(ss: Session, p: Probe) { ss.key.fixture && p.acceptance }

  /** Adapter, then the stored attempt, then the scope, then the fixture file. */
  function RecoverExit(ss: Session, stored: Option<int>, p: Probe): Option<int> {
    if Heard(ss, p).Some? && Heard(ss, p).value.exit.Some? then Heard(ss, p).value.exit
    else if stored.Some? then stored
    else if ss.key.scoped && p.scopeExit.Some? then p.scopeExit
    else if FixtureTrusted(ss, p) then p.fixtureExit
    else None
  }

  predicate MarkedInvalid(ss: Session, p: Probe) {
    || (Heard(ss, p).Some? && Heard(ss, p).value.invalid)
    || (FixtureTrusted(ss, p) && p.fixtureInvalid)
  }

  function ArtifactRefs(arts: Artifacts): seq<Ref> {
    if arts == [] then []
    else
      (if arts[0].0.Some? && arts[0].0.value != "" then [Artifact(arts[0].0.value + "#" + arts[0].1)] else [])
      + ArtifactRefs(arts[1..])
  }

  predicate AllNamed(arts: Artifacts) { forall i :: 0 <= i < |arts| ==> arts[i].0.Some? }

  function HashedArtifacts(arts: Artifacts, digests: map<string, string>): seq<(string, Digest)>
    requires AllNamed(arts)
  {
    if arts == [] then []
    else
      var path := arts[0].0.value;
      [(path, if path in digests then Sha(digests[path]) else Zeros)] + HashedArtifacts(arts[1..], digests)
  }

  function ArtifactsHeard(ss: Session, p: Probe): Artifacts {
    if Heard(ss, p).Some? then Heard(ss, p).value.artifacts else []
  }

  /** Hashing an artifact without a path raises an error nobody handles: the
      look ends before its first write, and the whole pass with it. */
  predicate GoneRaises(ss: Session, p: Probe) { !AllNamed(ArtifactsHeard(ss, p)) }

  function Tail(sid: Id): string {
    if |sid| <= 8 then sid else sid[|sid| - 8..]
  }

  function BundleKey(q: Queue, sid: Id, aid: Id): BundleId {
    if aid in q.attempts then BundleId(q.attempts[aid].key.jobId, aid, Tail(sid)) else BundleId("", sid, Tail(sid))
  }

  function StoredExit(q: Queue, aid: Id): Option<int> {
    if aid in q.attempts then q.attempts[aid].result.exit else None
  }

  function BuildBundle(q: Queue, sid: Id, ss: Session, p: Probe): Bundle
    requires !GoneRaises(ss, p)
  {
    Bundle(true, BundleKey(q, sid, ss.key.attemptId), sid, RecoverExit(ss, StoredExit(q, ss.key.attemptId), p),
           HashedArtifacts(ArtifactsHeard(ss, p), p.digests), MarkedInvalid(ss, p))
  }

  /** Fail-closed: a bundle is valid only with a schema, no invalid marker, a
      known exit code and a path and hash for every artifact. */
  predicate ValidBundle(b: Bundle) {
    && b.hasSchema && !b.marker && b.exitCode.Some?
    && forall i :: 0 <= i < |b.artifacts| ==> b.artifacts[i].0 != "" && b.artifacts[i].1 != Sha("")
  }

  /** Session, attempt and job end together and one event goes out, unless
      this session was finalised before. */
  function Finalize(d: Data, sid: Id, state: SState, o: Outcome, kind: EventKind, exit: Option<int>, now: int): Data
    requires sid in d.sessions && Ended(o.state)
  {
    if sid in d.emitted then d
    else
      var ss := d.sessions[sid];
      d.(sessions := d.sessions[sid := ss.(state := state, endedAt := Some(now))],
         queue := Settle(d.queue, ss.key.attemptId, o),
         emitted := d.emitted + {sid},
         log := d.log.(events := d.log.events + [Event(kind, sid, ss.key.attemptId, exit)]))
  }

  /** What a finished process means: session state, outcome and event. */
  datatype Verdict = Verdict(state: SState, outcome: Outcome, kind: EventKind)

  function Judge(b: Bundle, stored: bool, refs: seq<Ref>): (v: Verdict)
    ensures Ended(v.outcome.state)
  {
    if !stored || !ValidBundle(b) then
      Verdict(SState.Failed, Outcome(AState.Failed, EvidenceInvalid, Some(b.exitCode), refs, false), SessionFailed)
    else if b.exitCode != Some(0) then
      Verdict(SState.Failed, Outcome(AState.Failed, ExitedWith(b.exitCode), Some(b.exitCode), refs, false), SessionFailed)
    else
      Verdict(SState.Completed, Outcome(AState.Completed, ExitedNormally, Some(b.exitCode), refs, false), SessionCompleted)
  }

  function BundleRefs(b: Bundle, stored: bool, ss: Session, p: Probe): seq<Ref> {
    (if stored then [Evidence(b.id)] else []) + ArtifactRefs(ArtifactsHeard(ss, p))
  }

  /** The evidence bundle is stored first; the verdict reads it back. */
  function HandleGone(d: Data, sid: Id, p: Probe, now: int): Data
    requires sid in d.sessions
  {
    if GoneRaises(d.sessions[sid], p) then d
    else
      var b := BuildBundle(d.queue, sid, d.sessions[sid], p);
      var v := Judge(b, p.writable, BundleRefs(b, p.writable, d.sessions[sid], p));
      Finalize(if p.writable then d.(evidence := d.evidence[b.id := b]) else d,
               sid, v.state, v.outcome, v.kind, b.exitCode, now)
  }

  function HandleTimeout(d: Data, sid: Id, now: int): Data
    requires sid in d.sessions
  {
    Finalize(d, sid, SState.Failed, Outcome(AState.TimedOut, DeadlinePassed, Some(None), [], false),
             SessionTimedOut, None, now)
  }

  /** The outcome copied from an already ended session. */
  function SessionOutcome(s: SState): Outcome
    requires SessionEnded(s)
  {
    Outcome(match s
            case Cancelled => AState.Cancelled
            case Completed => AState.Completed
            case _ => AState.Failed,
            SessionIs(s), None, [], false)
  }

  predicate Overdue(k: SessionKey, now: int) {
    k.timeoutS != 0 && k.startedAt.Some? && now - k.startedAt.value > k.timeoutS
  }

  predicate Finished(q: Queue, aid: Id) { aid in q.attempts && q.attempts[aid].terminal }

  /** The look comes to a finished process whose artifacts cannot be hashed. */
  predicate LookRaises(d: Data, sid: Id, obs: Obs, p: Probe) {
    && sid in d.sessions && d.sessions[sid].key.managed && !Finished(d.queue, d.sessions[sid].key.attemptId)
    && !d.sessions[sid].state.Cancelled? && !d.sessions[sid].state.Failed? && !d.sessions[sid].state.Lost?
    && d.sessions[sid].key.hasProc && MonitorGone(obs) && GoneRaises(d.sessions[sid], p)
  }

  /** One iteration of the monitor loop. */
  function MonitorOne(d: Data, sid: Id, obs: Obs, p: Probe, now: int): Data {
    if sid !in d.sessions || !d.sessions[sid].key.managed || Finished(d.queue, d.sessions[sid].key.attemptId) then d
    else
      var ss := d.sessions[sid];
      if ss.state.Cancelled? || ss.state.Failed? || ss.state.Lost? then
        if ss.key.attemptId in d.queue.attempts
        then d.(queue := Settle(d.queue, ss.key.attemptId, SessionOutcome(ss.state)), emitted := d.emitted + {sid})
        else d
      else if !ss.key.hasProc then d
      else if MonitorGone(obs) then HandleGone(d, sid, p, now)
      else if Overdue(ss.key, now) then HandleTimeout(d, sid, now)
      else d.(sessions := d.sessions[sid := ss.(state := SState.Running)])
  }
}
