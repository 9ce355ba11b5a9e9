/** The records kept by the control plane, its stores, and the one way every
    terminal path closes an attempt. */
module Records {
  import opened Prelude

  type Id = string

  datatype AState = Created | Queued | Claimed | Running | Completed | Failed | Cancelled | TimedOut
  datatype JState = Accepted | Queued | Running | Completed | Failed | Cancelled | TimedOut
  datatype SState = Created | Starting | Running | CancelRequested | Cancelled | Completed | Failed | Lost

  /** A result reference: a stored evidence bundle or a named artifact. */
  datatype Ref = Evidence(id: BundleId) | Artifact(text: string)
  datatype BundleId = BundleId(jobId: Id, attemptId: Id, tail: string)

  /** Why an attempt or a job ended; free text of the gateway is kept as it is. */
  datatype Reason =
    | NoReason
    | WorktreeFailed
    | PayloadFailed
    | PayloadMismatch
    | Gateway(message: string)
    | SessionIs(state: SState)
    | EvidenceInvalid
    | ExitedWith(code: Option<int>)
    | ExitedNormally
    | DeadlinePassed

  datatype Result = Result(exit: Option<int>, reason: Reason, refs: seq<Ref>)

  /** What is fixed when an attempt is created. */
  datatype AttemptKey = AttemptKey(jobId: Id, harness: string, idemKey: string, createdAt: int)
  datatype Claim = Claim(owner: string, leasedAt: Option<int>, retryAfter: Option<int>, held: bool)
  datatype Attempt = Attempt(
    key: AttemptKey, state: AState, terminal: bool, sessionId: Id, claim: Claim, result: Result)

  /** What is fixed when a job is submitted. */
  datatype JobSpec = JobSpec(
    taskId: string, harness: string, local: bool, timeoutS: int, payloadRef: Id, contentHash: string)
  datatype Job = Job(spec: JobSpec, attempts: seq<Id>, state: JState, result: Result)

  /** `hasProc`: a fingerprint with a positive pid was recorded. `adapterBound`:
      the adapter gave a session id. `scoped`: the scope id names a systemd scope.
      `fixture`: the harness is the acceptance fixture. */
  datatype SessionKey = SessionKey(
    attemptId: Id, managed: bool, hasProc: bool, adapterBound: bool, scoped: bool,
    fixture: bool, startedAt: Option<int>, timeoutS: int)
  datatype Session = Session(key: SessionKey, state: SState, exitCode: Option<int>, endedAt: Option<int>)

  /** What a payload file holds when it is read back. */
  datatype PayloadFile = Corrupt | Envelope(instructions: string, hash: string)

  /** The hash of a readable file, or the zero hash of an unreadable one. */
  datatype Digest = Zeros | Sha(text: string)

  datatype Bundle = Bundle(
    hasSchema: bool, id: BundleId, sessionId: Id, exitCode: Option<int>,
    artifacts: seq<(string, Digest)>, marker: bool)

  datatype EventKind = SessionCompleted | SessionFailed | SessionTimedOut | SessionCancelled
  datatype Event = Event(kind: EventKind, sid: Id, attemptId: Id, exit: Option<int>)

  /** One call of the gateway's start operation. */
  datatype Start = Start(attemptId: Id, jobId: Id, prompt: string)

  /** The scheduler's queue file. */
  datatype Queue = Queue(attempts: map<Id, Attempt>, jobs: map<Id, Job>)

  /** History: start calls, terminal session events, submitted prompts. */
  datatype Log = Log(starts: seq<Start>, events: seq<Event>, prompts: map<Id, string>)

  /** All stores; `emitted` is the engine's volatile set of finalised sessions. */
  datatype Data = Data(
    queue: Queue, sessions: map<Id, Session>, payloads: map<Id, PayloadFile>,
    evidence: map<BundleId, Bundle>, emitted: set<Id>, log: Log)

  datatype Config = Config(
    globalLimit: int, overrides: map<string, int>, adapters: set<string>, leaseS: int,
    fixtureHarness: string, sha: string -> string)

  predicate Ended(s: AState) { s.Completed? || s.Failed? || s.Cancelled? || s.TimedOut? }

  predicate JobEnded(s: JState) { s.Completed? || s.Failed? || s.Cancelled? || s.TimedOut? }

  predicate SessionEnded(s: SState) { s.Cancelled? || s.Completed? || s.Failed? || s.Lost? }

  /** The job state that belongs to an ended attempt. */
  function Mirror(s: AState): JState
    requires Ended(s)
  {
    match s
    case Completed => JState.Completed
    case Failed => JState.Failed
    case Cancelled => JState.Cancelled
    case TimedOut => JState.TimedOut
  }

  /** How an attempt is closed. `exit` is absent on the paths that leave the
      recorded exit code alone; `guarded` is the path that never rewrites a
      completed job. */
  datatype Outcome = Outcome(state: AState, reason: Reason, exit: Option<Option<int>>, refs: seq<Ref>, guarded: bool)

  function Amend(r: Result, o: Outcome): Result {
    Result(if o.exit.Some? then o.exit.value else r.exit, o.reason, if |o.refs| > 0 then o.refs else r.refs)
  }

  function Close(a: Attempt, o: Outcome): Attempt {
    a.(state := o.state, terminal := true, result := Amend(a.result, o))
  }

  function CloseJob(j: Job, o: Outcome): Job
    requires Ended(o.state)
  {
    j.(state := Mirror(o.state), result := Amend(j.result, o))
  }

  /** Closes a still open attempt together with its job; a closed or unknown
      attempt is left alone. */
  function Settle(q: Queue, aid: Id, o: Outcome): Queue
    requires Ended(o.state)
  {
    if aid !in q.attempts || q.attempts[aid].terminal then q
    else
      var jobId := q.attempts[aid].key.jobId;
      Queue(q.attempts[aid := Close(q.attempts[aid], o)],
            if jobId in q.jobs && !(o.guarded && q.jobs[jobId].state.Completed?)
            then q.jobs[jobId := CloseJob(q.jobs[jobId], o)] else q.jobs)
  }
}
