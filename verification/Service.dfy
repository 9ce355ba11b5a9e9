/** Operator calls and the dispatcher's start of one claimed attempt. */
module Service {
  import opened Prelude
  import opened Records
  import opened Scheduling
  import opened Engine

  // ---- payload store ----

  /** Missing, corrupt and hash-mismatched files all fail; a file without a
      stored hash gets the hash of what it holds. */
  function LoadPayload(c: Config, payloads: map<Id, PayloadFile>, ref: Id): (r: Option<PayloadFile>)
    ensures r.Some? ==> r.value.Envelope? && c.sha(r.value.instructions) == r.value.hash
  {
    if ref !in payloads || payloads[ref].Corrupt? then None
    else
      var f := payloads[ref];
      var hash := if f.hash == "" then c.sha(f.instructions) else f.hash;
      if c.sha(f.instructions) == hash then Some(Envelope(f.instructions, hash)) else None
  }

  // ---- identifiers ----

  predicate IdentChar(ch: char) {
    'A' <= ch <= 'Z' || 'a' <= ch <= 'z' || '0' <= ch <= '9' || ch == '.' || ch == '_' || ch == '-'
  }

  predicate Plain(s: string) { s != "" && forall i :: 0 <= i < |s| ==> IdentChar(s[i]) }

  /** The anchored pattern also matches before one final newline. */
  predicate SafeIdent(s: string) {
    && (if s != "" && s[|s| - 1] == '\n' then Plain(s[..|s| - 1]) else Plain(s))
    && s != "." && s != ".."
  }

  // ---- submit ----

  datatype Request = Request(
    taskId: string, attemptId: Id, harness: string, local: bool, prompt: string, timeoutS: int)

  datatype Code =
    | UnknownHarness | DuplicateAttempt | RepoNotAllowed | InvalidIdentifier
    | UnknownJob | NotTerminal | PayloadError | PayloadHashMismatch

  datatype Reply =
    | Refused(code: Code)
    | Enqueued(jobId: Id, attemptId: Id)
    | Duplicate(attemptId: Id)

  function NewAttempt(jobId: Id, harness: string, idemKey: string, now: int): Attempt {
    Attempt(AttemptKey(jobId, harness, idemKey, now), AState.Queued, false, "",
            Claim("", None, None, false), Result(None, NoReason, []))
  }

  function NewJob(c: Config, r: Request, payloadId: Id): Job {
    Job(JobSpec(r.taskId, r.harness, r.local, r.timeoutS, payloadId, c.sha(r.prompt)),
        [r.attemptId], JState.Accepted, Result(None, NoReason, []))
  }

  function SubmitReply(c: Config, q: Queue, r: Request, jobId: Id, repoOk: bool): Reply {
    if r.harness !in c.adapters then Refused(UnknownHarness)
    else if r.attemptId in q.attempts then Refused(DuplicateAttempt)
    else if !repoOk then Refused(RepoNotAllowed)
    else if !SafeIdent(r.taskId) || !SafeIdent(r.attemptId) then Refused(InvalidIdentifier)
    else Enqueued(jobId, r.attemptId)
  }

  /** A submission is accepted if and only if its harness is known, its attempt
      id is new, its repository is allowed and both identifiers are safe; else
      the first of these that fails is the reason. */
  lemma AcceptedExactly(c: Config, q: Queue, r: Request, jobId: Id, repoOk: bool)
    ensures var reply := SubmitReply(c, q, r, jobId, repoOk);
      && (reply == Enqueued(jobId, r.attemptId) <==>
            r.harness in c.adapters && r.attemptId !in q.attempts && repoOk && SafeIdent(r.taskId) && SafeIdent(r.attemptId))
      && (reply == Refused(UnknownHarness) <==> r.harness !in c.adapters)
      && (reply == Refused(Code.DuplicateAttempt) <==> r.harness in c.adapters && r.attemptId in q.attempts)
      && (reply == Refused(RepoNotAllowed) <==> r.harness in c.adapters && r.attemptId !in q.attempts && !repoOk)
  {
    hide SafeIdent;
  }

  function Submit(c: Config, d: Data, r: Request, jobId: Id, payloadId: Id, repoOk: bool, now: int): Data {
    if SubmitReply(c, d.queue, r, jobId, repoOk).Refused? then d
    else d.(
      payloads := d.payloads[payloadId := Envelope(r.prompt, c.sha(r.prompt))],
      queue := Queue(d.queue.attempts[r.attemptId := NewAttempt(jobId, r.harness, "", now)],
                     d.queue.jobs[jobId := NewJob(c, r, payloadId)]),
      log := d.log.(prompts := d.log.prompts[jobId := r.prompt]))
  }

  /** What an accepted submission writes: the prompt with its hash, one job that
      carries that hash, and its one attempt, waiting. */
  lemma SubmitWrites(c: Config, d: Data, r: Request, jobId: Id, payloadId: Id, repoOk: bool, now: int)
    requires SubmitReply(c, d.queue, r, jobId, repoOk).Enqueued?
    ensures var d' := Submit(c, d, r, jobId, payloadId, repoOk, now);
      && d'.payloads == d.payloads[payloadId := Envelope(r.prompt, c.sha(r.prompt))]
      && d'.sessions == d.sessions && d'.evidence == d.evidence && d'.emitted == d.emitted
      && jobId in d'.queue.jobs && r.attemptId in d'.queue.attempts
      && (forall j :: j in d.queue.jobs && j != jobId ==> j in d'.queue.jobs && d'.queue.jobs[j] == d.queue.jobs[j])
      && (forall x :: x in d.queue.attempts ==> x in d'.queue.attempts && d'.queue.attempts[x] == d.queue.attempts[x])
      && var j, a := d'.queue.jobs[jobId], d'.queue.attempts[r.attemptId];
         && j.state == JState.Accepted && j.attempts == [r.attemptId] && j.result == Result(None, NoReason, [])
         && j.spec.taskId == r.taskId && j.spec.harness == r.harness && j.spec.local == r.local
         && j.spec.timeoutS == r.timeoutS && j.spec.payloadRef == payloadId && j.spec.contentHash == c.sha(r.prompt)
         && a.state == AState.Queued && !a.terminal && a.sessionId == "" && a.claim == Claim("", None, None, false)
         && a.key == AttemptKey(jobId, r.harness, "", now) && a.result == Result(None, NoReason, [])
  {
    hide SafeIdent;
  }

  // ---- retry ----

  function Digits(n: nat): string {
    if n < 10 then ["0123456789"[n]] else Digits(n / 10) + ["0123456789"[n % 10]]
  }

  /** The first attempt of the list that carries the idempotency key. */
  function WithKey(all: map<Id, Attempt>, ids: seq<Id>, key: string): Option<Id> {
    if ids == [] then None
    else if ids[0] in all && all[ids[0]].key.idemKey == key then Some(ids[0])
    else WithKey(all, ids[1..], key)
  }

  function RetryId(j: Job, aid: Option<Id>): Id {
    if aid.Some? then aid.value else "retry_" + Digits(|j.attempts|)
  }

  function RetryReply(c: Config, d: Data, jobId: Id, aid: Option<Id>, key: string): (r: Reply)
    ensures r.Enqueued? ==> jobId in d.queue.jobs
  {
    if jobId !in d.queue.jobs then Refused(UnknownJob)
    else
      var j := d.queue.jobs[jobId];
      var earlier := if key == "" then None else WithKey(d.queue.attempts, j.attempts, key);
      if earlier.Some? then Duplicate(earlier.value)
      else if !JobEnded(j.state) then Refused(NotTerminal)
      else
        var file := LoadPayload(c, d.payloads, j.spec.payloadRef);
        if file.None? then Refused(PayloadError)
        else if file.value.hash != j.spec.contentHash then Refused(PayloadHashMismatch)
        else if !SafeIdent(j.spec.taskId) || !SafeIdent(RetryId(j, aid)) then Refused(InvalidIdentifier)
        else if RetryId(j, aid) in j.attempts then Refused(DuplicateAttempt)
        else Enqueued(jobId, RetryId(j, aid))
  }

  function Reopened(j: Job, aid: Id): Job {
    j.(attempts := j.attempts + [aid], state := JState.Queued, result := Result(None, NoReason, j.result.refs))
  }

  function Reopen(q: Queue, jobId: Id, aid: Id, key: string, now: int): Queue
    requires jobId in q.jobs
  {
    Queue(q.attempts[aid := NewAttempt(jobId, q.jobs[jobId].spec.harness, key, now)],
          q.jobs[jobId := Reopened(q.jobs[jobId], aid)])
  }

  function Retry(c: Config, d: Data, jobId: Id, aid: Option<Id>, key: string, now: int): Data {
    var reply := RetryReply(c, d, jobId, aid, key);
    if !reply.Enqueued? then d else d.(queue := Reopen(d.queue, jobId, reply.attemptId, key, now))
  }

  /** What an accepted retry writes: one waiting attempt of the same job, on the
      same terms; the job is queued again and keeps its earlier attempts and
      result references; payloads and evidence stay. */
  lemma RetryWrites(c: Config, d: Data, jobId: Id, id: Option<Id>, key: string, now: int)
    requires RetryReply(c, d, jobId, id, key).Enqueued?
    ensures var d' := Retry(c, d, jobId, id, key, now);
      var aid := RetryReply(c, d, jobId, id, key).attemptId;
      && d' == d.(queue := d'.queue) && (id.Some? ==> aid == id.value)
      && d'.queue.jobs.Keys == d.queue.jobs.Keys
      && (forall j :: j in d.queue.jobs && j != jobId ==> d'.queue.jobs[j] == d.queue.jobs[j])
      && (var was, j := d.queue.jobs[jobId], d'.queue.jobs[jobId];
          && j.spec == was.spec && j.attempts == was.attempts + [aid] && j.state == JState.Queued
          && j.result == Result(None, NoReason, was.result.refs))
      && aid in d'.queue.attempts
      && var a := d'.queue.attempts[aid];
         && a.state == AState.Queued && !a.terminal && a.sessionId == "" && a.claim == Claim("", None, None, false)
         && a.key == AttemptKey(jobId, d.queue.jobs[jobId].spec.harness, key, now) && a.result == Result(None, NoReason, [])
  {
    hide LoadPayload;
    hide SafeIdent;
    hide WithKey;
    hide Digits;
  }

  // ---- cancel, reconcile, status, external sessions ----

  function SetSession(d: Data, sid: Id, state: SState, now: int): Data
    requires sid in d.sessions
  {
    d.(sessions := d.sessions[sid := d.sessions[sid].(state := state, endedAt := Some(now))])
  }

  /** Attempt and job follow the session; a completed job is never rewritten. */
  function Follow(state: AState, from: SState): Outcome {
    Outcome(state, SessionIs(from), None, [], true)
  }

  function CancelDone(d: Data, sid: Id, now: int): Data
    requires sid in d.sessions
  {
    var ss := d.sessions[sid];
    d.(sessions := d.sessions[sid := ss.(state := SState.Cancelled, endedAt := Some(now))],
       queue := Settle(d.queue, ss.key.attemptId, Follow(AState.Cancelled, SState.Cancelled)),
       log := d.log.(events := d.log.events + [Event(SessionCancelled, sid, ss.key.attemptId, None)]))
  }

  predicate Cancellable(sessions: map<Id, Session>, sid: Id) {
    sid in sessions && sessions[sid].key.managed && !SessionEnded(sessions[sid].state)
  }

  /** `gateway`: the adapter cancelled. `kill`: killing the owned scope worked.
      When neither did, the session gets its earlier state back. */
  function Cancel(d: Data, sid: Id, gateway: bool, kill: bool, now: int): Data {
    if Cancellable(d.sessions, sid)
       && (gateway || (d.sessions[sid].key.scoped && d.sessions[sid].key.hasProc && kill))
    then CancelDone(d, sid, now) else d
  }

  /** The marker written before any kill is tried. */
  function MarkCancel(d: Data, sid: Id): Data {
    if !Cancellable(d.sessions, sid) then d
    else d.(sessions := d.sessions[sid := d.sessions[sid].(state := SState.CancelRequested)])
  }

  /** An open session whose process is gone ends as its exit code says. */
  function EndByExit(d: Data, sid: Id, exit: Option<int>, now: int): Data
    requires sid in d.sessions
  {
    var ss := d.sessions[sid];
    var end := if exit.Some? && exit.value != 0 then (AState.Failed, SState.Failed)
               else (AState.Completed, SState.Completed);
    d.(sessions := d.sessions[sid := ss.(exitCode := exit, state := end.1, endedAt := Some(now))],
       queue := Settle(d.queue, ss.key.attemptId, Follow(end.0, end.1)))
  }

  predicate Observable(sessions: map<Id, Session>, sid: Id) {
    sid in sessions && sessions[sid].key.managed && sessions[sid].key.hasProc
  }

  /** Reconciliation of one session; `exit` is the exit code recovered from
      the scope or the fixture file. */
  function ReconcileOne(d: Data, sid: Id, obs: Obs, exit: Option<int>, now: int): Data {
    if !Observable(d.sessions, sid) then d
    else
      var state := d.sessions[sid].state;
      if obs.NoProcess? then
        if state.CancelRequested? then CancelDone(d, sid, now)
        else if !SessionEnded(state) then EndByExit(d, sid, exit, now)
        else d
      else if Matches(obs) then
        if state.CancelRequested? then d
        else d.(sessions := d.sessions[sid := d.sessions[sid].(state := SState.Running)])
      else SetSession(d, sid, SState.Lost, now)
  }

  function Status(d: Data, sid: Id, obs: Obs, now: int): Data {
    if !Observable(d.sessions, sid) then d
    else
      var state := d.sessions[sid].state;
      if obs.NoProcess? then
        if !SessionEnded(state) && !state.CancelRequested? then SetSession(d, sid, SState.Completed, now) else d
      else if !Matches(obs) then SetSession(d, sid, SState.Lost, now)
      else d
  }

  function ExternalSession(): Session {
    Session(SessionKey("", false, true, false, false, false, None, 120), SState.Running, None, None)
  }

  function ObserveExternal(d: Data, sid: Id): Data {
    d.(sessions := d.sessions[sid := ExternalSession()])
  }

  // ---- dispatch of one claimed attempt, write by write ----

  datatype Repo = Snapshot | WorktreeError | RepoError

  datatype Gateway =
    | StartOk(sid: Id, hasProc: bool, adapterBound: bool, scoped: bool)
    | StartFailed(message: string)
    | StartRaised

  /** A hold always lasts for some time. */
  type Delay = x: int | x > 0 witness 1

  /** The answers the dispatcher gets while it starts one attempt. */
  datatype Oracle = Oracle(now: int, ready: bool, backoff: Delay, repo: Repo, gateway: Gateway)

  /** Where the dispatcher stands between two persistent writes, with the
      record copies it read earlier and will write back later. */
  datatype Pc =
    | Idle
    | Checked(aid: Id)
    | Claimed(aid: Id)
    | Holding(aid: Id)
    | Failing(aid: Id, jobId: Id, job: Job)
    | Prepared(aid: Id, att: Attempt, job: Job)
    | Started(aid: Id, att: Attempt, job: Job, gateway: Gateway)
    | Registered(aid: Id, att: Attempt, job: Job, sid: Id)
    | Bound(aid: Id, jobId: Id, job: Job, sid: Id)

  function HeldRecord(a: Attempt, until: int): Attempt {
    a.(claim := a.claim.(held := true, retryAfter := Some(until)))
  }

  function FailRecord(a: Attempt, reason: Reason): Attempt {
    a.(state := AState.Failed, terminal := true, result := a.result.(reason := reason))
  }

  function FailJob(j: Job, reason: Reason): Job {
    j.(state := JState.Failed, result := j.result.(reason := reason))
  }

  function SaveAttempt(d: Data, aid: Id, a: Attempt): Data {
    d.(queue := d.queue.(attempts := d.queue.attempts[aid := a]))
  }

  function SaveJob(d: Data, jobId: Id, j: Job): Data {
    d.(queue := d.queue.(jobs := d.queue.jobs[jobId := j]))
  }

  function NewSession(c: Config, aid: Id, j: Job, g: Gateway, now: int): Session
    requires g.StartOk?
  {
    Session(SessionKey(aid, true, g.hasProc, g.adapterBound, g.scoped, j.spec.harness == c.fixtureHarness,
                       Some(now), j.spec.timeoutS),
            SState.Running, None, None)
  }

  function Fail(d: Data, aid: Id, a: Attempt, j: Job, reason: Reason): (Data, Pc) {
    (SaveAttempt(d, aid, FailRecord(a, reason)), Failing(aid, a.key.jobId, FailJob(j, reason)))
  }

  /** From the fresh read of the claimed attempt to the first write. */
  function Begin(d: Data, aid: Id, o: Oracle): (Data, Pc) {
    if aid !in d.queue.attempts || !d.queue.attempts[aid].state.Claimed? then (d, Idle)
    else
      var a := d.queue.attempts[aid];
      if a.key.jobId !in d.queue.jobs then (d, Idle)
      else
        var j := d.queue.jobs[a.key.jobId];
        if j.spec.local && !o.ready then (SaveAttempt(d, aid, HeldRecord(a, o.now + o.backoff)), Holding(aid))
        else if o.repo.RepoError? then (d, Idle)
        else if o.repo.WorktreeError? then Fail(d, aid, a, j, WorktreeFailed)
        else
          var running := a.(state := AState.Running);
          (SaveAttempt(d, aid, running), Prepared(aid, running, j))
  }

  /** Reload and check the payload, then call the gateway. */
  function Launch(c: Config, d: Data, aid: Id, a: Attempt, j: Job, g: Gateway): (Data, Pc) {
    var file := LoadPayload(c, d.payloads, j.spec.payloadRef);
    if file.None? then Fail(d, aid, a, j, PayloadFailed)
    else if file.value.hash != j.spec.contentHash then Fail(d, aid, a, j, PayloadMismatch)
    else (d.(log := d.log.(starts := d.log.starts + [Start(aid, a.key.jobId, file.value.instructions)])),
          Started(aid, a, j, g))
  }

  /** What the gateway answered decides the next write. */
  function Record(c: Config, d: Data, aid: Id, a: Attempt, j: Job, g: Gateway, now: int): (Data, Pc) {
    match g
    case StartRaised => (d, Idle)
    case StartFailed(message) => Fail(d, aid, a, j, Reason.Gateway(message))
    case StartOk(sid, _, _, _) =>
      (d.(sessions := d.sessions[sid := NewSession(c, aid, j, g, now)]), Registered(aid, a, j, sid))
  }

  /** The dispatcher's next write. */
  function Advance(c: Config, d: Data, pc: Pc, o: Oracle): (Data, Pc) {
    match pc
    case Idle => (d, pc)
    case Checked(aid) => (d, pc)
    case Claimed(aid) => Begin(d, aid, o)
    case Holding(aid) => (d.(queue := d.queue.(attempts := Release(d.queue.attempts, aid))), Idle)
    case Failing(aid, jobId, j) => (SaveJob(d, jobId, j), Idle)
    case Prepared(aid, a, j) => Launch(c, d, aid, a, j, o.gateway)
    case Started(aid, a, j, g) => Record(c, d, aid, a, j, g, o.now)
    case Registered(aid, a, j, sid) =>
      (SaveAttempt(d, aid, a.(sessionId := sid)), Bound(aid, a.key.jobId, j.(state := JState.Running), sid))
    case Bound(aid, jobId, j, sid) => (SaveJob(d, jobId, j), Idle)
  }
}
