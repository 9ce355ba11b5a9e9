/** Capacity, claims and lease recovery. */
module Scheduling {
  import opened Prelude
  import opened Records

  const DEFAULT_LIMITS: map<string, int> :=
    map["hermes_scoped" := 2, "codex_cli" := 2, "opencode_cli" := 1, "hermes" := 2]

  function HarnessLimit(c: Config, h: string): int {
    if h in c.overrides then c.overrides[h]
    else if h in DEFAULT_LIMITS then DEFAULT_LIMITS[h]
    else 1
  }

  lemma WordsApart(h: string)
    requires h in {"hermes_scoped", "codex_cli", "hermes"}
    ensures h != "opencode_cli"
  {
    assert "hermes_scoped"[0] == 'h' && "codex_cli"[0] == 'c' && "hermes"[0] == 'h' && "opencode_cli"[0] == 'o';
  }

  /** The limit of a harness: what is configured for it comes first, then the
      built-in one, then one. */
  lemma LimitIs(c: Config, h: string)
    ensures HarnessLimit(c, h)
         == if h in c.overrides then c.overrides[h] else if h in {"hermes_scoped", "codex_cli", "hermes"} then 2 else 1
  {
    if h in {"hermes_scoped", "codex_cli", "hermes"} { WordsApart(h); }
  }

  predicate Busy(a: Attempt) { a.state.Running? || a.state.Claimed? }

  /** The attempts that consume capacity. */
  function Active(all: map<Id, Attempt>): set<Id> {
    set x | x in all && Busy(all[x])
  }

  function ActiveOf(all: map<Id, Attempt>, h: string): set<Id> {
    set x | x in all && Busy(all[x]) && all[x].key.harness == h
  }

  predicate CanStart(c: Config, all: map<Id, Attempt>, h: string) {
    |Active(all)| < c.globalLimit && |ActiveOf(all, h)| < HarnessLimit(c, h)
  }

  /** A queued attempt held by the admission gate is not claimable yet. */
  predicate OnHold(a: Attempt, now: int) { a.claim.retryAfter.Some? && a.claim.retryAfter.value > now }

  predicate Claimable(all: map<Id, Attempt>, aid: Id, now: int) {
    aid in all && all[aid].state.Queued? && !OnHold(all[aid], now)
  }

  function ClaimRecord(a: Attempt, owner: string, now: int): Attempt {
    a.(state := AState.Claimed, claim := a.claim.(owner := owner, leasedAt := Some(now)))
  }

  function TakeClaim(all: map<Id, Attempt>, aid: Id, owner: string, now: int): map<Id, Attempt> {
    if Claimable(all, aid, now) then all[aid := ClaimRecord(all[aid], owner, now)] else all
  }

  function ReleaseRecord(a: Attempt): Attempt {
    a.(state := AState.Queued, claim := a.claim.(owner := "", leasedAt := None))
  }

  function Release(all: map<Id, Attempt>, aid: Id): map<Id, Attempt> {
    if aid in all && all[aid].state.Claimed? then all[aid := ReleaseRecord(all[aid])] else all
  }

  predicate LeaseExpired(a: Attempt, now: int, leaseS: int) {
    a.state.Claimed? && a.claim.leasedAt.Some? && now - a.claim.leasedAt.value > leaseS
  }

  /** Every claim whose lease ran out goes back to the queue, all at once. */
  function RecoverExpired(all: map<Id, Attempt>, now: int, leaseS: int): map<Id, Attempt> {
    map x | x in all :: if LeaseExpired(all[x], now, leaseS) then ReleaseRecord(all[x]) else all[x]
  }
}
