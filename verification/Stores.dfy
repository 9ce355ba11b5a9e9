/** The persistent stores, updated in place. */
module Stores {
  import opened Prelude
  import opened Records
  import opened Scheduling
  import opened Engine
  import opened Service

  /** The queue file and the capacity rules over it. */
  class Scheduler {
    const c: Config
    var attempts: map<Id, Attempt>
    var jobs: map<Id, Job>

    constructor (c: Config)
      ensures this.c == c && attempts == map[] && jobs == map[]
    {
      this.c := c;
      attempts, jobs := map[], map[];
    }

    method SaveAttempt(aid: Id, a: Attempt)
      modifies this`attempts
      ensures attempts == old(attempts)[aid := a]
    {
      attempts := attempts[aid := a];
    }

    method SaveJob(jobId: Id, j: Job)
      modifies this`jobs
      ensures jobs == old(jobs)[jobId := j]
    {
      jobs := jobs[jobId := j];
    }

    /** The two counters a start is decided by, counted in one sweep. */
    method RunningCounts() returns (total: nat, per: map<string, nat>)
      ensures total == |Active(attempts)|
      ensures forall h :: CountOf(per, h) == |ActiveOf(attempts, h)|
      ensures total == |set x | x in attempts && (attempts[x].state.Running? || attempts[x].state.Claimed?)|
      ensures forall h ::
        CountOf(per, h)
        == |set x | x in attempts && (attempts[x].state.Running? || attempts[x].state.Claimed?) && attempts[x].key.harness == h|
    {
      hide Tallied;
      hide Active;
      hide ActiveOf;
      total, per := 0, map[];
      var rest := attempts.Keys;
      NothingYet(attempts);
      while rest != {}
        invariant rest <= attempts.Keys && Tallied(attempts, rest, total, per)
        decreases |rest|
      {
        var x :| x in rest;
        var a := attempts[x];
        TallyOne(attempts, rest, x, total, per);
        if a.state.Running? || a.state.Claimed? {
          total := total + 1;
          per := per[a.key.harness := CountOf(per, a.key.harness) + 1];
        }
        rest := rest - {x};
      }
      NothingLeft(attempts, total, per);
      ActiveAre(attempts);
    }

    method MayStart(h: string) returns (ok: bool)
      ensures ok == CanStart(c, attempts, h)
      ensures var limit := if h in c.overrides then c.overrides[h]
                           else if h in {"hermes_scoped", "codex_cli", "hermes"} then 2 else 1;
        ok <==>
          && |set x | x in attempts && (attempts[x].state.Running? || attempts[x].state.Claimed?)| < c.globalLimit
          && |set x | x in attempts && (attempts[x].state.Running? || attempts[x].state.Claimed?)
                      && attempts[x].key.harness == h| < limit
    {
      LimitIs(c, h);
      ActiveAre(attempts);
      hide HarnessLimit;
      hide Active;
      hide ActiveOf;
      var total, per := RunningCounts();
      ok := total < c.globalLimit && CountOf(per, h) < HarnessLimit(c, h);
    }

    /** Exactly one owner: a second claim finds the attempt no longer queued. */
    method Claim(aid: Id, owner: string, now: int) returns (r: Option<Attempt>)
      modifies this`attempts
      ensures attempts == TakeClaim(old(attempts), aid, owner, now)
      ensures r.Some? <==> Claimable(old(attempts), aid, now)
      ensures r.Some? ==> aid in attempts && r.value == attempts[aid] && r.value.state.Claimed?
    {
      if aid !in attempts || !attempts[aid].state.Queued? { return None; }
      var a := attempts[aid];
      if a.claim.retryAfter.Some? && a.claim.retryAfter.value > now { return None; }
      a := a.(state := AState.Claimed, claim := a.claim.(owner := owner, leasedAt := Some(now)));
      SaveAttempt(aid, a);
      return Some(a);
    }

    method ReleaseClaim(aid: Id)
      modifies this`attempts
      ensures attempts == Release(old(attempts), aid)
    {
      if aid !in attempts || !attempts[aid].state.Claimed? { return; }
      var a := attempts[aid];
      SaveAttempt(aid, a.(state := AState.Queued, claim := a.claim.(owner := "", leasedAt := None)));
    }

    method RecoverExpiredClaims(now: int) returns (recovered: set<Id>)
      modifies this`attempts
      ensures attempts == RecoverExpired(old(attempts), now, c.leaseS)
      ensures recovered == set x | x in old(attempts) && LeaseExpired(old(attempts)[x], now, c.leaseS)
    {
      recovered := {};
      ghost var all := attempts;
      var rest := attempts.Keys;
      hide Swept;
      hide RecoverExpired;
      SweepStart(all, now, c.leaseS);
      while rest != {}
        invariant rest <= all.Keys && Swept(all, rest, attempts, recovered, now, c.leaseS)
        decreases |rest|
      {
        var x :| x in rest;
        SweepOne(all, rest, attempts, recovered, now, c.leaseS, x);
        rest := rest - {x};
        var a := attempts[x];
        if a.state.Claimed? && a.claim.leasedAt.Some? {
          if now - a.claim.leasedAt.value > c.leaseS {
            ReleaseClaim(x);
            recovered := recovered + {x};
          }
        }
      }
      SweepEnd(all, attempts, recovered, now, c.leaseS);
    }
  }

  /** The sweep has dealt with every attempt outside `rest`. */
  ghost predicate Swept(all: map<Id, Attempt>, rest: set<Id>, done: map<Id, Attempt>, recovered: set<Id>, now: int,
        leaseS: int) {
    && done.Keys == all.Keys
    && (forall x :: x in all ==>
          done[x] == if x !in rest && LeaseExpired(all[x], now, leaseS) then ReleaseRecord(all[x]) else all[x])
    && recovered == set x | x in all && x !in rest && LeaseExpired(all[x], now, leaseS)
  }

  lemma ActiveAre(all: map<Id, Attempt>)
    ensures Active(all) == set x | x in all && (all[x].state.Running? || all[x].state.Claimed?)
    ensures forall h ::
      ActiveOf(all, h) == set x | x in all && (all[x].state.Running? || all[x].state.Claimed?) && all[x].key.harness == h
  {
  }

  function CountOf(per: map<string, nat>, h: string): nat { if h in per then per[h] else 0 }

  /** The counters cover exactly the attempts outside `rest`. */
  ghost predicate Tallied(all: map<Id, Attempt>, rest: set<Id>, total: nat, per: map<string, nat>) {
    && total == |Active(all) - rest|
    && forall h :: CountOf(per, h) == |ActiveOf(all, h) - rest|
  }

  lemma NothingYet(all: map<Id, Attempt>)
    ensures Tallied(all, all.Keys, 0, map[])
  {
    assert Active(all) - all.Keys == {};
    assert forall h :: ActiveOf(all, h) - all.Keys == {};
  }

  lemma NothingLeft(all: map<Id, Attempt>, total: nat, per: map<string, nat>)
    requires Tallied(all, {}, total, per)
    ensures total == |Active(all)| && forall h :: CountOf(per, h) == |ActiveOf(all, h)|
  {
    assert Active(all) - {} == Active(all);
    assert forall h :: ActiveOf(all, h) - {} == ActiveOf(all, h);
  }

  lemma Counted(all: map<Id, Attempt>, x: Id)
    requires x in all
    ensures x in Active(all) <==> Busy(all[x])
    ensures forall h :: x in ActiveOf(all, h) <==> Busy(all[x]) && all[x].key.harness == h
  {
  }

  lemma TallyOne(all: map<Id, Attempt>, rest: set<Id>, x: Id, total: nat, per: map<string, nat>)
    requires x in rest && x in all && Tallied(all, rest, total, per)
    ensures var h := all[x].key.harness;
      if Busy(all[x]) then Tallied(all, rest - {x}, total + 1, per[h := CountOf(per, h) + 1])
      else Tallied(all, rest - {x}, total, per)
  {
    hide Active;
    hide ActiveOf;
    hide Busy;
    Counted(all, x);
    OneMore(Active(all), rest, x);
    var per' := per[all[x].key.harness := CountOf(per, all[x].key.harness) + 1];
    forall h
      ensures if Busy(all[x]) then CountOf(per', h) == |ActiveOf(all, h) - (rest - {x})|
              else CountOf(per, h) == |ActiveOf(all, h) - (rest - {x})|
    {
      OneMore(ActiveOf(all, h), rest, x);
    }
  }

  lemma SweepStart(all: map<Id, Attempt>, now: int, leaseS: int)
    ensures Swept(all, all.Keys, all, {}, now, leaseS)
  {
  }

  lemma SweepOne(all: map<Id, Attempt>, rest: set<Id>, done: map<Id, Attempt>, recovered: set<Id>, now: int,
        leaseS: int, x: Id)
    requires Swept(all, rest, done, recovered, now, leaseS) && x in rest && x in all
    ensures x in done && done[x] == all[x]
    ensures if LeaseExpired(all[x], now, leaseS)
            then Swept(all, rest - {x}, done[x := ReleaseRecord(all[x])], recovered + {x}, now, leaseS)
            else Swept(all, rest - {x}, done, recovered, now, leaseS)
  {
    hide LeaseExpired;
    hide ReleaseRecord;
  }

  lemma SweepEnd(all: map<Id, Attempt>, done: map<Id, Attempt>, recovered: set<Id>, now: int, leaseS: int)
    requires Swept(all, {}, done, recovered, now, leaseS)
    ensures done == RecoverExpired(all, now, leaseS)
    ensures recovered == set x | x in all && LeaseExpired(all[x], now, leaseS)
  {
    hide LeaseExpired;
    hide ReleaseRecord;
  }

  /** One file per payload; anything may happen to a file between two calls. */
  class PayloadStore {
    const sha: string -> string
    var files: map<Id, PayloadFile>

    constructor (sha: string -> string)
      ensures this.sha == sha && files == map[]
    {
      this.sha := sha;
      files := map[];
    }

    method Put(id: Id, instructions: string)
      modifies this
      ensures files == old(files)[id := Envelope(instructions, sha(instructions))]
    {
      files := files[id := Envelope(instructions, sha(instructions))];
    }

    /** Missing, unreadable and altered files all fail. What is returned
        hashes to the hash it carries. */
    method Get(c: Config, id: Id) returns (r: Option<PayloadFile>)
      requires c.sha == sha
      ensures r == LoadPayload(c, files, id)
    {
      if id !in files || files[id].Corrupt? { return None; }
      var f := files[id];
      if f.hash == "" { f := f.(hash := sha(f.instructions)); }
      if sha(f.instructions) != f.hash { return None; }
      return Some(f);
    }
  }

  /** What was put is what is read back, until somebody writes the file. */
  lemma PutThenGet(c: Config, files: map<Id, PayloadFile>, id: Id, instructions: string)
    ensures LoadPayload(c, files[id := Envelope(instructions, c.sha(instructions))], id)
         == Some(Envelope(instructions, c.sha(instructions)))
  {
  }

  // ---- evidence bundles ----

  /** One entry per artifact, in order; an unreadable file gets the zero hash,
      and an artifact without a path raises: then there is no result. */
  method HashArtifacts(arts: Artifacts, digests: map<string, string>) returns (r: Option<seq<(string, Digest)>>)
    ensures r == if AllNamed(arts) then Some(HashedArtifacts(arts, digests)) else None
  {
    var done: seq<(string, Digest)> := [];
    for i := 0 to |arts|
      invariant AllNamed(arts[..i]) && done == HashedArtifacts(arts[..i], digests)
    {
      if arts[i].0.None? { return None; }
      var path := arts[i].0.value;
      var entry := (path, if path in digests then Sha(digests[path]) else Zeros);
      HashedOneMore(arts, digests, i);
      done := done + [entry];
    }
    assert arts[..|arts|] == arts;
    return Some(done);
  }

  lemma HashedOneMore(arts: Artifacts, digests: map<string, string>, i: nat)
    requires i < |arts| && AllNamed(arts[..i + 1])
    ensures AllNamed(arts[..i])
    ensures HashedArtifacts(arts[..i + 1], digests)
         == HashedArtifacts(arts[..i], digests)
            + [(arts[i].0.value, if arts[i].0.value in digests then Sha(digests[arts[i].0.value]) else Zeros)]
  {
    assert forall k :: 0 <= k < i ==> arts[..i][k] == arts[..i + 1][k];
    assert arts[..i + 1][i] == arts[i];
    HashedInOrder(arts[..i], digests);
    HashedInOrder(arts[..i + 1], digests);
  }

  /** Fail-closed: one bad entry is enough. */
  method Validate(b: Bundle) returns (ok: bool)
    ensures ok == ValidBundle(b)
    ensures ok <==> b.hasSchema && !b.marker && b.exitCode.Some?
                    && forall i :: 0 <= i < |b.artifacts| ==> b.artifacts[i].0 != "" && b.artifacts[i].1 != Sha("")
  {
    if !b.hasSchema { return false; }
    if b.marker { return false; }
    if b.exitCode.None? { return false; }
    for i := 0 to |b.artifacts|
      invariant forall k :: 0 <= k < i ==> b.artifacts[k].0 != "" && b.artifacts[k].1 != Sha("")
    {
      if b.artifacts[i].1 == Sha("") || b.artifacts[i].0 == "" { return false; }
    }
    return true;
  }

  /** The artifact entries of a built bundle: in order, one per artifact, with
      the hash of the file read or the zero hash. */
  lemma {:induction false} HashedInOrder(arts: Artifacts, digests: map<string, string>)
    requires AllNamed(arts)
    ensures |HashedArtifacts(arts, digests)| == |arts|
    ensures forall i :: 0 <= i < |arts| ==>
      var path := arts[i].0.value;
      HashedArtifacts(arts, digests)[i] == (path, if path in digests then Sha(digests[path]) else Zeros)
  {
    if arts != [] { HashedInOrder(arts[1..], digests); }
  }
}
