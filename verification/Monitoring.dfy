/** A whole pass of the monitor over the sessions. */
module Monitoring {
  import opened Prelude
  import opened Records
  import opened Engine
  import opened Service
  import opened Lifecycle
  import opened Reconciliation

  /** The final store and how many sessions the pass came to. */
  function MonitorAll(d: Data, sids: seq<Id>, see: Sight, probes: Id -> Probe, now: int): (Data, nat)
    decreases |sids|
  {
    if sids == [] then (d, 0)
    else if LookRaises(d, sids[0], see(sids[0]), probes(sids[0])) then (d, 1)
    else
      var (d', n) := MonitorAll(MonitorOne(d, sids[0], see(sids[0]), probes(sids[0]), now), sids[1..], see, probes, now);
      (d', n + 1)
  }

  /** The looks of a pass, up to the one that ends it. */
  function MonitorActs(d: Data, sids: seq<Id>, see: Sight, probes: Id -> Probe, now: int): seq<Act>
    decreases |sids|
  {
    if sids == [] then []
    else
      var look := Monitor(sids[0], see(sids[0]), probes(sids[0]), now);
      if LookRaises(d, sids[0], see(sids[0]), probes(sids[0])) then [look]
      else
        [look]
        + MonitorActs(MonitorOne(d, sids[0], see(sids[0]), probes(sids[0]), now), sids[1..], see, probes, now)
  }

  /** A look that raises changes nothing. */
  lemma RaisedLook(d: Data, sid: Id, obs: Obs, p: Probe, now: int)
    requires LookRaises(d, sid, obs, p)
    ensures MonitorOne(d, sid, obs, p, now) == d
  {
    hide GoneRaises;
  }

  /** The monitor's pass is a run of its looks. */
  lemma {:induction false} MonitorAllIsRun(c: Config, w: World, sids: seq<Id>, see: Sight, probes: Id -> Probe, now: int)
    ensures Run(c, w, MonitorActs(w.d, sids, see, probes, now)) == w.(d := MonitorAll(w.d, sids, see, probes, now).0)
    decreases |sids|
  {
    hide MonitorOne;
    hide LookRaises;
    if sids != [] {
      var act := Monitor(sids[0], see(sids[0]), probes(sids[0]), now);
      var acts := MonitorActs(w.d, sids, see, probes, now);
      var w1 := Step(c, w, act);
      assert acts[0] == act;
      assert Run(c, w, acts) == Run(c, w1, acts[1..]);
      if LookRaises(w.d, sids[0], see(sids[0]), probes(sids[0])) {
        RaisedLook(w.d, sids[0], see(sids[0]), probes(sids[0]), now);
        assert acts[1..] == [];
      } else {
        assert acts[1..] == MonitorActs(w1.d, sids[1..], see, probes, now);
        MonitorAllIsRun(c, w1, sids[1..], see, probes, now);
      }
    }
  }

  /** The look at session `i` raises, after the looks before it. */
  predicate RaisesAt(d: Data, sids: seq<Id>, see: Sight, probes: Id -> Probe, now: int, i: nat)
    requires i < |sids|
  {
    LookRaises(MonitorAll(d, sids[..i], see, probes, now).0, sids[i], see(sids[i]), probes(sids[i]))
  }

  lemma RaisesLater(d: Data, sids: seq<Id>, see: Sight, probes: Id -> Probe, now: int, i: nat)
    requires i + 1 < |sids| && !LookRaises(d, sids[0], see(sids[0]), probes(sids[0]))
    ensures RaisesAt(d, sids, see, probes, now, i + 1)
         == RaisesAt(MonitorOne(d, sids[0], see(sids[0]), probes(sids[0]), now), sids[1..], see, probes, now, i)
  {
    hide MonitorOne;
    hide LookRaises;
    assert sids[..i + 1][1..] == sids[1..][..i];
  }

  /** A pass comes to a session exactly when no look before it raised; from the
      first artifact without a path on, later sessions are not looked at. */
  lemma {:induction false} MonitorStopsExactly(
      d: Data, sids: seq<Id>, see: Sight, probes: Id -> Probe, now: int, k: nat)
    requires k < |sids|
    ensures k < MonitorAll(d, sids, see, probes, now).1
       <==> forall i :: 0 <= i < k ==> !RaisesAt(d, sids, see, probes, now, i)
    decreases |sids|
  {
    hide MonitorOne;
    hide LookRaises;
    var raised := LookRaises(d, sids[0], see(sids[0]), probes(sids[0]));
    assert RaisesAt(d, sids, see, probes, now, 0) == raised by {
      assert sids[..0] == [];
    }
    if !raised && k > 0 {
      var d1 := MonitorOne(d, sids[0], see(sids[0]), probes(sids[0]), now);
      MonitorStopsExactly(d1, sids[1..], see, probes, now, k - 1);
      assert forall i :: 0 < i < k ==>
        RaisesAt(d, sids, see, probes, now, i) == RaisesAt(d1, sids[1..], see, probes, now, i - 1) by {
        forall i | 0 < i < k
          ensures RaisesAt(d, sids, see, probes, now, i) == RaisesAt(d1, sids[1..], see, probes, now, i - 1)
        {
          RaisesLater(d, sids, see, probes, now, i - 1);
        }
      }
      assert forall i :: 0 <= i < k - 1 ==> RaisesAt(d1, sids[1..], see, probes, now, i) == RaisesAt(d, sids, see, probes, now, i + 1);
    }
  }
}
