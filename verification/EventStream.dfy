/** The bounded event bus and the clients that follow it with a last seen id. */
module EventStream {

  datatype Event = Event(id: nat, kind: string, data: string)

  function Least(a: nat, b: nat): nat { if a < b then a else b }

  /** What a buffer of `max` places keeps of the whole log. */
  function Kept(log: seq<Event>, max: nat): seq<Event> {
    log[|log| - Least(max, |log|)..]
  }

  predicate Numbered(log: seq<Event>) {
    forall i :: 0 <= i < |log| ==> log[i].id == i + 1
  }

  /** The events newer than an id, in order. */
  function Newer(events: seq<Event>, last: int): seq<Event> {
    if events == [] then []
    else
      var n := |events| - 1;
      Newer(events[..n], last) + (if events[n].id > last then [events[n]] else [])
  }

  /** `log` holds every event ever published; the bus itself keeps the last
      `max` of them. */
  class EventStreamBus {
    const max: nat
    var seqNo: nat
    var history: seq<Event>
    ghost var log: seq<Event>

    ghost predicate Valid()
      reads this
    {
      Numbered(log) && seqNo == |log| && history == Kept(log, max)
    }

    constructor (max: nat)
      ensures Valid() && log == [] && this.max == max
    {
      this.max := max;
      seqNo, history, log := 0, [], [];
    }

    method Publish(kind: string, data: string) returns (id: nat)
      requires Valid()
      modifies this
      ensures Valid() && id == |old(log)| + 1 && log == old(log) + [Event(id, kind, data)]
    {
      seqNo := seqNo + 1;
      var e := Event(seqNo, kind, data);
      KeptMore(log, max, e);
      history := history + [e];
      if |history| > max { history := history[|history| - max..]; }
      log := log + [e];
      return seqNo;
    }

    method EventsSince(last: int) returns (events: seq<Event>)
      requires Valid()
      ensures events == Newer(Kept(log, max), last)
    {
      events := [];
      for i := 0 to |history|
        invariant events == Newer(history[..i], last)
      {
        assert history[..i + 1][..i] == history[..i];
        if history[i].id > last { events := events + [history[i]]; }
      }
      assert history[..|history|] == history;
    }

    /** One turn of the streaming loop: everything newer is sent, and the last
        id sent is remembered. */
    method SendNewer(last: int) returns (sent: seq<Event>, next: int)
      requires Valid()
      ensures sent == Newer(Kept(log, max), last)
      ensures next == if sent == [] then last else sent[|sent| - 1].id
    {
      var events := EventsSince(last);
      sent, next := [], last;
      for i := 0 to |events|
        invariant sent == events[..i] && next == if i == 0 then last else events[i - 1].id
      {
        sent := sent + [events[i]];
        next := events[i].id;
      }
    }
  }

  lemma KeptMore(log: seq<Event>, max: nat, e: Event)
    ensures var h := Kept(log, max) + [e];
      Kept(log + [e], max) == if |h| > max then h[|h| - max..] else h
  {
  }

  // ---- what a client sees ----

  /** One bus with one client: the log so far, the client's last id, and all it
      received. A client that reconnects goes on from its last id. */
  datatype Follower = Follower(log: seq<Event>, last: int, received: seq<Event>)

  datatype Act = Publish(kind: string, data: string) | Poll

  function Step(max: nat, f: Follower, act: Act): Follower {
    match act
    case Publish(kind, data) => f.(log := f.log + [Event(|f.log| + 1, kind, data)])
    case Poll =>
      var events := Newer(Kept(f.log, max), f.last);
      f.(received := f.received + events, last := if events == [] then f.last else events[|events| - 1].id)
  }

  function Run(max: nat, f: Follower, acts: seq<Act>): Follower
    decreases |acts|
  {
    if acts == [] then f else Run(max, Step(max, f, acts[0]), acts[1..])
  }

  /** The client is never more than `max` events behind when it polls; a bus
      without places never has anything to send. */
  predicate KeepsUp(max: nat, f: Follower, acts: seq<Act>)
    decreases |acts|
  {
    acts == []
    || ((acts[0].Poll? && max > 0 ==> |f.log| - f.last <= max) && KeepsUp(max, Step(max, f, acts[0]), acts[1..]))
  }

  lemma NewerMore(events: seq<Event>, e: Event, last: int)
    ensures Newer(events + [e], last) == Newer(events, last) + (if e.id > last then [e] else [])
  {
    assert (events + [e])[..|events|] == events;
  }

  function Later(a: nat, b: nat): nat { if a > b then a else b }

  /** The newer events are a stretch of the log: from the last id on, or from
      the oldest event still kept. */
  lemma {:induction false} NewerIsStretch(log: seq<Event>, from: nat, last: nat)
    requires Numbered(log) && from <= |log| && last <= |log|
    ensures Newer(log[from..], last) == log[Later(from, last)..]
    decreases |log|
  {
    hide Newer;
    if from == |log| || last == |log| {
      NewerIsNothing(log[from..], last);
      assert log[|log|..] == [];
    } else {
      var n := |log| - 1;
      var before := log[..n];
      NewerIsStretch(before, from, last);
      NewerMore(before[from..], log[n], last);
      assert log[from..] == before[from..] + [log[n]];
      assert log[Later(from, last)..] == before[Later(from, last)..] + [log[n]];
    }
  }

  lemma {:induction false} NewerIsNothing(events: seq<Event>, last: int)
    requires forall i :: 0 <= i < |events| ==> events[i].id <= last
    ensures Newer(events, last) == []
  {
    if events != [] { NewerIsNothing(events[..|events| - 1], last); }
  }

  /** Where a poll goes on. */
  function Resume(max: nat, f: Follower): nat
    requires 0 <= f.last
  {
    var oldest := |f.log| - Least(max, |f.log|);
    if oldest > f.last then oldest else f.last
  }

  predicate Sound(f: Follower) { Numbered(f.log) && 0 <= f.last <= |f.log| }

  lemma PollIs(max: nat, f: Follower)
    requires Sound(f)
    ensures Resume(max, f) <= |f.log|
    ensures var f' := Step(max, f, Poll);
      && Newer(Kept(f.log, max), f.last) == f.log[Resume(max, f)..]
      && f'.received == f.received + f.log[Resume(max, f)..]
      && f'.last == (if Resume(max, f) < |f.log| then |f.log| else f.last)
      && f'.log == f.log && Sound(f')
  {
    NewerIsStretch(f.log, |f.log| - Least(max, |f.log|), f.last);
  }

  /** Every received event is the one of that number, and the numbers ascend
      from `start` on, up to the last id. */
  predicate InOrder(f: Follower, start: nat) {
    && start <= f.last
    && (forall i :: 0 <= i < |f.received| ==>
          start < f.received[i].id <= f.last && f.received[i].id <= |f.log| && f.received[i] == f.log[f.received[i].id - 1])
    && (forall i, k :: 0 <= i < k < |f.received| ==> f.received[i].id < f.received[k].id)
  }

  lemma MoreInOrder(f: Follower, from: nat, start: nat)
    requires Sound(f) && InOrder(f, start) && f.last <= from < |f.log|
    ensures InOrder(f.(received := f.received + f.log[from..], last := |f.log|), start)
  {
    var r := f.received + f.log[from..];
    forall i | 0 <= i < |r|
      ensures start < r[i].id <= |f.log| && r[i] == f.log[r[i].id - 1]
      ensures i < |f.received| ==> r[i].id <= f.last
      ensures i >= |f.received| ==> r[i].id == from + i - |f.received| + 1
    {
      if i >= |f.received| { assert r[i] == f.log[from + i - |f.received|]; }
    }
  }

  lemma StepInOrder(max: nat, f: Follower, act: Act, start: nat)
    requires Sound(f) && InOrder(f, start)
    ensures Sound(Step(max, f, act)) && InOrder(Step(max, f, act), start)
  {
    if act.Poll? {
      PollIs(max, f);
      var from := Resume(max, f);
      if from < |f.log| {
        MoreInOrder(f, from, start);
      } else {
        assert f.received + f.log[from..] == f.received;
      }
    }
  }

  lemma {:induction false} RunInOrder(max: nat, f: Follower, acts: seq<Act>, start: nat)
    requires Sound(f) && InOrder(f, start)
    ensures Sound(Run(max, f, acts)) && InOrder(Run(max, f, acts), start)
    decreases |acts|
  {
    hide Step;
    hide InOrder;
    if acts != [] {
      StepInOrder(max, f, acts[0], start);
      RunInOrder(max, Step(max, f, acts[0]), acts[1..], start);
    }
  }

  /** Any client gets events of the log with strictly increasing ids, however
      far it falls behind. */
  lemma IdsIncrease(max: nat, log: seq<Event>, start: nat, acts: seq<Act>)
    requires Numbered(log) && start <= |log|
    ensures var f := Run(max, Follower(log, start, []), acts);
      && (forall i, k :: 0 <= i < k < |f.received| ==> f.received[i].id < f.received[k].id)
      && (forall i :: 0 <= i < |f.received| ==>
            start < f.received[i].id <= |f.log| && f.received[i] == f.log[f.received[i].id - 1])
  {
    RunInOrder(max, Follower(log, start, []), acts, start);
  }

  /** Nothing was skipped so far. */
  predicate Complete(f: Follower, start: nat) {
    start <= f.last <= |f.log| && f.received == f.log[start..f.last]
  }

  /** One poll leaves a complete client complete exactly when it kept up. */
  lemma PollComplete(max: nat, f: Follower, start: nat)
    requires Sound(f) && Complete(f, start)
    ensures Complete(Step(max, f, Poll), start) <==> (max > 0 ==> |f.log| - f.last <= max)
  {
    PollIs(max, f);
    var from := Resume(max, f);
    if from == f.last {
      assert f.log[start..f.last] + f.log[from..] == f.log[start..];
      assert f.log[from..] == [] ==> f.log[start..] == f.log[start..f.last];
    } else if from < |f.log| {
      assert |f.log[start..f.last] + f.log[from..]| < |f.log[start..]|;
    }
  }

  lemma PublishComplete(max: nat, f: Follower, act: Act, start: nat)
    requires Sound(f) && act.Publish? && start <= f.last
    ensures Complete(Step(max, f, act), start) <==> Complete(f, start)
  {
    var f' := Step(max, f, act);
    assert f'.log[start..f.last] == f.log[start..f.last];
  }

  /** What was skipped once is never made good: the client is past it. */
  predicate Behind(f: Follower, start: nat) {
    start <= f.last && |f.received| < f.last - start
  }

  lemma IncompleteIsBehind(max: nat, f: Follower, start: nat)
    requires Sound(f) && Complete(f, start) && !Complete(Step(max, f, Poll), start)
    ensures Behind(Step(max, f, Poll), start)
  {
    PollIs(max, f);
    PollComplete(max, f, start);
  }

  lemma {:induction false} BehindForever(max: nat, f: Follower, acts: seq<Act>, start: nat)
    requires Sound(f) && Behind(f, start)
    ensures Behind(Run(max, f, acts), start)
    decreases |acts|
  {
    if acts != [] {
      if acts[0].Poll? { PollIs(max, f); }
      BehindForever(max, Step(max, f, acts[0]), acts[1..], start);
    }
  }

  lemma {:induction false} CompleteFrom(max: nat, f: Follower, acts: seq<Act>, start: nat)
    requires Sound(f) && Complete(f, start)
    ensures Complete(Run(max, f, acts), start) <==> KeepsUp(max, f, acts)
    decreases |acts|
  {
    hide Step;
    hide Complete;
    hide Behind;
    if acts != [] {
      var f1 := Step(max, f, acts[0]);
      StaysSound(max, f, acts[0]);
      CompleteBounds(f, start);
      if acts[0].Poll? {
        PollComplete(max, f, start);
        if Complete(f1, start) {
          CompleteFrom(max, f1, acts[1..], start);
        } else {
          IncompleteIsBehind(max, f, start);
          BehindForever(max, f1, acts[1..], start);
          BehindNotComplete(Run(max, f1, acts[1..]), start);
        }
      } else {
        PublishComplete(max, f, acts[0], start);
        CompleteFrom(max, f1, acts[1..], start);
      }
    }
  }

  lemma StaysSound(max: nat, f: Follower, act: Act)
    requires Sound(f)
    ensures Sound(Step(max, f, act))
  {
    if act.Poll? { PollIs(max, f); }
  }

  lemma CompleteBounds(f: Follower, start: nat)
    requires Complete(f, start)
    ensures start <= f.last
  {
  }

  lemma BehindNotComplete(f: Follower, start: nat)
    requires Behind(f, start)
    ensures !Complete(f, start)
  {
  }

  /** Over any interleaving of publications and polls, a client has received
      exactly the events after its starting id, each once and in order, up to
      its last id, if and only if it kept up at every poll. */
  lemma ReceivesAllExactly(max: nat, log: seq<Event>, start: nat, acts: seq<Act>)
    requires Numbered(log) && start <= |log|
    ensures var f := Run(max, Follower(log, start, []), acts);
      (f.last <= |f.log| && start <= f.last && f.received == f.log[start..f.last])
      <==> KeepsUp(max, Follower(log, start, []), acts)
  {
    CompleteFrom(max, Follower(log, start, []), acts, start);
  }
}
