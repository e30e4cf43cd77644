/**
 The watch fan-out that the endpoint registry and the service registry share.

 One serial executor runs three kinds of job: add a subscriber, remove and close
 it, broadcast an event.  Every subscriber owns a bounded buffer that its own
 watch loop drains concurrently.  The registries differ in what a broadcast does
 to a full buffer: the endpoint registry marks the subscriber lagged and goes on,
 the service registry waits for room.

 The model is a transition system.  An action is one atomic step of one
 goroutine, so any interleaving of the executor with the watch loops is a
 sequence of actions.  Dequeue, lagged check and Send are three actions; a failed
 try-send and the store of the lagged mark are two.
 */
module Fanout {
  import opened Wrappers

  type SubId = nat

  /** An update as it is broadcast: the item and whether it was deleted. */
  datatype Event = Event(name: string, payload: nat, deleted: bool)

  datatype Policy = MarkLagged | Block

  /** `matches(id, e)` says whether e matches the query of watcher id. */
  datatype Config = Config(policy: Policy, capacity: nat, matches: (SubId, Event) -> bool)

  datatype Job = Add(id: SubId) | Remove(id: SubId) | Broadcast(e: Event)

  /** What the executor is doing; `i` is the position in the subscriber list. */
  datatype Worker = Idle | Sending(e: Event, i: nat) | Marking(e: Event, i: nat)

  /** A subscriber's channel and its lagged flag. */
  datatype Chan = Chan(buf: seq<Event>, closed: bool, lagged: bool)

  datatype WatchOutcome = Nil | ResourceExhausted | SendFailed

  /** Where a watch loop is. */
  datatype Pc = Joining | Reading | Checking(u: Event) | Delivering(u: Event) | Returned(outcome: WatchOutcome)

  /** One iteration of a watch loop: the update received, the mark seen, the result of Send. */
  datatype Round = Round(update: Event, lagged: bool, sendOk: bool)

  /**
   A subscriber.  The fields after `removing` are history: they record the run and
   no step depends on them.
     joined, left - length of the broadcast log when its add and remove jobs ran
     offered      - events whose broadcast reached it
     good         - the part of offered before the first event it lost
     passed       - events that its watch loop let past the lagged check
     rounds       - the finished iterations of its watch loop
   */
  datatype Sub = Sub(
    ch: Chan, pc: Pc, sent: seq<Event>, added: bool, cancelled: bool, removing: bool,
    joined: nat, left: nat, offered: seq<Event>, good: seq<Event>, passed: seq<Event>, rounds: seq<Round>)

  /** `log` (history) lists the broadcasts started so far; `panicked` is a crashed process. */
  datatype State = State(
    subs: map<SubId, Sub>, list: seq<SubId>, queue: seq<Job>, worker: Worker,
    log: seq<Event>, panicked: bool)

  const INIT: State := State(map[], [], [], Idle, [], false)

  const NEW_SUB: Sub :=
    Sub(Chan([], false, false), Joining, [], false, false, false, 0, 0, [], [], [], [])

  datatype Action =
    | Publish(e: Event)          // the storage watch queues a broadcast
    | Subscribe(id: SubId)       // a watcher queues its add job and waits
    | Cancel(id: SubId)          // its context is cancelled
    | EnqueueRemove(id: SubId)   // its clean-up goroutine queues the remove job
    | RunAdd(id: SubId)          // the executor runs an add job
    | RunRemove(id: SubId)       // the executor runs a remove job
    | StartBroadcast             // the executor takes a broadcast job
    | TrySend(id: SubId)         // the broadcast reaches a subscriber
    | Mark(id: SubId)            // it stores the lagged mark after a failed try-send
    | EndBroadcast               // it passes the end of the list
    | Join(id: SubId)            // the watcher wakes up after its add job
    | Dequeue(id: SubId)         // the watch loop receives an update
    | Check(id: SubId)           // it loads the lagged mark and matches the query
    | Deliver(id: SubId, ok: bool) // it calls Send, which succeeds or fails
    | Finish(id: SubId)          // it finds the channel closed and drained

  // ---------- one channel ----------

  predicate HasRoom(capacity: nat, ch: Chan) {
    |ch.buf| < capacity
  }

  function Push(ch: Chan, e: Event): Chan {
    ch.(buf := ch.buf + [e])
  }

  /** What an uninterrupted broadcast of e does to a subscriber of the endpoint registry. */
  function Offer(capacity: nat, ch: Chan, e: Event): Chan {
    if HasRoom(capacity, ch) then Push(ch, e) else ch.(lagged := true)
  }

  /** The elements of l other than id, in order. */
  function Without(l: seq<SubId>, id: SubId): seq<SubId> {
    if l == [] then []
    else Without(l[..|l| - 1], id) + (if l[|l| - 1] == id then [] else [l[|l| - 1]])
  }

  /** The events of es that match the query of watcher id, in order. */
  function Matching(c: Config, id: SubId, es: seq<Event>): seq<Event> {
    if es == [] then []
    else
      var last := es[|es| - 1];
      Matching(c, id, es[..|es| - 1]) + (if c.matches(id, last) then [last] else [])
  }

  // ---------- steps ----------

  predicate Enabled(c: Config, s: State, a: Action) {
    && !s.panicked
    && match a
       case Publish(_) => true
       case Subscribe(id) => id !in s.subs
       case Cancel(id) => id in s.subs
       case EnqueueRemove(id) =>
         id in s.subs && s.subs[id].cancelled && !s.subs[id].removing && !s.subs[id].pc.Joining?
       case RunAdd(id) => s.worker.Idle? && s.queue != [] && s.queue[0] == Add(id) && id in s.subs
       case RunRemove(id) => s.worker.Idle? && s.queue != [] && s.queue[0] == Remove(id) && id in s.subs
       case StartBroadcast => s.worker.Idle? && s.queue != [] && s.queue[0].Broadcast?
       case TrySend(id) =>
         && s.worker.Sending? && s.worker.i < |s.list| && s.list[s.worker.i] == id && id in s.subs
         && (c.policy.MarkLagged? || s.subs[id].ch.closed || HasRoom(c.capacity, s.subs[id].ch))
       case Mark(id) => s.worker.Marking? && s.worker.i < |s.list| && s.list[s.worker.i] == id && id in s.subs
       case EndBroadcast => s.worker.Sending? && |s.list| <= s.worker.i
       case Join(id) => id in s.subs && s.subs[id].pc.Joining? && s.subs[id].added
       case Dequeue(id) => id in s.subs && s.subs[id].pc.Reading? && s.subs[id].ch.buf != []
       case Check(id) => id in s.subs && s.subs[id].pc.Checking?
       case Deliver(id, _) => id in s.subs && s.subs[id].pc.Delivering?
       case Finish(id) => id in s.subs && s.subs[id].pc.Reading? && s.subs[id].ch.buf == [] && s.subs[id].ch.closed
  }

  function Put(s: State, id: SubId, sub: Sub): State {
    s.(subs := s.subs[id := sub])
  }

  function Closed(sub: Sub, now: nat): Sub {
    sub.(ch := sub.ch.(closed := true), left := now)
  }

  function Accept(sub: Sub, e: Event): Sub {
    sub.(ch := Push(sub.ch, e),
         offered := sub.offered + [e],
         good := if sub.good == sub.offered then sub.good + [e] else sub.good)
  }

  function Take(sub: Sub): Sub
    requires sub.ch.buf != []
  {
    sub.(pc := Checking(sub.ch.buf[0]), ch := sub.ch.(buf := sub.ch.buf[1..]))
  }

  /** The service registry has no lagged check. */
  function CheckUpdate(c: Config, id: SubId, sub: Sub): Sub
    requires sub.pc.Checking?
  {
    var u := sub.pc.u;
    if c.policy.MarkLagged? && sub.ch.lagged then
      sub.(pc := Returned(ResourceExhausted), rounds := sub.rounds + [Round(u, true, false)])
    else if c.matches(id, u) then
      sub.(pc := Delivering(u), passed := sub.passed + [u])
    else
      sub.(pc := Reading, passed := sub.passed + [u], rounds := sub.rounds + [Round(u, false, true)])
  }

  function SendUpdate(sub: Sub, ok: bool): Sub
    requires sub.pc.Delivering?
  {
    var sub' := sub.(rounds := sub.rounds + [Round(sub.pc.u, false, ok)]);
    if ok then sub'.(pc := Reading, sent := sub.sent + [sub.pc.u]) else sub'.(pc := Returned(SendFailed))
  }

  function Apply(c: Config, s: State, a: Action): State
    requires Enabled(c, s, a)
  {
    match a
    case Publish(e) => s.(queue := s.queue + [Broadcast(e)])
    case Subscribe(id) => s.(subs := s.subs[id := NEW_SUB], queue := s.queue + [Add(id)])
    case Cancel(id) => Put(s, id, s.subs[id].(cancelled := true))
    case EnqueueRemove(id) =>
      Put(s, id, s.subs[id].(removing := true)).(queue := s.queue + [Remove(id)])
    case RunAdd(id) =>
      Put(s, id, s.subs[id].(added := true, joined := |s.log|)).(list := s.list + [id], queue := s.queue[1..])
    case RunRemove(id) =>
      // Removing a list element that was never set dereferences nil.  A second close
      // of the channel panics too, unless it is guarded as in the endpoint registry.
      var crash := !s.subs[id].added || (c.policy.Block? && s.subs[id].ch.closed);
      Put(s, id, Closed(s.subs[id], |s.log|)).(
        list := Without(s.list, id), queue := s.queue[1..], panicked := crash)
    case StartBroadcast =>
      var e := s.queue[0].e;
      s.(queue := s.queue[1..], worker := Sending(e, 0), log := s.log + [e])
    case TrySend(id) =>
      var sub := s.subs[id];
      var e := s.worker.e;
      if sub.ch.closed then s.(panicked := true)
      else if HasRoom(c.capacity, sub.ch) then
        Put(s, id, Accept(sub, e)).(worker := Sending(e, s.worker.i + 1))
      else
        Put(s, id, sub.(offered := sub.offered + [e])).(worker := Marking(e, s.worker.i))
    case Mark(id) =>
      Put(s, id, s.subs[id].(ch := s.subs[id].ch.(lagged := true))).(worker := Sending(s.worker.e, s.worker.i + 1))
    case EndBroadcast => s.(worker := Idle)
    case Join(id) => Put(s, id, s.subs[id].(pc := Reading))
    case Dequeue(id) => Put(s, id, Take(s.subs[id]))
    case Check(id) => Put(s, id, CheckUpdate(c, id, s.subs[id]))
    case Deliver(id, ok) => Put(s, id, SendUpdate(s.subs[id], ok))
    case Finish(id) => Put(s, id, s.subs[id].(pc := Returned(Nil)))
  }

  // ---------- runs ----------

  /** The state after the actions, in order, from s; None if one of them is not enabled. */
  function Run(c: Config, s: State, acts: seq<Action>): (r: Option<State>) {
    if acts == [] then Some(s)
    else
      var before := Run(c, s, acts[..|acts| - 1]);
      var a := acts[|acts| - 1];
      if before.Some? && Enabled(c, before.value, a) then Some(Apply(c, before.value, a)) else None
  }

  // ---------- small facts ----------

  lemma RunNone(c: Config, s: State)
    ensures Run(c, s, []) == Some(s)
  {
  }

  lemma RunOne(c: Config, s: State, a: Action)
    requires Enabled(c, s, a)
    ensures Run(c, s, [a]) == Some(Apply(c, s, a))
  {
    assert [a][..0] == [];
  }

  lemma RunExtend(c: Config, s: State, acts: seq<Action>, a: Action)
    ensures var r := Run(c, s, acts);
            Run(c, s, acts + [a]) ==
            if r.Some? && Enabled(c, r.value, a) then Some(Apply(c, r.value, a)) else None
  {
    assert (acts + [a])[..|acts|] == acts;
  }

  /** A run goes on by one action. */
  lemma Follow(c: Config, s: State, acts: seq<Action>, mid: State, a: Action)
    returns (acts': seq<Action>, mid': State)
    requires Run(c, s, acts) == Some(mid) && Enabled(c, mid, a)
    ensures acts' == acts + [a] && mid' == Apply(c, mid, a) && Run(c, s, acts') == Some(mid')
  {
    RunExtend(c, s, acts, a);
    acts', mid' := acts + [a], Apply(c, mid, a);
  }

  /** Runs compose. */
  lemma {:induction false} RunConcat(c: Config, s: State, first: seq<Action>, second: seq<Action>)
    requires Run(c, s, first).Some?
    ensures Run(c, s, first + second) == Run(c, Run(c, s, first).value, second)
    decreases |second|
  {
    if second == [] {
      assert first + second == first;
    } else {
      var init, a := second[..|second| - 1], second[|second| - 1];
      RunConcat(c, s, first, init);
      assert first + second == (first + init) + [a];
      RunExtend(c, s, first + init, a);
    }
  }

  lemma MatchingSnoc(c: Config, id: SubId, es: seq<Event>, e: Event)
    ensures Matching(c, id, es + [e]) == Matching(c, id, es) + (if c.matches(id, e) then [e] else [])
  {
    assert (es + [e])[..|es|] == es;
  }

  lemma WithoutSnoc(l: seq<SubId>, x: SubId, id: SubId)
    ensures Without(l + [x], id) == Without(l, id) + (if x == id then [] else [x])
  {
    assert (l + [x])[..|l|] == l;
  }

  ghost predicate NoDup<T>(l: seq<T>) {
    forall i, j :: 0 <= i < j < |l| ==> l[i] != l[j]
  }

  lemma {:induction false} WithoutKeeps(l: seq<SubId>, id: SubId)
    ensures forall x :: x in Without(l, id) <==> x in l && x != id
    ensures NoDup(l) ==> NoDup(Without(l, id))
  {
    if l == [] {
    } else {
      var init, x := l[..|l| - 1], l[|l| - 1];
      WithoutKeeps(init, id);
      assert l == init + [x];
      if NoDup(l) {
        assert x !in init;
      }
    }
  }
}
