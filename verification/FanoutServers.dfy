/**
 The two registries' subscriber lists, broadcast loops and watch loops as they are
 written: lists, channels and marks updated in place.  Their contracts use the
 definitions of the transition system, and the lemmas at the end show that a loop
 run without interruption is a run of the transition system.
 */
module FanoutServers {
  import opened Wrappers
  import opened Fanout
  import opened FanoutInvariant
  import P = FanoutProgress

  // ---------- the watch loop ----------

  lemma RoundExtends(c: Config, id: SubId, rounds: seq<Round>, sent: seq<Event>, r: Round)
    requires WatchResult(c, id, rounds, sent, None)
    ensures GoesOn(c, id, r) ==>
              WatchResult(c, id, rounds + [r], sent + (if c.matches(id, r.update) then [r.update] else []), None)
  {
    if GoesOn(c, id, r) {
      RoundGoesOn(c, id, rounds, sent, r);
    }
  }

  // ---------- the endpoint registry ----------

  class NseSubscriberNode {
    var channel: seq<Event>
    var closed: bool
    var lagged: bool

    constructor ()
      ensures View() == Chan([], false, false)
    {
      channel, closed, lagged := [], false, false;
    }

    function View(): Chan
      reads this
    {
      Chan(channel, closed, lagged)
    }
  }

  /** The subscriber list of the endpoint registry server and what works on it. */
  class NseSubscribers {
    const updateChannelSize: nat
    var subscribers: seq<NseSubscriberNode>

    ghost predicate Valid()
      reads this, subscribers
    {
      NoDup(subscribers) && forall n :: n in subscribers ==> !n.closed && |n.channel| <= updateChannelSize
    }

    constructor (size: nat)
      ensures Valid() && subscribers == [] && updateChannelSize == size
    {
      updateChannelSize := size;
      subscribers := [];
    }

    /** The broadcast job: never blocks, never removes, marks the subscribers that have no room. */
    method SendEvent(resp: Event)
      requires Valid()
      modifies subscribers
      ensures Valid()
      ensures forall k :: 0 <= k < |subscribers| ==>
                subscribers[k].View() == Offer(updateChannelSize, old(subscribers[k].View()), resp)
    {
      for curr := 0 to |subscribers|
        invariant forall k :: 0 <= k < curr ==>
                    subscribers[k].View() == Offer(updateChannelSize, old(subscribers[k].View()), resp)
        invariant forall k :: curr <= k < |subscribers| ==> subscribers[k].View() == old(subscribers[k].View())
      {
        var node := subscribers[curr];
        if |node.channel| < updateChannelSize {
          node.channel := node.channel + [resp];
        } else {
          node.lagged := true;
        }
      }
      assert forall n :: n in subscribers ==> exists k :: 0 <= k < |subscribers| && subscribers[k] == n;
    }

    /** The add job. */
    method AddSubscriber() returns (node: NseSubscriberNode)
      requires Valid()
      modifies this`subscribers
      ensures Valid() && fresh(node) && node.View() == Chan([], false, false)
      ensures subscribers == old(subscribers) + [node]
    {
      node := new NseSubscriberNode();
      subscribers := subscribers + [node];
    }

    /** The remove job: the node leaves the list before its channel is closed. */
    method RemoveSubscriber(listNode: nat, node: NseSubscriberNode)
      requires Valid() && listNode < |subscribers| && subscribers[listNode] == node
      modifies this`subscribers, node`closed
      ensures Valid() && subscribers == old(subscribers[..listNode] + subscribers[listNode + 1..])
      ensures node.View() == old(node.View()).(closed := true) && node !in subscribers
    {
      subscribers := subscribers[..listNode] + subscribers[listNode + 1..];
      node.closed := true;
    }

    /**
     The watch loop.  `rounds` lists what its iterations see: the update received, the
     mark loaded after it, and whether Send would succeed; then the channel is closed.
     */
    method Watch(c: Config, id: SubId, rounds: seq<Round>) returns (sent: seq<Event>, outcome: WatchOutcome, used: nat)
      requires c.policy.MarkLagged?
      ensures used <= |rounds| && WatchResult(c, id, rounds[..used], sent, Some(outcome))
      ensures outcome.Nil? <==> AllGoOn(c, id, rounds)
      ensures outcome.Nil? ==> used == |rounds|
    {
      sent := [];
      for i := 0 to |rounds|
        invariant WatchResult(c, id, rounds[..i], sent, None)
      {
        var r := rounds[i];
        var before := rounds[..i + 1];
        assert before[..i] == rounds[..i] && before == rounds[..i] + [r];
        if r.lagged {
          return sent, ResourceExhausted, i + 1;
        }
        RoundExtends(c, id, rounds[..i], sent, r);
        if c.matches(id, r.update) {
          if !r.sendOk {
            return sent, SendFailed, i + 1;
          }
          sent := sent + [r.update];
        }
      }
      assert rounds[..|rounds|] == rounds;
      return sent, Nil, |rounds|;
    }
  }

  // ---------- the service registry ----------

  class NsChannel {
    var buffer: seq<Event>
    var closed: bool

    constructor ()
      ensures buffer == [] && !closed
    {
      buffer, closed := [], false;
    }
  }

  /** The subscriber list of the service registry server and what works on it. */
  class NsSubscribers {
    const updateChannelSize: nat
    var subscribers: seq<NsChannel>

    ghost predicate Valid()
      reads this, subscribers
    {
      NoDup(subscribers) && forall n :: n in subscribers ==> !n.closed && |n.buffer| <= updateChannelSize
    }

    constructor (size: nat)
      ensures Valid() && subscribers == [] && updateChannelSize == size
    {
      updateChannelSize := size;
      subscribers := [];
    }

    /**
     The broadcast job from position `curr` on.  Its sends block: it stops at the first
     full channel, and is resumed there after a read.  `stop` is the length of the list
     when the job is done.
     */
    method SendEvent(resp: Event, curr: nat) returns (stop: nat)
      requires Valid() && curr <= |subscribers|
      modifies subscribers
      ensures Valid() && curr <= stop <= |subscribers|
      ensures stop < |subscribers| ==> |subscribers[stop].buffer| == updateChannelSize
      ensures forall k :: curr <= k < stop ==> subscribers[k].buffer == old(subscribers[k].buffer) + [resp]
      ensures forall k :: 0 <= k < |subscribers| && !(curr <= k < stop) ==>
                subscribers[k].buffer == old(subscribers[k].buffer)
    {
      stop := curr;
      while stop < |subscribers| && |subscribers[stop].buffer| < updateChannelSize
        invariant curr <= stop <= |subscribers|
        invariant forall k :: 0 <= k < |subscribers| ==> subscribers[k].closed == old(subscribers[k].closed)
        invariant forall k :: 0 <= k < |subscribers| ==> |subscribers[k].buffer| <= updateChannelSize
        invariant forall k :: curr <= k < stop ==> subscribers[k].buffer == old(subscribers[k].buffer) + [resp]
        invariant forall k :: 0 <= k < |subscribers| && !(curr <= k < stop) ==>
                    subscribers[k].buffer == old(subscribers[k].buffer)
      {
        subscribers[stop].buffer := subscribers[stop].buffer + [resp];
        stop := stop + 1;
      }
      assert forall n :: n in subscribers ==> exists k :: 0 <= k < |subscribers| && subscribers[k] == n;
    }

    method AddSubscriber() returns (ret: NsChannel)
      requires Valid()
      modifies this`subscribers
      ensures Valid() && fresh(ret) && ret.buffer == [] && !ret.closed
      ensures subscribers == old(subscribers) + [ret]
    {
      ret := new NsChannel();
      subscribers := subscribers + [ret];
    }

    method RemoveSubscriber(node: nat, ret: NsChannel)
      requires Valid() && node < |subscribers| && subscribers[node] == ret
      modifies this`subscribers, ret`closed
      ensures Valid() && subscribers == old(subscribers[..node] + subscribers[node + 1..])
      ensures ret.closed && ret !in subscribers
    {
      subscribers := subscribers[..node] + subscribers[node + 1..];
      ret.closed := true;
    }

    /** The watch loop: no lagged check. */
    method Watch(c: Config, id: SubId, rounds: seq<Round>) returns (sent: seq<Event>, outcome: WatchOutcome, used: nat)
      requires c.policy.Block? && forall k :: 0 <= k < |rounds| ==> !rounds[k].lagged
      ensures used <= |rounds| && WatchResult(c, id, rounds[..used], sent, Some(outcome))
      ensures outcome.Nil? <==> AllGoOn(c, id, rounds)
      ensures outcome.Nil? ==> used == |rounds|
    {
      sent := [];
      for i := 0 to |rounds|
        invariant WatchResult(c, id, rounds[..i], sent, None)
      {
        var r := rounds[i];
        var before := rounds[..i + 1];
        assert before[..i] == rounds[..i] && before == rounds[..i] + [r];
        RoundExtends(c, id, rounds[..i], sent, r);
        if c.matches(id, r.update) {
          if !r.sendOk {
            return sent, SendFailed, i + 1;
          }
          sent := sent + [r.update];
        }
      }
      assert rounds[..|rounds|] == rounds;
      return sent, Nil, |rounds|;
    }
  }

  // ---------- loops without interruption ----------

  /** The channels of ids were offered e, the others nothing. */
  ghost predicate OfferedTo(c: Config, s: State, e: Event, ids: seq<SubId>, s': State) {
    s'.subs.Keys == s.subs.Keys &&
    forall id :: id in s.subs ==>
      s'.subs[id].ch == if id in ids then Offer(c.capacity, s.subs[id].ch, e) else s.subs[id].ch
  }

  lemma OfferedMore(c: Config, s: State, e: Event, next: State, s': State, first: SubId, rest: seq<SubId>)
    requires OfferedTo(c, s, e, [first], next) && OfferedTo(c, next, e, rest, s') && first !in rest
    ensures OfferedTo(c, s, e, [first] + rest, s')
  {
    hide Offer;
  }

  lemma EndEffect(c: Config, s: State)
    requires Enabled(c, s, EndBroadcast)
    ensures var s' := Apply(c, s, EndBroadcast);
            s'.list == s.list && forall e :: OfferedTo(c, s, e, s.list[|s.list|..], s')
  {
  }

  /** The broadcast has gone past one subscriber and treated it as SendEvent does. */
  ghost predicate Offered(c: Config, s: State, next: State)
    requires s.worker.Sending? && s.worker.i < |s.list|
  {
    && next.worker == Sending(s.worker.e, s.worker.i + 1) && next.list == s.list && next.subs.Keys == s.subs.Keys
    && var id := s.list[s.worker.i];
       && id in s.subs && id !in s.list[s.worker.i + 1..]
       && next.subs[id].ch == Offer(c.capacity, s.subs[id].ch, s.worker.e)
       && forall x :: x in s.subs && x != id ==> next.subs[x] == s.subs[x]
  }

  lemma OfferedMeans(c: Config, s: State, next: State)
    requires s.worker.Sending? && s.worker.i < |s.list| && Offered(c, s, next)
    ensures next.worker == Sending(s.worker.e, s.worker.i + 1) && next.list == s.list
    ensures OfferedTo(c, s, s.worker.e, [s.list[s.worker.i]], next) && s.list[s.worker.i] !in s.list[s.worker.i + 1..]
  {
  }

  lemma OfferEffect(c: Config, s: State, id: SubId)
    requires c.policy.MarkLagged? && s.worker.Sending? && s.worker.i < |s.list| && s.list[s.worker.i] == id
    requires NoDup(s.list) && id in s.subs && !s.subs[id].ch.closed && !s.panicked
    ensures Enabled(c, s, TrySend(id))
    ensures var mid := Apply(c, s, TrySend(id));
            if HasRoom(c.capacity, s.subs[id].ch) then Offered(c, s, mid)
            else Enabled(c, mid, Mark(id)) && Offered(c, s, Apply(c, mid, Mark(id)))
  {
  }

  lemma OfferOne(c: Config, s: State) returns (acts: seq<Action>, next: State)
    requires Inv(c, s) && c.policy.MarkLagged? && s.worker.Sending? && s.worker.i < |s.list|
    ensures Run(c, s, acts) == Some(next) && Inv(c, next) && Offered(c, s, next)
    ensures next.worker == Sending(s.worker.e, s.worker.i + 1) && next.list == s.list
    ensures OfferedTo(c, s, s.worker.e, [s.list[s.worker.i]], next) && s.list[s.worker.i] !in s.list[s.worker.i + 1..]
  {
    var id := s.list[s.worker.i];
    assert id in s.list && NoDup(s.list);
    hide *;
    P.ListedFacts(c, s, id);
    OfferEffect(c, s, id);
    RunOne(c, s, TrySend(id));
    StepKeepsInv(c, s, TrySend(id));
    acts, next := [TrySend(id)], Apply(c, s, TrySend(id));
    if !HasRoom(c.capacity, s.subs[id].ch) {
      RunExtend(c, s, acts, Mark(id));
      StepKeepsInv(c, next, Mark(id));
      acts, next := acts + [Mark(id)], Apply(c, next, Mark(id));
    }
    OfferedMeans(c, s, next);
  }

  /** An uninterrupted broadcast of the transition system does what NseSubscribers.SendEvent does. */
  lemma {:induction false} UninterruptedBroadcast(c: Config, s: State) returns (acts: seq<Action>, s': State)
    requires Inv(c, s) && c.policy.MarkLagged? && s.worker.Sending?
    ensures Run(c, s, acts) == Some(s') && s'.worker.Idle? && s'.list == s.list && s.worker.i <= |s.list|
    ensures OfferedTo(c, s, s.worker.e, s.list[s.worker.i..], s')
    decreases |s.list| - s.worker.i
  {
    hide *;
    P.SendingFacts(c, s);
    var i := s.worker.i;
    if i == |s.list| {
      RunOne(c, s, EndBroadcast);
      EndEffect(c, s);
      acts, s' := [EndBroadcast], Apply(c, s, EndBroadcast);
    } else {
      var head, next := OfferOne(c, s);
      var tail: seq<Action>;
      tail, s' := UninterruptedBroadcast(c, next);
      RunConcat(c, s, head, tail);
      acts := head + tail;
      OfferedMore(c, s, s.worker.e, next, s', s.list[i], s.list[i + 1..]);
      assert s.list[i..] == [s.list[i]] + s.list[i + 1..];
    }
  }

  /** The channels of ids got e, the others nothing. */
  ghost predicate Pushed(s: State, e: Event, ids: seq<SubId>, s': State) {
    s'.subs.Keys == s.subs.Keys &&
    forall id :: id in s.subs ==> s'.subs[id].ch == if id in ids then Push(s.subs[id].ch, e) else s.subs[id].ch
  }

  lemma PushedNone(s: State, i: nat)
    requires !s.worker.Idle? && i <= |s.list|
    ensures Pushed(s, s.worker.e, s.list[i..i], s)
  {
  }

  lemma PushedMore(s: State, next: State, s': State, first: SubId, rest: seq<SubId>)
    requires !s.worker.Idle? && Pushed(s, s.worker.e, [first], next) && Pushed(next, s.worker.e, rest, s')
    requires first !in rest
    ensures Pushed(s, s.worker.e, [first] + rest, s')
  {
  }

  lemma PushEffect(c: Config, s: State, id: SubId)
    requires s.worker.Sending? && s.worker.i < |s.list| && s.list[s.worker.i] == id
    requires NoDup(s.list) && id in s.subs && !s.subs[id].ch.closed && !s.panicked && HasRoom(c.capacity, s.subs[id].ch)
    ensures Enabled(c, s, TrySend(id)) && Offered(c, s, Apply(c, s, TrySend(id)))
  {
  }

  lemma PushOne(c: Config, s: State, id: SubId) returns (next: State)
    requires Inv(c, s) && c.policy.Block? && s.worker.Sending? && s.worker.i < |s.list| && s.list[s.worker.i] == id
    requires id in s.subs && !P.IsFull(c, s, id) && !s.subs[id].ch.closed
    ensures Run(c, s, [TrySend(id)]) == Some(next) && Inv(c, next) && Offered(c, s, next)
    ensures Pushed(s, s.worker.e, [id], next) && next.subs.Keys == s.subs.Keys
    ensures next.worker == Sending(s.worker.e, s.worker.i + 1) && next.list == s.list
    ensures id !in s.list[s.worker.i + 1..]
  {
    assert NoDup(s.list) && !s.panicked;
    hide Inv, Run;
    PushEffect(c, s, id);
    StepKeepsInv(c, s, TrySend(id));
    RunOne(c, s, TrySend(id));
    next := Apply(c, s, TrySend(id));
  }

  /** In the service registry it does what NsSubscribers.SendEvent does: it gets to the first full channel. */
  lemma {:induction false} UninterruptedUntilFull(c: Config, s: State) returns (acts: seq<Action>, s': State)
    requires Inv(c, s) && c.policy.Block? && s.worker.Sending?
    ensures Run(c, s, acts) == Some(s') && s'.worker.Sending? && s'.list == s.list && s'.subs.Keys == s.subs.Keys
    ensures s.worker.i <= s'.worker.i <= |s.list|
    ensures s'.worker.i < |s.list| ==> P.IsFull(c, s', s.list[s'.worker.i])
    ensures Pushed(s, s.worker.e, s.list[s.worker.i..s'.worker.i], s')
    decreases |s.list| - s.worker.i
  {
    hide *;
    P.SendingFacts(c, s);
    var i := s.worker.i;
    RunNone(c, s);
    PushedNone(s, i);
    acts, s' := [], s;
    if i < |s.list| {
      var id := s.list[i];
      assert id in s.list;
      P.ListedFacts(c, s, id);
      if !P.IsFull(c, s, id) {
        var next := PushOne(c, s, id);
        var tail: seq<Action>;
        tail, s' := UninterruptedUntilFull(c, next);
        RunConcat(c, s, [TrySend(id)], tail);
        acts := [TrySend(id)] + tail;
        assert s.list[i..s'.worker.i] == [id] + s.list[i + 1..s'.worker.i];
        assert forall k :: i + 1 <= k < s'.worker.i ==> s.list[k] in s.list[i + 1..];
        PushedMore(s, next, s', id, s.list[i + 1..s'.worker.i]);
      }
    }
  }
}
