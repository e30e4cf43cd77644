/**
 When the endpoint registry loses events: an explicit error always has a cause, and
 one loss is silent.
 */
module FanoutLoss {
  import opened Wrappers
  import opened Fanout
  import opened FanoutInvariant
  import opened FanoutRuns

  // ---------- every mark has its loss ----------

  /** Action k of the run is a try-send to subscriber id, after its add job, that finds no room. */
  ghost predicate Overflows(c: Config, acts: seq<Action>, id: SubId, k: nat) {
    && k < |acts| && acts[k] == TrySend(id) && Run(c, INIT, acts[..k]).Some?
    && var before := Run(c, INIT, acts[..k]).value;
       && id in before.subs && before.subs[id].added && before.worker.Sending?
       && !HasRoom(c.capacity, before.subs[id].ch)
  }

  /** It is the first one: `good` is what was offered before it. */
  ghost predicate FirstLoss(c: Config, acts: seq<Action>, id: SubId, k: nat, sub: Sub) {
    && Overflows(c, acts, id, k)
    && var before := Run(c, INIT, acts[..k]).value;
       before.subs[id].offered == sub.good && Prefix(sub.good + [before.worker.e], sub.offered)
  }

  ghost predicate HasCause(c: Config, acts: seq<Action>, id: SubId, sub: Sub) {
    && (sub.good != sub.offered ==> exists k: nat :: FirstLoss(c, acts, id, k, sub))
    && (sub.ch.lagged ==>
          exists k: nat, m: nat :: FirstLoss(c, acts, id, k, sub) && k < m < |acts| && acts[m] == Mark(id))
  }

  /** The step is the first failed try-send of the subscriber. */
  ghost predicate LosesFirst(c: Config, s: State, a: Action, id: SubId) {
    && a == TrySend(id) && id in s.subs && s.worker.Sending? && !HasRoom(c.capacity, s.subs[id].ch)
    && s.subs[id].good == s.subs[id].offered
  }

  lemma FreshHasNoLoss(c: Config, s: State, a: Action, id: SubId)
    requires Enabled(c, s, a) && id !in s.subs && id in Apply(c, s, a).subs
    ensures Apply(c, s, a).subs[id] == NEW_SUB
  {
  }

  lemma FirstLossStep(c: Config, s: State, a: Action, id: SubId)
    requires Inv(c, s) && Enabled(c, s, a) && LosesFirst(c, s, a, id)
    ensures var s' := Apply(c, s, a);
            && id in s'.subs && s.subs[id].added
            && s'.subs[id] == s.subs[id].(offered := s.subs[id].offered + [s.worker.e])
            && !s.subs[id].ch.lagged
  {
    hide QueueOk, WindowOk, WorkerOk;
    assert s.list[s.worker.i] in s.list;
    assert SubOk(c, id, s.subs[id], MarkingFor(s, id));
  }

  /** Only a try-send to a subscriber offers it an event, and only the store of the mark sets it. */
  lemma NotOffered(c: Config, s: State, a: Action, id: SubId)
    requires Enabled(c, s, a) && id in s.subs && a != TrySend(id)
    ensures var s' := Apply(c, s, a);
            && id in s'.subs && s'.subs[id].good == s.subs[id].good && s'.subs[id].offered == s.subs[id].offered
            && (s'.subs[id].ch.lagged ==> s.subs[id].ch.lagged || a == Mark(id))
  {
    hide HasRoom, Without;
  }

  lemma OfferedAgain(c: Config, s: State, id: SubId)
    requires Enabled(c, s, TrySend(id)) && !LosesFirst(c, s, TrySend(id), id)
    ensures var s' := Apply(c, s, TrySend(id));
            && id in s'.subs && s'.subs[id].ch.lagged == s.subs[id].ch.lagged
            && var sub, sub' := s.subs[id], s'.subs[id];
               && (sub.good == sub.offered ==> sub'.good == sub'.offered)
               && (sub.good != sub.offered ==> sub'.good == sub.good && Prefix(sub.offered, sub'.offered))
  {
  }

  /** Any other step: no first loss, and only the store of the mark sets it. */
  lemma OtherStep(c: Config, s: State, a: Action, id: SubId)
    requires Enabled(c, s, a) && id in s.subs && !LosesFirst(c, s, a, id)
    ensures var s' := Apply(c, s, a);
            && id in s'.subs
            && var sub, sub' := s.subs[id], s'.subs[id];
               && (sub.good == sub.offered ==> sub'.good == sub'.offered)
               && (sub.good != sub.offered ==> sub'.good == sub.good && Prefix(sub.offered, sub'.offered))
               && (sub'.ch.lagged ==> sub.ch.lagged || a == Mark(id))
  {
    hide Apply, Enabled;
    if a == TrySend(id) {
      OfferedAgain(c, s, id);
    } else {
      NotOffered(c, s, a, id);
    }
  }

  lemma LaggedHasLost(c: Config, s: State, id: SubId)
    requires Inv(c, s) && id in s.subs
    ensures s.subs[id].ch.lagged ==> s.subs[id].good != s.subs[id].offered
    ensures Prefix(s.subs[id].good, s.subs[id].offered)
  {
    assert SubOk(c, id, s.subs[id], MarkingFor(s, id));
  }

  /** A cause stays a cause when the run goes on. */
  lemma CauseStays(c: Config, init: seq<Action>, a: Action, id: SubId, k: nat, sub: Sub, sub': Sub)
    requires FirstLoss(c, init, id, k, sub) && sub'.good == sub.good && Prefix(sub.offered, sub'.offered)
    ensures FirstLoss(c, init + [a], id, k, sub')
  {
    assert (init + [a])[..k] == init[..k];
  }

  lemma PrefixOfItself(a: seq<Event>)
    ensures Prefix(a, a)
  {
  }

  lemma CauseStep(c: Config, init: seq<Action>, s: State, a: Action, s': State, id: SubId)
    requires Run(c, INIT, init) == Some(s) && Inv(c, s) && Enabled(c, s, a) && s' == Apply(c, s, a)
    requires id in s.subs && id in s'.subs && HasCause(c, init, id, s.subs[id])
    requires s'.subs[id].ch.lagged ==> s'.subs[id].good != s'.subs[id].offered
    ensures HasCause(c, init + [a], id, s'.subs[id])
  {
    hide Inv, Enabled, Apply, Run, Prefix;
    var acts, sub, sub' := init + [a], s.subs[id], s'.subs[id];
    assert acts[..|init|] == init;
    if LosesFirst(c, s, a, id) {
      FirstLossStep(c, s, a, id);
      PrefixOfItself(sub'.offered);
      assert FirstLoss(c, acts, id, |init|, sub');
    } else {
      OtherStep(c, s, a, id);
      if sub.good != sub.offered {
        var k: nat :| FirstLoss(c, init, id, k, sub);
        CauseStays(c, init, a, id, k, sub, sub');
        if sub.ch.lagged {
          var k': nat, m: nat :| FirstLoss(c, init, id, k', sub) && k' < m < |init| && init[m] == Mark(id);
          CauseStays(c, init, a, id, k', sub, sub');
          assert acts[m] == Mark(id);
        } else if sub'.ch.lagged {
          assert acts[|init|] == Mark(id);
        }
      }
    }
  }

  lemma {:induction false} LossHasCause(c: Config, acts: seq<Action>, id: SubId)
    requires c.capacity >= 1 && Run(c, INIT, acts).Some? && id in Run(c, INIT, acts).value.subs
    ensures HasCause(c, acts, id, Run(c, INIT, acts).value.subs[id])
    decreases |acts|
  {
    var init, a := acts[..|acts| - 1], acts[|acts| - 1];
    var s, s' := Run(c, INIT, init).value, Run(c, INIT, acts).value;
    assert acts == init + [a] && acts[..|init|] == init;
    ReachableInv(c, init);
    ReachableInv(c, acts);
    LaggedHasLost(c, s', id);
    if id !in s.subs {
      FreshHasNoLoss(c, s, a, id);
    } else {
      LossHasCause(c, init, id);
      CauseStep(c, init, s, a, s', id);
    }
  }

  lemma CauseOf(c: Config, acts: seq<Action>, id: SubId, sub: Sub) returns (k: nat, m: nat)
    requires HasCause(c, acts, id, sub) && sub.ch.lagged
    ensures FirstLoss(c, acts, id, k, sub) && Overflows(c, acts, id, k) && k < m < |acts| && acts[m] == Mark(id)
  {
    k, m :| FirstLoss(c, acts, id, k, sub) && k < m < |acts| && acts[m] == Mark(id);
  }

  lemma LossInWindow(c: Config, acts: seq<Action>, id: SubId, k: nat, sub: Sub, window: seq<Event>)
    requires FirstLoss(c, acts, id, k, sub) && Prefix(sub.offered, window)
    ensures var before := Run(c, INIT, acts[..k]).value;
            var n := |before.subs[id].offered|;
            n == |sub.good| && n < |window| && window[n] == before.worker.e
  {
    hide Run;
    var before := Run(c, INIT, acts[..k]).value;
    assert (sub.good + [before.worker.e])[|sub.good|] == before.worker.e;
  }

  /**
   ResourceExhausted is returned only to a watcher whose buffer did overflow: after its
   add job a try-send found no room, its mark was stored, and the event of that very
   try-send lies in the window behind everything that was sent.
   */
  lemma {:induction false} ExhaustedMeansLoss(c: Config, acts: seq<Action>, id: SubId) returns (k: nat, m: nat)
    requires c.capacity >= 1 && Run(c, INIT, acts).Some? && id in Run(c, INIT, acts).value.subs
    requires Run(c, INIT, acts).value.subs[id].pc == Returned(ResourceExhausted)
    ensures c.policy.MarkLagged? && Overflows(c, acts, id, k) && k < m < |acts| && acts[m] == Mark(id)
    ensures var s, before := Run(c, INIT, acts).value, Run(c, INIT, acts[..k]).value;
            var sub, n := s.subs[id], |before.subs[id].offered|;
            HasWindow(s, sub) && Settled(sub) <= n < |Window(s, sub)| && Window(s, sub)[n] == before.worker.e
  {
    ReachableInv(c, acts);
    var s := Run(c, INIT, acts).value;
    var sub := s.subs[id];
    assert SubOk(c, id, sub, MarkingFor(s, id));
    assert sub.ch.lagged && c.policy.MarkLagged? && Settled(sub) <= |sub.passed| <= |sub.good|;
    hide *;
    OfferedInWindow(c, s, id);
    LossHasCause(c, acts, id);
    k, m := CauseOf(c, acts, id, sub);
    LossInWindow(c, acts, id, k, sub, Window(s, sub));
  }

  // ---------- the one silent loss ----------

  /** Broadcasts fill the buffer of a watcher that does not read. */
  lemma {:induction false} FillAll(c: Config, s: State, es: seq<Event>) returns (acts: seq<Action>, s': State)
    requires |es| <= c.capacity && Alone(s, Idle, [], [])
    ensures Run(c, s, acts) == Some(s') && Alone(s', Idle, es, es)
    decreases |es|
  {
    RunNone(c, s);
    if es == [] {
      acts, s' := [], s;
    } else {
      var init, e := es[..|es| - 1], es[|es| - 1];
      assert init + [e] == es;
      hide Run, Alone;
      var mid;
      acts, mid := FillAll(c, s, init);
      s' := FillRuns(c, mid, init, init, e);
      RunConcat(c, s, acts, Fill(e));
      acts := acts + Fill(e);
    }
  }

  /** One more event finds the buffer full. */
  lemma DropRuns(c: Config, s: State, buf: seq<Event>, log: seq<Event>, e: Event)
    returns (acts: seq<Action>, s': State)
    requires c.policy.MarkLagged? && |buf| == c.capacity && Alone(s, Idle, buf, log)
    ensures Run(c, s, acts) == Some(s') && Alone(s', Marking(e, 0), buf, log + [e])
  {
    RunNone(c, s);
    hide Run;
    acts, s' := [], s;
    acts, s' := Follow(c, s, acts, s', Publish(e));
    acts, s' := Follow(c, s, acts, s', StartBroadcast);
    acts, s' := Follow(c, s, acts, s', TrySend(0));
  }

  /** The watcher reads one update before the mark is stored. */
  lemma ReadRuns(c: Config, s: State, worker: Worker, buf: seq<Event>, log: seq<Event>)
    returns (acts: seq<Action>, s': State)
    requires buf != [] && Alone(s, worker, buf, log)
    ensures Run(c, s, acts) == Some(s') && Alone(s', worker, buf[1..], log)
  {
    RunNone(c, s);
    hide Run;
    acts, s' := [], s;
    acts, s' := Follow(c, s, acts, s', Dequeue(0));
    acts, s' := Follow(c, s, acts, s', Check(0));
    if s'.subs[0].pc.Delivering? {
      acts, s' := Follow(c, s, acts, s', Deliver(0, true));
    }
  }

  lemma {:induction false} DrainAll(c: Config, s: State, worker: Worker, buf: seq<Event>, log: seq<Event>)
    returns (acts: seq<Action>, s': State)
    requires Alone(s, worker, buf, log)
    ensures Run(c, s, acts) == Some(s') && Alone(s', worker, [], log)
    decreases |buf|
  {
    RunNone(c, s);
    hide Run, Alone;
    if buf == [] {
      acts, s' := [], s;
    } else {
      var mid;
      acts, mid := ReadRuns(c, s, worker, buf, log);
      var rest: seq<Action>;
      rest, s' := DrainAll(c, mid, worker, buf[1..], log);
      RunConcat(c, s, acts, rest);
      acts := acts + rest;
    }
  }

  /** The mark is stored when nothing is left to read, and the watcher leaves. */
  lemma LeaveRuns(c: Config, s: State, e: Event, log: seq<Event>) returns (acts: seq<Action>, s': State)
    requires c.policy.MarkLagged? && Alone(s, Marking(e, 0), [], log)
    ensures Run(c, s, acts) == Some(s') && s'.log == log && 0 in s'.subs
    ensures var sub := s'.subs[0];
            sub.pc == Returned(Nil) && sub.ch == Chan([], true, true) && sub.joined == 0 && sub.left == |log|
  {
    RunNone(c, s);
    hide Run;
    acts, s' := [], s;
    acts, s' := Follow(c, s, acts, s', Mark(0));
    acts, s' := Follow(c, s, acts, s', EndBroadcast);
    acts, s' := Follow(c, s, acts, s', Cancel(0));
    acts, s' := Follow(c, s, acts, s', EnqueueRemove(0));
    acts, s' := Follow(c, s, acts, s', RunRemove(0));
    acts, s' := Follow(c, s, acts, s', Finish(0));
  }

  /**
   The lagged mark is meant to give the client an explicit error on its next read
   (nse_server.go:166-168).  It does not when there is no next read.  For every
   capacity, whatever fills the buffer and whatever matching event comes next, some run
   ends in a watch that returned without an error and never sent that event.
   */
  lemma SilentLossHappens(c: Config, es: seq<Event>, e: Event) returns (acts: seq<Action>)
    requires c.policy.MarkLagged? && c.capacity >= 1 && |es| == c.capacity && c.matches(0, e)
    ensures Run(c, INIT, acts).Some? && 0 in Run(c, INIT, acts).value.subs
    ensures var s := Run(c, INIT, acts).value;
            var sub := s.subs[0];
            && sub.pc == Returned(Nil) && sub.ch.lagged && HasWindow(s, sub) && Window(s, sub) == es + [e]
            && sub.sent == Matching(c, 0, es) && Matching(c, 0, es + [e]) == sub.sent + [e]
  {
    var s: State, more: seq<Action>;
    acts, s := EnterRuns(c);
    more, s := FillAll(c, s, es);
    RunConcat(c, INIT, acts, more);
    acts := acts + more;
    more, s := DropRuns(c, s, es, es, e);
    RunConcat(c, INIT, acts, more);
    acts := acts + more;
    more, s := DrainAll(c, s, Marking(e, 0), es, es + [e]);
    RunConcat(c, INIT, acts, more);
    acts := acts + more;
    more, s := LeaveRuns(c, s, e, es + [e]);
    RunConcat(c, INIT, acts, more);
    acts := acts + more;
    hide Run;
    NilReturnLosesAtMostLast(c, acts, 0);
    assert Window(s, s.subs[0]) == es + [e] && (es + [e])[..|es|] == es;
    MatchingSnoc(c, 0, es, e);
  }
}
