/**
 What every run of the fan-out guarantees, for any number of watchers, any
 capacity of at least one and any interleaving.
 */
module FanoutRuns {
  import opened Wrappers
  import opened Fanout
  import opened FanoutInvariant

  lemma {:induction false} ReachableInv(c: Config, acts: seq<Action>)
    requires c.capacity >= 1 && Run(c, INIT, acts).Some?
    ensures Inv(c, Run(c, INIT, acts).value)
  {
    InitInv(c);
    RunKeepsInv(c, INIT, acts);
  }

  // ---------- no gaps ----------

  /** The broadcasts between the add job of a subscriber and its remove job, or now. */
  function Window(s: State, sub: Sub): seq<Event>
    requires sub.joined <= |s.log| && (sub.ch.closed ==> sub.joined <= sub.left <= |s.log|)
  {
    if sub.ch.closed then s.log[sub.joined..sub.left] else s.log[sub.joined..]
  }

  ghost predicate HasWindow(s: State, sub: Sub) {
    sub.joined <= |s.log| && (sub.ch.closed ==> sub.joined <= sub.left <= |s.log|)
  }

  /** All of the window reached the subscriber, or all but the event whose broadcast is running. */
  ghost predicate AllButRunning(s: State, offered: seq<Event>, window: seq<Event>) {
    offered == window || (!s.worker.Idle? && window == offered + [s.worker.e])
  }

  lemma ReachedPart(c: Config, s: State, id: SubId)
    requires ListOk(s) && WindowOk(s) && WorkerOk(c, s) && id in s.subs && s.subs[id].added
    ensures HasWindow(s, s.subs[id]) && AllButRunning(s, s.subs[id].offered, Window(s, s.subs[id]))
    ensures s.subs[id].ch.closed ==> s.subs[id].offered == Window(s, s.subs[id])
  {
    var sub := s.subs[id];
    if !sub.ch.closed {
      assert id in s.list;
      var j :| 0 <= j < |s.list| && s.list[j] == id;
      if Seen(s, j) == |s.log| - 1 {
        assert s.log == s.log[..|s.log| - 1] + [s.worker.e];
        assert s.log[sub.joined..] == s.log[sub.joined..|s.log| - 1] + [s.worker.e];
      } else {
        assert s.log[sub.joined..] == s.log[sub.joined..|s.log|];
      }
    }
  }

  lemma AllButRunningIsPrefix(s: State, offered: seq<Event>, window: seq<Event>)
    requires AllButRunning(s, offered, window)
    ensures Prefix(offered, window)
  {
  }

  /** What reached a subscriber is all of its window, except perhaps the event whose broadcast is running. */
  lemma OfferedInWindow(c: Config, s: State, id: SubId)
    requires Inv(c, s) && id in s.subs && s.subs[id].added
    ensures HasWindow(s, s.subs[id]) && Prefix(s.subs[id].offered, Window(s, s.subs[id]))
    ensures AllButRunning(s, s.subs[id].offered, Window(s, s.subs[id]))
    ensures s.subs[id].ch.closed ==> s.subs[id].offered == Window(s, s.subs[id])
    ensures s.worker.Idle? ==> s.subs[id].offered == Window(s, s.subs[id])
  {
    assert ListOk(s) && WindowOk(s) && WorkerOk(c, s);
    hide Inv, ListOk, WindowOk, WorkerOk, Window, HasWindow, Prefix;
    ReachedPart(c, s, id);
    AllButRunningIsPrefix(s, s.subs[id].offered, Window(s, s.subs[id]));
  }

  lemma PrefixOfPrefix(a: seq<Event>, b: seq<Event>, d: seq<Event>)
    requires Prefix(a, b) && Prefix(b, d)
    ensures Prefix(a, d)
  {
  }

  /**
   No gap: in every run the updates sent to a watcher are the matching part of a
   contiguous prefix of the events broadcast since it subscribed, in order, even
   though the failed try-send and the mark are separate steps.
   */
  lemma {:induction false} SentIsContiguousPrefix(c: Config, acts: seq<Action>, id: SubId)
    requires c.capacity >= 1 && Run(c, INIT, acts).Some?
    requires id in Run(c, INIT, acts).value.subs && Run(c, INIT, acts).value.subs[id].added
    ensures var s := Run(c, INIT, acts).value;
            var sub := s.subs[id];
            && HasWindow(s, sub) && Settled(sub) <= |Window(s, sub)|
            && sub.sent == Matching(c, id, Window(s, sub)[..Settled(sub)])
  {
    ReachableInv(c, acts);
    var s := Run(c, INIT, acts).value;
    var sub := s.subs[id];
    OfferedInWindow(c, s, id);
    assert SubOk(c, id, sub, MarkingFor(s, id));
    PrefixOfPrefix(sub.passed, sub.good, sub.offered);
    PrefixOfPrefix(sub.passed, sub.offered, Window(s, sub));
    assert sub.passed[..Settled(sub)] == Window(s, sub)[..Settled(sub)];
  }

  /**
   The endpoint registry's watch returned without an error.  Then every event of its
   window but at most the last one passed: none is missing when the subscriber is not
   lagged, exactly the last one is when it is.
   */
  lemma {:induction false} NilReturnLosesAtMostLast(c: Config, acts: seq<Action>, id: SubId)
    requires c.capacity >= 1 && Run(c, INIT, acts).Some?
    requires id in Run(c, INIT, acts).value.subs && Run(c, INIT, acts).value.subs[id].pc == Returned(Nil)
    ensures var s := Run(c, INIT, acts).value;
            var sub := s.subs[id];
            && HasWindow(s, sub)
            && (!sub.ch.lagged ==> sub.sent == Matching(c, id, Window(s, sub)))
            && (sub.ch.lagged ==>
                  (Window(s, sub) != [] && sub.sent == Matching(c, id, Window(s, sub)[..|Window(s, sub)| - 1])))
  {
    ReachableInv(c, acts);
    var s := Run(c, INIT, acts).value;
    var sub := s.subs[id];
    OfferedInWindow(c, s, id);
    assert SubOk(c, id, sub, MarkingFor(s, id));
    assert MarkingFor(s, id).None? by {
      assert id !in s.list;
    }
    assert sub.passed[..|sub.passed|] == sub.passed == Pending(sub);
    if sub.good != sub.offered {
      assert sub.passed == sub.good == sub.offered[..|sub.offered| - 1];
    }
  }

  /**
   When a watch returns without an error, the client has every matching event exactly
   if the subscriber is not marked or the last event of its window does not match.
   */
  lemma {:induction false} NilReturnCompleteIff(c: Config, acts: seq<Action>, id: SubId)
    requires c.capacity >= 1 && Run(c, INIT, acts).Some?
    requires id in Run(c, INIT, acts).value.subs && Run(c, INIT, acts).value.subs[id].pc == Returned(Nil)
    ensures var s := Run(c, INIT, acts).value;
            var sub := s.subs[id];
            && HasWindow(s, sub)
            && var w := Window(s, sub);
               && (sub.ch.lagged ==> w != [])
               && (sub.sent == Matching(c, id, w) <==> !sub.ch.lagged || !c.matches(id, w[|w| - 1]))
  {
    NilReturnLosesAtMostLast(c, acts, id);
    var s := Run(c, INIT, acts).value;
    var w := Window(s, s.subs[id]);
    if s.subs[id].ch.lagged {
      assert w == w[..|w| - 1] + [w[|w| - 1]];
      MatchingSnoc(c, id, w[..|w| - 1], w[|w| - 1]);
    }
  }

  // ---------- after the mark ----------

  lemma LaggedOwnStep(c: Config, s: State, a: Action, id: SubId)
    requires IsFor(a, id) && c.policy.MarkLagged? && Enabled(c, s, a) && id in s.subs && s.subs[id].ch.lagged
    ensures var s' := Apply(c, s, a);
            && id in s'.subs && s'.subs[id].ch.lagged
            && var sub, sub' := s.subs[id], s'.subs[id];
               && (sub'.pc.Delivering? ==> sub'.pc == sub.pc && sub'.sent == sub.sent)
               && (sub'.sent == sub.sent ||
                   (sub.pc.Delivering? && !sub'.pc.Delivering? && sub'.sent == sub.sent + [sub.pc.u]))
  {
    hide HasRoom, Without;
  }

  lemma LaggedStep(c: Config, s: State, a: Action, id: SubId)
    requires c.policy.MarkLagged? && Enabled(c, s, a) && id in s.subs && s.subs[id].ch.lagged
    ensures var s' := Apply(c, s, a);
            && id in s'.subs && s'.subs[id].ch.lagged
            && var sub, sub' := s.subs[id], s'.subs[id];
               && (sub'.pc.Delivering? ==> sub'.pc == sub.pc && sub'.sent == sub.sent)
               && (sub'.sent == sub.sent ||
                   (sub.pc.Delivering? && !sub'.pc.Delivering? && sub'.sent == sub.sent + [sub.pc.u]))
  {
    hide Apply, Enabled;
    if IsFor(a, id) {
      LaggedOwnStep(c, s, a, id);
    } else {
      OthersUntouched(c, s, a, id);
    }
  }

  /** Once the mark is stored, at most the update already past the check is still sent. */
  lemma {:induction false} MarkedSendsAtMostOne(c: Config, acts: seq<Action>, more: seq<Action>, id: SubId)
    requires c.capacity >= 1 && c.policy.MarkLagged?
    requires Run(c, INIT, acts + more).Some? && Run(c, INIT, acts).Some?
    requires id in Run(c, INIT, acts).value.subs && Run(c, INIT, acts).value.subs[id].ch.lagged
    ensures var before := Run(c, INIT, acts).value.subs[id];
            var s' := Run(c, INIT, acts + more).value;
            && id in s'.subs && s'.subs[id].ch.lagged
            && var after := s'.subs[id];
               || after.sent == before.sent
               || (before.pc.Delivering? && !after.pc.Delivering? && after.sent == before.sent + [before.pc.u])
    ensures var before := Run(c, INIT, acts).value.subs[id];
            var after := Run(c, INIT, acts + more).value.subs[id];
            after.pc.Delivering? ==> after.pc == before.pc && after.sent == before.sent
    decreases |more|
  {
    if more == [] {
      assert acts + more == acts;
    } else {
      var init, a := more[..|more| - 1], more[|more| - 1];
      assert acts + more == (acts + init) + [a];
      RunExtend(c, INIT, acts + init, a);
      MarkedSendsAtMostOne(c, acts, init, id);
      LaggedStep(c, Run(c, INIT, acts + init).value, a, id);
    }
  }

  // ---------- the executor protocol ----------

  /** How often a remove job of id has closed its channel in a run. */
  function Closings(acts: seq<Action>, id: SubId): nat {
    if acts == [] then 0
    else Closings(acts[..|acts| - 1], id) + (if acts[|acts| - 1] == RunRemove(id) then 1 else 0)
  }

  lemma OthersDoNotClose(c: Config, s: State, a: Action)
    requires Enabled(c, s, a) && !a.RunRemove?
    ensures var s' := Apply(c, s, a);
            forall id :: (id in s'.subs && s'.subs[id].ch.closed) <==> (id in s.subs && s.subs[id].ch.closed)
  {
    if IsWatchStep(a) {
      WatchStepIsLocal(c, s, a);
      hide Apply, Enabled;
    }
  }

  lemma ClosingStep(c: Config, s: State, a: Action)
    requires Enabled(c, s, a) && QueueOk(s) && LivesOk(s)
    ensures var s' := Apply(c, s, a);
            forall id :: (id in s'.subs && s'.subs[id].ch.closed) <==>
                         (id in s.subs && s.subs[id].ch.closed) || a == RunRemove(id)
    ensures a.RunRemove? ==> a.id in s.subs && !s.subs[a.id].ch.closed
  {
    if a.RunRemove? {
      assert s.queue[0] in s.queue;
    } else {
      hide QueueOk, LivesOk;
      OthersDoNotClose(c, s, a);
    }
  }

  /**
   In every run no step panics: the list holds exactly the channels that were added
   and not closed, once each, so no broadcast sends on a closed channel and every
   remove job runs after its add job.  Each channel is closed at most once, and
   exactly once if it is closed.
   */
  lemma {:induction false} ExecutorProtocol(c: Config, acts: seq<Action>)
    requires c.capacity >= 1 && Run(c, INIT, acts).Some?
    ensures var s := Run(c, INIT, acts).value;
            && !s.panicked && NoDup(s.list)
            && (forall id :: id in s.list <==> id in s.subs && s.subs[id].added && !s.subs[id].ch.closed)
            && (forall id :: Remove(id) in s.queue ==> id in s.list)
            && (forall id :: Closings(acts, id) == if id in s.subs && s.subs[id].ch.closed then 1 else 0)
    decreases |acts|
  {
    ReachableInv(c, acts);
    var s := Run(c, INIT, acts).value;
    assert LivesOk(s);
    if acts == [] {
    } else {
      var init, a := acts[..|acts| - 1], acts[|acts| - 1];
      ExecutorProtocol(c, init);
      ReachableInv(c, init);
      ClosingStep(c, Run(c, INIT, init).value, a);
    }
  }

  // ---------- the watch loop ----------

  /**
   The finished iterations of a watch loop got exactly the updates that passed its check, in
   order: without the one that is on its way through Send, and with one that was refused.
   */
  ghost predicate RoundsFollow(sub: Sub) {
    if sub.pc.Delivering? then
      sub.passed != [] && Updates(sub.rounds) == sub.passed[..|sub.passed| - 1]
    else if sub.pc == Returned(ResourceExhausted) then
      sub.rounds != [] && Updates(sub.rounds[..|sub.rounds| - 1]) == sub.passed
    else
      Updates(sub.rounds) == sub.passed
  }

  lemma CheckFollows(c: Config, id: SubId, sub: Sub)
    requires sub.pc.Checking? && RoundsFollow(sub)
    ensures RoundsFollow(CheckUpdate(c, id, sub))
  {
    var sub' := CheckUpdate(c, id, sub);
    if sub'.pc.Delivering? {
      assert sub'.passed[..|sub.passed|] == sub.passed;
    } else if sub'.pc.Reading? {
      UpdatesSnoc(sub.rounds, Round(sub.pc.u, false, true));
    } else {
      assert sub'.rounds[..|sub.rounds|] == sub.rounds;
    }
  }

  lemma DeliverFollows(sub: Sub, ok: bool)
    requires sub.pc.Delivering? && RoundsFollow(sub) && sub.passed[|sub.passed| - 1] == sub.pc.u
    ensures RoundsFollow(SendUpdate(sub, ok))
  {
    UpdatesSnoc(sub.rounds, Round(sub.pc.u, false, ok));
  }

  lemma OthersKeepRounds(c: Config, s: State, a: Action, id: SubId)
    requires Enabled(c, s, a) && id in Apply(c, s, a).subs && a != Check(id) && !(a.Deliver? && a.id == id)
    ensures var sub' := Apply(c, s, a).subs[id];
            if id in s.subs then
              && sub'.rounds == s.subs[id].rounds && sub'.passed == s.subs[id].passed
              && (sub'.pc.Delivering? <==> s.subs[id].pc.Delivering?)
              && (sub'.pc == Returned(ResourceExhausted) <==> s.subs[id].pc == Returned(ResourceExhausted))
            else sub' == NEW_SUB
  {
    hide HasRoom, Without;
  }

  lemma RoundsFollowStep(c: Config, s: State, a: Action, id: SubId)
    requires Enabled(c, s, a) && id in Apply(c, s, a).subs
    requires id in s.subs ==> RoundsFollow(s.subs[id]) && SentOk(c, id, s.subs[id])
    ensures RoundsFollow(Apply(c, s, a).subs[id])
  {
    if a == Check(id) {
      CheckFollows(c, id, s.subs[id]);
    } else if a.Deliver? && a.id == id {
      DeliverFollows(s.subs[id], a.ok);
    } else {
      OthersKeepRounds(c, s, a, id);
    }
  }

  lemma {:induction false} RunFollowsRounds(c: Config, acts: seq<Action>, id: SubId)
    requires c.capacity >= 1 && Run(c, INIT, acts).Some? && id in Run(c, INIT, acts).value.subs
    ensures RoundsFollow(Run(c, INIT, acts).value.subs[id])
    decreases |acts|
  {
    var init, a := acts[..|acts| - 1], acts[|acts| - 1];
    var s := Run(c, INIT, init).value;
    hide RoundsFollow, Enabled, Apply;
    if id in s.subs {
      RunFollowsRounds(c, init, id);
      ReachableInv(c, init);
      assert SubOk(c, id, s.subs[id], MarkingFor(s, id));
    }
    RoundsFollowStep(c, s, a, id);
  }

  /**
   In every run a watch loop has sent and returned what its iterations determine, and these
   got exactly the updates that it received, in order.
   */
  lemma {:induction false} WatchFollowsRounds(c: Config, acts: seq<Action>, id: SubId)
    requires c.capacity >= 1 && Run(c, INIT, acts).Some? && id in Run(c, INIT, acts).value.subs
    ensures var sub := Run(c, INIT, acts).value.subs[id];
            RoundsFollow(sub) && WatchResult(c, id, sub.rounds, sub.sent, Result(sub.pc))
  {
    ReachableInv(c, acts);
    RunFollowsRounds(c, acts, id);
    var s := Run(c, INIT, acts).value;
    assert SubOk(c, id, s.subs[id], MarkingFor(s, id));
  }

  // ---------- the blocking form ----------

  /**
   The service registry loses nothing.  In every state, also of a broadcast that is stuck,
   sent, in hand and buffered are exactly the events enqueued, in order, and those are all
   events of the window but perhaps the one whose broadcast is running.
   */
  lemma {:induction false} BlockingIsLossless(c: Config, acts: seq<Action>, id: SubId)
    requires c.capacity >= 1 && c.policy.Block? && Run(c, INIT, acts).Some?
    requires id in Run(c, INIT, acts).value.subs && Run(c, INIT, acts).value.subs[id].added
    ensures var s := Run(c, INIT, acts).value;
            var sub := s.subs[id];
            && HasWindow(s, sub)
            && sub.passed + Held(sub.pc) + sub.ch.buf == sub.offered
            && (sub.offered == Window(s, sub)
             || (!s.worker.Idle? && Window(s, sub) == sub.offered + [s.worker.e]))
            && sub.sent == Matching(c, id, sub.passed[..Settled(sub)])
            && sub.pc != Returned(ResourceExhausted)
            && (sub.pc == Returned(Nil) ==> sub.sent == Matching(c, id, Window(s, sub)))
  {
    ReachableInv(c, acts);
    var s := Run(c, INIT, acts).value;
    var sub := s.subs[id];
    assert SubOk(c, id, sub, MarkingFor(s, id));
    OfferedInWindow(c, s, id);
    assert sub.passed[..|sub.passed|] == sub.passed;
  }

  // ---------- one watcher alone ----------

  /** Watcher 0 is the only one and waits for an update; no job is queued. */
  ghost predicate Alone(s: State, worker: Worker, buf: seq<Event>, log: seq<Event>) {
    && s.list == [0] && s.queue == [] && s.worker == worker && !s.panicked && s.log == log && 0 in s.subs
    && var sub := s.subs[0];
       && sub.ch == Chan(buf, false, false) && sub.pc.Reading? && sub.added && sub.joined == 0
       && !sub.cancelled && !sub.removing
  }

  /** A first watcher subscribes. */
  lemma EnterRuns(c: Config) returns (acts: seq<Action>, s: State)
    ensures Run(c, INIT, acts) == Some(s) && Alone(s, Idle, [], [])
  {
    RunNone(c, INIT);
    hide Run;
    acts, s := [], INIT;
    acts, s := Follow(c, INIT, acts, s, Subscribe(0));
    acts, s := Follow(c, INIT, acts, s, RunAdd(0));
    acts, s := Follow(c, INIT, acts, s, Join(0));
  }

  /** A whole broadcast that finds room. */
  function Fill(e: Event): seq<Action> {
    [Publish(e), StartBroadcast, TrySend(0), EndBroadcast]
  }

  lemma FillRuns(c: Config, s: State, buf: seq<Event>, log: seq<Event>, e: Event) returns (s': State)
    requires |buf| < c.capacity && Alone(s, Idle, buf, log)
    ensures Run(c, s, Fill(e)) == Some(s') && Alone(s', Idle, buf + [e], log + [e])
  {
    RunNone(c, s);
    hide Run;
    var acts := [];
    s' := s;
    acts, s' := Follow(c, s, acts, s', Publish(e));
    acts, s' := Follow(c, s, acts, s', StartBroadcast);
    acts, s' := Follow(c, s, acts, s', TrySend(0));
    acts, s' := Follow(c, s, acts, s', EndBroadcast);
    assert acts == Fill(e);
  }
}
