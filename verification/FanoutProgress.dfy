/**
 Progress of a running broadcast.  In the endpoint registry it never waits.  In the
 service registry it waits for room, and it can end exactly if no subscriber that is
 still to be visited has a full buffer that nobody reads any more.
 */
module FanoutProgress {
  import opened Wrappers
  import opened Fanout
  import opened FanoutInvariant
  import opened FanoutRuns

  // ---------- the endpoint registry ----------

  predicate IsBroadcastStep(a: Action) {
    a.TrySend? || a.Mark? || a.EndBroadcast?
  }

  /** The next step of the broadcast that is running. */
  function NextStep(s: State): Action
    requires !s.worker.Idle? && (s.worker.Marking? ==> s.worker.i < |s.list|)
  {
    if s.worker.Marking? then Mark(s.list[s.worker.i])
    else if s.worker.i < |s.list| then TrySend(s.list[s.worker.i])
    else EndBroadcast
  }

  /** An upper bound on the steps that the running broadcast still takes. */
  function StepsLeft(s: State): int {
    match s.worker
    case Idle => 0
    case Sending(_, i) => 2 * (|s.list| - i) + 1
    case Marking(_, i) => 2 * (|s.list| - i)
  }

  function BroadcastSteps(acts: seq<Action>): nat {
    if acts == [] then 0
    else BroadcastSteps(acts[..|acts| - 1]) + (if IsBroadcastStep(acts[|acts| - 1]) then 1 else 0)
  }

  /** Whatever the watch loops do, the next step of a running broadcast is enabled. */
  lemma BroadcastIsEnabled(c: Config, s: State)
    requires Inv(c, s) && c.policy.MarkLagged? && !s.worker.Idle?
    ensures Enabled(c, s, NextStep(s))
  {
    if s.worker.i < |s.list| {
      assert s.list[s.worker.i] in s.list;
    }
  }

  lemma StepsLeftStep(c: Config, s: State, a: Action)
    requires Enabled(c, s, a) && !s.worker.Idle? && s.worker.i <= |s.list|
    requires a.TrySend? ==> !s.subs[a.id].ch.closed
    ensures StepsLeft(Apply(c, s, a)) + (if IsBroadcastStep(a) then 1 else 0) <= StepsLeft(s)
    ensures !Apply(c, s, a).worker.Idle? || a.EndBroadcast?
  {
  }

  /**
   A broadcast ends without waiting for any reader: in every reachable state in which
   one is running its next step is enabled, and whatever the others do in between it
   takes no more than two steps for each subscriber still to be visited, and one to end.
   */
  lemma {:induction false} BroadcastNeverWaits(c: Config, s: State, acts: seq<Action>)
    requires Inv(c, s) && c.policy.MarkLagged? && !s.worker.Idle?
    requires Run(c, s, acts).Some? && EndBroadcast !in acts
    ensures var s' := Run(c, s, acts).value;
            && !s'.worker.Idle? && (s'.worker.Marking? ==> s'.worker.i < |s'.list|)
            && Enabled(c, s', NextStep(s'))
            && BroadcastSteps(acts) + StepsLeft(s') <= StepsLeft(s)
            && StepsLeft(s') >= 1
    decreases |acts|
  {
    if acts == [] {
    } else {
      var init, a := acts[..|acts| - 1], acts[|acts| - 1];
      assert a in acts;
      BroadcastNeverWaits(c, s, init);
      RunKeepsInv(c, s, init);
      RunKeepsInv(c, s, acts);
      var mid := Run(c, s, init).value;
      assert a.TrySend? ==> a.id in mid.list;
      StepsLeftStep(c, mid, a);
    }
    BroadcastIsEnabled(c, Run(c, s, acts).value);
  }

  /** The total number of buffered events of the listed subscribers. */
  function Buffered(s: State, l: seq<SubId>): nat
    requires forall id :: id in l ==> id in s.subs
  {
    if l == [] then 0 else |s.subs[l[0]].ch.buf| + Buffered(s, l[1..])
  }

  lemma {:induction false} SumIsBounded(s: State, l: seq<SubId>, bound: nat)
    requires forall id :: id in l ==> id in s.subs && |s.subs[id].ch.buf| <= bound
    ensures Buffered(s, l) <= bound * |l|
  {
    if l == [] {
    } else {
      SumIsBounded(s, l[1..], bound);
      assert bound * |l| == bound * |l[1..]| + bound;
    }
  }

  /** Memory is bounded: at most capacity many events for each subscriber. */
  lemma {:induction false} BufferedIsBounded(c: Config, acts: seq<Action>, l: seq<SubId>)
    requires c.capacity >= 1 && Run(c, INIT, acts).Some?
    requires forall id :: id in l ==> id in Run(c, INIT, acts).value.subs
    ensures Buffered(Run(c, INIT, acts).value, l) <= c.capacity * |l|
  {
    var s := Run(c, INIT, acts).value;
    ReachableInv(c, acts);
    forall id | id in l ensures |s.subs[id].ch.buf| <= c.capacity {
      assert SubOk(c, id, s.subs[id], MarkingFor(s, id));
    }
    SumIsBounded(s, l, c.capacity);
  }

  // ---------- the service registry ----------

  /** Its buffer is full and its watch loop has returned. */
  predicate Clogged(c: Config, s: State, id: SubId) {
    id in s.subs && !HasRoom(c.capacity, s.subs[id].ch) && s.subs[id].pc.Returned?
  }

  /** The running broadcast still has to visit a subscriber that nobody will drain. */
  ghost predicate Stuck(c: Config, s: State) {
    s.worker.Sending? && exists j :: s.worker.i <= j < |s.list| && Clogged(c, s, s.list[j])
  }

  lemma StuckStep(c: Config, s: State, a: Action)
    requires Inv(c, s) && c.policy.Block? && Stuck(c, s) && Enabled(c, s, a)
    ensures var s' := Apply(c, s, a);
            Stuck(c, s') && s'.list == s.list && s'.log == s.log && s.queue <= s'.queue
  {
    hide WindowOk, SubsOk, WorkerOk, QueueOk;
    var j :| s.worker.i <= j < |s.list| && Clogged(c, s, s.list[j]);
    var s' := Apply(c, s, a);
    assert s.list[j] in s.list && !s.subs[s.list[j]].ch.closed;
    assert s'.list == s.list && s'.worker.Sending? && s'.worker.i <= j;
    assert Clogged(c, s', s'.list[j]);
  }

  /**
   A stuck broadcast is stuck for ever.  No later job runs, so the remove job that
   would take the clogged subscriber out of the list does not run either.
   */
  lemma {:induction false} StuckForever(c: Config, s: State, acts: seq<Action>)
    requires Inv(c, s) && c.policy.Block? && Stuck(c, s) && Run(c, s, acts).Some?
    ensures var s' := Run(c, s, acts).value;
            Stuck(c, s') && s'.list == s.list && s'.log == s.log && s.queue <= s'.queue
    decreases |acts|
  {
    if acts == [] {
    } else {
      var init := acts[..|acts| - 1];
      StuckForever(c, s, init);
      RunKeepsInv(c, s, init);
      StuckStep(c, Run(c, s, init).value, acts[|acts| - 1]);
    }
  }

  /** Some continuation ends the running broadcast. */
  ghost predicate CanEnd(c: Config, s: State) {
    exists acts :: Run(c, s, acts).Some? && Run(c, s, acts).value.worker.Idle?
  }

  function Rank(pc: Pc): nat {
    match pc
    case Joining => 1
    case Reading => 0
    case Checking(_) => 2
    case Delivering(_) => 1
    case Returned(_) => 0
  }

  /** The next step of a watch loop whose Send succeeds. */
  function WatchStep(s: State, id: SubId): Action
    requires id in s.subs && !s.subs[id].pc.Returned?
  {
    match s.subs[id].pc
    case Joining => Join(id)
    case Reading => Dequeue(id)
    case Checking(_) => Check(id)
    case Delivering(_) => Deliver(id, true)
  }

  lemma WatchAdvances(c: Config, s: State, id: SubId)
    requires c.policy.Block? && !s.panicked && id in s.subs && s.subs[id].added
    requires !s.subs[id].pc.Returned? && s.subs[id].ch.buf != []
    ensures Enabled(c, s, WatchStep(s, id))
    ensures var s' := Apply(c, s, WatchStep(s, id));
            && id in s'.subs && s' == Put(s, id, s'.subs[id])
            && var sub, sub' := s.subs[id], s'.subs[id];
               if sub.pc.Reading? then |sub'.ch.buf| < |sub.ch.buf|
               else sub'.ch == sub.ch && Rank(sub'.pc) < Rank(sub.pc) && !sub'.pc.Returned?
  {
  }

  lemma ListedFacts(c: Config, s: State, id: SubId)
    requires Inv(c, s) && id in s.list
    ensures !s.panicked && c.capacity >= 1 && id in s.subs
    ensures s.subs[id].added && !s.subs[id].ch.closed && |s.subs[id].ch.buf| <= c.capacity
  {
    assert SubOk(c, id, s.subs[id], MarkingFor(s, id));
  }

  /** A watcher that has not returned can read once more and then has room; nothing else changes. */
  lemma {:induction false} ReadOnce(c: Config, s: State, id: SubId) returns (acts: seq<Action>, s': State)
    requires Inv(c, s) && c.policy.Block? && id in s.list && id in s.subs
    requires !HasRoom(c.capacity, s.subs[id].ch) && !s.subs[id].pc.Returned?
    ensures Run(c, s, acts) == Some(s') && Inv(c, s') && id in s'.subs && s' == Put(s, id, s'.subs[id])
    ensures HasRoom(c.capacity, s'.subs[id].ch)
    ensures forall x :: multiset(acts)[Dequeue(x)] <= if x == id then 1 else 0
    ensures |acts| <= Rank(s.subs[id].pc) + 1
    decreases Rank(s.subs[id].pc)
  {
    hide Inv, Run, Enabled, Apply;
    ListedFacts(c, s, id);
    var a := WatchStep(s, id);
    WatchAdvances(c, s, id);
    var next := Apply(c, s, a);
    StepKeepsInv(c, s, a);
    RunOne(c, s, a);
    if s.subs[id].pc.Reading? {
      return [a], next;
    }
    var rest: seq<Action>;
    rest, s' := ReadOnce(c, next, id);
    RunConcat(c, s, [a], rest);
    acts := [a] + rest;
  }

  lemma SendingFacts(c: Config, s: State)
    requires Inv(c, s) && s.worker.Sending?
    ensures s.worker.i <= |s.list|
    ensures s.worker.i < |s.list| && !Stuck(c, s) ==> !Clogged(c, s, s.list[s.worker.i])
    ensures s.worker.i == |s.list| ==> Enabled(c, s, EndBroadcast) && Apply(c, s, EndBroadcast).worker.Idle?
  {
  }

  /** The subscriber must be read before it can take another event. */
  predicate IsFull(c: Config, s: State, id: SubId) {
    id in s.subs && !HasRoom(c.capacity, s.subs[id].ch)
  }

  lemma RoomFacts(c: Config, s: State, id: SubId)
    requires id in s.subs && !Clogged(c, s, id)
    ensures IsFull(c, s, id) <==> !HasRoom(c.capacity, s.subs[id].ch)
    ensures IsFull(c, s, id) ==> !s.subs[id].pc.Returned?
    ensures Put(s, id, s.subs[id]) == s && Rank(s.subs[id].pc) <= 2
  {
    assert s.subs == s.subs[id := s.subs[id]];
  }

  /** Nothing is read if the subscriber has room. */
  lemma MakeRoom(c: Config, s: State, id: SubId) returns (acts: seq<Action>, s': State)
    requires Inv(c, s) && c.policy.Block? && id in s.list && id in s.subs && !Clogged(c, s, id)
    ensures Run(c, s, acts) == Some(s') && Inv(c, s') && id in s'.subs && s' == Put(s, id, s'.subs[id])
    ensures HasRoom(c.capacity, s'.subs[id].ch)
    ensures forall x :: multiset(acts)[Dequeue(x)] <= if x == id && IsFull(c, s, id) then 1 else 0
    ensures |acts| <= 3
  {
    hide *;
    RoomFacts(c, s, id);
    if IsFull(c, s, id) {
      acts, s' := ReadOnce(c, s, id);
    } else {
      RunNone(c, s);
      acts, s' := [], s;
    }
  }

  lemma VisitKeepsUnstuck(c: Config, s: State, roomy: State, id: SubId)
    requires Inv(c, s) && Inv(c, roomy) && s.worker.Sending? && s.worker.i < |s.list| && !Stuck(c, s)
    requires id == s.list[s.worker.i] && id in s.subs && id in roomy.subs && roomy == Put(s, id, roomy.subs[id])
    requires HasRoom(c.capacity, roomy.subs[id].ch)
    ensures Enabled(c, roomy, TrySend(id))
    ensures var next := Apply(c, roomy, TrySend(id));
            && !Stuck(c, next) && next.worker == Sending(s.worker.e, s.worker.i + 1) && next.list == s.list
            && id !in next.list[next.worker.i..]
            && forall x :: x != id ==> IsFull(c, next, x) == IsFull(c, s, x)
  {
    assert id in s.list && !roomy.subs[id].ch.closed;
    var next := Apply(c, roomy, TrySend(id));
    forall j | next.worker.i <= j < |next.list| ensures !Clogged(c, next, next.list[j]) {
      assert s.list[j] != id && !Clogged(c, s, s.list[j]);
    }
  }

  /** The broadcast gets past the subscriber it has reached, after one read if that is full. */
  lemma Visit(c: Config, s: State) returns (acts: seq<Action>, next: State)
    requires Inv(c, s) && c.policy.Block? && s.worker.Sending? && s.worker.i < |s.list| && !Stuck(c, s)
    ensures Run(c, s, acts) == Some(next) && Inv(c, next) && !Stuck(c, next)
    ensures next.worker == Sending(s.worker.e, s.worker.i + 1) && next.list == s.list
    ensures var id := s.list[s.worker.i];
            && id !in next.list[next.worker.i..]
            && (forall x :: x != id ==> IsFull(c, next, x) == IsFull(c, s, x))
            && (forall x :: multiset(acts)[Dequeue(x)] <= if x == id && IsFull(c, s, id) then 1 else 0)
    ensures |acts| <= 4
  {
    hide Inv, Run, Enabled, Apply, Stuck, IsFull, Put, HasRoom;
    SendingFacts(c, s);
    var id := s.list[s.worker.i];
    assert id in s.list;
    ListedFacts(c, s, id);
    var head, roomy := MakeRoom(c, s, id);
    VisitKeepsUnstuck(c, s, roomy, id);
    next := Apply(c, roomy, TrySend(id));
    RunExtend(c, s, head, TrySend(id));
    StepKeepsInv(c, roomy, TrySend(id));
    acts := head + [TrySend(id)];
  }

  /** If no subscriber to be visited is clogged, the broadcast can end after one read from each full buffer. */
  lemma {:induction false} EndBroadcastRun(c: Config, s: State) returns (acts: seq<Action>, s': State)
    requires Inv(c, s) && c.policy.Block? && s.worker.Sending? && !Stuck(c, s)
    ensures Run(c, s, acts) == Some(s') && s'.worker.Idle?
    ensures s.worker.i <= |s.list| && |acts| <= 4 * (|s.list| - s.worker.i) + 1
    ensures forall x :: multiset(acts)[Dequeue(x)] <=
              if x in s.list[s.worker.i..] && IsFull(c, s, x) then 1 else 0
    decreases |s.list| - s.worker.i
  {
    hide Inv, Run, Enabled, Apply, Stuck, IsFull;
    SendingFacts(c, s);
    var i := s.worker.i;
    if i == |s.list| {
      RunOne(c, s, EndBroadcast);
      return [EndBroadcast], Apply(c, s, EndBroadcast);
    }
    var head, next := Visit(c, s);
    var tail: seq<Action>;
    tail, s' := EndBroadcastRun(c, next);
    RunConcat(c, s, head, tail);
    acts := head + tail;
    assert s.list[i..] == [s.list[i]] + next.list[i + 1..];
  }

  /**
   Exactly when a blocked broadcast can still end, by some schedule: no subscriber still to
   be visited is clogged.
   */
  lemma {:induction false} BroadcastEndsIff(c: Config, s: State)
    requires Inv(c, s) && c.policy.Block? && s.worker.Sending?
    ensures CanEnd(c, s) <==> !Stuck(c, s)
  {
    if Stuck(c, s) {
      forall acts | Run(c, s, acts).Some? ensures !Run(c, s, acts).value.worker.Idle? {
        StuckForever(c, s, acts);
      }
    } else {
      var acts, s' := EndBroadcastRun(c, s);
    }
  }

  // ---------- a stuck broadcast is reachable ----------

  /** Watcher 0 is alone, its Send failed, and n events lie in its buffer. */
  predicate LeftBehind(s: State, n: nat) {
    && s.list == [0] && s.queue == [] && s.worker.Idle? && !s.panicked
    && 0 in s.subs && s.subs[0].pc == Returned(SendFailed) && |s.subs[0].ch.buf| == n && !s.subs[0].ch.closed
  }

  lemma FailSend(c: Config, start: State, e: Event) returns (acts: seq<Action>, s: State)
    requires c.policy.Block? && c.matches(0, e) && Alone(start, Idle, [e], [e])
    ensures Run(c, start, acts) == Some(s) && LeftBehind(s, 0)
  {
    RunNone(c, start);
    hide Run;
    acts, s := [], start;
    acts, s := Follow(c, start, acts, s, Dequeue(0));
    acts, s := Follow(c, start, acts, s, Check(0));
    acts, s := Follow(c, start, acts, s, Deliver(0, false));
  }

  lemma SendFails(c: Config, e: Event) returns (acts: seq<Action>, s: State)
    requires c.policy.Block? && c.capacity >= 1 && c.matches(0, e)
    ensures Run(c, INIT, acts) == Some(s) && LeftBehind(s, 0)
  {
    var entered, filled, more;
    acts, entered := EnterRuns(c);
    filled := FillRuns(c, entered, [], [], e);
    RunConcat(c, INIT, acts, Fill(e));
    more, s := FailSend(c, filled, e);
    RunConcat(c, INIT, acts + Fill(e), more);
    acts := acts + Fill(e) + more;
  }

  lemma FillOne(c: Config, s: State, n: nat, e: Event) returns (s': State)
    requires c.policy.Block? && n < c.capacity && LeftBehind(s, n)
    ensures Run(c, s, Fill(e)) == Some(s') && LeftBehind(s', n + 1)
  {
    assert Run(c, s, []) == Some(s);
    hide Run;
    var acts := [];
    s' := s;
    acts, s' := Follow(c, s, acts, s', Publish(e));
    acts, s' := Follow(c, s, acts, s', StartBroadcast);
    acts, s' := Follow(c, s, acts, s', TrySend(0));
    acts, s' := Follow(c, s, acts, s', EndBroadcast);
    assert acts == Fill(e);
  }

  lemma {:induction false} FillAll(c: Config, s: State, n: nat, e: Event) returns (acts: seq<Action>, s': State)
    requires c.policy.Block? && n <= c.capacity && LeftBehind(s, n)
    ensures Run(c, s, acts) == Some(s') && LeftBehind(s', c.capacity)
    decreases c.capacity - n
  {
    if n == c.capacity {
      acts, s' := [], s;
    } else {
      var mid := FillOne(c, s, n, e);
      var rest: seq<Action>;
      rest, s' := FillAll(c, mid, n + 1, e);
      RunConcat(c, s, Fill(e), rest);
      acts := Fill(e) + rest;
    }
  }

  /**
   For every capacity some run of the service registry ends in a stuck broadcast: a
   watcher leaves on a Send error while the broadcasts go on, and its buffer fills up
   before its remove job runs.
   */
  lemma DeadlockReachable(c: Config, e: Event)
    requires c.policy.Block? && c.capacity >= 1 && c.matches(0, e)
    ensures exists acts :: Run(c, INIT, acts).Some? && Stuck(c, Run(c, INIT, acts).value)
  {
    var first, left := SendFails(c, e);
    var more, full := FillAll(c, left, 0, e);
    RunConcat(c, INIT, first, more);
    var acts, s := first + more, full;
    acts, s := Follow(c, INIT, acts, s, Publish(e));
    acts, s := Follow(c, INIT, acts, s, StartBroadcast);
    assert Clogged(c, s, s.list[0]);
  }
}
