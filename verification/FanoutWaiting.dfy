/**
 A service broadcast under every schedule: which reads it waits for, and from which
 states some schedule makes it wait for ever.
 */
module FanoutWaiting {
  import opened Wrappers
  import opened Fanout
  import opened FanoutInvariant
  import opened FanoutProgress

  // ---------- what a broadcast waits for ----------

  /** Position j of the list is still to be visited, and what is buffered there was reduced only by reads. */
  ghost predicate OnlyRead(s: State, s': State, n: nat, j: nat)
    requires j < |s.list|
  {
    var x := s.list[j];
    x in s.subs && x in s'.subs && |s'.subs[x].ch.buf| + n == |s.subs[x].ch.buf|
  }

  /** A step of a running broadcast, or beside it. */
  lemma StepBeside(c: Config, s: State, a: Action)
    requires Inv(c, s) && c.policy.Block? && s.worker.Sending? && Enabled(c, s, a) && !a.EndBroadcast?
    ensures var s' := Apply(c, s, a);
            && s'.worker.Sending? && s'.list == s.list && s'.worker.e == s.worker.e
            && s'.worker.i == s.worker.i + (if IsBroadcastStep(a) then 1 else 0) <= |s.list|
  {
    hide WindowOk, SubsOk, QueueOk;
    if a.TrySend? {
      assert s.list[s.worker.i] in s.list;
    }
  }

  lemma BufferBeside(c: Config, s: State, a: Action, j: nat)
    requires Enabled(c, s, a) && s.worker.Sending? && NoDup(s.list)
    requires s.worker.i + (if IsBroadcastStep(a) then 1 else 0) <= j < |s.list|
    requires s.list[j] in s.subs && s.list[j] in Apply(c, s, a).subs
    ensures OnlyRead(s, Apply(c, s, a), if a == Dequeue(s.list[j]) then 1 else 0, j)
  {
  }

  /** What has been read of the subscribers still to be visited, and how far the broadcast is. */
  ghost predicate Waited(s: State, s': State, acts: seq<Action>) {
    && s.worker.Sending? && s'.worker.Sending? && s'.list == s.list && s'.worker.e == s.worker.e
    && s'.worker.i == s.worker.i + BroadcastSteps(acts) <= |s.list|
    && forall j :: s'.worker.i <= j < |s.list| ==> OnlyRead(s, s', multiset(acts)[Dequeue(s.list[j])], j)
  }

  lemma ListedAll(c: Config, s: State)
    requires Inv(c, s)
    ensures NoDup(s.list) && forall j :: 0 <= j < |s.list| ==> s.list[j] in s.subs
  {
    hide WindowOk, SubsOk, QueueOk, WorkerOk, NoDup;
    assert forall j :: 0 <= j < |s.list| ==> s.list[j] in s.list;
  }

  lemma ReadsAdd(s: State, mid: State, s': State, n: nat, m: nat, j: nat)
    requires j < |s.list| && mid.list == s.list && OnlyRead(s, mid, n, j) && OnlyRead(mid, s', m, j)
    ensures OnlyRead(s, s', n + m, j)
  {
  }

  lemma CountSnoc(acts: seq<Action>, a: Action, b: Action)
    ensures multiset(acts + [a])[b] == multiset(acts)[b] + (if a == b then 1 else 0)
    ensures BroadcastSteps(acts + [a]) == BroadcastSteps(acts) + (if IsBroadcastStep(a) then 1 else 0)
  {
    assert (acts + [a])[..|acts|] == acts;
  }

  lemma WaitedMore(s: State, init: seq<Action>, mid: State, a: Action, s': State)
    requires Waited(s, mid, init) && s'.worker.Sending? && s'.list == mid.list && s'.worker.e == mid.worker.e
    requires s'.worker.i == mid.worker.i + (if IsBroadcastStep(a) then 1 else 0) <= |mid.list|
    requires forall j :: s'.worker.i <= j < |mid.list| ==>
               OnlyRead(mid, s', if a == Dequeue(mid.list[j]) then 1 else 0, j)
    ensures Waited(s, s', init + [a])
  {
    hide OnlyRead, IsBroadcastStep, BroadcastSteps;
    CountSnoc(init, a, a);
    forall j | s'.worker.i <= j < |s.list|
      ensures OnlyRead(s, s', multiset(init + [a])[Dequeue(s.list[j])], j)
    {
      var b := Dequeue(s.list[j]);
      CountSnoc(init, a, b);
      ReadsAdd(s, mid, s', multiset(init)[b], if a == b then 1 else 0, j);
    }
  }

  lemma WaitedStep(c: Config, s: State, init: seq<Action>, mid: State, a: Action)
    requires Inv(c, mid) && c.policy.Block? && Waited(s, mid, init)
    requires Enabled(c, mid, a) && !a.EndBroadcast? && Inv(c, Apply(c, mid, a))
    ensures Waited(s, Apply(c, mid, a), init + [a])
  {
    var s' := Apply(c, mid, a);
    assert mid.worker.Sending? && mid.list == s.list;
    hide *;
    StepBeside(c, mid, a);
    ListedAll(c, mid);
    ListedAll(c, s');
    forall j | s'.worker.i <= j < |mid.list|
      ensures OnlyRead(mid, s', if a == Dequeue(mid.list[j]) then 1 else 0, j)
    {
      BufferBeside(c, mid, a, j);
    }
    WaitedMore(s, init, mid, a, s');
  }

  lemma WaitedNone(c: Config, s: State)
    requires Inv(c, s) && s.worker.Sending?
    ensures Waited(s, s, [])
  {
    ListedAll(c, s);
  }

  lemma {:induction false} OnlyReadsDrain(c: Config, s: State, acts: seq<Action>)
    requires Inv(c, s) && c.policy.Block? && s.worker.Sending?
    requires Run(c, s, acts).Some? && EndBroadcast !in acts
    ensures Inv(c, Run(c, s, acts).value) && Waited(s, Run(c, s, acts).value, acts)
    decreases |acts|
  {
    hide Inv, Enabled, Apply, Waited;
    RunKeepsInv(c, s, acts);
    if acts == [] {
      WaitedNone(c, s);
    } else {
      var init, a := acts[..|acts| - 1], acts[|acts| - 1];
      assert acts == init + [a];
      OnlyReadsDrain(c, s, init);
      WaitedStep(c, s, init, Run(c, s, init).value, a);
    }
  }

  lemma VisitIffRoom(c: Config, s: State)
    requires !s.panicked && c.policy.Block? && s.worker.Sending? && s.worker.i < |s.list|
    requires var x := s.list[s.worker.i]; x in s.subs && !s.subs[x].ch.closed
    ensures Enabled(c, s, NextStep(s)) <==> !IsFull(c, s, s.list[s.worker.i])
  {
  }

  /** The next step of a broadcast is not enabled exactly if it has reached a full subscriber. */
  lemma WaitsIffFull(c: Config, s: State)
    requires Inv(c, s) && c.policy.Block? && s.worker.Sending?
    ensures !Enabled(c, s, NextStep(s)) <==> s.worker.i < |s.list| && IsFull(c, s, s.list[s.worker.i])
  {
    SendingFacts(c, s);
    if s.worker.i < |s.list| {
      hide Inv, Enabled;
      assert s.list[s.worker.i] in s.list;
      ListedFacts(c, s, s.list[s.worker.i]);
      VisitIffRoom(c, s);
    }
  }

  /**
   What a service broadcast waits for, whatever the watch loops do: until it ends it is at
   the position that its steps have brought it to, at most one step for each subscriber
   still to be visited, and its next step is not enabled if and only if the subscriber it
   has reached was full at the beginning and has not read since.  So in every schedule it
   needs no more than one read from each full channel.
   */
  lemma {:induction false} BroadcastWaitsIff(c: Config, s: State, acts: seq<Action>)
    requires Inv(c, s) && c.policy.Block? && s.worker.Sending?
    requires Run(c, s, acts).Some? && EndBroadcast !in acts
    ensures var s' := Run(c, s, acts).value;
            && s'.worker.Sending? && s'.list == s.list && s'.worker.e == s.worker.e
            && s'.worker.i == s.worker.i + BroadcastSteps(acts) <= |s.list|
            && (!Enabled(c, s', NextStep(s')) <==>
                  && s'.worker.i < |s.list|
                  && var x := s.list[s'.worker.i]; IsFull(c, s, x) && Dequeue(x) !in acts)
  {
    OnlyReadsDrain(c, s, acts);
    var s' := Run(c, s, acts).value;
    hide Run, Inv, Enabled;
    WaitsIffFull(c, s');
    var j := s'.worker.i;
    if j < |s.list| {
      var x := s.list[j];
      ListedFacts(c, s, x);
      ListedFacts(c, s', x);
      assert OnlyRead(s, s', multiset(acts)[Dequeue(x)], j);
      assert Dequeue(x) in acts <==> multiset(acts)[Dequeue(x)] > 0;
    }
  }

  // ---------- when a schedule can make it wait for ever ----------

  /** Some schedule gets the running broadcast stuck. */
  ghost predicate CanGetStuck(c: Config, s: State) {
    exists acts :: EndBroadcast !in acts && Run(c, s, acts).Some? && Stuck(c, Run(c, s, acts).value)
  }

  /** The subscriber is full, and its watch has returned or is about to send: the Send may fail. */
  predicate MayLeaveFull(c: Config, s: State, x: SubId) {
    && IsFull(c, s, x)
    && match s.subs[x].pc
       case Returned(_) => true
       case Delivering(_) => true
       case Checking(u) => c.matches(x, u)
       case _ => false
  }

  ghost predicate AtRisk(c: Config, s: State) {
    s.worker.Sending? && exists j :: s.worker.i <= j < |s.list| && MayLeaveFull(c, s, s.list[j])
  }

  lemma OwnRiskIsOld(c: Config, s: State, a: Action, x: SubId)
    requires Enabled(c, s, a) && c.policy.Block? && c.capacity >= 1 && x in s.subs && |s.subs[x].ch.buf| <= c.capacity
    requires IsFor(a, x) && a != TrySend(x) && MayLeaveFull(c, Apply(c, s, a), x)
    ensures MayLeaveFull(c, s, x)
  {
    hide Without;
  }

  lemma RiskIsOld(c: Config, s: State, a: Action, x: SubId)
    requires Enabled(c, s, a) && c.policy.Block? && c.capacity >= 1 && x in s.subs && |s.subs[x].ch.buf| <= c.capacity
    requires a != TrySend(x) && MayLeaveFull(c, Apply(c, s, a), x)
    ensures MayLeaveFull(c, s, x)
  {
    hide Apply, Enabled;
    if IsFor(a, x) {
      OwnRiskIsOld(c, s, a, x);
    } else {
      OthersUntouched(c, s, a, x);
    }
  }

  lemma SendsAtPosition(c: Config, s: State, x: SubId)
    requires Enabled(c, s, TrySend(x))
    ensures !s.worker.Idle? && s.worker.i < |s.list| && s.list[s.worker.i] == x
  {
  }

  lemma RiskyPosition(c: Config, s: State) returns (j: nat)
    requires AtRisk(c, s)
    ensures s.worker.Sending? && s.worker.i <= j < |s.list| && MayLeaveFull(c, s, s.list[j]) && s.list[j] in s.list
  {
    j :| s.worker.i <= j < |s.list| && MayLeaveFull(c, s, s.list[j]);
  }

  lemma RiskAt(c: Config, s: State, j: nat)
    requires s.worker.Sending? && s.worker.i <= j < |s.list| && MayLeaveFull(c, s, s.list[j])
    ensures AtRisk(c, s)
  {
  }

  lemma NotSentTo(c: Config, s: State, a: Action, j: nat)
    requires Enabled(c, s, a) && s.worker.Sending? && NoDup(s.list)
    requires s.worker.i + (if IsBroadcastStep(a) then 1 else 0) <= j < |s.list|
    ensures a != TrySend(s.list[j])
  {
    if a == TrySend(s.list[j]) {
      SendsAtPosition(c, s, s.list[j]);
    }
  }

  lemma RiskStep(c: Config, s: State, a: Action)
    requires Inv(c, s) && c.policy.Block? && s.worker.Sending? && Enabled(c, s, a) && !a.EndBroadcast?
    requires AtRisk(c, Apply(c, s, a))
    ensures AtRisk(c, s)
  {
    var s' := Apply(c, s, a);
    hide *;
    StepBeside(c, s, a);
    ListedAll(c, s);
    var j := RiskyPosition(c, s');
    ListedFacts(c, s, s.list[j]);
    NotSentTo(c, s, a, j);
    RiskIsOld(c, s, a, s.list[j]);
    RiskAt(c, s, j);
  }

  lemma {:induction false} StaysWithoutRisk(c: Config, s: State, acts: seq<Action>)
    requires Inv(c, s) && c.policy.Block? && s.worker.Sending? && !AtRisk(c, s)
    requires Run(c, s, acts).Some? && EndBroadcast !in acts
    ensures var s' := Run(c, s, acts).value; Inv(c, s') && s'.worker.Sending? && !AtRisk(c, s')
    decreases |acts|
  {
    if acts == [] {
    } else {
      var init, a := acts[..|acts| - 1], acts[|acts| - 1];
      assert a in acts && forall b :: b in init ==> b in acts;
      StaysWithoutRisk(c, s, init);
      var mid := Run(c, s, init).value;
      hide AtRisk;
      StepKeepsInv(c, mid, a);
      StepBeside(c, mid, a);
      if AtRisk(c, Apply(c, mid, a)) {
        RiskStep(c, mid, a);
      }
    }
  }

  lemma StuckIsRisk(c: Config, s: State)
    requires Stuck(c, s)
    ensures AtRisk(c, s)
  {
    var j :| s.worker.i <= j < |s.list| && Clogged(c, s, s.list[j]);
    assert MayLeaveFull(c, s, s.list[j]);
  }

  /** The step moves only the watch loop of x. */
  ghost predicate OnlyMoves(s: State, s': State, x: SubId, pc: Pc) {
    && x in s.subs && x in s'.subs && !s'.panicked && s'.list == s.list && s'.worker == s.worker
    && s'.subs[x].ch == s.subs[x].ch && s'.subs[x].pc == pc
  }

  lemma CheckMoves(c: Config, s: State, x: SubId)
    requires !s.panicked && c.policy.Block? && x in s.subs && s.subs[x].pc.Checking? && c.matches(x, s.subs[x].pc.u)
    ensures Enabled(c, s, Check(x)) && OnlyMoves(s, Apply(c, s, Check(x)), x, Delivering(s.subs[x].pc.u))
  {
  }

  lemma DeliverMoves(c: Config, s: State, x: SubId)
    requires !s.panicked && x in s.subs && s.subs[x].pc.Delivering?
    ensures Enabled(c, s, Deliver(x, false)) && OnlyMoves(s, Apply(c, s, Deliver(x, false)), x, Returned(SendFailed))
  {
  }

  /** The run leaves subscriber j of the list full, with its watch returned. */
  lemma LeavesStuck(c: Config, s: State, s': State, j: nat, pc: Pc)
    requires s.worker.Sending? && s.worker.i <= j < |s.list| && IsFull(c, s, s.list[j])
    requires OnlyMoves(s, s', s.list[j], pc) && pc.Returned?
    ensures Stuck(c, s')
  {
    assert Clogged(c, s', s'.list[j]);
  }

  lemma DeliverGetsStuck(c: Config, s: State, j: nat) returns (acts: seq<Action>)
    requires !s.panicked && s.worker.Sending? && s.worker.i <= j < |s.list|
    requires IsFull(c, s, s.list[j]) && s.subs[s.list[j]].pc.Delivering?
    ensures EndBroadcast !in acts && Run(c, s, acts).Some? && Stuck(c, Run(c, s, acts).value)
  {
    var a := Deliver(s.list[j], false);
    DeliverMoves(c, s, s.list[j]);
    LeavesStuck(c, s, Apply(c, s, a), j, Returned(SendFailed));
    hide Run, Enabled, Apply;
    RunOne(c, s, a);
    acts := [a];
  }

  lemma CheckGetsStuck(c: Config, s: State, j: nat) returns (acts: seq<Action>)
    requires !s.panicked && c.policy.Block? && s.worker.Sending? && s.worker.i <= j < |s.list|
    requires IsFull(c, s, s.list[j]) && s.subs[s.list[j]].pc.Checking?
    requires c.matches(s.list[j], s.subs[s.list[j]].pc.u)
    ensures EndBroadcast !in acts && Run(c, s, acts).Some? && Stuck(c, Run(c, s, acts).value)
  {
    var a := Check(s.list[j]);
    CheckMoves(c, s, s.list[j]);
    var mid := Apply(c, s, a);
    hide Run, Enabled, Apply, Stuck;
    var rest := DeliverGetsStuck(c, mid, j);
    RunOne(c, s, a);
    RunConcat(c, s, [a], rest);
    acts := [a] + rest;
  }

  /** A watcher that is about to send at a full channel can fail to. */
  lemma RiskGetsStuck(c: Config, s: State) returns (acts: seq<Action>)
    requires !s.panicked && c.policy.Block? && AtRisk(c, s)
    ensures EndBroadcast !in acts && Run(c, s, acts).Some? && Stuck(c, Run(c, s, acts).value)
  {
    var j :| s.worker.i <= j < |s.list| && MayLeaveFull(c, s, s.list[j]);
    if s.subs[s.list[j]].pc.Checking? {
      acts := CheckGetsStuck(c, s, j);
    } else if s.subs[s.list[j]].pc.Delivering? {
      acts := DeliverGetsStuck(c, s, j);
    } else {
      RunNone(c, s);
      assert Clogged(c, s, s.list[j]);
      acts := [];
    }
  }

  /**
   Exactly when some schedule makes a running service broadcast wait for ever: when a
   subscriber still to be visited is full and its watch has returned, or is about to send
   to a client that may have gone.  Otherwise no schedule does.
   */
  lemma {:induction false} CanGetStuckIff(c: Config, s: State)
    requires Inv(c, s) && c.policy.Block? && s.worker.Sending?
    ensures CanGetStuck(c, s) <==> AtRisk(c, s)
  {
    assert !s.panicked;
    if AtRisk(c, s) {
      var acts := RiskGetsStuck(c, s);
    } else if CanGetStuck(c, s) {
      var acts :| EndBroadcast !in acts && Run(c, s, acts).Some? && Stuck(c, Run(c, s, acts).value);
      StuckIsRisk(c, Run(c, s, acts).value);
      StaysWithoutRisk(c, s, acts);
    }
  }
}
