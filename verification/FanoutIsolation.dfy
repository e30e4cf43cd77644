/**
 Endpoint watchers are isolated from each other: deleting every action of all
 other watchers from a run leaves a run, and the watcher that is kept ends in the
 same state.  What it is sent depends on the broadcast order and its own steps.
 */
module FanoutIsolation {
  import opened Wrappers
  import opened Fanout
  import opened FanoutInvariant
  import opened FanoutRuns

  /** The action belongs to watcher id or to everybody. */
  predicate Concerns(a: Action, id: SubId) {
    a.Publish? || a.StartBroadcast? || a.EndBroadcast? || a.id == id
  }

  /** The actions that concern watcher id, in order. */
  function Project(acts: seq<Action>, id: SubId): seq<Action> {
    if acts == [] then []
    else
      var last := acts[|acts| - 1];
      Project(acts[..|acts| - 1], id) + (if Concerns(last, id) then [last] else [])
  }

  function Keep(l: seq<SubId>, id: SubId): seq<SubId> {
    if l == [] then []
    else Keep(l[..|l| - 1], id) + (if l[|l| - 1] == id then [id] else [])
  }

  function JobsOf(queue: seq<Job>, id: SubId): seq<Job> {
    if queue == [] then []
    else (if queue[0].Broadcast? || queue[0].id == id then [queue[0]] else []) + JobsOf(queue[1..], id)
  }

  function FirstOf(l: seq<SubId>, i: nat): seq<SubId> {
    if i <= |l| then l[..i] else l
  }

  function WorkerOf(s: State, id: SubId): Worker {
    match s.worker
    case Idle => Idle
    case Sending(e, i) => Sending(e, |Keep(FirstOf(s.list, i), id)|)
    case Marking(e, i) =>
      if i < |s.list| && s.list[i] == id then Marking(e, |Keep(FirstOf(s.list, i), id)|)
      else Sending(e, |Keep(FirstOf(s.list, i), id)|)
  }

  /** The state of a system whose only subscriber is id. */
  function ViewOf(s: State, id: SubId): State {
    State(
      if id in s.subs then map[id := s.subs[id]] else map[],
      Keep(s.list, id), JobsOf(s.queue, id), WorkerOf(s, id), s.log, s.panicked)
  }

  lemma KeepSnoc(l: seq<SubId>, x: SubId, id: SubId)
    ensures Keep(l + [x], id) == Keep(l, id) + (if x == id then [id] else [])
  {
    assert (l + [x])[..|l|] == l;
  }

  lemma {:induction false} KeepPrefix(l: seq<SubId>, i: nat, id: SubId)
    requires i <= |l|
    ensures |Keep(l[..i], id)| <= |Keep(l, id)|
    ensures forall k :: 0 <= k < |Keep(l, id)| ==> Keep(l, id)[k] == id
    decreases |l|
  {
    if l == [] {
    } else if i == |l| {
      assert l[..i] == l;
      KeepPrefix(l[..|l| - 1], 0, id);
    } else {
      var init := l[..|l| - 1];
      KeepPrefix(init, i, id);
      assert init[..i] == l[..i];
    }
  }

  lemma {:induction false} KeepWithout(l: seq<SubId>, x: SubId, id: SubId)
    ensures Keep(Without(l, x), id) == if x == id then [] else Keep(l, id)
  {
    if l == [] {
    } else {
      var init, last := l[..|l| - 1], l[|l| - 1];
      KeepWithout(init, x, id);
      if last == x {
        assert Without(l, x) == Without(init, x);
      } else {
        KeepSnoc(Without(init, x), last, id);
      }
    }
  }

  lemma {:induction false} WithoutKeep(l: seq<SubId>, id: SubId)
    ensures Without(Keep(l, id), id) == []
  {
    if l == [] {
    } else {
      var rest := Keep(l[..|l| - 1], id);
      WithoutKeep(l[..|l| - 1], id);
      WithoutSnoc(rest, id, id);
      assert Keep(l, id) == rest || Keep(l, id) == rest + [id];
    }
  }

  lemma {:induction false} JobsSnoc(queue: seq<Job>, job: Job, id: SubId)
    ensures JobsOf(queue + [job], id) ==
            JobsOf(queue, id) + (if job.Broadcast? || job.id == id then [job] else [])
  {
    if queue == [] {
    } else {
      JobsSnoc(queue[1..], job, id);
      assert (queue + [job])[1..] == queue[1..] + [job];
    }
  }

  lemma JobsHead(queue: seq<Job>, id: SubId)
    requires queue != [] && (queue[0].Broadcast? || queue[0].id == id)
    ensures JobsOf(queue, id) != [] && JobsOf(queue, id)[0] == queue[0]
    ensures JobsOf(queue, id)[1..] == JobsOf(queue[1..], id)
  {
  }

  /** In the view of watcher id an action of its own has its effect, another's action has none. */
  ghost predicate Simulated(c: Config, s: State, a: Action, id: SubId)
    requires Enabled(c, s, a)
  {
    if Concerns(a, id) then
      Enabled(c, ViewOf(s, id), a) && Apply(c, ViewOf(s, id), a) == ViewOf(Apply(c, s, a), id)
    else
      ViewOf(Apply(c, s, a), id) == ViewOf(s, id)
  }

  lemma QueueingSimulated(c: Config, s: State, a: Action, id: SubId)
    requires Enabled(c, s, a) && (a.Publish? || a.Subscribe? || a.EnqueueRemove?)
    ensures Simulated(c, s, a, id)
  {
    var s' := Apply(c, s, a);
    JobsSnoc(s.queue, s'.queue[|s.queue|], id);
  }

  lemma RunAddSimulated(c: Config, s: State, x: SubId, id: SubId)
    requires Enabled(c, s, RunAdd(x))
    ensures Simulated(c, s, RunAdd(x), id)
  {
    KeepSnoc(s.list, x, id);
    if x == id {
      JobsHead(s.queue, id);
    }
  }

  lemma RunRemoveSimulated(c: Config, s: State, x: SubId, id: SubId)
    requires c.policy.MarkLagged? && Enabled(c, s, RunRemove(x)) && s.subs[x].added
    ensures Simulated(c, s, RunRemove(x), id)
  {
    hide Keep, Without;
    KeepWithout(s.list, x, id);
    var s', v := Apply(c, s, RunRemove(x)), ViewOf(s, id);
    assert s'.list == Without(s.list, x) && s'.subs == s.subs[x := s'.subs[x]];
    if x == id {
      JobsHead(s.queue, id);
      WithoutKeep(s.list, id);
      assert Enabled(c, v, RunRemove(id));
      assert Apply(c, v, RunRemove(id)).subs == map[id := s'.subs[id]];
    }
  }

  lemma StartBroadcastSimulated(c: Config, s: State, id: SubId)
    requires Enabled(c, s, StartBroadcast)
    ensures Simulated(c, s, StartBroadcast, id)
  {
    JobsHead(s.queue, id);
    assert FirstOf(s.list, 0) == [];
  }

  /** The position of a visited subscriber in its own view. */
  lemma PositionInView(s: State, id: SubId)
    requires !s.worker.Idle? && s.worker.i < |s.list|
    ensures var i, l := s.worker.i, s.list;
            && Keep(l[..i + 1], id) == Keep(l[..i], id) + (if l[i] == id then [id] else [])
            && (l[i] == id ==>
                 (|Keep(l[..i], id)| < |Keep(l, id)| && Keep(l, id)[|Keep(l[..i], id)|] == id))
  {
    var i, l := s.worker.i, s.list;
    assert l[..i + 1] == l[..i] + [l[i]];
    KeepSnoc(l[..i], l[i], id);
    KeepPrefix(l, i + 1, id);
  }

  lemma TrySendSimulated(c: Config, s: State, x: SubId, id: SubId)
    requires c.policy.MarkLagged? && Enabled(c, s, TrySend(x)) && !s.subs[x].ch.closed
    ensures Simulated(c, s, TrySend(x), id)
  {
    PositionInView(s, id);
  }

  lemma MarkSimulated(c: Config, s: State, x: SubId, id: SubId)
    requires Enabled(c, s, Mark(x))
    ensures Simulated(c, s, Mark(x), id)
  {
    PositionInView(s, id);
  }

  lemma EndBroadcastSimulated(c: Config, s: State, id: SubId)
    requires Enabled(c, s, EndBroadcast)
    ensures Simulated(c, s, EndBroadcast, id)
  {
    assert FirstOf(s.list, s.worker.i) == s.list;
  }

  lemma WatchStepSimulated(c: Config, s: State, a: Action, id: SubId)
    requires Enabled(c, s, a) && IsWatchStep(a)
    ensures Simulated(c, s, a, id)
  {
  }

  lemma StepSimulated(c: Config, s: State, a: Action, id: SubId)
    requires c.policy.MarkLagged? && Enabled(c, s, a) && ListOk(s) && QueueOk(s) && LivesOk(s)
    ensures Simulated(c, s, a, id)
  {
    match a
    case Publish(_) => QueueingSimulated(c, s, a, id);
    case Subscribe(_) => QueueingSimulated(c, s, a, id);
    case EnqueueRemove(_) => QueueingSimulated(c, s, a, id);
    case RunAdd(x) => RunAddSimulated(c, s, x, id);
    case RunRemove(x) =>
      assert s.queue[0] in s.queue;
      RunRemoveSimulated(c, s, x, id);
    case StartBroadcast => StartBroadcastSimulated(c, s, id);
    case TrySend(x) =>
      assert x in s.list;
      TrySendSimulated(c, s, x, id);
    case Mark(x) => MarkSimulated(c, s, x, id);
    case EndBroadcast => EndBroadcastSimulated(c, s, id);
    case _ => WatchStepSimulated(c, s, a, id);
  }

  /** Projecting any run onto one watcher gives a run of the system with that watcher alone. */
  lemma {:induction false} ProjectionIsRun(c: Config, acts: seq<Action>, id: SubId)
    requires c.policy.MarkLagged? && c.capacity >= 1 && Run(c, INIT, acts).Some?
    ensures Run(c, INIT, Project(acts, id)) == Some(ViewOf(Run(c, INIT, acts).value, id))
    decreases |acts|
  {
    if acts == [] {
      assert ViewOf(INIT, id) == INIT;
    } else {
      var init, a := acts[..|acts| - 1], acts[|acts| - 1];
      ProjectionIsRun(c, init, id);
      var s := Run(c, INIT, init).value;
      assert ListOk(s) && QueueOk(s) && LivesOk(s) by {
        ReachableInv(c, init);
      }
      StepSimulated(c, s, a, id);
      RunExtend(c, INIT, Project(init, id), a);
      hide ListOk, QueueOk, LivesOk, ViewOf, Enabled, Apply;
      assert Simulated(c, s, a, id);
      if !Concerns(a, id) {
        assert Project(acts, id) == Project(init, id);
      }
    }
  }

  /** Two runs that agree on the broadcasts and on the steps of a watcher treat it alike. */
  lemma {:induction false} WatcherIsIsolated(c: Config, acts: seq<Action>, acts': seq<Action>, id: SubId)
    requires c.policy.MarkLagged? && c.capacity >= 1
    requires Run(c, INIT, acts).Some? && Run(c, INIT, acts').Some?
    requires Project(acts, id) == Project(acts', id)
    ensures var s, s' := Run(c, INIT, acts).value, Run(c, INIT, acts').value;
            (id in s.subs <==> id in s'.subs) && (id in s.subs ==> s'.subs[id] == s.subs[id])
  {
    ProjectionIsRun(c, acts, id);
    ProjectionIsRun(c, acts', id);
    var s, s' := Run(c, INIT, acts).value, Run(c, INIT, acts').value;
    assert ViewOf(s, id).subs == ViewOf(s', id).subs;
    assert id in s.subs ==> ViewOf(s, id).subs[id] == s.subs[id];
    assert id in s'.subs ==> ViewOf(s', id).subs[id] == s'.subs[id];
  }
}
