/**
 What the state of a run has to do with its actions: every job that is queued runs, in
 order, and the events that are broadcast are the events that were published.
 */
module FanoutActions {
  import opened Wrappers
  import opened Fanout
  import opened FanoutInvariant
  import opened FanoutRuns

  // ---------- the executor's queue ----------

  /** The events published in a run, in order. */
  function Published(acts: seq<Action>): seq<Event> {
    if acts == [] then []
    else
      var last := acts[|acts| - 1];
      Published(acts[..|acts| - 1]) + (if last.Publish? then [last.e] else [])
  }

  /** The jobs queued in a run, in order. */
  function Enqueued(acts: seq<Action>): seq<Job> {
    if acts == [] then []
    else
      Enqueued(acts[..|acts| - 1]) +
      match acts[|acts| - 1]
      case Publish(e) => [Broadcast(e)]
      case Subscribe(id) => [Add(id)]
      case EnqueueRemove(id) => [Remove(id)]
      case _ => []
  }

  predicate StartsJob(a: Action) {
    a.RunAdd? || a.RunRemove? || a.StartBroadcast?
  }

  /** How many jobs the executor has taken. */
  function JobsTaken(acts: seq<Action>): nat {
    if acts == [] then 0
    else JobsTaken(acts[..|acts| - 1]) + (if StartsJob(acts[|acts| - 1]) then 1 else 0)
  }

  /** The events of the broadcasts among the jobs. */
  function EventsOf(jobs: seq<Job>): seq<Event> {
    if jobs == [] then []
    else
      var last := jobs[|jobs| - 1];
      EventsOf(jobs[..|jobs| - 1]) + (if last.Broadcast? then [last.e] else [])
  }

  lemma EventsSnoc(jobs: seq<Job>, job: Job)
    ensures EventsOf(jobs + [job]) == EventsOf(jobs) + (if job.Broadcast? then [job.e] else [])
  {
    assert (jobs + [job])[..|jobs|] == jobs;
  }

  lemma {:induction false} EventsConcat(first: seq<Job>, second: seq<Job>)
    ensures EventsOf(first + second) == EventsOf(first) + EventsOf(second)
  {
    if second == [] {
      assert first + second == first;
    } else {
      var init, job := second[..|second| - 1], second[|second| - 1];
      EventsConcat(first, init);
      EventsSnoc(first + init, job);
      assert first + second == first + init + [job];
    }
  }

  /** The queue is what was queued and not taken, and the log tells what was taken. */
  ghost predicate InOrder(s: State, enqueued: seq<Job>, taken: nat) {
    && taken <= |enqueued| && s.queue == enqueued[taken..]
    && s.log == EventsOf(enqueued[..taken])
  }

  lemma QueueStep(c: Config, s: State, a: Action)
    requires Enabled(c, s, a)
    ensures var s' := Apply(c, s, a);
            match a
            case Publish(e) => s'.queue == s.queue + [Broadcast(e)] && s'.log == s.log
            case Subscribe(id) => s'.queue == s.queue + [Add(id)] && s'.log == s.log
            case EnqueueRemove(id) => s'.queue == s.queue + [Remove(id)] && s'.log == s.log
            case RunAdd(id) => s.queue != [] && s.queue[0] == Add(id) && s'.queue == s.queue[1..] && s'.log == s.log
            case RunRemove(id) =>
              s.queue != [] && s.queue[0] == Remove(id) && s'.queue == s.queue[1..] && s'.log == s.log
            case StartBroadcast =>
              && s.queue != [] && s.queue[0].Broadcast? && s'.queue == s.queue[1..]
              && s'.log == s.log + [s.queue[0].e] && s'.worker == Sending(s.queue[0].e, 0)
            case _ => s'.queue == s.queue && s'.log == s.log
  {
  }

  lemma InOrderStep(c: Config, s: State, enqueued: seq<Job>, taken: nat, a: Action, more: seq<Job>)
    requires Enabled(c, s, a) && InOrder(s, enqueued, taken)
    requires more == match a case Publish(e) => [Broadcast(e)] case Subscribe(id) => [Add(id)]
                             case EnqueueRemove(id) => [Remove(id)] case _ => []
    ensures InOrder(Apply(c, s, a), enqueued + more, taken + if StartsJob(a) then 1 else 0)
  {
    QueueStep(c, s, a);
    hide Enabled, Apply;
    if StartsJob(a) {
      assert enqueued + more == enqueued && enqueued[..taken + 1] == enqueued[..taken] + [enqueued[taken]];
      EventsSnoc(enqueued[..taken], enqueued[taken]);
    } else {
      assert (enqueued + more)[taken..] == enqueued[taken..] + more;
      assert (enqueued + more)[..taken] == enqueued[..taken];
    }
  }

  /**
   The executor is first in first out, in both registries: in every run the jobs that wait
   are those that were queued and not yet taken, in order, and the broadcasts that were
   started are those among the jobs taken.
   */
  lemma {:induction false} JobsRunInOrder(c: Config, acts: seq<Action>)
    requires Run(c, INIT, acts).Some?
    ensures InOrder(Run(c, INIT, acts).value, Enqueued(acts), JobsTaken(acts))
    decreases |acts|
  {
    if acts == [] {
      assert EventsOf([]) == [];
    } else {
      var init, a := acts[..|acts| - 1], acts[|acts| - 1];
      JobsRunInOrder(c, init);
      hide InOrder, Enabled, Apply;
      InOrderStep(c, Run(c, INIT, init).value, Enqueued(init), JobsTaken(init), a, Enqueued(acts)[|Enqueued(init)|..]);
    }
  }

  lemma {:induction false} EnqueuedEvents(acts: seq<Action>)
    ensures EventsOf(Enqueued(acts)) == Published(acts)
  {
    if acts == [] {
    } else {
      var init, a := acts[..|acts| - 1], acts[|acts| - 1];
      EnqueuedEvents(init);
      EventsConcat(Enqueued(init), Enqueued(acts)[|Enqueued(init)|..]);
      assert Enqueued(acts) == Enqueued(init) + Enqueued(acts)[|Enqueued(init)|..];
      if a.Publish? {
        EventsSnoc([], Broadcast(a.e));
      } else if a.Subscribe? {
        EventsSnoc([], Add(a.id));
      } else if a.EnqueueRemove? {
        EventsSnoc([], Remove(a.id));
      }
    }
  }

  lemma AllAccounted(s: State, jobs: seq<Job>, taken: nat)
    requires InOrder(s, jobs, taken)
    ensures s.log + EventsOf(s.queue) == EventsOf(jobs)
  {
    EventsConcat(jobs[..taken], jobs[taken..]);
    assert jobs == jobs[..taken] + jobs[taken..];
  }

  /** Nothing that is published gets lost on the way: what was broadcast and what waits is what was published. */
  lemma {:induction false} NothingPublishedIsLost(c: Config, acts: seq<Action>)
    requires Run(c, INIT, acts).Some?
    ensures var s := Run(c, INIT, acts).value;
            s.log + EventsOf(s.queue) == Published(acts)
  {
    JobsRunInOrder(c, acts);
    EnqueuedEvents(acts);
    var s := Run(c, INIT, acts).value;
    hide Run, Enqueued, Published, JobsTaken, EventsOf;
    AllAccounted(s, Enqueued(acts), JobsTaken(acts));
  }

  lemma StretchOfWindow(s: State, sub: Sub, rest: seq<Event>, n: nat)
    requires HasWindow(s, sub) && n <= |Window(s, sub)|
    ensures sub.joined + n <= |s.log| && Window(s, sub)[..n] == (s.log + rest)[sub.joined..sub.joined + n]
  {
  }

  /**
   In terms of what the storage published: what a watcher has been sent, in either registry,
   is the matching part of a stretch of the published events, without a gap, that begins
   with the first one broadcast after its add job.
   */
  lemma {:induction false} SentIsStretchOfPublished(c: Config, acts: seq<Action>, id: SubId)
    requires c.capacity >= 1 && Run(c, INIT, acts).Some?
    requires id in Run(c, INIT, acts).value.subs && Run(c, INIT, acts).value.subs[id].added
    ensures var sub := Run(c, INIT, acts).value.subs[id];
            && sub.joined + Settled(sub) <= |Published(acts)|
            && sub.sent == Matching(c, id, Published(acts)[sub.joined..sub.joined + Settled(sub)])
  {
    SentIsContiguousPrefix(c, acts, id);
    NothingPublishedIsLost(c, acts);
    var s := Run(c, INIT, acts).value;
    var sub := s.subs[id];
    hide Run, Published, EventsOf;
    StretchOfWindow(s, sub, EventsOf(s.queue), Settled(sub));
  }

  lemma HeadIsKnown(s: State)
    requires QueueOk(s) && s.queue != []
    ensures !s.queue[0].Broadcast? ==> s.queue[0].id in s.subs
  {
    assert s.queue[0] in s.queue;
  }

  lemma GoesOn(c: Config, s: State)
    requires !s.panicked && s.worker.Idle? && s.queue != [] && (!s.queue[0].Broadcast? ==> s.queue[0].id in s.subs)
    ensures match s.queue[0]
            case Add(id) => Enabled(c, s, RunAdd(id))
            case Remove(id) => Enabled(c, s, RunRemove(id))
            case Broadcast(_) => Enabled(c, s, StartBroadcast)
  {
  }

  /** An idle executor can take the job at the head of its queue, whatever it is. */
  lemma {:induction false} IdleExecutorGoesOn(c: Config, acts: seq<Action>)
    requires c.capacity >= 1 && Run(c, INIT, acts).Some?
    requires Run(c, INIT, acts).value.worker.Idle? && Run(c, INIT, acts).value.queue != []
    ensures var s := Run(c, INIT, acts).value;
            match s.queue[0]
            case Add(id) => Enabled(c, s, RunAdd(id))
            case Remove(id) => Enabled(c, s, RunRemove(id))
            case Broadcast(_) => Enabled(c, s, StartBroadcast)
  {
    ReachableInv(c, acts);
    var s := Run(c, INIT, acts).value;
    assert QueueOk(s) && !s.panicked;
    hide Run, Inv;
    HeadIsKnown(s);
    GoesOn(c, s);
  }

  // ---------- a watcher's own story ----------

  /** When action a happened in the run, the log had this length. */
  ghost predicate LogLengthAt(c: Config, acts: seq<Action>, a: Action, n: nat) {
    exists k: nat ::
      k < |acts| && acts[k] == a && Run(c, INIT, acts[..k]).Some? && |Run(c, INIT, acts[..k]).value.log| == n
  }

  lemma LogLengthStays(c: Config, acts: seq<Action>, a: Action, n: nat, b: Action)
    requires LogLengthAt(c, acts, a, n)
    ensures LogLengthAt(c, acts + [b], a, n)
  {
    var k: nat :|
      k < |acts| && acts[k] == a && Run(c, INIT, acts[..k]).Some? && |Run(c, INIT, acts[..k]).value.log| == n;
    assert (acts + [b])[..k] == acts[..k];
  }

  lemma LogLengthNow(c: Config, acts: seq<Action>, a: Action)
    requires Run(c, INIT, acts).Some?
    ensures LogLengthAt(c, acts + [a], a, |Run(c, INIT, acts).value.log|)
  {
    assert (acts + [a])[..|acts|] == acts;
  }

  /** The recorded facts about a subscriber are what the actions of the run say. */
  ghost predicate ToldBy(c: Config, acts: seq<Action>, id: SubId, sub: Sub) {
    && Subscribe(id) in acts
    && (sub.added <==> RunAdd(id) in acts) && (sub.ch.closed <==> RunRemove(id) in acts)
    && (sub.cancelled <==> Cancel(id) in acts) && (sub.removing <==> EnqueueRemove(id) in acts)
    && (sub.ch.lagged <==> Mark(id) in acts) && (!sub.pc.Joining? <==> Join(id) in acts)
    && (sub.pc == Returned(SendFailed) <==> Deliver(id, false) in acts)
    && (sub.pc == Returned(Nil) <==> Finish(id) in acts)
    && |sub.sent| == multiset(acts)[Deliver(id, true)]
    && |sub.passed| + |Held(sub.pc)| + (if sub.pc == Returned(ResourceExhausted) then 1 else 0)
         == multiset(acts)[Dequeue(id)]
    && (sub.added ==> LogLengthAt(c, acts, RunAdd(id), sub.joined))
    && (sub.ch.closed ==> LogLengthAt(c, acts, RunRemove(id), sub.left))
  }

  lemma InSnoc(acts: seq<Action>, a: Action)
    ensures forall b :: b in acts + [a] <==> b in acts || b == a
    ensures forall b :: multiset(acts + [a])[b] == multiset(acts)[b] + (if b == a then 1 else 0)
  {
  }

  /** What one step says about one subscriber. */
  ghost predicate StepTells(sub: Sub, a: Action, id: SubId, sub': Sub, now: nat) {
    && (sub'.added <==> sub.added || a == RunAdd(id)) && (sub'.ch.closed <==> sub.ch.closed || a == RunRemove(id))
    && (sub'.cancelled <==> sub.cancelled || a == Cancel(id))
    && (sub'.removing <==> sub.removing || a == EnqueueRemove(id))
    && (sub'.ch.lagged <==> sub.ch.lagged || a == Mark(id))
    && (!sub'.pc.Joining? <==> !sub.pc.Joining? || a == Join(id))
    && (sub'.pc == Returned(SendFailed) <==> sub.pc == Returned(SendFailed) || a == Deliver(id, false))
    && (sub'.pc == Returned(Nil) <==> sub.pc == Returned(Nil) || a == Finish(id))
    && |sub'.sent| == |sub.sent| + (if a == Deliver(id, true) then 1 else 0)
    && |sub'.passed| + |Held(sub'.pc)| + (if sub'.pc == Returned(ResourceExhausted) then 1 else 0)
         == |sub.passed| + |Held(sub.pc)| + (if sub.pc == Returned(ResourceExhausted) then 1 else 0)
            + (if a == Dequeue(id) then 1 else 0)
    && sub'.joined == (if a == RunAdd(id) then now else sub.joined)
    && sub'.left == (if a == RunRemove(id) then now else sub.left)
  }

  lemma OwnCheckTells(c: Config, s: State, id: SubId)
    requires Enabled(c, s, Check(id))
    ensures var s' := Apply(c, s, Check(id));
            id in s'.subs && StepTells(s.subs[id], Check(id), id, s'.subs[id], |s.log|)
  {
  }

  lemma OwnDeliverTells(c: Config, s: State, id: SubId, ok: bool)
    requires Enabled(c, s, Deliver(id, ok))
    ensures var s' := Apply(c, s, Deliver(id, ok));
            id in s'.subs && StepTells(s.subs[id], Deliver(id, ok), id, s'.subs[id], |s.log|)
  {
  }

  lemma OwnOtherTells(c: Config, s: State, a: Action, id: SubId)
    requires Enabled(c, s, a) && (a == Cancel(id) || a == Join(id) || a == Dequeue(id) || a == Finish(id))
    ensures var s' := Apply(c, s, a); id in s'.subs && StepTells(s.subs[id], a, id, s'.subs[id], |s.log|)
  {
  }

  lemma NoStepTells(sub: Sub, a: Action, id: SubId, now: nat)
    requires !IsFor(a, id)
    ensures StepTells(sub, a, id, sub, now)
  {
  }

  lemma WatchStepTells(c: Config, s: State, a: Action, id: SubId)
    requires Enabled(c, s, a) && IsWatchStep(a) && id in s.subs && id in Apply(c, s, a).subs
    ensures StepTells(s.subs[id], a, id, Apply(c, s, a).subs[id], |s.log|)
  {
    hide Enabled, Apply, StepTells;
    if a.id != id {
      OthersUntouched(c, s, a, id);
      NoStepTells(s.subs[id], a, id, |s.log|);
    } else {
      match a
      case Check(_) => OwnCheckTells(c, s, id);
      case Deliver(_, ok) => OwnDeliverTells(c, s, id, ok);
      case _ => OwnOtherTells(c, s, a, id);
    }
  }

  lemma OwnSendTells(c: Config, s: State, id: SubId)
    requires Enabled(c, s, TrySend(id)) && id in Apply(c, s, TrySend(id)).subs
    ensures StepTells(s.subs[id], TrySend(id), id, Apply(c, s, TrySend(id)).subs[id], |s.log|)
  {
    hide HasRoom, Without;
  }

  lemma OwnRemoveTells(c: Config, s: State, id: SubId)
    requires Enabled(c, s, RunRemove(id)) && id in Apply(c, s, RunRemove(id)).subs
    ensures StepTells(s.subs[id], RunRemove(id), id, Apply(c, s, RunRemove(id)).subs[id], |s.log|)
  {
    hide HasRoom, Without;
  }

  lemma OwnJobTells(c: Config, s: State, a: Action, id: SubId)
    requires Enabled(c, s, a) && !IsWatchStep(a) && IsFor(a, id) && id in s.subs && id in Apply(c, s, a).subs
    ensures StepTells(s.subs[id], a, id, Apply(c, s, a).subs[id], |s.log|)
  {
    if a.TrySend? {
      OwnSendTells(c, s, id);
    } else if a.RunRemove? {
      OwnRemoveTells(c, s, id);
    } else {
      hide Without, HasRoom, Accept, Closed;
    }
  }

  lemma JobStepTells(c: Config, s: State, a: Action, id: SubId)
    requires Enabled(c, s, a) && !IsWatchStep(a) && id in s.subs && id in Apply(c, s, a).subs
    ensures StepTells(s.subs[id], a, id, Apply(c, s, a).subs[id], |s.log|)
  {
    hide Apply, Enabled, StepTells;
    if IsFor(a, id) {
      OwnJobTells(c, s, a, id);
    } else {
      OthersUntouched(c, s, a, id);
      NoStepTells(s.subs[id], a, id, |s.log|);
    }
  }

  lemma ToldStep(c: Config, init: seq<Action>, a: Action, id: SubId, sub: Sub, sub': Sub, now: nat)
    requires ToldBy(c, init, id, sub) && StepTells(sub, a, id, sub', now)
    requires Run(c, INIT, init).Some? && now == |Run(c, INIT, init).value.log|
    requires a == RunAdd(id) ==> !sub.added
    requires a == RunRemove(id) ==> !sub.ch.closed
    ensures ToldBy(c, init + [a], id, sub')
  {
    InSnoc(init, a);
    LogLengthNow(c, init, a);
    if sub.added {
      LogLengthStays(c, init, RunAdd(id), sub.joined, a);
    }
    if sub.ch.closed {
      LogLengthStays(c, init, RunRemove(id), sub.left, a);
    }
    hide LogLengthAt, Run, Held;
  }

  lemma NamesKnown(c: Config, s: State, a: Action, id: SubId)
    requires Enabled(c, s, a) && id !in Apply(c, s, a).subs
    ensures id !in s.subs && (a.Publish? || a.StartBroadcast? || a.EndBroadcast? || a.id != id)
  {
  }

  lemma NotBefore(c: Config, acts: seq<Action>, id: SubId)
    requires Run(c, INIT, acts).Some? && id !in Run(c, INIT, acts).value.subs
    ensures forall a :: a in acts && !a.Publish? && !a.StartBroadcast? && !a.EndBroadcast? ==> a.id != id
    decreases |acts|
  {
    if acts == [] {
    } else {
      var init, a := acts[..|acts| - 1], acts[|acts| - 1];
      var s := Run(c, INIT, init).value;
      NamesKnown(c, s, a, id);
      NotBefore(c, init, id);
      assert acts == init + [a];
    }
  }

  lemma FirstSeen(c: Config, s: State, a: Action, id: SubId)
    requires Enabled(c, s, a) && id !in s.subs && id in Apply(c, s, a).subs
    ensures a == Subscribe(id) && Apply(c, s, a).subs[id] == NEW_SUB
  {
  }

  lemma OnceOnly(c: Config, s: State, id: SubId)
    requires Inv(c, s) && id in s.subs
    ensures Enabled(c, s, RunAdd(id)) ==> !s.subs[id].added
    ensures Enabled(c, s, RunRemove(id)) ==> !s.subs[id].ch.closed
  {
    assert QueueOk(s);
    hide SubsOk, ListOk, WindowOk;
    assert s.queue != [] ==> s.queue[0] in s.queue;
  }

  lemma NewIsTold(c: Config, init: seq<Action>, id: SubId)
    requires forall a :: a in init && !a.Publish? && !a.StartBroadcast? && !a.EndBroadcast? ==> a.id != id
    ensures ToldBy(c, init + [Subscribe(id)], id, NEW_SUB)
  {
    InSnoc(init, Subscribe(id));
    assert Deliver(id, true) !in init && Dequeue(id) !in init;
  }

  /**
   In every run the state of a subscriber is what the actions of the run say: its add and
   remove jobs, its marks, how often it has read and sent, how its Send answered, whether
   and how its watch has returned, and which stretch of the broadcasts is its window.
   */
  lemma {:induction false} SubscriberIsToldByActions(c: Config, acts: seq<Action>, id: SubId)
    requires c.capacity >= 1 && Run(c, INIT, acts).Some? && id in Run(c, INIT, acts).value.subs
    ensures ToldBy(c, acts, id, Run(c, INIT, acts).value.subs[id])
    decreases |acts|
  {
    var init, a := acts[..|acts| - 1], acts[|acts| - 1];
    var s, s' := Run(c, INIT, init).value, Run(c, INIT, acts).value;
    assert acts == init + [a];
    hide ToldBy, StepTells, Run, Enabled, Apply;
    if id in s.subs {
      SubscriberIsToldByActions(c, init, id);
      ReachableInv(c, init);
      OnceOnly(c, s, id);
      if IsWatchStep(a) {
        WatchStepTells(c, s, a, id);
      } else {
        JobStepTells(c, s, a, id);
      }
      ToldStep(c, init, a, id, s.subs[id], s'.subs[id], |s.log|);
    } else {
      FirstSeen(c, s, a, id);
      NotBefore(c, init, id);
      NewIsTold(c, init, id);
    }
  }

  // ---------- the order of the executor's steps ----------

  lemma StepIsTimely(c: Config, s: State, a: Action)
    requires Inv(c, s) && Enabled(c, s, a) && (a.RunRemove? || a.TrySend? || a.RunAdd?)
    ensures a.id in s.subs && (if a.RunAdd? then !s.subs[a.id].added else s.subs[a.id].added && !s.subs[a.id].ch.closed)
  {
    assert QueueOk(s) && ListOk(s);
    OnceOnly(c, s, a.id);
    if a.RunRemove? {
      assert s.queue[0] in s.queue;
      assert SubOk(c, a.id, s.subs[a.id], MarkingFor(s, a.id));
    } else if a.TrySend? {
      assert a.id in s.list;
    }
  }

  lemma {:induction false} PrefixRuns(c: Config, acts: seq<Action>, k: nat)
    requires Run(c, INIT, acts).Some? && k < |acts|
    ensures Run(c, INIT, acts[..k]).Some? && Enabled(c, Run(c, INIT, acts[..k]).value, acts[k])
    decreases |acts|
  {
    if k < |acts| - 1 {
      PrefixRuns(c, acts[..|acts| - 1], k);
      assert acts[..|acts| - 1][..k] == acts[..k];
    }
  }

  /**
   The executor protocol, told by the actions alone: each add job and each remove job runs
   at most once, a remove job runs after the add job of its subscriber, and a broadcast
   sends only to a channel that was added and not closed.
   */
  lemma {:induction false} JobsAreTimely(c: Config, acts: seq<Action>, k: nat)
    requires c.capacity >= 1 && Run(c, INIT, acts).Some? && k < |acts|
    ensures acts[k].RunAdd? ==> acts[k] !in acts[..k]
    ensures acts[k].RunRemove? ==> RunAdd(acts[k].id) in acts[..k] && acts[k] !in acts[..k]
    ensures acts[k].TrySend? ==> RunAdd(acts[k].id) in acts[..k] && RunRemove(acts[k].id) !in acts[..k]
  {
    var a := acts[k];
    if a.RunAdd? || a.RunRemove? || a.TrySend? {
      PrefixRuns(c, acts, k);
      ReachableInv(c, acts[..k]);
      StepIsTimely(c, Run(c, INIT, acts[..k]).value, a);
      SubscriberIsToldByActions(c, acts[..k], a.id);
      hide Run, Inv, Enabled;
    }
  }

  lemma KnownWatcher(c: Config, acts: seq<Action>, id: SubId)
    requires c.capacity >= 1 && Run(c, INIT, acts).Some?
    ensures var s := Run(c, INIT, acts).value;
            && !s.panicked && (id in s.subs <==> Subscribe(id) in acts)
            && (id in s.subs ==>
                  && (s.subs[id].added <==> RunAdd(id) in acts)
                  && (s.subs[id].cancelled <==> Cancel(id) in acts)
                  && (s.subs[id].removing <==> EnqueueRemove(id) in acts)
                  && (!s.subs[id].pc.Joining? <==> Join(id) in acts))
  {
    ReachableInv(c, acts);
    if id in Run(c, INIT, acts).value.subs {
      SubscriberIsToldByActions(c, acts, id);
    } else {
      NotBefore(c, acts, id);
    }
  }

  /**
   What clients and contexts may do in a state of a run: a new watcher may subscribe, and
   wakes up once its add job has run; a known one may be cancelled, and once it is cancelled
   and has woken up its remove job is queued, once.  An event may be published at any time.
   */
  lemma {:induction false} ClientsAreFree(c: Config, acts: seq<Action>, id: SubId, e: Event)
    requires c.capacity >= 1 && Run(c, INIT, acts).Some?
    ensures var s := Run(c, INIT, acts).value;
            && Enabled(c, s, Publish(e))
            && (Enabled(c, s, Subscribe(id)) <==> Subscribe(id) !in acts)
            && (Enabled(c, s, Join(id)) <==> RunAdd(id) in acts && Join(id) !in acts)
            && (Enabled(c, s, Cancel(id)) <==> Subscribe(id) in acts)
            && (Enabled(c, s, EnqueueRemove(id)) <==>
                  Cancel(id) in acts && Join(id) in acts && EnqueueRemove(id) !in acts)
  {
    KnownWatcher(c, acts, id);
    if id !in Run(c, INIT, acts).value.subs {
      NotBefore(c, acts, id);
    }
    hide Run;
  }
}
