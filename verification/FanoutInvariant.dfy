/**
 The inductive invariant of the fan-out and what it says about every run.
 */
module FanoutInvariant {
  import opened Wrappers
  import opened Fanout

  // ---------- one subscriber ----------

  /** The update between the dequeue and the lagged check. */
  function Held(pc: Pc): seq<Event> {
    if pc.Checking? then [pc.u] else []
  }

  /** The watch loop has stopped before its channel was drained. */
  predicate GaveUp(pc: Pc) {
    pc.Returned? && !pc.outcome.Nil?
  }

  /** The update on its way through Send, or refused by it: passed but not sent. */
  predicate InFlight(pc: Pc) {
    pc.Delivering? || (pc.Returned? && pc.outcome.SendFailed?)
  }

  /** How many of the events let past the check have been sent or found not to match. */
  function Settled(sub: Sub): nat {
    if InFlight(sub.pc) && sub.passed != [] then |sub.passed| - 1 else |sub.passed|
  }

  ghost predicate Prefix(a: seq<Event>, b: seq<Event>) {
    |a| <= |b| && a == b[..|a|]
  }

  function Pending(sub: Sub): seq<Event> {
    if sub.pc == Returned(ResourceExhausted) then sub.passed + sub.ch.buf
    else sub.passed + Held(sub.pc) + sub.ch.buf
  }

  /**
   Order and loss.  `marking` is the event whose try-send to this subscriber failed
   and whose lagged mark is not stored yet.  Until the first loss, what was offered
   is what passed the check, is held or is buffered.  The third line is the window between the failed
   try-send and the mark.  The last one says that after the mark either exactly one
   event is lost and nothing waits, or some update is still to be refused.
   */
  ghost predicate StreamOk(c: Config, sub: Sub, marking: Option<Event>) {
    && Prefix(sub.good, sub.offered) && Prefix(sub.passed, sub.good) && |sub.ch.buf| <= c.capacity
    && (sub.good == sub.offered ==>
          !sub.ch.lagged && marking.None? && Pending(sub) == sub.offered)
    && (sub.good != sub.offered && !sub.ch.lagged ==>
          marking.Some? && sub.offered == sub.good + [marking.value] && Pending(sub) == sub.good)
    && (sub.good != sub.offered && sub.ch.lagged ==>
          || (|sub.offered| == |sub.good| + 1 && Pending(sub) == sub.good)
          || sub.ch.buf != [] || sub.pc.Checking? || GaveUp(sub.pc))
  }

  /** What was sent is the matching part of what passed the check. */
  ghost predicate SentOk(c: Config, id: SubId, sub: Sub) {
    && sub.sent == Matching(c, id, sub.passed[..Settled(sub)])
    && (InFlight(sub.pc) ==> sub.passed != [] && c.matches(id, sub.passed[|sub.passed| - 1]))
    && (sub.pc.Delivering? ==> sub.passed[|sub.passed| - 1] == sub.pc.u)
  }

  /** An iteration that lets the loop go on. */
  predicate GoesOn(c: Config, id: SubId, r: Round) {
    !r.lagged && (c.matches(id, r.update) ==> r.sendOk)
  }

  predicate AllGoOn(c: Config, id: SubId, rounds: seq<Round>) {
    forall k :: 0 <= k < |rounds| ==> GoesOn(c, id, rounds[k])
  }

  function Updates(rounds: seq<Round>): (es: seq<Event>)
    ensures |es| == |rounds|
  {
    seq(|rounds|, k requires 0 <= k < |rounds| => rounds[k].update)
  }

  /** A watch loop that saw these iterations sent `sent` and returned `result`, or still runs. */
  ghost predicate WatchResult(
    c: Config, id: SubId, rounds: seq<Round>, sent: seq<Event>, result: Option<WatchOutcome>)
  {
    match result
    case None => AllGoOn(c, id, rounds) && sent == Matching(c, id, Updates(rounds))
    case Some(Nil) => AllGoOn(c, id, rounds) && sent == Matching(c, id, Updates(rounds))
    case Some(o) =>
      && rounds != []
      && var before, last := rounds[..|rounds| - 1], rounds[|rounds| - 1];
         && AllGoOn(c, id, before) && sent == Matching(c, id, Updates(before))
         && (if o.ResourceExhausted? then c.policy.MarkLagged? && last.lagged
             else !last.lagged && c.matches(id, last.update) && !last.sendOk)
  }

  function Result(pc: Pc): Option<WatchOutcome> {
    if pc.Returned? then Some(pc.outcome) else None
  }

  /** The order of a subscriber's life. */
  predicate LifeOk(sub: Sub) {
    && (!sub.pc.Joining? ==> sub.added)
    && (sub.removing ==> sub.added && !sub.pc.Joining?)
    && (sub.ch.closed ==> sub.removing)
    && (sub.pc == Returned(Nil) ==> sub.ch.closed && sub.ch.buf == [])
    && (sub.pc == Returned(ResourceExhausted) ==> sub.ch.lagged)
    && (!sub.added ==> sub.offered == [])
  }

  ghost predicate SubOk(c: Config, id: SubId, sub: Sub, marking: Option<Event>) {
    && StreamOk(c, sub, marking)
    && SentOk(c, id, sub)
    && WatchResult(c, id, sub.rounds, sub.sent, Result(sub.pc))
    && LifeOk(sub)
    && (c.policy.Block? ==> sub.good == sub.offered)
  }

  lemma NewSubOk(c: Config, id: SubId)
    ensures SubOk(c, id, NEW_SUB, None)
  {
  }

  lemma UpdatesSnoc(rounds: seq<Round>, r: Round)
    ensures Updates(rounds + [r]) == Updates(rounds) + [r.update]
  {
  }

  lemma AcceptOk(c: Config, id: SubId, sub: Sub, e: Event)
    requires SubOk(c, id, sub, None) && HasRoom(c.capacity, sub.ch) && sub.added && !sub.ch.closed
    ensures SubOk(c, id, Accept(sub, e), None)
  {
    var sub' := Accept(sub, e);
    assert sub'.passed[..Settled(sub')] == sub.passed[..Settled(sub)];
    if sub.good == sub.offered {
      assert Pending(sub') == Pending(sub) + [e];
    }
  }

  lemma DropOk(c: Config, id: SubId, sub: Sub, e: Event)
    requires c.policy.MarkLagged? && c.capacity >= 1
    requires SubOk(c, id, sub, None) && !HasRoom(c.capacity, sub.ch) && sub.added
    ensures SubOk(c, id, sub.(offered := sub.offered + [e]), Some(e))
  {
    var sub' := sub.(offered := sub.offered + [e]);
    assert sub'.good != sub'.offered by {
      assert |sub.good| < |sub'.offered|;
    }
    assert Pending(sub') == Pending(sub);
  }

  lemma MarkOk(c: Config, id: SubId, sub: Sub, e: Event)
    requires SubOk(c, id, sub, Some(e))
    ensures SubOk(c, id, sub.(ch := sub.ch.(lagged := true)), None)
  {
    var sub' := sub.(ch := sub.ch.(lagged := true));
    assert Pending(sub') == Pending(sub);
  }

  /** Steps of the watch loop leave what was offered alone and lose nothing that is pending. */
  lemma SameStream(c: Config, sub: Sub, sub': Sub, marking: Option<Event>)
    requires StreamOk(c, sub, marking)
    requires sub'.good == sub.good && sub'.offered == sub.offered && sub'.ch.lagged == sub.ch.lagged
    requires |sub'.ch.buf| <= |sub.ch.buf|
    requires Pending(sub') == Pending(sub) && Prefix(sub'.passed, sub.good)
    requires sub.ch.buf != [] || sub.pc.Checking? ==> sub'.ch.buf != [] || sub'.pc.Checking? || !sub.ch.lagged
    requires GaveUp(sub.pc) ==> GaveUp(sub'.pc)
    ensures StreamOk(c, sub', marking)
  {
  }

  lemma TakeOk(c: Config, id: SubId, sub: Sub, marking: Option<Event>)
    requires SubOk(c, id, sub, marking) && sub.pc.Reading? && sub.ch.buf != []
    ensures SubOk(c, id, Take(sub), marking)
  {
    var sub' := Take(sub);
    assert Pending(sub') == Pending(sub);
    SameStream(c, sub, sub', marking);
  }

  lemma RefuseOk(c: Config, id: SubId, sub: Sub, marking: Option<Event>)
    requires SubOk(c, id, sub, marking) && sub.pc.Checking? && c.policy.MarkLagged? && sub.ch.lagged
    ensures SubOk(c, id, CheckUpdate(c, id, sub), marking)
  {
    var sub' := CheckUpdate(c, id, sub);
    assert sub'.rounds[..|sub.rounds|] == sub.rounds;
  }

  lemma PassKeepsStream(c: Config, sub: Sub, marking: Option<Event>, sub': Sub)
    requires StreamOk(c, sub, marking) && sub.pc.Checking? && !sub.ch.lagged
    requires sub'.passed == sub.passed + [sub.pc.u] && (sub'.pc.Reading? || sub'.pc.Delivering?)
    requires sub'.ch == sub.ch && sub'.good == sub.good && sub'.offered == sub.offered
    ensures StreamOk(c, sub', marking)
  {
    assert Pending(sub') == sub'.passed + sub.ch.buf == Pending(sub) == sub.good;
    SameStream(c, sub, sub', marking);
  }

  lemma PassKeepsSent(c: Config, id: SubId, sub: Sub)
    requires sub.pc.Checking? && SentOk(c, id, sub)
    requires !(c.policy.MarkLagged? && sub.ch.lagged)
    ensures SentOk(c, id, CheckUpdate(c, id, sub))
  {
    var sub' := CheckUpdate(c, id, sub);
    var u := sub.pc.u;
    assert sub.passed[..|sub.passed|] == sub.passed;
    if c.matches(id, u) {
      assert sub'.passed[..|sub.passed|] == sub.passed;
    } else {
      assert sub'.passed[..|sub'.passed|] == sub.passed + [u];
      MatchingSnoc(c, id, sub.passed, u);
    }
  }

  /** An iteration that goes on extends a watch loop that is still running. */
  lemma RoundGoesOn(c: Config, id: SubId, rounds: seq<Round>, sent: seq<Event>, r: Round)
    requires WatchResult(c, id, rounds, sent, None) && GoesOn(c, id, r)
    ensures var sent' := sent + (if c.matches(id, r.update) then [r.update] else []);
            WatchResult(c, id, rounds + [r], sent', None)
  {
    UpdatesSnoc(rounds, r);
    MatchingSnoc(c, id, Updates(rounds), r.update);
  }

  lemma PassKeepsRounds(c: Config, id: SubId, sub: Sub)
    requires sub.pc.Checking? && WatchResult(c, id, sub.rounds, sub.sent, None)
    requires !(c.policy.MarkLagged? && sub.ch.lagged)
    ensures var sub' := CheckUpdate(c, id, sub);
            WatchResult(c, id, sub'.rounds, sub'.sent, None)
  {
    if !c.matches(id, sub.pc.u) {
      RoundGoesOn(c, id, sub.rounds, sub.sent, Round(sub.pc.u, false, true));
      assert sub.sent + [] == sub.sent;
    }
  }

  lemma CheckOk(c: Config, id: SubId, sub: Sub, marking: Option<Event>)
    requires SubOk(c, id, sub, marking) && sub.pc.Checking?
    ensures SubOk(c, id, CheckUpdate(c, id, sub), marking)
  {
    if c.policy.MarkLagged? && sub.ch.lagged {
      RefuseOk(c, id, sub, marking);
    } else {
      assert !sub.ch.lagged;
      hide StreamOk, SentOk, WatchResult;
      PassKeepsStream(c, sub, marking, CheckUpdate(c, id, sub));
      PassKeepsSent(c, id, sub);
      PassKeepsRounds(c, id, sub);
    }
  }

  lemma DeliverKeepsSent(c: Config, id: SubId, sub: Sub, ok: bool)
    requires SentOk(c, id, sub) && sub.pc.Delivering?
    ensures SentOk(c, id, SendUpdate(sub, ok))
  {
    if ok {
      var n := |sub.passed| - 1;
      assert sub.passed[..|sub.passed|] == sub.passed == sub.passed[..n] + [sub.pc.u];
      MatchingSnoc(c, id, sub.passed[..n], sub.pc.u);
    }
  }

  lemma DeliverOk(c: Config, id: SubId, sub: Sub, marking: Option<Event>, ok: bool)
    requires SubOk(c, id, sub, marking) && sub.pc.Delivering?
    ensures SubOk(c, id, SendUpdate(sub, ok), marking)
  {
    var sub' := SendUpdate(sub, ok);
    assert Pending(sub') == Pending(sub);
    SameStream(c, sub, sub', marking);
    DeliverKeepsSent(c, id, sub, ok);
    if ok {
      RoundGoesOn(c, id, sub.rounds, sub.sent, Round(sub.pc.u, false, true));
    } else {
      assert sub'.rounds[..|sub.rounds|] == sub.rounds;
    }
  }

  lemma FinishOk(c: Config, id: SubId, sub: Sub, marking: Option<Event>)
    requires SubOk(c, id, sub, marking) && sub.pc.Reading? && sub.ch.buf == [] && sub.ch.closed
    ensures SubOk(c, id, sub.(pc := Returned(Nil)), marking)
  {
    assert Pending(sub.(pc := Returned(Nil))) == Pending(sub);
  }

  /** Bookkeeping outside the stream: joining, cancelling, queueing jobs, closing. */
  lemma AdminOk(c: Config, id: SubId, sub: Sub, sub': Sub, marking: Option<Event>)
    requires SubOk(c, id, sub, marking) && LifeOk(sub')
    requires sub'.ch.buf == sub.ch.buf && sub'.ch.lagged == sub.ch.lagged
    requires sub'.pc == sub.pc || (sub.pc.Joining? && sub'.pc.Reading?)
    requires sub'.sent == sub.sent && sub'.passed == sub.passed && sub'.rounds == sub.rounds
    requires sub'.offered == sub.offered && sub'.good == sub.good
    ensures SubOk(c, id, sub', marking)
  {
    assert Pending(sub') == Pending(sub);
  }

  // ---------- the whole system ----------

  /** The event whose mark is being stored on subscriber id. */
  function MarkingFor(s: State, id: SubId): Option<Event> {
    if s.worker.Marking? && s.worker.i < |s.list| && s.list[s.worker.i] == id then Some(s.worker.e) else None
  }

  ghost predicate SubsOk(c: Config, s: State) {
    forall id :: id in s.subs ==> SubOk(c, id, s.subs[id], MarkingFor(s, id))
  }

  /** The list holds exactly the subscribers that were added and not closed, once each. */
  ghost predicate ListOk(s: State) {
    && NoDup(s.list)
    && (forall id :: id in s.list <==> id in s.subs && s.subs[id].added && !s.subs[id].ch.closed)
  }

  ghost predicate OnceEach(queue: seq<Job>) {
    forall i, j :: 0 <= i < j < |queue| && queue[i] == queue[j] ==> queue[i].Broadcast?
  }

  /** An add job waits exactly while its subscriber is not added, a remove job while it is not closed. */
  ghost predicate QueueOk(s: State) {
    && OnceEach(s.queue)
    && (forall id :: Add(id) in s.queue <==> id in s.subs && !s.subs[id].added)
    && (forall id :: Remove(id) in s.queue <==> id in s.subs && s.subs[id].removing && !s.subs[id].ch.closed)
  }

  ghost predicate WorkerOk(c: Config, s: State) {
    && (!s.worker.Idle? ==> s.log != [] && s.log[|s.log| - 1] == s.worker.e)
    && (s.worker.Sending? ==> s.worker.i <= |s.list|)
    && (s.worker.Marking? ==> s.worker.i < |s.list| && c.policy.MarkLagged?)
  }

  /** How much of the broadcast log has reached the subscriber at position j of the list. */
  function Seen(s: State, j: nat): int {
    if s.worker.Idle? || j < s.worker.i || (s.worker.Marking? && j == s.worker.i) then |s.log| else |s.log| - 1
  }

  /** A subscriber was offered exactly the broadcasts from its add job to its remove job, or to now. */
  ghost predicate WindowOk(s: State) {
    && (forall j :: 0 <= j < |s.list| && s.list[j] in s.subs ==>
          var sub := s.subs[s.list[j]];
          sub.joined <= Seen(s, j) <= |s.log| && sub.offered == s.log[sub.joined..Seen(s, j)])
    && (forall id :: id in s.subs && s.subs[id].ch.closed ==>
          var sub := s.subs[id];
          sub.joined <= sub.left <= |s.log| && sub.offered == s.log[sub.joined..sub.left])
  }

  ghost predicate Inv(c: Config, s: State) {
    && c.capacity >= 1 && !s.panicked
    && ListOk(s) && QueueOk(s) && WorkerOk(c, s) && SubsOk(c, s) && WindowOk(s)
  }

  lemma InitInv(c: Config)
    requires c.capacity >= 1
    ensures Inv(c, INIT)
  {
  }

  ghost predicate LivesOk(s: State) {
    forall id :: id in s.subs ==> LifeOk(s.subs[id])
  }

  /** An action of a watch loop, or of the context that ends it. */
  predicate IsWatchStep(a: Action) {
    a.Cancel? || a.Join? || a.Dequeue? || a.Check? || a.Deliver? || a.Finish?
  }

  /** The action belongs to subscriber id alone. */
  predicate IsFor(a: Action, id: SubId) {
    !a.Publish? && !a.StartBroadcast? && !a.EndBroadcast? && a.id == id
  }

  lemma OthersUntouched(c: Config, s: State, a: Action, id: SubId)
    requires Enabled(c, s, a) && !IsFor(a, id)
    ensures id in Apply(c, s, a).subs <==> id in s.subs
    ensures id in s.subs ==> Apply(c, s, a).subs[id] == s.subs[id]
  {
    hide HasRoom, Without, Accept, CheckUpdate, SendUpdate, Closed, Take;
  }

  predicate SameStage(sub: Sub, sub': Sub) {
    && sub'.added == sub.added && sub'.removing == sub.removing && sub'.ch.closed == sub.ch.closed
    && sub'.joined == sub.joined && sub'.left == sub.left && sub'.offered == sub.offered
  }

  lemma WatchStepIsLocal(c: Config, s: State, a: Action)
    requires Enabled(c, s, a) && IsWatchStep(a)
    ensures var s' := Apply(c, s, a);
            && a.id in s.subs && a.id in s'.subs && s' == Put(s, a.id, s'.subs[a.id])
            && SameStage(s.subs[a.id], s'.subs[a.id])
  {
  }

  lemma LocalKeeps(s: State, id: SubId, sub: Sub)
    requires id in s.subs && SameStage(s.subs[id], sub) && ListOk(s)
    ensures ListOk(Put(s, id, sub))
    ensures QueueOk(s) ==> QueueOk(Put(s, id, sub))
    ensures WindowOk(s) ==> WindowOk(Put(s, id, sub))
  {
  }

  lemma QueueGrows(queue: seq<Job>, job: Job)
    ensures forall x :: x in queue + [job] <==> x in queue || x == job
    ensures OnceEach(queue) && (job.Broadcast? || job !in queue) ==> OnceEach(queue + [job])
  {
  }

  lemma PublishKeepsRoster(c: Config, s: State, e: Event)
    requires ListOk(s) && QueueOk(s) && Enabled(c, s, Publish(e))
    ensures var s' := Apply(c, s, Publish(e)); ListOk(s') && QueueOk(s')
  {
    QueueGrows(s.queue, Broadcast(e));
  }

  lemma SubscribeKeepsRoster(c: Config, s: State, id: SubId)
    requires ListOk(s) && QueueOk(s) && Enabled(c, s, Subscribe(id))
    ensures var s' := Apply(c, s, Subscribe(id)); ListOk(s') && QueueOk(s')
  {
    QueueGrows(s.queue, Add(id));
  }

  lemma EnqueueKeepsRoster(c: Config, s: State, id: SubId)
    requires ListOk(s) && QueueOk(s) && LivesOk(s) && Enabled(c, s, EnqueueRemove(id))
    ensures var s' := Apply(c, s, EnqueueRemove(id)); ListOk(s') && QueueOk(s')
  {
    QueueGrows(s.queue, Remove(id));
  }

  lemma TrySendKeepsRoster(c: Config, s: State, id: SubId)
    requires ListOk(s) && QueueOk(s) && Enabled(c, s, TrySend(id))
    ensures var s' := Apply(c, s, TrySend(id)); ListOk(s') && QueueOk(s')
  {
  }

  lemma MarkKeepsRoster(c: Config, s: State, id: SubId)
    requires ListOk(s) && QueueOk(s) && Enabled(c, s, Mark(id))
    ensures var s' := Apply(c, s, Mark(id)); ListOk(s') && QueueOk(s')
  {
  }

  lemma EndKeepsRoster(c: Config, s: State)
    requires ListOk(s) && QueueOk(s) && Enabled(c, s, EndBroadcast)
    ensures var s' := Apply(c, s, EndBroadcast); ListOk(s') && QueueOk(s')
  {
  }

  lemma QueueShrinks(queue: seq<Job>)
    requires queue != []
    ensures forall x :: x in queue <==> x in queue[1..] || x == queue[0]
    ensures OnceEach(queue) ==> OnceEach(queue[1..]) && (queue[0].Broadcast? || queue[0] !in queue[1..])
  {
    assert queue == [queue[0]] + queue[1..];
  }

  lemma AddKeepsRoster(c: Config, s: State, id: SubId)
    requires Enabled(c, s, RunAdd(id)) && ListOk(s) && QueueOk(s) && LivesOk(s)
    ensures ListOk(Apply(c, s, RunAdd(id))) && QueueOk(Apply(c, s, RunAdd(id)))
  {
    QueueShrinks(s.queue);
    assert id !in s.list;
  }

  lemma RemoveKeepsRoster(c: Config, s: State, id: SubId)
    requires Enabled(c, s, RunRemove(id)) && ListOk(s) && QueueOk(s) && LivesOk(s)
    ensures ListOk(Apply(c, s, RunRemove(id))) && QueueOk(Apply(c, s, RunRemove(id)))
  {
    QueueShrinks(s.queue);
    WithoutKeeps(s.list, id);
  }

  lemma ShrinkKeepsRoster(c: Config, s: State)
    requires Enabled(c, s, StartBroadcast) && ListOk(s) && QueueOk(s)
    ensures ListOk(Apply(c, s, StartBroadcast)) && QueueOk(Apply(c, s, StartBroadcast))
  {
    QueueShrinks(s.queue);
  }

  lemma StepKeepsRoster(c: Config, s: State, a: Action)
    requires Enabled(c, s, a) && ListOk(s) && QueueOk(s) && LivesOk(s)
    ensures ListOk(Apply(c, s, a)) && QueueOk(Apply(c, s, a))
  {
    hide ListOk, QueueOk;
    match a
    case Publish(e) => PublishKeepsRoster(c, s, e);
    case Subscribe(id) => SubscribeKeepsRoster(c, s, id);
    case EnqueueRemove(id) => EnqueueKeepsRoster(c, s, id);
    case RunAdd(id) => AddKeepsRoster(c, s, id);
    case RunRemove(id) => RemoveKeepsRoster(c, s, id);
    case StartBroadcast => ShrinkKeepsRoster(c, s);
    case TrySend(id) => TrySendKeepsRoster(c, s, id);
    case Mark(id) => MarkKeepsRoster(c, s, id);
    case EndBroadcast => EndKeepsRoster(c, s);
    case _ =>
      WatchStepIsLocal(c, s, a);
      LocalKeeps(s, a.id, Apply(c, s, a).subs[a.id]);
  }

  lemma StepKeepsWorker(c: Config, s: State, a: Action)
    requires Enabled(c, s, a) && WorkerOk(c, s)
    ensures WorkerOk(c, Apply(c, s, a))
  {
  }

  lemma FrameKeepsWindow(s: State, s': State)
    requires WindowOk(s) && s'.subs == s.subs && s'.list == s.list && s'.worker == s.worker && s'.log == s.log
    ensures WindowOk(s')
  {
  }

  lemma SubscribeKeepsWindow(c: Config, s: State, id: SubId)
    requires Enabled(c, s, Subscribe(id)) && WindowOk(s) && ListOk(s)
    ensures WindowOk(Apply(c, s, Subscribe(id)))
  {
    assert id !in s.list;
  }

  lemma EnqueueKeepsWindow(c: Config, s: State, id: SubId)
    requires Enabled(c, s, EnqueueRemove(id)) && WindowOk(s)
    ensures WindowOk(Apply(c, s, EnqueueRemove(id)))
  {
  }

  lemma MarkKeepsWindow(c: Config, s: State, id: SubId)
    requires Enabled(c, s, Mark(id)) && WindowOk(s)
    ensures WindowOk(Apply(c, s, Mark(id)))
  {
  }

  lemma EndKeepsWindow(c: Config, s: State)
    requires Enabled(c, s, EndBroadcast) && WindowOk(s) && WorkerOk(c, s)
    ensures WindowOk(Apply(c, s, EndBroadcast))
  {
  }

  lemma BroadcastKeepsWindow(c: Config, s: State)
    requires Enabled(c, s, StartBroadcast) && WindowOk(s)
    ensures WindowOk(Apply(c, s, StartBroadcast))
  {
    var s' := Apply(c, s, StartBroadcast);
    assert forall i, j :: 0 <= i <= j <= |s.log| ==> s'.log[i..j] == s.log[i..j];
  }

  lemma AddKeepsWindow(c: Config, s: State, id: SubId)
    requires Enabled(c, s, RunAdd(id)) && WindowOk(s) && ListOk(s) && QueueOk(s) && LivesOk(s)
    ensures WindowOk(Apply(c, s, RunAdd(id)))
  {
    assert s.queue[0] in s.queue;
    assert id !in s.list;
  }

  lemma TrySendKeepsWindow(c: Config, s: State, id: SubId)
    requires Enabled(c, s, TrySend(id)) && WindowOk(s) && ListOk(s) && WorkerOk(c, s)
    ensures WindowOk(Apply(c, s, TrySend(id)))
  {
    var s' := Apply(c, s, TrySend(id));
    var sub, i := s.subs[id], s.worker.i;
    assert s.list[i] == id && id in s.list;
    assert Seen(s, i) == |s.log| - 1;
    assert s.log[sub.joined..|s.log|] == s.log[sub.joined..|s.log| - 1] + [s.worker.e];
    forall j | 0 <= j < |s'.list| && s'.list[j] in s'.subs
      ensures var sub := s'.subs[s'.list[j]];
              sub.joined <= Seen(s', j) <= |s'.log| && sub.offered == s'.log[sub.joined..Seen(s', j)]
    {
      assert j != i ==> s.list[j] != id && Seen(s', j) == Seen(s, j);
    }
  }

  lemma RemoveKeepsWindow(c: Config, s: State, id: SubId)
    requires Enabled(c, s, RunRemove(id)) && WindowOk(s) && ListOk(s) && QueueOk(s) && LivesOk(s)
    ensures WindowOk(Apply(c, s, RunRemove(id)))
  {
    assert s.queue[0] in s.queue;
    WithoutKeeps(s.list, id);
    assert id in s.list;
    var j :| 0 <= j < |s.list| && s.list[j] == id;
    var s' := Apply(c, s, RunRemove(id));
    forall k | 0 <= k < |s'.list| && s'.list[k] in s'.subs
      ensures var sub := s'.subs[s'.list[k]];
              sub.joined <= Seen(s', k) <= |s'.log| && sub.offered == s'.log[sub.joined..Seen(s', k)]
    {
      assert s'.list[k] in s.list;
    }
  }

  lemma StepKeepsWindow(c: Config, s: State, a: Action)
    requires Enabled(c, s, a) && WindowOk(s) && ListOk(s) && QueueOk(s) && WorkerOk(c, s) && LivesOk(s)
    ensures WindowOk(Apply(c, s, a))
  {
    hide WindowOk, ListOk, QueueOk, WorkerOk, LivesOk;
    match a
    case Publish(_) => FrameKeepsWindow(s, Apply(c, s, a));
    case Subscribe(id) => SubscribeKeepsWindow(c, s, id);
    case EnqueueRemove(id) => EnqueueKeepsWindow(c, s, id);
    case RunAdd(id) => AddKeepsWindow(c, s, id);
    case RunRemove(id) => RemoveKeepsWindow(c, s, id);
    case StartBroadcast => BroadcastKeepsWindow(c, s);
    case TrySend(id) => TrySendKeepsWindow(c, s, id);
    case Mark(id) => MarkKeepsWindow(c, s, id);
    case EndBroadcast => EndKeepsWindow(c, s);
    case _ =>
      WatchStepIsLocal(c, s, a);
      LocalKeeps(s, a.id, Apply(c, s, a).subs[a.id]);
  }

  lemma UntouchedOk(c: Config, s: State, a: Action, id: SubId)
    requires c.capacity >= 1 && ListOk(s) && WorkerOk(c, s) && Enabled(c, s, a)
    requires id in s.subs && id in Apply(c, s, a).subs && SubOk(c, id, s.subs[id], MarkingFor(s, id))
    requires Apply(c, s, a).subs[id] == s.subs[id]
    ensures var s' := Apply(c, s, a); SubOk(c, id, s'.subs[id], MarkingFor(s', id))
  {
    var s' := Apply(c, s, a);
    if MarkingFor(s', id) != MarkingFor(s, id) {
      if a == Mark(id) {
        MarkOk(c, id, s.subs[id], s.worker.e);
      } else {
        assert false;
      }
    }
  }

  lemma AdminTouchedOk(c: Config, s: State, a: Action, id: SubId)
    requires ListOk(s) && WorkerOk(c, s) && Enabled(c, s, a) && QueueOk(s)
    requires a.Cancel? || a.Join? || a.EnqueueRemove? || a.RunAdd? || a.RunRemove? || a.Subscribe?
          || a.Publish? || a.StartBroadcast? || a.EndBroadcast?
    requires id in s.subs && id in Apply(c, s, a).subs && SubOk(c, id, s.subs[id], MarkingFor(s, id))
    requires Apply(c, s, a).subs[id] != s.subs[id] && LifeOk(s.subs[id])
    ensures var s' := Apply(c, s, a); SubOk(c, id, s'.subs[id], MarkingFor(s', id))
  {
    hide SubOk;
    if a.RunRemove? {
      assert s.queue[0] in s.queue;
    }
    AdminOk(c, id, s.subs[id], Apply(c, s, a).subs[id], MarkingFor(s, id));
  }

  lemma TouchedOk(c: Config, s: State, a: Action, id: SubId)
    requires c.capacity >= 1 && ListOk(s) && WorkerOk(c, s) && Enabled(c, s, a) && QueueOk(s)
    requires id in s.subs && id in Apply(c, s, a).subs && SubOk(c, id, s.subs[id], MarkingFor(s, id))
    requires Apply(c, s, a).subs[id] != s.subs[id] && LifeOk(s.subs[id])
    ensures var s' := Apply(c, s, a); SubOk(c, id, s'.subs[id], MarkingFor(s', id))
  {
    hide SubOk;
    var sub, sub', marking := s.subs[id], Apply(c, s, a).subs[id], MarkingFor(s, id);
    match a
    case TrySend(_) =>
      if HasRoom(c.capacity, sub.ch) { AcceptOk(c, id, sub, s.worker.e); } else { DropOk(c, id, sub, s.worker.e); }
    case Mark(_) => MarkOk(c, id, sub, s.worker.e);
    case Dequeue(_) => TakeOk(c, id, sub, marking);
    case Check(_) => CheckOk(c, id, sub, marking);
    case Deliver(_, ok) => DeliverOk(c, id, sub, marking, ok);
    case Finish(_) => FinishOk(c, id, sub, marking);
    case _ => AdminTouchedOk(c, s, a, id);
  }

  /** What an action of any goroutine does to the stream of subscriber id. */
  lemma OneSubStep(c: Config, s: State, a: Action, id: SubId)
    requires Inv(c, s) && Enabled(c, s, a) && id in Apply(c, s, a).subs
    ensures var s' := Apply(c, s, a); SubOk(c, id, s'.subs[id], MarkingFor(s', id))
  {
    var s' := Apply(c, s, a);
    if id !in s.subs {
      NewSubOk(c, id);
      assert id !in s.list;
    } else if s'.subs[id] == s.subs[id] {
      UntouchedOk(c, s, a, id);
    } else {
      TouchedOk(c, s, a, id);
    }
  }

  lemma StepKeepsSubs(c: Config, s: State, a: Action)
    requires Inv(c, s) && Enabled(c, s, a)
    ensures SubsOk(c, Apply(c, s, a))
  {
    var s' := Apply(c, s, a);
    forall id | id in s'.subs ensures SubOk(c, id, s'.subs[id], MarkingFor(s', id)) {
      OneSubStep(c, s, a, id);
    }
  }

  /** No send meets a closed channel, no channel is closed twice, no remove job runs before its add job. */
  lemma StepNeverPanics(c: Config, s: State, a: Action)
    requires Enabled(c, s, a) && ListOk(s) && QueueOk(s) && LivesOk(s)
    ensures !Apply(c, s, a).panicked
  {
    match a
    case RunRemove(id) => assert s.queue[0] in s.queue;
    case TrySend(id) => assert id in s.list;
    case _ =>
  }

  /** Every action keeps the invariant. */
  lemma StepKeepsInv(c: Config, s: State, a: Action)
    requires Inv(c, s) && Enabled(c, s, a)
    ensures Inv(c, Apply(c, s, a))
  {
    assert LivesOk(s);
    StepKeepsRoster(c, s, a);
    StepKeepsWorker(c, s, a);
    StepKeepsWindow(c, s, a);
    StepKeepsSubs(c, s, a);
    StepNeverPanics(c, s, a);
  }

  /** Every state of every run satisfies the invariant. */
  lemma {:induction false} RunKeepsInv(c: Config, s: State, acts: seq<Action>)
    requires Inv(c, s) && Run(c, s, acts).Some?
    ensures Inv(c, Run(c, s, acts).value)
    decreases |acts|
  {
    if acts == [] {
    } else {
      var init := acts[..|acts| - 1];
      RunKeepsInv(c, s, init);
      StepKeepsInv(c, Run(c, s, init).value, acts[|acts| - 1]);
    }
  }
}
