/**
 The endpoint registry's calls as they are written, against an API server that other
 replicas use at the same time.
 */
module NseRegistry {
  import opened Wrappers
  import opened Sequences
  import opened ApiStore
  import opened ApiTraffic
  import opened NseContext
  import opened Replicas
  import F = Fanout

  // ---------- list and events ----------

  /** An event of the remote watch: an object that was added, changed or deleted, or something else. */
  datatype WatchEvent = Changed(item: Item, payload: nat) | Removed(item: Item, payload: nat) | Unknown

  /** The spec as a reader sees it, with the object's name if it has none. */
  function Shown(item: Item): Spec {
    item.obj.spec.(name := DefaultName(item.obj.spec, item.key.name))
  }

  /** The update that is broadcast for an event. */
  function UpdateFor(e: WatchEvent): F.Event
    requires !e.Unknown?
  {
    F.Event(DefaultName(e.item.obj.spec, e.item.key.name), e.payload, e.Removed?)
  }

  function TaskForItem(ns: string, item: Item, time: int): Task {
    TaskFor(ns, item.key.name, item.obj, time)
  }

  function ToSend(items: seq<Item>, times: seq<int>, matches: Spec -> bool): seq<Option<Spec>>
    requires |times| == |items|
  {
    seq(|items|, i requires 0 <= i < |items| =>
      if !Expired(items[i].obj.spec, times[i]) && matches(Shown(items[i])) then Some(Shown(items[i])) else None)
  }

  /** What Find sends for the items: the unexpired ones that match, in list order. */
  function FindSends(items: seq<Item>, times: seq<int>, matches: Spec -> bool): seq<Spec>
    requires |times| == |items|
  {
    Collect(ToSend(items, times, matches))
  }

  function ToQueue(ns: string, items: seq<Item>, times: seq<int>): seq<Option<Task>>
    requires |times| == |items|
  {
    seq(|items|, i requires 0 <= i < |items| =>
      if Expired(items[i].obj.spec, times[i]) then Some(TaskForItem(ns, items[i], times[i])) else None)
  }

  /** The clean-up tasks that Find queues: one for each expired item, in list order. */
  function FindTasks(ns: string, items: seq<Item>, times: seq<int>): seq<Task>
    requires |times| == |items|
  {
    Collect(ToQueue(ns, items, times))
  }

  function ToPublish(events: seq<WatchEvent>): seq<Option<F.Event>> {
    seq(|events|, i requires 0 <= i < |events| =>
      if events[i].Unknown? then None else Some(UpdateFor(events[i])))
  }

  /** What the events of a remote watch make the registry broadcast. */
  function Published(events: seq<WatchEvent>): seq<F.Event> {
    Collect(ToPublish(events))
  }

  function ToCleanUp(ns: string, events: seq<WatchEvent>, times: seq<int>): seq<Option<Task>>
    requires |times| == |events|
  {
    seq(|events|, i requires 0 <= i < |events| =>
      if events[i].Changed? && Expired(events[i].item.obj.spec, times[i])
      then Some(TaskForItem(ns, events[i].item, times[i])) else None)
  }

  /** The clean-up tasks for events seen at the given times. */
  function EventTasks(ns: string, events: seq<WatchEvent>, times: seq<int>): seq<Task>
    requires |times| == |events|
  {
    Collect(ToCleanUp(ns, events, times))
  }

  lemma FindStep(ns: string, items: seq<Item>, times: seq<int>, matches: Spec -> bool, n: nat)
    requires |times| == |items| && n < |items|
    ensures FindSends(items[..n + 1], times[..n + 1], matches) == FindSends(items[..n], times[..n], matches) +
            (if !Expired(items[n].obj.spec, times[n]) && matches(Shown(items[n])) then [Shown(items[n])] else [])
    ensures FindTasks(ns, items[..n + 1], times[..n + 1]) == FindTasks(ns, items[..n], times[..n]) +
            (if Expired(items[n].obj.spec, times[n]) then [TaskForItem(ns, items[n], times[n])] else [])
  {
    var sends, tasks := ToSend(items[..n], times[..n], matches), ToQueue(ns, items[..n], times[..n]);
    var send :=
      if !Expired(items[n].obj.spec, times[n]) && matches(Shown(items[n])) then Some(Shown(items[n])) else None;
    var task := if Expired(items[n].obj.spec, times[n]) then Some(TaskForItem(ns, items[n], times[n])) else None;
    hide Collect, Expired, Shown, TaskForItem;
    assert ToSend(items[..n + 1], times[..n + 1], matches) == sends + [send];
    assert ToQueue(ns, items[..n + 1], times[..n + 1]) == tasks + [task];
    CollectSnoc(sends, send);
    CollectSnoc(tasks, task);
  }

  lemma EventStep(ns: string, events: seq<WatchEvent>, times: seq<int>, n: nat)
    requires |times| == |events| && n < |events|
    ensures Published(events[..n + 1]) ==
            Published(events[..n]) + (if events[n].Unknown? then [] else [UpdateFor(events[n])])
    ensures EventTasks(ns, events[..n + 1], times[..n + 1]) == EventTasks(ns, events[..n], times[..n]) +
            (if events[n].Changed? && Expired(events[n].item.obj.spec, times[n])
             then [TaskForItem(ns, events[n].item, times[n])] else [])
  {
    var updates, tasks := ToPublish(events[..n]), ToCleanUp(ns, events[..n], times[..n]);
    var update := if events[n].Unknown? then None else Some(UpdateFor(events[n]));
    var task := if events[n].Changed? && Expired(events[n].item.obj.spec, times[n])
      then Some(TaskForItem(ns, events[n].item, times[n])) else None;
    hide Collect, Expired, UpdateFor, TaskForItem;
    assert ToPublish(events[..n + 1]) == updates + [update];
    assert ToCleanUp(ns, events[..n + 1], times[..n + 1]) == tasks + [task];
    CollectSnoc(updates, update);
    CollectSnoc(tasks, task);
  }

  /** An item as a client is to see it: with the name of the object if it has none of its own. */
  ghost function AsSeen(item: Item): Spec {
    if item.obj.spec.name == "" then Spec(item.key.name, item.obj.spec.expiry, item.obj.spec.payload)
    else item.obj.spec
  }

  /**
   What is sent comes from exactly the items that match and have no expiration time or one
   that has not passed, at these positions.
   */
  ghost predicate SentFrom(at: seq<nat>, items: seq<Item>, times: seq<int>, matches: Spec -> bool)
    requires |times| == |items|
  {
    && Ascending(at, |items|)
    && (forall i: nat :: i in at <==>
          && i < |items| && matches(AsSeen(items[i]))
          && (items[i].obj.spec.expiry.None? || items[i].obj.spec.expiry.value >= times[i]))
    && |FindSends(items, times, matches)| == |at|
    && forall k :: 0 <= k < |at| ==> FindSends(items, times, matches)[k] == AsSeen(items[at[k]])
  }

  /** The delete names the item as a client sees it, in the registry's own namespace, with the version seen. */
  ghost predicate DeletesItem(t: Task, ns: string, item: Item, time: int) {
    t.key.ns == ns && t.key.name == AsSeen(item).name && t.version == item.obj.version && t.at == time
  }

  /** The tasks come from exactly the items whose expiration time has passed, at these positions. */
  ghost predicate QueuedFrom(at: seq<nat>, ns: string, items: seq<Item>, times: seq<int>)
    requires |times| == |items|
  {
    && Ascending(at, |items|)
    && (forall i: nat :: i in at <==>
          i < |items| && items[i].obj.spec.expiry.Some? && items[i].obj.spec.expiry.value < times[i])
    && |FindTasks(ns, items, times)| == |at|
    && forall k :: 0 <= k < |at| ==> DeletesItem(FindTasks(ns, items, times)[k], ns, items[at[k]], times[at[k]])
  }

  lemma SeenIsShown(item: Item)
    ensures AsSeen(item) == Shown(item)
    ensures forall ns, time :: DeletesItem(TaskForItem(ns, item, time), ns, item, time)
  {
  }

  lemma SentPositions(items: seq<Item>, times: seq<int>, matches: Spec -> bool) returns (at: seq<nat>)
    requires |times| == |items|
    ensures SentFrom(at, items, times, matches)
  {
    at := Positions(ToSend(items, times, matches));
    hide Collect, Shown, AsSeen;
    forall i | 0 <= i < |items| ensures AsSeen(items[i]) == Shown(items[i]) {
      SeenIsShown(items[i]);
    }
  }

  lemma QueuedPositions(ns: string, items: seq<Item>, times: seq<int>) returns (at: seq<nat>)
    requires |times| == |items|
    ensures QueuedFrom(at, ns, items, times)
  {
    at := Positions(ToQueue(ns, items, times));
    hide Collect, TaskForItem, DeletesItem;
    forall i | 0 <= i < |items| ensures DeletesItem(TaskForItem(ns, items[i], times[i]), ns, items[i], times[i]) {
      SeenIsShown(items[i]);
    }
  }

  /**
   Every item is sent, queued for clean-up or passed over, exactly one of the three: the
   positions of what is sent are those of the live items that match, the positions of the
   tasks those of the expired ones, each once and in list order.
   */
  lemma FindPartitions(ns: string, items: seq<Item>, times: seq<int>, matches: Spec -> bool)
    returns (sentAt: seq<nat>, queuedAt: seq<nat>)
    requires |times| == |items|
    ensures SentFrom(sentAt, items, times, matches) && QueuedFrom(queuedAt, ns, items, times)
    ensures forall i :: i in sentAt ==> i !in queuedAt
  {
    sentAt := SentPositions(items, times, matches);
    queuedAt := QueuedPositions(ns, items, times);
    hide Collect, Expired, Shown, Ascending, FindSends, FindTasks;
  }

  /**
   No item is treated wrongly: one whose expiration time has passed is queued for clean-up,
   one that matches and has none or a later one is sent.
   */
  lemma FindTreatsEach(ns: string, items: seq<Item>, times: seq<int>, matches: Spec -> bool, i: nat)
    requires |times| == |items| && i < |items|
    ensures var expiry := items[i].obj.spec.expiry;
            if expiry.Some? && expiry.value < times[i] then
              exists t :: t in FindTasks(ns, items, times) && DeletesItem(t, ns, items[i], times[i])
            else
              matches(AsSeen(items[i])) ==> AsSeen(items[i]) in FindSends(items, times, matches)
  {
    var sentAt, queuedAt := FindPartitions(ns, items, times, matches);
    hide Collect, AsSeen, DeletesItem, Ascending, FindSends, FindTasks;
    if i in sentAt {
      var k :| 0 <= k < |sentAt| && sentAt[k] == i;
      assert FindSends(items, times, matches)[k] == AsSeen(items[i]);
    } else if i in queuedAt {
      var k :| 0 <= k < |queuedAt| && queuedAt[k] == i;
      assert DeletesItem(FindTasks(ns, items, times)[k], ns, items[i], times[i]);
    }
  }

  ghost predicate Tells(update: F.Event, e: WatchEvent) {
    match e
    case Changed(item, payload) => update == F.Event(AsSeen(item).name, payload, false)
    case Removed(item, payload) => update == F.Event(AsSeen(item).name, payload, true)
    case Unknown => false
  }

  /**
   The broadcasts come from exactly the endpoint events, at these positions: a removed object
   is broadcast as deleted and no other, each with its payload and the name a client sees.
   */
  ghost predicate PublishedFrom(at: seq<nat>, events: seq<WatchEvent>) {
    && Ascending(at, |events|)
    && (forall i: nat :: i in at <==> i < |events| && (events[i].Changed? || events[i].Removed?))
    && |Published(events)| == |at|
    && forall k :: 0 <= k < |at| ==> Tells(Published(events)[k], events[at[k]])
  }

  /** The tasks come from exactly the changed objects whose expiration time has passed. */
  ghost predicate CleanedFrom(at: seq<nat>, ns: string, events: seq<WatchEvent>, times: seq<int>)
    requires |times| == |events|
  {
    && Ascending(at, |events|)
    && (forall i: nat :: i in at <==>
          && i < |events| && events[i].Changed?
          && events[i].item.obj.spec.expiry.Some? && events[i].item.obj.spec.expiry.value < times[i])
    && |EventTasks(ns, events, times)| == |at|
    && forall k :: 0 <= k < |at| ==>
         && events[at[k]].Changed?
         && DeletesItem(EventTasks(ns, events, times)[k], ns, events[at[k]].item, times[at[k]])
  }

  lemma PublishedPositions(events: seq<WatchEvent>) returns (at: seq<nat>)
    ensures PublishedFrom(at, events)
  {
    at := Positions(ToPublish(events));
    forall i | 0 <= i < |events| && !events[i].Unknown? ensures Tells(UpdateFor(events[i]), events[i]) {
      SeenIsShown(events[i].item);
    }
    hide Collect, UpdateFor, Tells;
    assert forall k :: 0 <= k < |at| ==> at[k] in at;
  }

  lemma CleanedPositions(ns: string, events: seq<WatchEvent>, times: seq<int>) returns (at: seq<nat>)
    requires |times| == |events|
    ensures CleanedFrom(at, ns, events, times)
  {
    at := Positions(ToCleanUp(ns, events, times));
    forall i | 0 <= i < |events| && events[i].Changed?
      ensures DeletesItem(TaskForItem(ns, events[i].item, times[i]), ns, events[i].item, times[i])
    {
      SeenIsShown(events[i].item);
    }
    hide Collect, TaskForItem, DeletesItem;
    assert forall k :: 0 <= k < |at| ==> at[k] in at;
  }

  /**
   A remote watch broadcasts exactly its endpoint events, each once and in order, and
   queues a clean-up for exactly the expired ones among them that are not deletions.
   */
  lemma EventsTreatEach(ns: string, events: seq<WatchEvent>, times: seq<int>)
    returns (publishedAt: seq<nat>, cleanedAt: seq<nat>)
    requires |times| == |events|
    ensures PublishedFrom(publishedAt, events) && CleanedFrom(cleanedAt, ns, events, times)
    ensures forall i :: i in cleanedAt ==> i in publishedAt
  {
    publishedAt := PublishedPositions(events);
    cleanedAt := CleanedPositions(ns, events, times);
    hide Collect, Expired, Ascending, Published, EventTasks;
  }

  /** Item i is live and matches, and its Send fails. */
  ghost predicate FailsAt(items: seq<Item>, times: seq<int>, matches: Spec -> bool, sendOk: seq<bool>, i: nat)
    requires |times| == |items| == |sendOk|
  {
    && i < |items| && !sendOk[i] && matches(AsSeen(items[i]))
    && (items[i].obj.spec.expiry.None? || items[i].obj.spec.expiry.value >= times[i])
  }

  // ---------- the server ----------

  class EtcdNSERegistryServer {
    const client: ApiServer
    const ns: string
    var deletes: seq<Task>          // the queue of deleteExecutor
    var broadcasts: seq<F.Event>    // the broadcast jobs queued on subscribersExecutor

    constructor (client: ApiServer, ns: string)
      ensures this.client == client && this.ns == ns && deletes == [] && broadcasts == []
    {
      this.client, this.ns, deletes, broadcasts := client, ns, [], [];
    }

    /**
     Register: Create, and if the name exists Get and Update; other callers use the server
     between our calls.  It fails before the hand-on exactly if the name is taken and is
     generated, or gone at the Get, or written or deleted between Get and Update; then it
     has not written.
     Otherwise it has written once, and the version of that write is in the context
     `handedOn` that the next element gets.  An error of the next element comes after that.
     */
    method Register(
      ctx: Context, request: Spec, generated: string, ghost op: OpId,
      beforeGet: seq<Call>, beforeUpdate: seq<Call>, nextOk: bool) returns (r: Outcome, handedOn: Context)
      requires client.Valid() && generated != ""
      requires NotBy(beforeGet, op) && NotBy(beforeUpdate, op)
      modifies client
      ensures client.Valid() && Grown(old(client.log), client.log)
      ensures var key := Key(ns, if request.name == "" then generated else request.name);
              && (r.CallFailed? <==> !Writable(old(client.log), key, request.name, beforeGet, beforeUpdate))
              && (r.CallFailed? ==> WritesOf(old(client.log), client.log, op) == {})
              && (!r.CallFailed? ==>
                    && (r.Done? <==> nextOk)
                    && WroteOnce(old(client.log), Served(old(client.log), beforeGet), client.log, key, request, op)
                    && ValueOf(handedOn, VersionKey) == Some(Version(|client.log|)))
      ensures forall k :: ValueOf(handedOn, OtherKey(k)) == ValueOf(ctx, OtherKey(k))
    {
      handedOn := ctx;
      var key := Key(ns, if request.name == "" then generated else request.name);
      ghost var before := client.log;
      NothingWritten(before, op);
      RegisterReplies(before, key, request, beforeGet, beforeUpdate, op);
      hide *;
      var reply := client.CreateObject(key, request, Some(op));
      if reply.AlreadyExists? {
        ServedGrows(before, beforeGet, op);
        ServeAll(client, beforeGet);
        ghost var readLog := client.log;
        var nse := client.GetObject(Key(ns, request.name));
        if !nse.Ok? {
          return CallFailed, handedOn;
        }
        ServedGrows(readLog, beforeUpdate, op);
        ServeAll(client, beforeUpdate);
        ghost var log := client.log;
        NoWrites(before, readLog, log, op);
        UpdateReply(log, key, nse.obj.version, request, op);
        reply := client.UpdateObject(key, nse.obj.version, request, Some(op));
        if reply.Ok? {
          UpdatedOnce(before, readLog, log, key, request, op, nse.obj.version);
          OwnWrite(before, log, key, request, op, Some(nse.obj.version));
        }
      } else {
        CreatedOnce(before, Served(before, beforeGet), key, request, op);
        OwnWrite(before, before, key, request, op, None);
      }
      if !reply.Ok? {
        return CallFailed, handedOn;
      }
      VersionIsRead(ctx, reply.obj.version);
      handedOn := WithNSEVersion(ctx, reply.obj.version);
      r := if nextOk then Done else NextFailed;
    }

    /** Unregister: the delete is conditional exactly if the context carries a version; its failure is only logged. */
    method Unregister(ctx: Context, name: string, nextOk: bool) returns (r: Outcome)
      requires client.Valid()
      modifies client
      ensures client.Valid() && (if nextOk then r.Done? else r.NextFailed?)
      ensures !nextOk ==> client.log == old(client.log)
      ensures client.log != old(client.log) ==>
                var was := Lookup(old(client.log), Key(ns, name));
                var carried := NSEVersionFromContext(ctx);
                && was.Some? && (carried.Some? ==> was.value.version == carried.value)
                && client.log ==
                   old(client.log) + [Erased(Key(ns, name), was.value.version, ApiStore.Unregister(carried))]
      ensures nextOk && name != "" ==>
                match Lookup(client.log, Key(ns, name))
                case None => true
                case Some(obj) =>
                  Lookup(old(client.log), Key(ns, name)) == Some(obj)
                  && exists v: nat :: ValueOf(ctx, VersionKey) == Some(Version(v)) && v != obj.version
      ensures forall v: nat | ValueOf(ctx, VersionKey) == Some(Version(v)) ::
                var was := Lookup(old(client.log), Key(ns, name));
                client.log != old(client.log) ==> was.Some? && was.value.version == v
    {
      if !nextOk {
        return NextFailed;
      }
      VersionIsReadIff(ctx, []);
      var version := NSEVersionFromContext(ctx);
      ghost var log := client.log;
      var reply := client.DeleteObject(Key(ns, name), version, ApiStore.Unregister(version));
      if client.log != log {
        LookupSnoc(log, client.log[|log|], Key(ns, name));
      }
      return Done;
    }

    /**
     The list part of Find.  `times` are the clock readings for the items, `sendOk` what
     Send answers.  The first failed Send ends the call, and only that; the items before it
     were treated fully.
     */
    method FindList(items: seq<Item>, times: seq<int>, matches: Spec -> bool, sendOk: seq<bool>)
      returns (sent: seq<Spec>, failed: bool, done: nat)
      requires |times| == |items| == |sendOk|
      modifies this`deletes
      ensures done <= |items| && (failed <==> done < |items|)
      ensures failed ==> FailsAt(items, times, matches, sendOk, done)
      ensures forall i :: 0 <= i < done ==> !FailsAt(items, times, matches, sendOk, i)
      ensures sent == FindSends(items[..done], times[..done], matches)
      ensures deletes == old(deletes) + FindTasks(ns, items[..done], times[..done])
    {
      sent := [];
      done := 0;
      while done < |items|
        invariant done <= |items|
        invariant forall i :: 0 <= i < done ==> !FailsAt(items, times, matches, sendOk, i)
        invariant sent == FindSends(items[..done], times[..done], matches)
        invariant deletes == old(deletes) + FindTasks(ns, items[..done], times[..done])
      {
        var crd := items[done];
        FindStep(ns, items, times, matches, done);
        SeenIsShown(crd);
        if Expired(crd.obj.spec, times[done]) {
          deletes := deletes + [TaskForItem(ns, crd, times[done])];
        } else if matches(Shown(crd)) {
          if !sendOk[done] {
            return sent, true, done;
          }
          sent := sent + [Shown(crd)];
        }
        done := done + 1;
      }
      return sent, false, done;
    }

    /** The events of one remote watch: each is broadcast, and an expired one is queued for clean-up. */
    method WatchRemoteStorage(events: seq<WatchEvent>, times: seq<int>)
      requires |times| == |events|
      modifies this`deletes, this`broadcasts
      ensures broadcasts == old(broadcasts) + Published(events)
      ensures deletes == old(deletes) + EventTasks(ns, events, times)
    {
      for k := 0 to |events|
        invariant broadcasts == old(broadcasts) + Published(events[..k])
        invariant deletes == old(deletes) + EventTasks(ns, events[..k], times[..k])
      {
        var event := events[k];
        EventStep(ns, events, times, k);
        if !event.Unknown? {
          var item := event.item;
          broadcasts := broadcasts + [UpdateFor(event)];
          if event.Changed? && Expired(item.obj.spec, times[k]) {
            deletes := deletes + [TaskForItem(ns, item, times[k])];
          }
        }
      }
      assert events[..|events|] == events && times[..|events|] == times;
    }

    /** One job of deleteExecutor: it deletes the version it names, or nothing; either way that is not stored then. */
    method RunDelete(ghost rid: ReplicaId)
      requires client.Valid() && deletes != []
      modifies client, this`deletes
      ensures client.Valid() && deletes == old(deletes[1..])
      ensures var t := old(deletes[0]);
              && (forall obj :: t.key.name != "" && Lookup(client.log, t.key) == Some(obj) ==> obj.version != t.version)
              && (client.log == old(client.log)
               || (client.log == old(client.log) + [Erased(t.key, t.version, Expiry(rid, t.version, t.at))]
                && Lookup(old(client.log), t.key).Some? && Lookup(old(client.log), t.key).value.version == t.version))
    {
      var t := deletes[0];
      deletes := deletes[1..];
      ghost var log := client.log;
      var reply := client.DeleteObject(t.key, Some(t.version), Expiry(rid, t.version, t.at));
      if client.log != log {
        LookupSnoc(log, client.log[|log|], t.key);
      }
    }
  }
}
