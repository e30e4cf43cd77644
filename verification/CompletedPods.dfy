/**
 The clean-up of completed pods: a watch is opened, then the pods are listed, then the
 events of the watch are consumed.  Everything else in the namespace goes on meanwhile.
 */
module CompletedPods {
  import opened Wrappers
  import opened Sequences

  /** `createdBy` is the value of that label, if the pod has it. */
  datatype Pod = Pod(name: string, createdBy: Option<string>, phase: string)

  /** A missing label reads as the empty string. */
  predicate IsDone(p: Pod, me: string) {
    && (if p.createdBy.Some? then p.createdBy.value else "") == me
    && (p.phase == "Succeeded" || p.phase == "Failed")
  }

  // ---------- the monitor as it is written ----------

  /** The name to delete for a pod, if it is to be deleted. */
  function NameIfDone(p: Pod, me: string): Option<string> {
    if IsDone(p, me) then Some(p.name) else None
  }

  function DoneInList(pods: seq<Pod>, me: string): seq<Option<string>> {
    seq(|pods|, i requires 0 <= i < |pods| => NameIfDone(pods[i], me))
  }

  /** The names to delete for the pods of a list, in order. */
  function ListNames(pods: seq<Pod>, me: string): seq<string> {
    Collect(DoneInList(pods, me))
  }

  function DoneInEvents(events: seq<Option<Pod>>, me: string): seq<Option<string>> {
    seq(|events|, i requires 0 <= i < |events| =>
      if events[i].Some? then NameIfDone(events[i].value, me) else None)
  }

  /** The names to delete for the objects of the watch's events, in order; objects other than pods are skipped. */
  function EventNames(events: seq<Option<Pod>>, me: string): seq<string> {
    Collect(DoneInEvents(events, me))
  }

  lemma NothingYet(me: string)
    ensures ListNames([], me) == [] && EventNames([], me) == []
  {
  }

  lemma OnePod(pods: seq<Pod>, i: nat, me: string)
    requires i < |pods|
    ensures ListNames(pods[..i + 1], me) ==
            ListNames(pods[..i], me) + (if IsDone(pods[i], me) then [pods[i].name] else [])
  {
    assert DoneInList(pods[..i + 1], me) == DoneInList(pods[..i], me) + [NameIfDone(pods[i], me)];
    CollectSnoc(DoneInList(pods[..i], me), NameIfDone(pods[i], me));
  }

  lemma OneEvent(events: seq<Option<Pod>>, i: nat, me: string)
    requires i < |events|
    ensures EventNames(events[..i + 1], me) == EventNames(events[..i], me) +
            (if events[i].Some? && IsDone(events[i].value, me) then [events[i].value.name] else [])
  {
    var name := if events[i].Some? then NameIfDone(events[i].value, me) else None;
    assert DoneInEvents(events[..i + 1], me) == DoneInEvents(events[..i], me) + [name];
    CollectSnoc(DoneInEvents(events[..i], me), name);
  }

  /** The pod is this server's, as its label tells, and its phase is one of the two final ones. */
  ghost predicate FinishedHere(p: Pod, me: string) {
    && (p.createdBy == Some(me) || (p.createdBy == None && me == ""))
    && p.phase in {"Succeeded", "Failed"}
  }

  /**
   The monitor deletes for exactly the finished pods of this server, each occurrence once
   and in order: first those of the list, then those of the events.
   */
  lemma DeletesExactlyDone(pods: seq<Pod>, events: seq<Option<Pod>>, me: string)
    returns (listAt: seq<nat>, eventAt: seq<nat>)
    ensures Ascending(listAt, |pods|) && forall i: nat :: i in listAt <==> i < |pods| && FinishedHere(pods[i], me)
    ensures |ListNames(pods, me)| == |listAt|
    ensures forall k :: 0 <= k < |listAt| ==> ListNames(pods, me)[k] == pods[listAt[k]].name
    ensures Ascending(eventAt, |events|)
    ensures forall i: nat :: i in eventAt <==> i < |events| && events[i].Some? && FinishedHere(events[i].value, me)
    ensures |EventNames(events, me)| == |eventAt|
    ensures forall k :: 0 <= k < |eventAt| ==>
              events[eventAt[k]].Some? && EventNames(events, me)[k] == events[eventAt[k]].value.name
  {
    listAt := Positions(DoneInList(pods, me));
    eventAt := Positions(DoneInEvents(events, me));
    forall p: Pod ensures FinishedHere(p, me) <==> IsDone(p, me) {
    }
    hide Collect, IsDone, FinishedHere;
    assert forall k :: 0 <= k < |eventAt| ==> eventAt[k] in eventAt;
  }

  class CreatePodServer {
    const myName: string
    var deleted: seq<string>    // the names for which a delete was issued, in order

    constructor (name: string)
      ensures myName == name && deleted == []
    {
      myName, deleted := name, [];
    }

    method DeleteSpawnedCompletedPod(p: Pod)
      modifies this`deleted
      ensures deleted == old(deleted) + (if IsDone(p, myName) then [p.name] else [])
    {
      var owner := if p.createdBy.Some? then p.createdBy.value else "";
      if owner != myName {
        return;
      }
      if p.phase != "Succeeded" && p.phase != "Failed" {
        return;
      }
      deleted := deleted + [p.name];
    }

    /** The list, if it succeeds, and then the events until the watch ends. */
    method MonitorCompletedPods(list: Option<seq<Pod>>, events: seq<Option<Pod>>)
      modifies this`deleted
      ensures deleted == old(deleted) + (if list.Some? then ListNames(list.value, myName) else [])
                       + EventNames(events, myName)
    {
      NothingYet(myName);
      hide ListNames, EventNames;
      if list.Some? {
        var items := list.value;
        for i := 0 to |items|
          invariant deleted == old(deleted) + ListNames(items[..i], myName)
        {
          OnePod(items, i, myName);
          DeleteSpawnedCompletedPod(items[i]);
        }
        assert items[..|items|] == items;
      }
      ghost var listed := deleted;
      for i := 0 to |events|
        invariant deleted == listed + EventNames(events[..i], myName)
      {
        OneEvent(events, i, myName);
        if events[i].Some? {
          DeleteSpawnedCompletedPod(events[i].value);
        }
      }
      assert events[..|events|] == events;
    }
  }

  // ---------- the monitor among other users of the namespace ----------

  /** An event of the watch: a pod was added or changed, or it was deleted. */
  datatype Event = Changed(pod: Pod) | Removed(pod: Pod)

  datatype Phase = BeforeList | InList(items: seq<Pod>, i: nat) | InEvents(listed: bool)

  datatype Issue = Issue(name: string, at: nat)

  /**
   `events` are the changes since the watch was opened.  The first `delivered` of them
   reach the watch, `consumed` were handled.  History: `doneAt` is when a stored pod
   became done, `issues` the deletes issued so far, `ever` every pod that was ever stored.
   */
  datatype State = State(
    pods: map<string, Pod>, events: seq<Event>, delivered: nat, consumed: nat, watching: bool, phase: Phase,
    now: nat, doneAt: map<string, nat>, issues: seq<Issue>, ever: set<Pod>)

  datatype Action =
    | Put(p: Pod)              // somebody creates or changes a pod
    | Delete(name: string)     // a pod goes away
    | List(items: seq<Pod>)    // the list call answers, in some order
    | FailList
    | NextItem
    | NextEvent
    | CloseWatch               // the API server ends the watch; it is not reopened

  predicate Enabled(s: State, a: Action) {
    match a
    case Put(_) => true
    case Delete(name) => name in s.pods
    case List(items) =>
      && s.phase.BeforeList?
      && (forall name :: name in s.pods ==> s.pods[name] in items)
      && (forall k :: 0 <= k < |items| ==> items[k].name in s.pods && s.pods[items[k].name] == items[k])
    case FailList => s.phase.BeforeList?
    case NextItem => s.phase.InList?
    case NextEvent => s.phase.InEvents? && s.consumed < s.delivered && s.consumed < |s.events|
    case CloseWatch => s.watching
  }

  function Issued(s: State, me: string, p: Pod): seq<Issue> {
    s.issues + (if IsDone(p, me) then [Issue(p.name, s.now)] else [])
  }

  function AddEvent(s: State, e: Event): State {
    s.(events := s.events + [e], delivered := if s.watching then |s.events| + 1 else s.delivered)
  }

  function Effect(me: string, s: State, a: Action): State
    requires Enabled(s, a)
  {
    match a
    case Put(p) =>
      var was := p.name in s.pods && IsDone(s.pods[p.name], me) && p.name in s.doneAt;
      AddEvent(s, Changed(p)).(
        pods := s.pods[p.name := p], ever := s.ever + {p},
        doneAt := if !IsDone(p, me) then s.doneAt - {p.name}
                  else if was then s.doneAt else s.doneAt[p.name := s.now])
    case Delete(name) =>
      AddEvent(s, Removed(s.pods[name])).(pods := s.pods - {name}, doneAt := s.doneAt - {name})
    case List(items) => s.(phase := InList(items, 0))
    case FailList => s.(phase := InEvents(false))
    case NextItem =>
      if |s.phase.items| <= s.phase.i then s.(phase := InEvents(true))
      else s.(issues := Issued(s, me, s.phase.items[s.phase.i]), phase := InList(s.phase.items, s.phase.i + 1))
    case NextEvent => s.(issues := Issued(s, me, s.events[s.consumed].pod), consumed := s.consumed + 1)
    case CloseWatch => s.(watching := false)
  }

  function Apply(me: string, s: State, a: Action): State
    requires Enabled(s, a)
  {
    var s' := Effect(me, s, a);
    s'.(now := s.now + 1)
  }

  /** The watch has just been opened; any pods may be stored already. */
  ghost predicate IsInit(me: string, s: State) {
    && s.events == [] && s.delivered == 0 && s.consumed == 0 && s.watching && s.phase.BeforeList? && s.issues == []
    && (forall name :: name in s.pods ==> s.pods[name].name == name)
    && (forall p :: p in s.ever <==> p.name in s.pods && s.pods[p.name] == p)
    && (forall name :: name in s.doneAt <==> name in s.pods && IsDone(s.pods[name], me))
    && (forall name :: name in s.doneAt ==> s.doneAt[name] < s.now)
  }

  function Run(me: string, s: State, acts: seq<Action>): Option<State> {
    if acts == [] then Some(s)
    else
      var before, a := Run(me, s, acts[..|acts| - 1]), acts[|acts| - 1];
      if before.Some? && Enabled(before.value, a) then Some(Apply(me, before.value, a)) else None
  }

  // ---------- the last event of a name ----------

  function LastOf(events: seq<Event>, name: string): Option<Event> {
    if events == [] then None
    else
      var last := events[|events| - 1];
      if last.pod.name == name then Some(last) else LastOf(events[..|events| - 1], name)
  }

  lemma LastOfSnoc(events: seq<Event>, e: Event, name: string)
    ensures LastOf(events + [e], name) == if e.pod.name == name then Some(e) else LastOf(events, name)
  {
    assert (events + [e])[..|events|] == events;
  }

  /** The last event of a name among the later ones is the last of all, if there is one. */
  lemma {:induction false} LastOfSuffix(events: seq<Event>, from: nat, name: string)
    requires from <= |events|
    ensures LastOf(events[from..], name).Some? ==> LastOf(events[from..], name) == LastOf(events, name)
    ensures from < |events| && events[from].pod.name == name ==> LastOf(events[from..], name).Some?
    decreases |events|
  {
    if from < |events| {
      var init, last := events[..|events| - 1], events[|events| - 1];
      assert events == init + [last] && events[from..] == init[from..] + [last];
      LastOfSnoc(init, last, name);
      LastOfSnoc(init[from..], last, name);
      LastOfSuffix(init, from, name);
    }
  }

  /** What is stored under a name, told by its last event. */
  function StoredAfter(e: Event): Option<Pod> {
    if e.Changed? then Some(e.pod) else None
  }

  function Stored(s: State, name: string): Option<Pod> {
    if name in s.pods then Some(s.pods[name]) else None
  }

  // ---------- the invariant ----------

  ghost predicate StoreOk(me: string, s: State) {
    && s.consumed <= s.delivered <= |s.events| && (s.watching ==> s.delivered == |s.events|)
    && (forall name :: name in s.pods ==> s.pods[name].name == name && s.pods[name] in s.ever)
    && (forall name :: name in s.doneAt <==> name in s.pods && IsDone(s.pods[name], me))
    && (forall name :: name in s.doneAt ==> s.doneAt[name] <= s.now)
    && (forall k :: 0 <= k < |s.events| ==> s.events[k].pod in s.ever)
    && (s.phase.InList? ==> forall p :: p in s.phase.items ==> p in s.ever)
  }

  /** The last event of a name, or else the listed item, tells what is stored. */
  ghost predicate EventsTell(s: State) {
    && (forall name :: LastOf(s.events, name).Some? ==> Stored(s, name) == StoredAfter(LastOf(s.events, name).value))
    && (!s.phase.InEvents? ==> s.consumed == 0)
    && (s.phase.InList? ==>
          forall p :: p in s.phase.items && LastOf(s.events, p.name).None? ==> Stored(s, p.name) == Some(p))
  }

  ghost predicate IssuedSince(s: State, name: string, t: nat) {
    exists k :: 0 <= k < |s.issues| && s.issues[k].name == name && s.issues[k].at >= t
  }

  ghost predicate UpcomingItem(me: string, pods: seq<Pod>, i: nat, name: string) {
    exists k :: i <= k < |pods| && pods[k].name == name && IsDone(pods[k], me)
  }

  ghost predicate UpcomingEvent(me: string, events: seq<Event>, i: nat, name: string) {
    exists k :: i <= k < |events| && events[k].pod.name == name && IsDone(events[k].pod, me)
  }

  /** A delete was issued since the pod was done, or the monitor is still to meet it. */
  ghost predicate Covered(me: string, s: State, name: string)
    requires name in s.doneAt
  {
    || IssuedSince(s, name, s.doneAt[name])
    || UpcomingEvent(me, s.events, s.consumed, name)
    || s.phase.BeforeList?
    || (s.phase.InList? && UpcomingItem(me, s.phase.items, s.phase.i, name))
    || s.phase == InEvents(false) || !s.watching
  }

  ghost predicate WasDone(me: string, ever: set<Pod>, name: string) {
    exists p :: p in ever && p.name == name && IsDone(p, me)
  }

  /** Every delete is for a pod that was stored under that name and done. */
  ghost predicate IssuesOk(me: string, s: State) {
    forall k :: 0 <= k < |s.issues| ==> WasDone(me, s.ever, s.issues[k].name)
  }

  ghost predicate Inv(me: string, s: State) {
    StoreOk(me, s) && EventsTell(s) && IssuesOk(me, s) && forall name :: name in s.doneAt ==> Covered(me, s, name)
  }

  lemma PutStore(me: string, s: State, p: Pod)
    requires StoreOk(me, s) && Enabled(s, Put(p))
    ensures StoreOk(me, Apply(me, s, Put(p)))
  {
  }

  lemma StoreStep(me: string, s: State, a: Action)
    requires StoreOk(me, s) && Enabled(s, a)
    ensures StoreOk(me, Apply(me, s, a))
  {
    if a.Put? {
      PutStore(me, s, a.p);
    }
  }

  /** A change of one name keeps what is known of the others. */
  lemma TellAfter(s: State, e: Event, s': State)
    requires EventsTell(s) && s'.events == s.events + [e] && s'.consumed == s.consumed && s'.phase == s.phase
    requires forall name :: Stored(s', name) == if name == e.pod.name then StoredAfter(e) else Stored(s, name)
    ensures EventsTell(s')
  {
    forall name ensures LastOf(s'.events, name) == if e.pod.name == name then Some(e) else LastOf(s.events, name) {
      LastOfSnoc(s.events, e, name);
    }
    hide LastOf, Stored, StoredAfter;
  }

  lemma TellStep(me: string, s: State, a: Action)
    requires StoreOk(me, s) && EventsTell(s) && Enabled(s, a)
    ensures EventsTell(Apply(me, s, a))
  {
    var s' := Apply(me, s, a);
    match a
    case Put(p) =>
      hide EventsTell;
      TellAfter(s, Changed(p), s');
    case Delete(name) =>
      hide EventsTell;
      TellAfter(s, Removed(s.pods[name]), s');
    case _ =>
  }

  lemma IssuesStep(me: string, s: State, a: Action)
    requires StoreOk(me, s) && IssuesOk(me, s) && Enabled(s, a)
    ensures IssuesOk(me, Apply(me, s, a))
  {
    var s' := Apply(me, s, a);
    forall k | 0 <= k < |s'.issues|
      ensures WasDone(me, s'.ever, s'.issues[k].name)
    {
      if k < |s.issues| {
        assert s'.issues[k] == s.issues[k];
        var p :| p in s.ever && p.name == s.issues[k].name && IsDone(p, me);
        assert p in s'.ever;
      } else {
        var p := if a.NextItem? then s.phase.items[s.phase.i] else s.events[s.consumed].pod;
        assert p in s.ever && s'.issues[k].name == p.name && IsDone(p, me);
        assert p in s'.ever;
      }
    }
  }

  lemma CoveredStep(me: string, s: State, a: Action, name: string)
    requires StoreOk(me, s) && Enabled(s, a) && name in Apply(me, s, a).doneAt
    requires name in s.doneAt ==> Covered(me, s, name)
    ensures Covered(me, Apply(me, s, a), name)
  {
    var s' := Apply(me, s, a);
    if a.Put? && a.p.name == name && s.watching {
      assert s'.events[|s.events|].pod == a.p;
      assert UpcomingEvent(me, s'.events, s'.consumed, name);
    } else if name in s.doneAt && s'.watching {
      if IssuedSince(s, name, s.doneAt[name]) {
        var k :| 0 <= k < |s.issues| && s.issues[k].name == name && s.issues[k].at >= s.doneAt[name];
        assert s'.issues[k] == s.issues[k];
      } else if UpcomingEvent(me, s.events, s.consumed, name) {
        var k :| s.consumed <= k < |s.events| && s.events[k].pod.name == name && IsDone(s.events[k].pod, me);
        assert s'.events[k] == s.events[k];
        if a.NextEvent? && k == s.consumed {
          assert s'.issues[|s.issues|] == Issue(name, s.now);
        }
      } else if s.phase.InList? {
        var k :| s.phase.i <= k < |s.phase.items| && s.phase.items[k].name == name && IsDone(s.phase.items[k], me);
        if a.NextItem? && k == s.phase.i {
          assert s'.issues[|s.issues|] == Issue(name, s.now);
        }
      } else if a.List? {
        var k :| 0 <= k < |a.items| && a.items[k] == s.pods[name];
        assert UpcomingItem(me, s'.phase.items, 0, name);
      }
    }
  }

  /** Every state of every run satisfies the invariant. */
  lemma {:induction false} RunInv(me: string, s: State, acts: seq<Action>)
    requires IsInit(me, s) && Run(me, s, acts).Some?
    ensures Inv(me, Run(me, s, acts).value)
  {
    if acts == [] {
    } else {
      var a := acts[|acts| - 1];
      RunInv(me, s, acts[..|acts| - 1]);
      var mid := Run(me, s, acts[..|acts| - 1]).value;
      StoreStep(me, mid, a);
      TellStep(me, mid, a);
      IssuesStep(me, mid, a);
      forall name | name in Apply(me, mid, a).doneAt ensures Covered(me, Apply(me, mid, a), name) {
        CoveredStep(me, mid, a, name);
      }
    }
  }
}
