/**
 What every run of the clean-up of completed pods guarantees.
 */
module PodRuns {
  import opened Wrappers
  import opened CompletedPods

  // ---------- the deletes and the actions ----------

  /** The monitor is about to handle a pod: a listed one or that of an event. */
  predicate Handles(s: State, a: Action) {
    || (a.NextItem? && s.phase.InList? && s.phase.i < |s.phase.items|)
    || (a.NextEvent? && Enabled(s, a))
  }

  function Handled(s: State, a: Action): Pod
    requires Handles(s, a)
  {
    if a.NextItem? then s.phase.items[s.phase.i] else s.events[s.consumed].pod
  }

  /** A delete is issued exactly when a finished pod of this server is handled, for its name. */
  lemma StepIssues(me: string, s: State, a: Action)
    requires Enabled(s, a)
    ensures Apply(me, s, a).now == s.now + 1
    ensures Apply(me, s, a).issues ==
            if Handles(s, a) && FinishedHere(Handled(s, a), me) then s.issues + [Issue(Handled(s, a).name, s.now)]
            else s.issues
  {
  }

  lemma {:induction false} ClockCounts(me: string, s: State, acts: seq<Action>)
    requires Run(me, s, acts).Some?
    ensures Run(me, s, acts).value.now == s.now + |acts|
  {
    if acts == [] {
    } else {
      ClockCounts(me, s, acts[..|acts| - 1]);
    }
  }

  /** Action k handles a finished pod of this name. */
  ghost predicate IssuesAt(me: string, s: State, acts: seq<Action>, k: nat, name: string) {
    && k < |acts| && Run(me, s, acts[..k]).Some?
    && Handles(Run(me, s, acts[..k]).value, acts[k])
    && FinishedHere(Handled(Run(me, s, acts[..k]).value, acts[k]), me)
    && Handled(Run(me, s, acts[..k]).value, acts[k]).name == name
  }

  lemma IssuedBefore(me: string, s: State, init: seq<Action>, a: Action, k: nat, name: string)
    requires IssuesAt(me, s, init, k, name)
    ensures IssuesAt(me, s, init + [a], k, name)
  {
    assert (init + [a])[..k] == init[..k];
  }

  /** The last action of a run has issued one delete, or none. */
  lemma LastIssues(me: string, s: State, init: seq<Action>, a: Action) returns (issued: seq<Issue>)
    requires Run(me, s, init + [a]).Some?
    ensures Run(me, s, init).Some? && |issued| <= 1
    ensures Run(me, s, init + [a]).value.issues == Run(me, s, init).value.issues + issued
    ensures issued != [] ==> issued[0].at == s.now + |init| && IssuesAt(me, s, init + [a], |init|, issued[0].name)
  {
    assert (init + [a])[..|init|] == init;
    var mid := Run(me, s, init).value;
    ClockCounts(me, s, init);
    StepIssues(me, mid, a);
    hide Apply, Enabled, FinishedHere;
    issued := [];
    if Handles(mid, a) && FinishedHere(Handled(mid, a), me) {
      issued := [Issue(Handled(mid, a).name, mid.now)];
    }
  }

  lemma NothingDone(me: string, s: State)
    ensures Run(me, s, []) == Some(s)
  {
  }

  lemma KeepsIssue(me: string, s: State, init: seq<Action>, a: Action, n: nat, issue: Issue, issued: seq<Issue>)
    requires Run(me, s, init).Some? && n < |Run(me, s, init).value.issues| && Run(me, s, init).value.issues[n] == issue
    requires Run(me, s, init + [a]).Some?
    requires Run(me, s, init + [a]).value.issues == Run(me, s, init).value.issues + issued
    requires issue.at >= s.now && IssuesAt(me, s, init, issue.at - s.now, issue.name)
    ensures n < |Run(me, s, init + [a]).value.issues| && Run(me, s, init + [a]).value.issues[n] == issue
    ensures IssuesAt(me, s, init + [a], issue.at - s.now, issue.name)
  {
    hide *;
    IssuedBefore(me, s, init, a, issue.at - s.now, issue.name);
  }

  /** Every delete was issued by an action of the run. */
  lemma {:induction false} IssueIsAction(me: string, s: State, acts: seq<Action>, n: nat)
    requires s.issues == [] && Run(me, s, acts).Some? && n < |Run(me, s, acts).value.issues|
    ensures var issue := Run(me, s, acts).value.issues[n];
            issue.at >= s.now && IssuesAt(me, s, acts, issue.at - s.now, issue.name)
    decreases |acts|
  {
    hide *;
    if acts == [] {
      NothingDone(me, s);
    } else {
      var init, a := acts[..|acts| - 1], acts[|acts| - 1];
      assert acts == init + [a];
      var issued := LastIssues(me, s, init, a);
      var before := Run(me, s, init).value.issues;
      if n < |before| {
        IssueIsAction(me, s, init, n);
        KeepsIssue(me, s, init, a, n, before[n], issued);
      } else {
        assert (before + issued)[n] == issued[0];
      }
    }
  }

  /** A finished pod of this server is stored under the name after the first m actions. */
  ghost predicate IsFinishedAfter(me: string, s: State, acts: seq<Action>, m: nat, name: string) {
    && m <= |acts| && Run(me, s, acts[..m]).Some?
    && name in Run(me, s, acts[..m]).value.pods && FinishedHere(Run(me, s, acts[..m]).value.pods[name], me)
  }

  lemma DoneStep(me: string, s: State, a: Action, name: string)
    requires StoreOk(me, s) && Enabled(s, a) && name in Apply(me, s, a).doneAt
    ensures (name in s.doneAt && Apply(me, s, a).doneAt[name] == s.doneAt[name])
         || (a.Put? && name !in s.doneAt && Apply(me, s, a).doneAt[name] == s.now)
  {
  }

  lemma DoneIsFinished(me: string, s: State, name: string)
    requires Inv(me, s)
    ensures name in s.doneAt <==> name in s.pods && FinishedHere(s.pods[name], me)
    ensures name in s.doneAt ==> s.doneAt[name] <= s.now
  {
  }

  lemma StoreOf(me: string, s: State)
    requires Inv(me, s)
    ensures StoreOk(me, s)
  {
  }

  lemma FinishedNow(me: string, s: State, acts: seq<Action>, name: string)
    requires IsInit(me, s) && Run(me, s, acts).Some?
    ensures name in Run(me, s, acts).value.doneAt <==> IsFinishedAfter(me, s, acts, |acts|, name)
  {
    assert acts[..|acts|] == acts;
    RunInv(me, s, acts);
    hide Run, Inv, FinishedHere;
    DoneIsFinished(me, Run(me, s, acts).value, name);
  }

  lemma FinishedBefore(me: string, s: State, init: seq<Action>, a: Action, m: nat, name: string)
    requires m <= |init|
    ensures IsFinishedAfter(me, s, init + [a], m, name) <==> IsFinishedAfter(me, s, init, m, name)
  {
    assert (init + [a])[..m] == init[..m];
  }

  lemma DoneAtInit(me: string, s: State, acts: seq<Action>, name: string)
    requires IsInit(me, s) && acts == [] && Run(me, s, acts).Some? && name in Run(me, s, acts).value.doneAt
    ensures Run(me, s, acts) == Some(s) && s.doneAt[name] < s.now
  {
  }

  lemma LastDone(me: string, s: State, init: seq<Action>, a: Action, name: string)
    requires IsInit(me, s) && Run(me, s, init + [a]).Some? && name in Run(me, s, init + [a]).value.doneAt
    ensures Run(me, s, init).Some? && Run(me, s, init).value.now == s.now + |init|
    ensures var mid, t := Run(me, s, init).value, Run(me, s, init + [a]).value.doneAt[name];
            (name in mid.doneAt && t == mid.doneAt[name]) || (a.Put? && t == s.now + |init|)
  {
    assert (init + [a])[..|init|] == init;
    var mid := Run(me, s, init).value;
    RunInv(me, s, init);
    ClockCounts(me, s, init);
    hide Inv, IsInit, Enabled, Apply;
    StoreOf(me, mid);
    DoneStep(me, mid, a, name);
  }

  /** The recorded time since which a pod is finished is right: it has been so in every state since. */
  lemma {:induction false} DoneSince(me: string, s: State, acts: seq<Action>, name: string, m: nat)
    requires IsInit(me, s) && Run(me, s, acts).Some? && name in Run(me, s, acts).value.doneAt
    requires m <= |acts|
    ensures var t := Run(me, s, acts).value.doneAt[name];
            && (t < s.now + m ==> IsFinishedAfter(me, s, acts, m, name))
            && (t >= s.now ==> t - s.now < |acts| && acts[t - s.now].Put?)
    decreases |acts|
  {
    hide *;
    FinishedNow(me, s, acts, name);
    if acts == [] {
      DoneAtInit(me, s, acts, name);
    } else {
      var init, a := acts[..|acts| - 1], acts[|acts| - 1];
      assert acts == init + [a];
      LastDone(me, s, init, a, name);
      if name in Run(me, s, init).value.doneAt {
        DoneSince(me, s, init, name, if m < |acts| then m else |init|);
      }
      if m < |acts| {
        FinishedBefore(me, s, init, a, m, name);
      }
    }
  }

  // ---------- the watch ----------

  predicate ChangesPod(a: Action) {
    a.Put? || a.Delete?
  }

  /** How many changes of pods reach the watch: those before it was closed. */
  function Reached(acts: seq<Action>): nat {
    if acts == [] then 0
    else
      var init := acts[..|acts| - 1];
      Reached(init) + (if ChangesPod(acts[|acts| - 1]) && CloseWatch !in init then 1 else 0)
  }

  function CountNext(acts: seq<Action>): nat {
    if acts == [] then 0
    else CountNext(acts[..|acts| - 1]) + (if acts[|acts| - 1].NextEvent? then 1 else 0)
  }

  /** The list was asked for and is not answered yet. */
  predicate AwaitsList(acts: seq<Action>) {
    forall k :: 0 <= k < |acts| ==> !acts[k].List? && !acts[k].FailList?
  }

  /** What is stored under a name, told by the last change of it. */
  function StoredBy(s: State, acts: seq<Action>, name: string): Option<Pod> {
    if acts == [] then (if name in s.pods then Some(s.pods[name]) else None)
    else
      match acts[|acts| - 1]
      case Put(p) => if p.name == name then Some(p) else StoredBy(s, acts[..|acts| - 1], name)
      case Delete(n) => if n == name then None else StoredBy(s, acts[..|acts| - 1], name)
      case _ => StoredBy(s, acts[..|acts| - 1], name)
  }

  lemma WatchStep(me: string, s: State, a: Action, name: string)
    requires Enabled(s, a) && s.delivered <= |s.events| && (s.watching ==> s.delivered == |s.events|)
    ensures var s' := Apply(me, s, a);
            && (s'.watching <==> s.watching && !a.CloseWatch?)
            && s'.delivered == s.delivered + (if ChangesPod(a) && s.watching then 1 else 0)
            && s'.consumed == s.consumed + (if a.NextEvent? then 1 else 0)
            && (s'.phase.BeforeList? <==> s.phase.BeforeList? && !a.List? && !a.FailList?)
            && Stored(s', name) == (match a
                 case Put(p) => if p.name == name then Some(p) else Stored(s, name)
                 case Delete(n) => if n == name then None else Stored(s, name)
                 case _ => Stored(s, name))
  {
  }

  lemma StoreCounts(me: string, s: State)
    requires StoreOk(me, s)
    ensures s.delivered <= |s.events| && (s.watching ==> s.delivered == |s.events|)
  {
  }

  lemma AwaitsSnoc(init: seq<Action>, a: Action)
    ensures AwaitsList(init + [a]) <==> AwaitsList(init) && !a.List? && !a.FailList?
    ensures CloseWatch in init + [a] <==> CloseWatch in init || a == CloseWatch
  {
    assert (init + [a])[|init|] == a;
    assert forall k :: 0 <= k < |init| ==> (init + [a])[k] == init[k];
  }

  /** The watch delivers exactly the changes before it is closed, and the store is what the changes made it. */
  lemma {:induction false} WatchIsTold(me: string, s: State, acts: seq<Action>, name: string)
    requires IsInit(me, s) && Run(me, s, acts).Some?
    ensures var s' := Run(me, s, acts).value;
            && (s'.watching <==> CloseWatch !in acts)
            && s'.delivered == Reached(acts) && s'.consumed == CountNext(acts)
            && (s'.phase.BeforeList? <==> AwaitsList(acts))
            && Stored(s', name) == StoredBy(s, acts, name)
    decreases |acts|
  {
    if acts == [] {
    } else {
      var init, a := acts[..|acts| - 1], acts[|acts| - 1];
      assert acts == init + [a];
      WatchIsTold(me, s, init, name);
      RunInv(me, s, init);
      hide Inv, IsInit;
      StoreOf(me, Run(me, s, init).value);
      StoreCounts(me, Run(me, s, init).value);
      hide StoreOk;
      WatchStep(me, Run(me, s, init).value, a, name);
      hide Apply, Enabled, Stored;
      AwaitsSnoc(init, a);
    }
  }

  /**
   What can happen in a state of a run: anybody may change pods; the list is answered once,
   with exactly the stored pods or by an error; the monitor may go on as long as listed pods
   or delivered events are left; the watch may be closed once.
   */
  lemma {:induction false} EverybodyIsFree(
    me: string, s: State, acts: seq<Action>, p: Pod, name: string, items: seq<Pod>)
    requires IsInit(me, s) && Run(me, s, acts).Some?
    ensures var s' := Run(me, s, acts).value;
            && Enabled(s', Put(p)) && (Enabled(s', Delete(name)) <==> StoredBy(s, acts, name).Some?)
            && (Enabled(s', FailList) <==> AwaitsList(acts))
            && (Enabled(s', List(items)) <==>
                  && AwaitsList(acts)
                  && (forall n :: n in s'.pods ==> s'.pods[n] in items)
                  && (forall q :: q in items ==> q.name in s'.pods && s'.pods[q.name] == q))
            && (Enabled(s', NextItem) <==> s'.phase.InList?)
            && (Enabled(s', NextEvent) <==> s'.phase.InEvents? && CountNext(acts) < Reached(acts))
            && (Enabled(s', CloseWatch) <==> CloseWatch !in acts)
  {
    WatchIsTold(me, s, acts, name);
    RunInv(me, s, acts);
    StoreOf(me, Run(me, s, acts).value);
    hide Run, Inv, IsInit, AwaitsList;
  }

  // ---------- what every run guarantees ----------

  lemma NothingUpcoming(me: string, s: State, name: string)
    requires name in s.doneAt && Covered(me, s, name)
    requires s.watching && s.phase == InEvents(true) && s.consumed == |s.events|
    ensures IssuedSince(s, name, s.doneAt[name])
  {
  }

  lemma IssuesIsNoPut(me: string, s: State, acts: seq<Action>, k: nat, name: string)
    requires IssuesAt(me, s, acts, k, name)
    ensures k < |acts| && !acts[k].Put?
  {
  }

  lemma LastIssue(me: string, s: State, acts: seq<Action>, name: string) returns (n: nat)
    requires IsInit(me, s) && Run(me, s, acts).Some?
    requires var s' := Run(me, s, acts).value;
             && s'.watching && s'.phase == InEvents(true) && s'.consumed == |s'.events|
             && name in s'.pods && FinishedHere(s'.pods[name], me)
    ensures var s' := Run(me, s, acts).value;
            && name in s'.doneAt && n < |s'.issues| && s'.issues[n].at >= s'.doneAt[name] && s'.issues[n].at >= s.now
            && IssuesAt(me, s, acts, s'.issues[n].at - s.now, name)
  {
    RunInv(me, s, acts);
    var s' := Run(me, s, acts).value;
    assert s.issues == [];
    hide Run, IsInit, FinishedHere, IssuesAt;
    DoneIsFinished(me, s', name);
    assert Covered(me, s', name);
    hide Inv, Covered;
    NothingUpcoming(me, s', name);
    n :| n < |s'.issues| && s'.issues[n].name == name && s'.issues[n].at >= s'.doneAt[name];
    IssueIsAction(me, s, acts, n);
  }

  lemma FinishedFrom(me: string, s: State, acts: seq<Action>, name: string, k: nat)
    requires IsInit(me, s) && Run(me, s, acts).Some? && name in Run(me, s, acts).value.doneAt
    requires s.now + k >= Run(me, s, acts).value.doneAt[name] && k < |acts| && !acts[k].Put?
    ensures forall m :: k <= m <= |acts| ==> IsFinishedAfter(me, s, acts, m, name)
  {
    hide *;
    DoneSince(me, s, acts, name, 0);
    forall m | k <= m <= |acts| ensures IsFinishedAfter(me, s, acts, m, name) {
      DoneSince(me, s, acts, name, m);
    }
  }

  /**
   No completed pod is forgotten: while the watch is open, once the list is worked off
   and all events so far are consumed, every stored pod of this server that is finished
   has had a delete issued by some action since which it has been stored and finished.
   */
  lemma {:induction false} NoneForgotten(me: string, s: State, acts: seq<Action>, name: string) returns (k: nat)
    requires IsInit(me, s) && Run(me, s, acts).Some?
    requires var s' := Run(me, s, acts).value;
             && s'.watching && s'.phase == InEvents(true) && s'.consumed == |s'.events|
             && name in s'.pods && FinishedHere(s'.pods[name], me)
    ensures IssuesAt(me, s, acts, k, name)
    ensures forall m :: k <= m <= |acts| ==> IsFinishedAfter(me, s, acts, m, name)
  {
    var s' := Run(me, s, acts).value;
    var n := LastIssue(me, s, acts, name);
    k := s'.issues[n].at - s.now;
    hide *;
    IssuesIsNoPut(me, s, acts, k, name);
    FinishedFrom(me, s, acts, name, k);
  }

  lemma EverStep(me: string, s: State, a: Action, p: Pod)
    requires Enabled(s, a) && p in Apply(me, s, a).ever && p !in s.ever
    ensures p.name in Apply(me, s, a).pods && Apply(me, s, a).pods[p.name] == p
  {
  }

  lemma {:induction false} EverWasStored(me: string, s: State, acts: seq<Action>, p: Pod) returns (m: nat)
    requires IsInit(me, s) && Run(me, s, acts).Some? && p in Run(me, s, acts).value.ever
    ensures m <= |acts| && Run(me, s, acts[..m]).Some?
    ensures p.name in Run(me, s, acts[..m]).value.pods && Run(me, s, acts[..m]).value.pods[p.name] == p
    decreases |acts|
  {
    if acts == [] {
      m := 0;
    } else {
      var init, a := acts[..|acts| - 1], acts[|acts| - 1];
      var mid := Run(me, s, init).value;
      if p in mid.ever {
        m := EverWasStored(me, s, init, p);
        assert init[..m] == acts[..m];
      } else {
        EverStep(me, mid, a, p);
        hide Apply, Enabled;
        m := |acts|;
        assert acts[..m] == acts;
      }
    }
  }

  /** Deletes are issued only for names under which a finished pod of this server was stored at some moment. */
  lemma {:induction false} OnlyDoneNames(me: string, s: State, acts: seq<Action>, n: nat) returns (m: nat)
    requires IsInit(me, s) && Run(me, s, acts).Some? && n < |Run(me, s, acts).value.issues|
    ensures IsFinishedAfter(me, s, acts, m, Run(me, s, acts).value.issues[n].name)
  {
    RunInv(me, s, acts);
    var s' := Run(me, s, acts).value;
    var p :| p in s'.ever && p.name == s'.issues[n].name && IsDone(p, me);
    m := EverWasStored(me, s, acts, p);
  }

  // ---------- which pod a delete meets ----------

  /** The last event of the name that the monitor has not handled. */
  function LastPending(s: State, name: string): Option<Event>
    requires s.consumed <= |s.events|
  {
    LastOf(s.events[s.consumed..], name)
  }

  /**
   Exactly when the delete for a finished pod meets a pod that is not (or not of this
   server): when the last change of its name that is not handled yet tells of one.  It
   meets no pod at all exactly when that change is a deletion.  While the watch is open
   the changes not handled are those that wait in it.
   */
  lemma {:induction false} DeleteMeetsUnfinishedIff(me: string, s: State, acts: seq<Action>, a: Action)
    requires IsInit(me, s) && Run(me, s, acts).Some?
    requires Handles(Run(me, s, acts).value, a) && FinishedHere(Handled(Run(me, s, acts).value, a), me)
    ensures var s' := Run(me, s, acts).value;
            var name := Handled(s', a).name;
            && s'.consumed <= |s'.events| && (s'.watching ==> s'.delivered == |s'.events|)
            && Apply(me, s', a).issues == s'.issues + [Issue(name, s'.now)]
            && var last := LastPending(s', name);
               && ((name in s'.pods && !FinishedHere(s'.pods[name], me)) <==>
                     last.Some? && last.value.Changed? && !FinishedHere(last.value.pod, me))
               && (name !in s'.pods <==> last.Some? && last.value.Removed?)
  {
    RunInv(me, s, acts);
    var s' := Run(me, s, acts).value;
    var name := Handled(s', a).name;
    LastOfSuffix(s'.events, s'.consumed, name);
    assert s'.events[0..] == s'.events;
  }

  function RunningPod(name: string, me: string): Pod {
    Pod(name, Some(me), "Running")
  }

  function DonePod(name: string, me: string): Pod {
    Pod(name, Some(me), "Succeeded")
  }

  const EMPTY: State := State(map[], [], 0, 0, true, BeforeList, 0, map[], [], {})

  /** A pod finishes and goes away, and a running one takes its name, before the events are consumed. */
  function Replacing(name: string, me: string): seq<Action> {
    [List([]), NextItem, Put(DonePod(name, me)), Delete(name), Put(RunningPod(name, me))]
  }

  lemma Follow(me: string, s: State, acts: seq<Action>, mid: State, a: Action) returns (acts': seq<Action>, mid': State)
    requires Run(me, s, acts) == Some(mid) && Enabled(mid, a)
    ensures acts' == acts + [a] && mid' == Apply(me, mid, a) && Run(me, s, acts') == Some(mid')
  {
    assert (acts + [a])[..|acts|] == acts;
    acts', mid' := acts + [a], Apply(me, mid, a);
  }

  lemma ReplacingRuns(me: string, name: string) returns (s: State)
    ensures Run(me, EMPTY, Replacing(name, me)) == Some(s)
    ensures s.pods == map[name := RunningPod(name, me)] && s.issues == [] && s.phase.InEvents? && s.consumed == 0
    ensures s.delivered == 3 && |s.events| == 3 && s.events[0] == Changed(DonePod(name, me))
  {
    assert Run(me, EMPTY, []) == Some(EMPTY);
    hide Run;
    var acts;
    acts, s := [], EMPTY;
    acts, s := Follow(me, EMPTY, acts, s, List([]));
    acts, s := Follow(me, EMPTY, acts, s, NextItem);
    acts, s := Follow(me, EMPTY, acts, s, Put(DonePod(name, me)));
    acts, s := Follow(me, EMPTY, acts, s, Delete(name));
    acts, s := Follow(me, EMPTY, acts, s, Put(RunningPod(name, me)));
    assert acts == Replacing(name, me);
  }

  /**
   The delete goes by name alone.  A finished pod is replaced by a running one of the
   same name before its event is consumed, and the delete is issued for the new pod.
   */
  lemma StaleEventHitsNewPod(me: string, name: string)
    ensures var r := Run(me, EMPTY, Replacing(name, me) + [NextEvent]);
            && IsInit(me, EMPTY) && r.Some? && r.value.pods == map[name := RunningPod(name, me)]
            && !FinishedHere(RunningPod(name, me), me)
            && |r.value.issues| == 1 && r.value.issues[0].name == name
  {
    var s := ReplacingRuns(me, name);
    hide Run;
    var acts', s' := Follow(me, EMPTY, Replacing(name, me), s, NextEvent);
  }
}
