/**
 What every run of the replicas guarantees for Find and for the events of the remote watch:
 what was seen expired is cleaned up, and a failed Send ends the Find.
 */
module ReplicaFinds {
  import opened Wrappers
  import opened ApiStore
  import opened Replicas
  import opened ReplicaRuns

  // ---------- Find ----------

  lemma ItemIsHandled(s: State, find: FindOp, key: Key)
    requires LogOk(s) && FindOk(s, find) && find.i == |find.items| && s.replicas[find.rid].ns == key.ns
    requires var was := Lookup(s.log[..find.listedLen], key);
             && was.Some? && Expired(was.value.spec, find.listedAt)
             && s.log[was.value.version - 1].Wrote? && s.log[was.value.version - 1].writer.Some?
    ensures var v := Lookup(s.log[..find.listedLen], key).value.version;
            Handled(s, s.replicas[find.rid], key, v) && 1 <= v <= |s.log| && s.log[v - 1].key == key
  {
    var was := Lookup(s.log[..find.listedLen], key).value;
    var item := Item(key, was);
    assert item in find.items && ItemOk(s.log, item);
    var k :| 0 <= k < |find.items| && find.items[k] == item;
    assert EntryOk(s.log, s.now, s.replicas, was.version - 1);
    hide Lookup, FindOk, LogOk;
  }

  lemma LaterThanGone(log: Log, key: Key, v: nat)
    requires Gone(log, key, v) && 1 <= v <= |log| && log[v - 1].key == key
    ensures forall obj :: Lookup(log, key) == Some(obj) ==> obj.version > v
  {
    assert LastOn(log, key) >= v;
  }

  /** Action k starts Find f. */
  ghost predicate StartsFind(acts: seq<Action>, k: nat, f: nat) {
    k < |acts| && acts[k].StartFind? && acts[k].f == f && Run(INIT, acts[..k]).Some?
  }

  lemma FindStep(s: State, a: Action, f: nat)
    requires Enabled(s, a) && f in Apply(s, a).finds
    ensures var find' := Apply(s, a).finds[f];
            if f in s.finds then
              && !(a.StartFind? && a.f == f)
              && find'.rid == s.finds[f].rid && find'.listedAt == s.finds[f].listedAt
              && find'.listedLen == s.finds[f].listedLen && find'.items == s.finds[f].items
            else
              && a.StartFind? && a.f == f && find'.rid == a.rid && find'.listedAt == s.now && find'.listedLen == |s.log|
              && find'.i == 0 && !find'.failed
  {
  }

  lemma FindsStay(s: State, a: Action, f: nat)
    requires Enabled(s, a) && f in s.finds
    ensures f in Apply(s, a).finds
  {
  }

  lemma FindStarts(s: State, a: Action, f: nat)
    requires Enabled(s, a) && a.StartFind? && a.f == f
    ensures f !in s.finds && f in Apply(s, a).finds
  {
  }

  /** A Find goes by the history and the clock of the moment at which it started. */
  lemma {:induction false} FindGoesByItsList(acts: seq<Action>, k: nat, f: nat)
    requires Run(INIT, acts).Some? && StartsFind(acts, k, f)
    ensures f in Run(INIT, acts).value.finds
    ensures var find, past := Run(INIT, acts).value.finds[f], Run(INIT, acts[..k]).value;
            find.rid == acts[k].rid && find.listedAt == past.now && find.listedLen == |past.log|
    decreases |acts|
  {
    var init, a := acts[..|acts| - 1], acts[|acts| - 1];
    var s := Run(INIT, init).value;
    if k == |init| {
      FindStarts(s, a, f);
      FindStep(s, a, f);
    } else {
      assert init[..k] == acts[..k];
      FindGoesByItsList(init, k, f);
      FindsStay(s, a, f);
      FindStep(s, a, f);
    }
  }

  ghost predicate CleanUpFailsAt(acts: seq<Action>, k: nat, rid: ReplicaId, key: Key, v: nat) {
    && k < |acts| && acts[k] == RunTask(rid, NotSent) && Run(INIT, acts[..k]).Some?
    && var past := Run(INIT, acts[..k]).value;
       && rid in past.replicas && past.replicas[rid].tasks != []
       && past.replicas[rid].tasks[0].key == key && past.replicas[rid].tasks[0].version == v
  }

  /** The clean-up call of replica rid for this version was made and failed. */
  ghost predicate CleanUpFailed(acts: seq<Action>, rid: ReplicaId, key: Key, v: nat) {
    exists k: nat :: CleanUpFailsAt(acts, k, rid, key, v)
  }

  lemma MissedStep(s: State, a: Action, rid: ReplicaId, t: Task)
    requires Enabled(s, a) && rid in Apply(s, a).replicas && t in Apply(s, a).replicas[rid].missed
    ensures rid in s.replicas
    ensures t in s.replicas[rid].missed
         || (a == RunTask(rid, NotSent) && s.replicas[rid].tasks != [] && s.replicas[rid].tasks[0] == t)
  {
  }

  lemma {:induction false} MissedHasFailed(acts: seq<Action>, rid: ReplicaId, t: Task)
    requires Run(INIT, acts).Some? && rid in Run(INIT, acts).value.replicas
    requires t in Run(INIT, acts).value.replicas[rid].missed
    ensures CleanUpFailed(acts, rid, t.key, t.version)
    decreases |acts|
  {
    var init, a := acts[..|acts| - 1], acts[|acts| - 1];
    var s := Run(INIT, init).value;
    MissedStep(s, a, rid, t);
    if t in s.replicas[rid].missed {
      MissedHasFailed(init, rid, t);
      var k: nat :| CleanUpFailsAt(init, k, rid, t.key, t.version);
      assert init[..k] == acts[..k];
      assert CleanUpFailsAt(acts, k, rid, t.key, t.version);
    } else {
      assert CleanUpFailsAt(acts, |init|, rid, t.key, t.version);
    }
  }

  lemma NotMissed(acts: seq<Action>, rid: ReplicaId, key: Key, v: nat)
    requires Run(INIT, acts).Some? && rid in Run(INIT, acts).value.replicas && !CleanUpFailed(acts, rid, key, v)
    ensures !HasTask(Run(INIT, acts).value.replicas[rid].missed, key, v)
  {
    var missed := Run(INIT, acts).value.replicas[rid].missed;
    if HasTask(missed, key, v) {
      var t :| t in missed && t.key == key && t.version == v;
      MissedHasFailed(acts, rid, t);
    }
  }

  /** What is cleaned up or to be cleaned up stays so; with an empty queue and no failed call it is gone. */
  lemma HandledIsGone(acts: seq<Action>, rid: ReplicaId, key: Key, v: nat)
    requires Run(INIT, acts).Some? && rid in Run(INIT, acts).value.replicas && !CleanUpFailed(acts, rid, key, v)
    requires var s := Run(INIT, acts).value;
             && Handled(s, s.replicas[rid], key, v) && s.replicas[rid].tasks == []
             && 1 <= v <= |s.log| && s.log[v - 1].key == key
    ensures forall obj :: Lookup(Run(INIT, acts).value.log, key) == Some(obj) ==> obj.version > v
  {
    NotMissed(acts, rid, key, v);
    LaterThanGone(Run(INIT, acts).value.log, key, v);
  }

  lemma {:induction false} StartedIn(acts: seq<Action>, rid: ReplicaId, ns: string)
    requires Run(INIT, acts).Some? && StartReplica(rid, ns) in acts
    ensures rid in Run(INIT, acts).value.replicas && Run(INIT, acts).value.replicas[rid].ns == ns
    decreases |acts|
  {
    var init, a := acts[..|acts| - 1], acts[|acts| - 1];
    var s := Run(INIT, init).value;
    assert acts == init + [a];
    StepIsLater(s, a);
    if StartReplica(rid, ns) in init {
      StartedIn(init, rid, ns);
    }
  }

  lemma FindHandles(s: State, past: State, f: nat, key: Key)
    requires Inv(s) && f in s.finds && s.finds[f].i == |s.finds[f].items|
    requires s.finds[f].rid in s.replicas && s.replicas[s.finds[f].rid].ns == key.ns
    requires |past.log| <= |s.log| && s.log[..|past.log|] == past.log
    requires s.finds[f].listedAt == past.now && s.finds[f].listedLen == |past.log|
    requires var was := Lookup(past.log, key);
             && was.Some? && was.value.spec.expiry.Some? && was.value.spec.expiry.value < past.now
             && 1 <= was.value.version <= |past.log|
             && past.log[was.value.version - 1].Wrote? && past.log[was.value.version - 1].writer.Some?
    ensures var v := Lookup(past.log, key).value.version;
            Handled(s, s.replicas[s.finds[f].rid], key, v) && 1 <= v <= |s.log| && s.log[v - 1].key == key
  {
    assert LogOk(s) && FindOk(s, s.finds[f]);
    var v := Lookup(past.log, key).value.version;
    assert s.log[..|past.log|][v - 1] == s.log[v - 1];
    hide Inv, LogOk, FindOk, Lookup, Handled;
    ItemIsHandled(s, s.finds[f], key);
  }

  /**
   A Find cleans up.  It started at action k.  Once its list loop is done and the queue of
   its replica is empty, no object that Register had created in the replica's namespace and
   whose expiration time had passed at action k is still stored in that version, unless the
   clean-up call for this very version failed.
   */
  lemma {:induction false} FindCleansUp(acts: seq<Action>, k: nat, f: nat, key: Key)
    requires Run(INIT, acts).Some? && StartsFind(acts, k, f) && f in Run(INIT, acts).value.finds
    requires var past, rid := Run(INIT, acts[..k]).value, acts[k].rid;
             && StartReplica(rid, key.ns) in acts
             && var was := Lookup(past.log, key);
                && was.Some? && was.value.spec.expiry.Some? && was.value.spec.expiry.value < past.now
                && 1 <= was.value.version <= |past.log|
                && past.log[was.value.version - 1].Wrote? && past.log[was.value.version - 1].writer.Some?
                && !CleanUpFailed(acts, rid, key, was.value.version)
    requires var s, rid := Run(INIT, acts).value, acts[k].rid;
             && s.finds[f].i == |s.finds[f].items|
             && rid in s.replicas && s.replicas[rid].tasks == []
    ensures var was := Lookup(Run(INIT, acts[..k]).value.log, key).value;
            forall obj :: Lookup(Run(INIT, acts).value.log, key) == Some(obj) ==> obj.version > was.version
  {
    var s, past := Run(INIT, acts).value, Run(INIT, acts[..k]).value;
    RunInv(acts);
    FindGoesByItsList(acts, k, f);
    HistoryGrows(acts, k);
    StartedIn(acts, acts[k].rid, key.ns);
    hide Run, Inv, Lookup, CleanUpFailed, StartsFind;
    FindHandles(s, past, f, key);
    HandledIsGone(acts, acts[k].rid, key, Lookup(past.log, key).value.version);
  }

  // ---------- the remote watch ----------

  lemma ObserveHandles(s: State, rid: ReplicaId, v: nat)
    requires LogOk(s) && Enabled(s, Observe(rid, v))
    requires var e := s.log[v - 1];
             e.writer.Some? && e.key.ns == s.replicas[rid].ns && e.spec.expiry.Some? && e.spec.expiry.value < s.now
    ensures var s' := Apply(s, Observe(rid, v));
            rid in s'.replicas && Handled(s', s'.replicas[rid], s.log[v - 1].key, v) && s'.log == s.log
  {
    var e := s.log[v - 1];
    assert EntryOk(s.log, s.now, s.replicas, v - 1);
    var s' := Apply(s, Observe(rid, v));
    var t := TaskFor(s.replicas[rid].ns, e.key.name, Obj(v, e.spec), s.now);
    assert t in s'.replicas[rid].tasks;
  }

  lemma {:induction false} StaysHandled(acts: seq<Action>, k: nat, rid: ReplicaId, key: Key, v: nat)
    requires Run(INIT, acts).Some? && k <= |acts| && Run(INIT, acts[..k]).Some?
    requires var past := Run(INIT, acts[..k]).value;
             v <= |past.log| && rid in past.replicas && Handled(past, past.replicas[rid], key, v)
    ensures var s := Run(INIT, acts).value; rid in s.replicas && Handled(s, s.replicas[rid], key, v)
    decreases |acts|
  {
    if k == |acts| {
      assert acts[..k] == acts;
    } else {
      var init, a := acts[..|acts| - 1], acts[|acts| - 1];
      assert init[..k] == acts[..k];
      StaysHandled(init, k, rid, key, v);
      HistoryGrows(init, k);
      RunInv(init);
      HandledKept(Run(INIT, init).value, a, rid, key, v);
    }
  }

  /**
   The remote watch cleans up.  If a replica sees, at action k, an object that Register wrote
   in its namespace and whose expiration time has passed then, that version is no longer
   stored once the queue of the replica is empty, unless the clean-up call for it failed.
   */
  lemma {:induction false} ObserveCleansUp(acts: seq<Action>, k: nat, rid: ReplicaId, v: nat)
    requires Run(INIT, acts).Some? && k < |acts| && acts[k] == Observe(rid, v) && Run(INIT, acts[..k]).Some?
    requires var past := Run(INIT, acts[..k]).value;
             && Enabled(past, Observe(rid, v))
             && var e := past.log[v - 1];
                && e.writer.Some? && StartReplica(rid, e.key.ns) in acts[..k]
                && e.spec.expiry.Some? && e.spec.expiry.value < past.now
                && !CleanUpFailed(acts, rid, e.key, v)
    requires rid in Run(INIT, acts).value.replicas && Run(INIT, acts).value.replicas[rid].tasks == []
    ensures var key := Run(INIT, acts[..k]).value.log[v - 1].key;
            forall obj :: Lookup(Run(INIT, acts).value.log, key) == Some(obj) ==> obj.version > v
  {
    var past := Run(INIT, acts[..k]).value;
    var key := past.log[v - 1].key;
    RunInv(acts[..k]);
    StartedIn(acts[..k], rid, key.ns);
    ObserveHandles(past, rid, v);
    assert acts[..k + 1][..k] == acts[..k];
    HistoryGrows(acts, k);
    assert Run(INIT, acts).value.log[..|past.log|][v - 1] == Run(INIT, acts).value.log[v - 1];
    hide Lookup, CleanUpFailed, Handled, Apply;
    StaysHandled(acts, k + 1, rid, key, v);
    HandledIsGone(acts, rid, key, v);
  }

  // ---------- a failed Send ----------

  /** How many items Find f has taken. */
  function ItemsTaken(acts: seq<Action>, f: nat): nat {
    if acts == [] then 0
    else
      var last := acts[|acts| - 1];
      ItemsTaken(acts[..|acts| - 1], f) + (if last.FindItem? && last.f == f then 1 else 0)
  }

  /** At action k the Send of Find f for a live item fails. */
  ghost predicate SendFailsAt(acts: seq<Action>, k: nat, f: nat) {
    && k < |acts| && acts[k] == FindItem(f, false) && Run(INIT, acts[..k]).Some?
    && var past := Run(INIT, acts[..k]).value;
       && f in past.finds && past.finds[f].i < |past.finds[f].items|
       && var expiry := past.finds[f].items[past.finds[f].i].obj.spec.expiry;
          expiry.None? || expiry.value >= past.now
  }

  ghost predicate FailedAsTold(acts: seq<Action>, f: nat, find: FindOp) {
    && (find.failed <==> exists k: nat :: SendFailsAt(acts, k, f))
    && find.i + (if find.failed then 1 else 0) == ItemsTaken(acts, f)
  }

  lemma FailStep(s: State, a: Action, f: nat)
    requires Enabled(s, a) && f in s.finds
    ensures f in Apply(s, a).finds
    ensures var find, find' := s.finds[f], Apply(s, a).finds[f];
            if a.FindItem? && a.f == f then
              && !find.failed && find.i < |find.items|
              && var expiry := find.items[find.i].obj.spec.expiry;
                 && (find'.failed <==> a == FindItem(f, false) && (expiry.None? || expiry.value >= s.now))
                 && find'.i == find.i + if find'.failed then 0 else 1
            else find' == find
  {
  }

  lemma SendFailsSnoc(init: seq<Action>, a: Action, f: nat)
    requires Run(INIT, init).Some?
    ensures (exists k: nat :: SendFailsAt(init + [a], k, f)) <==>
              (exists k: nat :: SendFailsAt(init, k, f)) || SendFailsAt(init + [a], |init|, f)
  {
    forall k: nat ensures k < |init| ==> (SendFailsAt(init + [a], k, f) <==> SendFailsAt(init, k, f)) {
      if k < |init| {
        assert (init + [a])[..k] == init[..k];
      }
    }
  }

  lemma NotStarted(acts: seq<Action>, f: nat)
    requires Run(INIT, acts).Some? && f !in Run(INIT, acts).value.finds
    ensures ItemsTaken(acts, f) == 0 && forall k: nat :: !SendFailsAt(acts, k, f)
    decreases |acts|
  {
    if acts == [] {
    } else {
      var init, a := acts[..|acts| - 1], acts[|acts| - 1];
      var s := Run(INIT, init).value;
      if f in s.finds {
        FindsStay(s, a, f);
      }
      NotStarted(init, f);
      SendFailsSnoc(init, a, f);
      assert acts == init + [a] && acts[..|init|] == init;
      assert !(a.FindItem? && a.f == f);
    }
  }

  lemma FailsNow(init: seq<Action>, a: Action, f: nat)
    requires Run(INIT, init).Some? && f in Run(INIT, init).value.finds
    requires a.FindItem? && a.f == f ==> Run(INIT, init).value.finds[f].i < |Run(INIT, init).value.finds[f].items|
    ensures var find := Run(INIT, init).value.finds[f];
            SendFailsAt(init + [a], |init|, f) <==>
              && a == FindItem(f, false)
              && var expiry := find.items[find.i].obj.spec.expiry;
                 expiry.None? || expiry.value >= Run(INIT, init).value.now
  {
    assert (init + [a])[..|init|] == init;
    hide Run;
  }

  /**
   A Find fails exactly if the Send for a live item fails, and then it takes no further item:
   it has treated every item before that one, and none after it.
   */
  lemma {:induction false} FindFailsIff(acts: seq<Action>, f: nat)
    requires Run(INIT, acts).Some? && f in Run(INIT, acts).value.finds
    ensures FailedAsTold(acts, f, Run(INIT, acts).value.finds[f])
    decreases |acts|
  {
    var init, a := acts[..|acts| - 1], acts[|acts| - 1];
    var s := Run(INIT, init).value;
    assert acts == init + [a] && acts[..|init|] == init;
    SendFailsSnoc(init, a, f);
    if f in s.finds {
      FindFailsIff(init, f);
      FailStep(s, a, f);
      hide Apply, Enabled;
      FailsNow(init, a, f);
    } else {
      NotStarted(init, f);
      FindStep(s, a, f);
      hide Apply;
    }
  }

  /** A Find that has failed takes no further item. */
  lemma FailedFindStops(s: State, f: nat, ok: bool)
    requires f in s.finds && s.finds[f].failed
    ensures !Enabled(s, FindItem(f, ok))
  {
  }
}
