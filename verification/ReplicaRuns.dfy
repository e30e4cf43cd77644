/**
 What every run of the replicas guarantees for Register, Unregister and the clean-up of
 expired registrations.
 */
module ReplicaRuns {
  import opened Wrappers
  import opened ApiStore
  import opened ApiTraffic
  import opened Replicas

  // ---------- the history ----------

  /** The history only grows in a run. */
  lemma {:induction false} HistoryGrows(acts: seq<Action>, k: nat)
    requires Run(INIT, acts).Some? && k <= |acts|
    ensures Run(INIT, acts[..k]).Some?
    ensures var before, log := Run(INIT, acts[..k]).value.log, Run(INIT, acts).value.log;
            |before| <= |log| && log[..|before|] == before
    decreases |acts|
  {
    if k == |acts| {
      assert acts[..k] == acts;
    } else {
      var init := acts[..|acts| - 1];
      HistoryGrows(init, k);
      assert init[..k] == acts[..k];
      StepIsLater(Run(INIT, init).value, acts[|acts| - 1]);
    }
  }

  /** The time that has passed in a run. */
  function Ticks(acts: seq<Action>): nat {
    if acts == [] then 0
    else Ticks(acts[..|acts| - 1]) + (if acts[|acts| - 1].Tick? then acts[|acts| - 1].d else 0)
  }

  lemma ClockStep(s: State, a: Action)
    requires Enabled(s, a)
    ensures Apply(s, a).now == s.now + if a.Tick? then a.d else 0
  {
  }

  lemma {:induction false} ClockTicks(acts: seq<Action>)
    requires Run(INIT, acts).Some?
    ensures Run(INIT, acts).value.now == Ticks(acts)
  {
    if acts == [] {
    } else {
      ClockTicks(acts[..|acts| - 1]);
      ClockStep(Run(INIT, acts[..|acts| - 1]).value, acts[|acts| - 1]);
    }
  }

  /** Others write and delete as they like: a write from outside is stored under a new version, a delete deletes. */
  lemma OutsidersAreFree(s: State, key: Key, spec: Spec)
    requires key.name != ""
    ensures Enabled(s, OutsideWrite(key, spec)) && Enabled(s, OutsideDelete(key))
    ensures Lookup(Apply(s, OutsideWrite(key, spec)).log, key) == Some(Obj(|s.log| + 1, spec))
    ensures Lookup(Apply(s, OutsideDelete(key)).log, key) == None
  {
    LookupSnoc(s.log, Apply(s, OutsideWrite(key, spec)).log[|s.log|], key);
    var log' := Apply(s, OutsideDelete(key)).log;
    if log' != s.log {
      LookupSnoc(s.log, log'[|s.log|], key);
    }
  }

  /**
   What clients may do in any state: replicas start and take calls of any content, the API
   calls of a Register are made in the order of its code, every call may be lost on the way
   there or back, a Find lists the stored objects in any order, and a replica observes any
   version that was written.
   */
  lemma CallersAreFree(
    s: State, rid: ReplicaId, ns: string, op: OpId, spec: Spec, name: string, carried: Option<nat>, net: Net,
    f: nat, order: seq<Key>, ok: bool, v: nat)
    ensures Enabled(s, StartReplica(rid, ns)) <==> rid !in s.replicas
    ensures Enabled(s, StartRegister(op, rid, spec)) <==> op !in s.regs && rid in s.replicas
    ensures Enabled(s, CallCreate(op, name, net)) <==> op in s.regs && s.regs[op].pc == Creating && name != ""
    ensures Enabled(s, CallGet(op, net)) <==> op in s.regs && s.regs[op].pc == Getting
    ensures Enabled(s, CallUpdate(op, net)) <==> op in s.regs && exists base :: s.regs[op].pc == Updating(base)
    ensures Enabled(s, CallNext(op, ok)) <==> op in s.regs && exists version :: s.regs[op].pc == Written(version)
    ensures Enabled(s, CallUnregister(rid, name, carried, net)) <==> rid in s.replicas
    ensures Enabled(s, RunTask(rid, net)) <==> rid in s.replicas && |s.replicas[rid].tasks| > 0
    ensures Enabled(s, Observe(rid, v)) <==> rid in s.replicas && 1 <= v <= |s.log| && s.log[v - 1].Wrote?
    ensures f !in s.finds && rid in s.replicas && (forall key :: key in order <==> Lookup(s.log, key).Some?) ==>
              Enabled(s, StartFind(f, rid, order))
    ensures f in s.finds && s.finds[f].rid in s.replicas ==>
              (Enabled(s, FindItem(f, ok)) <==> s.finds[f].i < |s.finds[f].items| && !s.finds[f].failed)
  {
    hide Lookup, LastOn;
  }

  // ---------- expiry ----------

  /**
   A clean-up task deletes only the very version that was seen expired: nothing was
   written or deleted under that key between the version it saw and its delete, the
   version was expired when it was seen, and it lies in the replica's own namespace.
   A registration refreshed in between therefore survives.
   */
  lemma {:induction false} ExpiryDeletesOnlyWhatItSaw(acts: seq<Action>, i: nat)
    requires Run(INIT, acts).Some? && i < |Run(INIT, acts).value.log|
    requires Run(INIT, acts).value.log[i].Erased? && Run(INIT, acts).value.log[i].cause.Expiry?
    ensures var s := Run(INIT, acts).value;
            var Erased(key, victim, cause) := s.log[i];
            && cause.version == victim && IsCurrent(s.log, i, key, victim)
            && s.log[victim - 1].spec.expiry.Some? && s.log[victim - 1].spec.expiry.value < cause.at
            && cause.at <= s.now
            && cause.rid in s.replicas && s.replicas[cause.rid].ns == key.ns
  {
    RunInv(acts);
    var s := Run(INIT, acts).value;
    assert EntryOk(s.log, s.now, s.replicas, i);
    LookupMeans(s.log, i, s.log[i].key);
  }

  // ---------- Register ----------

  lemma NamespaceStep(s: State, a: Action, rid: ReplicaId)
    requires Enabled(s, a) && rid in Apply(s, a).replicas
    ensures if rid in s.replicas then Apply(s, a).replicas[rid].ns == s.replicas[rid].ns
            else a == StartReplica(rid, Apply(s, a).replicas[rid].ns)
  {
  }

  /** A replica works in the namespace it was started with. */
  lemma {:induction false} NamespaceIsKept(acts: seq<Action>, rid: ReplicaId)
    requires Run(INIT, acts).Some? && rid in Run(INIT, acts).value.replicas
    ensures StartReplica(rid, Run(INIT, acts).value.replicas[rid].ns) in acts
    decreases |acts|
  {
    var init, a := acts[..|acts| - 1], acts[|acts| - 1];
    var s := Run(INIT, init).value;
    NamespaceStep(s, a, rid);
    if rid in s.replicas {
      NamespaceIsKept(init, rid);
      assert StartReplica(rid, s.replicas[rid].ns) in init;
    }
    assert acts == init + [a];
  }

  lemma RequestStep(s: State, a: Action, op: OpId)
    requires Enabled(s, a) && op in Apply(s, a).regs
    ensures var reg' := Apply(s, a).regs[op];
            if op in s.regs then reg'.ns == s.regs[op].ns && reg'.spec == s.regs[op].spec
            else
              && a.StartRegister? && a.rid in s.replicas && reg'.ns == s.replicas[a.rid].ns
              && a == StartRegister(op, a.rid, reg'.spec)
  {
  }

  /** A Register call works on the request it was called with, in the namespace of its replica. */
  lemma {:induction false} RequestIsKept(acts: seq<Action>, op: OpId)
    requires Run(INIT, acts).Some? && op in Run(INIT, acts).value.regs
    ensures var reg := Run(INIT, acts).value.regs[op];
            exists rid :: StartRegister(op, rid, reg.spec) in acts && StartReplica(rid, reg.ns) in acts
    decreases |acts|
  {
    var init, a := acts[..|acts| - 1], acts[|acts| - 1];
    var s, reg := Run(INIT, init).value, Run(INIT, acts).value.regs[op];
    assert acts == init + [a];
    RequestStep(s, a, op);
    if op in s.regs {
      RequestIsKept(init, op);
      var rid :| StartRegister(op, rid, reg.spec) in init && StartReplica(rid, reg.ns) in init;
      assert StartRegister(op, rid, reg.spec) in acts && StartReplica(rid, reg.ns) in acts;
    } else {
      NamespaceIsKept(init, a.rid);
      assert StartRegister(op, a.rid, reg.spec) in acts && StartReplica(a.rid, reg.ns) in acts;
    }
  }

  /** The key under which the first call of a Register tries to create. */
  function KeyToCreate(reg: Reg, generated: string): Key {
    Key(reg.ns, if reg.spec.name == "" then generated else reg.spec.name)
  }

  /**
   How a Register goes on, call by call, if the calls reach the server.  Create writes if
   nothing is stored and leads to Get otherwise; Get leads to Update if it finds the object
   of the request; Update writes if the version read is still stored; a write is handed on.
   */
  lemma RegisterGoesOn(s: State, op: OpId, generated: string, ok: bool)
    requires op in s.regs && generated != ""
    ensures var reg := s.regs[op];
            match reg.pc
            case Creating =>
              var s' := Apply(s, CallCreate(op, generated, Delivered));
              var key := KeyToCreate(reg, generated);
              if Lookup(s.log, key).None? then
                && op in s'.regs && s'.regs[op].pc == Written(|s.log| + 1)
                && s'.log == s.log + [Wrote(key, reg.spec, Some(op), None)]
              else op in s'.regs && s'.regs[op].pc == Getting && s'.log == s.log
            case Getting =>
              var s' := Apply(s, CallGet(op, Delivered));
              var found := Lookup(s.log, Key(reg.ns, reg.spec.name));
              && s'.log == s.log && op in s'.regs
              && s'.regs[op].pc ==
                   if reg.spec.name != "" && found.Some? then Updating(found.value.version) else Failed(None)
            case Updating(base) =>
              var s' := Apply(s, CallUpdate(op, Delivered));
              var key := Key(reg.ns, reg.spec.name);
              if reg.spec.name != "" && Lookup(s.log, key).Some? && Lookup(s.log, key).value.version == base then
                && op in s'.regs && s'.regs[op].pc == Written(|s.log| + 1)
                && s'.log == s.log + [Wrote(key, reg.spec, Some(op), Some(base))]
              else op in s'.regs && s'.regs[op].pc == Failed(None) && s'.log == s.log
            case Written(v) =>
              var s' := Apply(s, CallNext(op, ok));
              && s'.log == s.log && op in s'.regs
              && s'.regs[op].pc == if ok then Registered(v) else HandOnFailed(v)
            case _ => true
  {
  }

  /**
   The network: a write whose reply is lost has the effect of one that is answered, and the
   Register that made it fails, with that write on record if there was one; a write that is
   not sent has no effect.
   */
  lemma LossyRegister(s: State, op: OpId, generated: string)
    requires op in s.regs && generated != "" && (s.regs[op].pc.Creating? || s.regs[op].pc.Updating?)
    ensures var creating := s.regs[op].pc.Creating?;
            var ok := Apply(s, if creating then CallCreate(op, generated, Delivered) else CallUpdate(op, Delivered));
            var lost := Apply(s, if creating then CallCreate(op, generated, ReplyLost) else CallUpdate(op, ReplyLost));
            var unsent := Apply(s, if creating then CallCreate(op, generated, NotSent) else CallUpdate(op, NotSent));
            && lost.log == ok.log && unsent.log == s.log && op in lost.regs && op in unsent.regs
            && lost.regs[op].pc == Failed(if |ok.log| > |s.log| then Some(|s.log| + 1) else None)
            && unsent.regs[op].pc == Failed(None)
  {
    hide Lookup;
  }

  /** The same for deletes: it does not matter whether the reply arrives. */
  lemma LossyDelete(s: State, rid: ReplicaId, name: string, carried: Option<nat>)
    requires rid in s.replicas
    ensures Apply(s, CallUnregister(rid, name, carried, ReplyLost)) ==
            Apply(s, CallUnregister(rid, name, carried, Delivered))
    ensures Apply(s, CallUnregister(rid, name, carried, NotSent)) == s
    ensures s.replicas[rid].tasks != [] ==>
              && Apply(s, RunTask(rid, ReplyLost)) == Apply(s, RunTask(rid, Delivered))
              && Apply(s, RunTask(rid, NotSent)).log == s.log
  {
    hide Lookup;
  }

  /** A call of this Register that is delivered, or its hand-on. */
  ghost predicate IsCallOf(a: Action, op: OpId) {
    match a
    case CallCreate(o, _, net) => o == op && net == Delivered
    case CallGet(o, net) => o == op && net == Delivered
    case CallUpdate(o, net) => o == op && net == Delivered
    case CallNext(o, ok) => o == op && ok
    case _ => false
  }

  lemma Go(s: State, acts: seq<Action>, mid: State, a: Action, op: OpId) returns (acts': seq<Action>, mid': State)
    requires Run(s, acts) == Some(mid) && Enabled(mid, a) && IsCallOf(a, op)
    requires forall b :: b in acts ==> IsCallOf(b, op)
    ensures acts' == acts + [a] && mid' == Apply(mid, a) && Run(s, acts') == Some(mid')
    ensures forall b :: b in acts' ==> IsCallOf(b, op)
  {
    assert (acts + [a])[..|acts|] == acts;
    acts', mid' := acts + [a], Apply(mid, a);
  }

  lemma CallsKeep(s: State, a: Action, op: OpId)
    requires Enabled(s, a) && op in s.regs && IsCallOf(a, op)
    ensures var s' := Apply(s, a);
            op in s'.regs && s'.regs[op].spec == s.regs[op].spec && s'.regs[op].ns == s.regs[op].ns
  {
  }

  /** The call ends well, with this write and the state otherwise as it was. */
  ghost predicate EndsWritten(s: State, s': State, op: OpId, log: Log, key: Key, spec: Spec) {
    && op in s'.regs && s'.regs[op].pc == Registered(|log| + 1)
    && exists base :: s'.log == log + [Wrote(key, spec, Some(op), base)]
  }

  lemma FinishWritten(s: State, acts: seq<Action>, mid: State, op: OpId, log: Log, key: Key, spec: Spec)
    returns (acts': seq<Action>, s': State)
    requires Run(s, acts) == Some(mid) && forall b :: b in acts ==> IsCallOf(b, op)
    requires op in mid.regs && mid.regs[op].pc == Written(|log| + 1)
    requires exists base :: mid.log == log + [Wrote(key, spec, Some(op), base)]
    ensures Run(s, acts') == Some(s') && forall b :: b in acts' ==> IsCallOf(b, op)
    ensures EndsWritten(s, s', op, log, key, spec)
  {
    RegisterGoesOn(mid, op, "x", true);
    hide Run, Apply;
    acts', s' := Go(s, acts, mid, CallNext(op, true), op);
  }

  lemma FinishGetting(s: State, acts: seq<Action>, mid: State, op: OpId, key: Key, spec: Spec)
    returns (acts': seq<Action>, s': State)
    requires Run(s, acts) == Some(mid) && forall b :: b in acts ==> IsCallOf(b, op)
    requires op in mid.regs && mid.regs[op].pc.Getting? && mid.regs[op].spec == spec
    requires key == Key(mid.regs[op].ns, spec.name) && spec.name != "" && Lookup(mid.log, key).Some?
    ensures Run(s, acts') == Some(s') && forall b :: b in acts' ==> IsCallOf(b, op)
    ensures EndsWritten(s, s', op, mid.log, key, spec)
  {
    hide Run, Apply, Lookup, EndsWritten;
    RegisterGoesOn(mid, op, "x", true);
    CallsKeep(mid, CallGet(op, Delivered), op);
    var next, last;
    acts', next := Go(s, acts, mid, CallGet(op, Delivered), op);
    RegisterGoesOn(next, op, "x", true);
    acts', last := Go(s, acts', next, CallUpdate(op, Delivered), op);
    acts', s' := FinishWritten(s, acts', last, op, mid.log, key, spec);
  }

  lemma FailGetting(s: State, acts: seq<Action>, mid: State, op: OpId) returns (acts': seq<Action>, s': State)
    requires Run(s, acts) == Some(mid) && forall b :: b in acts ==> IsCallOf(b, op)
    requires op in mid.regs && mid.regs[op].pc.Getting? && mid.regs[op].spec.name == ""
    ensures Run(s, acts') == Some(s') && forall b :: b in acts' ==> IsCallOf(b, op)
    ensures op in s'.regs && s'.regs[op].pc == Failed(None) && s'.log == mid.log
  {
    hide Run, Apply, Lookup;
    RegisterGoesOn(mid, op, "x", true);
    acts', s' := Go(s, acts, mid, CallGet(op, Delivered), op);
  }

  /**
   A Register that nobody interferes with succeeds if and only if nothing is stored under
   its name or the name is its own and not generated; it has then written its request once.
   */
  lemma {:induction false} UndisturbedRegister(s: State, op: OpId, generated: string)
    returns (acts: seq<Action>, s': State)
    requires op in s.regs && s.regs[op].pc.Creating? && generated != ""
    ensures Run(s, acts) == Some(s') && forall a :: a in acts ==> IsCallOf(a, op)
    ensures var reg, key := s.regs[op], KeyToCreate(s.regs[op], generated);
            if Lookup(s.log, key).None? || reg.spec.name != "" then EndsWritten(s, s', op, s.log, key, reg.spec)
            else op in s'.regs && s'.regs[op].pc == Failed(None) && s'.log == s.log
  {
    assert Run(s, []) == Some(s);
    var reg, key := s.regs[op], KeyToCreate(s.regs[op], generated);
    hide Run, Apply, Lookup, EndsWritten;
    RegisterGoesOn(s, op, generated, true);
    CallsKeep(s, CallCreate(op, generated, Delivered), op);
    var mid;
    acts, mid := Go(s, [], s, CallCreate(op, generated, Delivered), op);
    if mid.regs[op].pc.Written? {
      acts, s' := FinishWritten(s, acts, mid, op, s.log, key, reg.spec);
    } else if reg.spec.name != "" {
      acts, s' := FinishGetting(s, acts, mid, op, key, reg.spec);
    } else {
      acts, s' := FailGetting(s, acts, mid, op);
    }
  }

  /** Action k of the run is the Get of the call, and the history had this length then. */
  ghost predicate IsGetOf(acts: seq<Action>, k: nat, op: OpId, len: nat) {
    && k < |acts| && acts[k] == CallGet(op, Delivered)
    && Run(INIT, acts[..k]).Some? && |Run(INIT, acts[..k]).value.log| == len
  }

  lemma ReadStep(s: State, a: Action, op: OpId)
    requires Enabled(s, a) && op in Apply(s, a).regs && Apply(s, a).regs[op].read.Some?
    ensures (op in s.regs && Apply(s, a).regs[op].read == s.regs[op].read)
         || (a == CallGet(op, Delivered) && Apply(s, a).regs[op].read.value.len == |s.log|)
  {
  }

  /** What a call is said to have read is what its Get returned. */
  lemma {:induction false} ReadIsGet(acts: seq<Action>, op: OpId) returns (k: nat)
    requires Run(INIT, acts).Some? && op in Run(INIT, acts).value.regs
    requires Run(INIT, acts).value.regs[op].read.Some?
    ensures IsGetOf(acts, k, op, Run(INIT, acts).value.regs[op].read.value.len)
    decreases |acts|
  {
    var init, a := acts[..|acts| - 1], acts[|acts| - 1];
    var s := Run(INIT, init).value;
    ReadStep(s, a, op);
    if op in s.regs && s.regs[op].read == Run(INIT, acts).value.regs[op].read {
      k := ReadIsGet(init, op);
      assert init[..k] == acts[..k];
    } else {
      k := |init|;
    }
  }

  /**
   No update is lost: for a write of a Register call that replaces an object there is the
   Get of the same call, which returned the very version that is replaced, and nothing
   was written or deleted under the key between that Get and the write.  A write that
   creates found nothing stored.
   */
  lemma {:induction false} NoLostUpdate(acts: seq<Action>, i: nat)
    requires Run(INIT, acts).Some? && i < |Run(INIT, acts).value.log|
    requires Run(INIT, acts).value.log[i].Wrote?
    ensures var log := Run(INIT, acts).value.log;
            var Wrote(key, _, writer, base) := log[i];
            match base
            case None => Lookup(log[..i], key).None?
            case Some(b) =>
              && IsCurrent(log, i, key, b)
              && (writer.Some? ==>
                    exists k: nat :: k < |acts| && acts[k] == CallGet(writer.value, Delivered)
                      && Run(INIT, acts[..k]).Some?
                      && Unchanged(Run(INIT, acts[..k]).value.log, log, i, key, b))
  {
    RunInv(acts);
    var s := Run(INIT, acts).value;
    assert EntryOk(s.log, s.now, s.replicas, i);
    var Wrote(key, _, writer, base) := s.log[i];
    LookupMeans(s.log, i, key);
    if base.Some? && writer.Some? {
      assert WriteOk(s.log, s.regs, i);
      var read := s.regs[writer.value].read.value;
      var k := ReadIsGet(acts, writer.value);
      HistoryGrows(acts, k);
      hide Run;
      StoredSinceIff(s.log[..read.len], s.log, i, key, read.version);
      assert Unchanged(Run(INIT, acts[..k]).value.log, s.log, i, key, base.value);
    }
  }

  /** An Update that reaches the server succeeds exactly if nothing touched its key since the Get of its call. */
  lemma {:induction false} UpdateSucceedsIff(acts: seq<Action>, op: OpId) returns (k: nat)
    requires Run(INIT, acts).Some?
    requires op in Run(INIT, acts).value.regs && Run(INIT, acts).value.regs[op].pc.Updating?
    ensures k < |acts| && acts[k] == CallGet(op, Delivered) && Run(INIT, acts[..k]).Some?
    ensures var s, readLog := Run(INIT, acts).value, Run(INIT, acts[..k]).value.log;
            var reg := s.regs[op];
            Update(s.log, RequestKey(reg), reg.pc.base, reg.spec, Some(op)).1.Ok? <==>
              forall j :: |readLog| <= j < |s.log| ==> s.log[j].key != RequestKey(reg)
  {
    RunInv(acts);
    var s := Run(INIT, acts).value;
    var reg := s.regs[op];
    assert RegOk(s.log, op, reg);
    k := ReadIsGet(acts, op);
    hide Run;
    assert s.log[..|s.log|] == s.log;
    StoredSinceIff(s.log[..reg.read.value.len], s.log, |s.log|, RequestKey(reg), reg.pc.base);
  }

  /** A write of the call whose reply was lost. */
  predicate LosesReply(a: Action, op: OpId) {
    (a.CallCreate? || a.CallUpdate?) && a.op == op && a.net.ReplyLost?
  }

  lemma LostStep(s: State, a: Action, op: OpId)
    requires Enabled(s, a) && op in Apply(s, a).regs && !LosesReply(a, op)
    requires Apply(s, a).regs[op].pc.Failed? && Apply(s, a).regs[op].pc.lost.Some?
    ensures op in s.regs && s.regs[op].pc == Apply(s, a).regs[op].pc
  {
  }

  lemma {:induction false} LostOnlyIfReplyLost(acts: seq<Action>, op: OpId)
    requires Run(INIT, acts).Some? && op in Run(INIT, acts).value.regs
    requires Run(INIT, acts).value.regs[op].pc.Failed? && Run(INIT, acts).value.regs[op].pc.lost.Some?
    ensures exists k :: 0 <= k < |acts| && LosesReply(acts[k], op)
    decreases |acts|
  {
    var init, a := acts[..|acts| - 1], acts[|acts| - 1];
    var s := Run(INIT, init).value;
    if LosesReply(a, op) {
      assert LosesReply(acts[|acts| - 1], op);
    } else {
      LostStep(s, a, op);
      LostOnlyIfReplyLost(init, op);
      var k :| 0 <= k < |init| && LosesReply(init[k], op);
      assert LosesReply(acts[k], op);
    }
  }

  /**
   A Register call makes at most one write.  Once its write is reported to it, that write
   is of its own spec under its own key, and its version is the one handed on; this holds
   also if the next element fails after that.  A call that failed before the hand-on
   wrote only if the reply to its write was lost, and one that still runs has not written.
   */
  lemma {:induction false} SuccessIsOneWrite(acts: seq<Action>, op: OpId)
    requires Run(INIT, acts).Some? && op in Run(INIT, acts).value.regs
    ensures var s := Run(INIT, acts).value;
            var reg := s.regs[op];
            && (forall i :: 0 <= i < |s.log| && s.log[i].Wrote? && s.log[i].writer == Some(op) ==>
                  HasWritten(reg.pc, i + 1)
                  || (reg.pc == Failed(Some(i + 1)) && exists k :: 0 <= k < |acts| && LosesReply(acts[k], op)))
            && (reg.pc.Written? || reg.pc.Registered? || reg.pc.HandOnFailed? ==>
                  var v := reg.pc.version;
                  && 1 <= v <= |s.log| && s.log[v - 1].Wrote? && s.log[v - 1].writer == Some(op)
                  && s.log[v - 1].spec == reg.spec && s.log[v - 1].key.ns == reg.ns
                  && (reg.spec.name != "" ==> s.log[v - 1].key.name == reg.spec.name))
            && exists rid :: StartRegister(op, rid, reg.spec) in acts && StartReplica(rid, reg.ns) in acts
  {
    RunInv(acts);
    RequestIsKept(acts, op);
    var s := Run(INIT, acts).value;
    assert RegOk(s.log, op, s.regs[op]);
    if s.regs[op].pc.Failed? && s.regs[op].pc.lost.Some? {
      LostOnlyIfReplyLost(acts, op);
    }
    assert forall i :: 0 <= i < |s.log| && s.log[i].Wrote? && s.log[i].writer == Some(op) ==> WriteOk(s.log, s.regs, i);
  }

  // ---------- Unregister ----------

  lemma ErasesCurrent(s: State, i: nat)
    requires LogOk(s) && i < |s.log| && s.log[i].Erased?
    requires s.log[i].cause.Unregister? && s.log[i].cause.carried.Some?
    ensures s.log[i].victim == s.log[i].cause.carried.value && IsCurrent(s.log, i, s.log[i].key, s.log[i].victim)
  {
    assert EntryOk(s.log, s.now, s.replicas, i);
    hide LogOk;
    LookupMeans(s.log, i, s.log[i].key);
  }

  /**
   A delete by an Unregister that carries the version of a registration erases exactly
   that registration: the write of that very call, still stored until then.
   */
  lemma {:induction false} UnregisterDeletesOwnRegistration(acts: seq<Action>, i: nat, op: OpId)
    requires Run(INIT, acts).Some? && i < |Run(INIT, acts).value.log|
    requires var s := Run(INIT, acts).value;
             && s.log[i].Erased? && s.log[i].cause.Unregister? && s.log[i].cause.carried.Some?
             && op in s.regs && HasWritten(s.regs[op].pc, s.log[i].cause.carried.value)
    ensures var s := Run(INIT, acts).value;
            var Erased(key, victim, cause) := s.log[i];
            && victim == cause.carried.value && IsCurrent(s.log, i, key, victim)
            && s.log[victim - 1].writer == Some(op) && s.log[victim - 1].spec == s.regs[op].spec
  {
    RunInv(acts);
    var s := Run(INIT, acts).value;
    assert LogOk(s) && RegOk(s.log, op, s.regs[op]);
    hide Run, Inv;
    ErasesCurrent(s, i);
  }

  /** The step is a delete call that reaches the server and names this key, with this version or none. */
  ghost predicate Targets(s: State, a: Action, key: Key, v: nat) {
    match a
    case CallUnregister(rid, name, carried, net) =>
      && rid in s.replicas && Key(s.replicas[rid].ns, name) == key && !net.NotSent?
      && (carried.None? || carried.value == v)
    case RunTask(rid, net) =>
      && rid in s.replicas && s.replicas[rid].tasks != [] && !net.NotSent?
      && s.replicas[rid].tasks[0].key == key && s.replicas[rid].tasks[0].version == v
    case OutsideDelete(target) => target == key
    case _ => false
  }

  /** Entry v - 1 is the last write under its key. */
  ghost predicate NewestWrite(log: Log, v: nat) {
    && 1 <= v <= |log| && log[v - 1].Wrote? && log[v - 1].key.name != ""
    && forall j :: v <= j < |log| && log[j].key == log[v - 1].key ==> log[j].Erased?
  }

  lemma NewestIsStored(log: Log, v: nat)
    requires NewestWrite(log, v)
    ensures var key := log[v - 1].key;
            Lookup(log, key).Some? ==> Lookup(log, key) == Some(Obj(v, log[v - 1].spec))
  {
  }

  lemma DeleteDecides(log: Log, key: Key, version: Option<nat>, cause: Cause, v: nat)
    requires NewestWrite(log, v) && log[v - 1].key == key
    ensures var log' := Delete(log, key, version, cause).0;
            Lookup(log', key).Some? <==> Lookup(log, key).Some? && version.Some? && version.value != v
  {
    NewestIsStored(log, v);
    var log' := Delete(log, key, version, cause).0;
    if log' != log {
      LookupSnoc(log, log'[|log|], key);
    }
  }

  lemma NoNewWrite(s: State, a: Action, v: nat)
    requires Enabled(s, a) && !a.CallUnregister? && !a.RunTask? && !a.OutsideDelete?
    requires v <= |s.log| && NewestWrite(s.log, v) && NewestWrite(Apply(s, a).log, v)
    ensures var s' := Apply(s, a);
            s'.log != s.log ==>
              |s'.log| == |s.log| + 1 && s'.log[..|s.log|] == s.log && s'.log[|s.log|].key != s.log[v - 1].key
  {
    StepIsLater(s, a);
    var s' := Apply(s, a);
    if s'.log != s.log {
      assert s'.log[|s.log|].Wrote?;
      assert s'.log[v - 1] == s'.log[..|s.log|][v - 1];
    }
  }

  lemma OtherKeyKept(log: Log, log': Log, key: Key)
    requires log' == log || (|log'| == |log| + 1 && log'[..|log|] == log && log'[|log|].key != key)
    ensures Lookup(log', key) == Lookup(log, key)
  {
    if log' != log {
      assert log' == log + [log'[|log|]];
      LookupSnoc(log, log'[|log|], key);
    }
  }

  lemma OtherDeleteKeeps(log: Log, target: Key, version: Option<nat>, cause: Cause, key: Key)
    requires target != key
    ensures Lookup(Delete(log, target, version, cause).0, key) == Lookup(log, key)
  {
    OtherKeyKept(log, Delete(log, target, version, cause).0, key);
  }

  lemma NewestBefore(s: State, a: Action, v: nat)
    requires Enabled(s, a) && v <= |s.log| && NewestWrite(Apply(s, a).log, v)
    ensures NewestWrite(s.log, v) && Apply(s, a).log[v - 1] == s.log[v - 1]
  {
    StepIsLater(s, a);
    var log' := Apply(s, a).log;
    hide Apply, Enabled;
    assert forall j :: 0 <= j < |s.log| ==> log'[j] == log'[..|s.log|][j] == s.log[j];
  }

  lemma NewestStep(s: State, a: Action, v: nat)
    requires Enabled(s, a) && v <= |s.log| && NewestWrite(Apply(s, a).log, v)
    ensures NewestWrite(s.log, v) && Apply(s, a).log[v - 1] == s.log[v - 1]
    ensures var key := s.log[v - 1].key;
            Lookup(Apply(s, a).log, key).Some? <==> Lookup(s.log, key).Some? && !Targets(s, a, key, v)
  {
    var s' := Apply(s, a);
    NewestBefore(s, a, v);
    var key := s.log[v - 1].key;
    hide NewestWrite, Lookup;
    match a
    case CallUnregister(rid, name, carried, net) =>
      if net.NotSent? {
      } else if Key(s.replicas[rid].ns, name) == key {
        DeleteDecides(s.log, key, carried, Unregister(carried), v);
      } else {
        OtherDeleteKeeps(s.log, Key(s.replicas[rid].ns, name), carried, Unregister(carried), key);
      }
    case RunTask(rid, net) =>
      var t := s.replicas[rid].tasks[0];
      if net.NotSent? {
      } else if t.key == key {
        DeleteDecides(s.log, key, Some(t.version), Expiry(rid, t.version, t.at), v);
      } else {
        OtherDeleteKeeps(s.log, t.key, Some(t.version), Expiry(rid, t.version, t.at), key);
      }
    case OutsideDelete(target) =>
      if target == key {
        DeleteDecides(s.log, key, None, Outside, v);
      } else {
        OtherDeleteKeeps(s.log, target, None, Outside, key);
      }
    case _ =>
      NoNewWrite(s, a, v);
      OtherKeyKept(s.log, s'.log, key);
  }

  ghost predicate TargetsAt(acts: seq<Action>, k: nat, key: Key, v: nat)
    requires k < |acts|
  {
    && Run(INIT, acts[..k]).Some? && |Run(INIT, acts[..k]).value.log| >= v
    && Targets(Run(INIT, acts[..k]).value, acts[k], key, v)
  }

  /** Some delete call since the write of version v named its key with this version or none. */
  ghost predicate WasTargeted(acts: seq<Action>, key: Key, v: nat) {
    exists k :: 0 <= k < |acts| && TargetsAt(acts, k, key, v)
  }

  lemma TargetedSnoc(init: seq<Action>, a: Action, key: Key, v: nat)
    ensures var acts := init + [a];
            WasTargeted(acts, key, v) <==>
              WasTargeted(init, key, v)
              || (Run(INIT, init).Some? && |Run(INIT, init).value.log| >= v
                  && Targets(Run(INIT, init).value, a, key, v))
  {
    hide Run, Targets;
    var acts := init + [a];
    assert acts[..|init|] == init;
    assert forall k :: 0 <= k < |init| ==> acts[..k] == init[..k];
    assert forall k: nat :: k < |init| ==> (TargetsAt(acts, k, key, v) <==> TargetsAt(init, k, key, v));
    assert TargetsAt(acts, |init|, key, v) <==>
           (Run(INIT, init).Some? && |Run(INIT, init).value.log| >= v && Targets(Run(INIT, init).value, a, key, v));
    if WasTargeted(init, key, v) {
      var k :| 0 <= k < |init| && TargetsAt(init, k, key, v);
      assert TargetsAt(acts, k, key, v);
    }
  }

  lemma JustWritten(before: Log, log: Log, v: nat)
    requires |before| < v == |log| && log[v - 1].Wrote?
    ensures Lookup(log, log[v - 1].key).Some?
  {
  }

  lemma NotTargetedYet(acts: seq<Action>, key: Key, v: nat)
    requires Run(INIT, acts).Some? && |Run(INIT, acts).value.log| < v
    ensures !WasTargeted(acts, key, v)
  {
    forall k | 0 <= k < |acts| ensures !TargetsAt(acts, k, key, v) {
      HistoryGrows(acts, k);
    }
  }

  lemma {:induction false} NewestByRun(acts: seq<Action>, v: nat)
    requires Run(INIT, acts).Some? && NewestWrite(Run(INIT, acts).value.log, v)
    ensures var log := Run(INIT, acts).value.log;
            Lookup(log, log[v - 1].key).Some? <==> !WasTargeted(acts, log[v - 1].key, v)
    decreases |acts|
  {
    var log := Run(INIT, acts).value.log;
    var init, a := acts[..|acts| - 1], acts[|acts| - 1];
    var s := Run(INIT, init).value;
    assert acts == init + [a] && log == Apply(s, a).log;
    hide Run, Apply, Enabled;
    TargetedSnoc(init, a, log[v - 1].key, v);
    if v <= |s.log| {
      NewestStep(s, a, v);
      NewestByRun(init, v);
    } else {
      StepIsLater(s, a);
      JustWritten(s.log, log, v);
      NotTargetedYet(init, log[v - 1].key, v);
    }
  }

  /**
   The newest write under a key, on whichever replica, is stored if and only if no delete
   call that names the key with its very version, or with no version at all, has reached
   the server since.  In particular it outlives every Unregister that carries the version
   of an older registration, and every clean-up of an older version.
   */
  lemma {:induction false} NewestOutlivesOlderUnregisters(acts: seq<Action>, v: nat)
    requires Run(INIT, acts).Some?
    requires var log := Run(INIT, acts).value.log;
             && 1 <= v <= |log| && log[v - 1].Wrote?
             && forall j :: v <= j < |log| && log[j].key == log[v - 1].key ==> log[j].Erased?
    ensures var log := Run(INIT, acts).value.log;
            var key := log[v - 1].key;
            Lookup(log, key) == Some(Obj(v, log[v - 1].spec)) <==> !WasTargeted(acts, key, v)
  {
    RunInv(acts);
    var s := Run(INIT, acts).value;
    assert EntryOk(s.log, s.now, s.replicas, v - 1);
    assert NewestWrite(s.log, v);
    hide *;
    NewestIsStored(s.log, v);
    NewestByRun(acts, v);
  }
}
