/**
 Any number of registry replicas over one API server.  One action is one API call,
 one step of a Find, one observed event, one clean-up task or one tick, so calls of
 different replicas interleave at every point.
 */
module Replicas {
  import opened Wrappers
  import opened ApiStore
  import opened ApiTraffic

  /** A clean-up task: delete this key if it still has this version.  `at` (history): when it was judged expired. */
  datatype Task = Task(key: Key, version: nat, at: int)

  /** A replica with its namespace and its queue of clean-up tasks; `missed` (history): the tasks whose call failed. */
  datatype Replica = Replica(ns: string, tasks: seq<Task>, missed: set<Task>)

  /**
   Register: Create, then Get and Update if the name exists; a successful write is handed
   on to the next element, which may fail.  `lost`: a write whose reply got lost.
   */
  datatype RegPc =
    | Creating
    | Getting
    | Updating(base: nat)
    | Written(version: nat)
    | Registered(version: nat)
    | HandOnFailed(version: nat)
    | Failed(lost: Option<nat>)

  /** What a Get returned, and the length of the history when it did. */
  datatype Read = Read(version: nat, len: nat)

  /** `read` (history) is what the call's Get returned. */
  datatype Reg = Reg(ns: string, spec: Spec, pc: RegPc, read: Option<Read>)

  datatype Item = Item(key: Key, obj: Obj)

  /** The list loop of a Find at item i; `listedAt` and `listedLen` (history) tell when it listed. */
  datatype FindOp = FindOp(rid: ReplicaId, items: seq<Item>, i: nat, listedAt: int, listedLen: nat, failed: bool)

  datatype State = State(
    log: Log, now: int, replicas: map<ReplicaId, Replica>, regs: map<OpId, Reg>, finds: map<nat, FindOp>)

  /** What the network does to a call. */
  datatype Net = Delivered | NotSent | ReplyLost

  datatype Action =
    | Tick(d: nat)
    | StartReplica(rid: ReplicaId, ns: string)
    | StartRegister(op: OpId, rid: ReplicaId, spec: Spec)
    | CallCreate(op: OpId, generated: string, net: Net)
    | CallGet(op: OpId, net: Net)
    | CallUpdate(op: OpId, net: Net)
    | CallNext(op: OpId, ok: bool)
    | CallUnregister(rid: ReplicaId, name: string, carried: Option<nat>, net: Net)
    | StartFind(f: nat, rid: ReplicaId, order: seq<Key>)
    | FindItem(f: nat, sendOk: bool)
    | Observe(rid: ReplicaId, version: nat)
    | RunTask(rid: ReplicaId, net: Net)
    | OutsideWrite(key: Key, spec: Spec)
    | OutsideDelete(key: Key)

  const INIT: State := State([], 0, map[], map[], map[])

  /** The name of a request; the server generates one for an empty name at creation only. */
  function RequestKey(reg: Reg): Key {
    Key(reg.ns, reg.spec.name)
  }

  function CreationKey(reg: Reg, generated: string): Key {
    if reg.spec.name == "" then Key(reg.ns, generated) else RequestKey(reg)
  }

  /** The task for an object seen expired: it names the replica's own namespace. */
  function TaskFor(ns: string, objectName: string, obj: Obj, now: int): Task {
    Task(Key(ns, DefaultName(obj.spec, objectName)), obj.version, now)
  }

  ghost predicate Enabled(s: State, a: Action) {
    match a
    case Tick(_) => true
    case StartReplica(rid, _) => rid !in s.replicas
    case StartRegister(op, rid, _) => op !in s.regs && rid in s.replicas
    case CallCreate(op, generated, _) => op in s.regs && s.regs[op].pc.Creating? && generated != ""
    case CallGet(op, _) => op in s.regs && s.regs[op].pc.Getting?
    case CallUpdate(op, _) => op in s.regs && s.regs[op].pc.Updating?
    case CallNext(op, _) => op in s.regs && s.regs[op].pc.Written?
    case CallUnregister(rid, _, _, _) => rid in s.replicas
    case StartFind(f, rid, order) =>
      f !in s.finds && rid in s.replicas && forall key :: key in order <==> Lookup(s.log, key) != None
    case FindItem(f, _) =>
      f in s.finds && s.finds[f].i < |s.finds[f].items| && !s.finds[f].failed && s.finds[f].rid in s.replicas
    case Observe(rid, v) => rid in s.replicas && 1 <= v <= |s.log| && s.log[v - 1].Wrote?
    case RunTask(rid, _) => rid in s.replicas && s.replicas[rid].tasks != []
    case OutsideWrite(key, _) => key.name != ""
    case OutsideDelete(_) => true
  }

  function AddTask(s: State, rid: ReplicaId, t: Task): State
    requires rid in s.replicas
  {
    s.(replicas := s.replicas[rid := s.replicas[rid].(tasks := s.replicas[rid].tasks + [t])])
  }

  function SetPc(s: State, op: OpId, pc: RegPc): State
    requires op in s.regs
  {
    s.(regs := s.regs[op := s.regs[op].(pc := pc)])
  }

  /** What a Register makes of the reply to a write; Create may go on to Get. */
  function AfterWrite(reply: Reply, net: Net, creating: bool): RegPc {
    if net.ReplyLost? then Failed(if reply.Ok? then Some(reply.obj.version) else None)
    else match reply
      case Ok(obj) => Written(obj.version)
      case AlreadyExists => if creating then Getting else Failed(None)
      case _ => Failed(None)
  }

  /** Get failing leaves an object without a name, and the Update of that fails before it is sent. */
  function AfterGet(reply: Reply, net: Net): RegPc {
    if net.Delivered? && reply.Ok? then Updating(reply.obj.version) else Failed(None)
  }

  function Stored(log: Log, order: seq<Key>): seq<Item> {
    if order == [] then []
    else
      var found := Lookup(log, order[0]);
      (if found.Some? then [Item(order[0], found.value)] else []) + Stored(log, order[1..])
  }

  ghost function Apply(s: State, a: Action): State
    requires Enabled(s, a)
  {
    match a
    case Tick(d) => s.(now := s.now + d)
    case StartReplica(rid, ns) => s.(replicas := s.replicas[rid := Replica(ns, [], {})])
    case StartRegister(op, rid, spec) => s.(regs := s.regs[op := Reg(s.replicas[rid].ns, spec, Creating, None)])
    case CallCreate(op, generated, net) =>
      if net.NotSent? then SetPc(s, op, Failed(None))
      else
        var (log, reply) := Create(s.log, CreationKey(s.regs[op], generated), s.regs[op].spec, Some(op));
        SetPc(s, op, AfterWrite(reply, net, true)).(log := log)
    case CallGet(op, net) =>
      var pc := AfterGet(Get(s.log, RequestKey(s.regs[op])), net);
      var read := if pc.Updating? then Some(Read(pc.base, |s.log|)) else None;
      s.(regs := s.regs[op := s.regs[op].(pc := pc, read := read)])
    case CallUpdate(op, net) =>
      if net.NotSent? then SetPc(s, op, Failed(None))
      else
        var (log, reply) := Update(s.log, RequestKey(s.regs[op]), s.regs[op].pc.base, s.regs[op].spec, Some(op));
        SetPc(s, op, AfterWrite(reply, net, false)).(log := log)
    case CallNext(op, ok) =>
      var v := s.regs[op].pc.version;
      SetPc(s, op, if ok then Registered(v) else HandOnFailed(v))
    case CallUnregister(rid, name, carried, net) =>
      if net.NotSent? then s
      else s.(log := Delete(s.log, Key(s.replicas[rid].ns, name), carried, Unregister(carried)).0)
    case StartFind(f, rid, order) =>
      s.(finds := s.finds[f := FindOp(rid, Stored(s.log, order), 0, s.now, |s.log|, false)])
    case FindItem(f, sendOk) =>
      var find := s.finds[f];
      var Item(key, obj) := find.items[find.i];
      var next := s.(finds := s.finds[f := find.(i := find.i + 1)]);
      if Expired(obj.spec, s.now) then
        AddTask(next, find.rid, TaskFor(s.replicas[find.rid].ns, key.name, obj, s.now))
      else if sendOk then next
      else s.(finds := s.finds[f := find.(failed := true)])
    case Observe(rid, v) =>
      var e := s.log[v - 1];
      if Expired(e.spec, s.now) then
        AddTask(s, rid, TaskFor(s.replicas[rid].ns, e.key.name, Obj(v, e.spec), s.now))
      else s
    case RunTask(rid, net) =>
      var replica := s.replicas[rid];
      var t := replica.tasks[0];
      var s' := s.(replicas := s.replicas[rid :=
        replica.(tasks := replica.tasks[1..],
                 missed := if net.NotSent? then replica.missed + {t} else replica.missed)]);
      if net.NotSent? then s'
      else s'.(log := Delete(s.log, t.key, Some(t.version), Expiry(rid, t.version, t.at)).0)
    case OutsideWrite(key, spec) =>
      var found := Lookup(s.log, key);
      s.(log := s.log + [Wrote(key, spec, None, if found.Some? then Some(found.value.version) else None)])
    case OutsideDelete(key) => s.(log := Delete(s.log, key, None, Outside).0)
  }

  ghost function Run(s: State, acts: seq<Action>): Option<State> {
    if acts == [] then Some(s)
    else
      var before, a := Run(s, acts[..|acts| - 1]), acts[|acts| - 1];
      if before.Some? && Enabled(before.value, a) then Some(Apply(before.value, a)) else None
  }

  // ---------- the invariant ----------

  /** Register and Update write an endpoint under its own name. */
  predicate Named(key: Key, spec: Spec) {
    DefaultName(spec, key.name) == key.name
  }

  /** How the entry at index i fits the entries before it. */
  ghost predicate EntryOk(log: Log, now: int, replicas: map<ReplicaId, Replica>, i: nat)
    requires i < |log|
  {
    var e := log[i];
    var before := Lookup(log[..i], e.key);
    match e
    case Wrote(key, spec, writer, base) =>
      && key.name != "" && (writer.Some? ==> Named(key, spec))
      && base == (if before.Some? then Some(before.value.version) else None)
    case Erased(key, victim, cause) =>
      && before.Some? && victim == before.value.version
      && (cause.Unregister? && cause.carried.Some? ==> cause.carried.value == victim)
      && (cause.Expiry? ==>
            cause.version == victim && Expired(before.value.spec, cause.at) && cause.at <= now
            && cause.rid in replicas && replicas[cause.rid].ns == key.ns)
  }

  ghost predicate LogOk(s: State) {
    forall i :: 0 <= i < |s.log| ==> EntryOk(s.log, s.now, s.replicas, i)
  }

  /** The write of the call went through: reported to it, or lost on the way back. */
  predicate HasWritten(pc: RegPc, v: nat) {
    pc == Written(v) || pc == Registered(v) || pc == HandOnFailed(v)
  }

  predicate Owns(pc: RegPc, v: nat) {
    HasWritten(pc, v) || pc == Failed(Some(v))
  }

  /** The read saw this version under key. */
  ghost predicate ReadOk(log: Log, read: Read, key: Key) {
    && read.len <= |log|
    && Lookup(log[..read.len], key).Some? && Lookup(log[..read.len], key).value.version == read.version
  }

  ghost predicate RegOk(log: Log, op: OpId, reg: Reg) {
    && (reg.pc.Updating? ==>
          && reg.read.Some? && reg.read.value.version == reg.pc.base && reg.spec.name != ""
          && ReadOk(log, reg.read.value, RequestKey(reg)))
    && (reg.pc.Written? || reg.pc.Registered? || reg.pc.HandOnFailed? ==>
          var v := reg.pc.version;
          && 1 <= v <= |log| && log[v - 1].Wrote? && log[v - 1].writer == Some(op) && log[v - 1].spec == reg.spec
          && log[v - 1].key.ns == reg.ns && (reg.spec.name != "" ==> log[v - 1].key == RequestKey(reg)))
  }

  /** A write of a Register call belongs to it, and an update replaces the version that its Get returned. */
  ghost predicate WriteOk(log: Log, regs: map<OpId, Reg>, i: nat)
    requires i < |log| && log[i].Wrote? && log[i].writer.Some?
  {
    var op := log[i].writer.value;
    && op in regs && Owns(regs[op].pc, i + 1)
    && (log[i].base.Some? ==>
          && regs[op].read.Some? && regs[op].read.value.len <= i
          && regs[op].read.value.version == log[i].base.value && ReadOk(log, regs[op].read.value, log[i].key))
  }

  ghost predicate RegsOk(s: State) {
    && (forall op :: op in s.regs ==> RegOk(s.log, op, s.regs[op]))
    && (forall i :: 0 <= i < |s.log| && s.log[i].Wrote? && s.log[i].writer.Some? ==> WriteOk(s.log, s.regs, i))
  }

  ghost predicate TaskOk(log: Log, now: int, ns: string, t: Task) {
    && 1 <= t.version <= |log| && log[t.version - 1].Wrote? && t.key.ns == ns
    && Expired(log[t.version - 1].spec, t.at) && t.at <= now
  }

  ghost predicate TasksOk(s: State) {
    forall rid :: rid in s.replicas ==>
      forall t :: t in s.replicas[rid].tasks ==> TaskOk(s.log, s.now, s.replicas[rid].ns, t)
  }

  /** This version is no longer stored under key, and never will be again. */
  ghost predicate Gone(log: Log, key: Key, v: nat) {
    v <= |log| && forall obj :: Lookup(log, key) == Some(obj) ==> obj.version != v
  }

  /** A task among ts is for this version. */
  ghost predicate HasTask(ts: set<Task>, key: Key, v: nat) {
    exists t :: t in ts && t.key == key && t.version == v
  }

  /** The clean-up of an expired item is queued, was missed, or is done. */
  ghost predicate Handled(s: State, replica: Replica, key: Key, v: nat) {
    || HasTask(replica.missed, key, v) || Gone(s.log, key, v)
    || exists t :: t in replica.tasks && t.key == key && t.version == v
  }

  ghost predicate ItemOk(log: Log, item: Item) {
    var v := item.obj.version;
    1 <= v <= |log| && log[v - 1].Wrote? && log[v - 1].key == item.key && log[v - 1].spec == item.obj.spec
  }

  ghost predicate FindOk(s: State, find: FindOp) {
    && find.rid in s.replicas && find.i <= |find.items| && find.listedAt <= s.now && find.listedLen <= |s.log|
    && (forall item :: item in find.items ==> ItemOk(s.log, item))
    && (forall key :: Lookup(s.log[..find.listedLen], key) != None ==>
          Item(key, Lookup(s.log[..find.listedLen], key).value) in find.items)
    && (forall k :: 0 <= k < find.i && Expired(find.items[k].obj.spec, find.listedAt) ==>
          var replica, item := s.replicas[find.rid], find.items[k];
          Handled(s, replica, TaskFor(replica.ns, item.key.name, item.obj, s.now).key, item.obj.version))
  }

  ghost predicate FindsOk(s: State) {
    forall f :: f in s.finds ==> FindOk(s, s.finds[f])
  }

  ghost predicate Inv(s: State) {
    LogOk(s) && RegsOk(s) && TasksOk(s) && FindsOk(s)
  }

  lemma InitInv()
    ensures Inv(INIT)
  {
  }

  // ---------- what a step changes ----------

  /** The history grows by at most one entry, the clock does not go back, replicas keep their namespace. */
  ghost predicate Later(s: State, s': State) {
    && (s'.log == s.log || (|s'.log| == |s.log| + 1 && s'.log[..|s.log|] == s.log))
    && s.now <= s'.now
    && forall rid :: rid in s.replicas ==> rid in s'.replicas && s'.replicas[rid].ns == s.replicas[rid].ns
  }

  lemma StepIsLater(s: State, a: Action)
    requires Enabled(s, a)
    ensures Later(s, Apply(s, a))
  {
  }

  /** The new entry of a step, if it has one, fits the history. */
  lemma NewEntryOk(s: State, a: Action)
    requires Enabled(s, a) && LogOk(s) && TasksOk(s)
    ensures var s' := Apply(s, a);
            |s'.log| > |s.log| ==> EntryOk(s'.log, s'.now, s'.replicas, |s.log|)
  {
    var s' := Apply(s, a);
    if |s'.log| > |s.log| {
      assert s'.log[..|s.log|] == s.log;
      match a
      case RunTask(rid, _) => assert s.replicas[rid].tasks[0] in s.replicas[rid].tasks;
      case OutsideWrite(key, _) =>
      case CallCreate(op, _, _) =>
      case CallUpdate(op, _) =>
      case CallUnregister(_, _, _, _) =>
      case OutsideDelete(_) =>
    }
  }

  lemma StepKeepsLog(s: State, a: Action)
    requires Enabled(s, a) && LogOk(s) && TasksOk(s)
    ensures LogOk(Apply(s, a))
  {
    var s' := Apply(s, a);
    StepIsLater(s, a);
    NewEntryOk(s, a);
    hide Apply, Enabled, TasksOk;
    forall i | 0 <= i < |s'.log| ensures EntryOk(s'.log, s'.now, s'.replicas, i) {
      if i < |s.log| {
        assert s'.log[..i] == s.log[..i] && s'.log[i] == s.log[i];
        assert EntryOk(s.log, s.now, s.replicas, i);
      }
    }
  }

  lemma ReadKept(log: Log, log': Log, read: Read, key: Key)
    requires |log| <= |log'| && log'[..|log|] == log && ReadOk(log, read, key)
    ensures ReadOk(log', read, key)
  {
    assert log'[..|log|][..read.len] == log'[..read.len];
  }

  lemma RegKept(log: Log, log': Log, op: OpId, reg: Reg)
    requires |log| <= |log'| && log'[..|log|] == log && RegOk(log, op, reg)
    ensures RegOk(log', op, reg)
  {
    hide ReadOk;
    if reg.pc.Updating? {
      ReadKept(log, log', reg.read.value, RequestKey(reg));
    } else if reg.pc.Written? || reg.pc.Registered? || reg.pc.HandOnFailed? {
      assert log'[..|log|][reg.pc.version - 1] == log'[reg.pc.version - 1];
    }
  }

  /** What a call has written, and what it had read before, stays its own. */
  ghost predicate CallsGoOn(s: State, s': State) {
    forall op :: op in s.regs ==>
      op in s'.regs && forall v :: Owns(s.regs[op].pc, v) ==>
        Owns(s'.regs[op].pc, v) && s'.regs[op].read == s.regs[op].read
  }

  lemma WriteKept(s: State, s': State, i: nat)
    requires |s.log| <= |s'.log| && s'.log[..|s.log|] == s.log && CallsGoOn(s, s')
    requires i < |s.log| && s.log[i].Wrote? && s.log[i].writer.Some? && WriteOk(s.log, s.regs, i)
    ensures s'.log[i] == s.log[i] && WriteOk(s'.log, s'.regs, i)
  {
    hide ReadOk;
    assert s'.log[..|s.log|][i] == s'.log[i];
    if s.log[i].base.Some? {
      ReadKept(s.log, s'.log, s.regs[s.log[i].writer.value].read.value, s.log[i].key);
    }
  }

  lemma CallsGoOnStep(s: State, a: Action)
    requires Enabled(s, a)
    ensures CallsGoOn(s, Apply(s, a))
  {
  }

  /** The call that a step moves. */
  predicate IsCallStep(a: Action) {
    a.StartRegister? || a.CallCreate? || a.CallGet? || a.CallUpdate? || a.CallNext?
  }

  lemma OthersMoveNoCall(s: State, a: Action)
    requires Enabled(s, a)
    ensures var s' := Apply(s, a);
            forall op :: op in s'.regs && !(IsCallStep(a) && a.op == op) ==> op in s.regs && s'.regs[op] == s.regs[op]
  {
  }

  lemma GetOk(s: State, op: OpId, net: Net)
    requires Enabled(s, CallGet(op, net))
    ensures var s' := Apply(s, CallGet(op, net)); RegOk(s'.log, op, s'.regs[op])
  {
    assert s.log[..|s.log|] == s.log;
  }

  lemma CreateOk(s: State, op: OpId, generated: string, net: Net)
    requires Enabled(s, CallCreate(op, generated, net))
    ensures var s' := Apply(s, CallCreate(op, generated, net)); RegOk(s'.log, op, s'.regs[op])
  {
    hide Lookup, ReadOk;
  }

  lemma UpdateOk(s: State, op: OpId, net: Net)
    requires Enabled(s, CallUpdate(op, net))
    ensures var s' := Apply(s, CallUpdate(op, net)); RegOk(s'.log, op, s'.regs[op])
  {
    hide Lookup, ReadOk;
  }

  lemma MovedCallOk(s: State, a: Action)
    requires Enabled(s, a) && RegsOk(s)
    ensures var s' := Apply(s, a);
            forall op :: op in s'.regs && (op !in s.regs || s'.regs[op] != s.regs[op]) ==>
              RegOk(s'.log, op, s'.regs[op])
  {
    OthersMoveNoCall(s, a);
    match a
    case CallCreate(op, generated, net) =>
      CreateOk(s, op, generated, net);
      hide Apply, Enabled, RegOk;
    case CallGet(op, net) =>
      GetOk(s, op, net);
      hide Apply, Enabled, RegOk;
    case CallUpdate(op, net) =>
      UpdateOk(s, op, net);
      hide Apply, Enabled, RegOk;
    case CallNext(op, _) => assert RegOk(s.log, op, s.regs[op]);
    case _ =>
  }

  lemma NewWriteOk(s: State, a: Action)
    requires Enabled(s, a) && RegsOk(s)
    ensures var s' := Apply(s, a);
            |s'.log| > |s.log| && s'.log[|s.log|].Wrote? && s'.log[|s.log|].writer.Some? ==>
              WriteOk(s'.log, s'.regs, |s.log|)
  {
    var s' := Apply(s, a);
    if |s'.log| > |s.log| && a.CallUpdate? {
      var read, key := s.regs[a.op].read.value, RequestKey(s.regs[a.op]);
      assert s'.log[..read.len] == s.log[..read.len];
    }
  }

  lemma RegsKept(s: State, s': State)
    requires RegsOk(s) && |s.log| <= |s'.log| && s'.log[..|s.log|] == s.log
    requires forall op :: op in s'.regs && (op !in s.regs || s'.regs[op] != s.regs[op]) ==>
               RegOk(s'.log, op, s'.regs[op])
    ensures forall op :: op in s'.regs ==> RegOk(s'.log, op, s'.regs[op])
  {
    hide RegOk, WriteOk;
    forall op | op in s'.regs ensures RegOk(s'.log, op, s'.regs[op]) {
      if op in s.regs && s'.regs[op] == s.regs[op] {
        RegKept(s.log, s'.log, op, s.regs[op]);
      }
    }
  }

  lemma WritesKept(s: State, s': State)
    requires RegsOk(s) && CallsGoOn(s, s')
    requires s'.log == s.log || (|s'.log| == |s.log| + 1 && s'.log[..|s.log|] == s.log)
    requires |s'.log| > |s.log| && s'.log[|s.log|].Wrote? && s'.log[|s.log|].writer.Some? ==>
               WriteOk(s'.log, s'.regs, |s.log|)
    ensures forall i :: 0 <= i < |s'.log| && s'.log[i].Wrote? && s'.log[i].writer.Some? ==> WriteOk(s'.log, s'.regs, i)
  {
    hide RegOk, WriteOk, CallsGoOn;
    forall i | 0 <= i < |s'.log| && s'.log[i].Wrote? && s'.log[i].writer.Some?
      ensures WriteOk(s'.log, s'.regs, i)
    {
      if i < |s.log| {
        assert s'.log[..|s.log|][i] == s.log[i];
        WriteKept(s, s', i);
      }
    }
  }

  lemma StepKeepsRegs(s: State, a: Action)
    requires Enabled(s, a) && RegsOk(s)
    ensures RegsOk(Apply(s, a))
  {
    var s' := Apply(s, a);
    StepIsLater(s, a);
    CallsGoOnStep(s, a);
    MovedCallOk(s, a);
    NewWriteOk(s, a);
    hide Apply, Enabled, RegOk, WriteOk, CallsGoOn;
    RegsKept(s, s');
    WritesKept(s, s');
  }

  /** A task of the new state is old, or it is for an object seen expired. */
  lemma NewTask(s: State, a: Action, rid: ReplicaId, t: Task)
    requires Enabled(s, a) && FindsOk(s)
    requires rid in Apply(s, a).replicas && t in Apply(s, a).replicas[rid].tasks
    ensures (rid in s.replicas && t in s.replicas[rid].tasks)
         || TaskOk(Apply(s, a).log, Apply(s, a).now, Apply(s, a).replicas[rid].ns, t)
  {
    var s' := Apply(s, a);
    match a
    case RunTask(r, _) => assert s.replicas[r].tasks == [s.replicas[r].tasks[0]] + s.replicas[r].tasks[1..];
    case FindItem(f, _) =>
      var find := s.finds[f];
      assert FindOk(s, find);
      assert find.items[find.i] in find.items;
    case _ =>
  }

  lemma StepKeepsTasks(s: State, a: Action)
    requires Enabled(s, a) && TasksOk(s) && FindsOk(s)
    ensures TasksOk(Apply(s, a))
  {
    var s' := Apply(s, a);
    StepIsLater(s, a);
    forall rid, t | rid in s'.replicas && t in s'.replicas[rid].tasks
      ensures TaskOk(s'.log, s'.now, s'.replicas[rid].ns, t)
    {
      NewTask(s, a, rid, t);
      if rid in s.replicas && t in s.replicas[rid].tasks {
        assert TaskOk(s.log, s.now, s.replicas[rid].ns, t);
        assert s'.log[..|s.log|][t.version - 1] == s'.log[t.version - 1];
      }
    }
  }

  /** A version that is gone does not come back: new writes get new versions. */
  lemma GoneForGood(log: Log, log': Log, key: Key, v: nat)
    requires Gone(log, key, v)
    requires log' == log || (|log'| == |log| + 1 && log'[..|log|] == log)
    ensures Gone(log', key, v)
  {
    if log' != log {
      assert log' == log + [log'[|log|]];
      LookupSnoc(log, log'[|log|], key);
    }
  }

  /** The delete of a clean-up task, if it reaches the server, leaves its version gone. */
  lemma TaskErases(s: State, t: Task, cause: Cause)
    requires LogOk(s) && t.version <= |s.log|
    ensures Gone(Delete(s.log, t.key, Some(t.version), cause).0, t.key, t.version)
  {
    var log' := Delete(s.log, t.key, Some(t.version), cause).0;
    if log' != s.log {
      LookupSnoc(s.log, log'[|s.log|], t.key);
    } else if t.key.name == "" {
      var v := LastOn(s.log, t.key);
      assert v > 0 && s.log[v - 1].Wrote? ==> EntryOk(s.log, s.now, s.replicas, v - 1);
    }
  }

  lemma TasksStay(s: State, a: Action, rid: ReplicaId)
    requires Enabled(s, a) && rid in s.replicas && !(a.RunTask? && a.rid == rid)
    ensures rid in Apply(s, a).replicas
    ensures forall t :: t in s.replicas[rid].tasks ==> t in Apply(s, a).replicas[rid].tasks
  {
  }

  lemma MissedStay(s: State, a: Action, rid: ReplicaId)
    requires Enabled(s, a) && rid in s.replicas
    ensures rid in Apply(s, a).replicas && s.replicas[rid].missed <= Apply(s, a).replicas[rid].missed
  {
  }

  lemma HandledKept(s: State, a: Action, rid: ReplicaId, key: Key, v: nat)
    requires Enabled(s, a) && LogOk(s) && v <= |s.log|
    requires rid in s.replicas && Handled(s, s.replicas[rid], key, v)
    ensures rid in Apply(s, a).replicas && Handled(Apply(s, a), Apply(s, a).replicas[rid], key, v)
  {
    var s' := Apply(s, a);
    StepIsLater(s, a);
    MissedStay(s, a, rid);
    var replica, replica' := s.replicas[rid], s'.replicas[rid];
    if Gone(s.log, key, v) {
      GoneForGood(s.log, s'.log, key, v);
    } else if HasTask(replica.missed, key, v) {
      assert HasTask(replica'.missed, key, v);
    } else {
      var t :| t in replica.tasks && t.key == key && t.version == v;
      if a.RunTask? && a.rid == rid {
        assert replica.tasks == [replica.tasks[0]] + replica'.tasks;
        if t !in replica'.tasks {
          if a.net.NotSent? {
            assert t in replica'.missed;
          } else {
            TaskErases(s, t, Expiry(rid, t.version, t.at));
          }
        }
      } else {
        TasksStay(s, a, rid);
      }
    }
  }

  /** A Find whose loop does not move in this step. */
  lemma IdleFindKept(s: State, a: Action, find: FindOp)
    requires Enabled(s, a) && LogOk(s) && FindOk(s, find)
    ensures FindOk(Apply(s, a), find)
  {
    var s' := Apply(s, a);
    StepIsLater(s, a);
    assert s'.log[..find.listedLen] == s.log[..find.listedLen] by {
      assert s'.log[..|s.log|][..find.listedLen] == s'.log[..find.listedLen];
    }
    forall item | item in find.items ensures ItemOk(s'.log, item) {
      assert ItemOk(s.log, item);
      assert s'.log[..|s.log|][item.obj.version - 1] == s'.log[item.obj.version - 1];
    }
    forall k | 0 <= k < find.i && Expired(find.items[k].obj.spec, find.listedAt)
      ensures var replica, item := s'.replicas[find.rid], find.items[k];
              Handled(s', replica, TaskFor(replica.ns, item.key.name, item.obj, s'.now).key, item.obj.version)
    {
      var item := find.items[k];
      assert item in find.items && ItemOk(s.log, item);
      var key := TaskFor(s.replicas[find.rid].ns, item.key.name, item.obj, s.now).key;
      HandledKept(s, a, find.rid, key, item.obj.version);
    }
  }

  lemma {:induction false} StoredOk(log: Log, order: seq<Key>)
    ensures forall item :: item in Stored(log, order) ==> ItemOk(log, item)
    ensures forall key :: key in order && Lookup(log, key) != None ==>
              Item(key, Lookup(log, key).value) in Stored(log, order)
  {
    if order == [] {
    } else {
      StoredOk(log, order[1..]);
      assert forall key :: key in order ==> key == order[0] || key in order[1..];
    }
  }

  lemma StartFindOk(s: State, f: nat, rid: ReplicaId, order: seq<Key>)
    requires Enabled(s, StartFind(f, rid, order))
    ensures FindOk(Apply(s, StartFind(f, rid, order)), Apply(s, StartFind(f, rid, order)).finds[f])
  {
    StoredOk(s.log, order);
    assert s.log[..|s.log|] == s.log;
  }

  lemma FindItemOk(s: State, f: nat, sendOk: bool)
    requires Enabled(s, FindItem(f, sendOk)) && LogOk(s) && FindOk(s, s.finds[f])
    ensures FindOk(Apply(s, FindItem(f, sendOk)), Apply(s, FindItem(f, sendOk)).finds[f])
  {
    var s' := Apply(s, FindItem(f, sendOk));
    var find, find' := s.finds[f], s'.finds[f];
    IdleFindKept(s, FindItem(f, sendOk), find);
    var item := find.items[find.i];
    if find'.i > find.i && Expired(item.obj.spec, find.listedAt) {
      assert Expired(item.obj.spec, s.now);
      var t := TaskFor(s.replicas[find.rid].ns, item.key.name, item.obj, s.now);
      assert t in s'.replicas[find.rid].tasks;
    }
  }

  lemma StepKeepsFinds(s: State, a: Action)
    requires Enabled(s, a) && LogOk(s) && FindsOk(s)
    ensures FindsOk(Apply(s, a))
  {
    var s' := Apply(s, a);
    forall f | f in s'.finds ensures FindOk(s', s'.finds[f]) {
      if f in s.finds && s'.finds[f] == s.finds[f] {
        IdleFindKept(s, a, s.finds[f]);
      } else {
        match a
        case StartFind(_, rid, order) => StartFindOk(s, f, rid, order);
        case FindItem(_, sendOk) => FindItemOk(s, f, sendOk);
      }
    }
  }

  lemma StepKeepsInv(s: State, a: Action)
    requires Enabled(s, a) && Inv(s)
    ensures Inv(Apply(s, a))
  {
    StepKeepsLog(s, a);
    StepKeepsRegs(s, a);
    StepKeepsTasks(s, a);
    StepKeepsFinds(s, a);
  }

  /** Every state of every run satisfies the invariant. */
  lemma {:induction false} RunInv(acts: seq<Action>)
    requires Run(INIT, acts).Some?
    ensures Inv(Run(INIT, acts).value)
  {
    if acts == [] {
      InitInv();
    } else {
      RunInv(acts[..|acts| - 1]);
      StepKeepsInv(Run(INIT, acts[..|acts| - 1]).value, acts[|acts| - 1]);
    }
  }
}
