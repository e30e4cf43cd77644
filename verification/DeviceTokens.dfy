/**
 Device tokens of the kubelet device plugin: allocation in batches with rollback, and
 ageing against the devices that the kubelet reports in use.
 */
module DeviceTokens {

  type Id = string

  /** A tracked token and whether it was seen at the last poll (or allocated since). */
  type Tracked = map<Id, bool>

  // ---------- what a poll and a batch do ----------

  /** A token that is seen becomes fresh; one that is missed becomes stale, and is dropped if it was stale. */
  function Aged(tracked: Tracked, seen: set<Id>): Tracked {
    map id | id in tracked && (id in seen || tracked[id]) :: id in seen
  }

  /** The tokens that a poll gives back to the pool. */
  function Released(tracked: Tracked, seen: set<Id>): set<Id> {
    set id | id in tracked && id !in seen && !tracked[id]
  }

  function SetOf(ids: seq<Id>): set<Id> {
    set id | id in ids
  }

  predicate Distinct(ids: seq<Id>) {
    forall i, j :: 0 <= i < j < |ids| ==> ids[i] != ids[j]
  }

  function AllFresh(ids: seq<Id>): Tracked {
    map id | id in ids :: true
  }

  /** A batch succeeds exactly if its ids are pairwise different and all free. */
  predicate BatchOk(free: set<Id>, ids: seq<Id>) {
    Distinct(ids) && SetOf(ids) <= free
  }

  function TrackedAfter(tracked: Tracked, free: set<Id>, ids: seq<Id>): Tracked {
    if BatchOk(free, ids) then tracked + AllFresh(ids) else tracked - SetOf(ids)
  }

  /** A failed batch frees every id it names, also one that was held before. */
  function HeldAfter(held: set<Id>, free: set<Id>, ids: seq<Id>): set<Id> {
    if BatchOk(free, ids) then held + SetOf(ids) else held - SetOf(ids)
  }

  function FreeAfter(held: set<Id>, free: set<Id>, ids: seq<Id>): set<Id> {
    if BatchOk(free, ids) then free - SetOf(ids) else free + held * SetOf(ids)
  }

  /**
   Exactly when a failed batch changes nothing: none of its ids was held before.
   Ids outside the batch are never touched.
   */
  lemma RollbackRestoresIff(tracked: Tracked, held: set<Id>, free: set<Id>, ids: seq<Id>)
    requires !BatchOk(free, ids) && tracked.Keys <= held && free !! held
    ensures TrackedAfter(tracked, free, ids) == tracked && HeldAfter(held, free, ids) == held
         && FreeAfter(held, free, ids) == free
        <==> SetOf(ids) !! held
    ensures forall id :: id !in ids ==>
              && (id in TrackedAfter(tracked, free, ids) <==> id in tracked)
              && (id in HeldAfter(held, free, ids) <==> id in held)
              && (id in FreeAfter(held, free, ids) <==> id in free)
    ensures TrackedAfter(tracked, free, ids).Keys !! SetOf(ids)
  {
    if SetOf(ids) !! held {
      assert TrackedAfter(tracked, free, ids) == tracked;
    } else {
      var id :| id in SetOf(ids) && id in held;
      assert id !in HeldAfter(held, free, ids);
    }
  }

  /**
   A batch that asks for a token which is held fails, whatever else it asks for, and takes
   that token away from its holder: it is free afterwards and not tracked.  The tokens of
   the batch that were free are free again.
   */
  lemma FailedBatchFreesHeldToken(tracked: Tracked, held: set<Id>, free: set<Id>, ids: seq<Id>, id: Id)
    requires free !! held && id in ids && id in held
    ensures !BatchOk(free, ids)
    ensures id !in TrackedAfter(tracked, free, ids) && id !in HeldAfter(held, free, ids)
    ensures id in FreeAfter(held, free, ids) && free <= FreeAfter(held, free, ids)
  {
    assert id in SetOf(ids);
  }

  lemma PrefixOfBatch(free: set<Id>, ids: seq<Id>, i: nat)
    requires i <= |ids| && BatchOk(free, ids)
    ensures BatchOk(free, ids[..i])
  {
    assert SetOf(ids[..i]) <= SetOf(ids);
  }

  /** One more id: the prefix stays a good batch exactly if the id is still free. */
  lemma PrefixStep(free: set<Id>, ids: seq<Id>, i: nat)
    requires i < |ids| && BatchOk(free, ids[..i])
    ensures SetOf(ids[..i + 1]) == SetOf(ids[..i]) + {ids[i]}
    ensures AllFresh(ids[..i + 1]) == AllFresh(ids[..i])[ids[i] := true]
    ensures BatchOk(free, ids[..i + 1]) <==> ids[i] in free - SetOf(ids[..i])
    ensures BatchOk(free, ids) ==> BatchOk(free, ids[..i + 1])
  {
    assert ids[..i + 1] == ids[..i] + [ids[i]];
    if BatchOk(free, ids) {
      PrefixOfBatch(free, ids, i + 1);
    }
  }

  /** The first i ids of a batch are allocated and tracked. */
  ghost predicate Progress(
    free: set<Id>, held: set<Id>, tracked: Tracked, ids: seq<Id>, i: nat,
    free': set<Id>, held': set<Id>, tracked': Tracked)
  {
    && i <= |ids| && BatchOk(free, ids[..i]) && held' == held + SetOf(ids[..i]) && free' == free - SetOf(ids[..i])
    && tracked' == tracked + AllFresh(ids[..i])
  }

  lemma ProgressStarts(free: set<Id>, held: set<Id>, tracked: Tracked, ids: seq<Id>)
    ensures Progress(free, held, tracked, ids, 0, free, held, tracked)
  {
    assert SetOf(ids[..0]) == {} && AllFresh(ids[..0]) == map[];
  }

  lemma ProgressStep(
    free: set<Id>, held: set<Id>, tracked: Tracked, ids: seq<Id>, i: nat,
    free': set<Id>, held': set<Id>, tracked': Tracked)
    requires i < |ids| && Progress(free, held, tracked, ids, i, free', held', tracked')
    ensures ids[i] in free' ==>
              Progress(free, held, tracked, ids, i + 1, free' - {ids[i]}, held' + {ids[i]}, tracked'[ids[i] := true])
    ensures ids[i] !in free' ==> !BatchOk(free, ids)
  {
    PrefixStep(free, ids, i);
  }

  /** At the end of the first loop all ids are taken, or the rollback can start. */
  lemma ProgressEnds(
    free: set<Id>, held: set<Id>, tracked: Tracked, ids: seq<Id>, i: nat,
    free': set<Id>, held': set<Id>, tracked': Tracked)
    requires Progress(free, held, tracked, ids, i, free', held', tracked')
    ensures i == |ids| ==>
              BatchOk(free, ids) && tracked' == TrackedAfter(tracked, free, ids)
              && held' == HeldAfter(held, free, ids) && free' == FreeAfter(held, free, ids)
    ensures SetOf(ids[..i]) <= SetOf(ids) * free && held' == held + SetOf(ids[..i]) && free' == free - SetOf(ids[..i])
    ensures tracked'.Keys == tracked.Keys + SetOf(ids[..i])
    ensures forall id :: id in tracked && id !in SetOf(ids[..i]) ==> tracked'[id] == tracked[id]
  {
    assert i == |ids| ==> ids[..i] == ids;
    assert SetOf(ids[..i]) <= SetOf(ids);
  }

  // ---------- what the kubelet reports ----------

  function Flatten<T>(parts: seq<seq<T>>): seq<T> {
    if parts == [] then [] else Flatten(parts[..|parts| - 1]) + parts[|parts| - 1]
  }

  datatype Device = Device(resource: string, ids: seq<Id>)

  /** A pod is a list of containers, a container a list of devices. */
  type Pod = seq<seq<Device>>

  function AllDevices(resp: seq<Pod>): seq<Device> {
    if resp == [] then [] else AllDevices(resp[..|resp| - 1]) + Flatten(resp[|resp| - 1])
  }

  /** The devices before container k of pod p. */
  function BeforeContainer(resp: seq<Pod>, p: nat, k: nat): seq<Device>
    requires p < |resp| && k <= |resp[p]|
  {
    AllDevices(resp[..p]) + Flatten(resp[p][..k])
  }

  /** The devices before device d of container k of pod p. */
  function BeforeDevice(resp: seq<Pod>, p: nat, k: nat, d: nat): seq<Device>
    requires p < |resp| && k < |resp[p]| && d <= |resp[p][k]|
  {
    BeforeContainer(resp, p, k) + resp[p][k][..d]
  }

  /** The ids of one resource, in the order of the response. */
  function IdsInOrder(devices: seq<Device>, name: string): seq<Id> {
    if devices == [] then []
    else
      var last := devices[|devices| - 1];
      IdsInOrder(devices[..|devices| - 1], name) + (if last.resource == name then last.ids else [])
  }

  lemma NoDevices(resp: seq<Pod>, name: string)
    ensures AllDevices(resp[..0]) == [] && SetOf(IdsInOrder([], name)) == {}
  {
  }

  lemma FirstContainer(resp: seq<Pod>, p: nat)
    requires p < |resp|
    ensures BeforeContainer(resp, p, 0) == AllDevices(resp[..p])
  {
    assert resp[p][..0] == [];
  }

  lemma LastContainer(resp: seq<Pod>, p: nat)
    requires p < |resp|
    ensures BeforeContainer(resp, p, |resp[p]|) == AllDevices(resp[..p + 1])
  {
    assert resp[p][..|resp[p]|] == resp[p];
    assert resp[..p + 1][..p] == resp[..p];
  }

  lemma FirstDevice(resp: seq<Pod>, p: nat, k: nat)
    requires p < |resp| && k < |resp[p]|
    ensures BeforeDevice(resp, p, k, 0) == BeforeContainer(resp, p, k)
  {
  }

  lemma NextDevice(resp: seq<Pod>, p: nat, k: nat, d: nat)
    requires p < |resp| && k < |resp[p]| && d < |resp[p][k]|
    ensures BeforeDevice(resp, p, k, d + 1) == BeforeDevice(resp, p, k, d) + [resp[p][k][d]]
  {
  }

  lemma LastDevice(resp: seq<Pod>, p: nat, k: nat)
    requires p < |resp| && k < |resp[p]|
    ensures BeforeDevice(resp, p, k, |resp[p][k]|) == BeforeContainer(resp, p, k + 1)
  {
    assert resp[p][k][..|resp[p][k]|] == resp[p][k];
    assert resp[p][..k + 1][..k] == resp[p][..k];
  }

  lemma IdsSnoc(devices: seq<Device>, device: Device, name: string)
    ensures IdsInOrder(devices + [device], name) ==
            IdsInOrder(devices, name) + (if device.resource == name then device.ids else [])
    ensures SetOf(IdsInOrder(devices + [device], name)) ==
            SetOf(IdsInOrder(devices, name)) + (if device.resource == name then SetOf(device.ids) else {})
  {
    assert (devices + [device])[..|devices|] == devices;
  }

  // ---------- the token pool and the server ----------

  class TokenPool {
    var free: set<Id>
    var held: set<Id>

    ghost predicate Valid()
      reads this
    {
      free !! held
    }

    constructor (ids: set<Id>)
      ensures Valid() && free == ids && held == {}
    {
      free, held := ids, {};
    }

    method Allocate(id: Id) returns (ok: bool)
      requires Valid()
      modifies this
      ensures Valid() && (ok <==> id in old(free))
      ensures held == if ok then old(held) + {id} else old(held)
      ensures free == if ok then old(free) - {id} else old(free)
    {
      ok := id in free;
      if ok {
        free, held := free - {id}, held + {id};
      }
    }

    method Free(id: Id) returns (ok: bool)
      requires Valid()
      modifies this
      ensures Valid() && (ok <==> id in old(held))
      ensures held == old(held) - {id}
      ensures free == if ok then old(free) + {id} else old(free)
    {
      ok := id in held;
      if ok {
        free, held := free + {id}, held - {id};
      }
    }
  }

  class DevicePluginServer {
    const name: string
    const tokenPool: TokenPool
    var allocatedTokens: Tracked
    var updateCh: bool    // the one-slot channel holds a token

    ghost predicate Valid()
      reads this, tokenPool
    {
      tokenPool.Valid() && allocatedTokens.Keys <= tokenPool.held
    }

    constructor (name: string, tokenPool: TokenPool)
      requires tokenPool.Valid()
      ensures this.name == name && this.tokenPool == tokenPool && Valid() && allocatedTokens == map[] && !updateCh
    {
      this.name, this.tokenPool, allocatedTokens, updateCh := name, tokenPool, map[], false;
    }

    method Update()
      modifies this`updateCh
      ensures updateCh
    {
      if !updateCh {
        updateCh := true;
      }
    }

    /** One poll, for whatever order the map is iterated in. */
    method UpdateDevices(allocatedIDs: set<Id>)
      requires Valid()
      modifies this`allocatedTokens, tokenPool
      ensures Valid()
      ensures allocatedTokens == Aged(old(allocatedTokens), allocatedIDs)
      ensures tokenPool.held == old(tokenPool.held) - Released(old(allocatedTokens), allocatedIDs)
      ensures tokenPool.free == old(tokenPool.free) + Released(old(allocatedTokens), allocatedIDs)
    {
      ghost var was := allocatedTokens;
      var todo := allocatedTokens.Keys;
      ghost var done: set<Id> := {};
      while todo != {}
        invariant tokenPool.Valid() && done + todo == was.Keys && done !! todo
        invariant forall id :: id in todo ==> id in allocatedTokens && allocatedTokens[id] == was[id]
        invariant forall id :: id in done ==> (id in allocatedTokens <==> id in Aged(was, allocatedIDs))
        invariant forall id :: id in done && id in allocatedTokens ==>
                    allocatedTokens[id] == Aged(was, allocatedIDs)[id]
        invariant allocatedTokens.Keys <= was.Keys
        invariant tokenPool.held == old(tokenPool.held) - done * Released(was, allocatedIDs)
        invariant tokenPool.free == old(tokenPool.free) + done * Released(was, allocatedIDs)
      {
        var id :| id in todo;
        var wasFresh := allocatedTokens[id];
        if id in allocatedIDs {
          allocatedTokens := allocatedTokens[id := true];
        } else if wasFresh {
          allocatedTokens := allocatedTokens[id := false];
        } else {
          var _ := tokenPool.Free(id);
          allocatedTokens := allocatedTokens - {id};
        }
        todo, done := todo - {id}, done + {id};
      }
      assert done == was.Keys;
      assert done * Released(was, allocatedIDs) == Released(was, allocatedIDs);
    }

    /** One batch: all of it or none of it. */
    method UseDevices(ids: seq<Id>) returns (ok: bool)
      requires Valid()
      modifies this`allocatedTokens, tokenPool
      ensures Valid()
      ensures ok <==> BatchOk(old(tokenPool.free), ids)
      ensures allocatedTokens == TrackedAfter(old(allocatedTokens), old(tokenPool.free), ids)
      ensures tokenPool.held == HeldAfter(old(tokenPool.held), old(tokenPool.free), ids)
      ensures tokenPool.free == FreeAfter(old(tokenPool.held), old(tokenPool.free), ids)
    {
      ghost var free, held, was := tokenPool.free, tokenPool.held, allocatedTokens;
      ProgressStarts(free, held, was, ids);
      ok := true;
      var i := 0;
      hide Progress;
      while i < |ids| && ok
        invariant 0 <= i <= |ids| && tokenPool.Valid()
        invariant Progress(free, held, was, ids, i, tokenPool.free, tokenPool.held, allocatedTokens)
        invariant ok || (i < |ids| && !BatchOk(free, ids))
        decreases |ids| - i, ok
      {
        ProgressStep(free, held, was, ids, i, tokenPool.free, tokenPool.held, allocatedTokens);
        ok := tokenPool.Allocate(ids[i]);
        if ok {
          allocatedTokens := allocatedTokens[ids[i] := true];
          i := i + 1;
        }
      }
      ProgressEnds(free, held, was, ids, i, tokenPool.free, tokenPool.held, allocatedTokens);
      if !ok {
        Rollback(ids, SetOf(ids[..i]), held, free, was);
      }
    }

    /** The second loop of useDevices: it frees and forgets every requested id. */
    method Rollback(ids: seq<Id>, ghost reached: set<Id>, ghost held: set<Id>, ghost free: set<Id>, ghost was: Tracked)
      requires tokenPool.Valid() && free !! held && reached <= SetOf(ids) * free
      requires tokenPool.held == held + reached && tokenPool.free == free - reached
      requires allocatedTokens.Keys == was.Keys + reached
      requires forall id :: id in was && id !in reached ==> allocatedTokens[id] == was[id]
      modifies this`allocatedTokens, tokenPool
      ensures tokenPool.Valid() && allocatedTokens == was - SetOf(ids)
      ensures tokenPool.held == held - SetOf(ids) && tokenPool.free == free + held * SetOf(ids)
    {
      for i := 0 to |ids|
        invariant tokenPool.Valid()
        invariant tokenPool.held == held + reached - SetOf(ids[..i])
        invariant tokenPool.free == free - reached + (held + reached) * SetOf(ids[..i])
        invariant allocatedTokens.Keys == was.Keys + reached - SetOf(ids[..i])
        invariant forall id :: id in was && id !in reached && id !in SetOf(ids[..i]) ==> allocatedTokens[id] == was[id]
      {
        assert SetOf(ids[..i + 1]) == SetOf(ids[..i]) + {ids[i]};
        var _ := tokenPool.Free(ids[i]);
        allocatedTokens := allocatedTokens - {ids[i]};
      }
      assert ids[..|ids|] == ids;
    }

    /** Allocate: the ids of all containers in one batch, then a wake-up, whether it failed or not. */
    method Allocate(containers: seq<seq<Id>>) returns (ok: bool)
      requires Valid()
      modifies this`allocatedTokens, this`updateCh, tokenPool
      ensures Valid() && updateCh
      ensures ok <==> BatchOk(old(tokenPool.free), Flatten(containers))
      ensures allocatedTokens == TrackedAfter(old(allocatedTokens), old(tokenPool.free), Flatten(containers))
      ensures tokenPool.held == HeldAfter(old(tokenPool.held), old(tokenPool.free), Flatten(containers))
    {
      var ids := [];
      for i := 0 to |containers|
        invariant ids == Flatten(containers[..i])
      {
        assert containers[..i + 1][..i] == containers[..i];
        ids := ids + containers[i];
      }
      assert containers[..|containers|] == containers;
      ok := UseDevices(ids);
      Update();
    }

    /** The ids of this server's resource in a response. */
    method RespToDeviceIDs(resp: seq<Pod>) returns (deviceIDs: set<Id>)
      ensures deviceIDs == SetOf(IdsInOrder(AllDevices(resp), name))
    {
      deviceIDs := {};
      hide Flatten, AllDevices, IdsInOrder, SetOf;
      NoDevices(resp, name);
      for p := 0 to |resp|
        invariant deviceIDs == SetOf(IdsInOrder(AllDevices(resp[..p]), name))
      {
        FirstContainer(resp, p);
        for k := 0 to |resp[p]|
          invariant deviceIDs == SetOf(IdsInOrder(BeforeContainer(resp, p, k), name))
        {
          FirstDevice(resp, p, k);
          for d := 0 to |resp[p][k]|
            invariant deviceIDs == SetOf(IdsInOrder(BeforeDevice(resp, p, k, d), name))
          {
            var device := resp[p][k][d];
            NextDevice(resp, p, k, d);
            IdsSnoc(BeforeDevice(resp, p, k, d), device, name);
            if device.resource == name {
              deviceIDs := deviceIDs + SetOf(device.ids);
            }
          }
          LastDevice(resp, p, k);
        }
        LastContainer(resp, p);
      }
      assert resp[..|resp|] == resp;
    }
  }

  // ---------- the start-up map ----------

  /** The start-up map holds exactly the resources of the devices, each with its ids in order. */
  ghost predicate IsStartUpMap(m: map<string, seq<Id>>, devices: seq<Device>) {
    && (forall name :: name in m <==> exists d :: d in devices && d.resource == name)
    && (forall name :: name in m ==> m[name] == IdsInOrder(devices, name))
  }

  lemma {:induction false} NoneInOrder(devices: seq<Device>, name: string)
    requires forall d :: d in devices ==> d.resource != name
    ensures IdsInOrder(devices, name) == []
  {
    if devices == [] {
    } else {
      NoneInOrder(devices[..|devices| - 1], name);
    }
  }

  lemma StartUpSnoc(m: map<string, seq<Id>>, devices: seq<Device>, device: Device)
    requires IsStartUpMap(m, devices)
    ensures var ids := if device.resource in m then m[device.resource] else [];
            IsStartUpMap(m[device.resource := ids + device.ids], devices + [device])
  {
    var ids := if device.resource in m then m[device.resource] else [];
    var m' := m[device.resource := ids + device.ids];
    if device.resource !in m {
      NoneInOrder(devices, device.resource);
    }
    forall name ensures name in m' <==> exists d :: d in devices + [device] && d.resource == name {
      if name in m {
        var d :| d in devices && d.resource == name;
        assert d in devices + [device];
      }
      assert device in devices + [device];
    }
    forall name | name in m' ensures m'[name] == IdsInOrder(devices + [device], name) {
      IdsSnoc(devices, device, name);
    }
  }

  /** The map of all resources, as it is built at start-up. */
  method RespToDeviceMap(resp: seq<Pod>) returns (deviceIDs: map<string, seq<Id>>)
    ensures IsStartUpMap(deviceIDs, AllDevices(resp))
  {
    deviceIDs := map[];
    for p := 0 to |resp|
      invariant IsStartUpMap(deviceIDs, AllDevices(resp[..p]))
    {
      FirstContainer(resp, p);
      for k := 0 to |resp[p]|
        invariant IsStartUpMap(deviceIDs, BeforeContainer(resp, p, k))
      {
        FirstDevice(resp, p, k);
        for d := 0 to |resp[p][k]|
          invariant IsStartUpMap(deviceIDs, BeforeDevice(resp, p, k, d))
        {
          var device := resp[p][k][d];
          NextDevice(resp, p, k, d);
          StartUpSnoc(deviceIDs, BeforeDevice(resp, p, k, d), device);
          var ids := if device.resource in deviceIDs then deviceIDs[device.resource] else [];
          deviceIDs := deviceIDs[device.resource := ids + device.ids];
        }
        LastDevice(resp, p, k);
      }
      LastContainer(resp, p);
    }
    assert resp[..|resp|] == resp;
  }

  /** The two flattenings of one response agree on every resource. */
  lemma FlatteningsAgree(resp: seq<Pod>, m: map<string, seq<Id>>, name: string)
    requires IsStartUpMap(m, AllDevices(resp))
    ensures SetOf(IdsInOrder(AllDevices(resp), name)) == if name in m then SetOf(m[name]) else {}
  {
    if name !in m {
      NoneInOrder(AllDevices(resp), name);
    }
  }

  function CountIds(devices: seq<Device>): nat {
    if devices == [] then 0 else CountIds(devices[..|devices| - 1]) + |devices[|devices| - 1].ids|
  }

  /** The lengths of all lists of a map, added up. */
  ghost function CountAll(m: map<string, seq<Id>>): nat {
    if m == map[] then 0
    else
      var name :| name in m;
      |m[name]| + CountAll(m - {name})
  }

  /** The order in which they are added up does not matter. */
  lemma {:induction false} CountAny(m: map<string, seq<Id>>, name: string)
    requires name in m
    ensures CountAll(m) == |m[name]| + CountAll(m - {name})
    decreases |m|
  {
    var first :| first in m && CountAll(m) == |m[first]| + CountAll(m - {first});
    if first != name {
      CountAny(m - {first}, name);
      CountAny(m - {name}, first);
      assert m - {first} - {name} == m - {name} - {first};
    }
  }

  lemma CountGrows(m: map<string, seq<Id>>, name: string, ids: seq<Id>)
    ensures var was := if name in m then m[name] else [];
            CountAll(m[name := was + ids]) == CountAll(m) + |ids|
  {
    var was := if name in m then m[name] else [];
    var m' := m[name := was + ids];
    CountAny(m', name);
    assert m' - {name} == m - {name};
    if name in m {
      CountAny(m, name);
    } else {
      assert m - {name} == m;
    }
  }

  /** There is one start-up map for each response. */
  lemma StartUpUnique(m: map<string, seq<Id>>, m': map<string, seq<Id>>, devices: seq<Device>)
    requires IsStartUpMap(m, devices) && IsStartUpMap(m', devices)
    ensures m == m'
  {
    hide IdsInOrder;
    assert forall name :: name in m <==> name in m';
  }

  lemma {:induction false} SomeStartUpMap(devices: seq<Device>) returns (m: map<string, seq<Id>>)
    ensures IsStartUpMap(m, devices) && CountAll(m) == CountIds(devices)
  {
    if devices == [] {
      m := map[];
    } else {
      var init, last := devices[..|devices| - 1], devices[|devices| - 1];
      var before := SomeStartUpMap(init);
      assert devices == init + [last];
      hide CountAll, IsStartUpMap;
      StartUpSnoc(before, init, last);
      CountGrows(before, last.resource, last.ids);
      m := before[last.resource := (if last.resource in before then before[last.resource] else []) + last.ids];
    }
  }

  /** No id is lost or counted twice: the lists of the start-up map together are as long as the response. */
  lemma CountIsConserved(resp: seq<Pod>, m: map<string, seq<Id>>)
    requires IsStartUpMap(m, AllDevices(resp))
    ensures CountAll(m) == CountIds(AllDevices(resp))
  {
    var m' := SomeStartUpMap(AllDevices(resp));
    StartUpUnique(m, m', AllDevices(resp));
  }

  // ---------- the grace period ----------

  /** What happens to a server's tokens: a batch, successful or not, or a poll. */
  datatype TokenOp = Batch(ids: seq<Id>, ok: bool) | Poll(seen: set<Id>)

  function Track(ops: seq<TokenOp>): Tracked {
    if ops == [] then map[]
    else
      var before := Track(ops[..|ops| - 1]);
      match ops[|ops| - 1]
      case Batch(ids, ok) => if ok then before + AllFresh(ids) else before - SetOf(ids)
      case Poll(seen) => Aged(before, seen)
  }

  /** How many polls have missed the token since it was last allocated or seen. */
  function Misses(ops: seq<TokenOp>, id: Id): nat {
    if ops == [] then 0
    else
      var before := Misses(ops[..|ops| - 1], id);
      match ops[|ops| - 1]
      case Batch(ids, ok) => if ok && id in ids then 0 else before
      case Poll(seen) => if id in seen then 0 else before + 1
  }

  /**
   The flag is a miss counter.  Over any sequence of batches and polls a tracked token
   is fresh if no poll has missed it and stale if exactly one has.
   */
  lemma {:induction false} FlagCountsMisses(ops: seq<TokenOp>, id: Id)
    requires id in Track(ops)
    ensures Misses(ops, id) <= 1 && (Track(ops)[id] <==> Misses(ops, id) == 0)
  {
    var before, op := ops[..|ops| - 1], ops[|ops| - 1];
    if id in Track(before) {
      FlagCountsMisses(before, id);
    }
  }

  /** A poll frees a tracked token exactly at its second consecutive miss, and drops no other. */
  lemma {:induction false} FreedAtSecondMiss(ops: seq<TokenOp>, seen: set<Id>, id: Id)
    requires id in Track(ops)
    ensures id in Released(Track(ops), seen) <==> Misses(ops + [Poll(seen)], id) == 2
    ensures id in Released(Track(ops), seen) <==> id !in Track(ops + [Poll(seen)])
  {
    assert (ops + [Poll(seen)])[..|ops|] == ops;
    FlagCountsMisses(ops, id);
  }
}
