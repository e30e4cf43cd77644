/**
 The Kubernetes API server as the registries use it: named objects with a resource
 version, create, get, update and delete with optional preconditions.

 The history of the server is a log of writes and deletes.  Versions come from one
 counter, so the entry at index i of the log has version i + 1.  The object under a
 key is determined by the last entry on that key.
 */
module ApiStore {
  import opened Wrappers

  datatype Key = Key(ns: string, name: string)

  /** A registered endpoint; `expiry` is its expiration time, if it has one. */
  datatype Spec = Spec(name: string, expiry: Option<int>, payload: nat)

  datatype Obj = Obj(version: nat, spec: Spec)

  type OpId = nat

  type ReplicaId = nat

  /** Why an object was deleted: by a clean-up task, by Unregister, or from outside. */
  datatype Cause =
    | Expiry(rid: ReplicaId, version: nat, at: int)
    | Unregister(carried: Option<nat>)
    | Outside

  /** `writer` is the Register call that wrote; `base` is the version that an update replaced. */
  datatype Entry =
    | Wrote(key: Key, spec: Spec, writer: Option<OpId>, base: Option<nat>)
    | Erased(key: Key, victim: nat, cause: Cause)

  type Log = seq<Entry>

  datatype Reply = Ok(obj: Obj) | AlreadyExists | NotFound | Conflict | Invalid

  /** An endpoint is expired strictly after its expiration time. */
  predicate Expired(spec: Spec, now: int) {
    spec.expiry.Some? && spec.expiry.value < now
  }

  /** The endpoint name that a reader sees: the object's name if the spec has none. */
  function DefaultName(spec: Spec, objectName: string): string {
    if spec.name == "" then objectName else spec.name
  }

  // ---------- the last entry on a key ----------

  /** The version of the last entry on key, 0 if there is none. */
  function LastOn(log: Log, key: Key): (v: nat)
    ensures v <= |log|
    ensures v > 0 ==> log[v - 1].key == key
    ensures forall j :: v <= j < |log| ==> log[j].key != key
  {
    if log == [] then 0
    else if log[|log| - 1].key == key then |log|
    else LastOn(log[..|log| - 1], key)
  }

  function Lookup(log: Log, key: Key): Option<Obj> {
    var v := LastOn(log, key);
    if v > 0 && log[v - 1].Wrote? then Some(Obj(v, log[v - 1].spec)) else None
  }

  lemma LookupSnoc(log: Log, e: Entry, key: Key)
    ensures Lookup(log + [e], key) ==
            if e.key != key then Lookup(log, key)
            else if e.Wrote? then Some(Obj(|log| + 1, e.spec)) else None
  {
    assert (log + [e])[..|log|] == log;
  }

  /** The entry at index v - 1 wrote what is stored under key, and nothing touched the key since. */
  ghost predicate IsCurrent(log: Log, n: nat, key: Key, v: nat) {
    && 1 <= v <= n <= |log| && log[v - 1].Wrote? && log[v - 1].key == key
    && forall j :: v <= j < n ==> log[j].key != key
  }

  lemma LookupMeans(log: Log, n: nat, key: Key)
    requires n <= |log|
    ensures Lookup(log[..n], key).Some? ==>
              (IsCurrent(log, n, key, Lookup(log[..n], key).value.version) &&
               log[Lookup(log[..n], key).value.version - 1].spec == Lookup(log[..n], key).value.spec)
    ensures forall v :: IsCurrent(log, n, key, v) ==> Lookup(log[..n], key) == Some(Obj(v, log[v - 1].spec))
  {
    forall v | IsCurrent(log, n, key, v) ensures Lookup(log[..n], key) == Some(Obj(v, log[v - 1].spec)) {
      var last := LastOn(log[..n], key);
      assert log[..n][v - 1].key == key;
      assert last >= v;
    }
  }

  // ---------- the API calls ----------

  function Create(log: Log, key: Key, spec: Spec, writer: Option<OpId>): (Log, Reply) {
    if key.name == "" then (log, Invalid)
    else if Lookup(log, key).Some? then (log, AlreadyExists)
    else (log + [Wrote(key, spec, writer, None)], Ok(Obj(|log| + 1, spec)))
  }

  function Get(log: Log, key: Key): Reply {
    if key.name == "" then Invalid
    else match Lookup(log, key) case None => NotFound case Some(obj) => Ok(obj)
  }

  /** An update names the version it replaces and fails if that is not the stored one. */
  function Update(log: Log, key: Key, base: nat, spec: Spec, writer: Option<OpId>): (Log, Reply) {
    if key.name == "" then (log, Invalid)
    else match Lookup(log, key)
      case None => (log, NotFound)
      case Some(obj) =>
        if obj.version != base then (log, Conflict)
        else (log + [Wrote(key, spec, writer, Some(base))], Ok(Obj(|log| + 1, spec)))
  }

  /** A delete may carry a version; it then fails if that is not the stored one. */
  function Delete(log: Log, key: Key, version: Option<nat>, cause: Cause): (Log, Reply) {
    if key.name == "" then (log, Invalid)
    else match Lookup(log, key)
      case None => (log, NotFound)
      case Some(obj) =>
        if version.Some? && version.value != obj.version then (log, Conflict)
        else (log + [Erased(key, obj.version, cause)], Ok(obj))
  }

  // ---------- the server itself ----------

  /** The objects after a history, entry by entry. */
  function Replay(log: Log): map<Key, Obj> {
    if log == [] then map[]
    else
      var before, e := Replay(log[..|log| - 1]), log[|log| - 1];
      if e.Wrote? then before[e.key := Obj(|log|, e.spec)] else before - {e.key}
  }

  lemma ReplaySnoc(log: Log, e: Entry)
    ensures Replay(log + [e]) ==
            if e.Wrote? then Replay(log)[e.key := Obj(|log| + 1, e.spec)] else Replay(log) - {e.key}
  {
    assert (log + [e])[..|log|] == log;
  }

  /** The replayed store and the last entry agree on key. */
  predicate Agree(log: Log, key: Key) {
    if key in Replay(log) then Lookup(log, key) == Some(Replay(log)[key]) else Lookup(log, key) == None
  }

  /** Replaying the history stores under each key what its last entry wrote. */
  lemma {:induction false} ReplayIsLookup(log: Log, key: Key)
    ensures Agree(log, key)
  {
    if log == [] {
    } else {
      var init, e := log[..|log| - 1], log[|log| - 1];
      ReplayIsLookup(init, key);
      assert log == init + [e];
      ReplaySnoc(init, e);
      LookupSnoc(init, e, key);
    }
  }

  /** The store: objects and a version counter; the log is its history. */
  class ApiServer {
    var objects: map<Key, Obj>
    var revision: nat
    ghost var log: Log

    ghost predicate Valid()
      reads this
    {
      objects == Replay(log) && revision == |log|
    }

    constructor ()
      ensures Valid() && log == []
    {
      objects, revision, log := map[], 0, [];
    }

    method CreateObject(key: Key, spec: Spec, ghost writer: Option<OpId>) returns (reply: Reply)
      requires Valid()
      modifies this
      ensures Valid() && (log, reply) == Create(old(log), key, spec, writer)
    {
      ReplayIsLookup(log, key);
      if key.name == "" {
        return Invalid;
      }
      if key in objects {
        return AlreadyExists;
      }
      ReplaySnoc(log, Wrote(key, spec, writer, None));
      revision := revision + 1;
      objects := objects[key := Obj(revision, spec)];
      log := log + [Wrote(key, spec, writer, None)];
      return Ok(Obj(revision, spec));
    }

    method GetObject(key: Key) returns (reply: Reply)
      requires Valid()
      ensures reply == Get(log, key)
    {
      ReplayIsLookup(log, key);
      if key.name == "" {
        return Invalid;
      }
      return if key in objects then Ok(objects[key]) else NotFound;
    }

    method UpdateObject(key: Key, base: nat, spec: Spec, ghost writer: Option<OpId>) returns (reply: Reply)
      requires Valid()
      modifies this
      ensures Valid() && (log, reply) == Update(old(log), key, base, spec, writer)
    {
      ReplayIsLookup(log, key);
      if key.name == "" {
        return Invalid;
      }
      if key !in objects {
        return NotFound;
      }
      if objects[key].version != base {
        return Conflict;
      }
      ReplaySnoc(log, Wrote(key, spec, writer, Some(base)));
      revision := revision + 1;
      objects := objects[key := Obj(revision, spec)];
      log := log + [Wrote(key, spec, writer, Some(base))];
      return Ok(Obj(revision, spec));
    }

    method DeleteObject(key: Key, version: Option<nat>, ghost cause: Cause) returns (reply: Reply)
      requires Valid()
      modifies this
      ensures Valid() && (log, reply) == Delete(old(log), key, version, cause)
    {
      ReplayIsLookup(log, key);
      if key.name == "" {
        return Invalid;
      }
      if key !in objects {
        return NotFound;
      }
      var obj := objects[key];
      if version.Some? && version.value != obj.version {
        return Conflict;
      }
      ReplaySnoc(log, Erased(key, obj.version, cause));
      revision := revision + 1;
      objects := objects - {key};
      log := log + [Erased(key, obj.version, cause)];
      return Ok(obj);
    }
  }
}
