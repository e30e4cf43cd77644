/**
 Calls that other clients of the API server make between two calls of ours, and what
 can be said about our own calls in spite of them.
 */
module ApiTraffic {
  import opened Wrappers
  import opened ApiStore

  /** A call that somebody else makes between two calls of ours. */
  datatype Call =
    | OtherCreate(key: Key, spec: Spec, writer: Option<OpId>)
    | OtherUpdate(key: Key, base: nat, spec: Spec, writer: Option<OpId>)
    | OtherDelete(key: Key, version: Option<nat>, cause: Cause)

  /** How a registry call ends: well, with an error of its own, or with an error of the next element. */
  datatype Outcome = Done | CallFailed | NextFailed

  function Serve(log: Log, call: Call): Log {
    match call
    case OtherCreate(key, spec, writer) => Create(log, key, spec, writer).0
    case OtherUpdate(key, base, spec, writer) => Update(log, key, base, spec, writer).0
    case OtherDelete(key, version, cause) => Delete(log, key, version, cause).0
  }

  /** The history after the calls, in order. */
  function Served(log: Log, calls: seq<Call>): Log {
    if calls == [] then log else Serve(Served(log, calls[..|calls| - 1]), calls[|calls| - 1])
  }

  /** None of the calls is made for op. */
  predicate NotBy(calls: seq<Call>, op: OpId) {
    forall k :: 0 <= k < |calls| && !calls[k].OtherDelete? ==> calls[k].writer != Some(op)
  }

  ghost predicate Grown(before: Log, after: Log) {
    |before| <= |after| && after[..|before|] == before
  }

  /** The versions that op wrote after the history `before`. */
  ghost function WritesOf(before: Log, after: Log, op: OpId): set<nat> {
    set i: nat | |before| <= i < |after| && after[i].Wrote? && after[i].writer == Some(op) :: i + 1
  }

  method ServeAll(client: ApiServer, calls: seq<Call>)
    requires client.Valid()
    modifies client
    ensures client.Valid() && client.log == Served(old(client.log), calls)
  {
    for k := 0 to |calls|
      invariant client.Valid() && client.log == Served(old(client.log), calls[..k])
    {
      assert calls[..k + 1][..k] == calls[..k];
      var reply;
      match calls[k] {
        case OtherCreate(key, spec, writer) => reply := client.CreateObject(key, spec, writer);
        case OtherUpdate(key, base, spec, writer) => reply := client.UpdateObject(key, base, spec, writer);
        case OtherDelete(key, version, cause) => reply := client.DeleteObject(key, version, cause);
      }
    }
    assert calls[..|calls|] == calls;
  }

  lemma NothingWritten(log: Log, op: OpId)
    ensures Grown(log, log) && WritesOf(log, log, op) == {}
  {
  }

  /** One write of op after a stretch in which it wrote nothing. */
  lemma OwnWrite(before: Log, mid: Log, key: Key, spec: Spec, op: OpId, base: Option<nat>)
    requires Grown(before, mid) && WritesOf(before, mid, op) == {}
    ensures var after := mid + [Wrote(key, spec, Some(op), base)];
            Grown(before, after) && WritesOf(before, after, op) == {|after|}
  {
    var after := mid + [Wrote(key, spec, Some(op), base)];
    assert forall v :: v in WritesOf(before, after, op) ==> v in WritesOf(before, mid, op) || v == |after|;
    assert after[|mid|].writer == Some(op) && |mid| + 1 in WritesOf(before, after, op);
  }

  lemma NoWrites(before: Log, mid: Log, after: Log, op: OpId)
    requires Grown(before, mid) && Grown(mid, after)
    requires WritesOf(before, mid, op) == {} && WritesOf(mid, after, op) == {}
    ensures Grown(before, after) && WritesOf(before, after, op) == {}
  {
    assert forall i :: |before| <= i < |mid| ==> after[i] == after[..|mid|][i] == mid[i];
    assert forall v :: v in WritesOf(before, after, op) ==>
             v in WritesOf(before, mid, op) || v in WritesOf(mid, after, op);
  }

  lemma ServeGrows(log: Log, call: Call, op: OpId)
    requires NotBy([call], op)
    ensures Grown(log, Serve(log, call)) && WritesOf(log, Serve(log, call), op) == {}
  {
    assert [call][0].OtherDelete? || call.writer != Some(op);
  }

  /** The calls of others only append to the history, and write nothing for op. */
  lemma {:induction false} ServedGrows(log: Log, calls: seq<Call>, op: OpId)
    requires NotBy(calls, op)
    ensures Grown(log, Served(log, calls)) && WritesOf(log, Served(log, calls), op) == {}
  {
    if calls == [] {
      NothingWritten(log, op);
    } else {
      var init, call := calls[..|calls| - 1], calls[|calls| - 1];
      ServedGrows(log, init, op);
      ServeGrows(Served(log, init), call, op);
      NoWrites(log, Served(log, init), Served(log, calls), op);
    }
  }

  /**
   The version under key in `readLog` is `base`, and nothing was written or deleted under
   key from then to entry i.
   */
  ghost predicate Unchanged(readLog: Log, log: Log, i: nat, key: Key, base: nat)
    requires i <= |log|
  {
    && |readLog| <= i && log[..|readLog|] == readLog
    && Lookup(readLog, key).Some? && Lookup(readLog, key).value.version == base
    && forall j :: |readLog| <= j < i ==> log[j].key != key
  }

  /** The same version is stored at entry i exactly if nothing touched the key in between. */
  lemma StoredSinceIff(readLog: Log, log: Log, i: nat, key: Key, base: nat)
    requires i <= |log| && |readLog| <= i && log[..|readLog|] == readLog
    requires Lookup(readLog, key).Some? && Lookup(readLog, key).value.version == base
    ensures (Lookup(log[..i], key).Some? && Lookup(log[..i], key).value.version == base) <==>
              Unchanged(readLog, log, i, key, base)
  {
    if Lookup(log[..i], key).Some? && Lookup(log[..i], key).value.version == base {
      forall j | |readLog| <= j < i ensures log[j].key != key {
        assert log[..i][j] == log[j];
      }
    }
  }

  /** Create has found the name free, or Get and Update have found the same version under it. */
  ghost predicate Writable(log: Log, key: Key, request: string, beforeGet: seq<Call>, beforeUpdate: seq<Call>) {
    || Lookup(log, key).None?
    || (request != "" &&
        var readLog := Served(log, beforeGet);
        var updateLog := Served(readLog, beforeUpdate);
        && Lookup(readLog, key).Some? && Lookup(updateLog, key).Some?
        && Lookup(readLog, key).value.version == Lookup(updateLog, key).value.version)
  }

  /**
   The last entry of the history is the write of a request: it creates and nothing was
   stored, or it replaces the very version that was read, with nothing written or deleted
   under the key since the history `readLog` of that read.
   */
  ghost predicate WroteOnce(before: Log, readLog: Log, log: Log, key: Key, request: Spec, op: OpId) {
    && Grown(before, log) && |before| < |log| && WritesOf(before, log, op) == {|log|}
    && var last := log[|log| - 1];
       && last.Wrote? && last.key == key && last.spec == request && last.writer == Some(op)
       && match last.base
          case None => log == before + [last] && Lookup(before, key).None?
          case Some(base) => Unchanged(readLog, log, |log| - 1, key, base)
  }

  lemma CreatedOnce(log: Log, readLog: Log, key: Key, request: Spec, op: OpId)
    requires Lookup(log, key).None?
    ensures WroteOnce(log, readLog, log + [Wrote(key, request, Some(op), None)], key, request, op)
  {
    NothingWritten(log, op);
    OwnWrite(log, log, key, request, op, None);
  }

  lemma UpdatedOnce(before: Log, readLog: Log, log: Log, key: Key, request: Spec, op: OpId, base: nat)
    requires Grown(before, readLog) && WritesOf(before, readLog, op) == {}
    requires Grown(readLog, log) && WritesOf(readLog, log, op) == {}
    requires Lookup(readLog, key).Some? && Lookup(readLog, key).value.version == base
    requires Lookup(log, key).Some? && Lookup(log, key).value.version == base
    ensures WroteOnce(before, readLog, log + [Wrote(key, request, Some(op), Some(base))], key, request, op)
  {
    NoWrites(before, readLog, log, op);
    OwnWrite(before, log, key, request, op, Some(base));
    var after := log + [Wrote(key, request, Some(op), Some(base))];
    assert after[..|log|] == log && after[..|readLog|] == log[..|readLog|];
    StoredSinceIff(readLog, after, |log|, key, base);
  }

  /** What the calls of a Register are told. */
  lemma RegisterReplies(log: Log, key: Key, request: Spec, beforeGet: seq<Call>, beforeUpdate: seq<Call>, op: OpId)
    requires key.name != "" && (request.name != "" ==> key.name == request.name)
    ensures var (after, reply) := Create(log, key, request, Some(op));
            if reply.AlreadyExists? then after == log && Lookup(log, key).Some?
            else
              && reply == Ok(Obj(|after|, request)) && after == log + [Wrote(key, request, Some(op), None)]
              && Lookup(log, key).None? && Writable(log, key, request.name, beforeGet, beforeUpdate)
    ensures var readLog := Served(log, beforeGet);
            var updateLog := Served(readLog, beforeUpdate);
            var read := Get(readLog, Key(key.ns, request.name));
            && (read.Ok? ==> request.name != "" && Lookup(readLog, key) == Some(read.obj))
            && (Lookup(log, key).Some? ==>
                  (Writable(log, key, request.name, beforeGet, beforeUpdate) <==>
                     read.Ok? && Update(updateLog, key, read.obj.version, request, Some(op)).1.Ok?))
  {
  }

  lemma UpdateReply(log: Log, key: Key, base: nat, request: Spec, op: OpId)
    ensures var (after, reply) := Update(log, key, base, request, Some(op));
            if reply.Ok? then
              && reply == Ok(Obj(|after|, request)) && after == log + [Wrote(key, request, Some(op), Some(base))]
              && Lookup(log, key).Some? && Lookup(log, key).value.version == base
            else after == log
  {
  }
}
