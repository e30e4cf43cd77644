/**
 The service registry's calls, against an API server that other replicas use at the
 same time.  Unlike the endpoint registry's they carry no version, and a failed delete
 is reported.
 */
module NsRegistry {
  import opened Wrappers
  import opened ApiStore
  import opened ApiTraffic

  class EtcdNSRegistryServer {
    const client: ApiServer
    const ns: string

    constructor (client: ApiServer, ns: string)
      ensures this.client == client && this.ns == ns
    {
      this.client, this.ns := client, ns;
    }

    /**
     Register: it fails before the hand-on exactly if the name is taken and is generated, or
     gone at the Get, or written or deleted between Get and Update; then it has not written,
     otherwise it has written once.  An error of the next element comes after that.
     */
    method Register(
      request: Spec, generated: string, ghost op: OpId,
      beforeGet: seq<Call>, beforeUpdate: seq<Call>, nextOk: bool) returns (r: Outcome)
      requires client.Valid() && generated != ""
      requires NotBy(beforeGet, op) && NotBy(beforeUpdate, op)
      modifies client
      ensures client.Valid() && Grown(old(client.log), client.log)
      ensures var key := Key(ns, if request.name == "" then generated else request.name);
              && (r.CallFailed? <==> !Writable(old(client.log), key, request.name, beforeGet, beforeUpdate))
              && (r.CallFailed? ==> WritesOf(old(client.log), client.log, op) == {})
              && (!r.CallFailed? ==>
                    && (r.Done? <==> nextOk)
                    && WroteOnce(old(client.log), Served(old(client.log), beforeGet), client.log, key, request, op))
    {
      var key := Key(ns, if request.name == "" then generated else request.name);
      ghost var before := client.log;
      NothingWritten(before, op);
      RegisterReplies(before, key, request, beforeGet, beforeUpdate, op);
      hide *;
      var reply := client.CreateObject(key, request, Some(op));
      if reply.AlreadyExists? {
        ServedGrows(before, beforeGet, op);
        ServeAll(client, beforeGet);
        ghost var readLog := client.log;
        var netsvc := client.GetObject(Key(ns, request.name));
        if !netsvc.Ok? {
          return CallFailed;
        }
        ServedGrows(readLog, beforeUpdate, op);
        ServeAll(client, beforeUpdate);
        ghost var log := client.log;
        NoWrites(before, readLog, log, op);
        UpdateReply(log, key, netsvc.obj.version, request, op);
        reply := client.UpdateObject(key, netsvc.obj.version, request, Some(op));
        if reply.Ok? {
          UpdatedOnce(before, readLog, log, key, request, op, netsvc.obj.version);
          OwnWrite(before, log, key, request, op, Some(netsvc.obj.version));
        }
      } else {
        CreatedOnce(before, Served(before, beforeGet), key, request, op);
        OwnWrite(before, before, key, request, op, None);
      }
      if !reply.Ok? {
        return CallFailed;
      }
      return if nextOk then Done else NextFailed;
    }

    /** Unregister: reported as done exactly if the service was stored and is deleted now, whatever its version. */
    method Unregister(name: string, nextOk: bool) returns (r: Outcome)
      requires client.Valid()
      modifies client
      ensures client.Valid()
      ensures r.Done? <==> nextOk && name != "" && Lookup(old(client.log), Key(ns, name)).Some?
      ensures r.Done? ==> Lookup(client.log, Key(ns, name)).None? && |client.log| == |old(client.log)| + 1
      ensures r.NextFailed? <==> !nextOk
      ensures !r.Done? ==> client.log == old(client.log)
      ensures forall key :: key != Key(ns, name) ==> Lookup(client.log, key) == Lookup(old(client.log), key)
    {
      if !nextOk {
        return NextFailed;
      }
      ghost var log := client.log;
      var reply := client.DeleteObject(Key(ns, name), None, ApiStore.Unregister(None));
      if reply.Ok? {
        forall key ensures Lookup(client.log, key) == if key != Key(ns, name) then Lookup(log, key) else None {
          LookupSnoc(log, client.log[|log|], key);
        }
      }
      return if reply.Ok? then Done else CallFailed;
    }
  }
}
