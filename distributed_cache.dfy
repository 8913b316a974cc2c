/**
 * DistributedCache seen from its callers: every request is recorded, in call order,
 * in an append-only log of the messages it is asked to broadcast.
 */
module DistributedCacheLog {
  import opened Messages

  /** `instances.Select(getId)`: the ids of the instances, one per instance, in order. */
  function SelectIds<T>(getId: T -> int, instances: seq<T>): (ids: seq<int>)
    ensures |ids| == |instances|
    ensures forall i :: 0 <= i < |instances| ==> ids[i] == getId(instances[i])
  {
    if instances == [] then [] else [getId(instances[0])] + SelectIds(getId, instances[1..])
  }

  class DistributedCache {
    /** The requested broadcasts, oldest first. */
    var log: seq<Message>

    constructor ()
      ensures log == []
    {
      log := [];
    }

    method Refresh(refresher: RefresherKind, id: int)
      modifies this
      ensures log == old(log) + [Message(refresher, Operation.Refresh, Id(id))]
    {
      log := log + [Message(refresher, Operation.Refresh, Id(id))];
    }

    method Remove(refresher: RefresherKind, id: int)
      modifies this
      ensures log == old(log) + [Message(refresher, Operation.Remove, Id(id))]
    {
      log := log + [Message(refresher, Operation.Remove, Id(id))];
    }

    /** `Refresh<T>(Guid, Func<T, int>, params T[])`: one request naming every instance's id. */
    method RefreshInstances<T>(refresher: RefresherKind, getId: T -> int, instances: seq<T>)
      modifies this
      ensures log == old(log) + [Message(refresher, Operation.Refresh, Ids(SelectIds(getId, instances)))]
    {
      log := log + [Message(refresher, Operation.Refresh, Ids(SelectIds(getId, instances)))];
    }

    /** `Remove<T>(Guid, Func<T, int>, params T[])`: one request naming every instance's id. */
    method RemoveInstances<T>(refresher: RefresherKind, getId: T -> int, instances: seq<T>)
      modifies this
      ensures log == old(log) + [Message(refresher, Operation.Remove, Ids(SelectIds(getId, instances)))]
    {
      log := log + [Message(refresher, Operation.Remove, Ids(SelectIds(getId, instances)))];
    }

    method RefreshAll(refresher: RefresherKind)
      modifies this
      ensures log == old(log) + [Message(refresher, Operation.RefreshAll, NoBody)]
    {
      log := log + [Message(refresher, Operation.RefreshAll, NoBody)];
    }

    method RefreshByPayload(refresher: RefresherKind, payloads: seq<Payload>)
      modifies this
      ensures log == old(log) + [Message(refresher, Operation.RefreshByPayload, PayloadBatch(payloads))]
    {
      log := log + [Message(refresher, Operation.RefreshByPayload, PayloadBatch(payloads))];
    }

    method RefreshByJson(refresher: RefresherKind, json: Json)
      modifies this
      ensures log == old(log) + [Message(refresher, Operation.RefreshByJson, JsonBody(json))]
    {
      log := log + [Message(refresher, Operation.RefreshByJson, JsonBody(json))];
    }
  }

  /** The local runtime cache of CacheHelper, recording which object types were cleared. */
  class RuntimeCache {
    var clearedObjectTypes: seq<string>

    constructor ()
      ensures clearedObjectTypes == []
    {
      clearedObjectTypes := [];
    }

    method ClearCacheObjectTypes(typeName: string)
      modifies this
      ensures clearedObjectTypes == old(clearedObjectTypes) + [typeName]
    {
      clearedObjectTypes := clearedObjectTypes + [typeName];
    }
  }
}
