/**
 * What callers can prove from the extension methods' contracts alone: each method here
 * issues a few extension calls on a fresh cache and returns what was requested.
 */
module ExtensionProperties {
  import opened Wrappers
  import opened Messages
  import opened Entities
  import opened Payloads
  import opened DistributedCacheLog
  import opened DistributedCacheExtensions

  /** Refreshing, then removing, one data type: the two requests differ only in the removed flag. */
  method RefreshThenRemoveDataType(dataType: DataTypeDefinition) returns (sent: seq<Message>)
    ensures |sent| == 2
    ensures sent[0].refresher == DataTypeCache && sent[0].op == RefreshByPayload
    ensures sent[0].body == PayloadBatch([DataTypePayload(dataType.id, dataType.key, false)])
    ensures sent[1] == sent[0].(body := PayloadBatch([sent[0].body.payloads[0].(removed := true)]))
  {
    var dc := new DistributedCache();
    RefreshDataTypeCache(dc, Some(dataType));
    RemoveDataTypeCache(dc, Some(dataType));
    sent := dc.log;
    DataTypePayloadsDifferOnlyInRemoved(dataType);
  }

  /** Refreshing and removing a macro request the same thing, for either macro type. */
  method RefreshAndRemoveMacroAgree(macro: Macro, serialize: Macro -> Json, legacy: LegacyMacro, serializeLegacy: LegacyMacro -> Json)
    returns (refreshed: seq<Message>, removed: seq<Message>)
    ensures |refreshed| == 2 && refreshed == removed
    ensures refreshed[0] == Message(MacroCache, RefreshByJson, JsonBody(serialize(macro)))
    ensures refreshed[1] == Message(MacroCache, RefreshByJson, JsonBody(serializeLegacy(legacy)))
  {
    var a := new DistributedCache();
    RefreshMacroCache(a, Some(macro), serialize);
    RefreshLegacyMacroCache(a, Some(legacy), serializeLegacy);
    var b := new DistributedCache();
    RemoveMacroCache(b, Some(macro), serialize);
    RemoveLegacyMacroCache(b, Some(legacy), serializeLegacy);
    refreshed, removed := a.log, b.log;
  }

  /** The three content-type overloads address one refresher and differ only in the type name. */
  method ContentTypeOverloadsAgree(changes: seq<ContentTypeChange>)
    returns (contentTypes: seq<Message>, mediaTypes: seq<Message>, memberTypes: seq<Message>)
    ensures |contentTypes| == |mediaTypes| == |memberTypes| == if changes == [] then 0 else 1
    ensures changes != [] ==>
      && contentTypes[0].refresher == mediaTypes[0].refresher == memberTypes[0].refresher == ContentTypeCache
      && contentTypes[0].op == mediaTypes[0].op == memberTypes[0].op == RefreshByPayload
      && contentTypes[0].body == PayloadBatch(ContentTypePayloads(IContentTypeName, changes))
      && mediaTypes[0].body == PayloadBatch(Retag(contentTypes[0].body.payloads, IMediaTypeName))
      && memberTypes[0].body == PayloadBatch(Retag(contentTypes[0].body.payloads, IMemberTypeName))
  {
    var a := new DistributedCache();
    RefreshContentTypeCache(a, changes);
    var b := new DistributedCache();
    RefreshMediaTypeCache(b, changes);
    var c := new DistributedCache();
    RefreshMemberTypeCache(c, changes);
    contentTypes, mediaTypes, memberTypes := a.log, b.log, c.log;
    ContentTypePayloadsDifferOnlyInItemType(IContentTypeName, IMediaTypeName, changes);
    ContentTypePayloadsDifferOnlyInItemType(IContentTypeName, IMemberTypeName, changes);
  }

  /** Every request the extension methods make is well formed, so no empty batch ever reaches the cache. */
  method RequestsAreWellFormed(changes: seq<TreeChange>, typeChanges: seq<ContentTypeChange>, members: seq<EntityRef>)
    returns (sent: seq<Message>)
    ensures LogWellFormed(sent)
    ensures |sent| == 4 + (if changes == [] then 0 else 2) + (if typeChanges == [] then 0 else 1)
  {
    var dc := new DistributedCache();
    RefreshContentCache(dc, changes);
    AppendsPreserveLogWellFormed([], dc.log);
    ghost var before := dc.log;
    RefreshMediaCache(dc, changes);
    AppendsPreserveLogWellFormed(before, dc.log);
    before := dc.log;
    RefreshContentTypeCache(dc, typeChanges);
    AppendsPreserveLogWellFormed(before, dc.log);
    before := dc.log;
    RefreshMemberCache(dc, members);
    AppendsPreserveLogWellFormed(before, dc.log);
    before := dc.log;
    RefreshAllFacade(dc);
    AppendsPreserveLogWellFormed(before, dc.log);
    sent := dc.log;
  }
}
