/**
 * The extension methods of DistributedCache: each turns one domain request into nothing
 * (when a guard fires), one request to the cache, or, for RefreshAllFacade, three.
 */
module DistributedCacheExtensions {
  import opened Wrappers
  import opened Messages
  import opened Entities
  import opened Payloads
  import opened DistributedCacheLog

  /** The selector `x => x.Id` of the member overloads. */
  function MemberId(member: EntityRef): int
  {
    member.id
  }

  /** The object type cleared from the runtime cache by ClearXsltCacheOnCurrentServer. */
  const XPathSelectionIteratorType: string := "MS.Internal.Xml.XPath.XPathSelectionIterator"

  // Public access, application trees, applications

  method RefreshPublicAccess(dc: DistributedCache)
    modifies dc
    ensures dc.log == old(dc.log) + [Message(PublicAccessCache, Operation.RefreshAll, NoBody)]
    ensures AppendsWellFormed(old(dc.log), dc.log)
  {
    dc.RefreshAll(PublicAccessCache);
  }

  method RefreshAllApplicationTreeCache(dc: DistributedCache)
    modifies dc
    ensures dc.log == old(dc.log) + [Message(ApplicationTreeCache, Operation.RefreshAll, NoBody)]
    ensures AppendsWellFormed(old(dc.log), dc.log)
  {
    dc.RefreshAll(ApplicationTreeCache);
  }

  method RefreshAllApplicationCache(dc: DistributedCache)
    modifies dc
    ensures dc.log == old(dc.log) + [Message(ApplicationCache, Operation.RefreshAll, NoBody)]
    ensures AppendsWellFormed(old(dc.log), dc.log)
  {
    dc.RefreshAll(ApplicationCache);
  }

  // User types, users, user permissions

  method RemoveUserTypeCache(dc: DistributedCache, userTypeId: int)
    modifies dc
    ensures dc.log == old(dc.log) + [Message(UserTypeCache, Operation.Remove, Id(userTypeId))]
    ensures AppendsWellFormed(old(dc.log), dc.log)
  {
    dc.Remove(UserTypeCache, userTypeId);
  }

  method RefreshUserTypeCache(dc: DistributedCache, userTypeId: int)
    modifies dc
    ensures dc.log == old(dc.log) + [Message(UserTypeCache, Operation.Refresh, Id(userTypeId))]
    ensures AppendsWellFormed(old(dc.log), dc.log)
  {
    dc.Refresh(UserTypeCache, userTypeId);
  }

  method RefreshAllUserTypeCache(dc: DistributedCache)
    modifies dc
    ensures dc.log == old(dc.log) + [Message(UserTypeCache, Operation.RefreshAll, NoBody)]
    ensures AppendsWellFormed(old(dc.log), dc.log)
  {
    dc.RefreshAll(UserTypeCache);
  }

  method RemoveUserCache(dc: DistributedCache, userId: int)
    modifies dc
    ensures dc.log == old(dc.log) + [Message(UserCache, Operation.Remove, Id(userId))]
    ensures AppendsWellFormed(old(dc.log), dc.log)
  {
    dc.Remove(UserCache, userId);
  }

  method RefreshUserCache(dc: DistributedCache, userId: int)
    modifies dc
    ensures dc.log == old(dc.log) + [Message(UserCache, Operation.Refresh, Id(userId))]
    ensures AppendsWellFormed(old(dc.log), dc.log)
  {
    dc.Refresh(UserCache, userId);
  }

  method RefreshAllUserCache(dc: DistributedCache)
    modifies dc
    ensures dc.log == old(dc.log) + [Message(UserCache, Operation.RefreshAll, NoBody)]
    ensures AppendsWellFormed(old(dc.log), dc.log)
  {
    dc.RefreshAll(UserCache);
  }

  method RemoveUserPermissionsCache(dc: DistributedCache, userId: int)
    modifies dc
    ensures dc.log == old(dc.log) + [Message(UserPermissionsCache, Operation.Remove, Id(userId))]
    ensures AppendsWellFormed(old(dc.log), dc.log)
  {
    dc.Remove(UserPermissionsCache, userId);
  }

  method RefreshUserPermissionsCache(dc: DistributedCache, userId: int)
    modifies dc
    ensures dc.log == old(dc.log) + [Message(UserPermissionsCache, Operation.Refresh, Id(userId))]
    ensures AppendsWellFormed(old(dc.log), dc.log)
  {
    dc.Refresh(UserPermissionsCache, userId);
  }

  method RefreshAllUserPermissionsCache(dc: DistributedCache)
    modifies dc
    ensures dc.log == old(dc.log) + [Message(UserPermissionsCache, Operation.RefreshAll, NoBody)]
    ensures AppendsWellFormed(old(dc.log), dc.log)
  {
    dc.RefreshAll(UserPermissionsCache);
  }

  // Templates, dictionary items

  method RefreshTemplateCache(dc: DistributedCache, templateId: int)
    modifies dc
    ensures dc.log == old(dc.log) + [Message(TemplateCache, Operation.Refresh, Id(templateId))]
    ensures AppendsWellFormed(old(dc.log), dc.log)
  {
    dc.Refresh(TemplateCache, templateId);
  }

  method RemoveTemplateCache(dc: DistributedCache, templateId: int)
    modifies dc
    ensures dc.log == old(dc.log) + [Message(TemplateCache, Operation.Remove, Id(templateId))]
    ensures AppendsWellFormed(old(dc.log), dc.log)
  {
    dc.Remove(TemplateCache, templateId);
  }

  method RefreshDictionaryCache(dc: DistributedCache, dictionaryItemId: int)
    modifies dc
    ensures dc.log == old(dc.log) + [Message(DictionaryCache, Operation.Refresh, Id(dictionaryItemId))]
    ensures AppendsWellFormed(old(dc.log), dc.log)
  {
    dc.Refresh(DictionaryCache, dictionaryItemId);
  }

  method RemoveDictionaryCache(dc: DistributedCache, dictionaryItemId: int)
    modifies dc
    ensures dc.log == old(dc.log) + [Message(DictionaryCache, Operation.Remove, Id(dictionaryItemId))]
    ensures AppendsWellFormed(old(dc.log), dc.log)
  {
    dc.Remove(DictionaryCache, dictionaryItemId);
  }

  // Data types

  method RefreshDataTypeCache(dc: DistributedCache, dataType: Option<DataTypeDefinition>)
    modifies dc
    ensures dataType.None? ==> dc.log == old(dc.log)
    ensures dataType.Some? ==>
      dc.log == old(dc.log) + [Message(DataTypeCache, RefreshByPayload, PayloadBatch(DataTypePayloads(dataType.value, false)))]
    ensures AppendsWellFormed(old(dc.log), dc.log)
  {
    if dataType.None? {
      return;
    }
    dc.RefreshByPayload(DataTypeCache, DataTypePayloads(dataType.value, false));
  }

  method RemoveDataTypeCache(dc: DistributedCache, dataType: Option<DataTypeDefinition>)
    modifies dc
    ensures dataType.None? ==> dc.log == old(dc.log)
    ensures dataType.Some? ==>
      dc.log == old(dc.log) + [Message(DataTypeCache, RefreshByPayload, PayloadBatch(DataTypePayloads(dataType.value, true)))]
    ensures AppendsWellFormed(old(dc.log), dc.log)
  {
    if dataType.None? {
      return;
    }
    dc.RefreshByPayload(DataTypeCache, DataTypePayloads(dataType.value, true));
  }

  // Content

  /** One RefreshAll payload for content; the content refresher, not modelled here, also refreshes the content types for it. */
  method RefreshAllContentCache(dc: DistributedCache)
    modifies dc
    ensures dc.log == old(dc.log) + [Message(ContentCache, RefreshByPayload, PayloadBatch(RefreshAllTreePayloads()))]
    ensures AppendsWellFormed(old(dc.log), dc.log)
  {
    dc.RefreshByPayload(ContentCache, RefreshAllTreePayloads());
  }

  method RefreshContentCache(dc: DistributedCache, changes: seq<TreeChange>)
    modifies dc
    ensures changes == [] ==> dc.log == old(dc.log)
    ensures changes != [] ==>
      dc.log == old(dc.log) + [Message(ContentCache, RefreshByPayload, PayloadBatch(TreePayloads(changes)))]
    ensures AppendsWellFormed(old(dc.log), dc.log)
  {
    if |changes| == 0 {
      return;
    }
    dc.RefreshByPayload(ContentCache, TreePayloads(changes));
  }

  // Members, member groups

  method RefreshMemberCache(dc: DistributedCache, members: seq<EntityRef>)
    modifies dc
    ensures dc.log == old(dc.log) + [Message(MemberCache, Operation.Refresh, Ids(SelectIds(MemberId, members)))]
    ensures AppendsWellFormed(old(dc.log), dc.log)
  {
    dc.RefreshInstances(MemberCache, MemberId, members);
  }

  method RemoveMemberCache(dc: DistributedCache, members: seq<EntityRef>)
    modifies dc
    ensures dc.log == old(dc.log) + [Message(MemberCache, Operation.Remove, Ids(SelectIds(MemberId, members)))]
    ensures AppendsWellFormed(old(dc.log), dc.log)
  {
    dc.RemoveInstances(MemberCache, MemberId, members);
  }

  /** The obsolete overload taking a raw member id. */
  method RefreshMemberCacheById(dc: DistributedCache, memberId: int)
    modifies dc
    ensures dc.log == old(dc.log) + [Message(MemberCache, Operation.Refresh, Id(memberId))]
    ensures AppendsWellFormed(old(dc.log), dc.log)
  {
    dc.Refresh(MemberCache, memberId);
  }

  /** The obsolete overload taking a raw member id. */
  method RemoveMemberCacheById(dc: DistributedCache, memberId: int)
    modifies dc
    ensures dc.log == old(dc.log) + [Message(MemberCache, Operation.Remove, Id(memberId))]
    ensures AppendsWellFormed(old(dc.log), dc.log)
  {
    dc.Remove(MemberCache, memberId);
  }

  method RefreshMemberGroupCache(dc: DistributedCache, memberGroupId: int)
    modifies dc
    ensures dc.log == old(dc.log) + [Message(MemberGroupCache, Operation.Refresh, Id(memberGroupId))]
    ensures AppendsWellFormed(old(dc.log), dc.log)
  {
    dc.Refresh(MemberGroupCache, memberGroupId);
  }

  method RemoveMemberGroupCache(dc: DistributedCache, memberGroupId: int)
    modifies dc
    ensures dc.log == old(dc.log) + [Message(MemberGroupCache, Operation.Remove, Id(memberGroupId))]
    ensures AppendsWellFormed(old(dc.log), dc.log)
  {
    dc.Remove(MemberGroupCache, memberGroupId);
  }

  // Media

  /** One RefreshAll payload for media; the media refresher, not modelled here, also refreshes the content types for it. */
  method RefreshAllMediaCache(dc: DistributedCache)
    modifies dc
    ensures dc.log == old(dc.log) + [Message(MediaCache, RefreshByPayload, PayloadBatch(RefreshAllTreePayloads()))]
    ensures AppendsWellFormed(old(dc.log), dc.log)
  {
    dc.RefreshByPayload(MediaCache, RefreshAllTreePayloads());
  }

  method RefreshMediaCache(dc: DistributedCache, changes: seq<TreeChange>)
    modifies dc
    ensures changes == [] ==> dc.log == old(dc.log)
    ensures changes != [] ==>
      dc.log == old(dc.log) + [Message(MediaCache, RefreshByPayload, PayloadBatch(TreePayloads(changes)))]
    ensures AppendsWellFormed(old(dc.log), dc.log)
  {
    if |changes| == 0 {
      return;
    }
    dc.RefreshByPayload(MediaCache, TreePayloads(changes));
  }

  // Facade

  /** Content, then media, then domains, each as one RefreshAll payload request. */
  method RefreshAllFacade(dc: DistributedCache)
    modifies dc
    ensures dc.log == old(dc.log) + [
      Message(ContentCache, RefreshByPayload, PayloadBatch(RefreshAllTreePayloads())),
      Message(MediaCache, RefreshByPayload, PayloadBatch(RefreshAllTreePayloads())),
      Message(DomainCache, RefreshByPayload, PayloadBatch(DomainPayloads(0, DomainRefreshAll)))]
    ensures AppendsWellFormed(old(dc.log), dc.log)
  {
    RefreshAllContentCache(dc);
    RefreshAllMediaCache(dc);
    RefreshAllDomainCache(dc);
  }

  // Macros: refresh and remove send the same request

  method RefreshMacroCache(dc: DistributedCache, macro: Option<Macro>, serialize: Macro -> Json)
    modifies dc
    ensures macro.None? ==> dc.log == old(dc.log)
    ensures macro.Some? ==> dc.log == old(dc.log) + [Message(MacroCache, RefreshByJson, JsonBody(serialize(macro.value)))]
    ensures AppendsWellFormed(old(dc.log), dc.log)
  {
    if macro.None? {
      return;
    }
    dc.RefreshByJson(MacroCache, serialize(macro.value));
  }

  method RemoveMacroCache(dc: DistributedCache, macro: Option<Macro>, serialize: Macro -> Json)
    modifies dc
    ensures macro.None? ==> dc.log == old(dc.log)
    ensures macro.Some? ==> dc.log == old(dc.log) + [Message(MacroCache, RefreshByJson, JsonBody(serialize(macro.value)))]
    ensures AppendsWellFormed(old(dc.log), dc.log)
  {
    if macro.None? {
      return;
    }
    dc.RefreshByJson(MacroCache, serialize(macro.value));
  }

  method RefreshLegacyMacroCache(dc: DistributedCache, macro: Option<LegacyMacro>, serialize: LegacyMacro -> Json)
    modifies dc
    ensures macro.None? ==> dc.log == old(dc.log)
    ensures macro.Some? ==> dc.log == old(dc.log) + [Message(MacroCache, RefreshByJson, JsonBody(serialize(macro.value)))]
    ensures AppendsWellFormed(old(dc.log), dc.log)
  {
    if macro.None? {
      return;
    }
    dc.RefreshByJson(MacroCache, serialize(macro.value));
  }

  method RemoveLegacyMacroCache(dc: DistributedCache, macro: Option<LegacyMacro>, serialize: LegacyMacro -> Json)
    modifies dc
    ensures macro.None? ==> dc.log == old(dc.log)
    ensures macro.Some? ==> dc.log == old(dc.log) + [Message(MacroCache, RefreshByJson, JsonBody(serialize(macro.value)))]
    ensures AppendsWellFormed(old(dc.log), dc.log)
  {
    if macro.None? {
      return;
    }
    dc.RefreshByJson(MacroCache, serialize(macro.value));
  }

  // Content types, media types, member types: one refresher, tagged by the type name

  method RefreshContentTypeCache(dc: DistributedCache, changes: seq<ContentTypeChange>)
    modifies dc
    ensures changes == [] ==> dc.log == old(dc.log)
    ensures changes != [] ==>
      dc.log == old(dc.log) + [Message(ContentTypeCache, RefreshByPayload, PayloadBatch(ContentTypePayloads(IContentTypeName, changes)))]
    ensures AppendsWellFormed(old(dc.log), dc.log)
  {
    if |changes| == 0 {
      return;
    }
    dc.RefreshByPayload(ContentTypeCache, ContentTypePayloads(IContentTypeName, changes));
  }

  method RefreshMediaTypeCache(dc: DistributedCache, changes: seq<ContentTypeChange>)
    modifies dc
    ensures changes == [] ==> dc.log == old(dc.log)
    ensures changes != [] ==>
      dc.log == old(dc.log) + [Message(ContentTypeCache, RefreshByPayload, PayloadBatch(ContentTypePayloads(IMediaTypeName, changes)))]
    ensures AppendsWellFormed(old(dc.log), dc.log)
  {
    if |changes| == 0 {
      return;
    }
    dc.RefreshByPayload(ContentTypeCache, ContentTypePayloads(IMediaTypeName, changes));
  }

  method RefreshMemberTypeCache(dc: DistributedCache, changes: seq<ContentTypeChange>)
    modifies dc
    ensures changes == [] ==> dc.log == old(dc.log)
    ensures changes != [] ==>
      dc.log == old(dc.log) + [Message(ContentTypeCache, RefreshByPayload, PayloadBatch(ContentTypePayloads(IMemberTypeName, changes)))]
    ensures AppendsWellFormed(old(dc.log), dc.log)
  {
    if |changes| == 0 {
      return;
    }
    dc.RefreshByPayload(ContentTypeCache, ContentTypePayloads(IMemberTypeName, changes));
  }

  // Domains

  method RefreshDomainCache(dc: DistributedCache, domain: Option<EntityRef>)
    modifies dc
    ensures domain.None? ==> dc.log == old(dc.log)
    ensures domain.Some? ==>
      dc.log == old(dc.log) + [Message(DomainCache, RefreshByPayload, PayloadBatch(DomainPayloads(domain.value.id, DomainRefresh)))]
    ensures AppendsWellFormed(old(dc.log), dc.log)
  {
    if domain.None? {
      return;
    }
    dc.RefreshByPayload(DomainCache, DomainPayloads(domain.value.id, DomainRefresh));
  }

  method RemoveDomainCache(dc: DistributedCache, domain: Option<EntityRef>)
    modifies dc
    ensures domain.None? ==> dc.log == old(dc.log)
    ensures domain.Some? ==>
      dc.log == old(dc.log) + [Message(DomainCache, RefreshByPayload, PayloadBatch(DomainPayloads(domain.value.id, DomainRemove)))]
    ensures AppendsWellFormed(old(dc.log), dc.log)
  {
    if domain.None? {
      return;
    }
    dc.RefreshByPayload(DomainCache, DomainPayloads(domain.value.id, DomainRemove));
  }

  method RefreshAllDomainCache(dc: DistributedCache)
    modifies dc
    ensures dc.log == old(dc.log) + [Message(DomainCache, RefreshByPayload, PayloadBatch(DomainPayloads(0, DomainRefreshAll)))]
    ensures AppendsWellFormed(old(dc.log), dc.log)
  {
    dc.RefreshByPayload(DomainCache, DomainPayloads(0, DomainRefreshAll));
  }

  // Languages

  method RefreshLanguageCache(dc: DistributedCache, language: Option<EntityRef>)
    modifies dc
    ensures language.None? ==> dc.log == old(dc.log)
    ensures language.Some? ==> dc.log == old(dc.log) + [Message(LanguageCache, Operation.Refresh, Id(language.value.id))]
    ensures AppendsWellFormed(old(dc.log), dc.log)
  {
    if language.None? {
      return;
    }
    dc.Refresh(LanguageCache, language.value.id);
  }

  method RemoveLanguageCache(dc: DistributedCache, language: Option<EntityRef>)
    modifies dc
    ensures language.None? ==> dc.log == old(dc.log)
    ensures language.Some? ==> dc.log == old(dc.log) + [Message(LanguageCache, Operation.Remove, Id(language.value.id))]
    ensures AppendsWellFormed(old(dc.log), dc.log)
  {
    if language.None? {
      return;
    }
    dc.Remove(LanguageCache, language.value.id);
  }

  method RefreshLegacyLanguageCache(dc: DistributedCache, language: Option<EntityRef>)
    modifies dc
    ensures language.None? ==> dc.log == old(dc.log)
    ensures language.Some? ==> dc.log == old(dc.log) + [Message(LanguageCache, Operation.Refresh, Id(language.value.id))]
    ensures AppendsWellFormed(old(dc.log), dc.log)
  {
    if language.None? {
      return;
    }
    dc.Refresh(LanguageCache, language.value.id);
  }

  method RemoveLegacyLanguageCache(dc: DistributedCache, language: Option<EntityRef>)
    modifies dc
    ensures language.None? ==> dc.log == old(dc.log)
    ensures language.Some? ==> dc.log == old(dc.log) + [Message(LanguageCache, Operation.Remove, Id(language.value.id))]
    ensures AppendsWellFormed(old(dc.log), dc.log)
  {
    if language.None? {
      return;
    }
    dc.Remove(LanguageCache, language.value.id);
  }

  // Xslt cache

  /** Clears the cached XPath iterators of this server only, and only when library caching is on. */
  method ClearXsltCacheOnCurrentServer(dc: DistributedCache, runtimeCache: RuntimeCache, libraryCacheDuration: int)
    modifies runtimeCache
    ensures libraryCacheDuration <= 0 ==> runtimeCache.clearedObjectTypes == old(runtimeCache.clearedObjectTypes)
    ensures libraryCacheDuration > 0 ==>
      runtimeCache.clearedObjectTypes == old(runtimeCache.clearedObjectTypes) + [XPathSelectionIteratorType]
    ensures dc.log == old(dc.log)
  {
    if libraryCacheDuration <= 0 {
      return;
    }
    runtimeCache.ClearCacheObjectTypes(XPathSelectionIteratorType);
  }
}
