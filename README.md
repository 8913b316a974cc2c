# Distributed cache invalidation requests (Umbraco `DistributedCacheExtensions`)

Umbraco keeps the caches of a server cluster coherent through `DistributedCache`. Business code
calls on it to refresh or remove one kind of cached entity on every node. The file
`src/Umbraco.Web/Cache/DistributedCacheExtensions.cs` is the layer in between. Each extension
method that sends requests produces one of three results:

- nothing, when a guard fires: a null argument, or an empty `changes` batch for content, media
  and the content-type overloads;
- one request to `DistributedCache`;
- for `RefreshAllFacade`, three requests in a fixed order.

The member overloads taking `params IMember[]` have no guard. An empty member list is still
sent as one request whose id list is empty, and `WellFormed` accepts it.

The one exception is `ClearXsltCacheOnCurrentServer`. It sends no request at all. When the
library cache duration is positive, it clears one object type from this server's runtime cache.

This project models that layer in Dafny:

- `Messages` (`messages.dfy`): the refresher kinds (one per `*CacheRefresher.UniqueId`), the five
  operations (`Refresh`, `Remove`, `RefreshAll`, `RefreshByPayload`, `RefreshByJson`), the payload
  records, and the `Message` a request produces. `WellFormed` says a message's body fits its
  operation, a payload batch is never empty, and each payload record belongs to its refresher.
- `Entities` (`entities.dfy`): the fields of the business objects that the file reads. The two
  macro types are opaque, because the file never reads them and only hands them to the serializer.
- `Payloads` (`payloads.dfy`): the payload lists built before `RefreshByPayload`, as functions.
  These are the `Select` projections and the single-element arrays.
- `DistributedCacheLog` (`distributed_cache.dfy`): `DistributedCache` as a class whose only state
  is an append-only `log` of requested messages. Each of its request methods appends one message.
  It also holds a small `RuntimeCache` that records cleared object types.
- `DistributedCacheExtensions` (`distributed_cache_extensions.dfy`): one method per extension
  method. Each request-sending method has `modifies dc` and states exactly what is appended to
  `dc.log`, including the guards. It also ensures `AppendsWellFormed(old(dc.log), dc.log)`.
  `ClearXsltCacheOnCurrentServer` instead has `modifies runtimeCache`. It says what is recorded as
  cleared and that `dc.log` is unchanged.
- `ExtensionProperties` (`extension_properties.dfy`): a client of the extension methods that
  proves, from their contracts alone, the properties that relate several calls.

C# overloads get distinct names:

- The `RefreshContentTypeCache` overloads for `IMediaType` and `IMemberType` are
  `RefreshMediaTypeCache` and `RefreshMemberTypeCache`.
- The overloads taking `umbraco.cms.businesslogic` objects are `RefreshLegacyMacroCache`,
  `RemoveLegacyMacroCache`, `RefreshLegacyLanguageCache` and `RemoveLegacyLanguageCache`.
- The obsolete overloads taking a raw member id are `RefreshMemberCacheById` and
  `RemoveMemberCacheById`.

A C# reference argument that may be null is an `Option`.

Where the "empty batch sends nothing" rule lives: a general dispatcher could enforce it inside
`RefreshByPayload`. In this file the rule is enforced by each
extension method before the call (lines 159, 221, 284, 294, 304). `DistributedCache` itself is
not part of this model. So `DistributedCache.RefreshByPayload` here records whatever it is
given, and the guarantee is proved about the extension methods.

## Model

| member | source | states |
|---|---|---|
| DistributedCacheExtensions.RefreshPublicAccess | src/Umbraco.Web/Cache/DistributedCacheExtensions.cs:19-22 | Appends exactly one RefreshAll request for the public-access refresher. Everything appended is well formed. |
| DistributedCacheExtensions.RefreshAllApplicationTreeCache | src/Umbraco.Web/Cache/DistributedCacheExtensions.cs:28-31 | Appends exactly one RefreshAll request for the application-tree refresher. Everything appended is well formed. |
| DistributedCacheExtensions.RefreshAllApplicationCache | src/Umbraco.Web/Cache/DistributedCacheExtensions.cs:37-40 | Appends exactly one RefreshAll request for the application refresher. Everything appended is well formed. |
| DistributedCacheExtensions.RemoveUserTypeCache | src/Umbraco.Web/Cache/DistributedCacheExtensions.cs:46-49 | Appends exactly one Remove request for the user-type refresher carrying the given user type id. Everything appended is well formed. |
| DistributedCacheExtensions.RefreshUserTypeCache | src/Umbraco.Web/Cache/DistributedCacheExtensions.cs:51-54 | Appends exactly one Refresh request for the user-type refresher carrying the given user type id. Everything appended is well formed. |
| DistributedCacheExtensions.RefreshAllUserTypeCache | src/Umbraco.Web/Cache/DistributedCacheExtensions.cs:56-59 | Appends exactly one RefreshAll request, without body, for the user-type refresher. Everything appended is well formed. |
| DistributedCacheExtensions.RemoveUserCache | src/Umbraco.Web/Cache/DistributedCacheExtensions.cs:65-68 | Appends exactly one Remove request for the user refresher carrying the given user id. Everything appended is well formed. |
| DistributedCacheExtensions.RefreshUserCache | src/Umbraco.Web/Cache/DistributedCacheExtensions.cs:70-73 | Appends exactly one Refresh request for the user refresher carrying the given user id. Everything appended is well formed. |
| DistributedCacheExtensions.RefreshAllUserCache | src/Umbraco.Web/Cache/DistributedCacheExtensions.cs:75-78 | Appends exactly one RefreshAll request, without body, for the user refresher. Everything appended is well formed. |
| DistributedCacheExtensions.RemoveUserPermissionsCache | src/Umbraco.Web/Cache/DistributedCacheExtensions.cs:84-87 | Appends exactly one Remove request for the user-permissions refresher carrying the given user id. Everything appended is well formed. |
| DistributedCacheExtensions.RefreshUserPermissionsCache | src/Umbraco.Web/Cache/DistributedCacheExtensions.cs:89-92 | Appends exactly one Refresh request for the user-permissions refresher carrying the given user id. Everything appended is well formed. |
| DistributedCacheExtensions.RefreshAllUserPermissionsCache | src/Umbraco.Web/Cache/DistributedCacheExtensions.cs:94-97 | Appends exactly one RefreshAll request, without body, for the user-permissions refresher. Everything appended is well formed. |
| DistributedCacheExtensions.RefreshTemplateCache | src/Umbraco.Web/Cache/DistributedCacheExtensions.cs:103-106 | Appends exactly one Refresh request for the template refresher carrying the given template id. Everything appended is well formed. |
| DistributedCacheExtensions.RemoveTemplateCache | src/Umbraco.Web/Cache/DistributedCacheExtensions.cs:108-111 | Appends exactly one Remove request for the template refresher carrying the given template id. Everything appended is well formed. |
| DistributedCacheExtensions.RefreshDictionaryCache | src/Umbraco.Web/Cache/DistributedCacheExtensions.cs:117-120 | Appends exactly one Refresh request for the dictionary refresher carrying the given dictionary item id. Everything appended is well formed. |
| DistributedCacheExtensions.RemoveDictionaryCache | src/Umbraco.Web/Cache/DistributedCacheExtensions.cs:122-125 | Appends exactly one Remove request for the dictionary refresher carrying the given dictionary item id. Everything appended is well formed. |
| DistributedCacheExtensions.RefreshMemberCacheById | src/Umbraco.Web/Cache/DistributedCacheExtensions.cs:181-185 | Appends exactly one Refresh request for the member refresher carrying the given member id (obsolete overload). Everything appended is well formed. |
| DistributedCacheExtensions.RemoveMemberCacheById | src/Umbraco.Web/Cache/DistributedCacheExtensions.cs:187-191 | Appends exactly one Remove request for the member refresher carrying the given member id (obsolete overload). Everything appended is well formed. |
| DistributedCacheExtensions.RefreshMemberGroupCache | src/Umbraco.Web/Cache/DistributedCacheExtensions.cs:197-200 | Appends exactly one Refresh request for the member-group refresher carrying the given member group id. Everything appended is well formed. |
| DistributedCacheExtensions.RemoveMemberGroupCache | src/Umbraco.Web/Cache/DistributedCacheExtensions.cs:202-205 | Appends exactly one Remove request for the member-group refresher carrying the given member group id. Everything appended is well formed. |
| DistributedCacheExtensions.RefreshDataTypeCache | src/Umbraco.Web/Cache/DistributedCacheExtensions.cs:131-136 | Null data type: log unchanged. Otherwise one data-type RefreshByPayload request with the single payload (Id, Key, removed = false). Everything appended is well formed. |
| DistributedCacheExtensions.RemoveDataTypeCache | src/Umbraco.Web/Cache/DistributedCacheExtensions.cs:138-143 | Null data type: log unchanged. Otherwise the same request as RefreshDataTypeCache but with removed = true. Everything appended is well formed. |
| DistributedCacheExtensions.RefreshAllContentCache | src/Umbraco.Web/Cache/DistributedCacheExtensions.cs:149-155 | Appends one content RefreshByPayload request with the single payload (0, RefreshAll). Everything appended is well formed. |
| DistributedCacheExtensions.RefreshContentCache | src/Umbraco.Web/Cache/DistributedCacheExtensions.cs:157-165 | Empty batch: log unchanged. Otherwise exactly one content RefreshByPayload request whose payloads are TreePayloads(changes). Everything appended is well formed. |
| DistributedCacheExtensions.RefreshMemberCache | src/Umbraco.Web/Cache/DistributedCacheExtensions.cs:171-174 | Appends one member Refresh request carrying the ids of the members, one per member, in order. Everything appended is well formed. |
| DistributedCacheExtensions.RemoveMemberCache | src/Umbraco.Web/Cache/DistributedCacheExtensions.cs:176-179 | Appends one member Remove request carrying the ids of the members, one per member, in order. Everything appended is well formed. |
| DistributedCacheExtensions.RefreshAllMediaCache | src/Umbraco.Web/Cache/DistributedCacheExtensions.cs:211-217 | Appends one media RefreshByPayload request with the single payload (0, RefreshAll). Everything appended is well formed. |
| DistributedCacheExtensions.RefreshMediaCache | src/Umbraco.Web/Cache/DistributedCacheExtensions.cs:219-227 | Empty batch: log unchanged. Otherwise exactly one media RefreshByPayload request whose payloads are TreePayloads(changes). Everything appended is well formed. |
| DistributedCacheExtensions.RefreshAllFacade | src/Umbraco.Web/Cache/DistributedCacheExtensions.cs:233-239 | Appends exactly three requests in this order: content (0, RefreshAll), media (0, RefreshAll), domain (0, DomainRefreshAll). Everything appended is well formed. |
| DistributedCacheExtensions.RefreshMacroCache | src/Umbraco.Web/Cache/DistributedCacheExtensions.cs:254-258 | Null macro: log unchanged. Otherwise one macro RefreshByJson request carrying serialize(macro). Everything appended is well formed. |
| DistributedCacheExtensions.RemoveMacroCache | src/Umbraco.Web/Cache/DistributedCacheExtensions.cs:260-264 | Null macro: log unchanged. Otherwise the same request as RefreshMacroCache: macro RefreshByJson with serialize(macro). Everything appended is well formed. |
| DistributedCacheExtensions.RefreshLegacyMacroCache | src/Umbraco.Web/Cache/DistributedCacheExtensions.cs:266-270 | Legacy Macro overload. Null: log unchanged. Otherwise one macro RefreshByJson request carrying serialize(macro). Everything appended is well formed. |
| DistributedCacheExtensions.RemoveLegacyMacroCache | src/Umbraco.Web/Cache/DistributedCacheExtensions.cs:272-276 | Legacy Macro overload. Null: log unchanged. Otherwise the same request as its refresh counterpart. Everything appended is well formed. |
| DistributedCacheExtensions.RefreshContentTypeCache | src/Umbraco.Web/Cache/DistributedCacheExtensions.cs:282-290 | Empty batch: log unchanged. Otherwise one content-type RefreshByPayload request whose payloads are tagged "IContentType". Everything appended is well formed. |
| DistributedCacheExtensions.RefreshMediaTypeCache | src/Umbraco.Web/Cache/DistributedCacheExtensions.cs:292-300 | IMediaType overload. Empty batch: log unchanged. Otherwise one content-type RefreshByPayload request whose payloads are tagged "IMediaType". Everything appended is well formed. |
| DistributedCacheExtensions.RefreshMemberTypeCache | src/Umbraco.Web/Cache/DistributedCacheExtensions.cs:302-310 | IMemberType overload. Empty batch: log unchanged. Otherwise one content-type RefreshByPayload request whose payloads are tagged "IMemberType". Everything appended is well formed. |
| DistributedCacheExtensions.RefreshDomainCache | src/Umbraco.Web/Cache/DistributedCacheExtensions.cs:316-321 | Null domain: log unchanged. Otherwise one domain RefreshByPayload request with the single payload (Id, Refresh). Everything appended is well formed. |
| DistributedCacheExtensions.RemoveDomainCache | src/Umbraco.Web/Cache/DistributedCacheExtensions.cs:323-328 | Null domain: log unchanged. Otherwise one domain RefreshByPayload request with the single payload (Id, Remove). Everything appended is well formed. |
| DistributedCacheExtensions.RefreshAllDomainCache | src/Umbraco.Web/Cache/DistributedCacheExtensions.cs:330-334 | Appends one domain RefreshByPayload request with the single payload (0, RefreshAll). Everything appended is well formed. |
| DistributedCacheExtensions.RefreshLanguageCache | src/Umbraco.Web/Cache/DistributedCacheExtensions.cs:349-353 | Null language: log unchanged. Otherwise one language Refresh request carrying the language Id. Everything appended is well formed. |
| DistributedCacheExtensions.RemoveLanguageCache | src/Umbraco.Web/Cache/DistributedCacheExtensions.cs:355-359 | Null language: log unchanged. Otherwise one language Remove request carrying the language Id. Everything appended is well formed. |
| DistributedCacheExtensions.RefreshLegacyLanguageCache | src/Umbraco.Web/Cache/DistributedCacheExtensions.cs:361-365 | Legacy Language overload. Null: log unchanged. Otherwise one language Refresh request carrying its id. Everything appended is well formed. |
| DistributedCacheExtensions.RemoveLegacyLanguageCache | src/Umbraco.Web/Cache/DistributedCacheExtensions.cs:367-371 | Legacy Language overload. Null: log unchanged. Otherwise one language Remove request carrying its id. Everything appended is well formed. |
| DistributedCacheExtensions.ClearXsltCacheOnCurrentServer | src/Umbraco.Web/Cache/DistributedCacheExtensions.cs:378-382 | Duration <= 0: nothing is cleared. Otherwise the XPathSelectionIterator object type is cleared from the local runtime cache. The distributed cache log is unchanged either way. |
| Payloads.TreePayloads | src/Umbraco.Web/Cache/DistributedCacheExtensions.cs:161-162 | One payload per change, in order; payload i carries changes[i].Item.Id and changes[i].ChangeTypes unchanged. The media projection at lines 223-224 is the same. |
| Payloads.ContentTypePayloads | src/Umbraco.Web/Cache/DistributedCacheExtensions.cs:286-287 | One payload per change, in order; payload i carries the type name, changes[i].Item.Id and changes[i].ChangeTypes. |
| Payloads.ContentTypePayloadsDifferOnlyInItemType | src/Umbraco.Web/Cache/DistributedCacheExtensions.cs:286-307 | Two content-type overloads build the same payload list except for the type name. |
| Payloads.DataTypePayloadsDifferOnlyInRemoved | src/Umbraco.Web/Cache/DistributedCacheExtensions.cs:134-142 | Refresh and remove build one payload each, with the same (Id, Key); removed is false for refresh and true for remove. |
| DistributedCacheLog.SelectIds | src/Umbraco.Web/Cache/DistributedCacheExtensions.cs:173 | One id per instance, in order: id i is getId(instances[i]). |
| DistributedCacheLog.DistributedCache.Refresh | src/Umbraco.Web/Cache/DistributedCacheExtensions.cs:53 | A dc.Refresh(refresher, id) call appends one Refresh message carrying the id. |
| DistributedCacheLog.DistributedCache.Remove | src/Umbraco.Web/Cache/DistributedCacheExtensions.cs:48 | A dc.Remove(refresher, id) call appends one Remove message carrying the id. |
| DistributedCacheLog.DistributedCache.RefreshInstances | src/Umbraco.Web/Cache/DistributedCacheExtensions.cs:173 | A dc.Refresh(refresher, selector, instances) call appends one Refresh message carrying the selected ids. |
| DistributedCacheLog.DistributedCache.RemoveInstances | src/Umbraco.Web/Cache/DistributedCacheExtensions.cs:178 | A dc.Remove(refresher, selector, instances) call appends one Remove message carrying the selected ids. |
| DistributedCacheLog.DistributedCache.RefreshAll | src/Umbraco.Web/Cache/DistributedCacheExtensions.cs:21 | A dc.RefreshAll(refresher) call appends one RefreshAll message without a body. |
| DistributedCacheLog.DistributedCache.RefreshByPayload | src/Umbraco.Web/Cache/DistributedCacheExtensions.cs:135 | A dc.RefreshByPayload(refresher, payloads) call appends one message carrying the payloads. |
| DistributedCacheLog.DistributedCache.RefreshByJson | src/Umbraco.Web/Cache/DistributedCacheExtensions.cs:257 | A dc.RefreshByJson(refresher, json) call appends one message carrying the JSON. |
| DistributedCacheLog.RuntimeCache.ClearCacheObjectTypes | src/Umbraco.Web/Cache/DistributedCacheExtensions.cs:381 | Records the cleared object type name after the earlier ones. |
| Messages.AppendsPreserveLogWellFormed | src/Umbraco.Web/Cache/DistributedCacheExtensions.cs:159-164 | A log that only ever receives well-formed requests stays well formed: it never holds an empty payload batch. |
| ExtensionProperties.RefreshThenRemoveDataType | src/Umbraco.Web/Cache/DistributedCacheExtensions.cs:131-143 | Refresh then remove of one data type sends two requests that differ only in the removed flag. |
| ExtensionProperties.RefreshAndRemoveMacroAgree | src/Umbraco.Web/Cache/DistributedCacheExtensions.cs:254-276 | For both macro types, refresh and remove send identical requests. |
| ExtensionProperties.ContentTypeOverloadsAgree | src/Umbraco.Web/Cache/DistributedCacheExtensions.cs:282-310 | The three content-type overloads send zero requests for an empty batch or one each, to the same refresher, with payloads equal up to the type name. |
| ExtensionProperties.RequestsAreWellFormed | src/Umbraco.Web/Cache/DistributedCacheExtensions.cs:157-239 | After batch, member and facade calls on a fresh cache, every logged request is well formed and the request count is as expected. |

## Left out

- Delivery of messages (transport, node membership, the local synchronous application, per-node ordering): `DistributedCache` is not part of this model. It is only the log of requests it is asked to make.
- The refreshers' local cache eviction and their `UniqueId` GUID values: the refreshers are other classes. A `RefresherKind` enumeration stands in for the ids.
- `MacroCacheRefresher.Serialize` and the JSON format: the serializer is another class. It is a function parameter (`serialize`) of the macro methods. One parameter is used for `IMacro` and one for the legacy `Macro`.
- The bit meaning of `TreeChangeTypes` and `ContentTypeChangeTypes`: they are copied through unchanged. They are modelled as sets of named flags. Only `TreeChangeTypes.RefreshAll` is read by this file.
- `DistributedCacheExtensions.ClearXsltCacheOnCurrentServer`: the library cache duration comes from global configuration. Here it is a parameter, and the runtime cache is a record of the cleared object type names.
- `DistributedCacheExtensions.RefreshMemberCache` and `DistributedCacheExtensions.RemoveMemberCache`: the `DistributedCache` overload they call is not visible. Each is recorded as one message carrying the ids. The model makes no claim about how many broadcasts that overload sends.
- The two commented-out blocks (`ClearAllMacroCacheOnCurrentServer`, `ClearDomainCacheOnCurrentServer`): they are not live code.
- Null inputs other than the guarded arguments. The model's sequences, `EntityRef`, `DistributedCache` and `RuntimeCache` values cannot be null, so these cases cannot be expressed:
  - a null `changes` array: C# throws `NullReferenceException` at `changes.Length` (lines 159, 221, 284, 294, 304);
  - a null `x.Item` inside `changes`: the `Select` projections dereference it (lines 162, 224, 287, 297, 307);
  - a null `members` array: it is forwarded to `dc.Refresh(..., x => x.Id, members)` or `dc.Remove(...)` (lines 173, 178), and what that overload does with null is not visible;
  - a null `cacheHelper`: `ClearXsltCacheOnCurrentServer` throws when the duration is positive (line 381);
  - a null `dc`: the first call on it throws. When a guard fires first, nothing happens, because `dc` is never touched.
- Integer width of ids: ids are copied and never computed with, so they are unbounded `int`.
