/**
 * The invalidation messages a DistributedCache is asked to broadcast: which refresher,
 * which of the five operations, and what it carries (nothing, an id, ids, payloads or JSON).
 */
module Messages {

  /** One kind per `*CacheRefresher.UniqueId` the extension methods address. */
  datatype RefresherKind =
    | PublicAccessCache
    | ApplicationTreeCache
    | ApplicationCache
    | UserTypeCache
    | UserCache
    | UserPermissionsCache
    | TemplateCache
    | DictionaryCache
    | DataTypeCache
    | ContentCache
    | MemberCache
    | MemberGroupCache
    | MediaCache
    | MacroCache
    | ContentTypeCache
    | DomainCache
    | LanguageCache

  /** The five request operations of DistributedCache. */
  datatype Operation = Refresh | Remove | RefreshAll | RefreshByPayload | RefreshByJson

  /** A GUID is only copied, never inspected. */
  type Guid = bv128

  /** Serialized JSON text, produced by a serializer this model does not interpret. */
  type Json = string

  /** A `[Flags]` value of TreeChangeTypes, as the set of its raised flags. Only RefreshAll is read here. */
  datatype TreeChangeFlag = TreeRefreshAll | TreeRefreshNode | TreeRefreshBranch | TreeRemove
  type TreeChangeTypes = set<TreeChangeFlag>

  /** `TreeChangeTypes.RefreshAll` */
  const TreeChangeTypesRefreshAll: TreeChangeTypes := {TreeRefreshAll}

  /** A `[Flags]` value of ContentTypeChangeTypes; it is only copied through. */
  datatype ContentTypeChangeFlag = ContentTypeCreate | ContentTypeRefreshMain | ContentTypeRefreshOther | ContentTypeRemove
  type ContentTypeChangeTypes = set<ContentTypeChangeFlag>

  /** `DomainCacheRefresher.ChangeTypes` */
  datatype DomainChangeTypes = DomainRefreshAll | DomainRefresh | DomainRemove

  /** The JSON payload records of the payload-based refreshers. */
  datatype Payload =
      /** ContentCacheRefresher.JsonPayload and MediaCacheRefresher.JsonPayload */
    | TreePayload(id: int, treeChanges: TreeChangeTypes)
      /** DataTypeCacheRefresher.JsonPayload */
    | DataTypePayload(id: int, key: Guid, removed: bool)
      /** ContentTypeCacheRefresher.JsonPayload */
    | ContentTypePayload(itemType: string, id: int, contentTypeChanges: ContentTypeChangeTypes)
      /** DomainCacheRefresher.JsonPayload */
    | DomainPayload(id: int, domainChange: DomainChangeTypes)

  datatype Body =
    | NoBody
    | Id(id: int)
    | Ids(ids: seq<int>)
    | PayloadBatch(payloads: seq<Payload>)
    | JsonBody(json: Json)

  datatype Message = Message(refresher: RefresherKind, op: Operation, body: Body)

  /** A payload record belongs to the refresher that defines it. */
  predicate PayloadFits(refresher: RefresherKind, p: Payload)
  {
    match p
    case TreePayload(_, _) => refresher == ContentCache || refresher == MediaCache
    case DataTypePayload(_, _, _) => refresher == DataTypeCache
    case ContentTypePayload(_, _, _) => refresher == ContentTypeCache
    case DomainPayload(_, _) => refresher == DomainCache
  }

  /**
   * The body matches the operation, and a payload request is never an empty batch
   * and carries only records of its own refresher.
   */
  predicate WellFormed(m: Message)
  {
    match m.op
    case Refresh => m.body.Id? || m.body.Ids?
    case Remove => m.body.Id? || m.body.Ids?
    case RefreshAll => m.body.NoBody?
    case RefreshByPayload =>
      m.body.PayloadBatch? && |m.body.payloads| > 0 &&
      forall p <- m.body.payloads :: PayloadFits(m.refresher, p)
    case RefreshByJson => m.body.JsonBody?
  }

  /** `after` is `before` followed only by well-formed messages. */
  predicate AppendsWellFormed(before: seq<Message>, after: seq<Message>)
  {
    |before| <= |after| && after[..|before|] == before &&
    forall i | |before| <= i < |after| :: WellFormed(after[i])
  }

  predicate LogWellFormed(log: seq<Message>)
  {
    forall i | 0 <= i < |log| :: WellFormed(log[i])
  }

  /** Appending only well-formed messages keeps a well-formed log well-formed. */
  lemma AppendsPreserveLogWellFormed(before: seq<Message>, after: seq<Message>)
    requires LogWellFormed(before) && AppendsWellFormed(before, after)
    ensures LogWellFormed(after)
  {
  }
}
