/** The payload lists the extension methods build before a RefreshByPayload request. */
module Payloads {
  import opened Messages
  import opened Entities

  /** `changes.Select(x => new JsonPayload(x.Item.Id, x.ChangeTypes))` for content and media. */
  function TreePayloads(changes: seq<TreeChange>): (ps: seq<Payload>)
    ensures |ps| == |changes|
    ensures forall i :: 0 <= i < |changes| ==>
      ps[i] == TreePayload(changes[i].item.id, changes[i].changeTypes)
  {
    if changes == [] then []
    else [TreePayload(changes[0].item.id, changes[0].changeTypes)] + TreePayloads(changes[1..])
  }

  /** `changes.Select(x => new ContentTypeCacheRefresher.JsonPayload(typeName, x.Item.Id, x.ChangeTypes))`. */
  function ContentTypePayloads(itemType: string, changes: seq<ContentTypeChange>): (ps: seq<Payload>)
    ensures |ps| == |changes|
    ensures forall i :: 0 <= i < |changes| ==>
      ps[i] == ContentTypePayload(itemType, changes[i].item.id, changes[i].changeTypes)
  {
    if changes == [] then []
    else [ContentTypePayload(itemType, changes[0].item.id, changes[0].changeTypes)]
         + ContentTypePayloads(itemType, changes[1..])
  }

  /** The single data-type payload `(Id, Key, removed)`. */
  function DataTypePayloads(dataType: DataTypeDefinition, removed: bool): seq<Payload>
  {
    [DataTypePayload(dataType.id, dataType.key, removed)]
  }

  /** The single payload `(0, TreeChangeTypes.RefreshAll)` of RefreshAllContentCache and RefreshAllMediaCache. */
  function RefreshAllTreePayloads(): seq<Payload>
  {
    [TreePayload(0, TreeChangeTypesRefreshAll)]
  }

  /** The single domain payload `(id, changeType)`. */
  function DomainPayloads(id: int, changeType: DomainChangeTypes): seq<Payload>
  {
    [DomainPayload(id, changeType)]
  }

  /** Replaces the type name of every content-type payload. */
  function Retag(ps: seq<Payload>, itemType: string): seq<Payload>
  {
    if ps == [] then []
    else [if ps[0].ContentTypePayload? then ps[0].(itemType := itemType) else ps[0]] + Retag(ps[1..], itemType)
  }

  /** Two content-type overloads build the same payload list up to the type name. */
  lemma {:induction false} ContentTypePayloadsDifferOnlyInItemType(a: string, b: string, changes: seq<ContentTypeChange>)
    ensures Retag(ContentTypePayloads(a, changes), b) == ContentTypePayloads(b, changes)
  {
    if changes != [] {
      var ps := ContentTypePayloads(a, changes);
      assert ps == [ps[0]] + ContentTypePayloads(a, changes[1..]);
      ContentTypePayloadsDifferOnlyInItemType(a, b, changes[1..]);
    }
  }

  /** Refresh and remove of a data type send one payload each, the same but for the removed flag. */
  lemma DataTypePayloadsDifferOnlyInRemoved(dataType: DataTypeDefinition)
    ensures |DataTypePayloads(dataType, false)| == 1 && |DataTypePayloads(dataType, true)| == 1
    ensures DataTypePayloads(dataType, false)[0].removed == false
    ensures DataTypePayloads(dataType, true)[0].removed == true
    ensures DataTypePayloads(dataType, true)[0] == DataTypePayloads(dataType, false)[0].(removed := true)
    ensures DataTypePayloads(dataType, false)[0].id == dataType.id
    ensures DataTypePayloads(dataType, false)[0].key == dataType.key
  {
  }
}
