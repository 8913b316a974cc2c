/** The parts of the business objects the extension methods read. */
module Entities {
  import opened Messages

  /** IDataTypeDefinition: its Id and its Key. */
  datatype DataTypeDefinition = DataTypeDefinition(id: int, key: Guid)

  /** An entity of which only the Id is read: IContent, IMedia, IContentType, IMediaType,
      IMemberType, IMember, IDomain, ILanguage and the legacy Language. */
  datatype EntityRef = EntityRef(id: int)

  /** TreeChange<IContent> and TreeChange<IMedia>. */
  datatype TreeChange = TreeChange(item: EntityRef, changeTypes: TreeChangeTypes)

  /** ContentTypeChange<IContentType>, ContentTypeChange<IMediaType> and ContentTypeChange<IMemberType>. */
  datatype ContentTypeChange = ContentTypeChange(item: EntityRef, changeTypes: ContentTypeChangeTypes)

  /** IMacro and the legacy umbraco.cms.businesslogic.macro.Macro: never read, only handed whole
      to the serializer, so nothing about them is modelled. */
  type Macro
  type LegacyMacro

  /** `typeof(T).Name` for the three content-type overloads. */
  const IContentTypeName: string := "IContentType"
  const IMediaTypeName: string := "IMediaType"
  const IMemberTypeName: string := "IMemberType"
}
