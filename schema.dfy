// The parts of a Core Data managed object model that importing reads: entity,
// attribute and relationship descriptions with their user info, and the
// superentity chain. These are Core Data's classes, seen as values.

module Schema {
  import opened Wrappers
  import opened Values
  import ImportingTypes

  /** A description's `userInfo` dictionary. */
  type UserInfo = map<string, AnyObject>

  /** `userInfo?[key] as? String` */
  function StringForKey(userInfo: UserInfo, key: string): (r: Option<string>)
    ensures r.Some? <==> key in userInfo && userInfo[key].NSString?
    ensures r.Some? ==> r.value == userInfo[key].stringValue
  {
    if key in userInfo then
      match userInfo[key]
      case NSString(s) => Some(s)
      case _ => None
    else None
  }

  datatype AttributeType =
    | UndefinedAttributeType
    | Integer16AttributeType
    | Integer32AttributeType
    | Integer64AttributeType
    | DecimalAttributeType
    | DoubleAttributeType
    | FloatAttributeType
    | StringAttributeType
    | BooleanAttributeType
    | DateAttributeType
    | BinaryDataAttributeType
    | TransformableAttributeType
    | ObjectIDAttributeType

  /** An `NSPropertyDescription` by subclass. A relationship names its
    * destination entity and carries its relation type directly. */
  datatype PropertyDescription =
    | AttributeDescription(name: string, userInfo: UserInfo, optional: bool, attributeType: AttributeType)
    | RelationshipDescription(name: string, userInfo: UserInfo, optional: bool,
                              destinationEntity: Option<string>, toMany: bool, relationType: ImportingTypes.RelationType)
    | FetchedPropertyDescription(name: string, userInfo: UserInfo, optional: bool)
    | OtherPropertyDescription(name: string, userInfo: UserInfo, optional: bool)

  /** An `NSEntityDescription`; `properties` includes the inherited ones. */
  datatype EntityDescription = EntityDescription(
    name: Option<string>,
    userInfo: UserInfo,
    properties: seq<PropertyDescription>,
    superentity: Option<EntityDescription>)

  /** `NSManagedObjectModel.entitiesByName` */
  type ManagedObjectModel = map<string, EntityDescription>

  /** `attributesByName[name]`: the first attribute of that name. */
  function AttributeNamed(properties: seq<PropertyDescription>, name: string): (r: Option<PropertyDescription>)
    ensures r.Some? ==> r.value in properties && r.value.AttributeDescription? && r.value.name == name
    ensures r.None? ==> forall p :: p in properties && p.AttributeDescription? ==> p.name != name
  {
    if |properties| == 0 then None
    else if properties[0].AttributeDescription? && properties[0].name == name then Some(properties[0])
    else AttributeNamed(properties[1..], name)
  }

  /** Whether `e` is `target` or one of its subentities (what a fetch request
    * for `target` matches). */
  predicate IsKindOf(e: EntityDescription, target: EntityDescription)
  {
    e == target || (e.superentity.Some? && IsKindOf(e.superentity.value, target))
  }

  /** The destination entity of a relationship, resolved in the model. */
  function DestinationEntity(model: ManagedObjectModel, r: PropertyDescription): (d: Option<EntityDescription>)
    requires r.RelationshipDescription?
    ensures d.Some? <==> r.destinationEntity.Some? && r.destinationEntity.value in model
  {
    match r.destinationEntity
    case Some(n) => if n in model then Some(model[n]) else None
    case None => None
  }
}
