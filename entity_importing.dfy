// CoreDataKit/Importing/NSEntityDescription+Importing.swift: finding the
// attribute that identifies an entity's objects, declared with "CDKId" on the
// entity or inherited from the nearest superentity that declares it.

module EntityImporting {
  import opened Wrappers
  import opened Errors
  import opened ImportingTypes
  import opened Schema

  /** `identifyingAttribute()` (throwing form). */
  function IdentifyingAttribute(e: EntityDescription): (r: Result<PropertyDescription>)
    ensures r.Success? ==>
      r.value.AttributeDescription? && DeclaringEntity(e).Some? &&
      r.value.name == StringForKey(DeclaringEntity(e).value.userInfo, IdentifierUserInfoKey).value
    ensures r.Failure? ==> r.error == KitError(IdentifyingAttributeNotFound)
    decreases e
  {
    match StringForKey(e.userInfo, IdentifierUserInfoKey)
    case Some(name) =>
      (match AttributeNamed(e.properties, name)
       case Some(attribute) => Success(attribute)
       case None => Failure(KitError(IdentifyingAttributeNotFound)))
    case None =>
      match e.superentity
      case Some(superentity) => IdentifyingAttribute(superentity)
      case None => Failure(KitError(IdentifyingAttributeNotFound))
  }

  /** The nearest entity, starting at `e` and going up the superentity chain,
    * whose user info names an identifying attribute. */
  function DeclaringEntity(e: EntityDescription): (r: Option<EntityDescription>)
    ensures r.Some? ==> IsKindOf(e, r.value) && StringForKey(r.value.userInfo, IdentifierUserInfoKey).Some?
    ensures r.None? ==> forall a :: IsKindOf(e, a) ==> StringForKey(a.userInfo, IdentifierUserInfoKey).None?
    decreases e
  {
    if StringForKey(e.userInfo, IdentifierUserInfoKey).Some? then Some(e)
    else if e.superentity.Some? then DeclaringEntity(e.superentity.value)
    else None
  }

  /** The attribute an entity itself names with "CDKId", looked up among its attributes. */
  function DeclaredAttribute(d: EntityDescription): Result<PropertyDescription>
    requires StringForKey(d.userInfo, IdentifierUserInfoKey).Some?
  {
    match AttributeNamed(d.properties, StringForKey(d.userInfo, IdentifierUserInfoKey).value)
    case Some(attribute) => Success(attribute)
    case None => Failure(KitError(IdentifyingAttributeNotFound))
  }

  /** The nearest declaring entity decides: its named attribute, or not found
    * when the name is not an attribute (no further superentity is asked) or
    * when no entity of the chain declares one. */
  lemma {:induction false} NearestDeclaringEntityDecides(e: EntityDescription)
    ensures IdentifyingAttribute(e) ==
      (match DeclaringEntity(e)
       case Some(d) => DeclaredAttribute(d)
       case None => Failure(KitError(IdentifyingAttributeNotFound)))
    decreases e
  {
    if StringForKey(e.userInfo, IdentifierUserInfoKey).None? && e.superentity.Some? {
      NearestDeclaringEntityDecides(e.superentity.value);
    }
  }
}

// CoreDataKit/Importing/NSEntityDescription.swift: the earlier revision, which
// returns a Result instead of throwing.
module LegacyEntityImporting {
  import opened Wrappers
  import opened Errors
  import opened ImportingTypes
  import opened Schema
  import EntityImporting

  /** `identifyingAttribute() -> Result<NSAttributeDescription>` */
  function LegacyIdentifyingAttribute(e: EntityDescription): (r: Result<PropertyDescription>)
    ensures r.Success? ==> r.value.AttributeDescription?
    decreases e
  {
    match StringForKey(e.userInfo, IdentifierUserInfoKey)
    case Some(name) =>
      (match AttributeNamed(e.properties, name)
       case Some(attribute) => Success(attribute)
       case None => Failure(KitError(IdentifyingAttributeNotFound)))
    case None =>
      match e.superentity
      case Some(superentity) => LegacyIdentifyingAttribute(superentity)
      case None => Failure(KitError(IdentifyingAttributeNotFound))
  }

  /** Both revisions identify the same attribute and fail alike. */
  lemma {:induction false} RevisionsAgree(e: EntityDescription)
    ensures LegacyIdentifyingAttribute(e) == EntityImporting.IdentifyingAttribute(e)
    decreases e
  {
    if StringForKey(e.userInfo, IdentifierUserInfoKey).None? && e.superentity.Some? {
      RevisionsAgree(e.superentity.value);
    }
  }
}
