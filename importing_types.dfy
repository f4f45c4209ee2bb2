// CoreDataKit/Importing/Types+Importing.swift: the user-info keys that steer
// importing, the map strategy and relation type enums with their raw values,
// and the three-way result of looking a value up in an import dictionary.

module ImportingTypes {
  import opened Wrappers
  import opened Values

  /** Entity user-info key naming the identifying attribute. */
  const IdentifierUserInfoKey: string := "CDKId"
  /** Property user-info key holding a mapping (a key path into the dictionary). */
  const MappingUserInfoKey: string := "CDKMap"
  /** Highest supported index of a numbered mapping key. */
  const MaxNumberedMappings: nat := 9
  /** Property user-info key selecting the map strategy. */
  const MapStrategyUserInfoKey: string := "CDKMapStrategy"
  /** Relationship user-info key selecting the relation type. */
  const RelationTypeUserInfoKey: string := "CDKRelationType"

  datatype MapStrategy = Mapping | NoMapping

  function MapStrategyRawValue(s: MapStrategy): string
  {
    match s
    case Mapping => "CDKStandardMapping"
    case NoMapping => "CDKNoMapping"
  }

  /** `MapStrategy(rawValue:)` */
  function MapStrategyFromRawValue(raw: string): (r: Option<MapStrategy>)
    ensures r.Some? ==> MapStrategyRawValue(r.value) == raw
    ensures (exists s :: MapStrategyRawValue(s) == raw) ==> r.Some?
  {
    if raw == "CDKStandardMapping" then Some(Mapping)
    else if raw == "CDKNoMapping" then Some(NoMapping)
    else None
  }

  /** Parsing a strategy's raw value gives the strategy back, and the two raw values differ. */
  lemma MapStrategyRoundTrip(s: MapStrategy)
    ensures MapStrategyFromRawValue(MapStrategyRawValue(s)) == Some(s)
    ensures MapStrategyRawValue(Mapping) != MapStrategyRawValue(NoMapping)
  {
  }

  datatype RelationType = Reference | Embedding

  function RelationTypeRawValue(t: RelationType): string
  {
    match t
    case Reference => "CDKReference"
    case Embedding => "CDKEmbedding"
  }

  /** `RelationType(rawValue:)` */
  function RelationTypeFromRawValue(raw: string): (r: Option<RelationType>)
    ensures r.Some? ==> RelationTypeRawValue(r.value) == raw
    ensures (exists t :: RelationTypeRawValue(t) == raw) ==> r.Some?
  {
    if raw == "CDKReference" then Some(Reference)
    else if raw == "CDKEmbedding" then Some(Embedding)
    else None
  }

  lemma RelationTypeRoundTrip(t: RelationType)
    ensures RelationTypeFromRawValue(RelationTypeRawValue(t)) == Some(t)
    ensures RelationTypeRawValue(Reference) != RelationTypeRawValue(Embedding)
  {
  }

  /** The four user-info keys are pairwise distinct. */
  lemma UserInfoKeysDistinct()
    ensures IdentifierUserInfoKey != MappingUserInfoKey
    ensures IdentifierUserInfoKey != MapStrategyUserInfoKey
    ensures IdentifierUserInfoKey != RelationTypeUserInfoKey
    ensures MappingUserInfoKey != MapStrategyUserInfoKey
    ensures MappingUserInfoKey != RelationTypeUserInfoKey
    ensures MapStrategyUserInfoKey != RelationTypeUserInfoKey
  {
    assert IdentifierUserInfoKey[1] == 'D' && MappingUserInfoKey[3] == 'M';
    assert |MappingUserInfoKey| == 6 && |MapStrategyUserInfoKey| == 14;
    assert MapStrategyUserInfoKey[3] == 'M' && RelationTypeUserInfoKey[3] == 'R';
  }
}

// The three-way result of a dictionary lookup, kept in a module of its own so
// that its `Some` and `None` do not collide with Option's.
module ImportableValues {
  import opened Values

  /** A value looked up for a property: found, found but null, or not found. */
  datatype ImportableValue =
    | Some(value: AnyObject)
    | Null
    | None
}
