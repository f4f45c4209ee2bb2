// CoreDataKit/Importing/NSPropertyDescription.swift and
// CoreDataKit/Importing/NSAttributeDescription.swift: the earlier revision of
// mapping lookup. It has no map strategy, supports one more numbered mapping,
// and returns an optional object instead of the three-way ImportableValue.

module LegacyPropertyImporting {
  import opened Wrappers
  import opened Values
  import opened Schema
  import opened PropertyImporting
  import IV = ImportableValues

  /** Highest supported numbered mapping index in this revision. */
  const LegacyMaxNumberedMappings: nat := 10

  /** `mappings`, as a value: indices up to `LegacyMaxNumberedMappings + 1`
    * are read, and the property name is the fallback. */
  function LegacyMappingsOf(p: PropertyDescription): seq<string>
  {
    var found := DeclaredMappings(p.userInfo, LegacyMaxNumberedMappings + 1);
    if |found| == 0 then [p.name] else found
  }

  /** `mappings`: the unnumbered mapping, then the numbered ones in a loop. */
  method LegacyMappings(p: PropertyDescription) returns (mappings: seq<string>)
    ensures mappings == LegacyMappingsOf(p)
  {
    mappings := [];
    match StringForKey(p.userInfo, ImportingTypes.MappingUserInfoKey) {
      case Some(unnumbered) => mappings := mappings + [unnumbered];
      case None =>
    }
    for i := 0 to LegacyMaxNumberedMappings + 2
      invariant mappings == UnnumberedMapping(p.userInfo) + NumberedMappings(p.userInfo, i)
    {
      match StringForKey(p.userInfo, NumberedMappingKey(i)) {
        case Some(numbered) => mappings := mappings + [numbered];
        case None =>
      }
    }
    if |mappings| == 0 {
      mappings := mappings + [p.name];
    }
  }

  /** Never empty, at most thirteen key paths, the name when nothing is declared. */
  lemma LegacyMappingsShape(p: PropertyDescription)
    ensures 1 <= |LegacyMappingsOf(p)| <= 13
    ensures DeclaredMappings(p.userInfo, LegacyMaxNumberedMappings + 1) == [] ==> LegacyMappingsOf(p) == [p.name]
  {
    NumberedMappingsAtMost(p.userInfo, LegacyMaxNumberedMappings + 2);
  }

  /** Under the standard strategy the two revisions read the same key paths,
    * except that the earlier one also reads index eleven. */
  lemma {:induction false} RevisionMappingsDiffer(p: PropertyDescription)
    requires MapStrategyOf(p.userInfo) == ImportingTypes.Mapping
    ensures StringForKey(p.userInfo, NumberedMappingKey(11)).None? ==> LegacyMappingsOf(p) == MappingsOf(p)
    ensures StringForKey(p.userInfo, NumberedMappingKey(11)).Some? ==>
      LegacyMappingsOf(p) == DeclaredMappings(p.userInfo, ImportingTypes.MaxNumberedMappings + 1) +
        [StringForKey(p.userInfo, NumberedMappingKey(11)).value]
  {
    assert NumberedMappings(p.userInfo, 12) == NumberedMappings(p.userInfo, 11) + NumberedMapping(p.userInfo, 11);
    assert DeclaredMappings(p.userInfo, 11) == DeclaredMappings(p.userInfo, 10) + NumberedMapping(p.userInfo, 11);
  }

  /** `preferredValueFromDictionary`: the first key path that resolves gives
    * its value, null included; none resolving gives nothing. */
  function LegacyPreferredValueFrom(keyPaths: seq<string>, d: Dict): (r: Option<AnyObject>)
    ensures r.None? <==> forall j :: 0 <= j < |keyPaths| ==> ValueForKeyPath(d, keyPaths[j]).None?
    ensures forall i :: 0 <= i < |keyPaths| && ValueForKeyPath(d, keyPaths[i]).Some? ==>
      (forall j :: 0 <= j < i ==> ValueForKeyPath(d, keyPaths[j]).None?) ==> r == ValueForKeyPath(d, keyPaths[i])
  {
    if |keyPaths| == 0 then None
    else match ValueForKeyPath(d, keyPaths[0])
      case Some(v) => Some(v)
      case None =>
        assert forall j :: 1 <= j < |keyPaths| ==> keyPaths[j] == keyPaths[1..][j - 1];
        LegacyPreferredValueFrom(keyPaths[1..], d)
  }

  /** The three-way lookup of the later revision is this lookup, tagged. */
  lemma {:induction false} TaggedLookupAgrees(keyPaths: seq<string>, d: Dict)
    ensures PreferredValueFrom(keyPaths, d) ==
      (match LegacyPreferredValueFrom(keyPaths, d)
       case Some(v) => Tag(v)
       case None => IV.None)
  {
    if |keyPaths| > 0 && ValueForKeyPath(d, keyPaths[0]).None? {
      TaggedLookupAgrees(keyPaths[1..], d);
    }
  }
}

module LegacyAttributeImporting {
  import opened Wrappers
  import opened Values
  import opened JsonDecode
  import opened Schema
  import opened AttributeImporting
  import opened PropertyImporting
  import opened LegacyPropertyImporting
  import IV = ImportableValues

  /** The attribute override of `preferredValueFromDictionary`: a found null
    * or nothing found gives nothing; any other value is converted for the
    * attribute type. */
  function LegacyAttributePreferredValue(a: PropertyDescription, d: Dict, dateFromString: DateParser): (r: Option<AnyObject>)
    requires a.AttributeDescription?
    ensures r.Some? ==> Stores(a.attributeType, r.value)
  {
    match LegacyPreferredValueFrom(LegacyMappingsOf(a), d)
    case Some(v) => if v.NSNull? then None else TransformValue(a.attributeType, v, dateFromString)
    case None => None
  }

  /** The override is the later revision's three-way lookup followed by
    * `transformValue`, with `Null` and `None` both mapped to nothing. */
  lemma LegacyAttributeValueIsTransformedLookup(a: PropertyDescription, d: Dict, dateFromString: DateParser)
    requires a.AttributeDescription?
    ensures LegacyAttributePreferredValue(a, d, dateFromString) ==
      (match PreferredValueFrom(LegacyMappingsOf(a), d)
       case Some(v) => TransformValue(a.attributeType, v, dateFromString)
       case Null => None
       case None => None)
  {
    TaggedLookupAgrees(LegacyMappingsOf(a), d);
  }
}
