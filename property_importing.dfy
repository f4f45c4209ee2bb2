// CoreDataKit/Importing/NSPropertyDescription+Importing.swift: which
// dictionary key paths may hold a property's value (its mappings), and the
// value found under the first of them that resolves.

module PropertyImporting {
  import opened Wrappers
  import opened Strings
  import opened Values
  import opened ImportingTypes
  import opened Schema
  import IV = ImportableValues

  /** `mapStrategy`: the strategy named in the user info, `Mapping` when none
    * is named or the name is not a strategy (the latter is logged). */
  function MapStrategyOf(userInfo: UserInfo): (r: MapStrategy)
    ensures StringForKey(userInfo, MapStrategyUserInfoKey).None? ==> r == Mapping
    ensures StringForKey(userInfo, MapStrategyUserInfoKey).Some? ==>
      r == (match MapStrategyFromRawValue(StringForKey(userInfo, MapStrategyUserInfoKey).value)
            case Some(s) => s
            case None => Mapping)
  {
    match StringForKey(userInfo, MapStrategyUserInfoKey)
    case Some(raw) =>
      (match MapStrategyFromRawValue(raw)
       case Some(strategy) => strategy
       case None => Mapping)
    case None => Mapping
  }

  /** The user-info key of the numbered mapping `i`: "CDKMap.i". */
  function NumberedMappingKey(i: nat): string
  {
    MappingUserInfoKey + "." + NatToString(i)
  }

  /** Two-digit indexes are written out in full: the eleventh mapping is "CDKMap.10". */
  lemma TenthMappingKey()
    ensures NumberedMappingKey(10) == "CDKMap.10"
  {
    assert NatToString(10) == NatToString(1) + [Digit(0)];
  }

  /** Different indexes name different user-info keys. */
  lemma NumberedMappingKeysDistinct(i: nat, j: nat)
    ensures NumberedMappingKey(i) == NumberedMappingKey(j) ==> i == j
  {
    var prefix := MappingUserInfoKey + ".";
    if NumberedMappingKey(i) == NumberedMappingKey(j) {
      assert NatToString(i) == NumberedMappingKey(i)[|prefix|..];
      assert NatToString(j) == NumberedMappingKey(j)[|prefix|..];
      NatToStringInjective(i, j);
    }
  }

  /** The unnumbered mapping, if the user info holds one. */
  function UnnumberedMapping(userInfo: UserInfo): seq<string>
  {
    match StringForKey(userInfo, MappingUserInfoKey)
    case Some(m) => [m]
    case None => []
  }

  /** The numbered mapping `i`, if the user info holds one. */
  function NumberedMapping(userInfo: UserInfo, i: nat): seq<string>
  {
    match StringForKey(userInfo, NumberedMappingKey(i))
    case Some(m) => [m]
    case None => []
  }

  /** The numbered mappings with index below `count`, by index. */
  function NumberedMappings(userInfo: UserInfo, count: nat): seq<string>
  {
    if count == 0 then [] else NumberedMappings(userInfo, count - 1) + NumberedMapping(userInfo, count - 1)
  }

  /** The mappings a property declares under the standard strategy: the
    * unnumbered one, then the numbered ones scanned up to `lastIndex`. */
  function DeclaredMappings(userInfo: UserInfo, lastIndex: nat): seq<string>
  {
    UnnumberedMapping(userInfo) + NumberedMappings(userInfo, lastIndex + 1)
  }

  /** `mappings`, as a value. Indices up to `MaxNumberedMappings + 1` are read. */
  function MappingsOf(p: PropertyDescription): seq<string>
  {
    match MapStrategyOf(p.userInfo)
    case NoMapping => []
    case Mapping =>
      var found := DeclaredMappings(p.userInfo, MaxNumberedMappings + 1);
      if |found| == 0 then [p.name] else found
  }

  /** `mappings`: collects the unnumbered mapping and then the numbered ones in
    * a loop over the indices, falling back to the property name. */
  method Mappings(p: PropertyDescription) returns (mappings: seq<string>)
    ensures mappings == MappingsOf(p)
  {
    if MapStrategyOf(p.userInfo) == NoMapping {
      return [];
    }
    mappings := [];
    match StringForKey(p.userInfo, MappingUserInfoKey) {
      case Some(unnumbered) => mappings := mappings + [unnumbered];
      case None =>
    }
    for i := 0 to MaxNumberedMappings + 2
      invariant mappings == UnnumberedMapping(p.userInfo) + NumberedMappings(p.userInfo, i)
    {
      match StringForKey(p.userInfo, NumberedMappingKey(i)) {
        case Some(numbered) =>
          // index MaxNumberedMappings + 1 is only warned about, and still used
          mappings := mappings + [numbered];
        case None =>
      }
    }
    if |mappings| == 0 {
      mappings := mappings + [p.name];
    }
  }

  /** The indices below `count` that hold a numbered mapping, ascending. */
  function MappedIndices(userInfo: UserInfo, count: nat): seq<nat>
  {
    if count == 0 then []
    else if StringForKey(userInfo, NumberedMappingKey(count - 1)).Some? then MappedIndices(userInfo, count - 1) + [count - 1]
    else MappedIndices(userInfo, count - 1)
  }

  /** The numbered mappings are the values at the mapped indices, in order. */
  lemma {:induction false} NumberedMappingsAtMappedIndices(userInfo: UserInfo, count: nat)
    ensures |NumberedMappings(userInfo, count)| == |MappedIndices(userInfo, count)|
    ensures forall j :: 0 <= j < |MappedIndices(userInfo, count)| ==>
      StringForKey(userInfo, NumberedMappingKey(MappedIndices(userInfo, count)[j])) ==
        Some(NumberedMappings(userInfo, count)[j])
  {
    if count > 0 {
      NumberedMappingsAtMappedIndices(userInfo, count - 1);
    }
  }

  /** The mapped indices are below `count`, strictly increasing, and include
    * every index that holds a numbered mapping. */
  lemma {:induction false} MappedIndicesAscending(userInfo: UserInfo, count: nat)
    ensures forall j :: 0 <= j < |MappedIndices(userInfo, count)| ==> MappedIndices(userInfo, count)[j] < count
    ensures forall j, k :: 0 <= j < k < |MappedIndices(userInfo, count)| ==>
      MappedIndices(userInfo, count)[j] < MappedIndices(userInfo, count)[k]
    ensures forall i :: 0 <= i < count && StringForKey(userInfo, NumberedMappingKey(i)).Some? ==>
      i in MappedIndices(userInfo, count)
  {
    if count > 0 {
      MappedIndicesAscending(userInfo, count - 1);
    }
  }

  /** Under `NoMapping` nothing is looked up, so nothing is ever found. */
  lemma NoMappingFindsNothing(p: PropertyDescription, d: Dict)
    requires MapStrategyOf(p.userInfo) == NoMapping
    ensures MappingsOf(p) == []
    ensures PreferredValueFromDictionary(p, d) == IV.None
  {
  }

  lemma {:induction false} NumberedMappingsAtMost(userInfo: UserInfo, count: nat)
    ensures |NumberedMappings(userInfo, count)| <= count
  {
    if count > 0 {
      NumberedMappingsAtMost(userInfo, count - 1);
    }
  }

  /** Under `Mapping` the list is never empty, holds at most twelve key paths,
    * starts with the unnumbered mapping when there is one, and is just the
    * property name when nothing is declared. */
  lemma MappingsShape(p: PropertyDescription)
    requires MapStrategyOf(p.userInfo) == Mapping
    ensures 1 <= |MappingsOf(p)| <= 12
    ensures StringForKey(p.userInfo, MappingUserInfoKey).Some? ==>
      MappingsOf(p)[0] == StringForKey(p.userInfo, MappingUserInfoKey).value
    ensures DeclaredMappings(p.userInfo, MaxNumberedMappings + 1) == [] ==> MappingsOf(p) == [p.name]
  {
    NumberedMappingsAtMost(p.userInfo, MaxNumberedMappings + 2);
  }

  /** The mapping at index `MaxNumberedMappings + 1` (CDKMap.10) is used. */
  lemma LastNumberedMappingIsUsed(p: PropertyDescription, m: string)
    requires MapStrategyOf(p.userInfo) == Mapping
    requires StringForKey(p.userInfo, NumberedMappingKey(MaxNumberedMappings + 1)) == Some(m)
    ensures m in MappingsOf(p)
  {
    var found := DeclaredMappings(p.userInfo, MaxNumberedMappings + 1);
    assert NumberedMappings(p.userInfo, MaxNumberedMappings + 2) ==
      NumberedMappings(p.userInfo, MaxNumberedMappings + 1) + [m];
    assert found[|found| - 1] == m;
  }

  /** A found value, tagged: null becomes `Null`, anything else `Some`. */
  function Tag(v: AnyObject): (r: IV.ImportableValue)
    ensures r != IV.None
  {
    if v.NSNull? then IV.Null else IV.Some(v)
  }

  /** The first key path that resolves decides; none resolving gives `None`. */
  function PreferredValueFrom(keyPaths: seq<string>, d: Dict): (r: IV.ImportableValue)
    ensures r.Some? ==> Depth(r.value) <= DictDepth(d)
  {
    if |keyPaths| == 0 then IV.None
    else match ValueForKeyPath(d, keyPaths[0])
      case Some(v) => Tag(v)
      case None => PreferredValueFrom(keyPaths[1..], d)
  }

  /** `preferredValueFromDictionary` */
  function PreferredValueFromDictionary(p: PropertyDescription, d: Dict): (r: IV.ImportableValue)
    ensures r.Some? ==> Depth(r.value) <= DictDepth(d)
  {
    PreferredValueFrom(MappingsOf(p), d)
  }

  /** The value under the first resolving key path is returned, tagged; later
    * key paths are not consulted. */
  lemma {:induction false} FirstResolvingMappingWins(keyPaths: seq<string>, d: Dict, i: nat)
    requires i < |keyPaths| && ValueForKeyPath(d, keyPaths[i]).Some?
    requires forall j :: 0 <= j < i ==> ValueForKeyPath(d, keyPaths[j]).None?
    ensures PreferredValueFrom(keyPaths, d) == Tag(ValueForKeyPath(d, keyPaths[i]).value)
  {
    if i > 0 {
      FirstResolvingMappingWins(keyPaths[1..], d, i - 1);
    }
  }

  /** `None` exactly when no key path resolves. */
  lemma {:induction false} NothingResolves(keyPaths: seq<string>, d: Dict)
    ensures PreferredValueFrom(keyPaths, d) == IV.None <==>
      forall j :: 0 <= j < |keyPaths| ==> ValueForKeyPath(d, keyPaths[j]).None?
  {
    if |keyPaths| > 0 {
      NothingResolves(keyPaths[1..], d);
      if ValueForKeyPath(d, keyPaths[0]).None? {
        assert forall j :: 1 <= j < |keyPaths| ==> keyPaths[j] == keyPaths[1..][j - 1];
      }
    }
  }
}
