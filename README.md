# CoreDataKit in Dafny

This project models the core of CoreDataKit, a Swift library over Apple's Core Data. It covers two parts.

- **The dictionary import engine** (`CoreDataKit/Importing/`). A JSON-like dictionary is imported into a managed object by walking the entity's properties. For each property the engine:
  - computes the candidate keys (`mappings`);
  - looks the value up as found, found-but-null or not found (`ImportableValue`);
  - converts it to the attribute's type (`transformValue` and the `decode` functions).
  
  Objects are found or created by their identifying attribute, which is resolved up the superentity chain. Relationships are then updated: a reference relation is linked and nothing is deleted; an embedding relation gets a new object and the old one is deleted.
- **The managed object context protocol** (`NSManagedObjectContext.swift`, `CoreDataStack.swift`). Contexts form a tree of parents and children. `performBlock` runs a block inside one undo group, then carries out the `CommitAction` the block returns:
  - do nothing;
  - save one hop to the parent;
  - save through every ancestor to the persistent store;
  - undo the block;
  - roll back every unsaved change.
  
  Permanent object IDs are always obtained before a save. A `CoreDataStack` is a root context bound to the coordinator plus a main-queue child of it.

## How the model is built

**Values.**
- `AnyObject` covers the Foundation values a dictionary can hold: null, string, boolean/integer/double numbers, date, data, array and nested dictionary. The decoders test for the kind of value exactly (see "## Left out" for how this differs from Swift's bridging casts).
- Key paths split on `.` and are resolved as nested lookups (`Values`).
- Entities, attributes and relationships are datatypes (`Schema`).

**The object graph** (`ObjectGraph`).
- It maps object IDs to records of slots and keeps the set of temporary IDs.
- A context is a `Ctx`: its graph, an undo mark taken when a block starts, and its last-saved graph. Inserted, updated and deleted objects are derived from the difference to the last-saved graph.
- The persistent store's contents are the root context's last-saved graph.

**Functions and imperative classes.** The import engine and the save protocol are first stated as total functions over values (`ImportModel`, `Contexts`). The code that changes contexts in place is then a pair of classes:
- `ContextImporting.ImportingContext` runs the import and creates and deletes objects;
- `ContextTrees.ContextTree` runs the context tree, saves, `performBlock` and fetches.

Each state-changing method is proved to leave exactly the state, and return exactly the result, that the corresponding function gives from the old state. The source's properties are proved as lemmas about those functions.

**Two revisions.** The source carries two revisions of the importing code side by side. The older files (`NSAttributeDescription.swift`, `NSPropertyDescription.swift`, `NSEntityDescription.swift`) are modelled as separately named `Legacy…` members. Lemmas relate each one to the current revision.

**Error codes.** The Swift files do not define the raw values of `CoreDataKitErrorCode`. Error codes are therefore a datatype of named cases. Errors raised by Core Data itself carry Cocoa numbers:
- 134060 when no persistent store is available;
- 133000 for a missing object.

### Where the code does less than its names and documentation suggest
- `findEntityByIdentifyingAttribute` returns an `UnexpectedNumberOfResults` error for two or more matches (`NSManagedObjectContext+Importing.swift:92-94`). `objectForImport` creates a new object whenever the lookup fails (`NSManagedObjectContext+Importing.swift:80-81`), so that error is swallowed on the import path. `ImportModel.ObjectForImportByMatches` states this.
- For a relationship without a destination entity, `performImportRelationship` builds an `InvalidPropertyConfiguration` error but never throws it (`NSManagedObject+Importing.swift:159-162`), so the relationship is silently skipped.
- `updateRelationship` calls `delete` under `try?`, so errors from deleting the current value are dropped (`NSManagedObject+Importing.swift:225-229`, `246-250`).
- `find` documents an `offset` parameter (`NSManagedObjectContext.swift:351`) but does not pass it to the fetch request (`NSManagedObjectContext.swift:357`, `372`). `findFirst` therefore always returns the first match.
- The `CDKMap.10` mapping is appended although the warning says it is ignored (`NSPropertyDescription+Importing.swift:47-53`).

## Model

| member | source | states |
|---|---|---|
| ImportingTypes.MapStrategyFromRawValue | CoreDataKit/Importing/Types+Importing.swift:28-34 | parsing yields a strategy exactly when the text is one of the raw values, and the strategy whose raw value it is |
| ImportingTypes.MapStrategyRoundTrip | CoreDataKit/Importing/Types+Importing.swift:28-34 | parsing a strategy's raw value gives the strategy back; "CDKStandardMapping" and "CDKNoMapping" differ |
| ImportingTypes.RelationTypeFromRawValue | CoreDataKit/Importing/Types+Importing.swift:42-48 | parsing yields a relation type exactly when the text is "CDKReference" or "CDKEmbedding" |
| ImportingTypes.RelationTypeRoundTrip | CoreDataKit/Importing/Types+Importing.swift:42-48 | the relation type's raw value round-trips and the two raw values differ |
| ImportingTypes.UserInfoKeysDistinct | CoreDataKit/Importing/Types+Importing.swift:14-39 | "CDKId", "CDKMap", "CDKMapStrategy" and "CDKRelationType" are pairwise distinct |
| JsonDecode.DecodeString | CoreDataKit/Importing/JsonDecode+Importing.swift:12-16 | yields a value exactly when the input is a string, and then that string |
| JsonDecode.DecodeBool | CoreDataKit/Importing/JsonDecode+Importing.swift:18-22 | yields a value exactly when the input is a boolean number, unconverted |
| JsonDecode.DecodeInt | CoreDataKit/Importing/JsonDecode+Importing.swift:24-28 | yields a value exactly when the input is an integer number, unconverted |
| JsonDecode.LongLongValue | CoreDataKit/Importing/JsonDecode+Importing.swift:32-33 | `longLongValue` of a number: integers unchanged, booleans 1/0, in-range doubles truncated toward zero |
| JsonDecode.TruncateTowardZero | CoreDataKit/Importing/JsonDecode+Importing.swift:33 | the integer part of a double, rounded toward zero on both signs |
| JsonDecode.DecodeInt64 | CoreDataKit/Importing/JsonDecode+Importing.swift:30-35 | yields a value exactly when the input is a number of any kind, and then its 64-bit value |
| JsonDecode.Int64NumberRoundTrip | CoreDataKit/Importing/JsonDecode+Importing.swift:30-35 | decoding an integer number gives that integer back |
| JsonDecode.Int64OfWholeDouble | CoreDataKit/Importing/JsonDecode+Importing.swift:30-35 | decoding a double that holds a whole 64-bit value gives that integer |
| JsonDecode.DecodeDouble | CoreDataKit/Importing/JsonDecode+Importing.swift:37-41 | yields a value exactly when the input is a double number, unconverted |
| JsonDecode.DecodeData | CoreDataKit/Importing/JsonDecode+Importing.swift:43-47 | binary data passes through unchanged; anything else yields nothing |
| JsonDecode.DecodeDate | CoreDataKit/Importing/JsonDecode+Importing.swift:49-68 | a date is returned unchanged, a string goes to the "yyyy-MM-dd'T'HH:mm:ssZZZZZ" parser, anything else yields nothing |
| AttributeImporting.TransformValue | CoreDataKit/Importing/NSAttributeDescription+Importing.swift:20-60 | per attribute type, succeeds exactly when the matching decode does and then holds its value; undefined, transformable and object-ID attributes always yield nothing; every result fits the attribute |
| AttributeImporting.TransformKeepsStoredValues | CoreDataKit/Importing/NSAttributeDescription+Importing.swift:20-60 | a value that already fits the attribute is transformed to itself |
| AttributeImporting.TransformSharedCases | CoreDataKit/Importing/NSAttributeDescription+Importing.swift:22-39 | Integer16 and Integer32 transform alike, as do Decimal, Double and Float |
| Schema.StringForKey | CoreDataKit/Importing/NSPropertyDescription+Importing.swift:16 | a user-info entry is read as a string only when present and a string |
| Schema.AttributeNamed | CoreDataKit/Importing/NSEntityDescription+Importing.swift:20 | `attributesByName` finds an attribute of that name if one exists, and nothing otherwise |
| Schema.DestinationEntity | CoreDataKit/Importing/NSManagedObject+Importing.swift:149 | a relationship has a destination exactly when it names an entity of the model |
| Values.ValueForKey | CoreDataKit/Importing/NSPropertyDescription+Importing.swift:75 | a key is found exactly when the dictionary holds it, with its value |
| Values.ValueAtPath | CoreDataKit/Importing/NSPropertyDescription+Importing.swift:75 | a value found along a key path is never deeper than the dictionary it came from |
| Values.ValueForKeyPath | CoreDataKit/Importing/NSPropertyDescription+Importing.swift:75 | `valueForKeyPath` never yields a value deeper than the dictionary |
| Values.KeyPathWithoutDot | CoreDataKit/Importing/NSPropertyDescription+Importing.swift:75 | a key path without a dot is a plain key lookup |
| Values.KeyPathComposes | CoreDataKit/Importing/NSPropertyDescription+Importing.swift:75 | "key.rest" is "rest" looked up in the dictionary under "key", and not found when that is not a dictionary |
| Strings.Split | CoreDataKit/NamedManagedObject.swift:23 | splitting gives at least one part and no part contains the separator |
| Strings.JoinSplit | CoreDataKit/NamedManagedObject.swift:23 | joining the parts of a split with the separator gives the string back |
| Strings.SplitWithoutSeparator | CoreDataKit/NamedManagedObject.swift:23-25 | a string without the separator splits into itself |
| Strings.NonEmpty | CoreDataKit/NamedManagedObject.swift:23 | dropping empty parts keeps every non-empty part and only those |
| Strings.NatToString | CoreDataKit/Importing/NSPropertyDescription+Importing.swift:48 | the decimal digits of the mapping index in "CDKMap.\(i)" |
| Strings.NatToStringReadsBack | CoreDataKit/Importing/NSPropertyDescription+Importing.swift:48 | the digits written for the index read back as that index |
| Strings.NatToStringInjective | CoreDataKit/Importing/NSPropertyDescription+Importing.swift:48 | different indexes are written differently |
| PropertyImporting.TenthMappingKey | CoreDataKit/Importing/NSPropertyDescription+Importing.swift:47-48 | the key of index 10, reached by the scan up to `MaxNumberedMappings + 1`, is "CDKMap.10" |
| PropertyImporting.NumberedMappingKeysDistinct | CoreDataKit/Importing/NSPropertyDescription+Importing.swift:47-48 | different indexes look up different user-info keys |
| NamedManagedObject.EntityName | CoreDataKit/NamedManagedObject.swift:20-26 | the entity name is non-empty and has no '.'; a class name without '.' is its own entity name |
| NamedManagedObject.EntityNameIsLastName | CoreDataKit/NamedManagedObject.swift:23-25 | the assertion holds exactly when the class string has a character other than '.', and the name is then the last non-empty dot-separated component |
| NamedManagedObject.LastComponentIsSegment | CoreDataKit/NamedManagedObject.swift:23 | the last part of a split on '.' is the text after the last '.' |
| NamedManagedObject.NonEmptySnoc | CoreDataKit/NamedManagedObject.swift:23 | dropping empty components distributes over appending one component |
| NamedManagedObject.SplitSnoc | CoreDataKit/NamedManagedObject.swift:23 | how a split changes when one character is appended |
| PropertyImporting.MapStrategyOf | CoreDataKit/Importing/NSPropertyDescription+Importing.swift:13-26 | standard mapping when "CDKMapStrategy" is absent or unrecognised, otherwise the parsed strategy |
| PropertyImporting.Mappings | CoreDataKit/Importing/NSPropertyDescription+Importing.swift:33-64 | the loop over "CDKMap.0" to "CDKMap.10" computes the mapping list `MappingsOf` specifies |
| PropertyImporting.NumberedMappingsAtMappedIndices | CoreDataKit/Importing/NSPropertyDescription+Importing.swift:46-55 | the numbered mappings are exactly the user-info strings at the indices that define one |
| PropertyImporting.MappedIndicesAscending | CoreDataKit/Importing/NSPropertyDescription+Importing.swift:46-55 | numbered mappings appear in increasing index order, and every defined index below the bound appears |
| PropertyImporting.NumberedMappingsAtMost | CoreDataKit/Importing/NSPropertyDescription+Importing.swift:47 | at most one mapping per scanned index |
| PropertyImporting.MappingsShape | CoreDataKit/Importing/NSPropertyDescription+Importing.swift:39-62 | under standard mapping the list has 1 to 12 entries, starts with "CDKMap" when defined, and is the property's name when no mapping is defined |
| PropertyImporting.LastNumberedMappingIsUsed | CoreDataKit/Importing/NSPropertyDescription+Importing.swift:47-53 | "CDKMap.10" is still used, despite the warning |
| PropertyImporting.NoMappingFindsNothing | CoreDataKit/Importing/NSPropertyDescription+Importing.swift:34-36 | with "CDKNoMapping" the list is empty and no value is ever found |
| PropertyImporting.Tag | CoreDataKit/Importing/NSPropertyDescription+Importing.swift:76-80 | a found value is tagged null or some, never "not found" |
| PropertyImporting.PreferredValueFrom | CoreDataKit/Importing/NSPropertyDescription+Importing.swift:73-85 | a found value is no deeper than the dictionary |
| PropertyImporting.PreferredValueFromDictionary | CoreDataKit/Importing/NSPropertyDescription+Importing.swift:73-85 | a found value is no deeper than the dictionary |
| PropertyImporting.FirstResolvingMappingWins | CoreDataKit/Importing/NSPropertyDescription+Importing.swift:74-81 | the first key path that resolves decides the value, null or some; later ones are not consulted |
| PropertyImporting.NothingResolves | CoreDataKit/Importing/NSPropertyDescription+Importing.swift:73-85 | "not found" exactly when no mapping's key path resolves |
| EntityImporting.IdentifyingAttribute | CoreDataKit/Importing/NSEntityDescription+Importing.swift:18-32 | a success is the attribute named by "CDKId" on the nearest declaring entity; a failure is `IdentifyingAttributeNotFound` |
| EntityImporting.DeclaringEntity | CoreDataKit/Importing/NSEntityDescription+Importing.swift:19-28 | the nearest entity up the superentity chain that has "CDKId", or none when no entity in the chain has it |
| EntityImporting.NearestDeclaringEntityDecides | CoreDataKit/Importing/NSEntityDescription+Importing.swift:18-32 | the nearest declaring entity alone decides the outcome: its named attribute, or not-found even if an ancestor declares "CDKId" |
| LegacyEntityImporting.LegacyIdentifyingAttribute | CoreDataKit/Importing/NSEntityDescription.swift:15-29 | the Result-returning revision yields only attributes |
| LegacyEntityImporting.RevisionsAgree | CoreDataKit/Importing/NSEntityDescription.swift:15-29 | the Result-returning revision agrees with the throwing one on every entity |
| LegacyPropertyImporting.LegacyMappings | CoreDataKit/Importing/NSPropertyDescription.swift:17-42 | the loop over "CDKMap.0" to "CDKMap.11" computes `LegacyMappingsOf` |
| LegacyPropertyImporting.LegacyMappingsShape | CoreDataKit/Importing/NSPropertyDescription.swift:26-41 | the list has 1 to 13 entries and is the property's name when no mapping is defined |
| LegacyPropertyImporting.RevisionMappingsDiffer | CoreDataKit/Importing/NSPropertyDescription.swift:11-34 | the two revisions agree under standard mapping unless "CDKMap.11" is defined, which only the older one reads |
| LegacyPropertyImporting.LegacyPreferredValueFrom | CoreDataKit/Importing/NSPropertyDescription.swift:45-53 | nothing exactly when no key path resolves; otherwise the value (null included) under the first key path that resolves |
| LegacyPropertyImporting.TaggedLookupAgrees | CoreDataKit/Importing/NSPropertyDescription.swift:45-53 | the untagged lookup finds the same first value the tagged one does; absent is nil |
| LegacyAttributeImporting.LegacyAttributePreferredValue | CoreDataKit/Importing/NSAttributeDescription.swift:13-61 | every value it yields fits the attribute's type |
| LegacyAttributeImporting.LegacyAttributeValueIsTransformedLookup | CoreDataKit/Importing/NSAttributeDescription.swift:13-61 | the older override is lookup then transform, with null and absent both collapsed to nil |
| Errors.KitError | CoreDataKit/Importing/NSManagedObject+Importing.swift:36 | a CoreDataKit error has the CoreDataKit domain, its code, and no boxed error |
| Errors.Description | CoreDataKit/Types.swift:67-84 | the text of each error case: "Import of entity n cancelled", "Unknown error: d", "CoreDataError: e", the others verbatim |
| Errors.BoxDescription | CoreDataKit/Types.swift:99-101 | a box describes itself as the error it wraps |
| Errors.NsError | CoreDataKit/Types.swift:106-116 | a Core Data error is returned as is; any other is boxed under the CoreDataKit domain with code 0 |
| Errors.CoreDataKitErrorOf | CoreDataKit/Types.swift:120-125 | an error is recovered exactly when the user info holds a box |
| Errors.BoxRoundTrip | CoreDataKit/Types.swift:104-126 | unboxing a boxed error gives it back |
| Errors.HelperErrorsCarryNoBox | CoreDataKit/Types.swift:120-125 | errors built from a code alone hold no CoreDataKit error |
| ObjectGraph.SlotOf | CoreDataKit/Importing/NSManagedObject+Importing.swift:221 | a non-nil slot value belongs to an object of the graph |
| ObjectGraph.SetSlot | CoreDataKit/Importing/NSManagedObject+Importing.swift:125 | `setValue` changes that one slot of that object and nothing else |
| ObjectGraph.InitialSlots | CoreDataKit/NSManagedObjectContext.swift:193 | a new object starts with an empty set for every to-many relationship |
| ObjectGraph.InsertNewObject | CoreDataKit/NSManagedObjectContext.swift:193 | a new object joins the graph with a temporary ID |
| ObjectGraph.ObtainPermanentIds | CoreDataKit/NSManagedObjectContext.swift:164 | fails exactly without a persistent store; on success the IDs are no longer temporary and the objects are unchanged |
| ObjectGraph.DeleteObject | CoreDataKit/NSManagedObjectContext.swift:228 | the object leaves the graph |
| ObjectGraph.Delete | CoreDataKit/NSManagedObjectContext.swift:226-229 | fails exactly when the permanent ID cannot be obtained, and then deletes nothing; otherwise the object is gone |
| ObjectGraph.DeleteEachStep | CoreDataKit/Importing/NSManagedObject+Importing.swift:223-231 | deleting one more member, ignoring its error, extends deleting the members before it |
| ObjectGraph.FetchBelow | CoreDataKit/Importing/NSManagedObjectContext+Importing.swift:89-90 | exactly the matching objects, in increasing ID order |
| ObjectGraph.FetchIsMatchSet | CoreDataKit/Importing/NSManagedObjectContext+Importing.swift:89-90 | the fetch returns every matching object of the graph once |
| ObjectGraph.ExecuteFetch | CoreDataKit/NSManagedObjectContext.swift:279-283 | skips `fetchOffset` matches, then returns at most `fetchLimit` (0 means no limit), in order |
| ObjectGraph.ExistingObject | CoreDataKit/NSManagedObjectContext.swift:340 | `existingObjectWithID` succeeds exactly for an object of the context |
| ImportModel.CreateObject | CoreDataKit/NSManagedObjectContext.swift:190-198 | an entity without a name gives `InvalidPropertyConfiguration` and inserts nothing; otherwise one new object with a fresh ID |
| ImportModel.DeleteIgnoringErrors | CoreDataKit/Importing/NSManagedObject+Importing.swift:244-251 | a delete whose error is ignored: the graph after `delete`, or unchanged when it fails |
| ImportModel.FindEntityByIdentifyingAttribute | CoreDataKit/Importing/NSManagedObjectContext+Importing.swift:86-108 | an identifying-attribute failure is propagated; a found object matches the identifying value |
| ImportModel.FindCountsMatches | CoreDataKit/Importing/NSManagedObjectContext+Importing.swift:89-99 | two or more matches give `UnexpectedNumberOfResults`, exactly one gives that object, none gives nil |
| ImportModel.ObjectForImport | CoreDataKit/Importing/NSManagedObjectContext+Importing.swift:70-83 | either the context is unchanged and an existing object is returned, or exactly one object is created |
| ImportModel.ObjectForImportByMatches | CoreDataKit/Importing/NSManagedObjectContext+Importing.swift:70-83 | one match is reused with nothing inserted; zero matches, or a failed lookup with several, create a new object |
| ImportModel.EntityDescriptionFor | CoreDataKit/NSManagedObjectContext.swift:207-215 | found exactly when the model has the class's entity name, else `EntityDescriptionNotFound` |
| ImportModel.ImportEntityOfClass | CoreDataKit/Importing/NSManagedObjectContext+Importing.swift:24-32 | a missing entity description is returned unchanged; otherwise the import of that entity |
| ImportModel.ImportEntity | CoreDataKit/Importing/NSManagedObjectContext+Importing.swift:35-68 | an identifying-attribute failure is returned with nothing changed; a null or absent identifying value gives `InvalidValue` with nothing created; otherwise the object is found or created by `objectForImport`, whose failure is returned as is, and the dictionary is imported into it: the state is the import's, a failed import's error is returned, a successful one returns that object; a success returns the object the last `didImport` ran on without error |
| ImportModel.ImportEntityUpserts | CoreDataKit/Importing/NSManagedObjectContext+Importing.swift:53-83 | a successful import returns the one object whose identifying attribute matches when there is exactly one, and a newly created object under the next (unused) ID when there are none or several; an entity without a name then fails with `InvalidPropertyConfiguration` and nothing changed |
| ImportModel.ImportDictionary | CoreDataKit/Importing/NSManagedObject+Importing.swift:20-38 | `shouldImport` false gives `ImportCancelled` with nothing run or written; otherwise `performImport` on the `willImport` dictionary, then exactly one `didImport` with that dictionary and the error or nil, and the error is returned |
| ImportModel.PerformImport | CoreDataKit/Importing/NSManagedObject+Importing.swift:75-99 | an object outside the context fails with `ContextNotFound` before any property is touched |
| ImportModel.ImportProperties | CoreDataKit/Importing/NSManagedObject+Importing.swift:77-94 | importing the remaining properties only adds objects and IDs |
| ImportModel.UnsupportedPropertyFails | CoreDataKit/Importing/NSManagedObject+Importing.swift:86-92 | an entity with a fetched or unknown property can never import successfully |
| ImportModel.ImportProperty | CoreDataKit/Importing/NSManagedObject+Importing.swift:79-93 | fetched and unknown properties give `InvalidPropertyConfiguration` with nothing changed |
| ImportModel.ImportAttribute | CoreDataKit/Importing/NSManagedObject+Importing.swift:121-138 | not found leaves the object unchanged; null writes nil without an optionality check; a value is written transformed, or `InvalidValue` with nothing written |
| ImportModel.ImportRelationship | CoreDataKit/Importing/NSManagedObject+Importing.swift:148-163 | a relationship without a destination entity is skipped silently |
| ImportModel.ImportReference | CoreDataKit/Importing/NSManagedObject+Importing.swift:165-185 | not found is a no-op; null clears the relation without deleting; an array gives `UnimplementedMethod` |
| ImportModel.ImportEmbedding | CoreDataKit/Importing/NSManagedObject+Importing.swift:187-209 | not found is a no-op; null deletes and clears; an array or scalar gives `UnimplementedMethod`; a dictionary creates a new object under the next ID (an unnamed destination fails with `InvalidPropertyConfiguration`, nothing changed), imports the nested dictionary into it (its failure is returned) and then sets it as the value, deleting the current one; a success links the new object |
| ImportModel.EmbeddingDeletesCurrentTarget | CoreDataKit/Importing/NSManagedObject+Importing.swift:187-192 | with a store available, a successful embedded import leaves neither the previous to-one target nor any previous to-many member in the graph |
| ImportModel.UpdateRelationship | CoreDataKit/Importing/NSManagedObject+Importing.swift:219-263 | to-many: a slot that is not a set gives `RelationshipPropertyNotFound`; members are deleted first if asked, errors ignored; a value is added, nil empties the set. To-one: the current target is deleted first if asked; a value is set; nil clears an optional relation and fails a mandatory one after the delete. Without delete nothing leaves the graph |
| ContextImporting.ImportingContext.Create | CoreDataKit/NSManagedObjectContext.swift:190-198 | `create` leaves the state `CreateObject` gives |
| ContextImporting.ImportingContext.Delete | CoreDataKit/NSManagedObjectContext.swift:226-229 | `delete` fails exactly when `ObjectGraph.Delete` does, and then deletes nothing |
| ContextImporting.ImportingContext.DeleteMembers | CoreDataKit/Importing/NSManagedObject+Importing.swift:222-232 | the loop deletes every member, ignoring errors |
| ContextImporting.ImportingContext.ObjectForImport | CoreDataKit/Importing/NSManagedObjectContext+Importing.swift:70-83 | the in-place `objectForImport` gives the result and state `ImportModel.ObjectForImport` gives |
| ContextImporting.ImportingContext.ImportEntity | CoreDataKit/Importing/NSManagedObjectContext+Importing.swift:35-68 | the in-place `importEntity` gives the result and state `ImportModel.ImportEntity` gives |
| ContextImporting.ImportingContext.ImportDictionary | CoreDataKit/Importing/NSManagedObject+Importing.swift:20-38 | the in-place `importDictionary` gives the result and state `ImportModel.ImportDictionary` gives |
| ContextImporting.ImportingContext.PerformImport | CoreDataKit/Importing/NSManagedObject+Importing.swift:75-99 | the loop over the properties stops at the first failure and keeps earlier writes, as `ImportModel.PerformImport` does |
| ContextImporting.ImportingContext.ImportProperty | CoreDataKit/Importing/NSManagedObject+Importing.swift:79-93 | the dispatch on the kind of property, as `ImportModel.ImportProperty` |
| ContextImporting.ImportingContext.ImportAttribute | CoreDataKit/Importing/NSManagedObject+Importing.swift:121-138 | the in-place attribute import, as `ImportModel.ImportAttribute` |
| ContextImporting.ImportingContext.ImportRelationship | CoreDataKit/Importing/NSManagedObject+Importing.swift:148-163 | the in-place relationship import, as `ImportModel.ImportRelationship` |
| ContextImporting.ImportingContext.ImportReference | CoreDataKit/Importing/NSManagedObject+Importing.swift:165-185 | the in-place reference import, as `ImportModel.ImportReference` |
| ContextImporting.ImportingContext.ImportEmbedding | CoreDataKit/Importing/NSManagedObject+Importing.swift:187-209 | the in-place embedding import, as `ImportModel.ImportEmbedding` |
| ContextImporting.ImportingContext.UpdateRelationship | CoreDataKit/Importing/NSManagedObject+Importing.swift:219-263 | the in-place relationship update, as `ImportModel.UpdateRelationship` |
| Contexts.RootOf | CoreDataKit/NSManagedObjectContext.swift:127-133 | following parents from a context ends at a parentless context bound to a coordinator |
| Contexts.OnChain | CoreDataKit/NSManagedObjectContext.swift:127-133 | the contexts a save to the store passes through are the context and its ancestors |
| Contexts.HasChangesIffSomeChange | CoreDataKit/NSManagedObjectContext.swift:163 | a context has changes exactly when it has an inserted, deleted or updated object |
| Contexts.ObtainPermanentIdsForInsertedObjects | CoreDataKit/NSManagedObjectContext.swift:162-166 | nothing is requested without inserted objects; fails exactly when there are some and no store; on success no inserted object keeps a temporary ID and nothing else changes |
| Contexts.ChangedObjects | CoreDataKit/NSManagedObjectContext.swift:125 | the objects a save carries are the inserted and updated ones, as they are now |
| Contexts.Push | CoreDataKit/NSManagedObjectContext.swift:125 | saving into the parent writes the changed objects, removes the deleted ones and keeps the rest |
| Contexts.PushOntoSynchronisedParent | CoreDataKit/NSManagedObjectContext.swift:125 | a parent that held the child's last-saved objects afterwards holds exactly the child's objects |
| Contexts.Save | CoreDataKit/NSManagedObjectContext.swift:125 | without changes, no-op success; fails exactly at a root with changes and no store; otherwise the context is clean, its changes are pushed to the parent, and other contexts are untouched |
| Contexts.SaveStep | CoreDataKit/NSManagedObjectContext.swift:123-125 | permanent IDs then save: fails only without a store, always succeeds with one, and leaves the context clean |
| Contexts.SaveToStore | CoreDataKit/NSManagedObjectContext.swift:121-138 | a hop on each context up to the root: succeeds when a store is available, reports the first hop's error otherwise, and touches no context below the start |
| Contexts.SaveToStoreCleansChain | CoreDataKit/NSManagedObjectContext.swift:121-138 | after a successful save to the store, no context on the chain has unsaved changes |
| Contexts.HopFailsWithoutChange | CoreDataKit/NSManagedObjectContext.swift:123-125 | when the save of a hop fails, obtaining the IDs changed nothing |
| Contexts.ChainFailsWithoutStore | CoreDataKit/NSManagedObjectContext.swift:121-138 | without a store, a context with inserted objects fails on its first hop and nothing changes |
| Contexts.TwoLevelSaveReachesStore | CoreDataKit/NSManagedObjectContext.swift:121-138 | from a child of a synchronised root with a store, the save succeeds and the store holds the child's objects |
| Contexts.RunBlock | CoreDataKit/NSManagedObjectContext.swift:79-81 | the undo group opens at the context's current objects, the block's changes land in the context, and nothing else changes |
| Contexts.Commit | CoreDataKit/NSManagedObjectContext.swift:83-110 | the completion reports the action or a store error; only the two save actions can fail |
| Contexts.PerformBlock | CoreDataKit/NSManagedObjectContext.swift:77-112 | the result is the block's action, or a store error from one of the two save actions |
| Contexts.DoNothingSavesNothing | CoreDataKit/NSManagedObjectContext.swift:84-85 | `DoNothing` keeps the block's changes unsaved and changes no other context |
| Contexts.UndoRevertsBlock | CoreDataKit/NSManagedObjectContext.swift:103-105 | `Undo` restores the objects held before the block, and earlier unsaved changes remain |
| Contexts.RollbackDiscardsUnsaved | CoreDataKit/NSManagedObjectContext.swift:107-109 | `RollbackAllChanges` restores the last-saved objects, leaving no changes |
| Contexts.SaveToParentObtainsIdsFirst | CoreDataKit/NSManagedObjectContext.swift:87-96 | an ID failure is reported with nothing saved; otherwise success exactly when the hop succeeds, leaving the context clean |
| Contexts.SaveToStoreCompletes | CoreDataKit/NSManagedObjectContext.swift:98-101 | with a store the action completes; on success the whole chain is clean |
| ContextTrees.FetchRequest.constructor | CoreDataKit/NSManagedObjectContext.swift:261 | a new fetch request has no predicate or sort, limit and offset 0, and returns faults |
| ContextTrees.CreateFetchRequest | CoreDataKit/NSManagedObjectContext.swift:260-270 | a missing limit or offset becomes 0, and objects are returned as faults |
| ContextTrees.ContextTree.NewRootContext | CoreDataKit/NSManagedObjectContext.swift:22-32 | a new private-queue context with no parent, bound to the coordinator |
| ContextTrees.ContextTree.NewChildContext | CoreDataKit/NSManagedObjectContext.swift:44-54 | a new context with the given parent and concurrency type, starting from the parent's objects |
| ContextTrees.ContextTree.CreateChildContext | CoreDataKit/NSManagedObjectContext.swift:61-63 | the new context's parent is the given one, with private-queue concurrency |
| ContextTrees.ContextTree.ObtainPermanentIDsForInsertedObjects | CoreDataKit/NSManagedObjectContext.swift:162-166 | leaves the tree `Contexts.ObtainPermanentIdsForInsertedObjects` gives |
| ContextTrees.ContextTree.Save | CoreDataKit/NSManagedObjectContext.swift:125 | leaves the tree `Contexts.Save` gives |
| ContextTrees.ContextTree.SaveHop | CoreDataKit/NSManagedObjectContext.swift:123-125 | permanent IDs then save, as `Contexts.SaveStep` |
| ContextTrees.ContextTree.SaveToPersistentStore | CoreDataKit/NSManagedObjectContext.swift:121-138 | the loop up the chain leaves the tree and result `Contexts.SaveToStore` gives |
| ContextTrees.ContextTree.PerformBlock | CoreDataKit/NSManagedObjectContext.swift:77-112 | leaves the tree and result `Contexts.PerformBlock` gives |
| ContextTrees.ContextTree.ExecuteFetchRequest | CoreDataKit/NSManagedObjectContext.swift:279-283 | the request's entity, predicate, limit and offset select the objects `ExecuteFetch` gives |
| ContextTrees.ContextTree.Find | CoreDataKit/NSManagedObjectContext.swift:370-373 | a prefix of all matches, with the offset ignored: all of them without a limit, else as many as the limit allows |
| ContextTrees.ContextTree.FindOfClass | CoreDataKit/NSManagedObjectContext.swift:355-358 | `EntityDescriptionNotFound` exactly when the class's entity name is not in the model; otherwise the untyped `find`'s prefix of the matches of that entity, offset ignored |
| ContextTrees.ContextTree.FindFirst | CoreDataKit/NSManagedObjectContext.swift:386-389 | `EntityDescriptionNotFound` exactly when the class's entity name is not in the model; otherwise some object exactly when one matches, and then the first match, whatever the offset |
| ContextTrees.ContextTree.FindById | CoreDataKit/NSManagedObjectContext.swift:329-342 | the object exactly when the context has it, else a Core Data error |
| CoreDataStacks.CoreDataStack.constructor | CoreDataKit/CoreDataStack.swift:27-31 | the stack keeps the coordinator; the root context is private-queue with no parent and the coordinator; the main context is main-queue with the root as parent |
| CoreDataStacks.MainContextSavesThroughRoot | CoreDataKit/CoreDataStack.swift:27-31 | whenever the root has no unsaved changes and the main context last saw the root's objects, a save to the store from the main context passes through the root; with a store it succeeds and the store holds the main context's objects; without one, a main context with inserted objects fails |
| CoreDataStacks.FreshStackSavesThroughRoot | CoreDataKit/CoreDataStack.swift:27-31 | right after set-up, the main context's objects reach the store when there is one, and a main context holding any object fails without one |

`ImportableValue`'s three cases (`Some`, `Null`, `None`) are constructors of one datatype, so they are distinct by construction.

## Left out
- JsonDecode.DecodeBool: Swift 2's `as? Bool` bridges any NSNumber (an integer or a double converts to a boolean); the model accepts only a boolean number.
- JsonDecode.DecodeInt: Swift 2's `as? Int` bridges any NSNumber (a double is truncated, a boolean becomes 0 or 1); the model accepts only an integer number.
- JsonDecode.DecodeDouble: Swift 2's `as? Double` bridges any NSNumber (an integer or a boolean converts); the model accepts only a double number.
- ContextTrees.ContextTree.NewChildContext: a child context is given a copy of its parent's objects when it is created and does not see the parent's later changes; Core Data fetches a child's objects from its parent on demand, so a child sees what was saved into the parent after its creation for objects it has not yet fetched.
- Concurrency. `performBlock`, `performBlockAndWait` and the hop to the parent's queue are modelled as synchronous calls. A completion handler is modelled as the returned result.
- Validation. The model's `save` fails only when a root context with changes has no persistent store. Core Data's validation errors, merge conflicts and store I/O errors are not modelled.
- Core Data's object store. A new root context starts empty rather than faulting in stored objects. Stored contents are the root context's last-saved graph.
- Delete rules and inverse relationships. Deleting an object removes only that object. Relationships pointing at it keep their IDs, so after `deleteCurrent` a to-many set can still hold deleted IDs, as Core Data keeps them until the next save.
- Numeric values of `CoreDataKitErrorCode`. The Swift files do not define their raw values, so codes are named cases.
- The localized description texts of the errors, and all logging (`CDK.sharedLogger`, `println` warnings).
- Errors.Description: a `CoreDataError` is described with the wrapped NSError's domain and code only; Swift's interpolation of an NSError also prints its localized description and its `UserInfo`.
- ObjectGraph.ObtainPermanentIds: an object keeps its ID and only leaves the set of temporary IDs; Core Data gives the object a new, permanent `NSManagedObjectID`, so the model does not capture that the object's ID changes.
- Sort descriptors. They are stored on the fetch request, but fetches return objects in ID order.
- Fetch predicates. Only "every object of the entity" and "`attribute == value`" are modelled; the identifying value is compared by structural equality, untransformed.
- The `NSDate` formatter. It is a parameter (`DateParser`) that maps a format and a string to a date or nothing.
- JsonDecode.LongLongValue: a double outside the 64-bit range saturates in Foundation; the model states the value only for in-range doubles.
- Key paths through a non-dictionary. KVC would raise or map over an array; the model reports not found.
- Hooks. `shouldImport` and `willImport` are parameters over (object ID, dictionary). `willImport` is required not to make the dictionary deeper, which bounds the recursion. `didImport` is recorded as a log of calls.
- Blocks. A block passed to `performBlock` is a function from the context's contents to new contents and a `CommitAction`. It may only add objects with fresh IDs.
- ImportModel.PerformImport, ImportModel.ImportProperties, ImportModel.ImportRelationship: their own contracts state only the error cases and monotonic growth. The full behaviour is stated by the classes' methods and the per-property members.
- ImportModel.ImportReference: the dictionary and scalar cases are stated only through `ImportModel.ImportEntity`, `FindEntityByIdentifyingAttribute` and `UpdateRelationship`, which it calls.
- CoreDataKit/Importing/NSRelationshipDescription+Importing.swift is not part of this model. It reads `CDKRelationType` through a `RelationType.fromString` that the source does not define, so the relation type is a field of the relationship description.
- CoreDataKit/Importing/CoreDataStack+Importing.swift is not part of this model. It only forwards to the context.
- `fetchedResultsController`, the `as! T` casts of `executeFetchRequest`, and `beginObtainingPermanentIDsForInsertedObjectsWhenContextWillSave`. They are UI plumbing, runtime casts and a disabled notification path.
- Default attribute values from the model. Writing nil writes nil.
- Integer widths of Integer16 and Integer32 attributes. `Int.decode` accepts any integer number; the model has one 64-bit integer kind.
- `ManagedObjectObserver`, `Observable`, the table-view delegate, `NSPersistentStore`, `NSPersistentStoreCoordinator`, `CDK` and `CoreDataKit.swift`. They are notifications, UI, file-system setup and global singletons.
