// The import engine of CoreDataKit/Importing/NSManagedObjectContext+Importing.swift
// and CoreDataKit/Importing/NSManagedObject+Importing.swift, as functions from
// the state of one context (its object graph, the next object ID and the log
// of `didImport` calls) to the new state and the thrown error, if any.

module ImportModel {
  import opened Wrappers
  import opened Values
  import opened Errors
  import opened ImportingTypes
  import opened Schema
  import opened JsonDecode
  import opened AttributeImporting
  import opened PropertyImporting
  import opened EntityImporting
  import opened ObjectGraph
  import opened NamedManagedObject
  import IV = ImportableValues

  /** One call of the `didImport` hook: the object, the dictionary returned by
    * `willImport`, and the error of the import (none on success). */
  datatype DidImportCall = DidImportCall(importedObject: ObjectId, dictionary: Dict, error: Option<NSError>)

  /** The state of the context an import runs in. */
  datatype World = World(graph: Graph, nextId: nat, didImports: seq<DidImportCall>)

  /** The overridable hooks of `NSManagedObject`, as seen by the import. */
  datatype Hooks = Hooks(shouldImport: (ObjectId, Dict) -> bool, willImport: (ObjectId, Dict) -> Dict)

  /** The default hooks: import everything, unchanged. */
  const DefaultHooks: Hooks := Hooks((o, d) => true, (o, d) => d)

  /** What the import depends on besides the context's state. */
  datatype Env = Env(
    model: ManagedObjectModel,
    hooks: Hooks,
    dateFromString: DateParser,
    storeAvailable: bool)

  /** The new state, and the value returned or the error thrown. */
  datatype Outcome<T> = Outcome(world: World, result: Result<T>)

  /** `willImport` never nests dictionaries more deeply (which bounds the recursion). */
  ghost predicate HooksKeepDepth(hooks: Hooks)
  {
    forall o, d :: DictDepth(hooks.willImport(o, d)) <= DictDepth(d)
  }

  /** The invariant every import step keeps: IDs are only handed out upwards,
    * the `didImport` log only grows, and no ID at or above the next one is used. */
  ghost predicate Evolves(w: World, w': World)
  {
    w.nextId <= w'.nextId && w.didImports <= w'.didImports &&
    (IdsBelow(w.graph, w.nextId) ==> IdsBelow(w'.graph, w'.nextId))
  }

  /** `create(entityDescription)`: a new object under the next ID, or
    * `InvalidPropertyConfiguration` for an entity without a name. */
  function CreateObject(w: World, entity: EntityDescription): (o: Outcome<ObjectId>)
    ensures entity.name.None? <==> o.result.Failure?
    ensures o.result.Failure? ==> o == Outcome(w, Failure(KitError(InvalidPropertyConfiguration)))
    ensures o.result.Success? ==>
      o.result.value == w.nextId && o.world.nextId == w.nextId + 1 && o.world.didImports == w.didImports &&
      o.world.graph == InsertNewObject(w.graph, w.nextId, entity)
    ensures Evolves(w, o.world)
  {
    if entity.name.None? then Outcome(w, Failure(KitError(InvalidPropertyConfiguration)))
    else
      Outcome(w.(graph := InsertNewObject(w.graph, w.nextId, entity), nextId := w.nextId + 1), Success(w.nextId))
  }

  /** `try? context.delete(object)`: the object goes when a permanent ID can
    * be obtained, and the error is dropped otherwise. */
  function DeleteIgnoringErrors(g: Graph, id: ObjectId, storeAvailable: bool): (r: Graph)
    ensures r == DeleteEach(g, {id}, storeAvailable)
  {
    match Delete(g, id, storeAvailable)
    case Success(after) => after
    case Failure(_) => g
  }

  /** `findEntityByIdentifyingAttribute`: the object whose identifying
    * attribute equals `value`; several matches are an error. */
  function FindEntityByIdentifyingAttribute(w: World, entity: EntityDescription, value: AnyObject): (r: Result<Option<ObjectId>>)
    ensures IdentifyingAttribute(entity).Failure? ==> r == Failure(IdentifyingAttribute(entity).error)
    ensures r.Success? && r.value.Some? ==>
      Matches(w.graph, r.value.value, entity, AttributeEquals(IdentifyingAttribute(entity).value.name, value))
  {
    match IdentifyingAttribute(entity)
    case Failure(e) => Failure(e)
    case Success(attribute) =>
      var found := ExecuteFetch(w.graph, w.nextId, entity, AttributeEquals(attribute.name, value), 0, 0);
      if |found| > 1 then Failure(KitError(UnexpectedNumberOfResults))
      else if |found| == 1 then
        assert found[0] in found;
        Success(Some(found[0]))
      else Success(None)
  }

  /** `objectForImport`: the existing object with that identity, or a new one
    * when there is none or the lookup fails for any reason. */
  function ObjectForImport(w: World, entity: EntityDescription, value: AnyObject): (o: Outcome<ObjectId>)
    ensures Evolves(w, o.world)
    ensures o.result.Success? ==> o.result.value in o.world.graph.objects
    ensures o.world == w || o == CreateObject(w, entity)
  {
    match FindEntityByIdentifyingAttribute(w, entity, value)
    case Success(Some(existing)) => Outcome(w, Success(existing))
    case _ => CreateObject(w, entity)
  }

  /** `entityDescription(entity)`: the model's entity named after the class. */
  function EntityDescriptionFor(model: ManagedObjectModel, classString: string): (r: Result<EntityDescription>)
    requires |Components(classString)| > 0
    ensures r.Success? <==> EntityName(classString) in model
    ensures r.Success? ==> r.value == model[EntityName(classString)]
    ensures r.Failure? ==> r.error == KitError(EntityDescriptionNotFound)
  {
    var name := EntityName(classString);
    if name in model then Success(model[name]) else Failure(KitError(EntityDescriptionNotFound))
  }

  /** `importEntity(entity, dictionary)` for a managed object class: the
    * entity is looked up by the class's entity name first. */
  function ImportEntityOfClass(env: Env, w: World, classString: string, d: Dict): (o: Outcome<ObjectId>)
    requires HooksKeepDepth(env.hooks)
    requires |Components(classString)| > 0
    ensures Evolves(w, o.world)
    ensures EntityName(classString) !in env.model ==> o == Outcome(w, Failure(KitError(EntityDescriptionNotFound)))
    ensures EntityName(classString) in env.model ==> o == ImportEntity(env, w, env.model[EntityName(classString)], d)
  {
    match EntityDescriptionFor(env.model, classString)
    case Failure(e) => Outcome(w, Failure(e))
    case Success(entity) => ImportEntity(env, w, entity, d)
  }

  /** `importEntity(entityDescription, dictionary)` */
  function ImportEntity(env: Env, w: World, entity: EntityDescription, d: Dict): (o: Outcome<ObjectId>)
    requires HooksKeepDepth(env.hooks)
    ensures Evolves(w, o.world)
    ensures IdentifyingAttribute(entity).Failure? ==> o == Outcome(w, Failure(IdentifyingAttribute(entity).error))
    ensures IdentifyingAttribute(entity).Success? && !PreferredValueFromDictionary(IdentifyingAttribute(entity).value, d).Some? ==>
      o == Outcome(w, Failure(KitError(InvalidValue)))
    // with an identity in the dictionary: find or create, then import into that object
    ensures IdentifyingAttribute(entity).Success? && PreferredValueFromDictionary(IdentifyingAttribute(entity).value, d).Some? ==>
      var found := ObjectForImport(w, entity, PreferredValueFromDictionary(IdentifyingAttribute(entity).value, d).value);
      (found.result.Failure? ==> o == found) &&
      (found.result.Success? ==>
        var imported := ImportDictionary(env, found.world, found.result.value, d);
        o.world == imported.world &&
        (o.result.Success? <==> imported.result.Success?) &&
        (o.result.Success? ==> o.result.value == found.result.value) &&
        (o.result.Failure? ==> o.result.error == imported.result.error))
    ensures o.result.Success? ==>
      |o.world.didImports| > |w.didImports| &&
      o.world.didImports[|o.world.didImports| - 1].importedObject == o.result.value &&
      o.world.didImports[|o.world.didImports| - 1].error == None
    decreases DictDepth(d), 6, 0
  {
    match IdentifyingAttribute(entity)
    case Failure(e) => Outcome(w, Failure(e))
    case Success(attribute) =>
      match PreferredValueFromDictionary(attribute, d)
      case Some(value) =>
        (var found := ObjectForImport(w, entity, value);
         match found.result
         case Failure(e) => Outcome(found.world, Failure(e))
         case Success(obj) =>
           var imported := ImportDictionary(env, found.world, obj, d);
           match imported.result
           case Success(_) => Outcome(imported.world, Success(obj))
           case Failure(e) => Outcome(imported.world, Failure(e)))
      case Null => Outcome(w, Failure(KitError(InvalidValue)))
      case None => Outcome(w, Failure(KitError(InvalidValue)))
  }

  /** `importDictionary`: asks `shouldImport`, transforms the dictionary with
    * `willImport`, performs the import and reports it to `didImport` once. */
  function ImportDictionary(env: Env, w: World, obj: ObjectId, d: Dict): (o: Outcome<()>)
    requires HooksKeepDepth(env.hooks)
    ensures Evolves(w, o.world)
    ensures !env.hooks.shouldImport(obj, d) ==> o == Outcome(w, Failure(KitError(CoreDataKitErrorCode.ImportCancelled)))
    ensures o.result.Success? ==>
      |o.world.didImports| > 0 && o.world.didImports[|o.world.didImports| - 1] == DidImportCall(obj, env.hooks.willImport(obj, d), None)
    ensures env.hooks.shouldImport(obj, d) ==>
      var performed := PerformImport(env, w, obj, env.hooks.willImport(obj, d));
      o.result == performed.result && o.world.graph == performed.world.graph && o.world.nextId == performed.world.nextId &&
      o.world.didImports == performed.world.didImports +
        [DidImportCall(obj, env.hooks.willImport(obj, d), if o.result.Failure? then Some(o.result.error) else None)]
    decreases DictDepth(d), 5, 0
  {
    if !env.hooks.shouldImport(obj, d) then
      Outcome(w, Failure(KitError(CoreDataKitErrorCode.ImportCancelled)))
    else
      var transformed := env.hooks.willImport(obj, d);
      var performed := PerformImport(env, w, obj, transformed);
      var call := DidImportCall(obj, transformed, if performed.result.Failure? then Some(performed.result.error) else None);
      Outcome(performed.world.(didImports := performed.world.didImports + [call]), performed.result)
  }

  /** `performImport`: every property of the object's entity in turn, after
    * checking that the object is registered in the context. */
  function PerformImport(env: Env, w: World, obj: ObjectId, d: Dict): (o: Outcome<()>)
    requires HooksKeepDepth(env.hooks)
    ensures Evolves(w, o.world)
    ensures obj !in w.graph.objects ==> o == Outcome(w, Failure(KitError(ContextNotFound)))
    decreases DictDepth(d), 4, 0
  {
    if obj !in w.graph.objects then Outcome(w, Failure(KitError(ContextNotFound)))
    else ImportProperties(env, w, obj, w.graph.objects[obj].entity.properties, 0, d)
  }

  /** The loop of `performImport` from property `k` on; the first failure
    * stops it, and what earlier properties wrote stays. */
  function ImportProperties(env: Env, w: World, obj: ObjectId, properties: seq<PropertyDescription>, k: nat, d: Dict): (o: Outcome<()>)
    requires HooksKeepDepth(env.hooks)
    requires k <= |properties|
    ensures Evolves(w, o.world)
    decreases DictDepth(d), 3, |properties| - k
  {
    if k == |properties| then Outcome(w, Success(()))
    else
      var step := ImportProperty(env, w, obj, properties[k], d);
      if step.result.Failure? then step
      else ImportProperties(env, step.world, obj, properties, k + 1, d)
  }

  /** The `switch` of `performImport` on the kind of property. */
  function ImportProperty(env: Env, w: World, obj: ObjectId, p: PropertyDescription, d: Dict): (o: Outcome<()>)
    requires HooksKeepDepth(env.hooks)
    ensures Evolves(w, o.world)
    ensures p.FetchedPropertyDescription? || p.OtherPropertyDescription? ==>
      o == Outcome(w, Failure(KitError(InvalidPropertyConfiguration)))
    decreases DictDepth(d), 2, 0
  {
    match p
    case AttributeDescription(_, _, _, _) => ImportAttribute(env, w, obj, p, d)
    case RelationshipDescription(_, _, _, _, _, _) => ImportRelationship(env, w, obj, p, d)
    case FetchedPropertyDescription(_, _, _) => Outcome(w, Failure(KitError(InvalidPropertyConfiguration)))
    case OtherPropertyDescription(_, _, _) => Outcome(w, Failure(KitError(InvalidPropertyConfiguration)))
  }

  /** `performImportAttribute`: a found value is converted and written (or is
    * an `InvalidValue` error), a found null is written as nil whether or not
    * the attribute is optional, and a missing value changes nothing. */
  function ImportAttribute(env: Env, w: World, obj: ObjectId, a: PropertyDescription, d: Dict): (o: Outcome<()>)
    requires a.AttributeDescription?
    ensures o.world.nextId == w.nextId && o.world.didImports == w.didImports
    ensures o.world.graph.objects.Keys == w.graph.objects.Keys && o.world.graph.temporaryIds == w.graph.temporaryIds
    ensures PreferredValueFromDictionary(a, d).None? ==> o == Outcome(w, Success(()))
    ensures PreferredValueFromDictionary(a, d).Null? ==>
      o == Outcome(w.(graph := SetSlot(w.graph, obj, a.name, Nil)), Success(()))
    ensures PreferredValueFromDictionary(a, d).Some? ==>
      var converted := TransformValue(a.attributeType, PreferredValueFromDictionary(a, d).value, env.dateFromString);
      (o.result.Success? <==> converted.Some?) &&
      (o.result.Failure? ==> o == Outcome(w, Failure(KitError(InvalidValue)))) &&
      (o.result.Success? ==> o.world.graph == SetSlot(w.graph, obj, a.name, Attr(converted.value)) &&
                             Stores(a.attributeType, converted.value))
  {
    match PreferredValueFromDictionary(a, d)
    case Some(value) =>
      (match TransformValue(a.attributeType, value, env.dateFromString)
       case Some(converted) => Outcome(w.(graph := SetSlot(w.graph, obj, a.name, Attr(converted))), Success(()))
       case None => Outcome(w, Failure(KitError(InvalidValue))))
    case Null => Outcome(w.(graph := SetSlot(w.graph, obj, a.name, Nil)), Success(()))
    case None => Outcome(w, Success(()))
  }

  /** `performImportRelationship`: without a destination entity the error is
    * built but not thrown, so the relationship is skipped. */
  function ImportRelationship(env: Env, w: World, obj: ObjectId, r: PropertyDescription, d: Dict): (o: Outcome<()>)
    requires HooksKeepDepth(env.hooks)
    requires r.RelationshipDescription?
    ensures Evolves(w, o.world)
    ensures DestinationEntity(env.model, r).None? ==> o == Outcome(w, Success(()))
    decreases DictDepth(d), 1, 1
  {
    match DestinationEntity(env.model, r)
    case None => Outcome(w, Success(()))
    case Some(destination) =>
      match r.relationType
      case Reference => ImportReference(env, w, obj, r, destination, d)
      case Embedding => ImportEmbedding(env, w, obj, r, destination, d)
  }

  /** `performImportReferenceRelationship`: link to an upserted or looked-up
    * object; never delete. */
  function ImportReference(env: Env, w: World, obj: ObjectId, r: PropertyDescription, destination: EntityDescription, d: Dict): (o: Outcome<()>)
    requires HooksKeepDepth(env.hooks)
    requires r.RelationshipDescription?
    ensures Evolves(w, o.world)
    ensures PreferredValueFromDictionary(r, d).None? ==> o == Outcome(w, Success(()))
    ensures PreferredValueFromDictionary(r, d).Null? ==> o == UpdateRelationship(env, w, obj, r, None, false)
    ensures PreferredValueFromDictionary(r, d).Some? && PreferredValueFromDictionary(r, d).value.NSArray? ==>
      o == Outcome(w, Failure(KitError(CoreDataKitErrorCode.UnimplementedMethod)))
    decreases DictDepth(d), 1, 0
  {
    match PreferredValueFromDictionary(r, d)
    case Some(value) =>
      (match value
       case NSDictionary(nested) =>
         var upserted := ImportEntity(env, w, destination, nested);
         (match upserted.result
          case Success(target) => UpdateRelationship(env, upserted.world, obj, r, Some(target), false)
          case Failure(e) => Outcome(upserted.world, Failure(e)))
       case NSArray(_) => Outcome(w, Failure(KitError(CoreDataKitErrorCode.UnimplementedMethod)))
       case _ =>
         match FindEntityByIdentifyingAttribute(w, destination, value)
         case Success(found) => UpdateRelationship(env, w, obj, r, found, false)
         case Failure(e) => Outcome(w, Failure(e)))
    case Null => UpdateRelationship(env, w, obj, r, None, false)
    case None => Outcome(w, Success(()))
  }

  /** `performImportEmbeddingRelationship`: a nested dictionary always becomes
    * a new object, which replaces (and deletes) the current one. */
  function ImportEmbedding(env: Env, w: World, obj: ObjectId, r: PropertyDescription, destination: EntityDescription, d: Dict): (o: Outcome<()>)
    requires HooksKeepDepth(env.hooks)
    requires r.RelationshipDescription?
    ensures Evolves(w, o.world)
    ensures PreferredValueFromDictionary(r, d).None? ==> o == Outcome(w, Success(()))
    ensures PreferredValueFromDictionary(r, d).Null? ==> o == UpdateRelationship(env, w, obj, r, None, true)
    ensures PreferredValueFromDictionary(r, d).Some? && !PreferredValueFromDictionary(r, d).value.NSDictionary? ==>
      o == Outcome(w, Failure(KitError(CoreDataKitErrorCode.UnimplementedMethod)))
    // a nested dictionary: create, import the dictionary into the new object,
    // then make it the value, deleting the current one
    ensures PreferredValueFromDictionary(r, d).Some? && PreferredValueFromDictionary(r, d).value.NSDictionary? ==>
      var created := CreateObject(w, destination);
      var imported := ImportDictionary(env, created.world, w.nextId, PreferredValueFromDictionary(r, d).value.entries);
      (destination.name.None? ==> o == Outcome(w, Failure(KitError(InvalidPropertyConfiguration)))) &&
      (destination.name.Some? && imported.result.Failure? ==> o == Outcome(imported.world, Failure(imported.result.error))) &&
      (destination.name.Some? && imported.result.Success? ==> o == UpdateRelationship(env, imported.world, obj, r, Some(w.nextId), true))
    ensures PreferredValueFromDictionary(r, d).Some? && PreferredValueFromDictionary(r, d).value.NSDictionary? && o.result.Success? ==>
      destination.name.Some? && w.nextId < o.world.nextId &&
      (obj in o.world.graph.objects ==> Links(SlotOf(o.world.graph, obj, r.name), w.nextId))
    decreases DictDepth(d), 1, 0
  {
    match PreferredValueFromDictionary(r, d)
    case Some(value) =>
      (match value
       case NSDictionary(nested) =>
         var created := CreateObject(w, destination);
         (match created.result
          case Success(target) =>
            var imported := ImportDictionary(env, created.world, target, nested);
            (match imported.result
             case Success(_) => UpdateRelationship(env, imported.world, obj, r, Some(target), true)
             case Failure(e) => Outcome(imported.world, Failure(e)))
          case Failure(e) => Outcome(created.world, Failure(e)))
       case _ => Outcome(w, Failure(KitError(CoreDataKitErrorCode.UnimplementedMethod))))
    case Null => UpdateRelationship(env, w, obj, r, None, true)
    case None => Outcome(w, Success(()))
  }

  /** Whether a relationship value refers to `target`. */
  predicate Links(s: Slot, target: ObjectId)
  {
    s == ToOne(target) || (s.ToMany? && target in s.targets)
  }

  /** `updateRelationship` */
  function UpdateRelationship(env: Env, w: World, obj: ObjectId, r: PropertyDescription, value: Option<ObjectId>, deleteCurrent: bool): (o: Outcome<()>)
    requires r.RelationshipDescription?
    ensures o.world.nextId == w.nextId && o.world.didImports == w.didImports
    ensures Evolves(w, o.world)
    // to-many: the value must be a set
    ensures r.toMany && !SlotOf(w.graph, obj, r.name).ToMany? ==>
      o == Outcome(w, Failure(KitError(RelationshipPropertyNotFound)))
    ensures r.toMany && SlotOf(w.graph, obj, r.name).ToMany? ==>
      var members := SlotOf(w.graph, obj, r.name).targets;
      var remaining := if deleteCurrent then DeleteEach(w.graph, members, env.storeAvailable) else w.graph;
      o.result.Success? &&
      o.world.graph == SetSlot(remaining, obj, r.name, ToMany(if value.Some? then members + {value.value} else {}))
    // to-one: the current target is deleted first when asked
    ensures !r.toMany ==>
      var current := SlotOf(w.graph, obj, r.name);
      var remaining := if deleteCurrent && current.ToOne? then DeleteIgnoringErrors(w.graph, current.target, env.storeAvailable) else w.graph;
      (value.Some? ==> o == Outcome(w.(graph := SetSlot(remaining, obj, r.name, ToOne(value.value))), Success(()))) &&
      (value.None? && r.optional ==> o == Outcome(w.(graph := SetSlot(remaining, obj, r.name, Nil)), Success(()))) &&
      (value.None? && !r.optional ==> o == Outcome(w.(graph := remaining), Failure(KitError(InvalidPropertyConfiguration))))
    ensures !deleteCurrent ==> o.world.graph.objects.Keys == w.graph.objects.Keys
    ensures o.result.Success? && value.Some? && obj in o.world.graph.objects ==>
      Links(SlotOf(o.world.graph, obj, r.name), value.value)
  {
    if r.toMany then
      match SlotOf(w.graph, obj, r.name)
      case ToMany(members) =>
        var remaining := if deleteCurrent then DeleteEach(w.graph, members, env.storeAvailable) else w.graph;
        var updated := if value.Some? then members + {value.value} else {};
        Outcome(w.(graph := SetSlot(remaining, obj, r.name, ToMany(updated))), Success(()))
      case _ => Outcome(w, Failure(KitError(RelationshipPropertyNotFound)))
    else
      var current := SlotOf(w.graph, obj, r.name);
      var remaining := if deleteCurrent && current.ToOne? then DeleteIgnoringErrors(w.graph, current.target, env.storeAvailable) else w.graph;
      match value
      case Some(target) => Outcome(w.(graph := SetSlot(remaining, obj, r.name, ToOne(target))), Success(()))
      case None =>
        if r.optional then Outcome(w.(graph := SetSlot(remaining, obj, r.name, Nil)), Success(()))
        else Outcome(w.(graph := remaining), Failure(KitError(InvalidPropertyConfiguration)))
  }

  /** `findEntityByIdentifyingAttribute` against the set of matching objects:
    * an error for more than one, that object for exactly one, nil for none. */
  lemma FindCountsMatches(w: World, entity: EntityDescription, value: AnyObject)
    requires IdsBelow(w.graph, w.nextId)
    requires IdentifyingAttribute(entity).Success?
    ensures var matches := MatchSet(w.graph, entity, AttributeEquals(IdentifyingAttribute(entity).value.name, value));
      var r := FindEntityByIdentifyingAttribute(w, entity, value);
      (|matches| > 1 <==> r == Failure(KitError(UnexpectedNumberOfResults))) &&
      (|matches| == 1 <==> r.Success? && r.value.Some?) &&
      (r.Success? && r.value.Some? ==> matches == {r.value.value}) &&
      (|matches| == 0 <==> r == Success(None))
  {
    var filter := AttributeEquals(IdentifyingAttribute(entity).value.name, value);
    FetchIsMatchSet(w.graph, w.nextId, entity, filter);
    var found := FetchBelow(w.graph, w.nextId, entity, filter);
    if |found| == 1 {
      forall x | x in MatchSet(w.graph, entity, filter) ensures x == found[0] {
        assert x in found;
      }
      assert found[0] in MatchSet(w.graph, entity, filter);
    }
  }

  /** `objectForImport`: the one object with the identity is reused with
    * nothing inserted; with none, and also with several (the lookup error is
    * swallowed), a new object is created under the next ID. */
  lemma ObjectForImportByMatches(w: World, entity: EntityDescription, value: AnyObject)
    requires IdsBelow(w.graph, w.nextId)
    requires IdentifyingAttribute(entity).Success?
    ensures var matches := MatchSet(w.graph, entity, AttributeEquals(IdentifyingAttribute(entity).value.name, value));
      var o := ObjectForImport(w, entity, value);
      (|matches| == 1 ==> o.world == w && o.result.Success? && matches == {o.result.value}) &&
      (|matches| != 1 ==> o == CreateObject(w, entity)) &&
      (|matches| != 1 && entity.name.Some? ==>
        o.result == Success(w.nextId) && w.nextId !in w.graph.objects &&
        o.world.graph.objects.Keys == w.graph.objects.Keys + {w.nextId})
  {
    FindCountsMatches(w, entity, value);
  }

  /** `importEntity` upserts: a successful import returns the one object
    * with the dictionary's identity when there is exactly one, and a new
    * object under the next ID otherwise. */
  lemma ImportEntityUpserts(env: Env, w: World, entity: EntityDescription, d: Dict)
    requires HooksKeepDepth(env.hooks)
    requires IdsBelow(w.graph, w.nextId)
    requires IdentifyingAttribute(entity).Success?
    requires PreferredValueFromDictionary(IdentifyingAttribute(entity).value, d).Some?
    ensures var value := PreferredValueFromDictionary(IdentifyingAttribute(entity).value, d).value;
      var matches := MatchSet(w.graph, entity, AttributeEquals(IdentifyingAttribute(entity).value.name, value));
      var o := ImportEntity(env, w, entity, d);
      (|matches| == 1 && o.result.Success? ==> matches == {o.result.value}) &&
      (|matches| != 1 && o.result.Success? ==> o.result.value == w.nextId && w.nextId !in w.graph.objects) &&
      (|matches| != 1 && entity.name.None? ==> o == Outcome(w, Failure(KitError(InvalidPropertyConfiguration))))
  {
    ObjectForImportByMatches(w, entity, PreferredValueFromDictionary(IdentifyingAttribute(entity).value, d).value);
  }

  /** An embedded dictionary replaces the relationship's value: once the
    * store can hand out permanent IDs, the object held before (to-one) or
    * every object held before (to-many) is gone after a successful import. */
  lemma EmbeddingDeletesCurrentTarget(env: Env, w: World, obj: ObjectId, r: PropertyDescription, destination: EntityDescription, d: Dict)
    requires HooksKeepDepth(env.hooks)
    requires r.RelationshipDescription?
    requires env.storeAvailable
    requires PreferredValueFromDictionary(r, d).Some? && PreferredValueFromDictionary(r, d).value.NSDictionary?
    ensures var created := CreateObject(w, destination);
      var imported := ImportDictionary(env, created.world, w.nextId, PreferredValueFromDictionary(r, d).value.entries);
      var current := SlotOf(imported.world.graph, obj, r.name);
      var o := ImportEmbedding(env, w, obj, r, destination, d);
      o.result.Success? ==>
        (!r.toMany && current.ToOne? ==> current.target !in o.world.graph.objects) &&
        (r.toMany ==> current.ToMany? && forall m :: m in current.targets ==> m !in o.world.graph.objects)
  {
  }

  /** A fetched or unknown property kind anywhere in the entity makes the
    * import fail: either an earlier property fails, or the loop reaches it. */
  lemma {:induction false} UnsupportedPropertyFails(env: Env, w: World, obj: ObjectId, properties: seq<PropertyDescription>, k: nat, j: nat, d: Dict)
    requires HooksKeepDepth(env.hooks)
    requires k <= j < |properties|
    requires properties[j].FetchedPropertyDescription? || properties[j].OtherPropertyDescription?
    ensures ImportProperties(env, w, obj, properties, k, d).result.Failure?
    decreases j - k
  {
    var step := ImportProperty(env, w, obj, properties[k], d);
    if step.result.Success? {
      UnsupportedPropertyFails(env, step.world, obj, properties, k + 1, j, d);
    }
  }
}
