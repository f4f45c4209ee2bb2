// The import engine as it runs: a managed object context whose object graph,
// next object ID and `didImport` log are updated in place, step by step, by
// the methods of CoreDataKit/Importing/NSManagedObjectContext+Importing.swift
// and CoreDataKit/Importing/NSManagedObject+Importing.swift. Each method is
// proved to leave exactly the state, and return exactly the result, that the
// functions of ImportModel describe.

module ContextImporting {
  import opened Wrappers
  import opened Values
  import opened Errors
  import opened Schema
  import opened AttributeImporting
  import opened PropertyImporting
  import opened EntityImporting
  import opened ObjectGraph
  import opened ImportModel
  import IV = ImportableValues

  class ImportingContext {
    var graph: Graph
    var nextId: nat
    var didImports: seq<DidImportCall>

    /** The context's state as a value. */
    function State(): World
      reads this
    {
      World(graph, nextId, didImports)
    }

    constructor (w: World)
      ensures State() == w
    {
      graph := w.graph;
      nextId := w.nextId;
      didImports := w.didImports;
    }

    /** `create(entityDescription)` */
    method Create(entity: EntityDescription) returns (result: Result<ObjectId>)
      modifies this
      ensures Outcome(State(), result) == CreateObject(old(State()), entity)
    {
      if entity.name.None? {
        return Failure(KitError(InvalidPropertyConfiguration));
      }
      graph := InsertNewObject(graph, nextId, entity);
      result := Success(nextId);
      nextId := nextId + 1;
    }

    /** `delete(managedObject)`: obtain a permanent ID, then delete. */
    method Delete(id: ObjectId, storeAvailable: bool) returns (result: Result<()>)
      modifies this
      ensures nextId == old(nextId) && didImports == old(didImports)
      ensures graph == DeleteIgnoringErrors(old(graph), id, storeAvailable)
      ensures result.Success? <==> ObjectGraph.Delete(old(graph), id, storeAvailable).Success?
      ensures result.Failure? ==> result.error == ObjectGraph.Delete(old(graph), id, storeAvailable).error
    {
      var obtained := ObtainPermanentIds(graph, {id}, storeAvailable);
      if obtained.Failure? {
        return Failure(obtained.error);
      }
      graph := obtained.value;
      graph := DeleteObject(graph, id);
      result := Success(());
    }

    /** The loop of `updateRelationship` that deletes every member of a
      * to-many set, ignoring errors. */
    method DeleteMembers(members: set<ObjectId>, storeAvailable: bool)
      modifies this
      ensures nextId == old(nextId) && didImports == old(didImports)
      ensures graph == DeleteEach(old(graph), members, storeAvailable)
    {
      var remaining := members;
      while remaining != {}
        invariant remaining <= members
        invariant nextId == old(nextId) && didImports == old(didImports)
        invariant graph == DeleteEach(old(graph), members - remaining, storeAvailable)
        decreases |remaining|
      {
        var m :| m in remaining;
        DeleteEachStep(old(graph), members - remaining, m, storeAvailable);
        var ignored := Delete(m, storeAvailable);
        assert members - (remaining - {m}) == (members - remaining) + {m};
        remaining := remaining - {m};
      }
    }

    /** `objectForImport` */
    method ObjectForImport(entity: EntityDescription, value: AnyObject) returns (result: Result<ObjectId>)
      modifies this
      ensures Outcome(State(), result) == ImportModel.ObjectForImport(old(State()), entity, value)
    {
      match FindEntityByIdentifyingAttribute(State(), entity, value) {
        case Success(Some(existing)) => result := Success(existing);
        case _ => result := Create(entity);
      }
    }

    /** `importEntity(entityDescription, dictionary)` */
    method ImportEntity(env: Env, entity: EntityDescription, d: Dict) returns (result: Result<ObjectId>)
      requires HooksKeepDepth(env.hooks)
      modifies this
      ensures Outcome(State(), result) == ImportModel.ImportEntity(env, old(State()), entity, d)
      decreases DictDepth(d), 6, 0
    {
      match IdentifyingAttribute(entity) {
        case Failure(e) => return Failure(e);
        case Success(attribute) =>
          match PreferredValueFromDictionary(attribute, d) {
            case Some(value) =>
              var found := ObjectForImport(entity, value);
              if found.Failure? {
                return Failure(found.error);
              }
              var imported := ImportDictionary(env, found.value, d);
              if imported.Failure? {
                return Failure(imported.error);
              }
              return Success(found.value);
            case Null => return Failure(KitError(InvalidValue));
            case None => return Failure(KitError(InvalidValue));
          }
      }
    }

    /** `importDictionary` */
    method ImportDictionary(env: Env, obj: ObjectId, d: Dict) returns (result: Result<()>)
      requires HooksKeepDepth(env.hooks)
      modifies this
      ensures Outcome(State(), result) == ImportModel.ImportDictionary(env, old(State()), obj, d)
      decreases DictDepth(d), 5, 0
    {
      if !env.hooks.shouldImport(obj, d) {
        return Failure(KitError(CoreDataKitErrorCode.ImportCancelled));
      }
      var transformed := env.hooks.willImport(obj, d);
      result := PerformImport(env, obj, transformed);
      didImports := didImports + [DidImportCall(obj, transformed, if result.Failure? then Some(result.error) else None)];
    }

    /** `performImport`: the loop over the entity's properties. */
    method PerformImport(env: Env, obj: ObjectId, d: Dict) returns (result: Result<()>)
      requires HooksKeepDepth(env.hooks)
      modifies this
      ensures Outcome(State(), result) == ImportModel.PerformImport(env, old(State()), obj, d)
      decreases DictDepth(d), 4, 0
    {
      if obj !in graph.objects {
        return Failure(KitError(ContextNotFound));
      }
      var properties := graph.objects[obj].entity.properties;
      ghost var goal := ImportModel.PerformImport(env, State(), obj, d);
      var k := 0;
      while k < |properties|
        invariant k <= |properties|
        invariant ImportProperties(env, State(), obj, properties, k, d) == goal
        decreases |properties| - k
      {
        result := ImportProperty(env, obj, properties[k], d);
        if result.Failure? {
          return;
        }
        k := k + 1;
      }
      result := Success(());
    }

    /** The `switch` of `performImport` on the kind of property. */
    method ImportProperty(env: Env, obj: ObjectId, p: PropertyDescription, d: Dict) returns (result: Result<()>)
      requires HooksKeepDepth(env.hooks)
      modifies this
      ensures Outcome(State(), result) == ImportModel.ImportProperty(env, old(State()), obj, p, d)
      decreases DictDepth(d), 2, 0
    {
      match p {
        case AttributeDescription(_, _, _, _) => result := ImportAttribute(env, obj, p, d);
        case RelationshipDescription(_, _, _, _, _, _) => result := ImportRelationship(env, obj, p, d);
        case FetchedPropertyDescription(_, _, _) => result := Failure(KitError(InvalidPropertyConfiguration));
        case OtherPropertyDescription(_, _, _) => result := Failure(KitError(InvalidPropertyConfiguration));
      }
    }

    /** `performImportAttribute` */
    method ImportAttribute(env: Env, obj: ObjectId, a: PropertyDescription, d: Dict) returns (result: Result<()>)
      requires a.AttributeDescription?
      modifies this
      ensures Outcome(State(), result) == ImportModel.ImportAttribute(env, old(State()), obj, a, d)
    {
      match PreferredValueFromDictionary(a, d) {
        case Some(value) =>
          match TransformValue(a.attributeType, value, env.dateFromString) {
            case Some(converted) =>
              graph := SetSlot(graph, obj, a.name, Attr(converted));
              result := Success(());
            case None =>
              result := Failure(KitError(InvalidValue));
          }
        case Null =>
          graph := SetSlot(graph, obj, a.name, Nil);
          result := Success(());
        case None =>
          result := Success(());
      }
    }

    /** `performImportRelationship` */
    method ImportRelationship(env: Env, obj: ObjectId, r: PropertyDescription, d: Dict) returns (result: Result<()>)
      requires HooksKeepDepth(env.hooks)
      requires r.RelationshipDescription?
      modifies this
      ensures Outcome(State(), result) == ImportModel.ImportRelationship(env, old(State()), obj, r, d)
      decreases DictDepth(d), 1, 1
    {
      match DestinationEntity(env.model, r) {
        case None => result := Success(());
        case Some(destination) =>
          match r.relationType {
            case Reference => result := ImportReference(env, obj, r, destination, d);
            case Embedding => result := ImportEmbedding(env, obj, r, destination, d);
          }
      }
    }

    /** `performImportReferenceRelationship` */
    method ImportReference(env: Env, obj: ObjectId, r: PropertyDescription, destination: EntityDescription, d: Dict)
      returns (result: Result<()>)
      requires HooksKeepDepth(env.hooks)
      requires r.RelationshipDescription?
      modifies this
      ensures Outcome(State(), result) == ImportModel.ImportReference(env, old(State()), obj, r, destination, d)
      decreases DictDepth(d), 1, 0
    {
      match PreferredValueFromDictionary(r, d) {
        case Some(value) =>
          match value {
            case NSDictionary(nested) =>
              var upserted := ImportEntity(env, destination, nested);
              if upserted.Failure? {
                return Failure(upserted.error);
              }
              result := UpdateRelationship(env, obj, r, Some(upserted.value), false);
            case NSArray(_) =>
              result := Failure(KitError(CoreDataKitErrorCode.UnimplementedMethod));
            case _ =>
              var found := FindEntityByIdentifyingAttribute(State(), destination, value);
              if found.Failure? {
                return Failure(found.error);
              }
              result := UpdateRelationship(env, obj, r, found.value, false);
          }
        case Null => result := UpdateRelationship(env, obj, r, None, false);
        case None => result := Success(());
      }
    }

    /** `performImportEmbeddingRelationship` */
    method ImportEmbedding(env: Env, obj: ObjectId, r: PropertyDescription, destination: EntityDescription, d: Dict)
      returns (result: Result<()>)
      requires HooksKeepDepth(env.hooks)
      requires r.RelationshipDescription?
      modifies this
      ensures Outcome(State(), result) == ImportModel.ImportEmbedding(env, old(State()), obj, r, destination, d)
      decreases DictDepth(d), 1, 0
    {
      match PreferredValueFromDictionary(r, d) {
        case Some(value) =>
          match value {
            case NSDictionary(nested) =>
              var created := Create(destination);
              if created.Failure? {
                return Failure(created.error);
              }
              var imported := ImportDictionary(env, created.value, nested);
              if imported.Failure? {
                return Failure(imported.error);
              }
              result := UpdateRelationship(env, obj, r, Some(created.value), true);
            case _ =>
              result := Failure(KitError(CoreDataKitErrorCode.UnimplementedMethod));
          }
        case Null => result := UpdateRelationship(env, obj, r, None, true);
        case None => result := Success(());
      }
    }

    /** `updateRelationship` */
    method UpdateRelationship(env: Env, obj: ObjectId, r: PropertyDescription, value: Option<ObjectId>, deleteCurrent: bool)
      returns (result: Result<()>)
      requires r.RelationshipDescription?
      modifies this
      ensures Outcome(State(), result) == ImportModel.UpdateRelationship(env, old(State()), obj, r, value, deleteCurrent)
    {
      if r.toMany {
        match SlotOf(graph, obj, r.name) {
          case ToMany(members) =>
            if deleteCurrent {
              DeleteMembers(members, env.storeAvailable);
            }
            var updated := if value.Some? then members + {value.value} else {};
            graph := SetSlot(graph, obj, r.name, ToMany(updated));
            result := Success(());
          case _ =>
            result := Failure(KitError(RelationshipPropertyNotFound));
        }
      } else {
        var current := SlotOf(graph, obj, r.name);
        if deleteCurrent && current.ToOne? {
          var ignored := Delete(current.target, env.storeAvailable);
        }
        match value {
          case Some(target) =>
            graph := SetSlot(graph, obj, r.name, ToOne(target));
            result := Success(());
          case None =>
            if r.optional {
              graph := SetSlot(graph, obj, r.name, Nil);
              result := Success(());
            } else {
              result := Failure(KitError(InvalidPropertyConfiguration));
            }
        }
      }
    }
  }
}
