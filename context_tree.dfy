// The managed object contexts of CoreDataKit/NSManagedObjectContext.swift as
// a mutable tree: creating root and child contexts, obtaining permanent IDs,
// saving one hop or all the way to the store, running a block with its commit
// action, and building and executing fetch requests. Every state-changing
// method is proved to leave the tree the functions of Contexts describe.

module ContextTrees {
  import opened Wrappers
  import opened Errors
  import opened Schema
  import opened ObjectGraph
  import opened ImportModel
  import opened Contexts
  import opened NamedManagedObject

  /** A sort descriptor: a key and a direction. Fetches keep ID order. */
  datatype SortDescriptor = SortDescriptor(key: string, ascending: bool)

  /** `NSFetchRequest` */
  class FetchRequest {
    var entity: EntityDescription
    var filter: Option<Predicate>
    var sortDescriptors: Option<seq<SortDescriptor>>
    var fetchLimit: nat
    var fetchOffset: nat
    var returnsObjectsAsFaults: bool

    /** A request for `entity` with Core Data's defaults. */
    constructor (entity: EntityDescription)
      ensures this.entity == entity && filter == None && sortDescriptors == None
      ensures fetchLimit == 0 && fetchOffset == 0 && returnsObjectsAsFaults
    {
      this.entity := entity;
      filter := None;
      sortDescriptors := None;
      fetchLimit := 0;
      fetchOffset := 0;
      returnsObjectsAsFaults := true;
    }
  }

  /** The predicate a fetch applies: none means every object of the entity. */
  function FilterOf(filter: Option<Predicate>): Predicate
  {
    if filter.Some? then filter.value else All
  }

  /** `createFetchRequest`: a missing limit or offset becomes 0, and objects
    * are returned as faults. */
  method CreateFetchRequest(
    entity: EntityDescription, filter: Option<Predicate>, sortDescriptors: Option<seq<SortDescriptor>>,
    limit: Option<nat>, offset: Option<nat>)
    returns (request: FetchRequest)
    ensures fresh(request)
    ensures request.entity == entity && request.filter == filter && request.sortDescriptors == sortDescriptors
    ensures request.fetchLimit == (if limit.Some? then limit.value else 0)
    ensures request.fetchOffset == (if offset.Some? then offset.value else 0)
    ensures request.returnsObjectsAsFaults
  {
    request := new FetchRequest(entity);
    request.filter := filter;
    request.sortDescriptors := sortDescriptors;
    request.fetchLimit := if limit.Some? then limit.value else 0;
    request.fetchOffset := if offset.Some? then offset.value else 0;
    request.returnsObjectsAsFaults := true;
  }

  class ContextTree {
    var contexts: seq<Ctx>
    var nextId: nat
    var didImports: seq<DidImportCall>

    /** The tree as a value. */
    function State(): Tree
      reads this
    {
      Tree(contexts, nextId, didImports)
    }

    ghost predicate Valid()
      reads this
    {
      Contexts.Valid(State())
    }

    /** A tree without contexts. */
    constructor ()
      ensures State() == Tree([], 0, []) && Valid()
    {
      contexts := [];
      nextId := 0;
      didImports := [];
    }

    /** `init(persistentStoreCoordinator:)`: a private-queue context with no
      * parent, bound to the coordinator. */
    method NewRootContext(coordinator: PersistentStoreCoordinator) returns (i: nat)
      requires Valid()
      modifies this
      ensures Valid() && i == |old(contexts)|
      ensures contexts == old(contexts) + [Ctx(None, Some(coordinator), PrivateQueueConcurrencyType, EmptyGraph, EmptyGraph, EmptyGraph)]
      ensures nextId == old(nextId) && didImports == old(didImports)
    {
      i := |contexts|;
      contexts := contexts + [Ctx(None, Some(coordinator), PrivateQueueConcurrencyType, EmptyGraph, EmptyGraph, EmptyGraph)];
    }

    /** `init(concurrencyType:parentContext:)`: a context whose parent is
      * `parent` and which starts from the parent's objects. */
    method NewChildContext(concurrencyType: ConcurrencyType, parent: nat) returns (i: nat)
      requires Valid() && parent < |contexts|
      modifies this
      ensures Valid() && i == |old(contexts)|
      ensures var g := old(contexts)[parent].graph;
        contexts == old(contexts) + [Ctx(Some(parent), None, concurrencyType, g, g, g)]
      ensures nextId == old(nextId) && didImports == old(didImports)
    {
      i := |contexts|;
      var g := contexts[parent].graph;
      contexts := contexts + [Ctx(Some(parent), None, concurrencyType, g, g, g)];
    }

    /** `createChildContext()`: a private-queue child of `parent`. */
    method CreateChildContext(parent: nat) returns (i: nat)
      requires Valid() && parent < |contexts|
      modifies this
      ensures Valid() && i == |old(contexts)| && i < |contexts|
      ensures contexts[i].parent == Some(parent) && contexts[i].concurrencyType == PrivateQueueConcurrencyType
      ensures contexts[..i] == old(contexts) && nextId == old(nextId) && didImports == old(didImports)
    {
      i := NewChildContext(PrivateQueueConcurrencyType, parent);
    }

    /** `obtainPermanentIDsForInsertedObjects()` */
    method ObtainPermanentIDsForInsertedObjects(i: nat) returns (result: Result<()>)
      requires Valid() && i < |contexts|
      modifies this
      ensures Valid()
      ensures Committed(State(), result) == Settle(old(State()), ObtainPermanentIdsForInsertedObjects(old(State()), i))
    {
      var c := contexts[i];
      var inserted := InsertedIds(c);
      if inserted == {} {
        return Success(());
      }
      match ObtainPermanentIds(c.graph, inserted, StoreAvailable(State(), i)) {
        case Success(g) =>
          contexts := contexts[i := c.(graph := g)];
          result := Success(());
        case Failure(e) =>
          result := Failure(e);
      }
    }

    /** `save()` */
    method Save(i: nat) returns (result: Result<()>)
      requires Valid() && i < |contexts|
      modifies this
      ensures Valid()
      ensures Committed(State(), result) == Settle(old(State()), Contexts.Save(old(State()), i))
    {
      var c := contexts[i];
      if !HasChanges(c) {
        return Success(());
      }
      match c.parent {
        case None =>
          if !StoreAvailable(State(), i) {
            return Failure(CocoaError(CoreDataGeneralError));
          }
          contexts := contexts[i := c.(saved := c.graph)];
        case Some(p) =>
          var parent := contexts[p];
          contexts := contexts[p := parent.(graph := Push(parent.graph, c))];
          contexts := contexts[i := c.(saved := c.graph)];
      }
      result := Success(());
    }

    /** Permanent IDs, then `save()`, on one context. */
    method SaveHop(i: nat) returns (result: Result<()>)
      requires Valid() && i < |contexts|
      modifies this
      ensures Valid()
      ensures Committed(State(), result) == Settle(old(State()), SaveStep(old(State()), i))
    {
      result := ObtainPermanentIDsForInsertedObjects(i);
      if result.Failure? {
        return;
      }
      HopFailsWithoutChange(old(State()), i);
      result := Save(i);
    }

    /** `saveToPersistentStore`: a hop on each context from `i` up to the root. */
    method SaveToPersistentStore(i: nat) returns (result: Result<()>)
      requires Valid() && i < |contexts|
      modifies this
      ensures Valid()
      ensures Committed(State(), result) == SaveToStore(old(State()), i)
    {
      var current: nat := i;
      while true
        invariant Valid() && current < |contexts|
        invariant SaveToStore(State(), current) == SaveToStore(old(State()), i)
        decreases current
      {
        ghost var before := State();
        result := SaveHop(current);
        if result.Failure? {
          return;
        }
        SameShapeSameChains(before, State(), current);
        match contexts[current].parent {
          case None =>
            return;
          case Some(p) =>
            current := p;
        }
      }
    }

    /** `performBlock`: the block runs inside one undo group, then the commit
      * action it returns is carried out. */
    method PerformBlock(i: nat, block: Block) returns (result: Result<CommitAction>)
      requires Valid() && i < |contexts|
      requires BlockEvolves(block)
      modifies this
      ensures Valid()
      ensures Committed(State(), result) == Contexts.PerformBlock(old(State()), i, block)
    {
      // beginUndoGrouping
      var c := contexts[i];
      contexts := contexts[i := c.(undoMark := c.graph)];
      var ran := block(World(contexts[i].graph, nextId, didImports));
      contexts := contexts[i := contexts[i].(graph := ran.0.graph)];
      nextId := ran.0.nextId;
      didImports := ran.0.didImports;
      // endUndoGrouping
      assert State() == RunBlock(old(State()), i, block);
      var action := ran.1;
      match action {
        case DoNothing =>
          result := Success(action);
        case SaveToParentContext =>
          var hop := SaveHop(i);
          result := if hop.Success? then Success(action) else Failure(hop.error);
        case SaveToPersistentStore =>
          var stored := SaveToPersistentStore(i);
          result := if stored.Success? then Success(action) else Failure(stored.error);
        case Undo =>
          contexts := contexts[i := contexts[i].(graph := contexts[i].undoMark)];
          result := Success(action);
        case RollbackAllChanges =>
          contexts := contexts[i := contexts[i].(graph := contexts[i].saved)];
          result := Success(action);
      }
    }

    /** Executes a fetch request on context `i`. */
    method ExecuteFetchRequest(i: nat, request: FetchRequest) returns (r: seq<ObjectId>)
      requires i < |contexts|
      ensures r == ExecuteFetch(contexts[i].graph, nextId, request.entity, FilterOf(request.filter),
                                request.fetchLimit, request.fetchOffset)
    {
      r := ExecuteFetch(contexts[i].graph, nextId, request.entity, FilterOf(request.filter),
                        request.fetchLimit, request.fetchOffset);
    }

    /** `find(entityDescription, predicate:, sortDescriptors:, limit:, offset:)`:
      * the offset is not passed on to the request, so no match is skipped. */
    method Find(
      i: nat, entity: EntityDescription, filter: Option<Predicate>, sortDescriptors: Option<seq<SortDescriptor>>,
      limit: Option<nat>, offset: Option<nat>)
      returns (r: seq<ObjectId>)
      requires i < |contexts|
      ensures var all := FetchBelow(contexts[i].graph, nextId, entity, FilterOf(filter));
        r <= all && (limit.None? || limit.value == 0 ==> r == all) &&
        (limit.Some? && limit.value > 0 ==> |r| == if |all| <= limit.value then |all| else limit.value)
    {
      var request := CreateFetchRequest(entity, filter, sortDescriptors, limit, None);
      r := ExecuteFetchRequest(i, request);
      ghost var all := FetchBelow(contexts[i].graph, nextId, entity, FilterOf(filter));
      assert r == all[..|r|];
    }

    /** `find(entity: T.Type, ...)`: the entity is looked up by the class's
      * entity name in the context's model first; then as the untyped `find`. */
    method FindOfClass(
      i: nat, model: ManagedObjectModel, classString: string, filter: Option<Predicate>,
      sortDescriptors: Option<seq<SortDescriptor>>, limit: Option<nat>, offset: Option<nat>)
      returns (r: Result<seq<ObjectId>>)
      requires i < |contexts|
      requires |Components(classString)| > 0
      ensures EntityName(classString) !in model <==> r == Failure(KitError(EntityDescriptionNotFound))
      ensures EntityName(classString) in model ==>
        r.Success? &&
        var all := FetchBelow(contexts[i].graph, nextId, model[EntityName(classString)], FilterOf(filter));
        r.value <= all && (limit.None? || limit.value == 0 ==> r.value == all) &&
        (limit.Some? && limit.value > 0 ==> |r.value| == if |all| <= limit.value then |all| else limit.value)
    {
      var entity := EntityDescriptionFor(model, classString);
      if entity.Failure? {
        r := Failure(entity.error);
      } else {
        var objects := Find(i, entity.value, filter, sortDescriptors, limit, offset);
        r := Success(objects);
      }
    }

    /** `findFirst`: the entity lookup of the typed `find`, then the matching
      * object with the smallest ID, whatever the offset. */
    method FindFirst(
      i: nat, model: ManagedObjectModel, classString: string, filter: Option<Predicate>,
      sortDescriptors: Option<seq<SortDescriptor>>, offset: Option<nat>)
      returns (r: Result<Option<ObjectId>>)
      requires i < |contexts|
      requires |Components(classString)| > 0
      ensures EntityName(classString) !in model <==> r == Failure(KitError(EntityDescriptionNotFound))
      ensures EntityName(classString) in model ==>
        r.Success? &&
        var entity := model[EntityName(classString)];
        (r.value.Some? <==> exists id: nat :: id < nextId && Matches(contexts[i].graph, id, entity, FilterOf(filter))) &&
        (r.value.Some? ==>
          r.value.value < nextId && Matches(contexts[i].graph, r.value.value, entity, FilterOf(filter)) &&
          forall id: nat :: id < r.value.value ==> !Matches(contexts[i].graph, id, entity, FilterOf(filter)))
    {
      var objects := FindOfClass(i, model, classString, filter, sortDescriptors, Some(1), offset);
      if objects.Failure? {
        r := Failure(objects.error);
      } else {
        ghost var entity := model[EntityName(classString)];
        ghost var all := FetchBelow(contexts[i].graph, nextId, entity, FilterOf(filter));
        if |objects.value| == 0 {
          r := Success(None);
          assert all == [];
        } else {
          r := Success(Some(objects.value[0]));
          assert objects.value[0] == all[0] && all[0] in all;
        }
      }
    }

    /** `find(entity, managedObjectID:)`: the object with that ID in context `i`. */
    method FindById(i: nat, id: ObjectId) returns (r: Result<ObjectId>)
      requires i < |contexts|
      ensures r.Success? <==> id in contexts[i].graph.objects
      ensures r.Success? ==> r.value == id
      ensures r.Failure? ==> r.error == CocoaError(ManagedObjectReferentialIntegrityError)
    {
      r := ExistingObject(contexts[i].graph, id);
    }
  }
}
