// The objects a managed object context holds, seen as a value: managed
// objects by object ID with their property values, the set of IDs that are
// still temporary, and the context primitives CoreDataKit builds on
// (CoreDataKit/NSManagedObjectContext.swift): inserting a new object,
// obtaining permanent IDs, deleting, and executing a fetch request.

module ObjectGraph {
  import opened Wrappers
  import opened Values
  import opened Errors
  import opened Schema

  /** An `NSManagedObjectID`. IDs are handed out in increasing order. */
  type ObjectId = nat

  /** What `valueForKeyPath(name)` gives for a property of an object. */
  datatype Slot =
    | Nil
    | Attr(value: AnyObject)
    | ToOne(target: ObjectId)
    | ToMany(targets: set<ObjectId>)

  datatype ManagedObject = ManagedObject(entity: EntityDescription, slots: map<string, Slot>)

  /** The registered objects of a context and which of their IDs are temporary. */
  datatype Graph = Graph(objects: map<ObjectId, ManagedObject>, temporaryIds: set<ObjectId>)

  const EmptyGraph: Graph := Graph(map[], {})

  /** Every registered or temporary ID is below `bound` (the next ID to hand out). */
  predicate IdsBelow(g: Graph, bound: nat)
  {
    (forall id :: id in g.objects ==> id < bound) &&
    (forall id :: id in g.temporaryIds ==> id < bound)
  }

  /** `valueForKeyPath(name)` on a registered object; `Nil` when unset. */
  function SlotOf(g: Graph, id: ObjectId, key: string): (s: Slot)
    ensures s != Nil ==> id in g.objects && key in g.objects[id].slots && g.objects[id].slots[key] == s
  {
    if id in g.objects && key in g.objects[id].slots then g.objects[id].slots[key] else Nil
  }

  /** `setValue(_, forKeyPath: key)` on a registered object; nothing happens
    * to an object that is not registered. */
  function SetSlot(g: Graph, id: ObjectId, key: string, s: Slot): (r: Graph)
    ensures r.objects.Keys == g.objects.Keys && r.temporaryIds == g.temporaryIds
    ensures id in g.objects ==> SlotOf(r, id, key) == s
    ensures forall other, k :: (other != id || k != key) ==> SlotOf(r, other, k) == SlotOf(g, other, k)
    ensures forall other :: other in g.objects ==> r.objects[other].entity == g.objects[other].entity
  {
    if id in g.objects then
      g.(objects := g.objects[id := g.objects[id].(slots := g.objects[id].slots[key := s])])
    else g
  }

  /** The property values of a freshly inserted object: every to-many
    * relationship holds an empty mutable set, everything else is unset. */
  function InitialSlots(properties: seq<PropertyDescription>): (m: map<string, Slot>)
    ensures forall key :: key in m ==> m[key] == ToMany({})
    ensures forall p :: p in properties && p.RelationshipDescription? && p.toMany ==> p.name in m
  {
    if |properties| == 0 then map[]
    else
      var rest := InitialSlots(properties[1..]);
      var p := properties[0];
      if p.RelationshipDescription? && p.toMany then rest[p.name := ToMany({})] else rest
  }

  /** `insertNewObjectForEntityForName`: registers a new object under `id`
    * with a temporary ID. */
  function InsertNewObject(g: Graph, id: ObjectId, entity: EntityDescription): (r: Graph)
    ensures r.objects == g.objects[id := ManagedObject(entity, InitialSlots(entity.properties))]
    ensures r.temporaryIds == g.temporaryIds + {id}
  {
    Graph(g.objects[id := ManagedObject(entity, InitialSlots(entity.properties))], g.temporaryIds + {id})
  }

  /** `obtainPermanentIDsForObjects`: fails when no persistent store is
    * reachable; otherwise the given IDs stop being temporary. */
  function ObtainPermanentIds(g: Graph, ids: set<ObjectId>, storeAvailable: bool): (r: Result<Graph>)
    ensures r.Failure? <==> !storeAvailable
    ensures r.Failure? ==> r.error == CocoaError(CoreDataGeneralError)
    ensures r.Success? ==> r.value.objects == g.objects && r.value.temporaryIds == g.temporaryIds - ids
  {
    if storeAvailable then Success(g.(temporaryIds := g.temporaryIds - ids))
    else Failure(CocoaError(CoreDataGeneralError))
  }

  /** `deleteObject`: the object is no longer registered. Relationships that
    * point at it are left as they are. */
  function DeleteObject(g: Graph, id: ObjectId): (r: Graph)
    ensures r.objects == g.objects - {id} && r.temporaryIds == g.temporaryIds - {id}
  {
    Graph(g.objects - {id}, g.temporaryIds - {id})
  }

  /** `delete(managedObject)`: first a permanent ID for the object, then
    * `deleteObject`; when the ID cannot be obtained nothing is deleted. */
  function Delete(g: Graph, id: ObjectId, storeAvailable: bool): (r: Result<Graph>)
    ensures r.Failure? <==> !storeAvailable
    ensures r.Failure? ==> r.error == CocoaError(CoreDataGeneralError)
    ensures r.Success? ==> r.value.objects == g.objects - {id} && id !in r.value.temporaryIds
  {
    match ObtainPermanentIds(g, {id}, storeAvailable)
    case Success(permanent) => Success(DeleteObject(permanent, id))
    case Failure(e) => Failure(e)
  }

  /** The deletions `updateRelationship` performs for every member of a
    * to-many set, with delete errors ignored: all members go when a store is
    * reachable, and none otherwise. */
  function DeleteEach(g: Graph, members: set<ObjectId>, storeAvailable: bool): (r: Graph)
  {
    if storeAvailable then Graph(g.objects - members, g.temporaryIds - members) else g
  }

  /** Deleting the members one at a time adds up to `DeleteEach`. */
  lemma DeleteEachStep(g: Graph, done: set<ObjectId>, m: ObjectId, storeAvailable: bool)
    ensures var before := DeleteEach(g, done, storeAvailable);
      (match Delete(before, m, storeAvailable)
       case Success(after) => after
       case Failure(_) => before) == DeleteEach(g, done + {m}, storeAvailable)
  {
    if storeAvailable {
      var before := DeleteEach(g, done, storeAvailable);
      assert before.objects - {m} == g.objects - (done + {m});
    }
  }

  /** The predicates CoreDataKit builds: none, or `%K = %@` on one attribute. */
  datatype Predicate = All | AttributeEquals(key: string, value: AnyObject)

  /** Whether the object `id` is a result of fetching `entity` (subentities
    * included) with `filter`. */
  predicate Matches(g: Graph, id: ObjectId, entity: EntityDescription, filter: Predicate)
  {
    id in g.objects && IsKindOf(g.objects[id].entity, entity) &&
    (filter.AttributeEquals? ==> SlotOf(g, id, filter.key) == Attr(filter.value))
  }

  /** The matching objects with an ID below `n`, in ascending ID order. */
  function FetchBelow(g: Graph, n: nat, entity: EntityDescription, filter: Predicate): (r: seq<ObjectId>)
    ensures forall id: nat :: id in r <==> id < n && Matches(g, id, entity, filter)
    ensures forall j, k :: 0 <= j < k < |r| ==> r[j] < r[k]
  {
    if n == 0 then []
    else
      var earlier := FetchBelow(g, n - 1, entity, filter);
      assert forall j :: 0 <= j < |earlier| ==> earlier[j] < n - 1 by {
        forall j | 0 <= j < |earlier| ensures earlier[j] < n - 1 {
          assert earlier[j] in earlier;
        }
      }
      if Matches(g, n - 1, entity, filter) then earlier + [n - 1] else earlier
  }

  /** The matching objects with an ID below `n`. */
  ghost function MatchesBelow(g: Graph, n: nat, entity: EntityDescription, filter: Predicate): set<ObjectId>
  {
    set id: nat | id < n && Matches(g, id, entity, filter)
  }

  /** All matching objects. */
  ghost function MatchSet(g: Graph, entity: EntityDescription, filter: Predicate): set<ObjectId>
  {
    set id | id in g.objects && Matches(g, id, entity, filter)
  }

  /** Raising the bound by one adds at most the new ID. */
  lemma MatchesBelowStep(g: Graph, n: nat, entity: EntityDescription, filter: Predicate)
    requires n > 0
    ensures n - 1 !in MatchesBelow(g, n - 1, entity, filter)
    ensures MatchesBelow(g, n, entity, filter) ==
      MatchesBelow(g, n - 1, entity, filter) + (if Matches(g, n - 1, entity, filter) then {n - 1} else {})
  {
  }

  /** Fetching below `n` finds each object with an ID below `n` exactly once. */
  lemma {:induction false} FetchBelowCounts(g: Graph, n: nat, entity: EntityDescription, filter: Predicate)
    ensures |FetchBelow(g, n, entity, filter)| == |MatchesBelow(g, n, entity, filter)|
  {
    if n == 0 {
      assert MatchesBelow(g, n, entity, filter) == {};
    } else {
      FetchBelowCounts(g, n - 1, entity, filter);
      MatchesBelowStep(g, n, entity, filter);
    }
  }

  /** With every ID below the bound, a fetch lists exactly the match set, each
    * object once. */
  lemma FetchIsMatchSet(g: Graph, bound: nat, entity: EntityDescription, filter: Predicate)
    requires IdsBelow(g, bound)
    ensures forall id: nat :: id in FetchBelow(g, bound, entity, filter) <==> id in MatchSet(g, entity, filter)
    ensures |FetchBelow(g, bound, entity, filter)| == |MatchSet(g, entity, filter)|
  {
    FetchBelowCounts(g, bound, entity, filter);
    assert MatchesBelow(g, bound, entity, filter) == MatchSet(g, entity, filter);
  }

  /** Executing a fetch request: the matches in ID order (sort descriptors
    * are not modelled), the first `offset` skipped, cut to `limit` unless it
    * is 0. */
  function ExecuteFetch(g: Graph, bound: nat, entity: EntityDescription, filter: Predicate, limit: nat, offset: nat): (r: seq<ObjectId>)
    ensures var all := FetchBelow(g, bound, entity, filter);
      var available := if offset < |all| then |all| - offset else 0;
      |r| == (if limit == 0 || available <= limit then available else limit) &&
      (forall k :: 0 <= k < |r| ==> r[k] == all[offset + k])
    ensures limit == 0 && offset == 0 ==> r == FetchBelow(g, bound, entity, filter)
  {
    var all := FetchBelow(g, bound, entity, filter);
    var rest := if offset < |all| then all[offset..] else [];
    if limit == 0 || |rest| <= limit then rest else rest[..limit]
  }

  /** `existingObjectWithID`: the object when registered, error 133000 otherwise. */
  function ExistingObject(g: Graph, id: ObjectId): (r: Result<ObjectId>)
    ensures r.Success? <==> id in g.objects
    ensures r.Success? ==> r.value == id
    ensures r.Failure? ==> r.error == CocoaError(ManagedObjectReferentialIntegrityError)
  {
    if id in g.objects then Success(id) else Failure(CocoaError(ManagedObjectReferentialIntegrityError))
  }
}
