// The commit protocol of CoreDataKit/NSManagedObjectContext.swift over a tree
// of managed object contexts. Contexts are numbered in creation order and a
// child's parent always has a smaller number; the root of every chain is bound
// to a persistent store coordinator. Each context holds its current objects,
// the objects at the start of the current undo group, and the objects as last
// saved; inserted, updated and deleted objects are the differences between the
// current and the saved objects. The store of a root context is its saved
// objects.

module Contexts {
  import opened Wrappers
  import opened Errors
  import opened ObjectGraph
  import opened ImportModel

  datatype ConcurrencyType = PrivateQueueConcurrencyType | MainQueueConcurrencyType

  /** A coordinator, and whether a persistent store has been added to it. */
  datatype PersistentStoreCoordinator = PersistentStoreCoordinator(id: nat, hasStore: bool)

  /** One managed object context. */
  datatype Ctx = Ctx(
    parent: Option<nat>,
    coordinator: Option<PersistentStoreCoordinator>,
    concurrencyType: ConcurrencyType,
    graph: Graph,
    undoMark: Graph,
    saved: Graph)

  /** All contexts, and the object IDs and `didImport` calls they share. */
  datatype Tree = Tree(contexts: seq<Ctx>, nextId: nat, didImports: seq<DidImportCall>)

  /** The new tree, and the value returned or the error reported. */
  datatype Committed<T> = Committed(tree: Tree, result: Result<T>)

  /** Parents come first, and a context is bound to a coordinator exactly when it has no parent. */
  predicate Linked(t: Tree)
  {
    forall i :: 0 <= i < |t.contexts| ==>
      (t.contexts[i].parent.Some? ==> t.contexts[i].parent.value < i) &&
      (t.contexts[i].parent.None? <==> t.contexts[i].coordinator.Some?)
  }

  /** Linked, and no context uses an object ID that has not been handed out. */
  predicate Valid(t: Tree)
  {
    Linked(t) &&
    forall i :: 0 <= i < |t.contexts| ==>
      IdsBelow(t.contexts[i].graph, t.nextId) && IdsBelow(t.contexts[i].undoMark, t.nextId) &&
      IdsBelow(t.contexts[i].saved, t.nextId)
  }

  /** The same contexts with the same parents, coordinators and queues. */
  predicate SameShape(t: Tree, u: Tree)
  {
    |t.contexts| == |u.contexts| &&
    forall j :: 0 <= j < |t.contexts| ==>
      u.contexts[j].parent == t.contexts[j].parent && u.contexts[j].coordinator == t.contexts[j].coordinator &&
      u.contexts[j].concurrencyType == t.contexts[j].concurrencyType
  }

  /** The parentless context at the end of `i`'s parent chain. */
  function RootOf(t: Tree, i: nat): (r: nat)
    requires Linked(t) && i < |t.contexts|
    ensures r <= i && t.contexts[r].parent.None? && t.contexts[r].coordinator.Some?
    decreases i
  {
    match t.contexts[i].parent
    case None => i
    case Some(p) => RootOf(t, p)
  }

  /** The coordinator behind context `i` has a persistent store. */
  predicate StoreAvailable(t: Tree, i: nat)
    requires Linked(t) && i < |t.contexts|
  {
    t.contexts[RootOf(t, i)].coordinator.value.hasStore
  }

  /** Context `j` is `i` or one of its ancestors. */
  ghost predicate OnChain(t: Tree, i: nat, j: nat)
    requires Linked(t) && i < |t.contexts|
    ensures OnChain(t, i, j) ==> j <= i
    decreases i
  {
    j == i || (t.contexts[i].parent.Some? && OnChain(t, t.contexts[i].parent.value, j))
  }

  /** Trees of the same shape have the same roots, stores and chains. */
  lemma {:induction false} SameShapeSameChains(t: Tree, u: Tree, i: nat)
    requires Linked(t) && SameShape(t, u) && i < |t.contexts|
    ensures Linked(u) && RootOf(u, i) == RootOf(t, i) && (StoreAvailable(u, i) <==> StoreAvailable(t, i))
    ensures forall j :: OnChain(u, i, j) <==> OnChain(t, i, j)
    decreases i
  {
    if t.contexts[i].parent.Some? {
      SameShapeSameChains(t, u, t.contexts[i].parent.value);
    }
  }

  /** A larger bound still bounds every ID. */
  lemma IdsBelowGrows(g: Graph, a: nat, b: nat)
    requires IdsBelow(g, a) && a <= b
    ensures IdsBelow(g, b)
  {
  }

  function InsertedIds(c: Ctx): set<ObjectId>
  {
    c.graph.objects.Keys - c.saved.objects.Keys
  }

  function DeletedIds(c: Ctx): set<ObjectId>
  {
    c.saved.objects.Keys - c.graph.objects.Keys
  }

  function UpdatedIds(c: Ctx): set<ObjectId>
  {
    set id | id in c.graph.objects && id in c.saved.objects && c.graph.objects[id] != c.saved.objects[id]
  }

  /** `hasChanges` */
  predicate HasChanges(c: Ctx)
  {
    c.graph.objects != c.saved.objects
  }

  /** A context has changes exactly when it has inserted, deleted or updated objects. */
  lemma HasChangesIffSomeChange(c: Ctx)
    ensures HasChanges(c) <==> InsertedIds(c) + DeletedIds(c) + UpdatedIds(c) != {}
  {
    if InsertedIds(c) + DeletedIds(c) + UpdatedIds(c) == {} {
      assert c.graph.objects.Keys == c.saved.objects.Keys by {
        forall id | id in c.graph.objects ensures id in c.saved.objects {
          assert id !in InsertedIds(c);
        }
        forall id | id in c.saved.objects ensures id in c.graph.objects {
          assert id !in DeletedIds(c);
        }
      }
      forall id | id in c.graph.objects ensures c.graph.objects[id] == c.saved.objects[id] {
        assert id !in UpdatedIds(c);
      }
    }
  }

  /** Replaces context `i`. */
  function WithCtx(t: Tree, i: nat, c: Ctx): Tree
    requires i < |t.contexts|
  {
    t.(contexts := t.contexts[i := c])
  }

  /** What a block running on context `i` sees. */
  function WorldOf(t: Tree, i: nat): World
    requires i < |t.contexts|
  {
    World(t.contexts[i].graph, t.nextId, t.didImports)
  }

  /** The tree after a block on context `i` left `w`. */
  function WithWorld(t: Tree, i: nat, w: World): Tree
    requires i < |t.contexts|
  {
    Tree(t.contexts[i := t.contexts[i].(graph := w.graph)], w.nextId, w.didImports)
  }

  /** `obtainPermanentIDsForInsertedObjects()`: nothing is requested when no
    * object is inserted; otherwise the request fails without a store, and
    * succeeds by making every inserted object's ID permanent. */
  function ObtainPermanentIdsForInsertedObjects(t: Tree, i: nat): (r: Result<Tree>)
    requires Valid(t) && i < |t.contexts|
    ensures InsertedIds(t.contexts[i]) == {} ==> r == Success(t)
    ensures r.Failure? <==> InsertedIds(t.contexts[i]) != {} && !StoreAvailable(t, i)
    ensures r.Failure? ==> r.error == CocoaError(CoreDataGeneralError)
    ensures r.Success? ==>
      Valid(r.value) && SameShape(t, r.value) && r.value.nextId == t.nextId && r.value.didImports == t.didImports &&
      r.value.contexts == t.contexts[i := r.value.contexts[i]] &&
      r.value.contexts[i] == t.contexts[i].(graph := r.value.contexts[i].graph) &&
      r.value.contexts[i].graph.objects == t.contexts[i].graph.objects &&
      r.value.contexts[i].graph.temporaryIds == t.contexts[i].graph.temporaryIds - InsertedIds(t.contexts[i])
  {
    var c := t.contexts[i];
    var inserted := InsertedIds(c);
    if inserted == {} then Success(t)
    else
      match ObtainPermanentIds(c.graph, inserted, StoreAvailable(t, i))
      case Success(g) => Success(WithCtx(t, i, c.(graph := g)))
      case Failure(e) => Failure(e)
  }

  /** The inserted and updated objects of a context. */
  function ChangedObjects(c: Ctx): (m: map<ObjectId, ManagedObject>)
    ensures m.Keys == InsertedIds(c) + UpdatedIds(c)
    ensures forall id :: id in m ==> id in c.graph.objects && m[id] == c.graph.objects[id]
  {
    map id | id in InsertedIds(c) + UpdatedIds(c) :: c.graph.objects[id]
  }

  /** The parent's objects after a child's save pushed its changes up. */
  function Push(parent: Graph, child: Ctx): (g: Graph)
    ensures forall id :: id in ChangedObjects(child) ==> id in g.objects && g.objects[id] == child.graph.objects[id]
    ensures forall id :: id in DeletedIds(child) ==> id !in g.objects
    ensures forall id :: id !in ChangedObjects(child) && id !in DeletedIds(child) ==>
      (id in g.objects <==> id in parent.objects) && (id in g.objects ==> g.objects[id] == parent.objects[id])
  {
    Graph((parent.objects - DeletedIds(child)) + ChangedObjects(child),
          (parent.temporaryIds - DeletedIds(child)) + (child.graph.temporaryIds * InsertedIds(child)))
  }

  /** A child that started from its parent's objects carries exactly its own
    * objects into the parent when it saves. */
  lemma PushOntoSynchronisedParent(parent: Graph, child: Ctx)
    requires parent.objects == child.saved.objects
    ensures Push(parent, child).objects == child.graph.objects
  {
    var g := Push(parent, child);
    assert g.objects.Keys == child.graph.objects.Keys by {
      forall id | id in child.graph.objects ensures id in g.objects {
        if id !in ChangedObjects(child) {
          assert id !in InsertedIds(child);
        }
      }
    }
    forall id | id in g.objects ensures g.objects[id] == child.graph.objects[id] {
      if id !in ChangedObjects(child) {
        assert id !in UpdatedIds(child);
      }
    }
  }

  /** `save()`: no changes is a no-op; a root context writes to its store,
    * which fails without one; a child context pushes its changes into its
    * parent. Afterwards the context has no changes. */
  function Save(t: Tree, i: nat): (r: Result<Tree>)
    requires Valid(t) && i < |t.contexts|
    ensures !HasChanges(t.contexts[i]) ==> r == Success(t)
    ensures r.Failure? <==> HasChanges(t.contexts[i]) && t.contexts[i].parent.None? && !StoreAvailable(t, i)
    ensures r.Failure? ==> r.error == CocoaError(CoreDataGeneralError)
    ensures r.Success? ==>
      Valid(r.value) && SameShape(t, r.value) && r.value.nextId == t.nextId && r.value.didImports == t.didImports &&
      !HasChanges(r.value.contexts[i]) && r.value.contexts[i].graph == t.contexts[i].graph
    ensures r.Success? && HasChanges(t.contexts[i]) ==>
      r.value.contexts[i] == t.contexts[i].(saved := t.contexts[i].graph)
    ensures r.Success? && HasChanges(t.contexts[i]) && t.contexts[i].parent.Some? ==>
      var p := t.contexts[i].parent.value;
      r.value.contexts[p] == t.contexts[p].(graph := Push(t.contexts[p].graph, t.contexts[i]))
    ensures r.Success? ==>
      forall j :: 0 <= j < |t.contexts| && j != i && (t.contexts[i].parent.None? || j != t.contexts[i].parent.value) ==>
        r.value.contexts[j] == t.contexts[j]
  {
    var c := t.contexts[i];
    if !HasChanges(c) then Success(t)
    else
      match c.parent
      case None =>
        if StoreAvailable(t, i) then Success(WithCtx(t, i, c.(saved := c.graph)))
        else Failure(CocoaError(CoreDataGeneralError))
      case Some(p) =>
        var parent := t.contexts[p];
        Success(t.(contexts := t.contexts[p := parent.(graph := Push(parent.graph, c))][i := c.(saved := c.graph)]))
  }

  /** One hop of a save: permanent IDs first, then `save()`. A hop fails only
    * for want of a store, and then changes nothing. */
  function SaveStep(t: Tree, i: nat): (r: Result<Tree>)
    requires Valid(t) && i < |t.contexts|
    ensures r.Failure? ==> r.error == CocoaError(CoreDataGeneralError) && !StoreAvailable(t, i)
    ensures StoreAvailable(t, i) ==> r.Success?
    ensures r.Success? ==>
      Valid(r.value) && SameShape(t, r.value) && r.value.nextId == t.nextId && r.value.didImports == t.didImports &&
      !HasChanges(r.value.contexts[i]) && r.value.contexts[i].graph.objects == t.contexts[i].graph.objects
    ensures r.Success? ==>
      forall j :: 0 <= j < |t.contexts| && j != i && (t.contexts[i].parent.None? || j != t.contexts[i].parent.value) ==>
        r.value.contexts[j] == t.contexts[j]
  {
    match ObtainPermanentIdsForInsertedObjects(t, i)
    case Failure(e) => Failure(e)
    case Success(permanent) =>
      SameShapeSameChains(t, permanent, i);
      Save(permanent, i)
  }

  /** `saveToPersistentStore`: a save hop on this context, then on each
    * ancestor up to the root; the first failing hop ends the chain with its
    * error. Contexts numbered above `i` are never touched. */
  function SaveToStore(t: Tree, i: nat): (o: Committed<()>)
    requires Valid(t) && i < |t.contexts|
    ensures Valid(o.tree) && SameShape(t, o.tree) && o.tree.nextId == t.nextId && o.tree.didImports == t.didImports
    ensures StoreAvailable(t, i) ==> o.result.Success?
    ensures o.result.Failure? ==> o.result.error == CocoaError(CoreDataGeneralError) && !StoreAvailable(t, i)
    ensures forall j :: i < j < |t.contexts| ==> o.tree.contexts[j] == t.contexts[j]
    decreases i
  {
    match SaveStep(t, i)
    case Failure(e) => Committed(t, Failure(e))
    case Success(saved) =>
      match t.contexts[i].parent
      case None => Committed(saved, Success(()))
      case Some(p) =>
        SameShapeSameChains(t, saved, i);
        SaveToStore(saved, p)
  }

  /** A successful save to the store leaves no changes in the context or in
    * any of its ancestors. */
  lemma {:induction false} SaveToStoreCleansChain(t: Tree, i: nat)
    requires Valid(t) && i < |t.contexts|
    ensures SaveToStore(t, i).result.Success? ==>
      forall j: nat :: OnChain(t, i, j) ==> !HasChanges(SaveToStore(t, i).tree.contexts[j])
    decreases i
  {
    var step := SaveStep(t, i);
    if step.Success? && t.contexts[i].parent.Some? {
      var p := t.contexts[i].parent.value;
      SameShapeSameChains(t, step.value, p);
      SaveToStoreCleansChain(step.value, p);
    }
  }

  /** The blocks CoreDataKit runs: they may change the context's objects and
    * create objects, and they choose a commit action. */
  type Block = World -> (World, CommitAction)

  /** The block keeps the import invariant: IDs are only handed out upwards. */
  ghost predicate BlockEvolves(block: Block)
  {
    forall w :: Evolves(w, block(w).0)
  }

  /** The tree just after `block` ran on context `i` inside a fresh undo group. */
  function RunBlock(t: Tree, i: nat, block: Block): (u: Tree)
    requires Valid(t) && i < |t.contexts|
    requires BlockEvolves(block)
    ensures Valid(u) && SameShape(t, u) && t.nextId <= u.nextId
    ensures u.contexts[i].undoMark == t.contexts[i].graph && u.contexts[i].saved == t.contexts[i].saved
    ensures u.contexts[i].graph == block(WorldOf(t, i)).0.graph
    ensures forall j :: 0 <= j < |t.contexts| && j != i ==> u.contexts[j] == t.contexts[j]
  {
    var c := t.contexts[i];
    var marked := WithCtx(t, i, c.(undoMark := c.graph));
    var w := block(WorldOf(marked, i)).0;
    assert Evolves(WorldOf(marked, i), w);
    var u := WithWorld(marked, i, w);
    assert Valid(u) by {
      forall j | 0 <= j < |u.contexts|
        ensures IdsBelow(u.contexts[j].graph, u.nextId) && IdsBelow(u.contexts[j].undoMark, u.nextId) &&
                IdsBelow(u.contexts[j].saved, u.nextId)
      {
        IdsBelowGrows(t.contexts[j].graph, t.nextId, u.nextId);
        IdsBelowGrows(t.contexts[j].undoMark, t.nextId, u.nextId);
        IdsBelowGrows(t.contexts[j].saved, t.nextId, u.nextId);
      }
    }
    u
  }

  /** What `performBlock` does with the commit action once the block has run. */
  function Commit(u: Tree, i: nat, action: CommitAction): (o: Committed<CommitAction>)
    requires Valid(u) && i < |u.contexts|
    ensures Valid(o.tree) && SameShape(u, o.tree) && u.nextId == o.tree.nextId
    ensures o.result.Success? ==> o.result.value == action
    ensures o.result.Failure? ==>
      o.result.error == CocoaError(CoreDataGeneralError) && !StoreAvailable(u, i) &&
      action in {SaveToParentContext, SaveToPersistentStore}
  {
    match action
    case DoNothing => Committed(u, Success(action))
    case SaveToParentContext =>
      (match SaveStep(u, i)
       case Success(saved) => Committed(saved, Success(action))
       case Failure(e) => Committed(u, Failure(e)))
    case SaveToPersistentStore =>
      var s := SaveToStore(u, i);
      (match s.result
       case Success(_) => Committed(s.tree, Success(action))
       case Failure(e) => Committed(s.tree, Failure(e)))
    case Undo => Committed(WithCtx(u, i, u.contexts[i].(graph := u.contexts[i].undoMark)), Success(action))
    case RollbackAllChanges => Committed(WithCtx(u, i, u.contexts[i].(graph := u.contexts[i].saved)), Success(action))
  }

  /** `performBlock`: run the block in one undo group, then act on the
    * commit action it returns. */
  function PerformBlock(t: Tree, i: nat, block: Block): (o: Committed<CommitAction>)
    requires Valid(t) && i < |t.contexts|
    requires BlockEvolves(block)
    ensures Valid(o.tree) && SameShape(t, o.tree) && t.nextId <= o.tree.nextId
    ensures o.result.Success? ==> o.result.value == block(WorldOf(t, i)).1
    ensures o.result.Failure? ==>
      o.result.error == CocoaError(CoreDataGeneralError) && !StoreAvailable(t, i) &&
      block(WorldOf(t, i)).1 in {SaveToParentContext, SaveToPersistentStore}
  {
    var u := RunBlock(t, i, block);
    SameShapeSameChains(t, u, i);
    Commit(u, i, block(WorldOf(t, i)).1)
  }

  /** `DoNothing` saves nothing: only the context's objects change, to what
    * the block left. */
  lemma DoNothingSavesNothing(t: Tree, i: nat, block: Block)
    requires Valid(t) && i < |t.contexts| && BlockEvolves(block)
    requires block(WorldOf(t, i)).1 == DoNothing
    ensures var o := PerformBlock(t, i, block);
      o.result == Success(DoNothing) &&
      o.tree.contexts[i].graph == block(WorldOf(t, i)).0.graph && o.tree.contexts[i].saved == t.contexts[i].saved &&
      forall j :: 0 <= j < |t.contexts| && j != i ==> o.tree.contexts[j] == t.contexts[j]
  {
  }

  /** `Undo` reverts exactly the block's changes: the context's objects are
    * those it had before the block, and nothing is saved. */
  lemma UndoRevertsBlock(t: Tree, i: nat, block: Block)
    requires Valid(t) && i < |t.contexts| && BlockEvolves(block)
    requires block(WorldOf(t, i)).1 == Undo
    ensures var o := PerformBlock(t, i, block);
      o.result == Success(Undo) &&
      o.tree.contexts[i].graph == t.contexts[i].graph && o.tree.contexts[i].saved == t.contexts[i].saved &&
      forall j :: 0 <= j < |t.contexts| && j != i ==> o.tree.contexts[j] == t.contexts[j]
  {
  }

  /** `RollbackAllChanges` discards every unsaved change, also those made
    * before the block. */
  lemma RollbackDiscardsUnsaved(t: Tree, i: nat, block: Block)
    requires Valid(t) && i < |t.contexts| && BlockEvolves(block)
    requires block(WorldOf(t, i)).1 == RollbackAllChanges
    ensures var o := PerformBlock(t, i, block);
      o.result == Success(RollbackAllChanges) &&
      o.tree.contexts[i].graph == t.contexts[i].saved && !HasChanges(o.tree.contexts[i]) &&
      forall j :: 0 <= j < |t.contexts| && j != i ==> o.tree.contexts[j] == t.contexts[j]
  {
  }

  /** `SaveToParentContext`: when the permanent IDs cannot be obtained the
    * error is reported and no save happens; otherwise the one save happens
    * and the context has no changes left. */
  lemma SaveToParentObtainsIdsFirst(t: Tree, i: nat, block: Block)
    requires Valid(t) && i < |t.contexts| && BlockEvolves(block)
    requires block(WorldOf(t, i)).1 == SaveToParentContext
    ensures var o := PerformBlock(t, i, block);
      var u := RunBlock(t, i, block);
      (ObtainPermanentIdsForInsertedObjects(u, i).Failure? ==>
        o == Committed(u, Failure(ObtainPermanentIdsForInsertedObjects(u, i).error)) &&
        o.tree.contexts[i].saved == t.contexts[i].saved) &&
      (o.result.Success? <==> SaveStep(u, i).Success?) &&
      (o.result.Success? ==> o.result.value == SaveToParentContext && !HasChanges(o.tree.contexts[i]))
  {
  }

  /** `SaveToPersistentStore` succeeds whenever the store is there, and then
    * leaves no changes anywhere on the context's parent chain. */
  lemma SaveToStoreCompletes(t: Tree, i: nat, block: Block)
    requires Valid(t) && i < |t.contexts| && BlockEvolves(block)
    requires block(WorldOf(t, i)).1 == SaveToPersistentStore
    ensures var o := PerformBlock(t, i, block);
      (StoreAvailable(t, i) ==> o.result == Success(SaveToPersistentStore)) &&
      (o.result.Success? ==> forall j: nat :: OnChain(t, i, j) ==> !HasChanges(o.tree.contexts[j]))
  {
    var u := RunBlock(t, i, block);
    SameShapeSameChains(t, u, i);
    SaveToStoreCleansChain(u, i);
  }

  /** The state a method leaves after a step that returns a new tree or an
    * error; on an error nothing changes. */
  function Settle(t: Tree, r: Result<Tree>): (o: Committed<()>)
    ensures r.Success? ==> o == Committed(r.value, Success(()))
    ensures r.Failure? ==> o == Committed(t, Failure(r.error))
  {
    match r
    case Success(u) => Committed(u, Success(()))
    case Failure(e) => Committed(t, Failure(e))
  }

  /** When the permanent IDs were obtained but the save then fails, obtaining
    * them changed nothing (there were no inserted objects). */
  lemma HopFailsWithoutChange(t: Tree, i: nat)
    requires Valid(t) && i < |t.contexts|
    requires ObtainPermanentIdsForInsertedObjects(t, i).Success?
    ensures Save(ObtainPermanentIdsForInsertedObjects(t, i).value, i).Failure? ==>
      ObtainPermanentIdsForInsertedObjects(t, i).value == t
  {
    SameShapeSameChains(t, ObtainPermanentIdsForInsertedObjects(t, i).value, i);
  }

  /** In a two-level stack whose contexts are in step, saving the child to the
    * store puts exactly the child's objects in the store. */
  lemma TwoLevelSaveReachesStore(t: Tree, root: nat, child: nat)
    requires Valid(t) && root < child < |t.contexts|
    requires t.contexts[child].parent == Some(root) && t.contexts[root].parent == None
    requires t.contexts[root].coordinator.value.hasStore
    requires t.contexts[root].graph.objects == t.contexts[root].saved.objects
    requires t.contexts[child].saved.objects == t.contexts[root].graph.objects
    ensures SaveToStore(t, child).result.Success?
    ensures OnChain(t, child, root)
    ensures SaveToStore(t, child).tree.contexts[root].saved.objects == t.contexts[child].graph.objects
  {
    assert RootOf(t, child) == root;
    var permanent := ObtainPermanentIdsForInsertedObjects(t, child).value;
    SameShapeSameChains(t, permanent, child);
    var c := permanent.contexts[child];
    assert permanent.contexts[root] == t.contexts[root];
    if HasChanges(c) {
      PushOntoSynchronisedParent(permanent.contexts[root].graph, c);
    }
    var hop := SaveStep(t, child).value;
    SameShapeSameChains(t, hop, root);
    assert hop.contexts[root].graph.objects == t.contexts[child].graph.objects;
  }

  /** Without a store, saving a context that has inserted objects fails on
    * its first hop. */
  lemma ChainFailsWithoutStore(t: Tree, i: nat)
    requires Valid(t) && i < |t.contexts|
    requires !StoreAvailable(t, i)
    ensures InsertedIds(t.contexts[i]) != {} ==> SaveToStore(t, i) == Committed(t, Failure(CocoaError(CoreDataGeneralError)))
  {
  }
}
