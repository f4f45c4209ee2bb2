// CoreDataKit/CoreDataStack.swift: a stack is a persistent store coordinator,
// a private-queue root context bound to it, and a main-queue context whose
// parent is the root context.

module CoreDataStacks {
  import opened Wrappers
  import opened Errors
  import opened ObjectGraph
  import opened Contexts
  import opened ContextTrees

  class CoreDataStack {
    const persistentStoreCoordinator: PersistentStoreCoordinator
    const rootContext: nat
    const mainThreadContext: nat
    /** The tree the two contexts live in. */
    const tree: ContextTree

    /** `init(persistentStoreCoordinator:)` */
    constructor (coordinator: PersistentStoreCoordinator, tree: ContextTree)
      requires tree.Valid()
      modifies tree
      ensures persistentStoreCoordinator == coordinator && this.tree == tree
      ensures tree.Valid() && rootContext < mainThreadContext < |tree.contexts|
      ensures tree.contexts == old(tree.contexts) + [tree.contexts[rootContext], tree.contexts[mainThreadContext]]
      ensures tree.contexts[rootContext] ==
        Ctx(None, Some(coordinator), PrivateQueueConcurrencyType, EmptyGraph, EmptyGraph, EmptyGraph)
      ensures tree.contexts[mainThreadContext] ==
        Ctx(Some(rootContext), None, MainQueueConcurrencyType, EmptyGraph, EmptyGraph, EmptyGraph)
      ensures tree.nextId == old(tree.nextId) && tree.didImports == old(tree.didImports)
    {
      persistentStoreCoordinator := coordinator;
      this.tree := tree;
      var root := tree.NewRootContext(coordinator);
      var main := tree.NewChildContext(MainQueueConcurrencyType, root);
      rootContext := root;
      mainThreadContext := main;
    }
  }

  /** The stack saves from the main context through the root context, the
    * first time and every time after, as long as the two are in step (the
    * root has no unsaved changes and the main context last saw the root's
    * objects): both are on the chain; with a store the save succeeds and the
    * store then holds the main context's objects; without one, a main context
    * with inserted objects fails on its first hop. A freshly set up stack is
    * one such case. */
  lemma MainContextSavesThroughRoot(t: Tree, root: nat, main: nat, coordinator: PersistentStoreCoordinator)
    requires Contexts.Valid(t) && root < main < |t.contexts|
    requires t.contexts[root].parent == None && t.contexts[root].coordinator == Some(coordinator)
    requires t.contexts[root].graph.objects == t.contexts[root].saved.objects
    requires t.contexts[main].parent == Some(root) && t.contexts[main].saved.objects == t.contexts[root].graph.objects
    ensures RootOf(t, main) == root && OnChain(t, main, root)
    ensures coordinator.hasStore ==> SaveToStore(t, main).result.Success?
    ensures !coordinator.hasStore && InsertedIds(t.contexts[main]) != {} ==>
      SaveToStore(t, main) == Committed(t, Failure(CocoaError(CoreDataGeneralError)))
    ensures coordinator.hasStore ==> SaveToStore(t, main).tree.contexts[root].saved.objects == t.contexts[main].graph.objects
  {
    assert RootOf(t, main) == root;
    if coordinator.hasStore {
      TwoLevelSaveReachesStore(t, root, main);
    } else {
      ChainFailsWithoutStore(t, main);
    }
  }

  /** Right after set-up, every object of the main context is an insertion. */
  lemma FreshStackSavesThroughRoot(t: Tree, root: nat, main: nat, coordinator: PersistentStoreCoordinator)
    requires Contexts.Valid(t) && root < main < |t.contexts|
    requires t.contexts[root] == Ctx(None, Some(coordinator), PrivateQueueConcurrencyType, EmptyGraph, EmptyGraph, EmptyGraph)
    requires t.contexts[main].parent == Some(root) && t.contexts[main].saved.objects == map[]
    ensures coordinator.hasStore ==> SaveToStore(t, main).tree.contexts[root].saved.objects == t.contexts[main].graph.objects
    ensures !coordinator.hasStore && t.contexts[main].graph.objects != map[] ==>
      SaveToStore(t, main) == Committed(t, Failure(CocoaError(CoreDataGeneralError)))
  {
    MainContextSavesThroughRoot(t, root, main, coordinator);
    if t.contexts[main].graph.objects != map[] {
      var id :| id in t.contexts[main].graph.objects;
      assert id in InsertedIds(t.contexts[main]);
    }
  }
}
