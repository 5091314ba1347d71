/**
 What one step made on behalf of one wrapper keeps: the ingredients of `ListenerRuns`.
 */
module ListenerSteps {
  import opened Types
  import opened Sequences
  import opened StorageEngine
  import opened ObjectStores
  import opened WatchChain
  import opened JsValues
  import opened Runtime

  // ---- What holds of one wrapper ----

  /** Holds whatever the database answers. */
  ghost predicate WrapperOk(n: Native, w: Wrapper) {
    && n.store.engine.isOpened
    && w.obj.session != [] && w.obj in n.store.objects
    && w.obj.session in n.store.engine.delegates
    && (w.isWatched <==> w.obj.id in n.store.watchers)
    && (w.isWatched ==> w.obj.session in n.store.engine.observerMap)
    && (w.status != [] <==> w.obj.session in n.notifier)
    && (w.status != [] ==> n.notifier[w.obj.session] == w.obj.id)
    && NoDup(w.change) && NoDup(w.status) && NoDup(w.undefinedProps)
    && (!w.hasWatcher ==> w.change == [] && w.status == [] && !w.isWatched)
  }

  /** The watch chain: holds as long as the database accepts every register and unregister call. */
  ghost predicate ChainOk(n: Native, w: Wrapper) {
    var e, watcher := n.store.engine, TableWatcher(w.obj.session, w.obj.id);
    && w.obj.session in e.delegates
    && (w.isWatched <==> w.change != [])
    && (w.obj.session in e.observerMap <==> w.change != [])
    && (w.change != [] ==> e.observerMap[w.obj.session] == watcher)
    && e.delegates[w.obj.session].observers == if w.change != [] then {watcher} else {}
  }

  ghost function OtherObjects(objects: seq<ObjectRef>, session: SessionId): set<ObjectRef> {
    set o | o in objects && o.session != session
  }

  /** From `n` to `n'` nothing changes outside the session and the address of `obj`. */
  ghost predicate Elsewhere(n: Native, n': Native, obj: ObjectRef) {
    && n'.store.engine.isOpened == n.store.engine.isOpened
    && OtherObjects(n'.store.objects, obj.session) == OtherObjects(n.store.objects, obj.session)
    && n'.store.engine.delegates - {obj.session} == n.store.engine.delegates - {obj.session}
    && n'.store.engine.observerMap - {obj.session} == n.store.engine.observerMap - {obj.session}
    && n'.notifier - {obj.session} == n.notifier - {obj.session}
    && n'.store.watchers - {obj.id} == n.store.watchers - {obj.id}
  }

  /** What two maps that agree outside `k` say about another key. */
  lemma AgreeOutside<K, V>(m: map<K, V>, m': map<K, V>, k: K, other: K)
    requires m - {k} == m' - {k} && other != k
    ensures other in m <==> other in m'
    ensures other in m ==> m[other] == m'[other]
  {
    assert other in m <==> other in m - {k};
    assert other in m' <==> other in m' - {k};
    if other in m {
      assert (m - {k})[other] == m[other] && (m' - {k})[other] == m'[other];
    }
  }

  lemma OthersKeep(n: Native, n': Native, obj: ObjectRef, w: Wrapper)
    requires Elsewhere(n, n', obj) && w.obj.session != obj.session && w.obj.id != obj.id
    ensures WrapperOk(n, w) ==> WrapperOk(n', w)
    ensures ChainOk(n, w) ==> ChainOk(n', w)
  {
    AgreeOutside(n.store.engine.delegates, n'.store.engine.delegates, obj.session, w.obj.session);
    AgreeOutside(n.store.engine.observerMap, n'.store.engine.observerMap, obj.session, w.obj.session);
    AgreeOutside(n.notifier, n'.notifier, obj.session, w.obj.session);
    AgreeOutside(n.store.watchers, n'.store.watchers, obj.id, w.obj.id);
    if w.obj in n.store.objects {
      assert w.obj in OtherObjects(n.store.objects, obj.session);
    }
  }

  /** What `AddWatch` and `DeleteWatch` leave alone. */
  ghost predicate SameObject(b: Bound, b': Bound) {
    && b'.wrapper.obj == b.wrapper.obj && b'.wrapper.undefinedProps == b.wrapper.undefinedProps
    && b'.native.store.objects == b.native.store.objects && b'.native.store.nextId == b.native.store.nextId
    && Entries(b'.native) == Entries(b.native)
    && Elsewhere(b.native, b'.native, b.wrapper.obj)
  }

  ghost function Entries(n: Native): map<SessionId, map<Bytes, Bytes>> {
    map s | s in n.store.engine.delegates :: n.store.engine.delegates[s].entries
  }

  lemma WatchKeeps(b: Bound, dbOk: bool)
    requires WrapperOk(b.native, b.wrapper)
    ensures var (store', status) := b.native.store.Watch(b.wrapper.obj, dbOk);
            var b' := Bound(b.native.(store := store'), b.wrapper.(isWatched := status == SUCCESS));
            !b.wrapper.isWatched ==>
              && SameObject(b, b')
              && (b'.wrapper.isWatched <==> b.wrapper.obj.id in store'.watchers)
              && (b'.wrapper.isWatched ==> b.wrapper.obj.session in store'.engine.observerMap)
  {
  }

  lemma AddWatchLists(b: Bound, kind: EventType, handler: Callback, dbOk: bool)
    ensures var w' := b.AddWatch(kind, handler, dbOk).wrapper;
            && w'.change == (if kind == Change then AddFront(b.wrapper.change, handler) else b.wrapper.change)
            && w'.status == (if kind == Status then AddFront(b.wrapper.status, handler) else b.wrapper.status)
  {
  }

  lemma DeleteWatchLists(b: Bound, kind: EventType, handler: Option<Callback>, dbOk: bool)
    requires !b.wrapper.hasWatcher ==> b.wrapper.change == [] && b.wrapper.status == []
    ensures var w' := b.DeleteWatch(kind, handler, dbOk).wrapper;
            && w'.change == (if kind == Change then Dropped(b.wrapper.change, handler) else b.wrapper.change)
            && w'.status == (if kind == Status then Dropped(b.wrapper.status, handler) else b.wrapper.status)
  {
  }

  lemma AddWatchKeeps(b: Bound, kind: EventType, handler: Callback, dbOk: bool)
    requires WrapperOk(b.native, b.wrapper)
    ensures var b' := b.AddWatch(kind, handler, dbOk);
            && WrapperOk(b'.native, b'.wrapper) && SameObject(b, b')
            && b'.wrapper.change == (if kind == Change then AddFront(b.wrapper.change, handler) else b.wrapper.change)
            && b'.wrapper.status == (if kind == Status then AddFront(b.wrapper.status, handler) else b.wrapper.status)
  {
    AddFrontNoDup(b.wrapper.change, handler);
    AddFrontNoDup(b.wrapper.status, handler);
    WatchKeeps(b, dbOk);
  }

  /** Adding keeps the chain, unless it is the first change handler and the database refuses the observer. */
  lemma AddWatchChain(b: Bound, kind: EventType, handler: Callback, dbOk: bool)
    requires WrapperOk(b.native, b.wrapper) && ChainOk(b.native, b.wrapper)
    ensures var b' := b.AddWatch(kind, handler, dbOk);
            ChainOk(b'.native, b'.wrapper) <==> dbOk || kind != Change || b.wrapper.change != []
  {
  }

  lemma UnWatchKeeps(b: Bound, dbOk: bool)
    requires WrapperOk(b.native, b.wrapper)
    ensures var (store', status) := b.native.store.UnWatch(b.wrapper.obj, dbOk);
            var b' := Bound(b.native.(store := store'), b.wrapper.(isWatched := status != SUCCESS));
            b.wrapper.isWatched ==>
              && SameObject(b, b')
              && (b'.wrapper.isWatched <==> b.wrapper.obj.id in store'.watchers)
              && (b'.wrapper.isWatched ==> b.wrapper.obj.session in store'.engine.observerMap)
  {
  }

  lemma DeleteChangeKeeps(b: Bound, handler: Option<Callback>, dbOk: bool)
    requires WrapperOk(b.native, b.wrapper)
    ensures var b' := b.DeleteWatch(Change, handler, dbOk);
            && WrapperOk(b'.native, b'.wrapper) && SameObject(b, b')
            && b'.wrapper.change == Dropped(b.wrapper.change, handler) && b'.wrapper.status == b.wrapper.status
  {
    if handler.Some? {
      WithoutNoDup(b.wrapper.change, handler.value);
    }
    UnWatchKeeps(b, dbOk);
  }

  lemma DeleteStatusKeeps(b: Bound, handler: Option<Callback>, dbOk: bool)
    requires WrapperOk(b.native, b.wrapper)
    ensures var b' := b.DeleteWatch(Status, handler, dbOk);
            && WrapperOk(b'.native, b'.wrapper) && SameObject(b, b')
            && b'.wrapper.status == Dropped(b.wrapper.status, handler) && b'.wrapper.change == b.wrapper.change
  {
    if handler.Some? {
      WithoutNoDup(b.wrapper.status, handler.value);
    }
  }

  lemma DeleteWatchKeeps(b: Bound, kind: EventType, handler: Option<Callback>, dbOk: bool)
    requires WrapperOk(b.native, b.wrapper)
    ensures var b' := b.DeleteWatch(kind, handler, dbOk);
            && WrapperOk(b'.native, b'.wrapper) && SameObject(b, b')
            && b'.wrapper.change == (if kind == Change then Dropped(b.wrapper.change, handler) else b.wrapper.change)
            && b'.wrapper.status == (if kind == Status then Dropped(b.wrapper.status, handler) else b.wrapper.status)
  {
    match kind
    case Change => DeleteChangeKeeps(b, handler, dbOk);
    case Status => DeleteStatusKeeps(b, handler, dbOk);
    case OtherEvent =>
  }

  /** Deleting keeps the chain, unless it drops the last change handler and the database keeps the observer. */
  lemma DeleteWatchChain(b: Bound, kind: EventType, handler: Option<Callback>, dbOk: bool)
    requires WrapperOk(b.native, b.wrapper) && ChainOk(b.native, b.wrapper)
    ensures var b' := b.DeleteWatch(kind, handler, dbOk);
            ChainOk(b'.native, b'.wrapper) <==>
            dbOk || kind != Change || b.wrapper.change == [] || Dropped(b.wrapper.change, handler) != []
  {
  }

  function Dropped(list: seq<Callback>, handler: Option<Callback>): seq<Callback> {
    if handler.Some? then Without(list, handler.value) else []
  }

  // ---- Restoring, creating and destroying ----

  lemma {:induction false} RestoreKeeps(b: Bound, kind: EventType, handlers: seq<Callback>, registerOk: nat -> bool)
    requires WrapperOk(b.native, b.wrapper)
    ensures var b' := Restore(b, kind, handlers, registerOk);
            WrapperOk(b'.native, b'.wrapper) && SameObject(b, b')
  {
    if handlers != [] {
      var n := |handlers| - 1;
      RestoreKeeps(b, kind, handlers[..n], registerOk);
      AddWatchKeeps(Restore(b, kind, handlers[..n], registerOk), kind, handlers[n], registerOk(n));
    }
  }

  lemma AddWatchElements(b: Bound, kind: EventType, handler: Callback, dbOk: bool)
    ensures var w, w' := b.wrapper, b.AddWatch(kind, handler, dbOk).wrapper;
            && Elements(w'.change) == Elements(w.change) + (if kind == Change then {handler} else {})
            && Elements(w'.status) == Elements(w.status) + (if kind == Status then {handler} else {})
  {
  }

  lemma ElementsSnoc(handlers: seq<Callback>)
    requires handlers != []
    ensures Elements(handlers) == Elements(handlers[..|handlers| - 1]) + {handlers[|handlers| - 1]}
  {
  }

  /** Restoring replays the record, duplicates and all, into a list that takes each callback once. */
  lemma {:induction false} RestoreElements(b: Bound, kind: EventType, handlers: seq<Callback>, registerOk: nat -> bool)
    ensures var w' := Restore(b, kind, handlers, registerOk).wrapper;
            && Elements(w'.change) == Elements(b.wrapper.change) + (if kind == Change then Elements(handlers) else {})
            && Elements(w'.status) == Elements(b.wrapper.status) + (if kind == Status then Elements(handlers) else {})
  {
    if handlers == [] {
      assert Elements(handlers) == {};
    } else {
      var n := |handlers| - 1;
      RestoreElements(b, kind, handlers[..n], registerOk);
      AddWatchElements(Restore(b, kind, handlers[..n], registerOk), kind, handlers[n], registerOk(n));
      ElementsSnoc(handlers);
    }
  }

  /** A record replayed on an empty list: the newest handlers come first. */
  lemma {:induction false} RestoreLists(b: Bound, kind: EventType, handlers: seq<Callback>, registerOk: nat -> bool)
    requires (kind == Change ==> b.wrapper.change == []) && (kind == Status ==> b.wrapper.status == [])
    ensures var w' := Restore(b, kind, handlers, registerOk).wrapper;
            && w'.change == (if kind == Change then Replayed(handlers) else b.wrapper.change)
            && w'.status == (if kind == Status then Replayed(handlers) else b.wrapper.status)
  {
    if handlers != [] {
      var n := |handlers| - 1;
      RestoreLists(b, kind, handlers[..n], registerOk);
      AddWatchLists(Restore(b, kind, handlers[..n], registerOk), kind, handlers[n], registerOk(n));
    }
  }

  /** Handlers are there, but nobody has been told. */
  ghost predicate Unheard(n: Native, w: Wrapper) {
    var e := n.store.engine;
    && w.change != [] && !w.isWatched
    && w.obj.session in e.delegates && w.obj.session !in e.observerMap
    && e.delegates[w.obj.session].observers == {}
  }

  ghost predicate SomeRegistered(handlers: seq<Callback>, registerOk: nat -> bool) {
    exists i: nat :: i < |handlers| && registerOk(i)
  }

  /** From unheard handlers one more handler tries again. */
  lemma AddWatchUnheard(b: Bound, kind: EventType, handler: Callback, dbOk: bool)
    requires WrapperOk(b.native, b.wrapper) && Unheard(b.native, b.wrapper)
    ensures var b' := b.AddWatch(kind, handler, dbOk);
            if dbOk && kind == Change then ChainOk(b'.native, b'.wrapper) else Unheard(b'.native, b'.wrapper)
  {
  }

  /** One accepted registration among those of the replayed handlers is enough. */
  lemma {:induction false} RestoreChange(b: Bound, handlers: seq<Callback>, registerOk: nat -> bool)
    requires WrapperOk(b.native, b.wrapper) && ChainOk(b.native, b.wrapper) && b.wrapper.change == []
    ensures var b' := Restore(b, Change, handlers, registerOk);
            && (handlers == [] <==> b'.wrapper.change == [])
            && (if handlers == [] || SomeRegistered(handlers, registerOk)
                then ChainOk(b'.native, b'.wrapper) else Unheard(b'.native, b'.wrapper))
  {
    if handlers != [] {
      var n := |handlers| - 1;
      var front := handlers[..n];
      var b1 := Restore(b, Change, front, registerOk);
      RestoreKeeps(b, Change, front, registerOk);
      RestoreChange(b, front, registerOk);
      assert SomeRegistered(handlers, registerOk) <==> SomeRegistered(front, registerOk) || registerOk(n);
      AddWatchLists(b1, Change, handlers[n], registerOk(n));
      if ChainOk(b1.native, b1.wrapper) {
        AddWatchChain(b1, Change, handlers[n], registerOk(n));
        FirstRefused(b1, handlers[n], registerOk(n));
      } else {
        AddWatchUnheard(b1, Change, handlers[n], registerOk(n));
      }
    }
  }

  lemma FirstRefused(b: Bound, handler: Callback, dbOk: bool)
    requires WrapperOk(b.native, b.wrapper) && ChainOk(b.native, b.wrapper)
    ensures var b' := b.AddWatch(Change, handler, dbOk);
            !dbOk && b.wrapper.change == [] ==> Unheard(b'.native, b'.wrapper)
  {
  }

  lemma {:induction false} RestoreStatus(b: Bound, handlers: seq<Callback>, registerOk: nat -> bool)
    requires WrapperOk(b.native, b.wrapper)
    ensures var b' := Restore(b, Status, handlers, registerOk);
            && (ChainOk(b.native, b.wrapper) ==> ChainOk(b'.native, b'.wrapper))
            && (Unheard(b.native, b.wrapper) ==> Unheard(b'.native, b'.wrapper))
  {
    if handlers != [] {
      var n := |handlers| - 1;
      var b1 := Restore(b, Status, handlers[..n], registerOk);
      RestoreKeeps(b, Status, handlers[..n], registerOk);
      RestoreStatus(b, handlers[..n], registerOk);
      if ChainOk(b.native, b.wrapper) {
        AddWatchChain(b1, Status, handlers[n], registerOk(n));
      }
      if Unheard(b.native, b.wrapper) {
        AddWatchUnheard(b1, Status, handlers[n], registerOk(n));
      }
    }
  }

  /** Both lists of a new wrapper, restored from the record. */
  lemma RestoreBoth(b: Bound, change: seq<Callback>, status: seq<Callback>, registerOk: nat -> bool)
    requires WrapperOk(b.native, b.wrapper) && b.wrapper.change == [] && b.wrapper.status == []
    ensures var b' := Restore(Restore(b, Change, change, registerOk), Status, status, registerOk);
            && WrapperOk(b'.native, b'.wrapper) && SameObject(b, b')
            && Elements(b'.wrapper.change) == Elements(change) && Elements(b'.wrapper.status) == Elements(status)
  {
    RestoreKeeps(b, Change, change, registerOk);
    RestoreElements(b, Change, change, registerOk);
    var b1 := Restore(b, Change, change, registerOk);
    RestoreKeeps(b1, Status, status, registerOk);
    RestoreElements(b1, Status, status, registerOk);
  }

  /** The chain holds for a new wrapper exactly when there is nothing to register or one registration is accepted. */
  lemma RestoreBothChain(b: Bound, change: seq<Callback>, status: seq<Callback>, registerOk: nat -> bool)
    requires WrapperOk(b.native, b.wrapper) && ChainOk(b.native, b.wrapper) && b.wrapper.change == []
    ensures var b' := Restore(Restore(b, Change, change, registerOk), Status, status, registerOk);
            ChainOk(b'.native, b'.wrapper) <==> change == [] || SomeRegistered(change, registerOk)
  {
    var b1 := Restore(b, Change, change, registerOk);
    RestoreKeeps(b, Change, change, registerOk);
    RestoreChange(b, change, registerOk);
    RestoreStatus(b1, status, registerOk);
  }

  /** Every cached object has a table, and no subscription is recorded for an address not yet in use. */
  ghost predicate NativeOk(n: Native) {
    && n.store.Distinct()
    && (forall o | o in n.store.objects :: o.session in n.store.engine.delegates)
    && (forall id | id in n.store.watchers :: id < n.store.nextId)
  }

  lemma StepNativeOk(b: Bound, b': Bound)
    requires NativeOk(b.native) && SameObject(b, b') && b.wrapper.obj in b.native.store.objects
    ensures NativeOk(b'.native)
  {
    assert Entries(b'.native).Keys == b'.native.store.engine.delegates.Keys;
    assert Entries(b.native).Keys == b.native.store.engine.delegates.Keys;
    forall id | id in b'.native.store.watchers ensures id < b'.native.store.nextId {
      if id != b.wrapper.obj.id {
        AgreeOutside(b.native.store.watchers, b'.native.store.watchers, b.wrapper.obj.id, id);
      }
    }
  }

  /** The wrapper of a new object before any handler is restored. */
  function Fresh(n: Native, session: SessionId): Wrapper {
    Wrapper(ObjectRef(n.store.nextId, session), false, [], false, [], [])
  }

  lemma NewObjectOk(n: Native, session: SessionId)
    requires NativeOk(n) && n.store.engine.isOpened && session != []
    requires session !in n.store.engine.delegates && session !in n.notifier
    ensures var (store', obj) := n.store.CreateObject(session, true, true);
            var n' := n.(store := store');
            && obj == Some(n.store.nextId)
            && NativeOk(n') && WrapperOk(n', Fresh(n, session)) && Elsewhere(n, n', Fresh(n, session).obj)
            && (session !in n.store.engine.observerMap ==> ChainOk(n', Fresh(n, session)))
            && PropsOf(n', Fresh(n, session)) == Props(map[], [])
  {
  }

  /** A create that fails may leave a table behind, and nothing else. */
  lemma FailedCreate(n: Native, session: SessionId, dbOk: bool, allocOk: bool)
    requires NativeOk(n) && n.store.CreateObject(session, dbOk, allocOk).1.None?
    ensures var n' := n.(store := n.store.CreateObject(session, dbOk, allocOk).0);
            && NativeOk(n') && Elsewhere(n, n', Fresh(n, session).obj)
            && n'.store.engine.observerMap == n.store.engine.observerMap
            && n'.store.watchers == n.store.watchers && n'.notifier == n.notifier
            && n'.store.objects == n.store.objects
            && (session in n.store.engine.delegates ==> n' == n)
  {
  }

  lemma DeleteObjectKeeps(n: Native, obj: ObjectRef, dbOk: bool)
    requires NativeOk(n)
    ensures var n' := n.(store := n.store.DeleteObject(obj.session, dbOk).0);
            && NativeOk(n') && Elsewhere(n, n', obj)
            && n'.store.engine.observerMap == n.store.engine.observerMap && n'.store.watchers == n.store.watchers
            && (n.store.engine.isOpened && obj.session in n.store.engine.delegates && obj in n.store.objects ==>
                (obj in n'.store.objects <==> !dbOk) && (obj.session in n'.store.engine.delegates <==> !dbOk))
  {
    RemainingMembers(n.store.objects, obj.session);
    RemainingDistinct(n.store, n.store.objects, obj.session);
  }

  /** The notifier entry goes in any case; object and table go together, exactly when the database closes the table. */
  lemma DestroyKeeps(b: Bound, outcome: Outcome)
    requires NativeOk(b.native) && WrapperOk(b.native, b.wrapper)
    ensures var n' := Destroy(b, outcome);
            && NativeOk(n') && Elsewhere(b.native, n', b.wrapper.obj)
            && b.wrapper.obj.session !in n'.notifier
            && (b.wrapper.obj in n'.store.objects <==> !outcome.closeOk)
            && (b.wrapper.obj.session in n'.store.engine.delegates <==> !outcome.closeOk)
  {
    DeleteWatchKeeps(b, Change, None, outcome.unregisterOk);
    var b1 := b.DeleteWatch(Change, None, outcome.unregisterOk);
    DeleteWatchKeeps(b1, Status, None, outcome.unregisterOk);
    var b2 := b1.DeleteWatch(Status, None, outcome.unregisterOk);
    StepNativeOk(b, b1);
    StepNativeOk(b1, b2);
    DeleteObjectKeeps(b2.native, b.wrapper.obj, outcome.closeOk);
  }

  /** Destroying leaves a subscription behind exactly when there was one and the database kept it. */
  lemma DestroySubscription(b: Bound, outcome: Outcome)
    requires NativeOk(b.native) && WrapperOk(b.native, b.wrapper) && ChainOk(b.native, b.wrapper)
    ensures var n' := Destroy(b, outcome);
            var left := b.wrapper.change != [] && !outcome.unregisterOk;
            && (b.wrapper.obj.session in n'.store.engine.observerMap <==> left)
            && (b.wrapper.obj.id in n'.store.watchers <==> left)
  {
  }

  // ---- What holds of the whole world ----

  ghost predicate IsJoined(w: World, p: ProxyId) {
    p in w.proxies && w.proxies[p].form.Joined?
  }

  ghost function WrapperOf(w: World, p: ProxyId): Wrapper
    requires IsJoined(w, p)
  {
    w.proxies[p].form.wrapper
  }

  ghost predicate Owns(w: World, p: ProxyId, session: SessionId) {
    IsJoined(w, p) && WrapperOf(w, p).obj.session == session
  }

  /** Holds in every run, whatever the database answers. */
  ghost predicate Inv(w: World) {
    && NativeOk(w.native)
    && (forall p | IsJoined(w, p) :: WrapperOk(w.native, WrapperOf(w, p)))
    && (forall p, q | IsJoined(w, p) && IsJoined(w, q) && p != q ::
          WrapperOf(w, p).obj.session != WrapperOf(w, q).obj.session)
    && (forall s | s in w.native.notifier :: exists p :: Owns(w, p, s))
  }

  /** Holds in every run in which the database accepts every register and unregister call. */
  ghost predicate Chain(w: World) {
    && (forall p | IsJoined(w, p) :: ChainOk(w.native, WrapperOf(w, p)))
    && (forall s | s in w.native.store.engine.observerMap :: exists p :: Owns(w, p, s))
    && (forall id | id in w.native.store.watchers :: exists p :: IsJoined(w, p) && WrapperOf(w, p).obj.id == id)
  }

  ghost predicate Unclaimed(w: World, p: ProxyId, obj: ObjectRef) {
    && (forall q | IsJoined(w, q) && q != p ::
          WrapperOf(w, q).obj.session != obj.session && WrapperOf(w, q).obj.id != obj.id)
    && (IsJoined(w, p) ==> WrapperOf(w, p).obj == obj)
  }

  function Rebound(w: World, p: ProxyId, n': Native, form': Form): World
    requires p in w.proxies
  {
    w.(native := n', proxies := w.proxies[p := w.proxies[p].(form := form')])
  }

  /** In one world two joined proxies never share an object. */
  lemma JoinedUnclaimed(w: World, p: ProxyId)
    requires Inv(w) && IsJoined(w, p)
    ensures Unclaimed(w, p, WrapperOf(w, p).obj)
  {
  }

  /** A step made on behalf of one proxy. */
  lemma ReboundInv(w: World, p: ProxyId, n': Native, form': Form, obj: ObjectRef)
    requires Inv(w) && p in w.proxies && Unclaimed(w, p, obj)
    requires NativeOk(n') && Elsewhere(w.native, n', obj)
    requires form'.Joined? ==> form'.wrapper.obj == obj && WrapperOk(n', form'.wrapper)
    requires form'.Local? ==> obj.session !in n'.notifier
    ensures Inv(Rebound(w, p, n', form'))
  {
    var w' := Rebound(w, p, n', form');
    forall q | IsJoined(w', q) ensures WrapperOk(n', WrapperOf(w', q)) {
      if q != p {
        assert IsJoined(w, q);
        OthersKeep(w.native, n', obj, WrapperOf(w, q));
      }
    }
    forall q, r | IsJoined(w', q) && IsJoined(w', r) && q != r
      ensures WrapperOf(w', q).obj.session != WrapperOf(w', r).obj.session
    {
      assert (q != p ==> IsJoined(w, q)) && (r != p ==> IsJoined(w, r));
    }
    forall s | s in n'.notifier ensures exists q :: Owns(w', q, s) {
      if s == obj.session {
        assert Owns(w', p, s);
      } else {
        AgreeOutside(w.native.notifier, n'.notifier, obj.session, s);
        var q :| Owns(w, q, s);
        assert Owns(w', q, s);
      }
    }
  }

  lemma ReboundObserver(w: World, p: ProxyId, n': Native, form': Form, obj: ObjectRef, s: SessionId)
    requires Chain(w) && p in w.proxies && Unclaimed(w, p, obj) && Elsewhere(w.native, n', obj)
    requires if form'.Joined? then form'.wrapper.obj == obj else obj.session !in n'.store.engine.observerMap
    requires s in n'.store.engine.observerMap
    ensures exists q :: Owns(Rebound(w, p, n', form'), q, s)
  {
    var w' := Rebound(w, p, n', form');
    if s == obj.session {
      assert Owns(w', p, s);
    } else {
      AgreeOutside(w.native.store.engine.observerMap, n'.store.engine.observerMap, obj.session, s);
      var q :| Owns(w, q, s);
      assert Owns(w', q, s);
    }
  }

  lemma ReboundWatcher(w: World, p: ProxyId, n': Native, form': Form, obj: ObjectRef, id: ObjectId)
    requires Chain(w) && p in w.proxies && Unclaimed(w, p, obj) && Elsewhere(w.native, n', obj)
    requires if form'.Joined? then form'.wrapper.obj == obj else obj.id !in n'.store.watchers
    requires id in n'.store.watchers
    ensures exists q :: IsJoined(Rebound(w, p, n', form'), q) && WrapperOf(Rebound(w, p, n', form'), q).obj.id == id
  {
    var w' := Rebound(w, p, n', form');
    if id == obj.id {
      assert IsJoined(w', p);
    } else {
      AgreeOutside(w.native.store.watchers, n'.store.watchers, obj.id, id);
      var q :| IsJoined(w, q) && WrapperOf(w, q).obj.id == id;
      assert IsJoined(w', q);
    }
  }

  lemma ReboundChain(w: World, p: ProxyId, n': Native, form': Form, obj: ObjectRef)
    requires Chain(w) && p in w.proxies && Unclaimed(w, p, obj)
    requires Elsewhere(w.native, n', obj)
    requires form'.Joined? ==> form'.wrapper.obj == obj && ChainOk(n', form'.wrapper)
    requires form'.Local? ==> obj.session !in n'.store.engine.observerMap && obj.id !in n'.store.watchers
    ensures Chain(Rebound(w, p, n', form'))
  {
    var w' := Rebound(w, p, n', form');
    forall q | IsJoined(w', q) ensures ChainOk(n', WrapperOf(w', q)) {
      if q != p {
        assert IsJoined(w, q);
        OthersKeep(w.native, n', obj, WrapperOf(w, q));
      }
    }
    forall s | s in n'.store.engine.observerMap ensures exists q :: Owns(w', q, s) {
      ReboundObserver(w, p, n', form', obj, s);
    }
    forall id | id in n'.store.watchers ensures exists q :: IsJoined(w', q) && WrapperOf(w', q).obj.id == id {
      ReboundWatcher(w, p, n', form', obj, id);
    }
  }

  lemma SameJoinedInv(w: World, w': World)
    requires w'.native == w.native
    requires forall p ::
               (IsJoined(w', p) <==> IsJoined(w, p)) && (IsJoined(w, p) ==> WrapperOf(w', p) == WrapperOf(w, p))
    ensures Inv(w) ==> Inv(w')
  {
    if Inv(w) {
      forall s | s in w'.native.notifier ensures exists p :: Owns(w', p, s) {
        var p :| Owns(w, p, s);
        assert Owns(w', p, s);
      }
    }
  }

  lemma SameJoinedChain(w: World, w': World)
    requires w'.native == w.native
    requires forall p ::
               (IsJoined(w', p) <==> IsJoined(w, p)) && (IsJoined(w, p) ==> WrapperOf(w', p) == WrapperOf(w, p))
    ensures Chain(w) ==> Chain(w')
  {
    if Chain(w) {
      forall s | s in w'.native.store.engine.observerMap ensures exists p :: Owns(w', p, s) {
        var p :| Owns(w, p, s);
        assert Owns(w', p, s);
      }
      forall id | id in w'.native.store.watchers ensures exists p :: IsJoined(w', p) && WrapperOf(w', p).obj.id == id {
        var p :| IsJoined(w, p) && WrapperOf(w, p).obj.id == id;
        assert IsJoined(w', p);
      }
    }
  }

  /** The invariants speak of the native state and the joined wrappers only. */
  lemma SameJoined(w: World, w': World)
    requires w'.native == w.native
    requires forall p ::
               (IsJoined(w', p) <==> IsJoined(w, p)) && (IsJoined(w, p) ==> WrapperOf(w', p) == WrapperOf(w, p))
    ensures Inv(w) <==> Inv(w')
    ensures Chain(w) <==> Chain(w')
  {
    SameJoinedInv(w, w');
    SameJoinedInv(w', w);
    SameJoinedChain(w, w');
    SameJoinedChain(w', w);
  }
}
