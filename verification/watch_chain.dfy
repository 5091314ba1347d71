/**
 Listener lists and the subscriptions behind them
 (frameworks/jskitsimpl/src/adaptor/js_watcher.cpp, js_object_wrapper.cpp and notifier_impl.cpp).

 A `Bound` value is one wrapper together with the native state all wrappers share. The classes
 below are proved to move that value exactly as its member functions say.
 */
module WatchChain {
  import opened Types
  import opened Sequences
  import opened EventListeners
  import opened ObjectStores

  /** What a `ChangeEventListener` works on. */
  datatype ChangeState = ChangeState(list: seq<Callback>, isWatched: bool, store: Store) {

    function Add(obj: ObjectRef, handler: Callback, dbOk: bool): ChangeState {
      var watching := if isWatched then this else
        var (store', status) := store.Watch(obj, dbOk);
        this.(store := store', isWatched := status == SUCCESS);
      watching.(list := AddFront(list, handler))
    }

    function Del(obj: ObjectRef, handler: Callback, dbOk: bool): ChangeState {
      var list' := Without(list, handler);
      if list' == [] then this.(list := []).Release(obj, dbOk) else this.(list := list')
    }

    function Clear(obj: ObjectRef, dbOk: bool): ChangeState {
      this.(list := []).Release(obj, dbOk)
    }

    function Release(obj: ObjectRef, dbOk: bool): ChangeState {
      if !isWatched then this else
      var (store', status) := store.UnWatch(obj, dbOk);
      this.(store := store', isWatched := status != SUCCESS)
    }
  }

  /** What a `StatusEventListener` works on; `watchers` is the map of `NotifierImpl`. */
  datatype StatusState = StatusState(list: seq<Callback>, watchers: map<SessionId, ObjectId>) {

    function Add(obj: ObjectRef, handler: Callback): StatusState {
      StatusState(AddFront(list, handler), watchers[obj.session := obj.id])
    }

    function Del(obj: ObjectRef, handler: Callback): StatusState {
      var list' := Without(list, handler);
      StatusState(list', if list' == [] then watchers - {obj.session} else watchers)
    }

    function Clear(obj: ObjectRef): StatusState {
      StatusState([], watchers - {obj.session})
    }
  }

  datatype Native = Native(store: Store, notifier: map<SessionId, ObjectId>)

  /** A `JSObjectWrapper`; `hasWatcher` tells whether its `JSWatcher` has been created. */
  datatype Wrapper = Wrapper(
    obj: ObjectRef,
    hasWatcher: bool,
    change: seq<Callback>,
    isWatched: bool,
    status: seq<Callback>,
    undefinedProps: seq<Text>)

  datatype Bound = Bound(native: Native, wrapper: Wrapper) {

    function ChangePart(): ChangeState {
      ChangeState(wrapper.change, wrapper.isWatched, native.store)
    }

    function WithChange(c: ChangeState): Bound {
      Bound(native.(store := c.store), wrapper.(change := c.list, isWatched := c.isWatched))
    }

    function StatusPart(): StatusState {
      StatusState(wrapper.status, native.notifier)
    }

    function WithStatus(s: StatusState): Bound {
      Bound(native.(notifier := s.watchers), wrapper.(status := s.list))
    }

    function AddWatch(kind: EventType, handler: Callback, dbOk: bool): Bound {
      var b := this.(wrapper := wrapper.(hasWatcher := true));
      match kind
      case Change => b.WithChange(ChangePart().Add(wrapper.obj, handler, dbOk))
      case Status => b.WithStatus(StatusPart().Add(wrapper.obj, handler))
      case OtherEvent => b
    }

    /** Without a handler every handler of that type is dropped. */
    function DeleteWatch(kind: EventType, handler: Option<Callback>, dbOk: bool): Bound {
      if !wrapper.hasWatcher then this else
      match kind
      case Change =>
        WithChange(if handler.Some? then ChangePart().Del(wrapper.obj, handler.value, dbOk)
                   else ChangePart().Clear(wrapper.obj, dbOk))
      case Status =>
        WithStatus(if handler.Some? then StatusPart().Del(wrapper.obj, handler.value)
                   else StatusPart().Clear(wrapper.obj))
      case OtherEvent => this
    }
  }

  /** The parts that the two listeners see, and what neither of them touches, make up the whole. */
  ghost predicate SameParts(b: Bound, b': Bound, change: ChangeState, status: StatusState) {
    && b'.ChangePart() == change && b'.StatusPart() == status
    && b'.wrapper.obj == b.wrapper.obj && b'.wrapper.hasWatcher
    && b'.wrapper.undefinedProps == b.wrapper.undefinedProps
  }

  lemma AddWatchParts(b: Bound, b': Bound, kind: EventType, handler: Callback, dbOk: bool)
    requires b.wrapper.hasWatcher
    requires SameParts(b, b',
               if kind == Change then b.ChangePart().Add(b.wrapper.obj, handler, dbOk) else b.ChangePart(),
               if kind == Status then b.StatusPart().Add(b.wrapper.obj, handler) else b.StatusPart())
    ensures b' == b.AddWatch(kind, handler, dbOk)
  {
  }

  lemma DeleteWatchParts(b: Bound, b': Bound, kind: EventType, handler: Option<Callback>, dbOk: bool)
    requires b.wrapper.hasWatcher
    requires SameParts(b, b',
               if kind != Change then b.ChangePart()
               else if handler.Some? then b.ChangePart().Del(b.wrapper.obj, handler.value, dbOk)
               else b.ChangePart().Clear(b.wrapper.obj, dbOk),
               if kind != Status then b.StatusPart()
               else if handler.Some? then b.StatusPart().Del(b.wrapper.obj, handler.value)
               else b.StatusPart().Clear(b.wrapper.obj))
    ensures b' == b.DeleteWatch(kind, handler, dbOk)
  {
  }

  /** Before the first handler there is nothing to delete. */
  lemma NothingToDelete(b: Bound, kind: EventType, handler: Option<Callback>, dbOk: bool)
    requires !b.wrapper.hasWatcher
    ensures b.DeleteWatch(kind, handler, dbOk) == b
  {
  }

  /** Registering and unregistering observers leaves the tables where they are. */
  ghost predicate SameTables(b: Bound, b': Bound) {
    var e, e' := b.native.store.engine, b'.native.store.engine;
    e'.isOpened == e.isOpened && e'.delegates.Keys == e.delegates.Keys
  }

  lemma AddWatchKeepsTables(b: Bound, kind: EventType, handler: Callback, dbOk: bool)
    ensures SameTables(b, b.AddWatch(kind, handler, dbOk))
  {
  }

  lemma DeleteWatchKeepsTables(b: Bound, kind: EventType, handler: Option<Callback>, dbOk: bool)
    ensures SameTables(b, b.DeleteWatch(kind, handler, dbOk))
  {
  }

  class ChangeEventListener {
    const list: EventListener
    const objectStore: DistributedObjectStoreImpl
    const obj: ObjectRef
    var isWatched: bool

    ghost predicate Valid()
      reads this, list, list.Repr()
    {
      list.Valid()
    }

    ghost function State(): ChangeState
      reads this, list, objectStore, objectStore.engine
    {
      ChangeState(list.contents, isWatched, objectStore.State())
    }

    constructor (objectStore: DistributedObjectStoreImpl, obj: ObjectRef)
      ensures Valid() && fresh(list) && list.Repr() == {}
      ensures this.objectStore == objectStore && this.obj == obj
      ensures list.contents == [] && !isWatched
    {
      this.objectStore, this.obj, isWatched := objectStore, obj, false;
      list := new EventListener();
    }

    method Add(handler: Callback, dbOk: bool) returns (added: bool)
      requires Valid()
      modifies this, list, objectStore, objectStore.engine
      ensures Valid() && fresh(list.Repr() - old(list.Repr()))
      ensures State() == old(State()).Add(obj, handler, dbOk)
      ensures added <==> handler !in old(list.contents)
    {
      if !isWatched {
        var ret := objectStore.Watch(obj, dbOk);
        if ret == SUCCESS {
          isWatched := true;
        }
      }
      added := list.Add(handler);
    }

    method Del(handler: Callback, dbOk: bool) returns (isEmpty: bool)
      requires Valid()
      modifies this, list, list.Repr(), objectStore, objectStore.engine
      ensures Valid() && list.Repr() <= old(list.Repr())
      ensures State() == old(State()).Del(obj, handler, dbOk)
      ensures isEmpty <==> list.contents == []
    {
      isEmpty := list.Del(handler);
      if isEmpty && isWatched {
        var ret := objectStore.UnWatch(obj, dbOk);
        if ret == SUCCESS {
          isWatched := false;
        }
      }
    }

    method Clear(dbOk: bool)
      requires Valid()
      modifies this, list, objectStore, objectStore.engine
      ensures Valid() && list.Repr() == {}
      ensures State() == old(State()).Clear(obj, dbOk)
    {
      list.Clear();
      if isWatched {
        var ret := objectStore.UnWatch(obj, dbOk);
        if ret == SUCCESS {
          isWatched := false;
        }
      }
    }
  }

  class NotifierImpl {
    var watchers: map<SessionId, ObjectId>

    constructor ()
      ensures watchers == map[]
    {
      watchers := map[];
    }

    method AddWatcher(session: SessionId, watcher: ObjectId)
      modifies this
      ensures watchers == old(watchers)[session := watcher]
    {
      watchers := watchers[session := watcher];
    }

    method DelWatcher(session: SessionId)
      modifies this
      ensures watchers == old(watchers) - {session}
    {
      watchers := watchers - {session};
    }
  }

  class StatusEventListener {
    const list: EventListener
    const notifier: NotifierImpl
    const obj: ObjectRef

    ghost predicate Valid()
      reads this, list, list.Repr()
    {
      list.Valid()
    }

    ghost function State(): StatusState
      reads this, list, notifier
    {
      StatusState(list.contents, notifier.watchers)
    }

    constructor (notifier: NotifierImpl, obj: ObjectRef)
      ensures Valid() && fresh(list) && list.Repr() == {}
      ensures this.notifier == notifier && this.obj == obj
      ensures list.contents == []
    {
      this.notifier, this.obj := notifier, obj;
      list := new EventListener();
    }

    method Add(handler: Callback) returns (added: bool)
      requires Valid()
      modifies list, notifier
      ensures Valid() && fresh(list.Repr() - old(list.Repr()))
      ensures State() == old(State()).Add(obj, handler)
      ensures added <==> handler !in old(list.contents)
    {
      notifier.AddWatcher(obj.session, obj.id);
      added := list.Add(handler);
    }

    method Del(handler: Callback) returns (isEmpty: bool)
      requires Valid()
      modifies list, list.Repr(), notifier
      ensures Valid() && list.Repr() <= old(list.Repr())
      ensures State() == old(State()).Del(obj, handler)
      ensures isEmpty <==> list.contents == []
    {
      isEmpty := list.Del(handler);
      if isEmpty {
        notifier.DelWatcher(obj.session);
      }
    }

    method Clear()
      requires Valid()
      modifies list, notifier
      ensures Valid() && list.Repr() == {}
      ensures State() == old(State()).Clear(obj)
    {
      notifier.DelWatcher(obj.session);
      list.Clear();
    }
  }

  /** Both listener lists of one wrapper. */
  class JSWatcher {
    const change: ChangeEventListener
    const status: StatusEventListener

    ghost function Nodes(): set<object>
      reads change.list, status.list
    {
      change.list.Repr() + status.list.Repr()
    }

    /** Every object that belongs to this watcher alone. */
    ghost function Own(): set<object>
      reads change.list, status.list
    {
      {this, change, change.list, status, status.list} + Nodes()
    }

    ghost function Footprint(): set<object>
      reads change.list, status.list
    {
      Own() + {change.objectStore, change.objectStore.engine, status.notifier}
    }

    ghost predicate Valid()
      reads Own()
    {
      && change.Valid() && status.Valid()
      && change.obj == status.obj
      && change.list != status.list
      && change.list.Repr() !! status.list.Repr()
    }

    constructor (objectStore: DistributedObjectStoreImpl, notifier: NotifierImpl, obj: ObjectRef)
      ensures Valid() && fresh(change) && fresh(change.list) && fresh(status) && fresh(status.list)
      ensures Nodes() == {}
      ensures change.obj == obj && change.objectStore == objectStore && status.notifier == notifier
      ensures change.list.contents == [] && status.list.contents == [] && !change.isWatched
    {
      change := new ChangeEventListener(objectStore, obj);
      status := new StatusEventListener(notifier, obj);
    }

    method On(kind: EventType, handler: Callback, dbOk: bool) returns (added: bool)
      requires Valid()
      modifies Footprint()
      ensures Valid() && fresh(Nodes() - old(Nodes()))
      ensures change.State()
           == if kind == Change then old(change.State()).Add(change.obj, handler, dbOk) else old(change.State())
      ensures status.State()
           == if kind == Status then old(status.State()).Add(change.obj, handler) else old(status.State())
      ensures added <==> match kind
                         case Change => handler !in old(change.list.contents)
                         case Status => handler !in old(status.list.contents)
                         case OtherEvent => false
    {
      match kind
      case Change => added := change.Add(handler, dbOk);
      case Status => added := status.Add(handler);
      case OtherEvent => added := false;
    }

    method Off(kind: EventType, handler: Option<Callback>, dbOk: bool)
      requires Valid()
      modifies Footprint()
      ensures Valid() && Nodes() <= old(Nodes())
      ensures change.State() == if kind != Change then old(change.State())
                                else if handler.Some? then old(change.State()).Del(change.obj, handler.value, dbOk)
                                else old(change.State()).Clear(change.obj, dbOk)
      ensures status.State() == if kind != Status then old(status.State())
                                else if handler.Some? then old(status.State()).Del(change.obj, handler.value)
                                else old(status.State()).Clear(change.obj)
    {
      match kind
      case Change =>
        if handler.None? {
          change.Clear(dbOk);
        } else {
          var _ := change.Del(handler.value, dbOk);
        }
      case Status =>
        if handler.None? {
          status.Clear();
        } else {
          var _ := status.Del(handler.value);
        }
      case OtherEvent =>
    }
  }

  class JSObjectWrapper {
    const objectStore: DistributedObjectStoreImpl
    const notifier: NotifierImpl
    const obj: ObjectRef
    var watcher: JSWatcher?
    var undefinedProps: seq<Text>

    /** Every object that belongs to this wrapper alone; store and notifier are shared. */
    ghost var Repr: set<object>

    ghost predicate Valid()
      reads this, Repr
    {
      && this in Repr && objectStore !in Repr && objectStore.engine !in Repr && notifier !in Repr
      && (watcher != null ==>
          && {watcher, watcher.change, watcher.change.list, watcher.status, watcher.status.list} <= Repr
          && watcher.Own() <= Repr && this !in watcher.Own()
          && watcher.Valid()
          && watcher.change.objectStore == objectStore
          && watcher.status.notifier == notifier
          && watcher.change.obj == obj)
    }

    /** The value of the wrapper itself. */
    ghost function Value(): Wrapper
      requires Valid()
      reads this, Repr
    {
      if watcher == null then Wrapper(obj, false, [], false, [], undefinedProps)
      else Wrapper(obj, true, watcher.change.list.contents, watcher.change.isWatched,
                   watcher.status.list.contents, undefinedProps)
    }

    ghost function State(): Bound
      requires Valid()
      reads this, Repr, objectStore, objectStore.engine, notifier
    {
      Bound(Native(objectStore.State(), notifier.watchers), Value())
    }

    constructor (objectStore: DistributedObjectStoreImpl, notifier: NotifierImpl, obj: ObjectRef)
      ensures Valid() && fresh(Repr)
      ensures this.objectStore == objectStore && this.notifier == notifier
      ensures Value() == Wrapper(obj, false, [], false, [], [])
    {
      this.objectStore, this.notifier, this.obj := objectStore, notifier, obj;
      watcher, undefinedProps := null, [];
      Repr := {this};
    }

    /** The watcher is created with the first handler. */
    method MakeWatcher()
      requires Valid()
      modifies this
      ensures Valid() && watcher != null && fresh(Repr - old(Repr))
      ensures Value() == old(Value()).(hasWatcher := true)
    {
      if watcher == null {
        watcher := new JSWatcher(objectStore, notifier, obj);
        Repr := Repr + watcher.Own();
      }
    }

    /** The rest of `AddWatch`, once there is a watcher. */
    method Listen(kind: EventType, handler: Callback, dbOk: bool)
      requires Valid() && watcher != null
      modifies Repr, objectStore, objectStore.engine, notifier
      ensures Valid() && fresh(Repr - old(Repr))
      ensures State() == old(State()).AddWatch(kind, handler, dbOk)
    {
      ghost var b := State();
      var _ := watcher.On(kind, handler, dbOk);
      Repr := Repr + watcher.Own();
      assert State().ChangePart() == watcher.change.State() && State().StatusPart() == watcher.status.State();
      AddWatchParts(b, State(), kind, handler, dbOk);
    }

    method AddWatch(kind: EventType, handler: Callback, dbOk: bool)
      requires Valid()
      modifies Repr, objectStore, objectStore.engine, notifier
      ensures Valid() && fresh(Repr - old(Repr))
      ensures State() == old(State()).AddWatch(kind, handler, dbOk) && SameTables(old(State()), State())
    {
      AddWatchKeepsTables(State(), kind, handler, dbOk);
      MakeWatcher();
      Listen(kind, handler, dbOk);
    }

    method DeleteWatch(kind: EventType, handler: Option<Callback>, dbOk: bool)
      requires Valid()
      modifies Repr, objectStore, objectStore.engine, notifier
      ensures Valid() && fresh(Repr - old(Repr))
      ensures State() == old(State()).DeleteWatch(kind, handler, dbOk) && SameTables(old(State()), State())
    {
      DeleteWatchKeepsTables(State(), kind, handler, dbOk);
      if watcher != null {
        ghost var b := State();
        watcher.Off(kind, handler, dbOk);
        assert State().ChangePart() == watcher.change.State() && State().StatusPart() == watcher.status.State();
        DeleteWatchParts(b, State(), kind, handler, dbOk);
      }
    }

    method IsUndefined(name: Text) returns (found: bool)
      ensures found <==> name in undefinedProps
    {
      found := name in undefinedProps;
    }

    method AddUndefined(name: Text)
      modifies this`undefinedProps
      ensures undefinedProps
           == if name in old(undefinedProps) then old(undefinedProps) else old(undefinedProps) + [name]
    {
      if name !in undefinedProps {
        undefinedProps := undefinedProps + [name];
      }
    }

    /** Finds the first entry and erases it. */
    method DeleteUndefined(name: Text)
      modifies this`undefinedProps
      ensures undefinedProps == WithoutFirst(old(undefinedProps), name)
    {
      var it := 0;
      while it != |undefinedProps| && undefinedProps[it] != name
        invariant it <= |undefinedProps|
        invariant forall i | 0 <= i < it :: undefinedProps[i] != name
        invariant undefinedProps == old(undefinedProps)
      {
        it := it + 1;
      }
      WithoutFirstAt(undefinedProps, name, it);
      if it != |undefinedProps| {
        undefinedProps := undefinedProps[..it] + undefinedProps[it + 1..];
      }
    }
  }
}
