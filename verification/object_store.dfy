/**
 The cache of open objects over the storage engine
 (frameworks/innerkitsimpl/src/adaptor/distributed_object_store_impl.cpp).

 `FlatObjectStore` only repeats the engine's open check and forwards, so it is folded in here.
 */
module ObjectStores {
  import opened Types
  import opened StorageEngine

  /** A cached `DistributedObject`: its address and the session it was created for. */
  datatype ObjectRef = ObjectRef(id: ObjectId, session: SessionId)

  datatype Store = Store(
    engine: Engine,
    objects: seq<ObjectRef>,
    watchers: map<ObjectId, TableWatcher>,
    nextId: ObjectId)
  {
    function CreateObject(session: SessionId, dbOk: bool, allocOk: bool): (Store, Option<ObjectId>) {
      var (engine', status) := engine.CreateTable(session, dbOk);
      if status != SUCCESS then (this.(engine := engine'), None)
      else if !allocOk then (this.(engine := engine'), None)
      else (this.(engine := engine', objects := objects + [ObjectRef(nextId, session)], nextId := nextId + 1),
            Some(nextId))
    }

    function DeleteObject(session: SessionId, dbOk: bool): (Store, StatusCode) {
      var (engine', status) := engine.DeleteTable(session, dbOk);
      if status != SUCCESS then (this.(engine := engine'), status)
      else (this.(engine := engine', objects := Remaining(objects, session)), SUCCESS)
    }

    function Watch(obj: ObjectRef, dbOk: bool): (Store, StatusCode) {
      if obj.id in watchers then (this, ERR_EXIST)
      else
        var watcher := TableWatcher(obj.session, obj.id);
        var (engine', status) := engine.RegisterObserver(obj.session, watcher, dbOk);
        if status != SUCCESS then (this.(engine := engine'), status)
        else (this.(engine := engine', watchers := watchers[obj.id := watcher]), SUCCESS)
    }

    function UnWatch(obj: ObjectRef, dbOk: bool): (Store, StatusCode) {
      var (engine', status) := engine.UnRegisterObserver(obj.session, dbOk);
      if status != SUCCESS then (this.(engine := engine'), status)
      else (this.(engine := engine', watchers := watchers - {obj.id}), SUCCESS)
    }

    /** Every cached object has its own address and its own session. */
    ghost predicate Distinct() {
      && (forall i | 0 <= i < |objects| :: objects[i].id < nextId)
      && (forall i, j | 0 <= i < j < |objects| ::
            objects[i].id != objects[j].id && objects[i].session != objects[j].session)
    }

    /** The cached sessions are exactly the sessions that have a table. */
    ghost predicate Consistent() {
      && Distinct()
      && Sessions(objects) == engine.delegates.Keys
    }
  }

  /** A new object is the last of the cache and has an address that none had before. */
  lemma CreateObjectExactly(st: Store, session: SessionId, dbOk: bool, allocOk: bool)
    ensures var (st', obj) := st.CreateObject(session, dbOk, allocOk);
            && (obj.Some? <==> st.engine.isOpened && session !in st.engine.delegates && dbOk && allocOk)
            && st'.engine == st.engine.CreateTable(session, dbOk).0 && st'.watchers == st.watchers
            && (obj.Some? ==>
                obj.value == st.nextId < st'.nextId && st'.objects == st.objects + [ObjectRef(st.nextId, session)])
            && (obj.None? ==> st'.objects == st.objects && st'.nextId == st.nextId)
  {
    CreateTableExactly(st.engine, session, dbOk);
  }

  /** The objects of a session go with its table, and stay if it stays. */
  lemma DeleteObjectExactly(st: Store, session: SessionId, dbOk: bool)
    ensures var (st', status) := st.DeleteObject(session, dbOk);
            && (st'.engine, status) == st.engine.DeleteTable(session, dbOk)
            && st'.watchers == st.watchers && st'.nextId == st.nextId
            && (forall o :: o in st'.objects <==> o in st.objects && (status == SUCCESS ==> o.session != session))
            && (status != SUCCESS ==> st' == st)
  {
    DeleteTableExactly(st.engine, session, dbOk);
    RemainingMembers(st.objects, session);
  }

  /** A known object is refused; any other is recorded exactly when its observer is accepted. */
  lemma WatchExactly(st: Store, obj: ObjectRef, dbOk: bool)
    ensures var (st', status) := st.Watch(obj, dbOk);
            && (obj.id in st.watchers ==> st' == st && status == ERR_EXIST)
            && (obj.id !in st.watchers ==>
                && (st'.engine, status) ==
                   st.engine.RegisterObserver(obj.session, TableWatcher(obj.session, obj.id), dbOk)
                && (obj.id in st'.watchers <==> status == SUCCESS))
            && st'.watchers - {obj.id} == st.watchers - {obj.id}
            && st'.objects == st.objects && st'.nextId == st.nextId
  {
  }

  lemma UnWatchExactly(st: Store, obj: ObjectRef, dbOk: bool)
    ensures var (st', status) := st.UnWatch(obj, dbOk);
            && (st'.engine, status) == st.engine.UnRegisterObserver(obj.session, dbOk)
            && (obj.id in st'.watchers <==> obj.id in st.watchers && status != SUCCESS)
            && st'.watchers - {obj.id} == st.watchers - {obj.id}
            && st'.objects == st.objects && st'.nextId == st.nextId
  {
  }

  ghost function Sessions(objects: seq<ObjectRef>): set<SessionId> {
    set o | o in objects :: o.session
  }

  /** The cache without the objects of `session`. */
  function Remaining(objects: seq<ObjectRef>, session: SessionId): seq<ObjectRef> {
    if objects == [] then [] else
    (if objects[0].session == session then [] else [objects[0]]) + Remaining(objects[1..], session)
  }

  /** One object at a time, and in order. */
  lemma {:induction false} RemainingConcat(a: seq<ObjectRef>, b: seq<ObjectRef>, session: SessionId)
    ensures Remaining(a + b, session) == Remaining(a, session) + Remaining(b, session)
    ensures |a| == 1 ==> Remaining(a, session) == if a[0].session == session then [] else a
  {
    if a == [] {
      assert a + b == b;
    } else {
      assert (a + b)[0] == a[0] && (a + b)[1..] == a[1..] + b;
      RemainingConcat(a[1..], b, session);
    }
  }

  /** Exactly the objects of the other sessions remain. */
  lemma {:induction false} RemainingMembers(objects: seq<ObjectRef>, session: SessionId)
    ensures forall o :: o in Remaining(objects, session) <==> o in objects && o.session != session
  {
    if objects != [] {
      RemainingMembers(objects[1..], session);
    }
  }

  /** Both moves of the erase loop keep what will be left in the end. */
  lemma EraseStep(s: seq<ObjectRef>, iter: nat, session: SessionId)
    requires iter < |s|
    ensures var s' := s[..iter] + s[iter + 1..];
            s[iter].session == session ==>
              s'[..iter] + Remaining(s'[iter..], session) == s[..iter] + Remaining(s[iter..], session)
    ensures s[iter].session != session ==>
              s[..iter + 1] + Remaining(s[iter + 1..], session) == s[..iter] + Remaining(s[iter..], session)
  {
  }

  class DistributedObjectStoreImpl {
    const engine: FlatObjectStorageEngine
    var objects: seq<ObjectRef>
    var watchers: map<ObjectId, TableWatcher>
    var nextId: ObjectId

    ghost function State(): Store
      reads this, engine
    {
      Store(engine.State(), objects, watchers, nextId)
    }

    constructor (engine: FlatObjectStorageEngine)
      ensures this.engine == engine
      ensures State() == Store(engine.State(), [], map[], 0)
    {
      this.engine := engine;
      objects, watchers, nextId := [], map[], 0;
    }

    method CacheObject(session: SessionId, allocOk: bool) returns (obj: Option<ObjectId>)
      modifies this
      ensures obj == if allocOk then Some(old(nextId)) else None
      ensures objects == if allocOk then old(objects) + [ObjectRef(old(nextId), session)] else old(objects)
      ensures nextId == old(nextId) + (if allocOk then 1 else 0) && watchers == old(watchers)
    {
      if !allocOk {
        return None;
      }
      obj := Some(nextId);
      objects := objects + [ObjectRef(nextId, session)];
      nextId := nextId + 1;
    }

    /** Erases in place every cached object of `session`. */
    method RemoveCacheObject(session: SessionId)
      modifies this
      ensures objects == Remaining(old(objects), session)
      ensures watchers == old(watchers) && nextId == old(nextId)
    {
      var iter := 0;
      while iter != |objects|
        invariant iter <= |objects|
        invariant objects[..iter] + Remaining(objects[iter..], session) == Remaining(old(objects), session)
        invariant watchers == old(watchers) && nextId == old(nextId)
        decreases |objects| - iter
      {
        EraseStep(objects, iter, session);
        if objects[iter].session == session {
          objects := objects[..iter] + objects[iter + 1..];
        } else {
          iter := iter + 1;
        }
      }
    }

    method CreateObject(session: SessionId, dbOk: bool, allocOk: bool) returns (obj: Option<ObjectId>)
      modifies this, engine
      ensures (State(), obj) == old(State()).CreateObject(session, dbOk, allocOk)
    {
      var status := engine.CreateTable(session, dbOk);
      if status != SUCCESS {
        return None;
      }
      obj := CacheObject(session, allocOk);
    }

    method DeleteObject(session: SessionId, dbOk: bool) returns (status: StatusCode)
      modifies this, engine
      ensures (State(), status) == old(State()).DeleteObject(session, dbOk)
    {
      status := engine.DeleteTable(session, dbOk);
      if status != SUCCESS {
        return status;
      }
      RemoveCacheObject(session);
    }

    /** The first cached object of the session, if there is one. */
    method Get(session: SessionId) returns (status: StatusCode, obj: Option<ObjectRef>)
      ensures status == SUCCESS <==> session in Sessions(objects)
      ensures status != SUCCESS ==> status == ERR_GET_OBJECT && obj == None
      ensures status == SUCCESS ==> obj.Some? && obj.value in objects && obj.value.session == session
    {
      var iter := 0;
      while iter != |objects|
        invariant iter <= |objects|
        invariant forall i | 0 <= i < iter :: objects[i].session != session
      {
        if objects[iter].session == session {
          return SUCCESS, Some(objects[iter]);
        }
        iter := iter + 1;
      }
      return ERR_GET_OBJECT, None;
    }

    method Watch(obj: ObjectRef, dbOk: bool) returns (status: StatusCode)
      modifies this, engine
      ensures (State(), status) == old(State()).Watch(obj, dbOk)
    {
      if obj.id in watchers {
        return ERR_EXIST;
      }
      var watcher := TableWatcher(obj.session, obj.id);
      status := engine.RegisterObserver(obj.session, watcher, dbOk);
      if status != SUCCESS {
        return status;
      }
      watchers := watchers[obj.id := watcher];
    }

    method UnWatch(obj: ObjectRef, dbOk: bool) returns (status: StatusCode)
      modifies this, engine
      ensures (State(), status) == old(State()).UnWatch(obj, dbOk)
    {
      status := engine.UnRegisterObserver(obj.session, dbOk);
      if status != SUCCESS {
        return status;
      }
      watchers := watchers - {obj.id};
    }
  }

  // ---- Agreement of the cache and the tables over every run ----

  datatype StoreCall =
    | Create(session: SessionId, dbOk: bool, allocOk: bool)
    | Delete(session: SessionId, dbOk: bool)

  function ApplyCall(st: Store, call: StoreCall): Store {
    match call
    case Create(session, dbOk, allocOk) => st.CreateObject(session, dbOk, allocOk).0
    case Delete(session, dbOk) => st.DeleteObject(session, dbOk).0
  }

  function RunCalls(st: Store, calls: seq<StoreCall>): Store {
    if calls == [] then st else ApplyCall(RunCalls(st, calls[..|calls| - 1]), calls[|calls| - 1])
  }

  /** A create that makes the table but cannot allocate the object. */
  ghost predicate LosesObject(st: Store, call: StoreCall) {
    call.Create? && !call.allocOk && st.engine.CreateTable(call.session, call.dbOk).1 == SUCCESS
  }

  lemma {:induction false} RemainingDistinct(st: Store, objects: seq<ObjectRef>, session: SessionId)
    requires st.(objects := objects).Distinct()
    ensures st.(objects := Remaining(objects, session)).Distinct()
  {
    if objects != [] {
      RemainingDistinct(st, objects[1..], session);
      RemainingMembers(objects[1..], session);
    }
  }

  lemma CreateConsistent(st: Store, session: SessionId, dbOk: bool, allocOk: bool)
    requires st.Consistent()
    ensures var call := Create(session, dbOk, allocOk);
            && ApplyCall(st, call).Distinct()
            && (ApplyCall(st, call).Consistent() <==> !LosesObject(st, call))
  {
  }

  lemma DeleteConsistent(st: Store, session: SessionId, dbOk: bool)
    requires st.Consistent()
    ensures ApplyCall(st, Delete(session, dbOk)).Consistent()
  {
    if st.engine.DeleteTable(session, dbOk).1 == SUCCESS {
      RemainingDistinct(st, st.objects, session);
      RemainingMembers(st.objects, session);
      assert Sessions(Remaining(st.objects, session)) == Sessions(st.objects) - {session};
    }
  }

  lemma ApplyConsistent(st: Store, call: StoreCall)
    requires st.Consistent()
    ensures ApplyCall(st, call).Consistent() <==> !LosesObject(st, call)
  {
    match call
    case Create(session, dbOk, allocOk) => CreateConsistent(st, session, dbOk, allocOk);
    case Delete(session, dbOk) => DeleteConsistent(st, session, dbOk);
  }

  /** Cache and tables agree after every run in which no call loses an object. */
  lemma {:induction false} RunConsistent(st: Store, calls: seq<StoreCall>)
    requires st.Consistent()
    requires forall i | 0 <= i < |calls| :: !LosesObject(RunCalls(st, calls[..i]), calls[i])
    ensures RunCalls(st, calls).Consistent()
  {
    if calls != [] {
      var front := calls[..|calls| - 1];
      forall i | 0 <= i < |front| ensures !LosesObject(RunCalls(st, front[..i]), front[i]) {
        assert front[..i] == calls[..i];
      }
      RunConsistent(st, front);
      ApplyConsistent(RunCalls(st, front), calls[|calls| - 1]);
    }
  }

  /** After such a run `Get` succeeds for exactly the sessions that have a table, and every cached object is found. */
  lemma GetFindsTables(st: Store, calls: seq<StoreCall>, session: SessionId)
    requires st.Consistent()
    requires forall i | 0 <= i < |calls| :: !LosesObject(RunCalls(st, calls[..i]), calls[i])
    ensures var st' := RunCalls(st, calls);
            session in Sessions(st'.objects) <==> session in st'.engine.delegates
    ensures var st' := RunCalls(st, calls);
            forall o, o' | o in st'.objects && o' in st'.objects && o.session == o'.session :: o == o'
  {
    RunConsistent(st, calls);
  }

  /** A create that loses its object: the table is there, `Get` does not find it, and it cannot be created again. */
  lemma LostObject(session: SessionId, dbOk: bool, allocOk: bool)
    ensures var empty := Store(Engine(true, map[], map[]), [], map[], 0);
            var (st, obj) := empty.CreateObject(session, true, false);
            && empty.Consistent() && LosesObject(empty, Create(session, true, false))
            && obj == None && !st.Consistent()
            && session in st.engine.delegates && session !in Sessions(st.objects)
            && st.CreateObject(session, dbOk, allocOk) == (st, None)
  {
  }
}
