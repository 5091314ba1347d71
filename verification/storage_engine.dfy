/**
 The storage engine: one in-memory table per session
 (frameworks/innerkitsimpl/src/adaptor/flat_object_storage_engine.cpp).

 The database behind a table is external. A table is a map of entries and the set of observers
 registered on it; whether a database call succeeds is an argument (`dbOk`).
 */
module StorageEngine {
  import opened Types

  /** The watcher handed to the database: it reports changes of `session` to the JSWatcher of `target`. */
  datatype TableWatcher = TableWatcher(session: SessionId, target: ObjectId)

  datatype Delegate = Delegate(entries: map<Bytes, Bytes>, observers: set<TableWatcher>)

  const EMPTY_TABLE := Delegate(map[], {})

  datatype Engine = Engine(
    isOpened: bool,
    delegates: map<SessionId, Delegate>,
    observerMap: map<SessionId, TableWatcher>)
  {
    function CreateTable(key: SessionId, dbOk: bool): (Engine, StatusCode) {
      if !isOpened then (this, ERR_DB_NOT_INIT)
      else if key in delegates then (this, ERR_EXIST)
      else if !dbOk then (this, ERR_DB_GETKV_FAIL)
      else (this.(delegates := delegates[key := EMPTY_TABLE]), SUCCESS)
    }

    /** Closing the store removes the table; `observerMap` is not touched. */
    function DeleteTable(key: SessionId, dbOk: bool): (Engine, StatusCode) {
      if !isOpened then (this, ERR_DB_NOT_INIT)
      else if key !in delegates then (this, ERR_DB_NOT_EXIST)
      else if !dbOk then (this, ERR_CLOSE_STORAGE)
      else (this.(delegates := delegates - {key}), SUCCESS)
    }

    function UpdateItem(key: SessionId, itemKey: Bytes, value: Bytes, dbOk: bool): (Engine, StatusCode) {
      if !isOpened then (this, ERR_DB_NOT_INIT)
      else if key !in delegates then (this, ERR_DB_NOT_EXIST)
      else if !dbOk then (this, ERR_CLOSE_STORAGE)
      else (WithEntries(key, delegates[key].entries[itemKey := value]), SUCCESS)
    }

    /** An empty batch is refused with the same code as a store that is not open. */
    function UpdateItems(key: SessionId, data: map<Bytes, Bytes>, dbOk: bool): (Engine, StatusCode) {
      if !isOpened || data == map[] then (this, ERR_DB_NOT_INIT)
      else if key !in delegates then (this, ERR_DB_NOT_EXIST)
      else if !dbOk then (this, ERR_CLOSE_STORAGE)
      else (WithEntries(key, delegates[key].entries + data), SUCCESS)
    }

    function WithEntries(key: SessionId, entries: map<Bytes, Bytes>): Engine
      requires key in delegates
    {
      this.(delegates := delegates[key := delegates[key].(entries := entries)])
    }

    /** An observer that is already recorded counts as registered, whatever table it was registered on. */
    function RegisterObserver(key: SessionId, watcher: TableWatcher, dbOk: bool): (Engine, StatusCode) {
      if !isOpened then (this, ERR_DB_NOT_INIT)
      else if key !in delegates then (this, ERR_DB_NOT_EXIST)
      else if key in observerMap then (this, SUCCESS)
      else if !dbOk then (this, ERR_REGISTER)
      else
        var d := delegates[key];
        (this.(delegates := delegates[key := d.(observers := d.observers + {watcher})],
               observerMap := observerMap[key := watcher]),
         SUCCESS)
    }

    function UnRegisterObserver(key: SessionId, dbOk: bool): (Engine, StatusCode) {
      if !isOpened then (this, ERR_DB_NOT_INIT)
      else if key !in delegates then (this, ERR_DB_NOT_EXIST)
      else if key !in observerMap then (this, ERR_NO_OBSERVER)
      else if !dbOk then (this, ERR_UNRIGSTER)
      else
        var d := delegates[key];
        (this.(delegates := delegates[key := d.(observers := d.observers - {observerMap[key]})],
               observerMap := observerMap - {key}),
         SUCCESS)
    }
  }

  // ---- When each operation succeeds, and what a failure is called ----

  /** The checks that most operations share, in this order. */
  predicate Fails(e: Engine, key: SessionId, status: StatusCode) {
    || (!e.isOpened && status == ERR_DB_NOT_INIT)
    || (e.isOpened && key !in e.delegates && status == ERR_DB_NOT_EXIST)
  }

  /** Nothing but the table of one session differs. */
  ghost predicate OneTable(e: Engine, e': Engine, key: SessionId) {
    e'.isOpened == e.isOpened && e'.delegates - {key} == e.delegates - {key}
  }

  lemma CreateTableExactly(e: Engine, key: SessionId, dbOk: bool)
    ensures var (e', status) := e.CreateTable(key, dbOk);
            && (status == SUCCESS <==> e.isOpened && key !in e.delegates && dbOk)
            && (status == SUCCESS ==>
                && OneTable(e, e', key) && e'.observerMap == e.observerMap
                && key in e'.delegates && e'.delegates[key].entries == map[] && e'.delegates[key].observers == {})
            && (status != SUCCESS ==>
                e' == e && status == if !e.isOpened then ERR_DB_NOT_INIT
                                     else if key in e.delegates then ERR_EXIST else ERR_DB_GETKV_FAIL)
  {
  }

  lemma DeleteTableExactly(e: Engine, key: SessionId, dbOk: bool)
    ensures var (e', status) := e.DeleteTable(key, dbOk);
            && (status == SUCCESS <==> e.isOpened && key in e.delegates && dbOk)
            && (status == SUCCESS ==>
                OneTable(e, e', key) && key !in e'.delegates && e'.observerMap == e.observerMap)
            && (status != SUCCESS ==> e' == e && (Fails(e, key, status) || (!dbOk && status == ERR_CLOSE_STORAGE)))
  {
  }

  lemma UpdateItemExactly(e: Engine, key: SessionId, itemKey: Bytes, value: Bytes, dbOk: bool, other: Bytes)
    ensures var (e', status) := e.UpdateItem(key, itemKey, value, dbOk);
            && (status == SUCCESS <==> e.isOpened && key in e.delegates && dbOk)
            && (status == SUCCESS ==>
                && OneTable(e, e', key) && e'.observerMap == e.observerMap
                && key in e'.delegates && e'.delegates[key].observers == e.delegates[key].observers
                && itemKey in e'.delegates[key].entries && e'.delegates[key].entries[itemKey] == value
                && e'.delegates[key].entries - {itemKey} == e.delegates[key].entries - {itemKey})
            && (status != SUCCESS ==> e' == e && (Fails(e, key, status) || (!dbOk && status == ERR_CLOSE_STORAGE)))
  {
  }

  /** A batch wins over what is there and keeps the rest; an empty one is refused like a store that is not open. */
  lemma UpdateItemsExactly(e: Engine, key: SessionId, data: map<Bytes, Bytes>, dbOk: bool, k: Bytes)
    ensures var (e', status) := e.UpdateItems(key, data, dbOk);
            && (status == SUCCESS <==> e.isOpened && key in e.delegates && dbOk && data != map[])
            && (status == SUCCESS ==>
                && OneTable(e, e', key) && e'.observerMap == e.observerMap
                && key in e'.delegates && e'.delegates[key].observers == e.delegates[key].observers
                && (k in e'.delegates[key].entries <==> k in data || k in e.delegates[key].entries)
                && (k in data ==> e'.delegates[key].entries[k] == data[k])
                && (k !in data && k in e.delegates[key].entries ==>
                    e'.delegates[key].entries[k] == e.delegates[key].entries[k]))
            && (status != SUCCESS ==>
                e' == e && (if data == map[] then status == ERR_DB_NOT_INIT
                            else Fails(e, key, status) || (!dbOk && status == ERR_CLOSE_STORAGE)))
  {
  }

  /** A recorded key counts as registered; otherwise the table gains the observer and the key is recorded. */
  lemma RegisterExactly(e: Engine, key: SessionId, watcher: TableWatcher, dbOk: bool)
    ensures var (e', status) := e.RegisterObserver(key, watcher, dbOk);
            && (status == SUCCESS <==> e.isOpened && key in e.delegates && (key in e.observerMap || dbOk))
            && (status == SUCCESS && key in e.observerMap ==> e' == e)
            && (status == SUCCESS && key !in e.observerMap ==>
                && OneTable(e, e', key) && key in e'.delegates && e'.observerMap == e.observerMap[key := watcher]
                && e'.delegates[key].entries == e.delegates[key].entries
                && e'.delegates[key].observers == e.delegates[key].observers + {watcher})
            && (status != SUCCESS ==> e' == e && (Fails(e, key, status) || (!dbOk && status == ERR_REGISTER)))
  {
  }

  lemma UnRegisterExactly(e: Engine, key: SessionId, dbOk: bool)
    ensures var (e', status) := e.UnRegisterObserver(key, dbOk);
            && (status == SUCCESS <==> e.isOpened && key in e.delegates && key in e.observerMap && dbOk)
            && (status == SUCCESS ==>
                && OneTable(e, e', key) && key in e'.delegates && e'.observerMap == e.observerMap - {key}
                && e'.delegates[key].entries == e.delegates[key].entries
                && e'.delegates[key].observers == e.delegates[key].observers - {e.observerMap[key]})
            && (status != SUCCESS ==>
                e' == e && (Fails(e, key, status) ||
                            status == if key !in e.observerMap then ERR_NO_OBSERVER else ERR_UNRIGSTER))
  {
  }

  /** What the database does with a batch of entries. */
  function PutBatch(entries: map<Bytes, Bytes>, batch: seq<(Bytes, Bytes)>): map<Bytes, Bytes> {
    if batch == [] then entries else
    PutBatch(entries, batch[..|batch| - 1])[batch[|batch| - 1].0 := batch[|batch| - 1].1]
  }

  lemma PutBatchSnoc(entries: map<Bytes, Bytes>, batch: seq<(Bytes, Bytes)>,
                     data: map<Bytes, Bytes>, todo: set<Bytes>, item: Bytes)
    requires item in todo && item in data
    requires PutBatch(entries, batch) == entries + (data - todo)
    ensures PutBatch(entries, batch + [(item, data[item])]) == entries + (data - (todo - {item}))
  {
  }

  /** The entry loop of `UpdateItems`: storing the batch has the effect of storing the map. */
  method BatchOf(data: map<Bytes, Bytes>, ghost entries: map<Bytes, Bytes>) returns (batch: seq<(Bytes, Bytes)>)
    ensures PutBatch(entries, batch) == entries + data
  {
    batch := [];
    var todo := data.Keys;
    while todo != {}
      invariant todo <= data.Keys
      invariant PutBatch(entries, batch) == entries + (data - todo)
      decreases todo
    {
      var item :| item in todo;
      PutBatchSnoc(entries, batch, data, todo, item);
      batch, todo := batch + [(item, data[item])], todo - {item};
    }
    assert data - todo == data;
  }

  class FlatObjectStorageEngine {
    var isOpened: bool
    var delegates: map<SessionId, Delegate>
    var observerMap: map<SessionId, TableWatcher>

    ghost function State(): Engine
      reads this
    {
      Engine(isOpened, delegates, observerMap)
    }

    constructor (isOpened: bool)
      ensures State() == Engine(isOpened, map[], map[])
    {
      this.isOpened := isOpened;
      delegates, observerMap := map[], map[];
    }

    method CreateTable(key: SessionId, dbOk: bool) returns (status: StatusCode)
      modifies this
      ensures (State(), status) == old(State()).CreateTable(key, dbOk)
    {
      if !isOpened {
        return ERR_DB_NOT_INIT;
      }
      if key in delegates {
        return ERR_EXIST;
      }
      if !dbOk {
        return ERR_DB_GETKV_FAIL;
      }
      delegates := delegates[key := EMPTY_TABLE];
      return SUCCESS;
    }

    method DeleteTable(key: SessionId, dbOk: bool) returns (status: StatusCode)
      modifies this
      ensures (State(), status) == old(State()).DeleteTable(key, dbOk)
    {
      if !isOpened {
        return ERR_DB_NOT_INIT;
      }
      if key !in delegates {
        return ERR_DB_NOT_EXIST;
      }
      if !dbOk {
        return ERR_CLOSE_STORAGE;
      }
      delegates := delegates - {key};
      return SUCCESS;
    }

    method UpdateItem(key: SessionId, itemKey: Bytes, value: Bytes, dbOk: bool) returns (status: StatusCode)
      modifies this
      ensures (State(), status) == old(State()).UpdateItem(key, itemKey, value, dbOk)
    {
      if !isOpened {
        return ERR_DB_NOT_INIT;
      }
      if key !in delegates {
        return ERR_DB_NOT_EXIST;
      }
      if !dbOk {
        return ERR_CLOSE_STORAGE;
      }
      var d := delegates[key];
      delegates := delegates[key := d.(entries := d.entries[itemKey := value])];
      return SUCCESS;
    }

    /** The stored bytes; `dbOk` and `failure` are the answer of the database, which knows no missing key. */
    method GetItem(key: SessionId, itemKey: Bytes, dbOk: bool, failure: StatusCode)
      returns (status: StatusCode, value: Bytes)
      requires failure != SUCCESS
      ensures status == SUCCESS <==> isOpened && key in delegates && itemKey in delegates[key].entries && dbOk
      ensures status == SUCCESS ==> value == delegates[key].entries[itemKey]
      ensures !isOpened ==> status == ERR_DB_NOT_INIT
      ensures isOpened && key !in delegates ==> status == ERR_DB_NOT_EXIST
      ensures isOpened && key in delegates && !(itemKey in delegates[key].entries && dbOk) ==> status == failure
    {
      value := [];
      if !isOpened {
        return ERR_DB_NOT_INIT, value;
      }
      if key !in delegates {
        return ERR_DB_NOT_EXIST, value;
      }
      if itemKey !in delegates[key].entries || !dbOk {
        return failure, value;
      }
      return SUCCESS, delegates[key].entries[itemKey];
    }

    /** Copies the map into a batch, entry by entry, and stores the batch. */
    method UpdateItems(key: SessionId, data: map<Bytes, Bytes>, dbOk: bool) returns (status: StatusCode)
      modifies this
      ensures (State(), status) == old(State()).UpdateItems(key, data, dbOk)
    {
      if !isOpened || |data| == 0 {
        return ERR_DB_NOT_INIT;
      }
      if key !in delegates {
        return ERR_DB_NOT_EXIST;
      }
      var batch := BatchOf(data, delegates[key].entries);
      if !dbOk {
        return ERR_CLOSE_STORAGE;
      }
      delegates := delegates[key := delegates[key].(entries := PutBatch(delegates[key].entries, batch))];
      return SUCCESS;
    }

    /** A copy of the whole table; `dbOk` and `failure` are the answer of the database. */
    method GetItems(key: SessionId, dbOk: bool, failure: StatusCode)
      returns (status: StatusCode, data: map<Bytes, Bytes>)
      requires failure != SUCCESS
      ensures status == SUCCESS <==> isOpened && key in delegates && dbOk
      ensures status == SUCCESS ==> data == delegates[key].entries
      ensures status != SUCCESS ==> data == map[]
      ensures !isOpened ==> status == ERR_DB_NOT_INIT
      ensures isOpened && key !in delegates ==> status == ERR_DB_NOT_EXIST
      ensures isOpened && key in delegates && !dbOk ==> status == failure
    {
      data := map[];
      if !isOpened {
        return ERR_DB_NOT_INIT, data;
      }
      if key !in delegates {
        return ERR_DB_NOT_EXIST, data;
      }
      if !dbOk {
        return failure, data;
      }
      var entries := delegates[key].entries;
      var todo := entries.Keys;
      while todo != {}
        invariant todo <= entries.Keys
        invariant data == entries - todo
        decreases |todo|
      {
        var item :| item in todo;
        data := data[item := entries[item]];
        todo := todo - {item};
      }
      return SUCCESS, data;
    }

    method RegisterObserver(key: SessionId, watcher: TableWatcher, dbOk: bool) returns (status: StatusCode)
      modifies this
      ensures (State(), status) == old(State()).RegisterObserver(key, watcher, dbOk)
    {
      if !isOpened {
        return ERR_DB_NOT_INIT;
      }
      if key !in delegates {
        return ERR_DB_NOT_EXIST;
      }
      if key in observerMap {
        return SUCCESS;
      }
      if !dbOk {
        return ERR_REGISTER;
      }
      var d := delegates[key];
      delegates := delegates[key := d.(observers := d.observers + {watcher})];
      observerMap := observerMap[key := watcher];
      return SUCCESS;
    }

    method UnRegisterObserver(key: SessionId, dbOk: bool) returns (status: StatusCode)
      modifies this
      ensures (State(), status) == old(State()).UnRegisterObserver(key, dbOk)
    {
      if !isOpened {
        return ERR_DB_NOT_INIT;
      }
      if key !in delegates {
        return ERR_DB_NOT_EXIST;
      }
      if key !in observerMap {
        return ERR_NO_OBSERVER;
      }
      if !dbOk {
        return ERR_UNRIGSTER;
      }
      var d := delegates[key];
      delegates := delegates[key := d.(observers := d.observers - {observerMap[key]})];
      observerMap := observerMap - {key};
      return SUCCESS;
    }
  }
}
