/**
 `put` and `get` of a joined JavaScript object
 (frameworks/jskitsimpl/src/adaptor/js_distributedobject.cpp), over the wrapper, the typed object
 and the engine. Errors of the layers below are dropped, as the source drops them.
 */
module JsObjects {
  import opened Types
  import opened DistributedObjects
  import Tables = StorageEngine
  import opened WatchChain
  import opened JsValues

  /** Wrapper and typed object are of one session in one store. */
  predicate Linked(w: JSObjectWrapper, o: DistributedObjectImpl) {
    o.engine == w.objectStore.engine && o.session == w.obj.session
  }

  ghost function EntriesOf(o: DistributedObjectImpl): map<Bytes, Bytes>
    reads o.engine
  {
    if o.session in o.engine.delegates then o.engine.delegates[o.session].entries else map[]
  }

  ghost function PropsOf(w: JSObjectWrapper, o: DistributedObjectImpl): Props
    reads w, o.engine
  {
    Props(EntriesOf(o), w.undefinedProps)
  }

  /** The engine accepts an entry only into a table that is there. */
  ghost predicate Accepts(o: DistributedObjectImpl, dbOk: bool)
    reads o.engine
  {
    dbOk && o.engine.isOpened && o.session in o.engine.delegates
  }

  ghost function Answers(o: DistributedObjectImpl, answer: ReadAnswer): ReadAnswer
    reads o.engine
  {
    if o.engine.isOpened then answer else ReadAnswer(false, false)
  }

  function WithTable(e: Tables.Engine, session: SessionId, entries: map<Bytes, Bytes>): Tables.Engine {
    if session in e.delegates then e.WithEntries(session, entries) else e
  }

  lemma SameTable(e: Tables.Engine, session: SessionId)
    ensures session in e.delegates ==> WithTable(e, session, e.delegates[session].entries) == e
  {
  }

  /** A C string: the bytes before the first NUL. */
  method CopyCString(s: Text) returns (r: Text)
    ensures r == CString(s)
  {
    r := [];
    var i := 0;
    while i < |s| && s[i] != 0
      invariant i <= |s| && r + CString(s[i..]) == CString(s)
    {
      assert s[i..][0] == s[i] && s[i..][1..] == s[i + 1..];
      r := r + [s[i]];
      i := i + 1;
    }
  }

  method KeyBuffer(key: Text) returns (k: Text)
    ensures k == NativeKey(key)
  {
    k := CopyCString(if |key| < KEY_SIZE then key else key[..KEY_SIZE - 1]);
  }

  method DoPut(o: DistributedObjectImpl, k: Text, v: Napi, dbOk: bool)
    requires !v.NUndefined?
    modifies o.engine
    ensures o.engine.State() == WithTable(old(o.engine.State()), o.session,
              Props(old(EntriesOf(o)), []).DoPut(k, v, old(Accepts(o, dbOk))))
  {
    SameTable(o.engine.State(), o.session);
    match v
    case NBool(b) =>
      var neighbours: nat := *;
      var _ := o.PutBoolean(k, b, neighbours, dbOk);
    case NNumber(bits) => var _ := o.PutDouble(k, bits, dbOk);
    case NString(text) =>
      var copy := CopyCString(text);
      var _ := o.PutString(k, copy, dbOk);
    case NBytes(bytes) =>
      if |bytes| > 0 {
        var _ := o.PutComplex(k, bytes, dbOk);
      }
    case NOther(_) =>
  }

  method JSPut(w: JSObjectWrapper, o: DistributedObjectImpl, key: Text, v: Napi, dbOk: bool)
    requires Linked(w, o)
    modifies w`undefinedProps, o.engine
    ensures var props := old(PropsOf(w, o)).Put(key, v, old(Accepts(o, dbOk)));
            && w.undefinedProps == props.undefinedProps
            && o.engine.State() == WithTable(old(o.engine.State()), o.session, props.entries)
  {
    SameTable(o.engine.State(), o.session);
    var k := KeyBuffer(key);
    if v.NUndefined? {
      w.AddUndefined(k);
      return;
    }
    w.DeleteUndefined(k);
    DoPut(o, k, v, dbOk);
  }

  /** Two reads: of the type, which stays that of a string if this one fails, and of the value. */
  method DoGet(o: DistributedObjectImpl, k: Text, answer: ReadAnswer, failure: StatusCode) returns (n: Napi)
    requires failure != SUCCESS
    ensures n == Props(EntriesOf(o), []).DoGet(k, Answers(o, answer))
  {
    var ret, t := o.GetType(k, answer.typeOk, failure);
    if ret != SUCCESS || t == 0 {
      var status, text := o.GetString(k, answer.valueOk, failure);
      n := if status == SUCCESS then NString(text) else NUndefined;
    } else if t == 2 {
      var status, bits := o.GetDouble(k, answer.valueOk, failure);
      n := if status == SUCCESS then NNumber(bits) else NUndefined;
    } else if t == 1 {
      var status, b := o.GetBoolean(k, answer.valueOk, failure);
      n := if status == SUCCESS then NBool(b) else NUndefined;
    } else if t == 3 {
      var status, bytes := o.GetComplex(k, answer.valueOk, failure);
      n := if status == SUCCESS then NBytes(bytes) else NUndefined;
    } else {
      n := NUndefined;
    }
  }

  method JSGet(w: JSObjectWrapper, o: DistributedObjectImpl, key: Text, answer: ReadAnswer, failure: StatusCode)
      returns (n: Napi)
    requires Linked(w, o) && failure != SUCCESS
    ensures n == PropsOf(w, o).Get(key, Answers(o, answer))
  {
    var k := KeyBuffer(key);
    var undefined := w.IsUndefined(k);
    if undefined {
      return NUndefined;
    }
    n := DoGet(o, k, answer, failure);
  }
}
