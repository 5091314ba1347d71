/**
 The calls of a proxy, step by step on the heap: one wrapper with its linked lists per joined proxy, over
 one object store and one notifier that all of them share. Every call is proved to have exactly the
 effect that `Runtime` specifies.
 */
module RuntimeObjects {
  import opened Types
  import opened Sequences
  import Tables = StorageEngine
  import opened ObjectStores
  import opened WatchChain
  import opened DistributedObjects
  import opened JsValues
  import JsObjects
  import opened Runtime

  // ---- The callback record ----

  /** Both moves of the erase loop keep what will be left in the end. */
  lemma EraseEqualStep(s: seq<Callback>, iter: nat, x: Callback)
    requires iter < |s|
    ensures var s' := s[..iter] + s[iter + 1..];
            s[iter] == x ==> s'[..iter] + Without(s'[iter..], x) == s[..iter] + Without(s[iter..], x)
    ensures s[iter] != x ==> s[..iter + 1] + Without(s[iter + 1..], x) == s[..iter] + Without(s[iter..], x)
  {
  }

  /** The recorded list without every equal callback; an empty list is erased from the record. */
  method EraseCallback(record: Record, p: ProxyId, handler: Callback) returns (record': Record)
    ensures record' == DelCallback(record, p, handler)
  {
    if p !in record {
      return record;
    }
    var lists := record[p];
    var iter := 0;
    while iter != |lists|
      invariant iter <= |lists|
      invariant lists[..iter] + Without(lists[iter..], handler) == Without(record[p], handler)
      decreases |lists| - iter
    {
      EraseEqualStep(lists, iter, handler);
      if lists[iter] == handler {
        lists := lists[..iter] + lists[iter + 1..];
      } else {
        iter := iter + 1;
      }
    }
    assert lists == lists[..iter] + Without(lists[iter..], handler);
    record' := if lists == [] then record - {p} else record[p := lists];
  }

  // ---- One wrapper ----

  lemma RestoreSnoc(b: Bound, kind: EventType, handlers: seq<Callback>, registerOk: nat -> bool, i: nat)
    requires i < |handlers|
    ensures Restore(b, kind, handlers[..i + 1], registerOk) ==
            Restore(b, kind, handlers[..i], registerOk).AddWatch(kind, handlers[i], registerOk(i))
  {
    assert handlers[..i + 1][..i] == handlers[..i];
  }

  /** One step of the replay. */
  method RestoreNext(w: JSObjectWrapper, ghost b: Bound, kind: EventType, handlers: seq<Callback>,
                     registerOk: nat -> bool, i: nat)
    requires w.Valid() && i < |handlers| && w.State() == Restore(b, kind, handlers[..i], registerOk)
    modifies w.Repr, w.objectStore, w.objectStore.engine, w.notifier
    ensures w.Valid() && fresh(w.Repr - old(w.Repr))
    ensures w.State() == Restore(b, kind, handlers[..i + 1], registerOk) && SameTables(old(w.State()), w.State())
  {
    w.AddWatch(kind, handlers[i], registerOk(i));
    RestoreSnoc(b, kind, handlers, registerOk, i);
  }

  /** Replays the recorded callbacks of one type on a new wrapper. */
  method RestoreWatchers(w: JSObjectWrapper, kind: EventType, handlers: seq<Callback>, registerOk: nat -> bool)
    requires w.Valid()
    modifies w.Repr, w.objectStore, w.objectStore.engine, w.notifier
    ensures w.Valid() && fresh(w.Repr - old(w.Repr))
    ensures w.State() == Restore(old(w.State()), kind, handlers, registerOk) && SameTables(old(w.State()), w.State())
  {
    ghost var b := w.State();
    for i := 0 to |handlers|
      invariant w.Valid() && fresh(w.Repr - old(w.Repr))
      invariant w.State() == Restore(b, kind, handlers[..i], registerOk) && SameTables(b, w.State())
    {
      RestoreNext(w, b, kind, handlers, registerOk, i);
    }
    assert handlers[..|handlers|] == handlers;
  }

  /** Without an open store there is no table. */
  ghost predicate TablesOpen(e: Tables.FlatObjectStorageEngine)
    reads e
  {
    e.delegates != map[] ==> e.isOpened
  }

  /** Reads one property through its accessor; `failure` is the status of a read the database refuses. */
  method Fetch(w: JSObjectWrapper, o: DistributedObjectImpl, key: Text, answer: ReadAnswer, failure: StatusCode)
      returns (v: JsValue)
    requires JsObjects.Linked(w, o) && TablesOpen(o.engine) && failure != SUCCESS
    ensures v == Props(JsObjects.EntriesOf(o), w.undefinedProps).Read(key, answer)
  {
    var n := JsObjects.JSGet(w, o, key, answer, failure);
    v := GetterResult(n);
  }

  /** Reads every property through its accessor. */
  method ReadAll(w: JSObjectWrapper, o: DistributedObjectImpl, keys: seq<Text>, readAs: nat -> ReadAnswer,
                 failure: StatusCode)
      returns (values: map<Text, JsValue>)
    requires w.Valid() && JsObjects.Linked(w, o) && TablesOpen(o.engine) && failure != SUCCESS
    ensures values == ValuesOf(w.State().native, Joined(w.Value()), keys, readAs)
  {
    ghost var native, form := w.State().native, Joined(w.Value());
    assert PropsOf(native, form.wrapper) == Props(JsObjects.EntriesOf(o), w.undefinedProps);
    values := map[];
    for i := 0 to |keys|
      invariant values == ValuesOf(native, form, keys[..i], readAs)
    {
      assert keys[..i + 1][..i] == keys[..i];
      var v := Fetch(w, o, keys[i], readAs(i), failure);
      values := values[keys[i] := v];
    }
    assert keys[..|keys|] == keys;
  }

  /** Assigns to one property through its accessor. */
  method Assign(w: JSObjectWrapper, o: DistributedObjectImpl, key: Text, v: JsValue, dbOk: bool)
    requires w.Valid() && JsObjects.Linked(w, o) && TablesOpen(o.engine)
    modifies w`undefinedProps, o.engine
    ensures w.Valid() && TablesOpen(o.engine)
    ensures o.engine.delegates.Keys == old(o.engine.delegates).Keys
    ensures w.State() == WithProps(old(w.State()), PropsOf(old(w.State()).native, old(w.Value())).Write(key, v, dbOk))
  {
    ghost var b := w.State();
    assert PropsOf(b.native, b.wrapper) == JsObjects.PropsOf(w, o);
    JsObjects.JSPut(w, o, key, SetterArgument(v), dbOk);
  }

  lemma WithPropsTwice(b: Bound, props: Props, props': Props)
    requires b.wrapper.obj.session in b.native.store.engine.delegates
    ensures WithProps(WithProps(b, props), props') == WithProps(b, props')
    ensures PropsOf(WithProps(b, props).native, WithProps(b, props).wrapper) == props
  {
  }

  /** Copies every property that is not null or undefined into the table of the new session. */
  method CopyProperties(w: JSObjectWrapper, o: DistributedObjectImpl, keys: seq<Text>, values: map<Text, JsValue>,
                        putOk: nat -> bool)
    requires w.Valid() && JsObjects.Linked(w, o) && TablesOpen(o.engine) && o.session in o.engine.delegates
    modifies w`undefinedProps, o.engine
    ensures w.Valid() && TablesOpen(o.engine)
    ensures w.State()
         == WithProps(old(w.State()),
                      Migrate(PropsOf(old(w.State()).native, old(w.Value())), keys, values, putOk))
  {
    ghost var b := w.State();
    ghost var props := PropsOf(b.native, b.wrapper);
    for i := 0 to |keys|
      invariant w.Valid() && TablesOpen(o.engine) && o.session in o.engine.delegates
      invariant w.State() == WithProps(b, Migrate(props, keys[..i], values, putOk))
    {
      assert keys[..i + 1][..i] == keys[..i];
      var v := if keys[i] in values then values[keys[i]] else Undefined;
      ghost var done := Migrate(props, keys[..i], values, putOk);
      if Carried(v) {
        Assign(w, o, keys[i], v, putOk(i));
        WithPropsTwice(b, done, done.Write(keys[i], v, putOk(i)));
      }
    }
    assert keys[..|keys|] == keys;
  }

  // ---- All proxies ----

  function Cleared(b: Bound, dbOk: bool): Bound {
    b.DeleteWatch(Change, None, dbOk).DeleteWatch(Status, None, dbOk)
  }

  /** Both listener lists of a wrapper are cleared. */
  method ClearWatches(w: JSObjectWrapper, dbOk: bool)
    requires w.Valid()
    modifies w.Repr, w.objectStore, w.objectStore.engine, w.notifier
    ensures w.Valid() && fresh(w.Repr - old(w.Repr))
    ensures w.State() == Cleared(old(w.State()), dbOk) && SameTables(old(w.State()), w.State())
  {
    w.DeleteWatch(Change, None, dbOk);
    w.DeleteWatch(Status, None, dbOk);
  }

  lemma DropChanged<K, V>(m: map<K, V>, k: K, v: V)
    ensures m[k := v] - {k} == m - {k}
  {
  }

  lemma DestroyIsClearAndDelete(b: Bound, outcome: Outcome)
    ensures var n := Cleared(b, outcome.unregisterOk).native;
            Destroy(b, outcome) == n.(store := n.store.DeleteObject(b.wrapper.obj.session, outcome.closeOk).0)
  {
  }

  function Furnished(b: Bound, keys: seq<Text>, values: map<Text, JsValue>,
                     change: seq<Callback>, status: seq<Callback>, outcome: Outcome): Bound {
    var b' := Restore(Restore(b, Change, change, outcome.registerOk), Status, status, outcome.registerOk);
    WithProps(b', Migrate(PropsOf(b'.native, b'.wrapper), keys, values, outcome.putOk))
  }

  /** Handlers and properties for a new wrapper. */
  method Furnish(w: JSObjectWrapper, o: DistributedObjectImpl, keys: seq<Text>, values: map<Text, JsValue>,
                 change: seq<Callback>, status: seq<Callback>, outcome: Outcome)
    requires w.Valid() && JsObjects.Linked(w, o) && TablesOpen(o.engine) && o.session in o.engine.delegates
    modifies w.Repr, w.objectStore, w.objectStore.engine, w.notifier
    ensures w.Valid() && fresh(w.Repr - old(w.Repr)) && TablesOpen(o.engine)
    ensures w.State() == Furnished(old(w.State()), keys, values, change, status, outcome)
  {
    RestoreWatchers(w, Change, change, outcome.registerOk);
    RestoreWatchers(w, Status, status, outcome.registerOk);
    CopyProperties(w, o, keys, values, outcome.putOk);
  }

  /** Creating the object of a session, with all that the joining proxy brings along. */
  function Built(native: Native, session: SessionId, keys: seq<Text>, values: map<Text, JsValue>,
                 change: seq<Callback>, status: seq<Callback>, outcome: Outcome): (Native, Option<Wrapper>) {
    var (store', obj) := native.store.CreateObject(session, outcome.createOk, outcome.allocOk);
    var native' := native.(store := store');
    if obj.None? then (native', None)
    else
      var b := Bound(native', Wrapper(ObjectRef(obj.value, session), false, [], false, [], []));
      var b' := Furnished(b, keys, values, change, status, outcome);
      (b'.native, Some(b'.wrapper))
  }

  /** This is what `CreateOn` and the copying of the properties make together. */
  lemma BuiltIsJoin(native: Native, session: SessionId, keys: seq<Text>, values: map<Text, JsValue>,
                    change: seq<Callback>, status: seq<Callback>, outcome: Outcome)
    ensures var (native', wrapper) := CreateOn(native, session, change, status, outcome);
            Built(native, session, keys, values, change, status, outcome) ==
            if wrapper.None? then (native', None)
            else
              var b := WithProps(Bound(native', wrapper.value),
                                 Migrate(PropsOf(native', wrapper.value), keys, values, outcome.putOk));
              (b.native, Some(b.wrapper))
  {
  }

  // ---- The native side and the rest of the world ----

  /** What JavaScript and the global callback record hold: all but the joined objects. */
  datatype Outside = Outside(
    keys: map<ProxyId, seq<Text>>,
    locals: map<ProxyId, map<Text, JsValue>>,  // proxies outside sessions
    changeCallBacks: Record,
    statusCallBacks: Record)

  function InWorld(out: Outside, native: Native, joined: map<ProxyId, Form>): World {
    World(native, map p | p in out.keys :: Proxy(out.keys[p], FormIn(out, joined, p)),
          out.changeCallBacks, out.statusCallBacks)
  }

  function FormIn(out: Outside, joined: map<ProxyId, Form>, p: ProxyId): Form {
    if p in joined then joined[p] else if p in out.locals then Local(out.locals[p]) else Local(map[])
  }

  /** A joined proxy changes. */
  lemma JoinedChanges(out: Outside, n: Native, joined: map<ProxyId, Form>, p: ProxyId, b: Bound)
    requires p in out.keys
    ensures InWorld(out, b.native, joined[p := Joined(b.wrapper)]) == InWorld(out, n, joined).WithBound(p, b)
  {
  }

  /** The native side and the joined objects, after a step on one of them. */
  function Stepped(joined: map<ProxyId, Form>, p: ProxyId, b: Bound): (Native, map<ProxyId, Form>) {
    (b.native, joined[p := Joined(b.wrapper)])
  }

  function AfterListen(n: Native, joined: map<ProxyId, Form>, p: ProxyId, kind: EventType, handler: Callback,
                       dbOk: bool)
      : (Native, map<ProxyId, Form>) {
    if p !in joined || joined[p].Local? then (n, joined)
    else Stepped(joined, p, Bound(n, joined[p].wrapper).AddWatch(kind, handler, dbOk))
  }

  function AfterUnlisten(n: Native, joined: map<ProxyId, Form>, p: ProxyId, kind: EventType, handler: Option<Callback>,
                         dbOk: bool): (Native, map<ProxyId, Form>) {
    if p !in joined || joined[p].Local? then (n, joined)
    else Stepped(joined, p, Bound(n, joined[p].wrapper).DeleteWatch(kind, handler, dbOk))
  }

  lemma ListenStep(n: Native, joined: map<ProxyId, Form>, p: ProxyId, b: Bound,
                   kind: EventType, handler: Callback, dbOk: bool)
    requires p in joined && joined[p] == Joined(b.wrapper) && n == b.native
    ensures AfterListen(n, joined, p, kind, handler, dbOk) == Stepped(joined, p, b.AddWatch(kind, handler, dbOk))
  {
  }

  lemma UnlistenStep(n: Native, joined: map<ProxyId, Form>, p: ProxyId, b: Bound,
                     kind: EventType, handler: Option<Callback>, dbOk: bool)
    requires p in joined && joined[p] == Joined(b.wrapper) && n == b.native
    ensures AfterUnlisten(n, joined, p, kind, handler, dbOk) == Stepped(joined, p, b.DeleteWatch(kind, handler, dbOk))
  {
  }

  lemma SetStep(n: Native, joined: map<ProxyId, Form>, p: ProxyId, b: Bound, key: Text, v: JsValue, dbOk: bool)
    requires p in joined && joined[p] == Joined(b.wrapper) && n == b.native
    ensures AfterSet(n, joined, p, key, v, dbOk) ==
            Stepped(joined, p, WithProps(b, PropsOf(b.native, b.wrapper).Write(key, v, dbOk)))
  {
  }

  function Noted(out: Outside, p: ProxyId, kind: EventType, handler: Callback): Outside {
    match kind
    case Change => out.(changeCallBacks := AddCallback(out.changeCallBacks, p, handler))
    case Status => out.(statusCallBacks := AddCallback(out.statusCallBacks, p, handler))
    case OtherEvent => out
  }

  function Erased(out: Outside, p: ProxyId, kind: EventType, handler: Callback): Outside {
    match kind
    case Change => out.(changeCallBacks := DelCallback(out.changeCallBacks, p, handler))
    case Status => out.(statusCallBacks := DelCallback(out.statusCallBacks, p, handler))
    case OtherEvent => out
  }

  method EraseFrom(out: Outside, p: ProxyId, kind: EventType, handler: Option<Callback>) returns (out': Outside)
    ensures out' == if handler.Some? then Erased(out, p, kind, handler.value) else out
  {
    if handler.None? {
      return out;
    }
    match kind
    case Change =>
      var record := EraseCallback(out.changeCallBacks, p, handler.value);
      out' := out.(changeCallBacks := record);
    case Status =>
      var record := EraseCallback(out.statusCallBacks, p, handler.value);
      out' := out.(statusCallBacks := record);
    case OtherEvent => out' := out;
  }

  lemma NotedInWorld(out: Outside, n: Native, joined: map<ProxyId, Form>, p: ProxyId, kind: EventType,
                     handler: Callback)
    ensures var w := InWorld(out, n, joined);
            InWorld(Noted(out, p, kind, handler), n, joined) ==
            match kind
            case Change => w.(changeCallBacks := AddCallback(w.changeCallBacks, p, handler))
            case Status => w.(statusCallBacks := AddCallback(w.statusCallBacks, p, handler))
            case OtherEvent => w
  {
  }

  lemma OnInWorld(out: Outside, n: Native, joined: map<ProxyId, Form>, p: ProxyId,
                  kind: EventType, handler: Callback, dbOk: bool)
    requires p in out.keys
    ensures var (n', joined') := AfterListen(n, joined, p, kind, handler, dbOk);
            InWorld(Noted(out, p, kind, handler), n', joined') == InWorld(out, n, joined).On(p, kind, handler, dbOk)
  {
    var (n', joined') := AfterListen(n, joined, p, kind, handler, dbOk);
    NotedInWorld(out, n', joined', p, kind, handler);
    if p in joined && joined[p].Joined? {
      JoinedChanges(out, n, joined, p, Bound(n, joined[p].wrapper).AddWatch(kind, handler, dbOk));
    }
  }

  lemma ErasedInWorld(out: Outside, n: Native, joined: map<ProxyId, Form>, p: ProxyId, kind: EventType,
                      handler: Callback)
    ensures var w := InWorld(out, n, joined);
            InWorld(Erased(out, p, kind, handler), n, joined) ==
            match kind
            case Change => w.(changeCallBacks := DelCallback(w.changeCallBacks, p, handler))
            case Status => w.(statusCallBacks := DelCallback(w.statusCallBacks, p, handler))
            case OtherEvent => w
  {
  }

  lemma OffInWorld(out: Outside, n: Native, joined: map<ProxyId, Form>, p: ProxyId,
                   kind: EventType, handler: Option<Callback>, dbOk: bool)
    requires p in out.keys
    ensures var (n', joined') := AfterUnlisten(n, joined, p, kind, handler, dbOk);
            InWorld(if handler.Some? then Erased(out, p, kind, handler.value) else out, n', joined') ==
            InWorld(out, n, joined).Off(p, kind, handler, dbOk)
  {
    var (n', joined') := AfterUnlisten(n, joined, p, kind, handler, dbOk);
    if handler.Some? {
      ErasedInWorld(out, n', joined', p, kind, handler.value);
    }
    if p in joined && joined[p].Joined? {
      JoinedChanges(out, n, joined, p, Bound(n, joined[p].wrapper).DeleteWatch(kind, handler, dbOk));
    }
  }

  function AfterSet(n: Native, joined: map<ProxyId, Form>, p: ProxyId, key: Text, v: JsValue, dbOk: bool)
      : (Native, map<ProxyId, Form>) {
    if p !in joined || joined[p].Local? then (n, joined)
    else Stepped(joined, p, WithProps(Bound(n, joined[p].wrapper), PropsOf(n, joined[p].wrapper).Write(key, v, dbOk)))
  }

  function Put(out: Outside, p: ProxyId, key: Text, v: JsValue): Outside {
    if p !in out.locals then out else out.(locals := out.locals[p := out.locals[p][key := v]])
  }

  lemma SetInWorld(out: Outside, n: Native, joined: map<ProxyId, Form>, p: ProxyId, key: Text, v: JsValue, dbOk: bool)
    requires p in out.keys && key in out.keys[p] && (p in joined <==> p !in out.locals)
    requires p in joined ==> joined[p].Joined?
    ensures var (n', joined') := AfterSet(n, joined, p, key, v, dbOk);
            InWorld(Put(out, p, key, v), n', joined') == InWorld(out, n, joined).SetProperty(p, key, v, dbOk)
  {
  }

  lemma LeaveInWorld(out: Outside, n: Native, joined: map<ProxyId, Form>, p: ProxyId, b: Bound, outcome: Outcome)
    requires p in out.keys && p in joined && joined[p] == Joined(b.wrapper) && n == b.native
    ensures var values := ValuesOf(n, joined[p], out.keys[p], outcome.readAs);
            InWorld(out.(locals := out.locals[p := values]), Destroy(b, outcome), joined - {p}) ==
            InWorld(out, n, joined).Leave(p, outcome)
  {
  }

  lemma JoinedNow(out: Outside, n: Native, joined: map<ProxyId, Form>, p: ProxyId, b: Bound)
    requires p in out.keys && p !in joined
    ensures InWorld(out.(locals := out.locals - {p}), b.native, joined[p := Joined(b.wrapper)]) ==
            InWorld(out, n, joined).WithBound(p, b)
  {
  }

  lemma JoinInWorld(out: Outside, n: Native, joined: map<ProxyId, Form>, p: ProxyId, session: SessionId,
                    outcome: Outcome)
    requires p in out.keys && p !in joined && p in out.locals
    ensures var change, status := Lookup(out.changeCallBacks, p), Lookup(out.statusCallBacks, p);
            var (n', w) := Built(n, session, out.keys[p], out.locals[p], change, status, outcome);
            InWorld(out, n, joined).Join(p, session, outcome) ==
            if w.None? then (InWorld(out, n', joined), false)
            else (InWorld(out.(locals := out.locals - {p}), n', joined[p := Joined(w.value)]), true)
  {
    var (n', w) := Built(n, session, out.keys[p], out.locals[p],
                         Lookup(out.changeCallBacks, p), Lookup(out.statusCallBacks, p), outcome);
    if w.Some? {
      JoinedNow(out, n, joined, p, Bound(n', w.value));
    }
    BuiltIsJoin(n, session, out.keys[p], out.locals[p],
                Lookup(out.changeCallBacks, p), Lookup(out.statusCallBacks, p), outcome);
  }

  lemma SessionInWorld(out: Outside, n: Native, joined: map<ProxyId, Form>, p: ProxyId, session: SessionId,
                       outcome: Outcome)
    requires p in out.keys && (p in joined ==> joined[p].Joined?)
    ensures var w := InWorld(out, n, joined);
            w.SetSessionId(p, session, outcome) ==
            if session == [] then (w.Leave(p, outcome), false)
            else if p in joined && joined[p].wrapper.obj.session == session then (w, true)
            else w.Leave(p, outcome).Join(p, session, outcome)
  {
  }

  /** What a joined JavaScript object holds on to. */
  datatype Handle = Handle(wrapper: JSObjectWrapper, obj: DistributedObjectImpl)

  type Handles = map<ProxyId, Handle>

  /** The native side of all joined proxies: they share one store and one notifier. */
  class NativeSide {
    const objectStore: DistributedObjectStoreImpl
    const notifier: NotifierImpl

    /** Every object that belongs to one of the joined proxies. */
    ghost function Repr(hs: Handles): set<object>
      reads set p | p in hs :: hs[p].wrapper
    {
      set p, o | p in hs && o in hs[p].wrapper.Repr :: o
    }

    ghost predicate Valid(hs: Handles)
      reads (set p | p in hs :: hs[p].wrapper), Repr(hs), objectStore.engine
    {
      && (forall p | p in hs :: ValidHandle(hs[p]))
      && (forall p, q | p in hs && q in hs && p != q :: hs[p].wrapper.Repr !! hs[q].wrapper.Repr)
      && TablesOpen(objectStore.engine)
    }

    ghost predicate ValidHandle(h: Handle)
      reads h.wrapper, h.wrapper.Repr
    {
      h.wrapper.Valid() && h.wrapper.objectStore == objectStore && h.wrapper.notifier == notifier &&
      JsObjects.Linked(h.wrapper, h.obj)
    }

    ghost function Forms(hs: Handles): map<ProxyId, Form>
      requires Valid(hs)
      reads (set p | p in hs :: hs[p].wrapper), Repr(hs), objectStore.engine
    {
      map p | p in hs :: Joined(hs[p].wrapper.Value())
    }

    ghost function State(): Native
      reads objectStore, objectStore.engine, notifier
    {
      Native(objectStore.State(), notifier.watchers)
    }

    constructor (isOpened: bool)
      ensures Valid(map[]) && fresh(objectStore) && fresh(objectStore.engine) && fresh(notifier)
      ensures State() == Native(Store(Tables.Engine(isOpened, map[], map[]), [], map[], 0), map[])
    {
      var engine := new Tables.FlatObjectStorageEngine(isOpened);
      objectStore := new DistributedObjectStoreImpl(engine);
      notifier := new NotifierImpl();
    }

    /** Nothing that belongs to a joined proxy other than `p` has been touched. */
    twostate predicate OthersSame(new hs: Handles, p: ProxyId)
      requires old(allocated(hs))
      reads (set q | q in hs :: hs[q].wrapper), Repr(hs)
    {
      forall q | q in hs && q != p ::
        && unchanged(hs[q].wrapper) && hs[q].wrapper.Repr == old(hs[q].wrapper.Repr)
        && unchanged(hs[q].wrapper.Repr)
    }

    /** After a step that touches only the joined proxy `p` and what is shared. */
    twostate lemma OneTouched(new hs: Handles, p: ProxyId)
      requires old(allocated(hs)) && old(Valid(hs)) && p in hs
      requires unchanged(old(Repr(hs)) - old(hs[p].wrapper.Repr))
      requires hs[p].wrapper.Valid() && fresh(hs[p].wrapper.Repr - old(hs[p].wrapper.Repr))
      requires TablesOpen(objectStore.engine)
      ensures Valid(hs) && fresh(Repr(hs) - old(Repr(hs))) && Repr(hs - {p}) <= old(Repr(hs))
    {
      assert OthersSame(hs, p);
    }

    twostate lemma OneForm(new hs: Handles, p: ProxyId)
      requires old(allocated(hs)) && old(Valid(hs)) && p in hs && Valid(hs)
      requires unchanged(old(Repr(hs)) - old(hs[p].wrapper.Repr))
      ensures Forms(hs) == old(Forms(hs))[p := Joined(hs[p].wrapper.Value())]
    {
      assert OthersSame(hs, p);
    }

    method Listen(hs: Handles, p: ProxyId, kind: EventType, handler: Callback, dbOk: bool)
      requires Valid(hs) && p in hs
      modifies hs[p].wrapper.Repr, objectStore, objectStore.engine, notifier
      ensures Valid(hs) && fresh(Repr(hs) - old(Repr(hs)))
      ensures hs[p].wrapper.State() == old(hs[p].wrapper.State()).AddWatch(kind, handler, dbOk)
      ensures Forms(hs) == old(Forms(hs))[p := Joined(hs[p].wrapper.Value())]
    {
      hs[p].wrapper.AddWatch(kind, handler, dbOk);
      OneTouched(hs, p);
      OneForm(hs, p);
    }

    method Unlisten(hs: Handles, p: ProxyId, kind: EventType, handler: Option<Callback>, dbOk: bool)
      requires Valid(hs) && p in hs
      modifies hs[p].wrapper.Repr, objectStore, objectStore.engine, notifier
      ensures Valid(hs) && fresh(Repr(hs) - old(Repr(hs)))
      ensures hs[p].wrapper.State() == old(hs[p].wrapper.State()).DeleteWatch(kind, handler, dbOk)
      ensures Forms(hs) == old(Forms(hs))[p := Joined(hs[p].wrapper.Value())]
    {
      hs[p].wrapper.DeleteWatch(kind, handler, dbOk);
      OneTouched(hs, p);
      OneForm(hs, p);
    }

    method Set(hs: Handles, p: ProxyId, key: Text, v: JsValue, dbOk: bool)
      requires Valid(hs) && p in hs
      modifies hs[p].wrapper.Repr, objectStore.engine
      ensures Valid(hs) && fresh(Repr(hs) - old(Repr(hs)))
      ensures hs[p].wrapper.State() == WithProps(old(hs[p].wrapper.State()),
                PropsOf(old(hs[p].wrapper.State()).native, old(hs[p].wrapper.Value())).Write(key, v, dbOk))
      ensures Forms(hs) == old(Forms(hs))[p := Joined(hs[p].wrapper.Value())]
    {
      Assign(hs[p].wrapper, hs[p].obj, key, v, dbOk);
      OneTouched(hs, p);
      OneForm(hs, p);
    }

    /** A proxy that has left is not there any more. */
    lemma Forget(hs: Handles, p: ProxyId)
      requires Valid(hs)
      ensures Valid(hs - {p}) && Repr(hs - {p}) <= Repr(hs) && Forms(hs - {p}) == Forms(hs) - {p}
    {
    }

    lemma Adopt(hs: Handles, p: ProxyId, h: Handle)
      requires Valid(hs) && p !in hs && ValidHandle(h) && h.wrapper.Repr !! Repr(hs)
      ensures Valid(hs[p := h]) && Repr(hs[p := h]) <= Repr(hs) + h.wrapper.Repr
      ensures Forms(hs[p := h]) == Forms(hs)[p := Joined(h.wrapper.Value())]
    {
    }

    twostate predicate AllSame(new hs: Handles)
      requires old(allocated(hs))
      reads (set q | q in hs :: hs[q].wrapper), Repr(hs)
    {
      forall q | q in hs ::
        && unchanged(hs[q].wrapper) && hs[q].wrapper.Repr == old(hs[q].wrapper.Repr)
        && unchanged(hs[q].wrapper.Repr)
    }

    /** After a step that touches no joined proxy. */
    twostate lemma NoneTouched(new hs: Handles)
      requires old(allocated(hs)) && old(Valid(hs)) && unchanged(old(Repr(hs))) && TablesOpen(objectStore.engine)
      ensures Valid(hs) && Repr(hs) == old(Repr(hs))
    {
      assert AllSame(hs);
    }

    twostate lemma NoForm(new hs: Handles)
      requires old(allocated(hs)) && old(Valid(hs)) && unchanged(old(Repr(hs))) && Valid(hs)
      ensures Forms(hs) == old(Forms(hs))
    {
      assert AllSame(hs);
    }

    method Delete(hs: Handles, p: ProxyId, session: SessionId, closeOk: bool) returns (hs': Handles)
      requires Valid(hs)
      modifies objectStore, objectStore.engine
      ensures hs' == hs - {p} && Valid(hs') && Repr(hs') == old(Repr(hs - {p})) && Forms(hs') == old(Forms(hs)) - {p}
      ensures State() == old(State()).(store := old(State()).store.DeleteObject(session, closeOk).0)
    {
      Forget(hs, p);
      hs' := hs - {p};
      var _ := objectStore.DeleteObject(session, closeOk);
      NoneTouched(hs');
      NoForm(hs');
    }

    method Clear(hs: Handles, p: ProxyId, dbOk: bool)
      requires Valid(hs) && p in hs
      modifies hs[p].wrapper.Repr, objectStore, objectStore.engine, notifier
      ensures Valid(hs) && Repr(hs - {p}) <= old(Repr(hs))
      ensures State() == Cleared(old(hs[p].wrapper.State()), dbOk).native
      ensures Forms(hs) == old(Forms(hs))[p := Joined(hs[p].wrapper.Value())]
    {
      ClearWatches(hs[p].wrapper, dbOk);
      OneTouched(hs, p);
      OneForm(hs, p);
    }

    /** Clears both listener lists, then deletes the object. */
    method DestroyObject(hs: Handles, p: ProxyId, outcome: Outcome) returns (hs': Handles)
      requires Valid(hs) && p in hs
      modifies hs[p].wrapper.Repr, objectStore, objectStore.engine, notifier
      ensures hs' == hs - {p} && Valid(hs') && Repr(hs') <= old(Repr(hs))
      ensures State() == Destroy(old(hs[p].wrapper.State()), outcome)
      ensures Forms(hs') == old(Forms(hs)) - {p}
    {
      ghost var b, forms := hs[p].wrapper.State(), Forms(hs);
      Clear(hs, p, outcome.unregisterOk);
      DropChanged(forms, p, Joined(hs[p].wrapper.Value()));
      hs' := Delete(hs, p, hs[p].wrapper.obj.session, outcome.closeOk);
      DestroyIsClearAndDelete(b, outcome);
    }

    /** A new wrapper with its object, its restored handlers and its properties. */
    method Build(session: SessionId, keys: seq<Text>, values: map<Text, JsValue>,
                 change: seq<Callback>, status: seq<Callback>, outcome: Outcome) returns (h: Option<Handle>)
      requires TablesOpen(objectStore.engine)
      modifies objectStore, objectStore.engine, notifier
      ensures TablesOpen(objectStore.engine)
      ensures h.Some? ==> ValidHandle(h.value) && fresh(h.value.wrapper.Repr)
      ensures State() == Built(old(State()), session, keys, values, change, status, outcome).0
      ensures Built(old(State()), session, keys, values, change, status, outcome).1 ==
              if h.Some? then Some(h.value.wrapper.Value()) else None
    {
      var id := objectStore.CreateObject(session, outcome.createOk, outcome.allocOk);
      if id.None? {
        return None;
      }
      var w := new JSObjectWrapper(objectStore, notifier, ObjectRef(id.value, session));
      var o := new DistributedObjectImpl(session, objectStore.engine);
      Furnish(w, o, keys, values, change, status, outcome);
      h := Some(Handle(w, o));
    }

    // ---- The calls ----

    /** Every proxy is joined or outside sessions. */
    predicate Whole(hs: Handles, out: Outside) {
      out.keys.Keys == out.locals.Keys + hs.Keys && out.locals.Keys !! hs.Keys
    }

    lemma WholeAfterPut(hs: Handles, out: Outside, p: ProxyId, key: Text, v: JsValue)
      requires Whole(hs, out)
      ensures Whole(hs, Put(out, p, key, v))
    {
    }

    lemma WholeAfterLeave(hs: Handles, out: Outside, p: ProxyId, values: map<Text, JsValue>)
      requires Whole(hs, out) && p in hs
      ensures Whole(hs - {p}, out.(locals := out.locals[p := values]))
    {
    }

    lemma WholeAfterJoin(hs: Handles, out: Outside, p: ProxyId, h: Handle)
      requires Whole(hs, out) && p in out.locals
      ensures Whole(hs[p := h], out.(locals := out.locals - {p}))
    {
    }

    ghost function Whereabouts(hs: Handles, out: Outside): World
      requires Valid(hs)
      reads (set p | p in hs :: hs[p].wrapper), Repr(hs), objectStore, objectStore.engine, notifier
    {
      InWorld(out, State(), Forms(hs))
    }

    method ListenIfJoined(hs: Handles, p: ProxyId, kind: EventType, handler: Callback, dbOk: bool)
      requires Valid(hs)
      modifies Repr(hs), objectStore, objectStore.engine, notifier
      ensures Valid(hs) && fresh(Repr(hs) - old(Repr(hs)))
      ensures (State(), Forms(hs)) == AfterListen(old(State()), old(Forms(hs)), p, kind, handler, dbOk)
    {
      if p in hs {
        ghost var b, native, forms := hs[p].wrapper.State(), State(), Forms(hs);
        Listen(hs, p, kind, handler, dbOk);
        ListenStep(native, forms, p, b, kind, handler, dbOk);
      }
    }

    method UnlistenIfJoined(hs: Handles, p: ProxyId, kind: EventType, handler: Option<Callback>, dbOk: bool)
      requires Valid(hs)
      modifies Repr(hs), objectStore, objectStore.engine, notifier
      ensures Valid(hs) && fresh(Repr(hs) - old(Repr(hs)))
      ensures (State(), Forms(hs)) == AfterUnlisten(old(State()), old(Forms(hs)), p, kind, handler, dbOk)
    {
      if p in hs {
        ghost var b, native, forms := hs[p].wrapper.State(), State(), Forms(hs);
        Unlisten(hs, p, kind, handler, dbOk);
        UnlistenStep(native, forms, p, b, kind, handler, dbOk);
      }
    }

    method SetIfJoined(hs: Handles, p: ProxyId, key: Text, v: JsValue, dbOk: bool)
      requires Valid(hs)
      modifies Repr(hs), objectStore.engine
      ensures Valid(hs) && fresh(Repr(hs) - old(Repr(hs)))
      ensures (State(), Forms(hs)) == AfterSet(old(State()), old(Forms(hs)), p, key, v, dbOk)
    {
      if p in hs {
        ghost var b, native, forms := hs[p].wrapper.State(), State(), Forms(hs);
        Set(hs, p, key, v, dbOk);
        SetStep(native, forms, p, b, key, v, dbOk);
      }
    }

    method ReadJoined(hs: Handles, p: ProxyId, keys: seq<Text>, readAs: nat -> ReadAnswer, failure: StatusCode)
        returns (values: map<Text, JsValue>)
      requires Valid(hs) && p in hs && failure != SUCCESS
      ensures Valid(hs) && Repr(hs) == old(Repr(hs)) && Forms(hs) == old(Forms(hs)) && State() == old(State())
      ensures hs[p].wrapper.State() == old(hs[p].wrapper.State()) && hs[p].wrapper.Repr <= old(Repr(hs))
      ensures values == ValuesOf(old(State()), old(Forms(hs))[p], keys, readAs)
    {
      values := ReadAll(hs[p].wrapper, hs[p].obj, keys, readAs, failure);
      NoneTouched(hs);
      NoForm(hs);
    }

    method CallOn(hs: Handles, out: Outside, p: ProxyId, kind: EventType, handler: Callback, dbOk: bool)
        returns (out': Outside)
      requires Valid(hs) && Whole(hs, out) && p in out.keys
      modifies Repr(hs), objectStore, objectStore.engine, notifier
      ensures Valid(hs) && Whole(hs, out') && fresh(Repr(hs) - old(Repr(hs)))
      ensures Whereabouts(hs, out') == old(Whereabouts(hs, out)).On(p, kind, handler, dbOk)
    {
      OnInWorld(out, State(), Forms(hs), p, kind, handler, dbOk);
      ListenIfJoined(hs, p, kind, handler, dbOk);
      out' := Noted(out, p, kind, handler);
    }

    method CallOff(hs: Handles, out: Outside, p: ProxyId, kind: EventType, handler: Option<Callback>, dbOk: bool)
        returns (out': Outside)
      requires Valid(hs) && Whole(hs, out) && p in out.keys
      modifies Repr(hs), objectStore, objectStore.engine, notifier
      ensures Valid(hs) && Whole(hs, out') && fresh(Repr(hs) - old(Repr(hs)))
      ensures Whereabouts(hs, out') == old(Whereabouts(hs, out)).Off(p, kind, handler, dbOk)
    {
      OffInWorld(out, State(), Forms(hs), p, kind, handler, dbOk);
      UnlistenIfJoined(hs, p, kind, handler, dbOk);
      label Dropped:
      out' := EraseFrom(out, p, kind, handler);
      NoneTouched@Dropped(hs);
      NoForm@Dropped(hs);
    }

    method AssignKnown(hs: Handles, out: Outside, p: ProxyId, key: Text, v: JsValue, dbOk: bool) returns (out': Outside)
      requires Valid(hs) && Whole(hs, out) && p in out.keys && key in out.keys[p]
      modifies Repr(hs), objectStore.engine
      ensures Valid(hs) && Whole(hs, out') && fresh(Repr(hs) - old(Repr(hs)))
      ensures Whereabouts(hs, out') == old(Whereabouts(hs, out)).SetProperty(p, key, v, dbOk)
    {
      SetInWorld(out, State(), Forms(hs), p, key, v, dbOk);
      SetIfJoined(hs, p, key, v, dbOk);
      WholeAfterPut(hs, out, p, key, v);
      out' := Put(out, p, key, v);
    }

    method CallSet(hs: Handles, out: Outside, p: ProxyId, key: Text, v: JsValue, dbOk: bool) returns (out': Outside)
      requires Valid(hs) && Whole(hs, out) && p in out.keys
      modifies Repr(hs), objectStore.engine
      ensures Valid(hs) && Whole(hs, out') && fresh(Repr(hs) - old(Repr(hs)))
      ensures Whereabouts(hs, out') == old(Whereabouts(hs, out)).SetProperty(p, key, v, dbOk)
    {
      if key !in out.keys[p] {
        return out;
      }
      out' := AssignKnown(hs, out, p, key, v, dbOk);
    }

    /** Every property becomes local with the value read last; then the native object is destroyed. */
    method LeaveJoined(hs: Handles, out: Outside, p: ProxyId, outcome: Outcome, failure: StatusCode)
        returns (hs': Handles, out': Outside)
      requires Valid(hs) && Whole(hs, out) && p in out.keys && p in hs && failure != SUCCESS
      modifies Repr(hs), objectStore, objectStore.engine, notifier
      ensures Valid(hs') && Whole(hs', out') && hs' == hs - {p} && Repr(hs') <= old(Repr(hs))
      ensures Whereabouts(hs', out') == old(Whereabouts(hs, out)).Leave(p, outcome)
      ensures out' == out.(locals := out'.locals)
    {
      LeaveInWorld(out, State(), Forms(hs), p, hs[p].wrapper.State(), outcome);
      var values := ReadJoined(hs, p, out.keys[p], outcome.readAs, failure);
      hs' := DestroyObject(hs, p, outcome);
      WholeAfterLeave(hs, out, p, values);
      out' := out.(locals := out.locals[p := values]);
    }

    method LeaveSession(hs: Handles, out: Outside, p: ProxyId, outcome: Outcome, failure: StatusCode)
        returns (hs': Handles, out': Outside)
      requires Valid(hs) && Whole(hs, out) && p in out.keys && failure != SUCCESS
      modifies Repr(hs), objectStore, objectStore.engine, notifier
      ensures Valid(hs') && Whole(hs', out') && hs' == hs - {p} && Repr(hs') <= old(Repr(hs))
      ensures Whereabouts(hs', out') == old(Whereabouts(hs, out)).Leave(p, outcome)
      ensures out' == out.(locals := out'.locals)
    {
      if p !in hs {
        return hs, out;
      }
      hs', out' := LeaveJoined(hs, out, p, outcome, failure);
    }

    function Placed(hs: Handles, p: ProxyId, h: Option<Handle>): Handles {
      if h.Some? then hs[p := h.value] else hs
    }

    lemma Place(hs: Handles, p: ProxyId, h: Option<Handle>)
      requires Valid(hs) && p !in hs && (h.Some? ==> ValidHandle(h.value) && h.value.wrapper.Repr !! Repr(hs))
      ensures Valid(Placed(hs, p, h))
      ensures Repr(Placed(hs, p, h)) <= Repr(hs) + if h.Some? then h.value.wrapper.Repr else {}
      ensures Forms(Placed(hs, p, h)) ==
              if h.Some? then Forms(hs)[p := Joined(h.value.wrapper.Value())] else Forms(hs)
    {
      if h.Some? {
        Adopt(hs, p, h.value);
      }
    }

    /** A new wrapper, beside those of the other proxies. */
    method JoinSession(hs: Handles, out: Outside, p: ProxyId, session: SessionId, outcome: Outcome)
        returns (hs': Handles, out': Outside, joined: bool)
      requires Valid(hs) && Whole(hs, out) && p in out.keys && p !in hs
      modifies objectStore, objectStore.engine, notifier
      ensures Valid(hs') && Whole(hs', out') && fresh(Repr(hs') - old(Repr(hs)))
      ensures (Whereabouts(hs', out'), joined) == old(Whereabouts(hs, out)).Join(p, session, outcome)
    {
      JoinInWorld(out, State(), Forms(hs), p, session, outcome);
      var h := Build(session, out.keys[p], out.locals[p],
                     Lookup(out.changeCallBacks, p), Lookup(out.statusCallBacks, p), outcome);
      NoneTouched(hs);
      NoForm(hs);
      Place(hs, p, h);
      hs', joined := Placed(hs, p, h), h.Some?;
      out' := out;
      if joined {
        WholeAfterJoin(hs, out, p, h.value);
        out' := out.(locals := out.locals - {p});
      }
    }

    method SwitchSession(hs: Handles, out: Outside, p: ProxyId, session: SessionId, outcome: Outcome,
                         failure: StatusCode)
        returns (hs': Handles, out': Outside, joined: bool)
      requires Valid(hs) && Whole(hs, out) && p in out.keys && failure != SUCCESS
      modifies Repr(hs), objectStore, objectStore.engine, notifier
      ensures Valid(hs') && Whole(hs', out') && fresh(Repr(hs') - old(Repr(hs)))
      ensures (Whereabouts(hs', out'), joined) == old(Whereabouts(hs, out)).Leave(p, outcome).Join(p, session, outcome)
    {
      ghost var owned := Repr(hs);
      var left, outside := LeaveSession(hs, out, p, outcome, failure);
      ghost var owned', w := Repr(left), Whereabouts(left, outside);
      assert owned' <= owned && w == old(Whereabouts(hs, out)).Leave(p, outcome);
      hs', out', joined := JoinSession(left, outside, p, session, outcome);
      assert fresh(Repr(hs') - owned') && (Whereabouts(hs', out'), joined) == w.Join(p, session, outcome);
    }

    method StayOrSwitch(hs: Handles, out: Outside, p: ProxyId, session: SessionId, outcome: Outcome,
                        failure: StatusCode)
        returns (hs': Handles, out': Outside, joined: bool)
      requires Valid(hs) && Whole(hs, out) && p in out.keys && session != [] && failure != SUCCESS
      modifies Repr(hs), objectStore, objectStore.engine, notifier
      ensures Valid(hs') && Whole(hs', out') && fresh(Repr(hs') - old(Repr(hs)))
      ensures (Whereabouts(hs', out'), joined) == old(Whereabouts(hs, out)).SetSessionId(p, session, outcome)
    {
      ghost var w := Whereabouts(hs, out);
      ghost var after := w.SetSessionId(p, session, outcome);
      SessionInWorld(out, State(), Forms(hs), p, session, outcome);
      if p in hs && hs[p].wrapper.obj.session == session {
        assert after == (w, true);
        return hs, out, true;
      }
      assert after == w.Leave(p, outcome).Join(p, session, outcome);
      hs', out', joined := SwitchSession(hs, out, p, session, outcome, failure);
    }

    method SetSessionId(hs: Handles, out: Outside, p: ProxyId, session: SessionId, outcome: Outcome,
                        failure: StatusCode)
        returns (hs': Handles, out': Outside, joined: bool)
      requires Valid(hs) && Whole(hs, out) && p in out.keys && failure != SUCCESS
      modifies Repr(hs), objectStore, objectStore.engine, notifier
      ensures Valid(hs') && Whole(hs', out') && fresh(Repr(hs') - old(Repr(hs)))
      ensures (Whereabouts(hs', out'), joined) == old(Whereabouts(hs, out)).SetSessionId(p, session, outcome)
    {
      if session == [] {
        joined := false;
        hs', out' := LeaveSession(hs, out, p, outcome, failure);
      } else {
        hs', out', joined := StayOrSwitch(hs, out, p, session, outcome, failure);
      }
    }
  }
}
