/**
 The JavaScript side: proxies that join and leave sessions, and the callback record that outlives them
 (interfaces/jskits/distributed_data_object.js and
 frameworks/jskitsimpl/src/adaptor/js_distributedobjectstore.cpp).

 `World` and its functions specify every call; `RuntimeObjects` carries the calls out on the heap. What
 holds over whole runs is proved in `ListenerRuns` and `DataRuns`.
 */
module Runtime {
  import opened Types
  import opened Sequences
  import opened StorageEngine
  import opened ObjectStores
  import opened WatchChain
  import opened JsValues

  /** The `__objectId` of a proxy: the key of its callback record. */
  type ProxyId = Text

  type Record = map<ProxyId, seq<Callback>>

  /** Where the properties of a proxy live: in plain data properties, or in the table of a session. */
  datatype Form =
    | Local(values: map<Text, JsValue>)
    | Joined(wrapper: Wrapper)

  datatype Proxy = Proxy(keys: seq<Text>, form: Form)

  /** How the database answers during one call of `setSessionId`; properties are counted in key order. */
  datatype Outcome = Outcome(
    createOk: bool,
    allocOk: bool,
    closeOk: bool,
    unregisterOk: bool,
    registerOk: nat -> bool,  // the n-th handler that is restored
    putOk: nat -> bool,       // the n-th property, when it is carried over
    readAs: nat -> ReadAnswer) // the n-th property, when the proxy leaves its session

  datatype World = World(
    native: Native,
    proxies: map<ProxyId, Proxy>,
    changeCallBacks: Record,
    statusCallBacks: Record)
  {
    function Recorded(p: ProxyId, kind: EventType): seq<Callback> {
      match kind
      case Change => Lookup(changeCallBacks, p)
      case Status => Lookup(statusCallBacks, p)
      case OtherEvent => []
    }

    function Read(p: ProxyId, key: Text, answer: ReadAnswer): JsValue
      requires p in proxies
    {
      ReadForm(native, proxies[p].form, key, answer)
    }

    function WithBound(p: ProxyId, b: Bound): World
      requires p in proxies
    {
      this.(native := b.native, proxies := proxies[p := proxies[p].(form := Joined(b.wrapper))])
    }

    function On(p: ProxyId, kind: EventType, handler: Callback, dbOk: bool): World
      requires p in proxies
    {
      var w := match proxies[p].form
        case Local(_) => this
        case Joined(wrapper) =>
        WithBound(p, Bound(native, wrapper).AddWatch(kind, handler, dbOk));
      match kind
      case Change => w.(changeCallBacks := AddCallback(w.changeCallBacks, p, handler))
      case Status => w.(statusCallBacks := AddCallback(w.statusCallBacks, p, handler))
      case OtherEvent => w
    }

    /** Without a handler the record is left alone: `deleteCallback` gets three arguments and refuses. */
    function Off(p: ProxyId, kind: EventType, handler: Option<Callback>, dbOk: bool): World
      requires p in proxies
    {
      var w := match proxies[p].form
        case Local(_) => this
        case Joined(wrapper) =>
        WithBound(p, Bound(native, wrapper).DeleteWatch(kind, handler, dbOk));
      if handler.None? then w else
      match kind
      case Change => w.(changeCallBacks := DelCallback(w.changeCallBacks, p, handler.value))
      case Status => w.(statusCallBacks := DelCallback(w.statusCallBacks, p, handler.value))
      case OtherEvent => w
    }

    function SetProperty(p: ProxyId, key: Text, v: JsValue, dbOk: bool): World
      requires p in proxies
    {
      if key !in proxies[p].keys then this else
      match proxies[p].form
      case Local(values) => this.(proxies := proxies[p := proxies[p].(form := Local(values[key := v]))])
      case Joined(wrapper) =>
        WithBound(p, WithProps(Bound(native, wrapper), PropsOf(native, wrapper).Write(key, v, dbOk)))
    }

    /** Every property as the leave loop reads it. */
    function Values(p: ProxyId, readAs: nat -> ReadAnswer): map<Text, JsValue>
      requires p in proxies
    {
      ValuesOf(native, proxies[p].form, proxies[p].keys, readAs)
    }

    function Leave(p: ProxyId, outcome: Outcome): World
      requires p in proxies
    {
      match proxies[p].form
      case Local(_) => this
      case Joined(wrapper) =>
        this.(native := Destroy(Bound(native, wrapper), outcome),
              proxies := proxies[p := proxies[p].(form := Local(Values(p, outcome.readAs)))])
    }

    function Create(p: ProxyId, session: SessionId, outcome: Outcome): (Native, Option<Wrapper>) {
      CreateOn(native, session, Recorded(p, Change), Recorded(p, Status), outcome)
    }

    function Join(p: ProxyId, session: SessionId, outcome: Outcome): (World, bool)
      requires p in proxies && proxies[p].form.Local?
    {
      var (native', wrapper) := Create(p, session, outcome);
      if wrapper.None? then (this.(native := native'), false)
      else
        var props := Migrate(PropsOf(native', wrapper.value), proxies[p].keys, proxies[p].form.values, outcome.putOk);
        (WithBound(p, WithProps(Bound(native', wrapper.value), props)), true)
    }

    function SetSessionId(p: ProxyId, session: SessionId, outcome: Outcome): (World, bool)
      requires p in proxies
    {
      if session == [] then (Leave(p, outcome), false)
      else if InSession(p, session) then (this, true)
      else Leave(p, outcome).Join(p, session, outcome)
    }

    predicate InSession(p: ProxyId, session: SessionId)
      requires p in proxies
    {
      proxies[p].form.Joined? && proxies[p].form.wrapper.obj.session == session
    }
  }

  function Lookup(record: Record, p: ProxyId): seq<Callback> {
    if p in record then record[p] else []
  }

  function AddCallback(record: Record, p: ProxyId, handler: Callback): Record {
    record[p := Lookup(record, p) + [handler]]
  }

  function DelCallback(record: Record, p: ProxyId, handler: Callback): Record {
    var rest := Without(Lookup(record, p), handler);
    if p !in record then record
    else if rest == [] then record - {p}
    else record[p := rest]
  }

  /** The table and the undefined list behind a joined object. */
  function PropsOf(native: Native, wrapper: Wrapper): Props {
    var session := wrapper.obj.session;
    var tables := native.store.engine.delegates;
    Props(if session in tables then tables[session].entries else map[], wrapper.undefinedProps)
  }

  function WithProps(b: Bound, props: Props): Bound {
    var session := b.wrapper.obj.session;
    var engine := b.native.store.engine;
    Bound(
      if session !in engine.delegates then b.native
      else b.native.(store := b.native.store.(engine := engine.WithEntries(session, props.entries))),
      b.wrapper.(undefinedProps := props.undefinedProps))
  }

  function ReadForm(native: Native, form: Form, key: Text, answer: ReadAnswer): JsValue {
    match form
    case Local(values) => if key in values then values[key] else Undefined
    case Joined(wrapper) => PropsOf(native, wrapper).Read(key, answer)
  }

  function ValuesOf(native: Native, form: Form, keys: seq<Text>, readAs: nat -> ReadAnswer): map<Text, JsValue> {
    if keys == [] then map[] else
    var n := |keys| - 1;
    ValuesOf(native, form, keys[..n], readAs)[keys[n] := ReadForm(native, form, keys[n], readAs(n))]
  }

  /** Creates the native object and restores the recorded handlers on it. */
  function CreateOn(native: Native, session: SessionId, change: seq<Callback>, status: seq<Callback>, outcome: Outcome)
      : (Native, Option<Wrapper>) {
    var (store', obj) := native.store.CreateObject(session, outcome.createOk, outcome.allocOk);
    var native' := native.(store := store');
    if obj.None? then (native', None)
    else
      var b := Bound(native', Wrapper(ObjectRef(obj.value, session), false, [], false, [], []));
      var b' := Restore(Restore(b, Change, change, outcome.registerOk), Status, status, outcome.registerOk);
      (b'.native, Some(b'.wrapper))
  }

  function Restore(b: Bound, kind: EventType, handlers: seq<Callback>, registerOk: nat -> bool): Bound {
    if handlers == [] then b else
    var n := |handlers| - 1;
    Restore(b, kind, handlers[..n], registerOk).AddWatch(kind, handlers[n], registerOk(n))
  }

  /** Both listener lists are cleared before the table is deleted. */
  function Destroy(b: Bound, outcome: Outcome): Native {
    var b' := b.DeleteWatch(Change, None, outcome.unregisterOk).DeleteWatch(Status, None, outcome.unregisterOk);
    b'.native.(store := b'.native.store.DeleteObject(b.wrapper.obj.session, outcome.closeOk).0)
  }

  /** `obj[key] != undefined` is a loose comparison: null is not carried over either. */
  predicate Carried(v: JsValue) {
    !v.Undefined? && !v.Null?
  }

  function Migrate(props: Props, keys: seq<Text>, values: map<Text, JsValue>, putOk: nat -> bool): Props {
    if keys == [] then props else
    var n := |keys| - 1;
    var props' := Migrate(props, keys[..n], values, putOk);
    var v := if keys[n] in values then values[keys[n]] else Undefined;
    if Carried(v) then props'.Write(keys[n], v, putOk(n)) else props'
  }

  // ---- Calls and runs ----

  datatype Call =
    | CallOn(p: ProxyId, kind: EventType, handler: Callback, dbOk: bool)
    | CallOff(p: ProxyId, kind: EventType, dropped: Option<Callback>, dbOk: bool)
    | CallSet(p: ProxyId, key: Text, v: JsValue, dbOk: bool)
    | CallSession(p: ProxyId, session: SessionId, outcome: Outcome)

  function Apply(w: World, call: Call): World {
    if call.p !in w.proxies then w else
    match call
    case CallOn(p, kind, handler, dbOk) => w.On(p, kind, handler, dbOk)
    case CallOff(p, kind, dropped, dbOk) => w.Off(p, kind, dropped, dbOk)
    case CallSet(p, key, v, dbOk) => w.SetProperty(p, key, v, dbOk)
    case CallSession(p, session, outcome) => w.SetSessionId(p, session, outcome).0
  }

  function Run(w: World, calls: seq<Call>): World {
    if calls == [] then w else Apply(Run(w, calls[..|calls| - 1]), calls[|calls| - 1])
  }

  /** Proxies as created, none of them in a session, over an empty store. */
  ghost predicate Initial(w: World) {
    && w.native == Native(Store(Engine(w.native.store.engine.isOpened, map[], map[]), [], map[], 0), map[])
    && w.changeCallBacks == map[] && w.statusCallBacks == map[]
    && (forall p | p in w.proxies :: w.proxies[p].form.Local?)
  }
}
