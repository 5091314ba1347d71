/**
 Property values over every run, whatever the database answers to creating, closing, reading and
 writing, across any number of session changes and calls on other proxies.

 A `Cell` says what one property is worth without mentioning tables, keys or bytes of other properties.
 Every call moves the cell of a property as `NextCell` says, and reading shows the cell. Nothing is
 written from outside: no remote device changes the table, and no saved object is resumed into it.
 */
module DataRuns {
  import opened Types
  import opened Sequences
  import opened WatchChain
  import opened JsValues
  import opened Runtime
  import opened ListenerSteps
  import opened ListenerRuns
  import opened ProxiesApart

  /** Native code can tell the keys of the proxy apart. */
  ghost predicate KeysOk(keys: seq<Text>) {
    forall i, j | 0 <= i < j < |keys| :: NativeKey(keys[i]) != NativeKey(keys[j])
  }

  /** Distinct keys shorter than 64 bytes and without NUL are such keys. */
  lemma ShortKeysOk(keys: seq<Text>)
    requires NoDup(keys) && forall k | k in keys :: |k| < KEY_SIZE && 0 !in k
    ensures KeysOk(keys)
  {
    forall i, j | 0 <= i < j < |keys| ensures NativeKey(keys[i]) != NativeKey(keys[j]) {
      ShortKeysAreExact(keys[i]);
      ShortKeysAreExact(keys[j]);
    }
  }

  /** What a property reads as after its value has been carried into a new table. */
  function Arrived(v: JsValue): JsValue {
    if !Carried(v) || v.Other? then Undefined else ReadBack(v)
  }

  lemma ArrivedUnchanged(v: JsValue)
    ensures Arrived(v) == v <==> Faithful(v) && !v.Null?
  {
    if !v.Other? {
      ReadBackFaithful(v);
    }
  }

  function ValueOf(values: map<Text, JsValue>, key: Text): JsValue {
    if key in values then values[key] else Undefined
  }

  /** The position of a property in key order. */
  function IndexOf(keys: seq<Text>, key: Text): (i: nat)
    requires key in keys
    ensures i < |keys| && keys[i] == key
  {
    if keys[0] == key then 0 else 1 + IndexOf(keys[1..], key)
  }

  // ---- One property ----

  /**
   A property is a plain value, or it is what the table of a session keeps for it, which an undefined
   hides without erasing it.
   */
  datatype Cell = Plain(v: JsValue) | Tabled(stored: Option<Bytes>, hidden: bool)

  function Shown(c: Cell, answer: ReadAnswer): JsValue {
    match c
    case Plain(v) => v
    case Tabled(stored, hidden) => if hidden then Undefined else GetterResult(GetBytes(stored, answer))
  }

  function AfterSet(c: Cell, v: JsValue, dbOk: bool): Cell {
    match c
    case Plain(_) => Plain(v)
    case Tabled(stored, _) => Tabled(StoredAfter(stored, v, dbOk), v.Undefined?)
  }

  /** Leaving makes the value plain that is read then, well or badly. */
  function AfterLeave(c: Cell, answer: ReadAnswer): Cell {
    Plain(Shown(c, answer))
  }

  /** Joining starts from an empty table. */
  function AfterJoin(v: JsValue, putOk: bool): Cell {
    Tabled(if Carried(v) then StoredAfter(None, v, putOk) else None, false)
  }

  lemma AfterJoinShows(v: JsValue, putOk: bool)
    ensures Shown(AfterJoin(v, putOk), ANSWERED) == if putOk then Arrived(v) else Undefined
  {
    if Carried(v) && !v.Other? {
      StoredReadsBack(v);
    }
  }

  function CellOf(w: World, p: ProxyId, key: Text): Cell
    requires p in w.proxies
  {
    match w.proxies[p].form
    case Local(values) => Plain(ValueOf(values, key))
    case Joined(wrapper) => CellIn(PropsOf(w.native, wrapper), key)
  }

  function CellIn(props: Props, key: Text): Cell {
    Tabled(props.Stored(NativeKey(key)), NativeKey(key) in props.undefinedProps)
  }

  // ---- Reads that the database refuses ----

  predicate CellOk(c: Cell) {
    c.Tabled? && c.stored.Some? ==> WellTyped(c.stored.value)
  }

  /** What a read gives is what is there: bytes need both answers, or the second one if they are a string. */
  predicate KeptByRead(c: Cell, answer: ReadAnswer) {
    || c.Plain? || c.hidden || c.stored.None?
    || (answer.valueOk && (answer.typeOk || IsString(c.stored.value)))
  }

  /** Leaving keeps a property exactly when the read does; otherwise it loses or garbles a value that is there. */
  lemma LeaveShows(c: Cell, answer: ReadAnswer)
    requires CellOk(c)
    ensures Shown(c, answer) == Shown(c, ANSWERED) <==> KeptByRead(c, answer)
    ensures Shown(c, ANSWERED).Undefined? ==> KeptByRead(c, answer)
    ensures !KeptByRead(c, answer) && answer.valueOk ==>
              (Shown(c, ANSWERED).Bool? || Shown(c, ANSWERED).Number?) && Garbled(Shown(c, answer))
  {
    if c.Tabled? && c.stored.Some? {
      RefusedValue(c.stored, answer.typeOk);
      RefusedType(c.stored.value);
    }
  }

  // ---- Carrying properties into an empty table ----

  lemma {:induction false} MigrateMissing(keys: seq<Text>, values: map<Text, JsValue>, putOk: nat -> bool, key: Text)
    requires forall i | 0 <= i < |keys| :: NativeKey(keys[i]) != NativeKey(key)
    ensures CellIn(Migrate(Props(map[], []), keys, values, putOk), key) == Tabled(None, false)
  {
    if keys != [] {
      var n := |keys| - 1;
      MigrateMissing(keys[..n], values, putOk, key);
      MigrateNoDup(Props(map[], []), keys[..n], values, putOk);
      if Carried(ValueOf(values, keys[n])) {
        WriteStores(Migrate(Props(map[], []), keys[..n], values, putOk), keys[n], values[keys[n]], putOk(n),
                    NativeKey(key));
      }
    }
  }

  lemma {:induction false} MigrateCell(keys: seq<Text>, values: map<Text, JsValue>, putOk: nat -> bool, j: nat)
    requires KeysOk(keys) && j < |keys|
    ensures CellIn(Migrate(Props(map[], []), keys, values, putOk), keys[j]) ==
            AfterJoin(ValueOf(values, keys[j]), putOk(j))
  {
    var n := |keys| - 1;
    var props, v := Migrate(Props(map[], []), keys[..n], values, putOk), ValueOf(values, keys[n]);
    MigrateNoDup(Props(map[], []), keys[..n], values, putOk);
    if j < n {
      MigrateCell(keys[..n], values, putOk, j);
    } else {
      MigrateMissing(keys[..n], values, putOk, keys[n]);
    }
    if Carried(v) {
      WriteStores(props, keys[n], v, putOk(n), NativeKey(keys[j]));
    }
  }

  /** A property of a freshly joined proxy reads as what could be carried, if the database took it. */
  lemma MigrateReads(keys: seq<Text>, values: map<Text, JsValue>, putOk: nat -> bool, j: nat)
    requires KeysOk(keys) && j < |keys|
    ensures Migrate(Props(map[], []), keys, values, putOk).Read(keys[j], ANSWERED) ==
            if putOk(j) then Arrived(ValueOf(values, keys[j])) else Undefined
  {
    MigrateCell(keys, values, putOk, j);
    AfterJoinShows(ValueOf(values, keys[j]), putOk(j));
  }

  lemma {:induction false} ValuesAt(native: Native, form: Form, keys: seq<Text>, readAs: nat -> ReadAnswer, j: nat)
    requires KeysOk(keys) && j < |keys|
    ensures var values := ValuesOf(native, form, keys, readAs);
            keys[j] in values && values[keys[j]] == ReadForm(native, form, keys[j], readAs(j))
  {
    var n := |keys| - 1;
    if j < n {
      ValuesAt(native, form, keys[..n], readAs, j);
    }
  }

  // ---- Reading in the world ----

  lemma SameObjectReads(b: Bound, b': Bound)
    requires SameObject(b, b')
    ensures PropsOf(b'.native, b'.wrapper) == PropsOf(b.native, b.wrapper)
  {
    var s := b.wrapper.obj.session;
    assert s in Entries(b'.native) <==> s in b'.native.store.engine.delegates;
    assert s in Entries(b.native) <==> s in b.native.store.engine.delegates;
    if s in b.native.store.engine.delegates {
      assert Entries(b'.native)[s] == Entries(b.native)[s];
    }
  }

  /** A call on one proxy changes no property of another, whatever the database answers. */
  lemma OtherProxiesUntouched(w: World, call: Call, q: ProxyId, key: Text)
    requires Inv(w) && q in w.proxies && q != call.p
    ensures q in Apply(w, call).proxies
    ensures CellOf(Apply(w, call), q, key) == CellOf(w, q, key)
  {
    if call.p in w.proxies {
      OthersHandlers(w, call, q, Change);
      if IsJoined(w, q) {
        CallStaysApart(w, call, q);
      }
    }
  }

  // ---- One call on the proxy itself ----

  lemma OnCell(w: World, p: ProxyId, kind: EventType, handler: Callback, dbOk: bool, key: Text)
    requires Inv(w) && p in w.proxies
    ensures CellOf(w.On(p, kind, handler, dbOk), p, key) == CellOf(w, p, key)
  {
    if IsJoined(w, p) {
      var b := Bound(w.native, WrapperOf(w, p));
      AddWatchKeeps(b, kind, handler, dbOk);
      SameObjectReads(b, b.AddWatch(kind, handler, dbOk));
    }
  }

  lemma OffCell(w: World, p: ProxyId, kind: EventType, dropped: Option<Callback>, dbOk: bool, key: Text)
    requires Inv(w) && p in w.proxies
    ensures CellOf(w.Off(p, kind, dropped, dbOk), p, key) == CellOf(w, p, key)
  {
    if IsJoined(w, p) {
      var b := Bound(w.native, WrapperOf(w, p));
      DeleteWatchKeeps(b, kind, dropped, dbOk);
      SameObjectReads(b, b.DeleteWatch(kind, dropped, dbOk));
    }
  }

  lemma KeysApart(keys: seq<Text>, a: Text, b: Text)
    requires KeysOk(keys) && a in keys && b in keys && a != b
    ensures NativeKey(a) != NativeKey(b)
  {
    var i, j := IndexOf(keys, a), IndexOf(keys, b);
  }

  /** An assignment to a property of a joined proxy is a write to its table and undefined list. */
  lemma SetIsWrite(w: World, p: ProxyId, key: Text, v: JsValue, dbOk: bool)
    requires Inv(w) && IsJoined(w, p) && key in w.proxies[p].keys
    ensures var w' := w.SetProperty(p, key, v, dbOk);
            IsJoined(w', p) &&
            PropsOf(w'.native, WrapperOf(w', p)) == PropsOf(w.native, WrapperOf(w, p)).Write(key, v, dbOk)
  {
  }

  lemma SetCell(w: World, p: ProxyId, key: Text, v: JsValue, dbOk: bool, key': Text)
    requires Inv(w) && p in w.proxies && KeysOk(w.proxies[p].keys)
    requires key in w.proxies[p].keys && key' in w.proxies[p].keys
    ensures CellOf(w.SetProperty(p, key, v, dbOk), p, key') ==
            if key' == key then AfterSet(CellOf(w, p, key), v, dbOk) else CellOf(w, p, key')
  {
    if IsJoined(w, p) {
      if key' != key {
        KeysApart(w.proxies[p].keys, key, key');
      }
      SetIsWrite(w, p, key, v, dbOk);
      WriteStores(PropsOf(w.native, WrapperOf(w, p)), key, v, dbOk, NativeKey(key'));
    }
  }

  /**
   Assigning to a property, whatever the database answers: it reads back unchanged exactly when the
   proxy is outside a session, the value is undefined, or it is accepted and faithful, or it is refused
   and what was stored before reads the same. No other property changes.
   */
  lemma SetReads(w: World, p: ProxyId, key: Text, v: JsValue, dbOk: bool, key': Text)
    requires Inv(w) && p in w.proxies && KeysOk(w.proxies[p].keys)
    requires key in w.proxies[p].keys && key' in w.proxies[p].keys
    ensures var w' := w.SetProperty(p, key, v, dbOk);
            && (w'.Read(p, key, ANSWERED) == v <==>
                !IsJoined(w, p) || v.Undefined? ||
                (if dbOk then Faithful(v)
                 else GetterResult(GetBytes(CellOf(w, p, key).stored, ANSWERED)) == v))
            && (key' != key ==> w'.Read(p, key', ANSWERED) == w.Read(p, key', ANSWERED))
  {
    SetCell(w, p, key, v, dbOk, key);
    SetCell(w, p, key, v, dbOk, key');
    if IsJoined(w, p) {
      WriteIsFaithful(PropsOf(w.native, WrapperOf(w, p)), key, v, dbOk);
    }
  }

  lemma LeaveCell(w: World, p: ProxyId, outcome: Outcome, key: Text)
    requires p in w.proxies && KeysOk(w.proxies[p].keys) && key in w.proxies[p].keys
    ensures CellOf(w.Leave(p, outcome), p, key) ==
            AfterLeave(CellOf(w, p, key), outcome.readAs(IndexOf(w.proxies[p].keys, key)))
  {
    if IsJoined(w, p) {
      ValuesAt(w.native, w.proxies[p].form, w.proxies[p].keys, outcome.readAs, IndexOf(w.proxies[p].keys, key));
    }
  }

  /**
   Leaving keeps what the last read of the property gives: the value itself exactly when that read keeps
   it, else undefined if the value was refused, else what the raw bytes of a number or bool come out as.
   */
  lemma LeaveReads(w: World, p: ProxyId, outcome: Outcome, key: Text, answer: ReadAnswer)
    requires p in w.proxies && KeysOk(w.proxies[p].keys) && key in w.proxies[p].keys && CellOk(CellOf(w, p, key))
    ensures var r := outcome.readAs(IndexOf(w.proxies[p].keys, key));
            var v, v' := w.Read(p, key, ANSWERED), w.Leave(p, outcome).Read(p, key, answer);
            && v' == w.Read(p, key, r)
            && (v' == v <==> KeptByRead(CellOf(w, p, key), r))
            && (v' != v && !r.valueOk ==> v' == Undefined)
            && (v' != v && r.valueOk ==> (v.Bool? || v.Number?) && Garbled(v'))
  {
    LeaveCell(w, p, outcome, key);
    LeaveShows(CellOf(w, p, key), outcome.readAs(IndexOf(w.proxies[p].keys, key)));
  }

  lemma JoinCell(w: World, p: ProxyId, session: SessionId, outcome: Outcome, key: Text)
    requires Inv(w) && p in w.proxies && !IsJoined(w, p) && session != []
    requires KeysOk(w.proxies[p].keys) && key in w.proxies[p].keys
    ensures var (w', joined) := w.Join(p, session, outcome);
            CellOf(w', p, key) ==
            if joined then AfterJoin(CellOf(w, p, key).v, outcome.putOk(IndexOf(w.proxies[p].keys, key)))
            else CellOf(w, p, key)
  {
    var (n', wrapper) := w.Create(p, session, outcome);
    if wrapper.Some? {
      CreateKeeps(w, p, session, outcome);
      MigrateCell(w.proxies[p].keys, w.proxies[p].form.values, outcome.putOk, IndexOf(w.proxies[p].keys, key));
    }
  }

  /** A successful join: exactly the values that can be carried and are accepted are read as before. */
  lemma JoinReads(w: World, p: ProxyId, session: SessionId, outcome: Outcome, key: Text)
    requires Inv(w) && p in w.proxies && !IsJoined(w, p) && session != []
    requires KeysOk(w.proxies[p].keys) && key in w.proxies[p].keys
    ensures var (w', joined) := w.Join(p, session, outcome);
            var v, v' := w.Read(p, key, ANSWERED), w'.Read(p, key, ANSWERED);
            var putOk := outcome.putOk(IndexOf(w.proxies[p].keys, key));
            && v' == (if !joined then v else if putOk then Arrived(v) else Undefined)
            && (joined ==> (v' == v <==> v.Undefined? || (putOk && Faithful(v) && !v.Null?)))
  {
    var v := w.Read(p, key, ANSWERED);
    JoinCell(w, p, session, outcome, key);
    AfterJoinShows(v, outcome.putOk(IndexOf(w.proxies[p].keys, key)));
    ArrivedUnchanged(v);
  }

  // ---- setSessionId ----

  /** What `setSessionId` makes of one property. */
  function AfterSession(c: Cell, joined: bool, putOk: bool, answer: ReadAnswer): Cell {
    if joined then AfterJoin(AfterLeave(c, answer).v, putOk) else AfterLeave(c, answer)
  }

  lemma SessionCell(w: World, p: ProxyId, session: SessionId, outcome: Outcome, key: Text)
    requires Inv(w) && p in w.proxies && KeysOk(w.proxies[p].keys) && key in w.proxies[p].keys
    requires session == [] || !w.InSession(p, session)
    ensures var (w', joined) := w.SetSessionId(p, session, outcome);
            var i := IndexOf(w.proxies[p].keys, key);
            CellOf(w', p, key) == AfterSession(CellOf(w, p, key), joined, outcome.putOk(i), outcome.readAs(i))
  {
    LeaveCell(w, p, outcome, key);
    if session != [] {
      LeaveInv(w, p, outcome);
      JoinCell(w.Leave(p, outcome), p, session, outcome, key);
    }
  }

  /**
   `setSessionId` on one property, whether it joins, switches, leaves or fails. A proxy that stays where
   it is keeps it. Otherwise the value is the one read on leaving, and a newly joined session shows what
   of it can be carried, or undefined if the database refuses it.
   */
  lemma SetSessionIdReads(w: World, p: ProxyId, session: SessionId, outcome: Outcome, key: Text)
    requires Inv(w) && p in w.proxies && KeysOk(w.proxies[p].keys) && key in w.proxies[p].keys
    ensures var (w', joined) := w.SetSessionId(p, session, outcome);
            var i := IndexOf(w.proxies[p].keys, key);
            var v := w.Read(p, key, outcome.readAs(i));
            w'.Read(p, key, ANSWERED) ==
            if session != [] && w.InSession(p, session) then w.Read(p, key, ANSWERED)
            else if !joined then v
            else if outcome.putOk(i) then Arrived(v) else Undefined
  {
    if session == [] || !w.InSession(p, session) {
      var i := IndexOf(w.proxies[p].keys, key);
      SessionCell(w, p, session, outcome, key);
      AfterJoinShows(w.Read(p, key, outcome.readAs(i)), outcome.putOk(i));
    }
  }

  /** The value of a cell that is left and then, if a session is joined, carried into its table. */
  lemma SessionShows(c: Cell, joined: bool, putOk: bool, answer: ReadAnswer)
    requires CellOk(c)
    ensures var v := Shown(c, ANSWERED);
            Shown(AfterSession(c, joined, putOk, answer), ANSWERED) == v <==>
            v.Undefined? || (KeptByRead(c, answer) && (!joined || (putOk && Faithful(v) && !v.Null?)))
  {
    LeaveShows(c, answer);
    AfterJoinShows(Shown(c, answer), putOk);
    ArrivedUnchanged(Shown(c, ANSWERED));
    if !KeptByRead(c, answer) && answer.valueOk {
      ArrivedGarbled(Shown(c, answer));
    }
  }

  lemma ArrivedGarbled(v: JsValue)
    requires Garbled(v)
    ensures !Arrived(v).Bool? && !Arrived(v).Number?
  {
  }

  lemma CellPreserved(w: World, w': World, p: ProxyId, key: Text, joined: bool, putOk: bool, answer: ReadAnswer)
    requires p in w.proxies && p in w'.proxies && CellOk(CellOf(w, p, key))
    requires CellOf(w', p, key) == AfterSession(CellOf(w, p, key), joined, putOk, answer)
    ensures var v := w.Read(p, key, ANSWERED);
            w'.Read(p, key, ANSWERED) == v <==>
            v.Undefined? || (KeptByRead(CellOf(w, p, key), answer)
                             && (!joined || (putOk && Faithful(v) && !v.Null?)))
  {
    SessionShows(CellOf(w, p, key), joined, putOk, answer);
  }

  /**
   `setSessionId`, read off the state before the call: a property is preserved exactly when the proxy
   stays where it is, or its value is undefined, or the read on leaving keeps it and, if the new session
   can be joined, the put there is accepted and the value can be carried.
   */
  lemma SetSessionIdPreserves(w: World, p: ProxyId, session: SessionId, outcome: Outcome, key: Text)
    requires Inv(w) && p in w.proxies && KeysOk(w.proxies[p].keys) && key in w.proxies[p].keys
    requires CellOk(CellOf(w, p, key))
    ensures var i, v := IndexOf(w.proxies[p].keys, key), w.Read(p, key, ANSWERED);
            w.SetSessionId(p, session, outcome).0.Read(p, key, ANSWERED) == v <==>
            || (session != [] && w.InSession(p, session)) || v.Undefined?
            || (KeptByRead(CellOf(w, p, key), outcome.readAs(i))
                && (session == [] || !CanJoin(w.native, session, outcome)
                    || (outcome.putOk(i) && Faithful(v) && !v.Null?)))
  {
    if session == [] || !w.InSession(p, session) {
      var i := IndexOf(w.proxies[p].keys, key);
      var (w', joined) := w.SetSessionId(p, session, outcome);
      SessionCell(w, p, session, outcome, key);
      CellPreserved(w, w', p, key, joined, outcome.putOk(i), outcome.readAs(i));
      if session != [] {
        SetSessionIdSucceeds(w, p, session, outcome);
      }
    }
  }

  // ---- Whole runs ----

  /** What a call makes of one property of the proxy `p`. */
  function NextCell(before: World, call: Call, p: ProxyId, key: Text, c: Cell): Cell {
    if call.p != p || p !in before.proxies || key !in before.proxies[p].keys then c else
    match call
    case CallSet(_, k, v, dbOk) => if k == key then AfterSet(c, v, dbOk) else c
    case CallSession(_, session, outcome) =>
      if session != [] && before.InSession(p, session) then c else
      var i := IndexOf(before.proxies[p].keys, key);
      AfterSession(c, before.SetSessionId(p, session, outcome).1, outcome.putOk(i), outcome.readAs(i))
    case _ => c
  }

  /** The cell of a property after a run, from its first value and the calls alone. */
  function Expected(w: World, calls: seq<Call>, p: ProxyId, key: Text): Cell
    requires p in w.proxies
  {
    if calls == [] then CellOf(w, p, key) else
    var n := |calls| - 1;
    NextCell(Run(w, calls[..n]), calls[n], p, key, Expected(w, calls[..n], p, key))
  }

  lemma SessionKeepsKeys(w: World, p: ProxyId, session: SessionId, outcome: Outcome)
    requires p in w.proxies
    ensures p in w.SetSessionId(p, session, outcome).0.proxies
    ensures w.SetSessionId(p, session, outcome).0.proxies[p].keys == w.proxies[p].keys
  {
  }

  lemma KeysNeverChange(w: World, call: Call, p: ProxyId)
    requires p in w.proxies
    ensures p in Apply(w, call).proxies && Apply(w, call).proxies[p].keys == w.proxies[p].keys
  {
    if call.p in w.proxies {
      if call.p != p {
        OthersHandlers(w, call, p, Change);
      } else if call.CallSession? {
        SessionKeepsKeys(w, p, call.session, call.outcome);
      }
    }
  }

  /** Every call moves the cell of every property exactly as `NextCell` says. */
  lemma StepReads(w: World, call: Call, p: ProxyId, key: Text)
    requires Inv(w) && p in w.proxies && KeysOk(w.proxies[p].keys) && key in w.proxies[p].keys
    ensures p in Apply(w, call).proxies
    ensures CellOf(Apply(w, call), p, key) == NextCell(w, call, p, key, CellOf(w, p, key))
  {
    KeysNeverChange(w, call, p);
    if call.p != p {
      OtherProxiesUntouched(w, call, p, key);
    } else {
      match call
      case CallSet(_, k, v, dbOk) =>
        if k in w.proxies[p].keys {
          SetCell(w, p, k, v, dbOk, key);
        }
      case CallSession(_, session, outcome) =>
        if session == [] || !w.InSession(p, session) {
          SessionCell(w, p, session, outcome, key);
        }
      case CallOn(_, kind, handler, dbOk) => OnCell(w, p, kind, handler, dbOk, key);
      case CallOff(_, kind, dropped, dbOk) => OffCell(w, p, kind, dropped, dbOk, key);
    }
  }

  /**
   End to end: after any run, with any calls on any proxies, any values and any answers of the database,
   reading a property shows the expected cell.
   */
  lemma {:induction false} RunReads(w: World, calls: seq<Call>, p: ProxyId, key: Text)
    requires Initial(w) && p in w.proxies && KeysOk(w.proxies[p].keys) && key in w.proxies[p].keys
    ensures p in Run(w, calls).proxies && Run(w, calls).proxies[p].keys == w.proxies[p].keys
    ensures CellOf(Run(w, calls), p, key) == Expected(w, calls, p, key)
    ensures forall answer :: Run(w, calls).Read(p, key, answer) == Shown(Expected(w, calls, p, key), answer)
  {
    if calls != [] {
      var n := |calls| - 1;
      RunReads(w, calls[..n], p, key);
      RunInv(w, calls[..n]);
      KeysNeverChange(Run(w, calls[..n]), calls[n], p);
      StepReads(Run(w, calls[..n]), calls[n], p, key);
    }
  }

  lemma NextCellOk(before: World, call: Call, p: ProxyId, key: Text, c: Cell)
    requires CellOk(c)
    ensures CellOk(NextCell(before, call, p, key, c))
  {
    if call.p == p && p in before.proxies && key in before.proxies[p].keys {
      match call
      case CallSet(_, k, v, dbOk) =>
        if c.Tabled? {
          StoredOk(c.stored, v, dbOk);
        }
      case CallSession(_, session, outcome) =>
        var i := IndexOf(before.proxies[p].keys, key);
        StoredOk(None, AfterLeave(c, outcome.readAs(i)).v, outcome.putOk(i));
      case _ =>
    }
  }

  /** After every run a property is plain, or what is stored for it has been stored by an assignment. */
  lemma {:induction false} RunCellOk(w: World, calls: seq<Call>, p: ProxyId, key: Text)
    requires Initial(w) && p in w.proxies && KeysOk(w.proxies[p].keys) && key in w.proxies[p].keys
    ensures p in Run(w, calls).proxies && CellOk(CellOf(Run(w, calls), p, key))
  {
    RunReads(w, calls, p, key);
    if calls != [] {
      var n := |calls| - 1;
      RunCellOk(w, calls[..n], p, key);
      RunReads(w, calls[..n], p, key);
      NextCellOk(Run(w, calls[..n]), calls[n], p, key, Expected(w, calls[..n], p, key));
    }
  }

  /** The exact condition for `setSessionId` after any run. */
  lemma RunPreserves(w: World, calls: seq<Call>, p: ProxyId, session: SessionId, outcome: Outcome, key: Text)
    requires Initial(w) && p in w.proxies && KeysOk(w.proxies[p].keys) && key in w.proxies[p].keys
    ensures p in Run(w, calls).proxies && key in Run(w, calls).proxies[p].keys
    ensures var w' := Run(w, calls);
            var i, v := IndexOf(w'.proxies[p].keys, key), w'.Read(p, key, ANSWERED);
            w'.SetSessionId(p, session, outcome).0.Read(p, key, ANSWERED) == v <==>
            || (session != [] && w'.InSession(p, session)) || v.Undefined?
            || (KeptByRead(Expected(w, calls, p, key), outcome.readAs(i))
                && (session == [] || !CanJoin(w'.native, session, outcome)
                    || (outcome.putOk(i) && Faithful(v) && !v.Null?)))
  {
    RunReads(w, calls, p, key);
    RunCellOk(w, calls, p, key);
    RunInv(w, calls);
    SetSessionIdPreserves(Run(w, calls), p, session, outcome, key);
  }

  lemma BoolIsStored(w: World, p: ProxyId, key: Text, b: bool)
    requires Inv(w) && IsJoined(w, p) && KeysOk(w.proxies[p].keys) && key in w.proxies[p].keys
    ensures var w' := w.SetProperty(p, key, Bool(b), true);
            && p in w'.proxies && w'.proxies[p].keys == w.proxies[p].keys
            && CellOf(w', p, key) == Tabled(PutBytes(NBool(b)), false)
  {
    KeysNeverChange(w, CallSet(p, key, Bool(b), true), p);
    SetCell(w, p, key, Bool(b), true, key);
  }

  lemma LeaveMisreadsBool(w: World, p: ProxyId, key: Text, b: bool, outcome: Outcome)
    requires p in w.proxies && KeysOk(w.proxies[p].keys) && key in w.proxies[p].keys
    requires CellOf(w, p, key) == Tabled(PutBytes(NBool(b)), false)
    ensures var answer := outcome.readAs(IndexOf(w.proxies[p].keys, key));
            w.Leave(p, outcome).Read(p, key, ANSWERED) ==
            if !answer.valueOk then Undefined else if answer.typeOk then Bool(b) else Str([if b then 1 else 0])
  {
    var answer := outcome.readAs(IndexOf(w.proxies[p].keys, key));
    LeaveCell(w, p, outcome, key);
    RefusedValue(PutBytes(NBool(b)), answer.typeOk);
    RefusedTypeOfBool(b);
    StoredReadsBack(Bool(b));
  }

  /**
   The runs in which leaving loses a bool: join, assign, leave. With the value refused it is undefined
   afterwards, with the type refused it is a string of one byte.
   */
  lemma LeaveLosesBool(w: World, p: ProxyId, key: Text, session: SessionId, b: bool, answer: ReadAnswer)
    requires Initial(w) && w.native.store.engine.isOpened && session != []
    requires p in w.proxies && KeysOk(w.proxies[p].keys) && key in w.proxies[p].keys
    ensures var calls := [CallSession(p, session, Granted()), CallSet(p, key, Bool(b), true),
                          CallSession(p, [], Granted().(readAs := _ => answer))];
            && p in Run(w, calls).proxies
            && Run(w, calls).Read(p, key, ANSWERED) ==
               if !answer.valueOk then Undefined else if answer.typeOk then Bool(b) else Str([if b then 1 else 0])
  {
    var join, assign := CallSession(p, session, Granted()), CallSet(p, key, Bool(b), true);
    var leave := CallSession(p, [], Granted().(readAs := _ => answer));
    RunOfThree(w, join, assign, leave);
    FirstJoin(w, p, session, Change);
    KeysNeverChange(w, join, p);
    BoolIsStored(Apply(w, join), p, key, b);
    LeaveMisreadsBool(Apply(Apply(w, join), assign), p, key, b, leave.outcome);
  }

  // ---- What an application sees while nothing is refused ----

  /** Of this property only: the values are faithful, and the database takes and gives them. */
  predicate Smooth(w: World, call: Call, p: ProxyId, key: Text)
    requires p in w.proxies && key in w.proxies[p].keys
  {
    match call
    case CallSet(q, k, v, dbOk) => q == p && k == key ==> Faithful(v) && dbOk
    case CallSession(q, _, outcome) =>
      var i := IndexOf(w.proxies[p].keys, key);
      q == p ==> outcome.putOk(i) && outcome.readAs(i) == ANSWERED
    case _ => true
  }

  /** The value written last, or the first one; a null is forgotten as soon as a new session has been joined. */
  function LastWritten(w: World, calls: seq<Call>, p: ProxyId, key: Text): JsValue
    requires p in w.proxies
  {
    if calls == [] then Shown(CellOf(w, p, key), ANSWERED) else
    var before, call := Run(w, calls[..|calls| - 1]), calls[|calls| - 1];
    var v := LastWritten(w, calls[..|calls| - 1], p, key);
    if call.p != p || p !in before.proxies || key !in before.proxies[p].keys then v else
    match call
    case CallSet(_, k, v', _) => if k == key then v' else v
    case CallSession(_, session, outcome) =>
      if v.Null? && before.SetSessionId(p, session, outcome).1 && !before.InSession(p, session) then Undefined else v
    case _ => v
  }

  lemma SmoothSet(c: Cell, v: JsValue)
    requires Faithful(v)
    ensures Shown(AfterSet(c, v, true), ANSWERED) == v
  {
    if !v.Undefined? {
      StoredReadsBack(v);
      ReadBackFaithful(v);
    }
  }

  lemma SmoothSession(c: Cell, joined: bool)
    requires Faithful(Shown(c, ANSWERED))
    ensures var v := Shown(c, ANSWERED);
            Shown(AfterSession(c, joined, true, ANSWERED), ANSWERED) == if joined && v.Null? then Undefined else v
  {
    AfterJoinShows(Shown(c, ANSWERED), true);
    ArrivedUnchanged(Shown(c, ANSWERED));
  }

  /** While only faithful values are written and none is refused, a property reads as what was written last. */
  lemma {:induction false} ReadsLastWritten(w: World, calls: seq<Call>, p: ProxyId, key: Text)
    requires Initial(w) && p in w.proxies && KeysOk(w.proxies[p].keys) && key in w.proxies[p].keys
    requires Faithful(w.Read(p, key, ANSWERED)) && forall i | 0 <= i < |calls| :: Smooth(w, calls[i], p, key)
    ensures p in Run(w, calls).proxies && Run(w, calls).Read(p, key, ANSWERED) == LastWritten(w, calls, p, key)
    ensures Shown(Expected(w, calls, p, key), ANSWERED) == LastWritten(w, calls, p, key)
    ensures Faithful(LastWritten(w, calls, p, key))
  {
    RunReads(w, calls, p, key);
    if calls != [] {
      var n := |calls| - 1;
      ReadsLastWritten(w, calls[..n], p, key);
      RunReads(w, calls[..n], p, key);
      RunInv(w, calls[..n]);
      var c := Expected(w, calls[..n], p, key);
      match calls[n]
      case CallSet(_, k, v, _) =>
        if calls[n].p == p && k == key {
          SmoothSet(c, v);
        }
      case CallSession(_, session, outcome) =>
        if calls[n].p == p {
          StepLast(Run(w, calls[..n]), session, outcome, p, key, c);
        }
      case _ =>
    }
  }

  lemma StepLast(w: World, session: SessionId, outcome: Outcome, p: ProxyId, key: Text, c: Cell)
    requires Inv(w) && p in w.proxies && key in w.proxies[p].keys && Faithful(Shown(c, ANSWERED))
    requires var i := IndexOf(w.proxies[p].keys, key); outcome.putOk(i) && outcome.readAs(i) == ANSWERED
    ensures var v := Shown(c, ANSWERED);
            Shown(NextCell(w, CallSession(p, session, outcome), p, key, c), ANSWERED) ==
            if v.Null? && w.SetSessionId(p, session, outcome).1 && !w.InSession(p, session) then Undefined else v
  {
    SmoothSession(c, w.SetSessionId(p, session, outcome).1);
    SetSessionIdResult(w, p, session, outcome);
  }
}
