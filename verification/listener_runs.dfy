/**
 Handlers, subscriptions and the callback record agree over every run of `on`, `off`, property
 assignments and `setSessionId`, for any number of proxies and whatever the database answers.
 */
module ListenerRuns {
  import opened Types
  import opened Sequences
  import opened StorageEngine
  import opened WatchChain
  import opened JsValues
  import opened Runtime
  import opened ListenerSteps

  // ---- Every call keeps the invariants ----

  lemma WriteNoDup(p: Props, key: Text, v: JsValue, dbOk: bool)
    requires NoDup(p.undefinedProps)
    ensures NoDup(p.Write(key, v, dbOk).undefinedProps)
  {
    WithoutFirstNoDup(p.undefinedProps, NativeKey(key));
    WithoutNoDup(p.undefinedProps, NativeKey(key));
  }

  lemma {:induction false} MigrateNoDup(p: Props, keys: seq<Text>, values: map<Text, JsValue>, putOk: nat -> bool)
    requires NoDup(p.undefinedProps)
    ensures NoDup(Migrate(p, keys, values, putOk).undefinedProps)
  {
    if keys != [] {
      var n := |keys| - 1;
      MigrateNoDup(p, keys[..n], values, putOk);
      if keys[n] in values {
        WriteNoDup(Migrate(p, keys[..n], values, putOk), keys[n], values[keys[n]], putOk(n));
      }
    }
  }

  lemma WithPropsKeeps(b: Bound, props: Props)
    requires NativeOk(b.native) && WrapperOk(b.native, b.wrapper) && NoDup(props.undefinedProps)
    ensures var b' := WithProps(b, props);
            && NativeOk(b'.native) && WrapperOk(b'.native, b'.wrapper)
            && Elsewhere(b.native, b'.native, b.wrapper.obj) && b'.wrapper.obj == b.wrapper.obj
            && (ChainOk(b.native, b.wrapper) ==> ChainOk(b'.native, b'.wrapper))
            && b'.wrapper.change == b.wrapper.change && b'.wrapper.status == b.wrapper.status
  {
  }

  /** A wrapper step is a world step. */
  lemma BoundStep(w: World, p: ProxyId, b': Bound)
    requires Inv(w) && IsJoined(w, p)
    requires NativeOk(b'.native) && WrapperOk(b'.native, b'.wrapper) && b'.wrapper.obj == WrapperOf(w, p).obj
    requires Elsewhere(w.native, b'.native, WrapperOf(w, p).obj)
    ensures Inv(w.WithBound(p, b'))
    ensures Chain(w) ==> (Chain(w.WithBound(p, b')) <==> ChainOk(b'.native, b'.wrapper))
  {
    var obj := WrapperOf(w, p).obj;
    assert IsJoined(w.WithBound(p, b'), p);
    JoinedUnclaimed(w, p);
    ReboundInv(w, p, b'.native, Joined(b'.wrapper), obj);
    if Chain(w) && ChainOk(b'.native, b'.wrapper) {
      ReboundChain(w, p, b'.native, Joined(b'.wrapper), obj);
    }
  }

  /** The record apart, `on` and `off` change the world by one wrapper step. */
  ghost predicate SameNative(w: World, w': World) {
    w'.native == w.native && w'.proxies == w.proxies
  }

  lemma OnIsRebound(w: World, p: ProxyId, kind: EventType, handler: Callback, dbOk: bool)
    requires p in w.proxies
    ensures SameNative(if IsJoined(w, p)
                       then w.WithBound(p, Bound(w.native, WrapperOf(w, p)).AddWatch(kind, handler, dbOk)) else w,
                       w.On(p, kind, handler, dbOk))
  {
  }

  lemma OffIsRebound(w: World, p: ProxyId, kind: EventType, handler: Option<Callback>, dbOk: bool)
    requires p in w.proxies
    ensures SameNative(if IsJoined(w, p)
                       then w.WithBound(p, Bound(w.native, WrapperOf(w, p)).DeleteWatch(kind, handler, dbOk)) else w,
                       w.Off(p, kind, handler, dbOk))
  {
  }

  /** `on` breaks the chain exactly when it adds the first change handler and the database refuses the observer. */
  lemma OnInv(w: World, p: ProxyId, kind: EventType, handler: Callback, dbOk: bool)
    requires Inv(w) && p in w.proxies
    ensures Inv(w.On(p, kind, handler, dbOk))
    ensures Chain(w) ==> (Chain(w.On(p, kind, handler, dbOk)) <==>
              dbOk || kind != Change || !IsJoined(w, p) || WrapperOf(w, p).change != [])
  {
    if IsJoined(w, p) {
      var b := Bound(w.native, WrapperOf(w, p));
      var b' := b.AddWatch(kind, handler, dbOk);
      AddWatchKeeps(b, kind, handler, dbOk);
      StepNativeOk(b, b');
      if Chain(w) {
        AddWatchChain(b, kind, handler, dbOk);
      }
      BoundStep(w, p, b');
      OnIsRebound(w, p, kind, handler, dbOk);
      SameJoined(w.WithBound(p, b'), w.On(p, kind, handler, dbOk));
    } else {
      OnIsRebound(w, p, kind, handler, dbOk);
      SameJoined(w, w.On(p, kind, handler, dbOk));
    }
  }

  /** `off` breaks the chain exactly when it drops the last change handler and the database keeps the observer. */
  lemma OffInv(w: World, p: ProxyId, kind: EventType, handler: Option<Callback>, dbOk: bool)
    requires Inv(w) && p in w.proxies
    ensures Inv(w.Off(p, kind, handler, dbOk))
    ensures Chain(w) ==> (Chain(w.Off(p, kind, handler, dbOk)) <==>
              || dbOk || kind != Change || !IsJoined(w, p) || WrapperOf(w, p).change == []
              || Dropped(WrapperOf(w, p).change, handler) != [])
  {
    if IsJoined(w, p) {
      var b := Bound(w.native, WrapperOf(w, p));
      var b' := b.DeleteWatch(kind, handler, dbOk);
      DeleteWatchKeeps(b, kind, handler, dbOk);
      StepNativeOk(b, b');
      if Chain(w) {
        DeleteWatchChain(b, kind, handler, dbOk);
      }
      BoundStep(w, p, b');
      OffIsRebound(w, p, kind, handler, dbOk);
      SameJoined(w.WithBound(p, b'), w.Off(p, kind, handler, dbOk));
    } else {
      OffIsRebound(w, p, kind, handler, dbOk);
      SameJoined(w, w.Off(p, kind, handler, dbOk));
    }
  }

  lemma SetPropertyInv(w: World, p: ProxyId, key: Text, v: JsValue, dbOk: bool)
    requires Inv(w) && p in w.proxies
    ensures Inv(w.SetProperty(p, key, v, dbOk))
    ensures Chain(w) ==> Chain(w.SetProperty(p, key, v, dbOk))
  {
    if key in w.proxies[p].keys {
      if IsJoined(w, p) {
        var b := Bound(w.native, WrapperOf(w, p));
        var props := PropsOf(w.native, b.wrapper);
        WriteNoDup(props, key, v, dbOk);
        WithPropsKeeps(b, props.Write(key, v, dbOk));
        BoundStep(w, p, WithProps(b, props.Write(key, v, dbOk)));
      } else {
        LocalStep(w, p, w.proxies[p].form.values[key := v]);
      }
    }
  }

  lemma LocalStep(w: World, p: ProxyId, values: map<Text, JsValue>)
    requires Inv(w) && p in w.proxies && !IsJoined(w, p)
    ensures Inv(Rebound(w, p, w.native, Local(values)))
    ensures Chain(w) ==> Chain(Rebound(w, p, w.native, Local(values)))
  {
    var w' := Rebound(w, p, w.native, Local(values));
    SameJoined(w, w');
  }

  lemma LeaveIsRebound(w: World, p: ProxyId, outcome: Outcome)
    requires IsJoined(w, p)
    ensures w.Leave(p, outcome)
         == Rebound(w, p, Destroy(Bound(w.native, WrapperOf(w, p)), outcome), Local(w.Values(p, outcome.readAs)))
  {
  }

  lemma LeaveInv(w: World, p: ProxyId, outcome: Outcome)
    requires Inv(w) && p in w.proxies
    ensures Inv(w.Leave(p, outcome)) && !IsJoined(w.Leave(p, outcome), p)
    ensures Chain(w) && outcome.unregisterOk ==> Chain(w.Leave(p, outcome))
  {
    if IsJoined(w, p) {
      var b := Bound(w.native, WrapperOf(w, p));
      LeaveIsRebound(w, p, outcome);
      JoinedUnclaimed(w, p);
      DestroyKeeps(b, outcome);
      ReboundInv(w, p, Destroy(b, outcome), Local(w.Values(p, outcome.readAs)), b.wrapper.obj);
      if Chain(w) && outcome.unregisterOk {
        LeaveKeepsChain(w, p, outcome);
      }
    }
  }

  lemma LeaveKeepsChain(w: World, p: ProxyId, outcome: Outcome)
    requires Inv(w) && Chain(w) && IsJoined(w, p)
    requires outcome.unregisterOk || WrapperOf(w, p).change == []
    ensures Chain(w.Leave(p, outcome))
  {
    var b := Bound(w.native, WrapperOf(w, p));
    LeaveIsRebound(w, p, outcome);
    JoinedUnclaimed(w, p);
    DestroyKeeps(b, outcome);
    DestroySubscription(b, outcome);
    ReboundChain(w, p, Destroy(b, outcome), Local(w.Values(p, outcome.readAs)), b.wrapper.obj);
  }

  ghost predicate RegistersOk(outcome: Outcome) {
    forall i :: outcome.registerOk(i)
  }

  /** Nothing to register, or one of the registrations of the replayed handlers is accepted. */
  ghost predicate Heard(w: World, p: ProxyId, outcome: Outcome) {
    w.Recorded(p, Change) == [] || SomeRegistered(w.Recorded(p, Change), outcome.registerOk)
  }

  lemma AllHeard(w: World, p: ProxyId, outcome: Outcome)
    requires RegistersOk(outcome)
    ensures Heard(w, p, outcome)
  {
    assert w.Recorded(p, Change) != [] ==> 0 < |w.Recorded(p, Change)| && outcome.registerOk(0);
  }

  /** A create that succeeds: the new wrapper, with every recorded handler restored on it. */
  lemma CreateKeeps(w: World, p: ProxyId, session: SessionId, outcome: Outcome)
    requires Inv(w) && session != []
    requires w.Create(p, session, outcome).1.Some?
    ensures var n', wrapper := w.Create(p, session, outcome).0, w.Create(p, session, outcome).1.value;
            && NativeOk(n') && WrapperOk(n', wrapper)
            && wrapper.obj == Fresh(w.native, session).obj && Elsewhere(w.native, n', wrapper.obj)
            && session !in w.native.store.engine.delegates
            && PropsOf(n', wrapper) == Props(map[], [])
            && Elements(wrapper.change) == Elements(w.Recorded(p, Change))
            && Elements(wrapper.status) == Elements(w.Recorded(p, Status))
            && (session !in w.native.store.engine.observerMap ==>
                (ChainOk(n', wrapper) <==> Heard(w, p, outcome)))
  {
    var n := w.native;
    forall s | s in n.notifier ensures s in n.store.engine.delegates {
      var q :| Owns(w, q, s);
    }
    NewObjectOk(n, session);
    assert n.store.CreateObject(session, outcome.createOk, outcome.allocOk)
        == n.store.CreateObject(session, true, true);
    var b := Bound(n.(store := n.store.CreateObject(session, true, true).0), Fresh(n, session));
    RestoreBoth(b, w.Recorded(p, Change), w.Recorded(p, Status), outcome.registerOk);
    if session !in n.store.engine.observerMap {
      RestoreBothChain(b, w.Recorded(p, Change), w.Recorded(p, Status), outcome.registerOk);
    }
    var b' := Restore(Restore(b, Change, w.Recorded(p, Change), outcome.registerOk),
                      Status, w.Recorded(p, Status), outcome.registerOk);
    StepNativeOk(b, b');
    assert Entries(b'.native)[session] == Entries(b.native)[session];
  }

  lemma FreshUnclaimed(w: World, p: ProxyId, session: SessionId)
    requires Inv(w) && !IsJoined(w, p) && session !in w.native.store.engine.delegates
    ensures Unclaimed(w, p, Fresh(w.native, session).obj)
  {
  }

  lemma JoinFails(w: World, p: ProxyId, session: SessionId, outcome: Outcome)
    requires Inv(w) && p in w.proxies && !IsJoined(w, p) && session !in w.native.store.engine.delegates
    requires session !in w.native.notifier && (Chain(w) ==> session !in w.native.store.engine.observerMap)
    requires w.Create(p, session, outcome).1.None? && Unclaimed(w, p, Fresh(w.native, session).obj)
    ensures Inv(w.Join(p, session, outcome).0) && !IsJoined(w.Join(p, session, outcome).0, p)
    ensures Chain(w) ==> Chain(w.Join(p, session, outcome).0)
  {
    var obj := Fresh(w.native, session).obj;
    var n' := w.Create(p, session, outcome).0;
    FailedCreate(w.native, session, outcome.createOk, outcome.allocOk);
    ReboundInv(w, p, n', w.proxies[p].form, obj);
    if Chain(w) {
      ReboundChain(w, p, n', w.proxies[p].form, obj);
    }
    assert w.Join(p, session, outcome).0 == Rebound(w, p, n', w.proxies[p].form);
  }

  lemma JoinInv(w: World, p: ProxyId, session: SessionId, outcome: Outcome)
    requires Inv(w) && p in w.proxies && !IsJoined(w, p) && session != []
    ensures Inv(w.Join(p, session, outcome).0)
    ensures Chain(w) ==>
              (Chain(w.Join(p, session, outcome).0) <==> !w.Join(p, session, outcome).1 || Heard(w, p, outcome))
    ensures w.Join(p, session, outcome).1 <==> Owns(w.Join(p, session, outcome).0, p, session)
  {
    if session in w.native.store.engine.delegates {
      assert w.Join(p, session, outcome) == (w, false);
    } else {
      FreshUnclaimed(w, p, session);
      forall s | s in w.native.notifier || (Chain(w) && s in w.native.store.engine.observerMap) ensures s != session {
        var q :| Owns(w, q, s);
      }
      if w.Create(p, session, outcome).1.None? {
        JoinFails(w, p, session, outcome);
      } else {
        JoinWithProps(w, p, session, outcome);
      }
    }
  }

  /** The rest of a successful join: the properties are copied into the table. */
  lemma JoinWithProps(w: World, p: ProxyId, session: SessionId, outcome: Outcome)
    requires Inv(w) && p in w.proxies && !IsJoined(w, p) && session != []
    requires w.Create(p, session, outcome).1.Some?
    requires Unclaimed(w, p, Fresh(w.native, session).obj)
    ensures var w' := w.Join(p, session, outcome).0;
            && Inv(w') && Owns(w', p, session)
            && (Chain(w) && session !in w.native.store.engine.observerMap ==> (Chain(w') <==> Heard(w, p, outcome)))
            && Elements(WrapperOf(w', p).change) == Elements(w.Recorded(p, Change))
            && Elements(WrapperOf(w', p).status) == Elements(w.Recorded(p, Status))
  {
    CreateKeeps(w, p, session, outcome);
    var (n', wrapper) := w.Create(p, session, outcome);
    var b := Bound(n', wrapper.value);
    var values := w.proxies[p].form.values;
    MigrateNoDup(PropsOf(n', b.wrapper), w.proxies[p].keys, values, outcome.putOk);
    var props := Migrate(PropsOf(n', b.wrapper), w.proxies[p].keys, values, outcome.putOk);
    WithPropsKeeps(b, props);
    var b' := WithProps(b, props);
    ReboundInv(w, p, b'.native, Joined(b'.wrapper), b.wrapper.obj);
    if Chain(w) && Heard(w, p, outcome) && session !in w.native.store.engine.observerMap {
      ReboundChain(w, p, b'.native, Joined(b'.wrapper), b.wrapper.obj);
    }
  }

  lemma SetSessionIdInv(w: World, p: ProxyId, session: SessionId, outcome: Outcome)
    requires Inv(w) && p in w.proxies
    ensures Inv(w.SetSessionId(p, session, outcome).0)
    ensures Chain(w) && outcome.unregisterOk && RegistersOk(outcome) ==> Chain(w.SetSessionId(p, session, outcome).0)
  {
    if session == [] || !w.InSession(p, session) {
      LeaveInv(w, p, outcome);
      if session != [] {
        var left := w.Leave(p, outcome);
        JoinInv(left, p, session, outcome);
        if RegistersOk(outcome) {
          AllHeard(left, p, outcome);
        }
      }
    }
  }

  /** `setSessionId` returns true exactly when the proxy ends in the requested session, which is not the empty one. */
  lemma SetSessionIdResult(w: World, p: ProxyId, session: SessionId, outcome: Outcome)
    requires Inv(w) && p in w.proxies
    ensures var (w', joined) := w.SetSessionId(p, session, outcome);
            && (joined <==> session != [] && Owns(w', p, session))
            && (!joined ==> !IsJoined(w', p))
  {
    if session != [] && !w.InSession(p, session) {
      LeaveInv(w, p, outcome);
      JoinInv(w.Leave(p, outcome), p, session, outcome);
    }
  }

  /** What a join needs: an open store without a table of that session, and two answers. */
  predicate CanJoin(n: Native, session: SessionId, outcome: Outcome) {
    && n.store.engine.isOpened && session !in n.store.engine.delegates
    && outcome.createOk && outcome.allocOk
  }

  /** Whether a change to another session succeeds can be read off the state before the call. */
  lemma SetSessionIdSucceeds(w: World, p: ProxyId, session: SessionId, outcome: Outcome)
    requires Inv(w) && p in w.proxies && session != [] && !w.InSession(p, session)
    ensures w.SetSessionId(p, session, outcome).1 <==> CanJoin(w.native, session, outcome)
  {
    if IsJoined(w, p) {
      var b, left := Bound(w.native, WrapperOf(w, p)), w.Leave(p, outcome);
      DestroyKeeps(b, outcome);
      LeaveIsRebound(w, p, outcome);
      AgreeOutside(left.native.store.engine.delegates, w.native.store.engine.delegates, b.wrapper.obj.session, session);
    }
  }

  // ---- Runs ----

  /** The database accepts every register and unregister call made by this call. */
  ghost predicate DbOk(call: Call) {
    match call
    case CallOn(_, _, _, dbOk) => dbOk
    case CallOff(_, _, _, dbOk) => dbOk
    case CallSet(_, _, _, _) => true
    case CallSession(_, _, outcome) => outcome.unregisterOk && RegistersOk(outcome)
  }

  lemma ApplyInv(w: World, call: Call)
    requires Inv(w)
    ensures Inv(Apply(w, call))
    ensures Chain(w) && DbOk(call) ==> Chain(Apply(w, call))
  {
    if call.p in w.proxies {
      match call
      case CallOn(p, kind, handler, dbOk) => OnInv(w, p, kind, handler, dbOk);
      case CallOff(p, kind, dropped, dbOk) => OffInv(w, p, kind, dropped, dbOk);
      case CallSet(p, key, v, dbOk) => SetPropertyInv(w, p, key, v, dbOk);
      case CallSession(p, session, outcome) => SetSessionIdInv(w, p, session, outcome);
    }
  }

  lemma {:induction false} RunInv(w: World, calls: seq<Call>)
    requires Initial(w)
    ensures Inv(Run(w, calls))
    ensures (forall i | 0 <= i < |calls| :: DbOk(calls[i])) ==> Chain(Run(w, calls))
  {
    if calls != [] {
      var n := |calls| - 1;
      RunInv(w, calls[..n]);
      ApplyInv(Run(w, calls[..n]), calls[n]);
    }
  }

  /**
   The watch chain. As long as the database accepts every register and unregister call, all five
   records of a subscription agree for every joined proxy after every run, and no observer outlives
   its table.
   */
  lemma WatchChainAgrees(w: World, calls: seq<Call>, p: ProxyId)
    requires Initial(w) && forall i | 0 <= i < |calls| :: DbOk(calls[i])
    requires IsJoined(Run(w, calls), p)
    ensures var n, wrapper := Run(w, calls).native, WrapperOf(Run(w, calls), p);
            var session, subscribed := wrapper.obj.session, wrapper.change != [];
            && (wrapper.isWatched <==> subscribed)
            && (wrapper.obj.id in n.store.watchers <==> subscribed)
            && (session in n.store.engine.observerMap <==> subscribed)
            && session in n.store.engine.delegates
            && (n.store.engine.delegates[session].observers ==
                if subscribed then {TableWatcher(session, wrapper.obj.id)} else {})
    ensures Run(w, calls).native.store.engine.observerMap.Keys <= Run(w, calls).native.store.engine.delegates.Keys
  {
    RunInv(w, calls);
    var w' := Run(w, calls);
    forall s | s in w'.native.store.engine.observerMap ensures s in w'.native.store.engine.delegates {
      var q :| Owns(w', q, s);
    }
  }

  /**
   Whatever the database answers, after every run: every joined proxy with status handlers is in the
   notifier with its own watcher, and the notifier holds nothing else.
   */
  lemma NotifierAgrees(w: World, calls: seq<Call>, session: SessionId)
    requires Initial(w)
    ensures var w' := Run(w, calls);
            forall p | IsJoined(w', p) && WrapperOf(w', p).status != [] ::
              var wrapper := WrapperOf(w', p);
              && wrapper.obj.session in w'.native.notifier
              && w'.native.notifier[wrapper.obj.session] == wrapper.obj.id
    ensures var w' := Run(w, calls);
            session in w'.native.notifier ==>
              exists p :: Owns(w', p, session) && WrapperOf(w', p).status != []
                          && w'.native.notifier[session] == WrapperOf(w', p).obj.id
  {
    RunInv(w, calls);
    var w' := Run(w, calls);
    if session in w'.native.notifier {
      var p :| Owns(w', p, session);
      assert WrapperOf(w', p).status != [];
    }
  }

  // ---- When the database refuses ----

  lemma LeaveStrandsObserver(w: World, p: ProxyId, outcome: Outcome)
    requires Inv(w) && Chain(w) && IsJoined(w, p)
    requires !outcome.unregisterOk && WrapperOf(w, p).change != []
    ensures WrapperOf(w, p).obj.session in w.Leave(p, outcome).native.store.engine.observerMap
  {
    LeaveIsRebound(w, p, outcome);
    DestroySubscription(Bound(w.native, WrapperOf(w, p)), outcome);
  }

  /** Leaving breaks the chain exactly when there is a subscription that the database does not give up. */
  lemma LeaveBreaksChain(w: World, p: ProxyId, outcome: Outcome)
    requires Inv(w) && Chain(w) && IsJoined(w, p)
    ensures Chain(w.Leave(p, outcome)) <==> outcome.unregisterOk || WrapperOf(w, p).change == []
  {
    if outcome.unregisterOk || WrapperOf(w, p).change == [] {
      LeaveKeepsChain(w, p, outcome);
    } else {
      LeaveStrandsObserver(w, p, outcome);
      LeftSessionHasNoOwner(w, p, outcome);
    }
  }

  lemma LeftSessionHasNoOwner(w: World, p: ProxyId, outcome: Outcome)
    requires Inv(w) && IsJoined(w, p)
    ensures !exists q :: Owns(w.Leave(p, outcome), q, WrapperOf(w, p).obj.session)
  {
    var w', s := w.Leave(p, outcome), WrapperOf(w, p).obj.session;
    if exists q :: Owns(w', q, s) {
      var q :| Owns(w', q, s);
      assert IsJoined(w, q) && q != p;
    }
  }

  /**
   The observer left behind makes the next join of the same session skip the registration: the new
   proxy has handlers and counts as watched, but its table has no observer.
   */
  lemma StaleObserverSilencesRejoin(w: World, p: ProxyId, session: SessionId, outcome: Outcome)
    requires Inv(w) && p in w.proxies && !IsJoined(w, p) && session != []
    requires session in w.native.store.engine.observerMap
    requires w.Create(p, session, outcome).1.Some? && w.Recorded(p, Change) != []
    ensures var (n', wrapper) := w.Create(p, session, outcome);
            && Elements(wrapper.value.change) == Elements(w.Recorded(p, Change)) && wrapper.value.isWatched
            && session in n'.store.engine.delegates && n'.store.engine.delegates[session].observers == {}
  {
    CreateKeeps(w, p, session, outcome);
    NewObjectOk(w.native, session);
    var b := Bound(w.native.(store := w.native.store.CreateObject(session, true, true).0), Fresh(w.native, session));
    StaleRestore(b, Change, w.Recorded(p, Change), outcome.registerOk);
    StaleRestore(Restore(b, Change, w.Recorded(p, Change), outcome.registerOk),
                 Status, w.Recorded(p, Status), outcome.registerOk);
  }

  /** With an observer already recorded, restoring handlers never reaches the table. */
  lemma {:induction false} StaleRestore(b: Bound, kind: EventType, handlers: seq<Callback>, registerOk: nat -> bool)
    requires b.native.store.engine.isOpened
    requires b.wrapper.obj.session in b.native.store.engine.delegates
    requires b.wrapper.obj.session in b.native.store.engine.observerMap
    requires b.wrapper.isWatched <==> b.wrapper.obj.id in b.native.store.watchers
    ensures var b' := Restore(b, kind, handlers, registerOk);
            && b'.native.store.engine == b.native.store.engine && b'.wrapper.obj == b.wrapper.obj
            && (b'.wrapper.isWatched <==> b'.wrapper.obj.id in b'.native.store.watchers)
            && (b'.wrapper.isWatched <==> b.wrapper.isWatched || (kind == Change && handlers != []))
  {
    if handlers != [] {
      StaleRestore(b, kind, handlers[..|handlers| - 1], registerOk);
    }
  }

  // ---- Runs that show it ----

  /** The database accepts everything. */
  function Granted(): Outcome {
    Outcome(true, true, true, true, _ => true, _ => true, _ => ANSWERED)
  }

  lemma RunOfThree(w: World, a: Call, b: Call, c: Call)
    ensures Run(w, [a, b, c]) == Apply(Apply(Apply(w, a), b), c)
  {
    assert [a][..0] == [] && Run(w, [a]) == Apply(w, a);
    assert [a, b][..1] == [a] && Run(w, [a, b]) == Apply(Run(w, [a]), b);
    assert [a, b, c][..2] == [a, b];
  }

  lemma RunOfFour(w: World, a: Call, b: Call, c: Call, d: Call)
    ensures Run(w, [a, b, c, d]) == Apply(Apply(Apply(Apply(w, a), b), c), d)
  {
    RunOfThree(w, a, b, c);
    assert [a, b, c, d][..3] == [a, b, c];
  }

  // ---- The live handlers and the callback record ----

  ghost function Live(w: World, p: ProxyId, kind: EventType): set<Callback>
    requires IsJoined(w, p)
  {
    match kind
    case Change => Elements(WrapperOf(w, p).change)
    case Status => Elements(WrapperOf(w, p).status)
    case OtherEvent => {}
  }

  /** The same in calling order. */
  ghost function LiveList(w: World, p: ProxyId, kind: EventType): seq<Callback>
    requires IsJoined(w, p)
  {
    match kind
    case Change => WrapperOf(w, p).change
    case Status => WrapperOf(w, p).status
    case OtherEvent => []
  }

  /**
   The recorded callbacks that an `off` without a callback has silenced: they come back with the next
   `on` of the same callback or with the next change of session, and go for good with an `off` that
   names them.
   */
  ghost function Silenced(w: World, calls: seq<Call>, p: ProxyId, kind: EventType): set<Callback> {
    if calls == [] then {} else
    var front := calls[..|calls| - 1];
    NextSilenced(Run(w, front), calls[|calls| - 1], p, kind, Silenced(w, front, p, kind))
  }

  ghost function NextSilenced(before: World, call: Call, p: ProxyId, kind: EventType, silenced: set<Callback>)
    : set<Callback>
  {
    if call.p != p || p !in before.proxies then silenced else
    match call
    case CallOn(_, k, handler, _) => if k == kind then silenced - {handler} else silenced
    case CallOff(_, k, Some(handler), _) => if k == kind then silenced - {handler} else silenced
    case CallOff(_, k, None, _) => if k == kind then Elements(before.Recorded(p, kind)) else silenced
    case CallSet(_, _, _, _) => silenced
    case CallSession(_, session, _) => if session != [] && before.InSession(p, session) then silenced else {}
  }

  /** The live handlers are the recorded ones without the silenced ones. */
  ghost predicate HandlersOk(w: World, p: ProxyId, kind: EventType, silenced: set<Callback>) {
    IsJoined(w, p) ==>
      && Live(w, p, kind) == Elements(w.Recorded(p, kind)) - silenced
      && silenced <= Elements(w.Recorded(p, kind))
  }

  lemma OnRecord(w: World, p: ProxyId, k: EventType, handler: Callback, dbOk: bool, kind: EventType)
    requires p in w.proxies && kind != OtherEvent
    ensures w.On(p, k, handler, dbOk).Recorded(p, kind) == w.Recorded(p, kind) + if k == kind then [handler] else []
    ensures Elements(w.On(p, k, handler, dbOk).Recorded(p, kind)) ==
            Elements(w.Recorded(p, kind)) + if k == kind then {handler} else {}
  {
  }

  lemma OnLive(w: World, p: ProxyId, k: EventType, handler: Callback, dbOk: bool, kind: EventType)
    requires IsJoined(w, p) && kind != OtherEvent
    ensures var w' := w.On(p, k, handler, dbOk);
            IsJoined(w', p) && Live(w', p, kind) == Live(w, p, kind) + if k == kind then {handler} else {}
  {
    AddWatchLists(Bound(w.native, WrapperOf(w, p)), k, handler, dbOk);
    AddFrontElements(WrapperOf(w, p).change, handler);
    AddFrontElements(WrapperOf(w, p).status, handler);
  }

  lemma OnHandlers(w: World, p: ProxyId, k: EventType, handler: Callback, dbOk: bool, kind: EventType,
                   silenced: set<Callback>)
    requires Inv(w) && p in w.proxies && HandlersOk(w, p, kind, silenced)
    ensures HandlersOk(w.On(p, k, handler, dbOk), p, kind, if k == kind then silenced - {handler} else silenced)
  {
    if IsJoined(w, p) && kind != OtherEvent {
      OnRecord(w, p, k, handler, dbOk, kind);
      OnLive(w, p, k, handler, dbOk, kind);
    }
  }

  lemma OffRecord(w: World, p: ProxyId, k: EventType, dropped: Option<Callback>, dbOk: bool, kind: EventType)
    requires p in w.proxies && kind != OtherEvent
    ensures w.Off(p, k, dropped, dbOk).Recorded(p, kind) ==
            if k == kind && dropped.Some? then Without(w.Recorded(p, kind), dropped.value) else w.Recorded(p, kind)
    ensures Elements(w.Off(p, k, dropped, dbOk).Recorded(p, kind)) ==
            Elements(w.Recorded(p, kind)) - if k == kind && dropped.Some? then {dropped.value} else {}
  {
  }

  lemma DroppedElements(list: seq<Callback>, dropped: Option<Callback>)
    ensures Elements(Dropped(list, dropped)) == if dropped.Some? then Elements(list) - {dropped.value} else {}
  {
  }

  lemma OffWrapper(w: World, p: ProxyId, k: EventType, dropped: Option<Callback>, dbOk: bool)
    requires p in w.proxies
    ensures IsJoined(w.Off(p, k, dropped, dbOk), p) <==> IsJoined(w, p)
    ensures IsJoined(w, p) ==>
              WrapperOf(w.Off(p, k, dropped, dbOk), p) ==
              Bound(w.native, WrapperOf(w, p)).DeleteWatch(k, dropped, dbOk).wrapper
  {
  }

  lemma OffLive(w: World, p: ProxyId, k: EventType, dropped: Option<Callback>, dbOk: bool, kind: EventType, w': World)
    requires Inv(w) && IsJoined(w, p) && IsJoined(w', p) && kind != OtherEvent
    requires WrapperOf(w', p) == Bound(w.native, WrapperOf(w, p)).DeleteWatch(k, dropped, dbOk).wrapper
    ensures Live(w', p, kind) == if k != kind then Live(w, p, kind)
                                 else if dropped.Some? then Live(w, p, kind) - {dropped.value} else {}
  {
    DeleteWatchLists(Bound(w.native, WrapperOf(w, p)), k, dropped, dbOk);
    DroppedElements(WrapperOf(w, p).change, dropped);
    DroppedElements(WrapperOf(w, p).status, dropped);
  }

  lemma OffHandlersAfter(w: World, w': World, p: ProxyId, same: bool, dropped: Option<Callback>, kind: EventType,
                         silenced: set<Callback>)
    requires IsJoined(w, p) && IsJoined(w', p) && HandlersOk(w, p, kind, silenced)
    requires Elements(w'.Recorded(p, kind)) ==
             Elements(w.Recorded(p, kind)) - if same && dropped.Some? then {dropped.value} else {}
    requires Live(w', p, kind) ==
             if !same then Live(w, p, kind) else if dropped.Some? then Live(w, p, kind) - {dropped.value} else {}
    ensures HandlersOk(w', p, kind,
                       if !same then silenced
                       else if dropped.Some? then silenced - {dropped.value} else Elements(w.Recorded(p, kind)))
  {
  }

  lemma OffHandlers(w: World, p: ProxyId, k: EventType, dropped: Option<Callback>, dbOk: bool, kind: EventType,
                    silenced: set<Callback>)
    requires Inv(w) && p in w.proxies && HandlersOk(w, p, kind, silenced)
    ensures HandlersOk(w.Off(p, k, dropped, dbOk), p, kind,
                       if k != kind then silenced
                       else if dropped.Some? then silenced - {dropped.value} else Elements(w.Recorded(p, kind)))
  {
    OffWrapper(w, p, k, dropped, dbOk);
    if IsJoined(w, p) && kind != OtherEvent {
      OffRecord(w, p, k, dropped, dbOk, kind);
      OffLive(w, p, k, dropped, dbOk, kind, w.Off(p, k, dropped, dbOk));
      OffHandlersAfter(w, w.Off(p, k, dropped, dbOk), p, k == kind, dropped, kind, silenced);
    }
  }

  /** A successful change of session rebuilds both lists from the record. */
  lemma SwitchHandlers(w: World, p: ProxyId, session: SessionId, outcome: Outcome)
    requires Inv(w) && p in w.proxies && !w.InSession(p, session)
    ensures var (w', joined) := w.SetSessionId(p, session, outcome);
            && w'.changeCallBacks == w.changeCallBacks && w'.statusCallBacks == w.statusCallBacks
            && (joined ==> IsJoined(w', p)
                           && Live(w', p, Change) == Elements(w.Recorded(p, Change))
                           && Live(w', p, Status) == Elements(w.Recorded(p, Status)))
            && (!joined ==> !IsJoined(w', p))
  {
    SetSessionIdResult(w, p, session, outcome);
    OthersLeave(w, p, outcome);
    if session != [] {
      var left := w.Leave(p, outcome);
      LeaveInv(w, p, outcome);
      OthersJoin(left, p, session, outcome);
      if left.Join(p, session, outcome).1 {
        CreateKeeps(left, p, session, outcome);
        FreshUnclaimed(left, p, session);
        JoinWithProps(left, p, session, outcome);
      }
    }
  }

  lemma CreateOrder(w: World, p: ProxyId, session: SessionId, outcome: Outcome)
    requires w.Create(p, session, outcome).1.Some?
    ensures var wrapper := w.Create(p, session, outcome).1.value;
            wrapper.change == Replayed(w.Recorded(p, Change)) && wrapper.status == Replayed(w.Recorded(p, Status))
  {
    var (store', obj) := w.native.store.CreateObject(session, outcome.createOk, outcome.allocOk);
    var b := Bound(w.native.(store := store'), Fresh(w.native, session));
    RestoreLists(b, Change, w.Recorded(p, Change), outcome.registerOk);
    RestoreLists(Restore(b, Change, w.Recorded(p, Change), outcome.registerOk),
                 Status, w.Recorded(p, Status), outcome.registerOk);
  }

  /**
   The order in which handlers are called after a successful change of session: the recorded callbacks,
   each once, the one recorded first called last.
   */
  lemma SwitchOrder(w: World, p: ProxyId, session: SessionId, outcome: Outcome)
    requires Inv(w) && p in w.proxies && session != [] && !w.InSession(p, session)
    ensures var (w', joined) := w.SetSessionId(p, session, outcome);
            joined ==>
              && IsJoined(w', p)
              && WrapperOf(w', p).change == Replayed(w.Recorded(p, Change))
              && WrapperOf(w', p).status == Replayed(w.Recorded(p, Status))
              && NewestFirst(WrapperOf(w', p).change, w.Recorded(p, Change))
              && NewestFirst(WrapperOf(w', p).status, w.Recorded(p, Status))
  {
    var left := w.Leave(p, outcome);
    LeaveInv(w, p, outcome);
    OthersLeave(w, p, outcome);
    if left.Create(p, session, outcome).1.Some? {
      CreateOrder(left, p, session, outcome);
    }
    ReplayedNewestFirst(w.Recorded(p, Change));
    ReplayedNewestFirst(w.Recorded(p, Status));
  }

  lemma OnOutside(w: World, p: ProxyId, kind: EventType, handler: Callback, dbOk: bool)
    requires Inv(w) && p in w.proxies && !IsJoined(w, p) && kind != OtherEvent
    ensures var w' := w.On(p, kind, handler, dbOk);
            && Inv(w') && p in w'.proxies && !IsJoined(w', p) && w'.native == w.native
            && w'.Recorded(p, kind) == w.Recorded(p, kind) + [handler]
  {
    OnInv(w, p, kind, handler, dbOk);
    OnRecord(w, p, kind, handler, dbOk, kind);
  }

  lemma TwoOnsOutside(w: World, p: ProxyId, kind: EventType, a: Callback, b: Callback)
    requires Initial(w) && p in w.proxies && kind != OtherEvent
    ensures p in w.On(p, kind, a, true).proxies
    ensures var w' := w.On(p, kind, a, true).On(p, kind, b, true);
            && Inv(w') && p in w'.proxies && !IsJoined(w', p) && w'.native == w.native
            && w'.Recorded(p, kind) == [a, b]
  {
    InitialInv(w);
    OnOutside(w, p, kind, a, true);
    OnOutside(w.On(p, kind, a, true), p, kind, b, true);
    assert [] + [a] + [b] == [a, b];
  }

  lemma JoinWithTwo(w: World, p: ProxyId, kind: EventType, session: SessionId, a: Callback, b: Callback)
    requires Inv(w) && p in w.proxies && !IsJoined(w, p) && CanJoin(w.native, session, Granted())
    requires w.Recorded(p, kind) == [a, b] && a != b && session != [] && kind != OtherEvent
    ensures var w' := w.SetSessionId(p, session, Granted()).0;
            IsJoined(w', p) && LiveList(w', p, kind) == [b, a]
  {
    SetSessionIdSucceeds(w, p, session, Granted());
    SwitchOrder(w, p, session, Granted());
    ReplayedTwo(a, b);
  }

  /** The run that shows it: on a, on b, join, and b is called before a. */
  lemma OrderRun(w: World, p: ProxyId, kind: EventType, session: SessionId, a: Callback, b: Callback)
    requires Initial(w) && w.native.store.engine.isOpened && p in w.proxies && kind != OtherEvent
    requires session != [] && a != b
    ensures var calls := [CallOn(p, kind, a, true), CallOn(p, kind, b, true), CallSession(p, session, Granted())];
            IsJoined(Run(w, calls), p) && LiveList(Run(w, calls), p, kind) == [b, a]
  {
    RunOfThree(w, CallOn(p, kind, a, true), CallOn(p, kind, b, true), CallSession(p, session, Granted()));
    TwoOnsOutside(w, p, kind, a, b);
    JoinWithTwo(w.On(p, kind, a, true).On(p, kind, b, true), p, kind, session, a, b);
  }

  lemma StepHandlers(w: World, call: Call, p: ProxyId, kind: EventType, silenced: set<Callback>)
    requires Inv(w) && HandlersOk(w, p, kind, silenced)
    ensures HandlersOk(Apply(w, call), p, kind, NextSilenced(w, call, p, kind, silenced))
  {
    if call.p in w.proxies {
      if call.p == p {
        match call
        case CallOn(_, k, handler, dbOk) => OnHandlers(w, p, k, handler, dbOk, kind, silenced);
        case CallOff(_, k, dropped, dbOk) => OffHandlers(w, p, k, dropped, dbOk, kind, silenced);
        case CallSet(_, key, v, dbOk) =>
        case CallSession(_, session, outcome) =>
          if !w.InSession(p, session) {
            SwitchHandlers(w, p, session, outcome);
          } else {
            JoinedHasSession(w, p);
          }
      } else {
        OthersHandlers(w, call, p, kind);
      }
    }
  }

  lemma JoinedHasSession(w: World, p: ProxyId)
    requires Inv(w) && IsJoined(w, p)
    ensures WrapperOf(w, p).obj.session != []
  {
  }

  /** A call on another proxy changes neither this proxy nor its record. */
  lemma OthersHandlers(w: World, call: Call, p: ProxyId, kind: EventType)
    requires call.p in w.proxies && call.p != p
    ensures p in Apply(w, call).proxies <==> p in w.proxies
    ensures p in w.proxies ==> Apply(w, call).proxies[p] == w.proxies[p]
    ensures Apply(w, call).Recorded(p, kind) == w.Recorded(p, kind)
  {
    match call
    case CallOn(q, k, handler, dbOk) => OthersOn(w, q, k, handler, dbOk, p, kind);
    case CallOff(q, k, dropped, dbOk) => OthersOff(w, q, k, dropped, dbOk, p, kind);
    case CallSet(_, _, _, _) =>
    case CallSession(q, session, outcome) => OthersSession(w, q, session, outcome, p, kind);
  }

  lemma OthersOn(w: World, q: ProxyId, k: EventType, handler: Callback, dbOk: bool, p: ProxyId, kind: EventType)
    requires q in w.proxies && q != p
    ensures var w' := w.On(q, k, handler, dbOk);
            && (p in w'.proxies <==> p in w.proxies)
            && (p in w.proxies ==> w'.proxies[p] == w.proxies[p])
            && w'.Recorded(p, kind) == w.Recorded(p, kind)
  {
  }

  lemma OthersOff(w: World, q: ProxyId, k: EventType, dropped: Option<Callback>, dbOk: bool,
                  p: ProxyId, kind: EventType)
    requires q in w.proxies && q != p
    ensures var w' := w.Off(q, k, dropped, dbOk);
            && (p in w'.proxies <==> p in w.proxies)
            && (p in w.proxies ==> w'.proxies[p] == w.proxies[p])
            && w'.Recorded(p, kind) == w.Recorded(p, kind)
  {
  }

  lemma OthersLeave(w: World, q: ProxyId, outcome: Outcome)
    requires q in w.proxies
    ensures var w' := w.Leave(q, outcome);
            && w'.proxies.Keys == w.proxies.Keys && w'.proxies - {q} == w.proxies - {q}
            && w'.changeCallBacks == w.changeCallBacks && w'.statusCallBacks == w.statusCallBacks
  {
  }

  lemma OthersJoin(w: World, q: ProxyId, session: SessionId, outcome: Outcome)
    requires q in w.proxies && !IsJoined(w, q)
    ensures var w' := w.Join(q, session, outcome).0;
            && w'.proxies.Keys == w.proxies.Keys && w'.proxies - {q} == w.proxies - {q}
            && w'.changeCallBacks == w.changeCallBacks && w'.statusCallBacks == w.statusCallBacks
  {
  }

  lemma OthersSession(w: World, q: ProxyId, session: SessionId, outcome: Outcome, p: ProxyId, kind: EventType)
    requires q in w.proxies && q != p
    ensures var w' := w.SetSessionId(q, session, outcome).0;
            && (p in w'.proxies <==> p in w.proxies)
            && (p in w.proxies ==> w'.proxies[p] == w.proxies[p])
            && w'.Recorded(p, kind) == w.Recorded(p, kind)
  {
    if session == [] || !w.InSession(q, session) {
      OthersLeave(w, q, outcome);
      if session != [] {
        OthersJoin(w.Leave(q, outcome), q, session, outcome);
      }
      AgreeOutside(w.proxies, w.SetSessionId(q, session, outcome).0.proxies, q, p);
    }
  }

  /** No entry is empty. */
  ghost predicate Filled(record: Record) {
    forall p | p in record :: record[p] != []
  }

  ghost predicate RecordsFilled(w: World) {
    Filled(w.changeCallBacks) && Filled(w.statusCallBacks)
  }

  lemma EditedFilled(record: Record, p: ProxyId, handler: Callback)
    requires Filled(record)
    ensures Filled(AddCallback(record, p, handler)) && Filled(DelCallback(record, p, handler))
  {
  }

  lemma OnRecords(w: World, p: ProxyId, kind: EventType, handler: Callback, dbOk: bool)
    requires RecordsFilled(w) && p in w.proxies
    ensures RecordsFilled(w.On(p, kind, handler, dbOk))
  {
    EditedFilled(w.changeCallBacks, p, handler);
    EditedFilled(w.statusCallBacks, p, handler);
  }

  lemma OffRecords(w: World, p: ProxyId, kind: EventType, dropped: Option<Callback>, dbOk: bool)
    requires RecordsFilled(w) && p in w.proxies
    ensures RecordsFilled(w.Off(p, kind, dropped, dbOk))
  {
    if dropped.Some? {
      EditedFilled(w.changeCallBacks, p, dropped.value);
      EditedFilled(w.statusCallBacks, p, dropped.value);
    }
  }

  lemma SessionRecords(w: World, p: ProxyId, session: SessionId, outcome: Outcome)
    requires RecordsFilled(w) && p in w.proxies
    ensures RecordsFilled(w.SetSessionId(p, session, outcome).0)
  {
    OthersLeave(w, p, outcome);
    if session != [] && !w.InSession(p, session) {
      OthersJoin(w.Leave(p, outcome), p, session, outcome);
    }
  }

  lemma StepRecords(w: World, call: Call)
    requires RecordsFilled(w)
    ensures RecordsFilled(Apply(w, call))
  {
    if call.p in w.proxies {
      match call
      case CallOn(p, kind, handler, dbOk) => OnRecords(w, p, kind, handler, dbOk);
      case CallOff(p, kind, dropped, dbOk) => OffRecords(w, p, kind, dropped, dbOk);
      case CallSet(_, _, _, _) =>
      case CallSession(p, session, outcome) => SessionRecords(w, p, session, outcome);
    }
  }

  /** The entry of an object goes with its last callback. */
  lemma {:induction false} RunRecords(w: World, calls: seq<Call>)
    requires Initial(w)
    ensures RecordsFilled(Run(w, calls))
  {
    if calls != [] {
      RunRecords(w, calls[..|calls| - 1]);
      StepRecords(Run(w, calls[..|calls| - 1]), calls[|calls| - 1]);
    }
  }

  lemma {:induction false} RunHandlers(w: World, calls: seq<Call>, p: ProxyId, kind: EventType)
    requires Initial(w)
    ensures HandlersOk(Run(w, calls), p, kind, Silenced(w, calls, p, kind))
  {
    if calls != [] {
      var n := |calls| - 1;
      RunHandlers(w, calls[..n], p, kind);
      RunInv(w, calls[..n]);
      StepHandlers(Run(w, calls[..n]), calls[n], p, kind, Silenced(w, calls[..n], p, kind));
    }
  }

  /**
   The live handlers of a joined proxy are recorded and free of duplicates after every run, and they
   are all the recorded ones exactly when nothing is silenced.
   */
  lemma HandlersMatchRecord(w: World, calls: seq<Call>, p: ProxyId, kind: EventType)
    requires Initial(w) && IsJoined(Run(w, calls), p)
    ensures var w' := Run(w, calls);
            && NoDup(WrapperOf(w', p).change) && NoDup(WrapperOf(w', p).status)
            && Live(w', p, kind) <= Elements(w'.Recorded(p, kind))
            && (Live(w', p, kind) == Elements(w'.Recorded(p, kind)) <==> Silenced(w, calls, p, kind) == {})
  {
    RunInv(w, calls);
    RunHandlers(w, calls, p, kind);
  }

  /** Nothing is silenced unless `off` was called without a callback. */
  lemma {:induction false} OnlyBareOffSilences(w: World, calls: seq<Call>, p: ProxyId, kind: EventType)
    requires forall i | 0 <= i < |calls| ::
               !(calls[i].CallOff? && calls[i].p == p && calls[i].kind == kind && calls[i].dropped.None?)
    ensures Silenced(w, calls, p, kind) == {}
  {
    if calls != [] {
      var n := |calls| - 1;
      forall i | 0 <= i < n ensures calls[..n][i] == calls[i] {
      }
      OnlyBareOffSilences(w, calls[..n], p, kind);
    }
  }

  /**
   `off` without a callback is promised to delete every handler. It empties the live list, but the
   next successful change of session brings every recorded callback back.
   */
  lemma BareOffIsUndone(w: World, p: ProxyId, kind: EventType, dbOk: bool, session: SessionId, outcome: Outcome)
    requires Inv(w) && IsJoined(w, p) && session != WrapperOf(w, p).obj.session && kind != OtherEvent
    ensures var off := w.Off(p, kind, None, dbOk);
            var (w', joined) := off.SetSessionId(p, session, outcome);
            && IsJoined(off, p) && Live(off, p, kind) == {} && off.Recorded(p, kind) == w.Recorded(p, kind)
            && (joined ==> IsJoined(w', p) && Live(w', p, kind) == Elements(w.Recorded(p, kind)))
  {
    OffInv(w, p, kind, None, dbOk);
    DeleteWatchKeeps(Bound(w.native, WrapperOf(w, p)), kind, None, dbOk);
    SwitchHandlers(w.Off(p, kind, None, dbOk), p, session, outcome);
  }

  /** A join that makes an object touches no other session. */
  lemma JoinTouches(w: World, p: ProxyId, session: SessionId, outcome: Outcome)
    requires Inv(w) && p in w.proxies && !IsJoined(w, p) && session != [] && w.Create(p, session, outcome).1.Some?
    ensures var n := w.Join(p, session, outcome).0.native;
            && n.store.engine.delegates - {session} == w.native.store.engine.delegates - {session}
            && n.store.engine.isOpened == w.native.store.engine.isOpened
  {
    CreateKeeps(w, p, session, outcome);
    var (n', wrapper) := w.Create(p, session, outcome);
    var values := w.proxies[p].form.values;
    MigrateNoDup(PropsOf(n', wrapper.value), w.proxies[p].keys, values, outcome.putOk);
    WithPropsKeeps(Bound(n', wrapper.value),
                   Migrate(PropsOf(n', wrapper.value), w.proxies[p].keys, values, outcome.putOk));
  }

  /** A join that the store and the database accept. */
  lemma GrantedJoin(w: World, p: ProxyId, session: SessionId, outcome: Outcome)
    requires Inv(w) && p in w.proxies && !IsJoined(w, p) && session != []
    requires w.native.store.engine.isOpened && session !in w.native.store.engine.delegates
    requires outcome.createOk && outcome.allocOk
    ensures var (w', joined) := w.SetSessionId(p, session, outcome);
            && joined && Inv(w') && IsJoined(w', p) && WrapperOf(w', p).obj.session == session
            && Live(w', p, Change) == Elements(w.Recorded(p, Change))
            && Live(w', p, Status) == Elements(w.Recorded(p, Status))
            && w'.changeCallBacks == w.changeCallBacks && w'.statusCallBacks == w.statusCallBacks
            && w'.native.store.engine.isOpened
            && w'.native.store.engine.delegates - {session} == w.native.store.engine.delegates - {session}
  {
    NewObjectOk(w.native, session) by {
      forall s | s in w.native.notifier ensures s in w.native.store.engine.delegates {
        var q :| Owns(w, q, s);
      }
    }
    SwitchHandlers(w, p, session, outcome);
    SetSessionIdInv(w, p, session, outcome);
    SetSessionIdResult(w, p, session, outcome);
    JoinTouches(w, p, session, outcome);
  }

  lemma InitialInv(w: World)
    requires Initial(w)
    ensures Inv(w) && Chain(w)
  {
  }

  lemma FirstJoin(w: World, p: ProxyId, session: SessionId, kind: EventType)
    requires Initial(w) && w.native.store.engine.isOpened && p in w.proxies && session != [] && kind != OtherEvent
    ensures var w1 := w.SetSessionId(p, session, Granted()).0;
            && Inv(w1) && Chain(w1) && Owns(w1, p, session)
            && Live(w1, p, kind) == {} == Elements(w1.Recorded(p, kind))
            && forall s | s in w1.native.store.engine.delegates :: s == session
  {
    var w1 := w.SetSessionId(p, session, Granted()).0;
    InitialInv(w);
    GrantedJoin(w, p, session, Granted());
    SetSessionIdInv(w, p, session, Granted());
    assert Elements<Callback>([]) == {};
    forall s | s in w1.native.store.engine.delegates ensures s == session {
      if s != session {
        AgreeOutside(w1.native.store.engine.delegates, w.native.store.engine.delegates, session, s);
      }
    }
  }

  lemma OnKeepsSession(w: World, p: ProxyId, kind: EventType, handler: Callback, dbOk: bool)
    requires Inv(w) && IsJoined(w, p)
    ensures var w1 := w.On(p, kind, handler, dbOk);
            && Owns(w1, p, WrapperOf(w, p).obj.session)
            && w1.native.store.engine.delegates.Keys == w.native.store.engine.delegates.Keys
  {
    var b := Bound(w.native, WrapperOf(w, p));
    AddWatchKeepsTables(b, kind, handler, dbOk);
    AddWatchKeeps(b, kind, handler, dbOk);
    OnIsRebound(w, p, kind, handler, dbOk);
  }

  lemma FirstListenLive(w: World, p: ProxyId, kind: EventType, handler: Callback)
    requires IsJoined(w, p) && kind != OtherEvent
    requires Live(w, p, kind) == {} && Elements(w.Recorded(p, kind)) == {}
    ensures IsJoined(w.On(p, kind, handler, true), p)
    ensures Live(w.On(p, kind, handler, true), p, kind) == {handler}
    ensures Elements(w.On(p, kind, handler, true).Recorded(p, kind)) == {handler}
  {
  }

  lemma FirstListen(w: World, p: ProxyId, kind: EventType, handler: Callback)
    requires Inv(w) && Chain(w) && IsJoined(w, p) && kind != OtherEvent
    requires Live(w, p, kind) == {} == Elements(w.Recorded(p, kind))
    ensures Inv(w.On(p, kind, handler, true)) && Chain(w.On(p, kind, handler, true))
    ensures Owns(w.On(p, kind, handler, true), p, WrapperOf(w, p).obj.session)
    ensures Live(w.On(p, kind, handler, true), p, kind) == {handler}
    ensures Elements(w.On(p, kind, handler, true).Recorded(p, kind)) == {handler}
    ensures w.On(p, kind, handler, true).native.store.engine.delegates.Keys == w.native.store.engine.delegates.Keys
  {
    OnInv(w, p, kind, handler, true);
    OnKeepsSession(w, p, kind, handler, true);
    FirstListenLive(w, p, kind, handler);
  }

  /** The run in which `off` without a callback is undone: join, on, off, join another session. */
  lemma BareOffRun(w: World, p: ProxyId, kind: EventType, handler: Callback, first: SessionId, second: SessionId)
    requires Initial(w) && w.native.store.engine.isOpened && p in w.proxies && kind != OtherEvent
    requires first != [] && second != [] && first != second
    ensures var calls := [CallSession(p, first, Granted()), CallOn(p, kind, handler, true),
                          CallOff(p, kind, None, true), CallSession(p, second, Granted())];
            IsJoined(Run(w, calls), p) && Live(Run(w, calls), p, kind) == {handler}
  {
    var a, b, c := CallSession(p, first, Granted()), CallOn(p, kind, handler, true), CallOff(p, kind, None, true);
    RunOfFour(w, a, b, c, CallSession(p, second, Granted()));
    FirstJoin(w, p, first, kind);
    var w1 := Apply(w, a);
    FirstListen(w1, p, kind, handler);
    SecondJoin(Apply(w1, b), p, kind, first, second);
  }

  lemma SecondJoin(w: World, p: ProxyId, kind: EventType, first: SessionId, second: SessionId)
    requires Inv(w) && Owns(w, p, first) && kind != OtherEvent && second != [] && first != second
    requires forall s | s in w.native.store.engine.delegates :: s == first
    ensures var (w', joined) := w.Off(p, kind, None, true).SetSessionId(p, second, Granted());
            joined && IsJoined(w', p) && Live(w', p, kind) == Elements(w.Recorded(p, kind))
  {
    var off := w.Off(p, kind, None, true);
    BareOffIsUndone(w, p, kind, true, second, Granted());
    OffInv(w, p, kind, None, true);
    OffIsRebound(w, p, kind, None, true);
    DeleteWatchKeepsTables(Bound(w.native, WrapperOf(w, p)), kind, None, true);
    var left := off.Leave(p, Granted());
    LeaveInv(off, p, Granted());
    LeaveIsRebound(off, p, Granted());
    DestroyKeeps(Bound(off.native, WrapperOf(off, p)), Granted());
    forall s | s in left.native.store.engine.delegates ensures s != second {
      if s != first {
        AgreeOutside(left.native.store.engine.delegates, off.native.store.engine.delegates, first, s);
      }
    }
    GrantedJoin(left, p, second, Granted());
  }

  // ---- A stranded observer ----

  /** A proxy in a session whose change handlers nobody will call: the table has no observer. */
  ghost predicate Silent(w: World, p: ProxyId, session: SessionId) {
    && Owns(w, p, session) && WrapperOf(w, p).isWatched
    && session in w.native.store.engine.delegates && w.native.store.engine.delegates[session].observers == {}
  }

  lemma JoinSilent(w: World, p: ProxyId, session: SessionId, outcome: Outcome)
    requires Inv(w) && p in w.proxies && !IsJoined(w, p) && session != [] && w.Recorded(p, Change) != []
    requires session in w.native.store.engine.observerMap && w.Create(p, session, outcome).1.Some?
    ensures Silent(w.Join(p, session, outcome).0, p, session)
    ensures Live(w.Join(p, session, outcome).0, p, Change) == Elements(w.Recorded(p, Change))
  {
    StaleObserverSilencesRejoin(w, p, session, outcome);
    FreshUnclaimed(w, p, session) by { CreateKeeps(w, p, session, outcome); }
    JoinWithProps(w, p, session, outcome);
  }

  /** What leaving with a refused unregistration leaves behind. */
  lemma LeaveStranded(w: World, p: ProxyId, outcome: Outcome)
    requires Inv(w) && Chain(w) && IsJoined(w, p) && WrapperOf(w, p).change != []
    requires !outcome.unregisterOk && outcome.closeOk
    ensures var left := w.Leave(p, outcome);
            && Inv(left) && p in left.proxies && !IsJoined(left, p)
            && left.changeCallBacks == w.changeCallBacks && left.statusCallBacks == w.statusCallBacks
            && WrapperOf(w, p).obj.session in left.native.store.engine.observerMap
            && WrapperOf(w, p).obj.session !in left.native.store.engine.delegates
            && left.native.store.engine.isOpened
  {
    LeaveInv(w, p, outcome);
    OthersLeave(w, p, outcome);
    LeaveStrandsObserver(w, p, outcome);
    LeaveIsRebound(w, p, outcome);
    DestroyKeeps(Bound(w.native, WrapperOf(w, p)), outcome);
  }

  /** Leaving with a refused unregistration and joining the same session again: handlers without an observer. */
  lemma StrandedRejoin(w: World, p: ProxyId, outcome: Outcome, outcome': Outcome)
    requires Inv(w) && Chain(w) && IsJoined(w, p) && WrapperOf(w, p).change != [] && w.Recorded(p, Change) != []
    requires !outcome.unregisterOk && outcome.closeOk && outcome'.createOk && outcome'.allocOk
    ensures var session := WrapperOf(w, p).obj.session;
            var left := w.SetSessionId(p, [], outcome).0;
            && p in left.proxies
            && var (w', joined) := left.SetSessionId(p, session, outcome');
            && joined && Silent(w', p, session) && Live(w', p, Change) == Elements(w.Recorded(p, Change))
  {
    var session := WrapperOf(w, p).obj.session;
    var left := w.Leave(p, outcome);
    LeaveStranded(w, p, outcome);
    JoinedHasSession(w, p);
    assert left.Create(p, session, outcome').1.Some?;
    JoinSilent(left, p, session, outcome');
  }

  /** The run in which that happens: join, on, leave with a refused unregistration, join again. */
  lemma StrandedRun(w: World, p: ProxyId, handler: Callback, session: SessionId)
    requires Initial(w) && w.native.store.engine.isOpened && p in w.proxies && session != []
    ensures var calls := [CallSession(p, session, Granted()), CallOn(p, Change, handler, true),
                          CallSession(p, [], Granted().(unregisterOk := false)), CallSession(p, session, Granted())];
            Silent(Run(w, calls), p, session) && Live(Run(w, calls), p, Change) == {handler}
  {
    var a, b := CallSession(p, session, Granted()), CallOn(p, Change, handler, true);
    var c, d := CallSession(p, [], Granted().(unregisterOk := false)), CallSession(p, session, Granted());
    RunOfFour(w, a, b, c, d);
    FirstJoin(w, p, session, Change);
    FirstListen(Apply(w, a), p, Change, handler);
    var w2 := Apply(Apply(w, a), b);
    assert handler in Elements(w2.Recorded(p, Change)) && handler in Live(w2, p, Change);
    StrandedRejoin(w2, p, c.outcome, d.outcome);
  }
}
