/**
 A call on one proxy leaves the table, the observer and the subscription of every other joined proxy as
 they are, whatever the database answers.
 */
module ProxiesApart {
  import opened Types
  import opened ObjectStores
  import opened WatchChain
  import opened JsValues
  import opened Runtime
  import opened ListenerSteps
  import opened ListenerRuns

  /** What the native side keeps for the session and the object of a wrapper. */
  ghost predicate Untouched(n: Native, n': Native, w: Wrapper) {
    var session, e, e' := w.obj.session, n.store.engine, n'.store.engine;
    && (session in e'.delegates <==> session in e.delegates)
    && (session in e.delegates ==> e'.delegates[session] == e.delegates[session])
    && (session in e'.observerMap <==> session in e.observerMap)
    && (session in e.observerMap ==> e'.observerMap[session] == e.observerMap[session])
    && (w.obj.id in n'.store.watchers <==> w.obj.id in n.store.watchers)
  }

  lemma ElsewhereUntouched(n: Native, n': Native, obj: ObjectRef, w: Wrapper)
    requires Elsewhere(n, n', obj) && w.obj.session != obj.session && w.obj.id != obj.id
    ensures Untouched(n, n', w)
  {
    AgreeOutside(n.store.engine.delegates, n'.store.engine.delegates, obj.session, w.obj.session);
    AgreeOutside(n.store.engine.observerMap, n'.store.engine.observerMap, obj.session, w.obj.session);
    AgreeOutside(n.store.watchers, n'.store.watchers, obj.id, w.obj.id);
  }

  /** A step made on behalf of a joined proxy. */
  lemma StepStaysApart(w: World, p: ProxyId, n': Native, q: ProxyId)
    requires Inv(w) && IsJoined(w, p) && IsJoined(w, q) && q != p && Elsewhere(w.native, n', WrapperOf(w, p).obj)
    ensures Untouched(w.native, n', WrapperOf(w, q))
  {
    JoinedUnclaimed(w, p);
    ElsewhereUntouched(w.native, n', WrapperOf(w, p).obj, WrapperOf(w, q));
  }

  lemma OnStaysApart(w: World, p: ProxyId, kind: EventType, handler: Callback, dbOk: bool, q: ProxyId)
    requires Inv(w) && IsJoined(w, p) && IsJoined(w, q) && q != p
    ensures Untouched(w.native, w.On(p, kind, handler, dbOk).native, WrapperOf(w, q))
  {
    AddWatchKeeps(Bound(w.native, WrapperOf(w, p)), kind, handler, dbOk);
    StepStaysApart(w, p, w.On(p, kind, handler, dbOk).native, q);
  }

  lemma OffStaysApart(w: World, p: ProxyId, kind: EventType, dropped: Option<Callback>, dbOk: bool, q: ProxyId)
    requires Inv(w) && IsJoined(w, p) && IsJoined(w, q) && q != p
    ensures Untouched(w.native, w.Off(p, kind, dropped, dbOk).native, WrapperOf(w, q))
  {
    DeleteWatchKeeps(Bound(w.native, WrapperOf(w, p)), kind, dropped, dbOk);
    StepStaysApart(w, p, w.Off(p, kind, dropped, dbOk).native, q);
  }

  lemma SetStaysApart(w: World, p: ProxyId, key: Text, v: JsValue, dbOk: bool, q: ProxyId)
    requires Inv(w) && IsJoined(w, p) && IsJoined(w, q) && q != p
    ensures Untouched(w.native, w.SetProperty(p, key, v, dbOk).native, WrapperOf(w, q))
  {
    if key in w.proxies[p].keys {
      var b := Bound(w.native, WrapperOf(w, p));
      var props := PropsOf(w.native, b.wrapper).Write(key, v, dbOk);
      WriteNoDup(PropsOf(w.native, b.wrapper), key, v, dbOk);
      WithPropsKeeps(b, props);
      StepStaysApart(w, p, WithProps(b, props).native, q);
    }
  }

  lemma LeaveStaysApart(w: World, p: ProxyId, outcome: Outcome, q: ProxyId)
    requires Inv(w) && p in w.proxies && IsJoined(w, q) && q != p
    ensures Untouched(w.native, w.Leave(p, outcome).native, WrapperOf(w, q))
  {
    if IsJoined(w, p) {
      DestroyKeeps(Bound(w.native, WrapperOf(w, p)), outcome);
      StepStaysApart(w, p, w.Leave(p, outcome).native, q);
    }
  }

  lemma JoinStaysApart(w: World, p: ProxyId, session: SessionId, outcome: Outcome, q: ProxyId)
    requires Inv(w) && p in w.proxies && !IsJoined(w, p) && session != [] && IsJoined(w, q) && q != p
    ensures Untouched(w.native, w.Join(p, session, outcome).0.native, WrapperOf(w, q))
  {
    var (n', wrapper) := w.Create(p, session, outcome);
    if session !in w.native.store.engine.delegates {
      var obj := Fresh(w.native, session).obj;
      FreshUnclaimed(w, p, session);
      if wrapper.None? {
        FailedCreate(w.native, session, outcome.createOk, outcome.allocOk);
        ElsewhereUntouched(w.native, n', obj, WrapperOf(w, q));
      } else {
        CreateKeeps(w, p, session, outcome);
        var b := Bound(n', wrapper.value);
        var values := w.proxies[p].form.values;
        MigrateNoDup(PropsOf(n', b.wrapper), w.proxies[p].keys, values, outcome.putOk);
        var props := Migrate(PropsOf(n', b.wrapper), w.proxies[p].keys, values, outcome.putOk);
        WithPropsKeeps(b, props);
        ElsewhereUntouched(w.native, WithProps(b, props).native, obj, WrapperOf(w, q));
      }
    }
  }

  lemma SessionStaysApart(w: World, p: ProxyId, session: SessionId, outcome: Outcome, q: ProxyId)
    requires Inv(w) && p in w.proxies && IsJoined(w, q) && q != p
    ensures Untouched(w.native, w.SetSessionId(p, session, outcome).0.native, WrapperOf(w, q))
  {
    if session == [] || !w.InSession(p, session) {
      LeaveStaysApart(w, p, outcome, q);
      if session != [] {
        var left := w.Leave(p, outcome);
        LeaveInv(w, p, outcome);
        OthersSession(w, p, [], outcome, q, Change);
        JoinStaysApart(left, p, session, outcome, q);
      }
    }
  }

  lemma CallStaysApart(w: World, call: Call, q: ProxyId)
    requires Inv(w) && call.p in w.proxies && IsJoined(w, q) && q != call.p
    ensures Untouched(w.native, Apply(w, call).native, WrapperOf(w, q))
  {
    if call.CallSession? {
      SessionStaysApart(w, call.p, call.session, call.outcome, q);
    } else if IsJoined(w, call.p) {
      match call
      case CallOn(p, kind, handler, dbOk) => OnStaysApart(w, p, kind, handler, dbOk, q);
      case CallOff(p, kind, dropped, dbOk) => OffStaysApart(w, p, kind, dropped, dbOk, q);
      case CallSet(p, key, v, dbOk) => SetStaysApart(w, p, key, v, dbOk, q);
    }
  }
}
