/**
 Whether a joined proxy is told of changes, for each proxy by itself and over every run, whatever the
 database answers to registering and unregistering.
 */
module Hearing {
  import opened Types
  import opened StorageEngine
  import opened WatchChain
  import opened JsValues
  import opened Runtime
  import opened ListenerSteps
  import opened ListenerRuns
  import opened ProxiesApart

  /**
   `Hears`: the proxy's own observer is on its table. `Deaf`: nobody has been told, and the next handler
   will try. `Stale`: an observer that is still recorded from an earlier table keeps registrations from
   reaching this one.
   */
  datatype Ear = Away | Deaf | Hears | Stale(watched: bool)

  ghost predicate EarOk(n: Native, w: Wrapper, ear: Ear) {
    var session, e, watcher := w.obj.session, n.store.engine, TableWatcher(w.obj.session, w.obj.id);
    && session in e.delegates
    && (match ear
        case Away => false
        case Deaf => session !in e.observerMap && e.delegates[session].observers == {} && !w.isWatched
        case Hears =>
          && session in e.observerMap && e.observerMap[session] == watcher
          && e.delegates[session].observers == {watcher} && w.isWatched
        case Stale(watched) =>
          session in e.observerMap && e.delegates[session].observers == {} && w.isWatched == watched)
  }

  function AfterOn(ear: Ear, dbOk: bool): Ear {
    match ear
    case Away => Away
    case Deaf => if dbOk then Hears else Deaf
    case Hears => Hears
    case Stale(_) => Stale(true)
  }

  /** Only a call that leaves no handler unregisters. */
  function AfterOff(ear: Ear, emptied: bool, dbOk: bool): Ear {
    if emptied && dbOk && (ear.Hears? || ear == Stale(true)) then Deaf else ear
  }

  ghost function AfterReplay(ear: Ear, handlers: seq<Callback>, registerOk: nat -> bool): Ear {
    match ear
    case Away => Away
    case Deaf => if SomeRegistered(handlers, registerOk) then Hears else Deaf
    case Hears => Hears
    case Stale(watched) => Stale(watched || handlers != [])
  }

  // ---- One wrapper ----

  lemma AddWatchEar(b: Bound, kind: EventType, handler: Callback, dbOk: bool, ear: Ear)
    requires WrapperOk(b.native, b.wrapper) && EarOk(b.native, b.wrapper, ear)
    ensures var b' := b.AddWatch(kind, handler, dbOk);
            EarOk(b'.native, b'.wrapper, if kind == Change then AfterOn(ear, dbOk) else ear)
  {
  }

  lemma DeleteWatchEar(b: Bound, kind: EventType, handler: Option<Callback>, dbOk: bool, ear: Ear)
    requires WrapperOk(b.native, b.wrapper) && EarOk(b.native, b.wrapper, ear)
    ensures var b' := b.DeleteWatch(kind, handler, dbOk);
            EarOk(b'.native, b'.wrapper,
                  if kind == Change then AfterOff(ear, Dropped(b.wrapper.change, handler) == [], dbOk) else ear)
  {
  }

  lemma {:induction false} ReplayEar(b: Bound, handlers: seq<Callback>, registerOk: nat -> bool, ear: Ear)
    requires WrapperOk(b.native, b.wrapper) && EarOk(b.native, b.wrapper, ear)
    ensures var b' := Restore(b, Change, handlers, registerOk);
            EarOk(b'.native, b'.wrapper, AfterReplay(ear, handlers, registerOk))
  {
    if handlers != [] {
      var n := |handlers| - 1;
      var front := handlers[..n];
      var b1 := Restore(b, Change, front, registerOk);
      RestoreKeeps(b, Change, front, registerOk);
      ReplayEar(b, front, registerOk, ear);
      AddWatchEar(b1, Change, handlers[n], registerOk(n), AfterReplay(ear, front, registerOk));
      assert SomeRegistered(handlers, registerOk) <==> SomeRegistered(front, registerOk) || registerOk(n);
    }
  }

  lemma {:induction false} ReplayStatusEar(b: Bound, handlers: seq<Callback>, registerOk: nat -> bool, ear: Ear)
    requires WrapperOk(b.native, b.wrapper) && EarOk(b.native, b.wrapper, ear)
    ensures var b' := Restore(b, Status, handlers, registerOk);
            EarOk(b'.native, b'.wrapper, ear)
  {
    if handlers != [] {
      var n := |handlers| - 1;
      RestoreKeeps(b, Status, handlers[..n], registerOk);
      ReplayStatusEar(b, handlers[..n], registerOk, ear);
      AddWatchEar(Restore(b, Status, handlers[..n], registerOk), Status, handlers[n], registerOk(n), ear);
    }
  }

  /** What a new wrapper starts from. */
  function NewEar(n: Native, session: SessionId): Ear {
    if session in n.store.engine.observerMap then Stale(false) else Deaf
  }

  lemma NewWrapperEar(n: Native, session: SessionId)
    requires NativeOk(n) && n.store.engine.isOpened && session !in n.store.engine.delegates
    ensures var n' := n.(store := n.store.CreateObject(session, true, true).0);
            EarOk(n', Fresh(n, session), NewEar(n, session))
  {
  }

  lemma WithPropsEar(b: Bound, props: Props, ear: Ear)
    requires EarOk(b.native, b.wrapper, ear)
    ensures EarOk(WithProps(b, props).native, WithProps(b, props).wrapper, ear)
  {
  }

  // ---- One call ----

  /** The proxy is joined and its ear is as said, or it is in no session. */
  ghost predicate EarIs(w: World, p: ProxyId, ear: Ear) {
    if IsJoined(w, p) then EarOk(w.native, WrapperOf(w, p), ear) else ear == Away
  }

  /** What a successful join of the session gives: it depends on what was left in `observerMap_`. */
  ghost function JoinedEar(w: World, p: ProxyId, session: SessionId, outcome: Outcome): Ear {
    AfterReplay(NewEar(w.native, session), w.Recorded(p, Change), outcome.registerOk)
  }

  lemma CreateEar(w: World, p: ProxyId, session: SessionId, outcome: Outcome)
    requires Inv(w) && session != [] && w.Create(p, session, outcome).1.Some?
    ensures var (n', wrapper) := w.Create(p, session, outcome);
            EarOk(n', wrapper.value, JoinedEar(w, p, session, outcome))
  {
    var n := w.native;
    forall s | s in n.notifier ensures s in n.store.engine.delegates {
      var q :| Owns(w, q, s);
    }
    NewObjectOk(n, session);
    NewWrapperEar(n, session);
    var b := Bound(n.(store := n.store.CreateObject(session, true, true).0), Fresh(n, session));
    ReplayEar(b, w.Recorded(p, Change), outcome.registerOk, NewEar(n, session));
    RestoreKeeps(b, Change, w.Recorded(p, Change), outcome.registerOk);
    ReplayStatusEar(Restore(b, Change, w.Recorded(p, Change), outcome.registerOk), w.Recorded(p, Status),
                    outcome.registerOk, JoinedEar(w, p, session, outcome));
  }

  lemma JoinEar(w: World, p: ProxyId, session: SessionId, outcome: Outcome)
    requires Inv(w) && p in w.proxies && !IsJoined(w, p) && session != []
    ensures var (w', joined) := w.Join(p, session, outcome);
            EarIs(w', p, if joined then JoinedEar(w, p, session, outcome) else Away)
  {
    var (n', wrapper) := w.Create(p, session, outcome);
    if wrapper.Some? {
      CreateEar(w, p, session, outcome);
      var props := Migrate(PropsOf(n', wrapper.value), w.proxies[p].keys, w.proxies[p].form.values, outcome.putOk);
      WithPropsEar(Bound(n', wrapper.value), props, JoinedEar(w, p, session, outcome));
    }
  }

  /** What a call makes of the ear of the proxy `p`. */
  ghost function NextEar(before: World, call: Call, p: ProxyId, ear: Ear): Ear {
    if call.p != p || p !in before.proxies then ear else
    match call
    case CallOn(_, kind, _, dbOk) => if kind == Change then AfterOn(ear, dbOk) else ear
    case CallOff(_, kind, dropped, dbOk) =>
      if kind == Change && IsJoined(before, p)
      then AfterOff(ear, Dropped(WrapperOf(before, p).change, dropped) == [], dbOk) else ear
    case CallSet(_, _, _, _) => ear
    case CallSession(_, session, outcome) =>
      if session != [] && before.InSession(p, session) then ear
      else if !before.SetSessionId(p, session, outcome).1 then Away
      else JoinedEar(before.Leave(p, outcome), p, session, outcome)
  }

  lemma OnEar(w: World, p: ProxyId, kind: EventType, handler: Callback, dbOk: bool, ear: Ear)
    requires Inv(w) && p in w.proxies && EarIs(w, p, ear)
    ensures EarIs(w.On(p, kind, handler, dbOk), p, if kind == Change then AfterOn(ear, dbOk) else ear)
  {
    if IsJoined(w, p) {
      AddWatchEar(Bound(w.native, WrapperOf(w, p)), kind, handler, dbOk, ear);
    }
  }

  lemma OffEar(w: World, p: ProxyId, kind: EventType, dropped: Option<Callback>, dbOk: bool, ear: Ear)
    requires Inv(w) && p in w.proxies && EarIs(w, p, ear)
    ensures EarIs(w.Off(p, kind, dropped, dbOk), p, NextEar(w, CallOff(p, kind, dropped, dbOk), p, ear))
  {
    if IsJoined(w, p) {
      var b, w' := Bound(w.native, WrapperOf(w, p)), w.Off(p, kind, dropped, dbOk);
      DeleteWatchEar(b, kind, dropped, dbOk, ear);
      OffWrapper(w, p, kind, dropped, dbOk);
      assert w'.native == b.DeleteWatch(kind, dropped, dbOk).native;
    }
  }

  lemma SetEar(w: World, p: ProxyId, key: Text, v: JsValue, dbOk: bool, ear: Ear)
    requires p in w.proxies && EarIs(w, p, ear)
    ensures EarIs(w.SetProperty(p, key, v, dbOk), p, ear)
  {
    if IsJoined(w, p) && key in w.proxies[p].keys {
      var b := Bound(w.native, WrapperOf(w, p));
      WithPropsEar(b, PropsOf(w.native, b.wrapper).Write(key, v, dbOk), ear);
    }
  }

  lemma SessionEar(w: World, p: ProxyId, session: SessionId, outcome: Outcome, ear: Ear)
    requires Inv(w) && p in w.proxies && EarIs(w, p, ear)
    ensures EarIs(w.SetSessionId(p, session, outcome).0, p, NextEar(w, CallSession(p, session, outcome), p, ear))
  {
    if session == [] || !w.InSession(p, session) {
      LeaveInv(w, p, outcome);
      if session != [] {
        JoinEar(w.Leave(p, outcome), p, session, outcome);
      }
    }
  }

  lemma OthersEar(w: World, call: Call, p: ProxyId, ear: Ear)
    requires Inv(w) && call.p in w.proxies && call.p != p && EarIs(w, p, ear)
    ensures EarIs(Apply(w, call), p, ear)
  {
    OthersHandlers(w, call, p, Change);
    if IsJoined(w, p) {
      CallStaysApart(w, call, p);
    }
  }

  lemma StepEar(w: World, call: Call, p: ProxyId, ear: Ear)
    requires Inv(w) && EarIs(w, p, ear)
    ensures EarIs(Apply(w, call), p, NextEar(w, call, p, ear))
  {
    if call.p in w.proxies {
      if call.p != p {
        OthersEar(w, call, p, ear);
      } else {
        match call
        case CallOn(_, kind, handler, dbOk) => OnEar(w, p, kind, handler, dbOk, ear);
        case CallOff(_, kind, dropped, dbOk) => OffEar(w, p, kind, dropped, dbOk, ear);
        case CallSet(_, key, v, dbOk) => SetEar(w, p, key, v, dbOk, ear);
        case CallSession(_, session, outcome) => SessionEar(w, p, session, outcome, ear);
      }
    }
  }

  // ---- Whole runs ----

  ghost function EarAfter(w: World, calls: seq<Call>, p: ProxyId): Ear {
    if calls == [] then Away else
    var n := |calls| - 1;
    NextEar(Run(w, calls[..n]), calls[n], p, EarAfter(w, calls[..n], p))
  }

  lemma {:induction false} RunEar(w: World, calls: seq<Call>, p: ProxyId)
    requires Initial(w)
    ensures EarIs(Run(w, calls), p, EarAfter(w, calls, p))
  {
    if calls != [] {
      var n := |calls| - 1;
      RunEar(w, calls[..n], p);
      RunInv(w, calls[..n]);
      StepEar(Run(w, calls[..n]), calls[n], p, EarAfter(w, calls[..n], p));
    }
  }

  /**
   After every run, whatever the database answers to any proxy: the table of a joined proxy has its
   observer exactly when the proxy hears, and no other observer ever; its subscription records agree
   exactly when it hears and has handlers, or is deaf and has none.
   */
  lemma HearsExactly(w: World, calls: seq<Call>, p: ProxyId)
    requires Initial(w) && IsJoined(Run(w, calls), p)
    ensures var n, wrapper := Run(w, calls).native, WrapperOf(Run(w, calls), p);
            var session, ear := wrapper.obj.session, EarAfter(w, calls, p);
            && session in n.store.engine.delegates
            && n.store.engine.delegates[session].observers ==
               (if ear == Hears then {TableWatcher(session, wrapper.obj.id)} else {})
            && (wrapper.isWatched <==> ear == Hears || ear == Stale(true))
            && (ChainOk(n, wrapper) <==> ear == if wrapper.change != [] then Hears else Deaf)
  {
    RunEar(w, calls, p);
  }
}
