/**
 From a foreign change in a table, or a change of status, to one queued event per live handler
 (frameworks/innerkitsimpl/src/adaptor/flat_object_storage_engine.cpp:407-428,
 frameworks/jskitsimpl/src/adaptor/js_watcher.cpp and notifier_impl.cpp).
 */
module ChangeDelivery {
  import opened Types
  import opened Sequences
  import opened DistributedObjects
  import opened EventListeners
  import opened StorageEngine
  import opened WatchChain
  import opened UvQueues
  import opened ListenerSteps
  import ListenerRuns
  import Hearing

  // ---- The changed names ----

  /** The property names among the changed keys: those with the prefix, prefix stripped. */
  function Names(keys: seq<Bytes>): seq<Text> {
    if keys == [] then [] else
    var n := |keys| - 1;
    Names(keys[..n]) + if FIELDS_PREFIX <= keys[n] then [keys[n][|FIELDS_PREFIX|..]] else []
  }

  /** Property keys give back their names, in order and one by one; other keys give nothing. */
  lemma {:induction false} NamesInverse(keys: seq<Bytes>, names: seq<Text>)
    requires |names| == |keys| && forall i | 0 <= i < |keys| :: keys[i] == FieldKey(names[i])
    ensures Names(keys) == names
  {
    if keys != [] {
      var n := |keys| - 1;
      NamesInverse(keys[..n], names[..n]);
      assert keys[n][|FIELDS_PREFIX|..] == names[n];
      assert names == names[..n] + [names[n]];
    }
  }

  lemma {:induction false} NamesSkipOthers(keys: seq<Bytes>)
    ensures Names(keys) == [] <==> forall i | 0 <= i < |keys| :: !(FIELDS_PREFIX <= keys[i])
  {
    if keys != [] {
      NamesSkipOthers(keys[..|keys| - 1]);
    }
  }

  /** `Watcher::OnChange`: inserted entries first, then updated ones. */
  method ChangedNames(inserted: seq<Bytes>, updated: seq<Bytes>) returns (changedData: seq<Text>)
    ensures changedData == Names(inserted) + Names(updated)
  {
    changedData := [];
    for i := 0 to |inserted|
      invariant changedData == Names(inserted[..i])
    {
      assert inserted[..i + 1][..i] == inserted[..i];
      var tmp := inserted[i];
      if FIELDS_PREFIX <= tmp {
        changedData := changedData + [tmp[|FIELDS_PREFIX|..]];
      }
    }
    assert inserted[..|inserted|] == inserted;
    for i := 0 to |updated|
      invariant changedData == Names(inserted) + Names(updated[..i])
    {
      assert updated[..i + 1][..i] == updated[..i];
      var tmp := updated[i];
      if FIELDS_PREFIX <= tmp {
        changedData := changedData + [tmp[|FIELDS_PREFIX|..]];
      }
    }
    assert updated[..|updated|] == updated;
  }

  // ---- Emitting ----

  datatype EventArgs =
    | ChangeArgs(callback: Callback, session: SessionId, changeData: seq<Text>)
    | StatusArgs(callback: Callback, session: SessionId, networkId: Text, status: Text)

  /** One event per handler, in list order; none if nothing has changed. */
  function ChangeEvents(handlers: seq<Callback>, session: SessionId, changeData: seq<Text>): seq<EventArgs> {
    if changeData == [] then [] else
    seq(|handlers|, i requires 0 <= i < |handlers| => ChangeArgs(handlers[i], session, changeData))
  }

  function StatusEvents(handlers: seq<Callback>, session: SessionId, networkId: Text, status: Text): seq<EventArgs> {
    if session == [] || networkId == [] then [] else
    seq(|handlers|, i requires 0 <= i < |handlers| => StatusArgs(handlers[i], session, networkId, status))
  }

  /** A whole submission, with memory for its work item. */
  method Submit(queue: UvQueue<EventArgs>, process: Process, argv: EventArgs)
    modifies queue
    ensures forall q: Process ::
              At(queue.args, q) == old(At(queue.args, q)) + if q == process then [argv] else []
    ensures old(queue.State().Conserved()) ==> queue.State().Conserved()
  {
    queue.CallFunction(process, argv, true);
  }

  /** The arguments of the k-th event. */
  lemma EventAt(handlers: seq<Callback>, session: SessionId, names: seq<Text>, networkId: Text, status: Text, k: nat)
    requires k < |handlers|
    ensures names != [] ==>
              && |ChangeEvents(handlers, session, names)| == |handlers|
              && ChangeEvents(handlers, session, names)[k] == ChangeArgs(handlers[k], session, names)
    ensures session != [] && networkId != [] ==>
              && |StatusEvents(handlers, session, networkId, status)| == |handlers|
              && StatusEvents(handlers, session, networkId, status)[k] ==
                 StatusArgs(handlers[k], session, networkId, status)
  {
  }

  /** `JSWatcher::Emit` for a change, with memory for every work item. */
  method EmitChange(listener: EventListener, queue: UvQueue<EventArgs>, session: SessionId, changeData: seq<Text>)
    requires listener.Valid()
    modifies queue
    ensures At(queue.args, ProcessChange) ==
            old(At(queue.args, ProcessChange)) + ChangeEvents(listener.contents, session, changeData)
    ensures At(queue.args, ProcessStatus) == old(At(queue.args, ProcessStatus))
    ensures old(queue.State().Conserved()) ==> queue.State().Conserved()
  {
    if changeData == [] {
      return;
    }
    var handler := listener.handlers;
    ghost var k := 0;
    ghost var events := ChangeEvents(listener.contents, session, changeData);
    while handler != null
      invariant k <= |listener.nodes| && handler == EventListener.NodeAt(listener.nodes, k)
      invariant At(queue.args, ProcessChange) == old(At(queue.args, ProcessChange)) + events[..k]
      invariant At(queue.args, ProcessStatus) == old(At(queue.args, ProcessStatus))
      invariant old(queue.State().Conserved()) ==> queue.State().Conserved()
      decreases |listener.nodes| - k
    {
      var changeArgs := ChangeArgs(handler.callbackRef, session, changeData);
      Submit(queue, ProcessChange, changeArgs);
      assert events[..k + 1] == events[..k] + [changeArgs];
      handler := handler.next;
      k := k + 1;
    }
    assert events[..k] == events;
  }

  /** `JSWatcher::Emit` for a status, with memory for every work item. */
  method EmitStatus(listener: EventListener, queue: UvQueue<EventArgs>, session: SessionId, networkId: Text,
                    status: Text)
    requires listener.Valid()
    modifies queue
    ensures At(queue.args, ProcessStatus) ==
            old(At(queue.args, ProcessStatus)) + StatusEvents(listener.contents, session, networkId, status)
    ensures At(queue.args, ProcessChange) == old(At(queue.args, ProcessChange))
    ensures old(queue.State().Conserved()) ==> queue.State().Conserved()
  {
    if session == [] || networkId == [] {
      return;
    }
    var handler := listener.handlers;
    ghost var k := 0;
    ghost var events := StatusEvents(listener.contents, session, networkId, status);
    while handler != null
      invariant k <= |listener.nodes| && handler == EventListener.NodeAt(listener.nodes, k)
      invariant At(queue.args, ProcessStatus) == old(At(queue.args, ProcessStatus)) + events[..k]
      invariant At(queue.args, ProcessChange) == old(At(queue.args, ProcessChange))
      invariant old(queue.State().Conserved()) ==> queue.State().Conserved()
      decreases |listener.nodes| - k
    {
      var statusArgs := StatusArgs(handler.callbackRef, session, networkId, status);
      Submit(queue, ProcessStatus, statusArgs);
      assert events[..k + 1] == events[..k] + [statusArgs];
      handler := handler.next;
      k := k + 1;
    }
    assert events[..k] == events;
  }

  // ---- End to end ----

  /** The events that a foreign change of the proxy's table causes: the database calls its observers. */
  function ChangeDelivered(n: Native, w: Wrapper, inserted: seq<Bytes>, updated: seq<Bytes>): seq<EventArgs> {
    var session := w.obj.session;
    if session in n.store.engine.delegates
       && TableWatcher(session, w.obj.id) in n.store.engine.delegates[session].observers
    then ChangeEvents(w.change, session, Names(inserted) + Names(updated)) else []
  }

  /** The events that a change of status of a session causes for one wrapper: the notifier emits to its entry. */
  function StatusDelivered(n: Native, w: Wrapper, session: SessionId, networkId: Text, status: Text): seq<EventArgs> {
    if session in n.notifier && n.notifier[session] == w.obj.id
    then StatusEvents(w.status, session, networkId, status) else []
  }

  /**
   After every run, whatever the database answers, a foreign change that touches a property queues one
   event per live change handler of a joined proxy, in list order, exactly when the proxy hears; otherwise
   it queues none. No handler of another proxy ever gets one.
   */
  lemma EveryHandlerOnce(w: Runtime.World, calls: seq<Runtime.Call>, p: Runtime.ProxyId,
                         inserted: seq<Bytes>, updated: seq<Bytes>)
    requires Runtime.Initial(w) && IsJoined(Runtime.Run(w, calls), p)
    ensures var n, wrapper := Runtime.Run(w, calls).native, WrapperOf(Runtime.Run(w, calls), p);
            && ChangeDelivered(n, wrapper, inserted, updated) ==
               (if Hearing.EarAfter(w, calls, p) == Hearing.Hears
                then ChangeEvents(wrapper.change, wrapper.obj.session, Names(inserted) + Names(updated)) else [])
            && NoDup(wrapper.change)
            && wrapper.obj.session in n.store.engine.delegates
            && n.store.engine.delegates[wrapper.obj.session].observers
               <= {TableWatcher(wrapper.obj.session, wrapper.obj.id)}
  {
    ListenerRuns.RunInv(w, calls);
    Hearing.HearsExactly(w, calls, p);
  }

  /**
   In every run, whatever the database answers, a change of status of a session queues one event per
   status handler of the proxy in that session, and none for a handler of any other proxy.
   */
  lemma StatusReachesItsSession(w: Runtime.World, calls: seq<Runtime.Call>, p: Runtime.ProxyId,
                                session: SessionId, networkId: Text, status: Text)
    requires Runtime.Initial(w) && IsJoined(Runtime.Run(w, calls), p)
    ensures var n, wrapper := Runtime.Run(w, calls).native, WrapperOf(Runtime.Run(w, calls), p);
            && NoDup(wrapper.status)
            && StatusDelivered(n, wrapper, session, networkId, status) ==
               if wrapper.obj.session == session then StatusEvents(wrapper.status, session, networkId, status) else []
  {
    ListenerRuns.RunInv(w, calls);
    var w' := Runtime.Run(w, calls);
    if session in w'.native.notifier {
      var q :| Owns(w', q, session);
      JoinedUnclaimed(w', p);
    }
  }

  // ---- Calling the handlers ----

  /** What becomes of one queued event: its arguments cannot be made, its callback throws, or it returns. */
  datatype Answer = Unmade | Threw | Returned

  /** The first event at or after `k` whose callback does not return. */
  function FirstFailure(n: nat, answers: nat -> Answer, k: nat): (i: nat)
    requires k <= n
    ensures k <= i <= n && (forall j | k <= j < i :: answers(j) == Returned) && (i < n ==> answers(i) != Returned)
    decreases n - k
  {
    if k == n || answers(k) != Returned then k else FirstFailure(n, answers, k + 1)
  }

  /** The events of a batch whose callbacks are called; the rest is deleted. */
  function Called(args: seq<EventArgs>, answers: nat -> Answer): seq<EventArgs> {
    var i := FirstFailure(|args|, answers, 0);
    if i < |args| && answers(i) == Threw then args[..i + 1] else args[..i]
  }

  /** `ProcessChange` and `ProcessStatus`: one failure ends the batch. */
  method ProcessBatch(args: seq<EventArgs>, answers: nat -> Answer) returns (called: seq<EventArgs>)
    ensures called == Called(args, answers)
  {
    called := [];
    for i := 0 to |args|
      invariant called == args[..i] && FirstFailure(|args|, answers, 0) == FirstFailure(|args|, answers, i)
    {
      if answers(i) == Unmade {
        return;
      }
      called := called + [args[i]];
      if answers(i) == Threw {
        return;
      }
    }
  }

  /** The called events are the first ones; an event is among them exactly when every one before it returned. */
  lemma CalledExactly(args: seq<EventArgs>, answers: nat -> Answer, i: nat)
    requires i < |args|
    ensures Called(args, answers) <= args
    ensures i < |Called(args, answers)| <==>
              answers(i) != Unmade && forall j | 0 <= j < i :: answers(j) == Returned
  {
    var failure := FirstFailure(|args|, answers, 0);
    assert failure < i ==> answers(failure) != Returned;
  }

  /** All handlers are called exactly when none throws before the last. */
  lemma AllCalledExactly(args: seq<EventArgs>, answers: nat -> Answer)
    ensures Called(args, answers) == args <==>
              forall j | 0 <= j < |args| :: answers(j) == Returned || (j == |args| - 1 && answers(j) == Threw)
  {
    if args != [] {
      CalledExactly(args, answers, |args| - 1);
    }
  }

  /** The events of one emission within a batch. */
  lemma EventCalledExactly(before: seq<EventArgs>, events: seq<EventArgs>, after: seq<EventArgs>,
                           answers: nat -> Answer, k: nat)
    requires k < |events|
    ensures var batch, i := before + events + after, |before| + k;
            && batch[i] == events[k]
            && (i < |Called(batch, answers)| <==>
                answers(i) != Unmade && forall j | 0 <= j < i :: answers(j) == Returned)
  {
    CalledExactly(before + events + after, answers, |before| + k);
  }

  /**
   After every run: in a batch that holds the events of a foreign change, a live handler of a proxy that
   hears is called exactly when its arguments can be made and every event before its own returned,
   whether that was queued for another handler or for an earlier change.
   */
  lemma HandlerCalledExactly(w: Runtime.World, calls: seq<Runtime.Call>, p: Runtime.ProxyId,
                             inserted: seq<Bytes>, updated: seq<Bytes>, before: seq<EventArgs>,
                             after: seq<EventArgs>, answers: nat -> Answer, k: nat)
    requires Runtime.Initial(w) && IsJoined(Runtime.Run(w, calls), p)
    requires Hearing.EarAfter(w, calls, p) == Hearing.Hears
    requires Names(inserted) + Names(updated) != [] && k < |WrapperOf(Runtime.Run(w, calls), p).change|
    ensures var n, wrapper := Runtime.Run(w, calls).native, WrapperOf(Runtime.Run(w, calls), p);
            var batch, i := before + ChangeDelivered(n, wrapper, inserted, updated) + after, |before| + k;
            && i < |batch|
            && batch[i] == ChangeArgs(wrapper.change[k], wrapper.obj.session, Names(inserted) + Names(updated))
            && (i < |Called(batch, answers)| <==>
                answers(i) != Unmade && forall j | 0 <= j < i :: answers(j) == Returned)
  {
    EveryHandlerOnce(w, calls, p, inserted, updated);
    var n, wrapper := Runtime.Run(w, calls).native, WrapperOf(Runtime.Run(w, calls), p);
    EventCalledExactly(before, ChangeDelivered(n, wrapper, inserted, updated), after, answers, k);
  }

  /** Nothing is queued for an empty list of names, for an empty session and for an empty network id. */
  lemma NothingToTell(handlers: seq<Callback>, session: SessionId, networkId: Text, status: Text)
    ensures ChangeEvents(handlers, session, []) == []
    ensures session == [] || networkId == [] ==> StatusEvents(handlers, session, networkId, status) == []
  {
  }

  /**
   After every run and for a named device: a change of status of the session of a joined proxy queues one
   event for each of its status handlers, with session, network id and status as given, and the handler is
   called exactly when its arguments can be made and every event before its own returned.
   */
  lemma StatusHandlerCalledExactly(w: Runtime.World, calls: seq<Runtime.Call>, p: Runtime.ProxyId,
                                   networkId: Text, status: Text, before: seq<EventArgs>,
                                   after: seq<EventArgs>, answers: nat -> Answer, k: nat)
    requires Runtime.Initial(w) && IsJoined(Runtime.Run(w, calls), p) && networkId != []
    requires k < |WrapperOf(Runtime.Run(w, calls), p).status|
    ensures var n, wrapper := Runtime.Run(w, calls).native, WrapperOf(Runtime.Run(w, calls), p);
            var events := StatusDelivered(n, wrapper, wrapper.obj.session, networkId, status);
            var batch, i := before + events + after, |before| + k;
            && |events| == |wrapper.status|
            && batch[i] == StatusArgs(wrapper.status[k], wrapper.obj.session, networkId, status)
            && (i < |Called(batch, answers)| <==>
                answers(i) != Unmade && forall j | 0 <= j < i :: answers(j) == Returned)
  {
    var n, wrapper := Runtime.Run(w, calls).native, WrapperOf(Runtime.Run(w, calls), p);
    StatusReachesItsSession(w, calls, p, wrapper.obj.session, networkId, status);
    ListenerRuns.JoinedHasSession(Runtime.Run(w, calls), p) by {
      ListenerRuns.RunInv(w, calls);
    }
    EventCalledExactly(before, StatusDelivered(n, wrapper, wrapper.obj.session, networkId, status), after, answers, k);
  }

  lemma SomeElement(list: seq<Callback>)
    ensures list != [] ==> Elements(list) != {}
  {
    if list != [] {
      assert list[0] in Elements(list);
    }
  }

  lemma TwoHandlers(w: Runtime.World, p: Runtime.ProxyId, a: Callback, b: Callback)
    requires IsJoined(w, p) && Elements(WrapperOf(w, p).change) == {} && a != b
    ensures IsJoined(w.On(p, Change, a, true), p)
    ensures var w' := w.On(p, Change, a, true).On(p, Change, b, true);
            IsJoined(w', p) && WrapperOf(w', p).change == [b, a]
  {
    var wrapper := WrapperOf(w, p);
    SomeElement(wrapper.change);
    var w1 := w.On(p, Change, a, true);
    AddWatchLists(Bound(w.native, wrapper), Change, a, true);
    AddWatchLists(Bound(w1.native, WrapperOf(w1, p)), Change, b, true);
  }

  lemma FirstThrows(args: seq<EventArgs>, answers: nat -> Answer)
    requires args != [] && answers(0) == Threw
    ensures Called(args, answers) == [args[0]]
  {
  }

  /** Two handlers over an observed table. */
  lemma TwoEvents(n: Native, wrapper: Wrapper, a: Callback, b: Callback, name: Text)
    requires wrapper.change == [b, a] && wrapper.obj.session in n.store.engine.delegates
    requires n.store.engine.delegates[wrapper.obj.session].observers ==
             {TableWatcher(wrapper.obj.session, wrapper.obj.id)}
    ensures ChangeDelivered(n, wrapper, [FieldKey(name)], []) ==
            [ChangeArgs(b, wrapper.obj.session, [name]), ChangeArgs(a, wrapper.obj.session, [name])]
  {
    NamesInverse([FieldKey(name)], [name]);
    assert [name] + [] == [name];
  }

  lemma TwoHandlersHear(w: Runtime.World, p: Runtime.ProxyId, a: Callback, b: Callback)
    requires Inv(w) && Chain(w) && IsJoined(w, p) && Elements(WrapperOf(w, p).change) == {} && a != b
    ensures IsJoined(w.On(p, Change, a, true), p)
    ensures var w', session := w.On(p, Change, a, true).On(p, Change, b, true), WrapperOf(w, p).obj.session;
            && Owns(w', p, session) && WrapperOf(w', p).change == [b, a]
            && session in w'.native.store.engine.delegates
            && w'.native.store.engine.delegates[session].observers == {TableWatcher(session, WrapperOf(w', p).obj.id)}
  {
    var w1 := w.On(p, Change, a, true);
    TwoHandlers(w, p, a, b);
    ListenerRuns.OnInv(w, p, Change, a, true);
    ListenerRuns.OnInv(w1, p, Change, b, true);
    ListenerRuns.OnKeepsSession(w, p, Change, a, true);
    ListenerRuns.OnKeepsSession(w1, p, Change, b, true);
    var w' := w1.On(p, Change, b, true);
    assert ChainOk(w'.native, WrapperOf(w', p));
  }

  /** A run in which the second handler is missed: the one registered last is called first, and throws. */
  lemma SecondHandlerMissed(w: Runtime.World, p: Runtime.ProxyId, session: SessionId, a: Callback, b: Callback,
                            name: Text, answers: nat -> Answer)
    requires Runtime.Initial(w) && w.native.store.engine.isOpened && p in w.proxies && session != [] && a != b
    requires answers(0) == Threw
    ensures var w' := Runtime.Run(w, [Runtime.CallSession(p, session, ListenerRuns.Granted()),
                                      Runtime.CallOn(p, Change, a, true), Runtime.CallOn(p, Change, b, true)]);
            && IsJoined(w', p) && WrapperOf(w', p).change == [b, a]
            && var batch := ChangeDelivered(w'.native, WrapperOf(w', p), [FieldKey(name)], []);
               batch == [ChangeArgs(b, session, [name]), ChangeArgs(a, session, [name])]
               && Called(batch, answers) == [ChangeArgs(b, session, [name])]
  {
    var join := Runtime.CallSession(p, session, ListenerRuns.Granted());
    var onA, onB := Runtime.CallOn(p, Change, a, true), Runtime.CallOn(p, Change, b, true);
    ListenerRuns.RunOfThree(w, join, onA, onB);
    ListenerRuns.FirstJoin(w, p, session, Change);
    TwoHandlersHear(Runtime.Apply(w, join), p, a, b);
    var w' := Runtime.Run(w, [join, onA, onB]);
    TwoEvents(w'.native, WrapperOf(w', p), a, b, name);
    FirstThrows(ChangeDelivered(w'.native, WrapperOf(w', p), [FieldKey(name)], []), answers);
  }
}
