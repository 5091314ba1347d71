# Distributed data objects: a verified model

A Dafny model of the session-scoped distributed objects of this repository. A JavaScript proxy joins and
leaves sessions; each session is one table of the storage engine; handlers, subscriptions, sync status
and transport sessions are tracked in several layers that have to agree. The modules prove that they do,
over every run, and say exactly when they do not. `dafny verify dfyconfig.toml` checks everything.

## How it is built

Code that works by changing things is modelled by classes and methods with the same loops and fields.
Each method is proved equal to a function on values (`Engine`, `Store`, `Bound`, `World`, `Props`,
`Queue`, `Lock`, `Saver`), and the properties of whole runs are lemmas about those functions. Concurrent
code is a state machine whose events are the critical sections; a run is any sequence of possible events.
Over whole runs the native state is one value (`World`), and the heap is proved to move in the same way:
`RuntimeObjects.NativeSide` keeps one wrapper with linked lists per joined proxy, all over one store and
one notifier, and each call on it is equal to the call on the value.
What the database, the soft bus, the object service and the scheduler do is an argument of each event.

| module | models |
|---|---|
| `EventListeners`, `WatchChain` | the linked list of handlers, the change and status listeners, the wrapper and the notifier |
| `StorageEngine`, `ObjectStores` | tables, observers and the object cache |
| `Runtime`, `RuntimeObjects` | the calls of a proxy as functions on the world, and the same calls on the heap with many wrappers |
| `ListenerSteps`, `ListenerRuns`, `ProxiesApart`, `Hearing` | what on, off, assignments and setSessionId keep, step by step and over every run, for all proxies together and for each by itself |
| `ByteCodec`, `DistributedObjects`, `JsValues`, `JsObjects`, `DataRuns` | a property value from JavaScript to stored bytes and back, and through every run |
| `Restore` | the retry loop of `TriggerRestore` and its asynchronous completions |
| `ConditionLocks`, `SessionRendezvous` | the condition variable and the meeting of sender and session callback |
| `NodeCaches` | the cache of network ids and its two-part search |
| `SaveResume`, `SaveWaits` | saving a session with the object service and getting it back, and calls that wait for the service |
| `UvQueues`, `ChangeDelivery`, `DeliveryLocks` | the queue to the JavaScript thread, one event per handler, and the two mutexes on the way |

## What the code does that a reader might not expect

- The documentation promises that `off` without a callback deletes every listener (README_zh.md:44-46).
  The code empties the live list only: `deleteCallback` gets three arguments and returns early, so the
  next change of session restores every recorded callback (`ListenerRuns.BareOffIsUndone`). The model
  follows the code; `ListenerRuns.HandlersMatchRecord` gives the exact condition for agreement, and
  `ListenerRuns.BareOffRun` a run.
- When the database refuses to unregister an observer, leaving strands it in `observerMap_`, and the next
  join of that session is never told of changes (`ListenerRuns.LeaveBreaksChain`,
  `ListenerRuns.StrandedRejoin`, `ListenerRuns.StrandedRun`).
- null becomes undefined when a session is joined, because the copy tests with `!= undefined`. Keys are
  cut to 63 bytes and strings at a NUL; a typed array comes back as a plain object
  (`DataRuns.ArrivedUnchanged`, `JsValues.ShortKeysAreExact`, `JsValues.WriteIsFaithful`).
- The status of a put is ignored (js_distributedobject.cpp:131-169). A property whose put is refused
  during a join reads undefined (`DataRuns.JoinReads`). A refused write over an undefined property brings
  an older value back, because the undefined mark is deleted first (`JsValues.RefusedWriteRevives`).
- So is the status of a get, which makes two reads, of the type and of the value. When the value is refused
  as a session is left, the property stays undefined; when only the type is refused, it is taken for a
  string, and a number or bool becomes the string of its raw bytes (`DataRuns.LeaveReads`,
  `DataRuns.LeaveLosesBool`, `DataRuns.SetSessionIdPreserves`).
- A callback that throws ends its batch: the events of the handlers after it are deleted
  (`ChangeDelivery.AllCalledExactly`, `ChangeDelivery.SecondHandlerMissed`).
- A save whose callback never comes blocks every later save and revocation
  (`SaveWaits.BlockedForEver`, `SaveWaits.SecondCallBlocks`).
- The work callback of a watcher holds the mutex of its queue while JavaScript callbacks run, and the
  notifier holds its own while a status event takes that of the queue. A callback that changes status
  handlers or leaves its session while such an event comes in blocks for ever, and so does the event
  (`DeliveryLocks.DeadlockHappens`, `DeliveryLocks.DeadlockStays`).
- A sender that waits for a session whose id is closed before any opener posts waits for ever
  (`SessionRendezvous.CloseAbandons`, `SessionRendezvous.AbandonedForEver`, `SessionRendezvous.AbandonedRun`).
- A create whose object cannot be allocated leaves its table behind, and no create of the session
  succeeds while it is there (`ObjectStores.ApplyConsistent`, `ObjectStores.LostObject`).
- `TriggerRestore` always does its 5000 rounds, waits for no completion, and goes on after every session has
  succeeded (`Restore.LoopAlone`, `Restore.FinishedKeepsLooping`).
- `ToNodeID` gives up its lock between cache and list; a node cached in between is missed
  (`NodeCaches.MissesExactlyWhenCached`).

Strings are their UTF-8 bytes, doubles are 64-bit patterns, and an object or array is identified with its
JSON text. Callbacks and native objects are values compared by identity; a new object never reuses the
address of a deleted one.

## Model

| member | source | states |
|---|---|---|
| `ListenerRuns.HandlersMatchRecord` | interfaces/jskits/distributed_data_object.js:73-81 | after every run of on, off, assignments and setSessionId, for any proxies and any database answers, the live handlers of a joined proxy are duplicate-free and recorded for its objectId; they are all the recorded ones if and only if no callback is currently silenced by an argument-less off |
| `ListenerRuns.OnlyBareOffSilences` | frameworks/jskitsimpl/src/adaptor/js_distributedobjectstore.cpp:376-411 | without an argument-less off on that proxy and type nothing is ever silenced, so live and recorded handlers are equal as sets over any number of session changes |
| `ListenerRuns.RunHandlers` | interfaces/jskits/distributed_data_object.js:55-81 | over every run the live handlers are exactly the recorded ones minus the silenced ones |
| `ListenerRuns.BareOffIsUndone` | frameworks/jskitsimpl/src/adaptor/js_distributedobjectstore.cpp:367-416 | for change and for status: an argument-less off empties the live list and leaves the record as it is, and the next successful change of session brings back every recorded callback |
| `ListenerRuns.BareOffRun` | interfaces/jskits/distributed_data_object.js:55-81 | the run from the start in which that happens: join, on, argument-less off, join another session, with nothing refused; the handler is live again |
| `ListenerRuns.SwitchHandlers` | frameworks/jskitsimpl/src/adaptor/js_distributedobjectstore.cpp:287-318 | a successful change of session rebuilds both lists with exactly the recorded callbacks and leaves both records alone; a failed one leaves the proxy without a session |
| `ListenerRuns.SwitchOrder` | frameworks/jskitsimpl/src/adaptor/js_distributedobjectstore.cpp:287-318 | after a successful change of session both live lists hold the recorded callbacks, each once, in the reverse order of their first registration: the newest is called first |
| `ListenerRuns.OrderRun` | frameworks/jskitsimpl/src/adaptor/js_distributedobjectstore.cpp:39-52 | the run from the start that shows it: on a, on b, join; the live list is b, a |
| `ListenerRuns.OnHandlers` | interfaces/jskits/distributed_data_object.js:73-76 | on keeps the live handlers equal to the recorded ones without the silenced ones, where the callback given is no longer silenced |
| `ListenerRuns.OffHandlers` | interfaces/jskits/distributed_data_object.js:78-81 | off keeps that equality, where a callback given is no longer silenced and an argument-less off silences everything recorded |
| `ListenerRuns.OnRecord` | frameworks/jskitsimpl/src/adaptor/js_distributedobjectstore.cpp:39-52 | on appends the callback to the end of the record of its type, duplicates included, and leaves the other record as it is |
| `ListenerRuns.OnLive` | frameworks/jskitsimpl/src/adaptor/js_watcher.cpp:235-252 | on adds the callback to the live list of its type and to no other |
| `ListenerRuns.OffRecord` | frameworks/jskitsimpl/src/adaptor/js_distributedobjectstore.cpp:68-88 | off takes every occurrence of a callback given out of the record of its type and keeps the rest in order; without one the record stays |
| `ListenerRuns.RunRecords` | frameworks/jskitsimpl/src/adaptor/js_distributedobjectstore.cpp:82-86 | over every run no object has an empty entry in a callback record: the entry goes with its last callback |
| `ListenerRuns.OffLive` | frameworks/jskitsimpl/src/adaptor/js_watcher.cpp:204-233 | off takes a callback given, or every callback, out of the live list of its type only |
| `ListenerRuns.OthersHandlers` | interfaces/jskits/distributed_data_object.js:55-81 | a call on one proxy changes neither the form nor the record of another |
| `ListenerRuns.WatchChainAgrees` | frameworks/jskitsimpl/src/adaptor/js_watcher.cpp:269-315 | while the database accepts register and unregister calls: for every joined proxy after every run, change handlers present, isWatched, object in watchers_, session in observerMap_ and observer on the delegate are equivalent, and observerMap_ never outlives delegates_ |
| `ListenerRuns.RunInv` | frameworks/jskitsimpl/src/adaptor/js_distributedobjectstore.cpp:158-184 | over every run: objects, tables, notifier entries and wrappers stay consistent whatever the database answers, and the watch chain holds if it accepts all register and unregister calls |
| `ListenerRuns.NotifierAgrees` | frameworks/jskitsimpl/src/adaptor/js_watcher.cpp:323-344 | over every run and whatever the database answers, every joined proxy with status handlers is in NotifierImpl::watchers_ with its own watcher, and every entry belongs to a joined proxy of that session that has status handlers |
| `ListenerRuns.OnInv` | frameworks/jskitsimpl/src/adaptor/js_object_wrapper.cpp:40-51 | on keeps the invariants; it keeps the watch chain if and only if registration is accepted, or it is not the first change handler of a joined proxy |
| `ListenerRuns.OffInv` | frameworks/jskitsimpl/src/adaptor/js_object_wrapper.cpp:53-62 | off keeps the invariants; it keeps the watch chain if and only if unregistration is accepted, or it does not remove the last change handler of a joined proxy |
| `ListenerRuns.SetPropertyInv` | interfaces/jskits/distributed_data_object.js:152-170 | assigning a property keeps the invariants and the watch chain |
| `ListenerRuns.LeaveInv` | interfaces/jskits/distributed_data_object.js:184-201 | leaving keeps the invariants, leaves the proxy without a session, and keeps the watch chain if unregistration is accepted |
| `ListenerRuns.CreateKeeps` | frameworks/jskitsimpl/src/adaptor/js_distributedobjectstore.cpp:90-118 | a successful create yields an empty table, a new address, handlers equal to the record, and an intact watch chain unless an observer of an earlier table was left behind |
| `ListenerRuns.JoinInv` | interfaces/jskits/distributed_data_object.js:117-182 | joining keeps the invariants and returns true if and only if the proxy then owns the session; it keeps the watch chain if and only if it fails, no change handler is recorded, or some registration of the replay is accepted |
| `ListenerRuns.SetSessionIdResult` | interfaces/jskits/distributed_data_object.js:55-71 | setSessionId returns true if and only if the proxy ends in the requested non-empty session; otherwise it ends without any session |
| `ListenerRuns.SetSessionIdSucceeds` | frameworks/jskitsimpl/src/adaptor/js_distributedobjectstore.cpp:90-118 | a change to another session succeeds if and only if, in the state before the call, the store is open and has no table of that session, and the database and the allocation answer yes |
| `ListenerRuns.SetSessionIdInv` | interfaces/jskits/distributed_data_object.js:55-71 | setSessionId keeps the invariants, and the watch chain if the database accepts all its register and unregister calls |
| `ListenerRuns.LeaveBreaksChain` | frameworks/innerkitsimpl/src/adaptor/flat_object_storage_engine.cpp:292-319 | leaving breaks the watch chain if and only if there is a change handler and the database refuses to unregister the observer |
| `ListenerRuns.StaleObserverSilencesRejoin` | frameworks/innerkitsimpl/src/adaptor/flat_object_storage_engine.cpp:274-277 | an observer left behind in observerMap_ makes a join of that session replay its handlers as watched although the new table has no observer |
| `ListenerRuns.StrandedRejoin` | frameworks/jskitsimpl/src/adaptor/js_distributedobjectstore.cpp:158-184 | leaving with a refused unregistration and then joining the same session gives exactly that: all recorded handlers live and watched, and no observer on the table |
| `ListenerRuns.StrandedRun` | interfaces/jskits/distributed_data_object.js:55-81 | the run from the start in which that happens: join, on, leave with a refused unregistration, join again |
| `ListenerRuns.LeftSessionHasNoOwner` | frameworks/jskitsimpl/src/adaptor/js_distributedobjectstore.cpp:158-184 | after leaving no proxy owns the left session |
| `Hearing.HearsExactly` | frameworks/innerkitsimpl/src/adaptor/flat_object_storage_engine.cpp:263-319 | after every run, whatever the database answers to any proxy: the table of a joined proxy has that proxy's observer, and no other, if and only if the proxy hears, which is a function of its own registrations, its last handlers and what was left in observerMap_ when it joined; and the five subscription records agree if and only if it hears with handlers or is deaf without |
| `Hearing.RunEar` | frameworks/jskitsimpl/src/adaptor/js_watcher.cpp:269-315 | over every run isWatched, observerMap_ and the observers of the table are what the history of the proxy says |
| `Hearing.StepEar` | frameworks/jskitsimpl/src/adaptor/js_watcher.cpp:269-315 | the same for one call on any proxy |
| `Hearing.AddWatchEar` | frameworks/jskitsimpl/src/adaptor/js_watcher.cpp:269-286 | a new handler of a deaf wrapper registers if accepted; one of a wrapper with a stale observer only seems to |
| `Hearing.DeleteWatchEar` | frameworks/jskitsimpl/src/adaptor/js_watcher.cpp:288-315 | an accepted unregistration of the last handler makes the wrapper deaf, and clears a stale observer too |
| `Hearing.ReplayEar` | frameworks/jskitsimpl/src/adaptor/js_distributedobjectstore.cpp:287-318 | replaying a record: one accepted registration is enough for a deaf wrapper, none reaches the table of a stale one |
| `ProxiesApart.CallStaysApart` | interfaces/jskits/distributed_data_object.js:55-81 | a call on one proxy leaves the table, the observers, observerMap_ and watchers_ of every other joined proxy as they are |
| `ListenerSteps.AddWatchKeeps` | frameworks/jskitsimpl/src/adaptor/js_watcher.cpp:269-286 | adding a handler puts it in front of its own list only, keeps the object, its table and every other session as they are, whatever the database answers |
| `ListenerSteps.AddWatchChain` | frameworks/jskitsimpl/src/adaptor/js_watcher.cpp:269-286 | adding keeps the watch chain if and only if registration is accepted or it is not the first change handler |
| `ListenerSteps.DeleteWatchKeeps` | frameworks/jskitsimpl/src/adaptor/js_watcher.cpp:288-315 | deleting removes exactly that handler, or all, from its own list only and touches no other session |
| `ListenerSteps.DeleteWatchChain` | frameworks/jskitsimpl/src/adaptor/js_watcher.cpp:288-315 | deleting keeps the watch chain if and only if unregistration is accepted or the last change handler stays |
| `ListenerSteps.RestoreElements` | frameworks/jskitsimpl/src/adaptor/js_distributedobjectstore.cpp:287-318 | replaying a record with duplicates yields each recorded callback in the list |
| `ListenerSteps.RestoreLists` | frameworks/jskitsimpl/src/adaptor/js_distributedobjectstore.cpp:287-318 | replaying a record on an empty list puts one callback after the other in front, each once |
| `ListenerSteps.RestoreChange` | frameworks/jskitsimpl/src/adaptor/js_distributedobjectstore.cpp:287-318 | replaying the change record on a new wrapper keeps the watch chain if and only if the record is empty or some of its registrations is accepted; otherwise the wrapper has handlers and is not watched |
| `ListenerSteps.RestoreBothChain` | frameworks/jskitsimpl/src/adaptor/js_distributedobjectstore.cpp:287-318 | the same for both records: the status handlers play no part |
| `ListenerSteps.RestoreBoth` | frameworks/jskitsimpl/src/adaptor/js_distributedobjectstore.cpp:287-318 | both lists of a new wrapper end with exactly the recorded callbacks |
| `ListenerSteps.NewObjectOk` | frameworks/innerkitsimpl/src/adaptor/distributed_object_store_impl.cpp:63-77 | a new object has an address and a table of its own, both empty, and nothing else changes |
| `ListenerSteps.FailedCreate` | frameworks/innerkitsimpl/src/adaptor/distributed_object_store_impl.cpp:63-77 | a failed create leaves at most a table behind |
| `ListenerSteps.DestroyKeeps` | frameworks/jskitsimpl/src/adaptor/js_distributedobjectstore.cpp:179-182 | destroying removes the notifier entry and touches no other session; the object and its table are gone if and only if the database accepts the close |
| `ListenerSteps.DestroySubscription` | frameworks/jskitsimpl/src/adaptor/js_distributedobjectstore.cpp:179-182 | destroying leaves the subscription records behind if and only if there was one and the database refused to unregister it |
| `ListenerSteps.JoinedUnclaimed` | frameworks/innerkitsimpl/src/adaptor/distributed_object_store_impl.cpp:63-77 | two joined proxies never share an object |
| `EventListeners.EventListener.Find` | frameworks/jskitsimpl/src/adaptor/js_watcher.cpp:180-193 | returns the last node holding the handler, null if and only if there is none |
| `EventListeners.EventListener.Add` | frameworks/jskitsimpl/src/adaptor/js_watcher.cpp:235-252 | the heap list stays acyclic and duplicate-free; an absent handler is prepended, a present one refused, and the result says which |
| `EventListeners.EventListener.Del` | frameworks/jskitsimpl/src/adaptor/js_watcher.cpp:204-233 | unlinks every node holding the handler (head, middle, consecutive), keeps the order of the rest, and returns true if and only if the list is then empty |
| `EventListeners.EventListener.Clear` | frameworks/jskitsimpl/src/adaptor/js_watcher.cpp:195-202 | empties the list |
| `EventListeners.SurvivorsAll` | frameworks/jskitsimpl/src/adaptor/js_watcher.cpp:204-233 | the nodes that survive Del hold exactly the contents without the handler |
| `Sequences.WithoutKeepsOrder` | frameworks/jskitsimpl/src/adaptor/js_watcher.cpp:204-233 | what Del leaves keeps every other element, in the same relative order |
| `Sequences.WithoutNoDup` | frameworks/jskitsimpl/src/adaptor/js_watcher.cpp:204-233 | what Del leaves stays duplicate-free |
| `Sequences.ReplayedNewestFirst` | frameworks/jskitsimpl/src/adaptor/js_watcher.cpp:235-252 | putting callbacks in front one after the other gives each once, in the reverse order of first occurrences |
| `WatchChain.ChangeEventListener.Add` | frameworks/jskitsimpl/src/adaptor/js_watcher.cpp:269-286 | moves list, isWatched_ and store exactly as specified: registers only when not yet watched, remembers success, adds in any case |
| `WatchChain.ChangeEventListener.Del` | frameworks/jskitsimpl/src/adaptor/js_watcher.cpp:288-301 | unregisters only when the list has become empty and was watched; the result says whether it is empty |
| `WatchChain.ChangeEventListener.Clear` | frameworks/jskitsimpl/src/adaptor/js_watcher.cpp:303-315 | empties the list and unregisters when watched |
| `WatchChain.StatusEventListener.Add` | frameworks/jskitsimpl/src/adaptor/js_watcher.cpp:323-328 | enters the watcher in the notifier and the handler in the list |
| `WatchChain.StatusEventListener.Del` | frameworks/jskitsimpl/src/adaptor/js_watcher.cpp:330-338 | takes the watcher out of the notifier exactly when the list has become empty |
| `WatchChain.StatusEventListener.Clear` | frameworks/jskitsimpl/src/adaptor/js_watcher.cpp:340-344 | empties the list and takes the watcher out of the notifier |
| `WatchChain.JSWatcher.On` | frameworks/jskitsimpl/src/adaptor/js_watcher.cpp:42-50 | changes the listener of that type only; an unknown type changes nothing |
| `WatchChain.JSWatcher.Off` | frameworks/jskitsimpl/src/adaptor/js_watcher.cpp:52-64 | with a handler deletes it, without one clears, in the listener of that type only |
| `WatchChain.JSObjectWrapper.AddWatch` | frameworks/jskitsimpl/src/adaptor/js_object_wrapper.cpp:40-51 | creates the watcher on first use and adds the handler, over the real heap lists |
| `WatchChain.JSObjectWrapper.DeleteWatch` | frameworks/jskitsimpl/src/adaptor/js_object_wrapper.cpp:53-62 | does nothing without a watcher, otherwise deletes or clears |
| `WatchChain.NothingToDelete` | frameworks/jskitsimpl/src/adaptor/js_object_wrapper.cpp:53-62 | without a watcher nothing changes, neither lists nor notifier |
| `WatchChain.JSObjectWrapper.AddUndefined` | frameworks/jskitsimpl/src/adaptor/js_object_wrapper.cpp:74-80 | appends the name unless it is there |
| `WatchChain.JSObjectWrapper.DeleteUndefined` | frameworks/jskitsimpl/src/adaptor/js_object_wrapper.cpp:82-89 | removes exactly the first equal name |
| `WatchChain.JSObjectWrapper.IsUndefined` | frameworks/jskitsimpl/src/adaptor/js_object_wrapper.cpp:64-72 | found if and only if the name is in the list |
| `WatchChain.NotifierImpl.AddWatcher` | frameworks/jskitsimpl/src/adaptor/notifier_impl.cpp:45-49 | replaces the entry of the session and no other |
| `WatchChain.NotifierImpl.DelWatcher` | frameworks/jskitsimpl/src/adaptor/notifier_impl.cpp:51-55 | removes the entry of the session and no other |
| `RuntimeObjects.EraseCallback` | frameworks/jskitsimpl/src/adaptor/js_distributedobjectstore.cpp:68-88 | the in-place erase loop removes every equal callback from the recorded list, and the entry with the last one |
| `RuntimeObjects.RestoreWatchers` | frameworks/jskitsimpl/src/adaptor/js_distributedobjectstore.cpp:287-318 | the replay loop adds the recorded callbacks in order over the heap lists, each with its own registration answer, and touches no table entry |
| `RuntimeObjects.ReadAll` | interfaces/jskits/distributed_data_object.js:190-197 | the loop reads every property through its accessor, each with its own answers of the database |
| `RuntimeObjects.CopyProperties` | interfaces/jskits/distributed_data_object.js:171-175 | the loop writes every property that is not loosely undefined into the joined object |
| `RuntimeObjects.ClearWatches` | frameworks/jskitsimpl/src/adaptor/js_object_wrapper.cpp:53-62 | both listener lists are cleared, with the subscription and the notifier entry |
| `RuntimeObjects.Furnish` | frameworks/jskitsimpl/src/adaptor/js_distributedobjectstore.cpp:90-118 | a new wrapper gets its change handlers, its status handlers and its properties |
| `RuntimeObjects.NativeSide.Listen` | frameworks/jskitsimpl/src/adaptor/js_object_wrapper.cpp:40-51 | a handler is added to one of many heap wrappers over the shared store and notifier; the wrappers of all other proxies stay as they are |
| `RuntimeObjects.NativeSide.Unlisten` | frameworks/jskitsimpl/src/adaptor/js_object_wrapper.cpp:53-62 | a handler, or all, is deleted from one wrapper; the others stay as they are |
| `RuntimeObjects.NativeSide.Set` | frameworks/jskitsimpl/src/adaptor/js_distributedobject.cpp:69-101 | a property is written through one wrapper; the others stay as they are |
| `RuntimeObjects.NativeSide.Build` | frameworks/jskitsimpl/src/adaptor/js_distributedobjectstore.cpp:90-118 | a wrapper with fresh lists beside those of the other proxies, or none if the object cannot be created |
| `RuntimeObjects.NativeSide.DestroyObject` | frameworks/jskitsimpl/src/adaptor/js_distributedobjectstore.cpp:158-184 | clears both lists of one wrapper and deletes its object and table; the other proxies keep theirs |
| `RuntimeObjects.NativeSide.CallOn` | interfaces/jskits/distributed_data_object.js:73-76 | on over the heap wrappers moves the world exactly as the specification of runs says, duplicates in the record included |
| `RuntimeObjects.NativeSide.CallOff` | interfaces/jskits/distributed_data_object.js:78-81 | off likewise; the record changes only when a callback is given |
| `RuntimeObjects.NativeSide.CallSet` | interfaces/jskits/distributed_data_object.js:152-170 | assigning a property likewise, locally or through the accessor of the joined object |
| `RuntimeObjects.NativeSide.LeaveSession` | interfaces/jskits/distributed_data_object.js:184-201 | leaving likewise: every property becomes local with the value read last, then handlers are cleared and the table deleted |
| `RuntimeObjects.NativeSide.JoinSession` | interfaces/jskits/distributed_data_object.js:117-182 | joining likewise: creates the object, restores its handlers and copies every property that is not loosely undefined |
| `RuntimeObjects.NativeSide.SetSessionId` | interfaces/jskits/distributed_data_object.js:55-71 | setSessionId likewise: an empty id leaves, the same id does nothing, another id leaves and joins; the result is that of the join |
| `DataRuns.RunReads` | interfaces/jskits/distributed_data_object.js:129-175 | while nothing is written from outside (no remote device, no resume): over every run, with any calls on any proxies, any values and any answers to creating, closing, reading and writing, a property reads what its own history gives, which mentions no table, no other property and no other proxy |
| `DataRuns.ReadsLastWritten` | interfaces/jskits/distributed_data_object.js:129-175 | with the same premise: if only faithful values are written to the property and none of its writes and reads is refused, then after the run it reads as the value written last, except that null is forgotten by a successful join |
| `DataRuns.SetSessionIdReads` | interfaces/jskits/distributed_data_object.js:55-71 | what a property reads after setSessionId for any values and answers: the same if the proxy stays, the last value read if it leaves or fails to join, and after a join what could be carried, or undefined if its put was refused |
| `DataRuns.SetSessionIdPreserves` | interfaces/jskits/distributed_data_object.js:55-71 | for any answers, read off the state before the call: setSessionId preserves a property if and only if the proxy stays, the value is undefined, or the read on leaving keeps it and, if the new session can be joined, its put is accepted and the value is faithful and not null |
| `DataRuns.RunPreserves` | interfaces/jskits/distributed_data_object.js:55-71 | the same after every run, where the stored bytes are those of the history of the property |
| `DataRuns.RunCellOk` | frameworks/jskitsimpl/src/adaptor/js_distributedobject.cpp:131-169 | after every run the stored bytes of a property are those of a string, bool or double and long enough to be read |
| `DataRuns.ArrivedUnchanged` | interfaces/jskits/distributed_data_object.js:172-174 | a value survives being carried into a new table if and only if it is faithful and not null |
| `DataRuns.JoinReads` | interfaces/jskits/distributed_data_object.js:117-182 | after a successful join a property reads as before if and only if it is undefined, or its put is accepted and its value is faithful and not null; after a failed one always |
| `DataRuns.LeaveReads` | interfaces/jskits/distributed_data_object.js:190-197 | leaving keeps a property if and only if nothing is stored or shown for it, both reads of it are answered, or it is a string and the value read is answered; otherwise it becomes undefined without the value read, and a string, object or null instead of a number or bool without the type read |
| `DataRuns.LeaveLosesBool` | interfaces/jskits/distributed_data_object.js:184-201 | the runs in which that happens: join, assign a bool, leave with one of the two reads refused; it is undefined, or a string of one byte |
| `DataRuns.SetReads` | interfaces/jskits/distributed_data_object.js:152-170 | an assigned value reads back if and only if the proxy is outside a session, it is undefined, it is accepted and faithful, or it is refused and what is stored reads the same; no other property of the proxy changes |
| `DataRuns.MigrateReads` | interfaces/jskits/distributed_data_object.js:129-175 | copying the properties into the empty table makes each one readable that the database takes, and leaves the others undefined, whatever the order and the other keys |
| `DataRuns.OtherProxiesUntouched` | interfaces/jskits/distributed_data_object.js:55-81 | a call on one proxy changes no property of any other proxy, whatever the database answers |
| `DataRuns.ShortKeysOk` | frameworks/jskitsimpl/src/adaptor/js_distributedobject.cpp:28 | distinct keys shorter than 64 bytes and free of NUL are kept apart |
| `DataRuns.StepReads` | interfaces/jskits/distributed_data_object.js:129-175 | each single call moves what a property is worth exactly as specified, refused writes and reads included |
| `JsValues.ReadAfterWrite` | frameworks/jskitsimpl/src/adaptor/js_distributedobject.cpp:39-101 | for all keys, values and answers: a key that native code cannot tell apart reads the written value as it comes back; if the value is refused or cannot be stored, what was stored before shows again; every other key is untouched |
| `JsValues.StoredForm` | interfaces/jskits/distributed_data_object.js:150-170 | the stored bytes for each kind of value: type byte 2 and eight big-endian bytes, type byte 1 and one byte, type byte 0 and a text after [STRING] or [COMPLEX] up to its first NUL, nothing for undefined and what cannot be stored; null is the text null after [COMPLEX] |
| `JsValues.RawBytes` | frameworks/jskitsimpl/src/adaptor/js_distributedobject.cpp:157-163 | raw bytes are stored after type byte 3, unless there are none |
| `JsValues.ForeignForms` | frameworks/jskitsimpl/src/adaptor/js_distributedobject.cpp:171-217 | bytes of other writers: a complex value comes back with its type byte, an unknown type and a value that is too short as undefined, any non-zero bool as true, [NULL] as null, an untagged text as itself |
| `JsValues.StringifyGrows` | interfaces/jskits/distributed_data_object.js:154-156 | the text of a typed array: one quoted decimal index, a colon and a decimal value per byte, commas between, braces around |
| `JsValues.DecimalMeaning` | interfaces/jskits/distributed_data_object.js:154-156 | decimal digits denote the number and have no leading zero |
| `JsValues.TypedArrayReadsBack` | interfaces/jskits/distributed_data_object.js:141-142 | a typed array comes back as the object of that text, whole |
| `JsValues.WriteIsFaithful` | interfaces/jskits/distributed_data_object.js:134-170 | a written value reads back unchanged if and only if it is undefined, or it is accepted and has no embedded NUL and is not a typed array, function, bigint or the JSON text null, or it is refused and the stored bytes read the same |
| `JsValues.WriteStores` | frameworks/jskitsimpl/src/adaptor/js_distributedobject.cpp:89-101 | a write changes the stored bytes and the undefined mark of its own key only; an undefined hides the stored bytes without erasing them |
| `JsValues.RefusedWriteRevives` | frameworks/jskitsimpl/src/adaptor/js_distributedobject.cpp:97-98 | write a, write undefined, have the write of b refused: the property reads a |
| `JsValues.RefusedValue` | frameworks/jskitsimpl/src/adaptor/js_distributedobject.cpp:171-217 | a property whose value read is refused reads undefined |
| `JsValues.RefusedType` | frameworks/jskitsimpl/src/adaptor/js_distributedobject.cpp:171-217 | a property whose type read is refused reads as the string of its stored bytes: the same value if and only if a string is stored |
| `JsValues.RefusedTypeOfBool` | frameworks/jskitsimpl/src/adaptor/js_distributedobject.cpp:174-180 | a bool then reads as the string of one byte |
| `JsValues.StoredReadsBack` | interfaces/jskits/distributed_data_object.js:134-170 | tag, type byte and bytes decode to the value cut at its first NUL, for every storable value, including strings that start with a tag |
| `JsValues.ShortKeysAreExact` | frameworks/jskitsimpl/src/adaptor/js_distributedobject.cpp:47-52 | a key is seen unchanged by native code if and only if it is shorter than 64 bytes and free of NUL |
| `JsValues.LongKeysCollide` | frameworks/jskitsimpl/src/adaptor/js_distributedobject.cpp:28 | keys that agree in their first 63 bytes are one key |
| `JsValues.LongKeysCollideExactly` | frameworks/jskitsimpl/src/adaptor/js_distributedobject.cpp:28 | long keys free of NUL are one key if and only if they agree in their first 63 bytes |
| `JsValues.NativeKeyIsStart` | frameworks/jskitsimpl/src/adaptor/js_distributedobject.cpp:47-52 | what native code sees of any key is its longest start with at most 63 bytes and no NUL |
| `JsValues.CStringNoNul` | frameworks/jskitsimpl/src/common/js_util.cpp:68-69 | a string survives the copy through a C buffer if and only if it has no NUL |
| `JsObjects.JSPut` | frameworks/jskitsimpl/src/adaptor/js_distributedobject.cpp:69-101 | put through wrapper, typed object and engine has exactly the specified effect on table and undefined list, also without an open store or a table |
| `JsObjects.JSGet` | frameworks/jskitsimpl/src/adaptor/js_distributedobject.cpp:40-66 | get through wrapper, typed object and engine gives exactly the specified value, whichever of its two reads the database refuses |
| `JsObjects.DoPut` | frameworks/jskitsimpl/src/adaptor/js_distributedobject.cpp:131-169 | dispatch on the JavaScript type stores the specified bytes, for any neighbouring memory of the bool |
| `JsObjects.DoGet` | frameworks/jskitsimpl/src/adaptor/js_distributedobject.cpp:171-217 | dispatch on the stored type byte, that of a string if it cannot be read; a missing key, a refused read or a value that is too short gives undefined |
| `JsObjects.CopyCString` | frameworks/jskitsimpl/src/common/js_util.cpp:61-69 | the copy ends at the first NUL |
| `ByteCodec.PutNum` | frameworks/innerkitsimpl/src/adaptor/distributed_object_impl.cpp:27-38 | for every width up to 8, offset and prior buffer: the window holds the value modulo 256^width, bytes outside are kept or zero, the length is max(old, offset+width) |
| `ByteCodec.GetNum` | frameworks/innerkitsimpl/src/adaptor/distributed_object_impl.cpp:40-54 | reads back the number in the window, or ERR_DATA_LEN exactly when the buffer is too short |
| `ByteCodec.ToBigEndianMeaning` | frameworks/innerkitsimpl/src/adaptor/distributed_object_impl.cpp:34-37 | the bytes written mean the value modulo 256^width: with GetNum, the round trip of every width |
| `ByteCodec.BigEndianInjective` | frameworks/innerkitsimpl/src/adaptor/distributed_object_impl.cpp:34-37 | no other bytes of that width have this meaning |
| `ByteCodec.LowBytesDecide` | frameworks/innerkitsimpl/src/adaptor/distributed_object_impl.cpp:34-37 | two 64-bit loads are written alike if and only if they agree in their low width bytes |
| `ByteCodec.ToBigEndianAt` | frameworks/innerkitsimpl/src/adaptor/distributed_object_impl.cpp:36 | byte i is the load shifted right by (width-i-1)*8 and cut to a byte |
| `ByteCodec.DoubleRoundTrip` | frameworks/innerkitsimpl/src/adaptor/distributed_object_impl.cpp:56-69 | a stored double has the double tag and decodes to the same 64 bits |
| `ByteCodec.BooleanRoundTrip` | frameworks/innerkitsimpl/src/adaptor/distributed_object_impl.cpp:71-84 | a stored bool has the bool tag and decodes to itself |
| `ByteCodec.StringRoundTrip` | frameworks/innerkitsimpl/include/common/string_utils.h:49-61 | a stored string decodes to itself if and only if it is not empty; the empty string is rejected |
| `DistributedObjects.DistributedObjectImpl.PutDouble` | frameworks/innerkitsimpl/src/adaptor/distributed_object_impl.cpp:56-69 | stores tag and eight big-endian bytes under the prefixed key |
| `DistributedObjects.DistributedObjectImpl.PutBoolean` | frameworks/innerkitsimpl/src/adaptor/distributed_object_impl.cpp:71-84 | stores tag and one byte whatever the seven bytes loaded beside the bool are |
| `DistributedObjects.DistributedObjectImpl.PutString` | frameworks/innerkitsimpl/src/adaptor/distributed_object_impl.cpp:86-100 | stores tag and text |
| `DistributedObjects.DistributedObjectImpl.PutComplex` | frameworks/innerkitsimpl/src/adaptor/distributed_object_impl.cpp:176-189 | stores tag and bytes |
| `DistributedObjects.DistributedObjectImpl.GetDouble` | frameworks/innerkitsimpl/src/adaptor/distributed_object_impl.cpp:102-116 | succeeds exactly for a value that is read and long enough, with the decoded bits; ERR_DATA_LEN if it is too short, else the status of the read: store closed, no table, or what the database answers |
| `DistributedObjects.DistributedObjectImpl.GetBoolean` | frameworks/innerkitsimpl/src/adaptor/distributed_object_impl.cpp:118-133 | likewise for a bool, with the same failing statuses |
| `DistributedObjects.DistributedObjectImpl.GetString` | frameworks/innerkitsimpl/src/adaptor/distributed_object_impl.cpp:135-148 | likewise for a string, which must not be empty, with the same failing statuses |
| `DistributedObjects.DistributedObjectImpl.GetComplex` | frameworks/innerkitsimpl/src/adaptor/distributed_object_impl.cpp:191-199 | gives the stored bytes, tag included, or the status of the read |
| `DistributedObjects.DistributedObjectImpl.GetType` | frameworks/innerkitsimpl/src/adaptor/distributed_object_impl.cpp:150-164 | gives the stored tag |
| `DistributedObjects.ComplexComesBackTagged` | frameworks/innerkitsimpl/src/adaptor/distributed_object_impl.cpp:176-199 | after PutComplex the stored bytes, which GetComplex returns as they are, are never those that were put: the tag byte is in front |
| `DistributedObjects.FieldKeyInjective` | frameworks/innerkitsimpl/include/common/bytes.h:24 | prefixed keys are equal if and only if the keys are |
| `DistributedObjects.FieldKeyForm` | frameworks/innerkitsimpl/include/common/bytes.h:24 | a property key is p_ followed by the whole name |
| `ObjectStores.RunConsistent` | frameworks/innerkitsimpl/src/adaptor/distributed_object_store_impl.cpp:36-94 | over every run of creates and deletes that never loses an object, the sessions in objects_ are pairwise distinct and equal the keys of delegates_ |
| `ObjectStores.ApplyConsistent` | frameworks/innerkitsimpl/src/adaptor/distributed_object_store_impl.cpp:63-94 | a create or delete keeps that if and only if it does not make a table whose object cannot be allocated |
| `ObjectStores.CreateObjectExactly` | frameworks/innerkitsimpl/src/adaptor/distributed_object_store_impl.cpp:63-77 | an object is made if and only if the store is open, the session has no table, and both answers are yes; it is the last of the cache and has a new address, and otherwise the cache stays |
| `ObjectStores.DeleteObjectExactly` | frameworks/innerkitsimpl/src/adaptor/distributed_object_store_impl.cpp:79-94 | the status is that of deleting the table; the objects of the session go exactly with it |
| `ObjectStores.WatchExactly` | frameworks/innerkitsimpl/src/adaptor/distributed_object_store_impl.cpp:110-133 | a known object gets ERR_EXIST; any other is recorded if and only if registering its own watcher succeeds, with that status |
| `ObjectStores.UnWatchExactly` | frameworks/innerkitsimpl/src/adaptor/distributed_object_store_impl.cpp:135-153 | the status is that of unregistering; the object is forgotten if and only if that succeeds |
| `ObjectStores.GetFindsTables` | frameworks/innerkitsimpl/src/adaptor/distributed_object_store_impl.cpp:96-108 | after such a run a session has a cached object, and so can be got, if and only if it has a table, and it has only one |
| `ObjectStores.LostObject` | frameworks/innerkitsimpl/src/adaptor/distributed_object_store_impl.cpp:63-77 | a first create whose object cannot be allocated: the table is there, the session cannot be got, and while it is there no create of the session succeeds |
| `ObjectStores.RemainingMembers` | frameworks/innerkitsimpl/src/adaptor/distributed_object_store_impl.cpp:48-61 | exactly the objects of other sessions remain |
| `ObjectStores.RemainingConcat` | frameworks/innerkitsimpl/src/adaptor/distributed_object_store_impl.cpp:48-61 | each object is kept or dropped by its own session alone, and the rest keeps its order |
| `ObjectStores.DistributedObjectStoreImpl.RemoveCacheObject` | frameworks/innerkitsimpl/src/adaptor/distributed_object_store_impl.cpp:48-61 | the in-place erase loop removes exactly the objects of the session and keeps the order of the rest |
| `ObjectStores.DistributedObjectStoreImpl.CacheObject` | frameworks/innerkitsimpl/src/adaptor/distributed_object_store_impl.cpp:36-46 | appends the new object unless it cannot be allocated |
| `ObjectStores.DistributedObjectStoreImpl.CreateObject` | frameworks/innerkitsimpl/src/adaptor/distributed_object_store_impl.cpp:63-77 | makes the table, then the object; a failed table makes no object |
| `ObjectStores.DistributedObjectStoreImpl.DeleteObject` | frameworks/innerkitsimpl/src/adaptor/distributed_object_store_impl.cpp:79-94 | removes the objects only after the table has been deleted |
| `ObjectStores.DistributedObjectStoreImpl.Get` | frameworks/innerkitsimpl/src/adaptor/distributed_object_store_impl.cpp:96-108 | succeeds if and only if an object of the session is cached, and gives one |
| `ObjectStores.DistributedObjectStoreImpl.Watch` | frameworks/innerkitsimpl/src/adaptor/distributed_object_store_impl.cpp:110-133 | refuses an object that is in watchers_, records one after a successful registration |
| `ObjectStores.DistributedObjectStoreImpl.UnWatch` | frameworks/innerkitsimpl/src/adaptor/distributed_object_store_impl.cpp:135-153 | forgets the object only after a successful unregistration |
| `StorageEngine.FlatObjectStorageEngine.CreateTable` | frameworks/innerkitsimpl/src/adaptor/flat_object_storage_engine.cpp:79-136 | for a database that gives a delegate: an empty table for a new key, or the status of the failure; the pull that follows is left out |
| `StorageEngine.FlatObjectStorageEngine.DeleteTable` | frameworks/innerkitsimpl/src/adaptor/flat_object_storage_engine.cpp:221-241 | removes the table and leaves observerMap_ alone |
| `StorageEngine.FlatObjectStorageEngine.UpdateItem` | frameworks/innerkitsimpl/src/adaptor/flat_object_storage_engine.cpp:172-191 | changes one entry of one table |
| `StorageEngine.FlatObjectStorageEngine.UpdateItems` | frameworks/innerkitsimpl/src/adaptor/flat_object_storage_engine.cpp:193-219 | an empty batch is refused; otherwise every given entry is stored and all others are kept |
| `StorageEngine.FlatObjectStorageEngine.GetItem` | frameworks/innerkitsimpl/src/adaptor/flat_object_storage_engine.cpp:243-261 | the stored value, or the status of the failure, which the database may answer for a stored key too |
| `StorageEngine.FlatObjectStorageEngine.GetItems` | frameworks/innerkitsimpl/src/adaptor/flat_object_storage_engine.cpp:382-405 | the copying loop yields exactly the table |
| `StorageEngine.FlatObjectStorageEngine.RegisterObserver` | frameworks/innerkitsimpl/src/adaptor/flat_object_storage_engine.cpp:263-290 | an observer already recorded for the key counts as success without reaching the table |
| `StorageEngine.FlatObjectStorageEngine.UnRegisterObserver` | frameworks/innerkitsimpl/src/adaptor/flat_object_storage_engine.cpp:292-319 | removes table observer and record together, or neither |
| `StorageEngine.CreateTableExactly` | frameworks/innerkitsimpl/src/adaptor/flat_object_storage_engine.cpp:79-112 | success if and only if the store is open, the key is new and the database agrees; the table is empty and unobserved; ERR_DB_NOT_INIT, ERR_EXIST or ERR_DB_GETKV_FAIL otherwise, with nothing changed |
| `StorageEngine.DeleteTableExactly` | frameworks/innerkitsimpl/src/adaptor/flat_object_storage_engine.cpp:221-241 | success if and only if open, present and agreed; only that table goes, observerMap_ stays; the status of each failure |
| `StorageEngine.UpdateItemExactly` | frameworks/innerkitsimpl/src/adaptor/flat_object_storage_engine.cpp:172-191 | success likewise; one entry of one table changes and its observers stay; the status of each failure |
| `StorageEngine.UpdateItemsExactly` | frameworks/innerkitsimpl/src/adaptor/flat_object_storage_engine.cpp:193-219 | success likewise for a batch that is not empty; given entries win and all others stay; an empty batch gets ERR_DB_NOT_INIT |
| `StorageEngine.RegisterExactly` | frameworks/innerkitsimpl/src/adaptor/flat_object_storage_engine.cpp:263-290 | success if and only if open, present, and recorded or agreed; a recorded key changes nothing, any other gains the observer and the record; the status of each failure |
| `StorageEngine.UnRegisterExactly` | frameworks/innerkitsimpl/src/adaptor/flat_object_storage_engine.cpp:292-319 | success if and only if open, present, recorded and agreed; the recorded observer and the record go; the status of each failure |
| `StorageEngine.BatchOf` | frameworks/innerkitsimpl/src/adaptor/flat_object_storage_engine.cpp:205-209 | storing the batch built from the map has the effect of storing the map, in whatever order it is built |
| `Restore.Accounting` | frameworks/innerkitsimpl/src/adaptor/distributed_object_store_impl.cpp:161-201 | over every interleaving, for each session: at most one synchronisation in flight, and one exactly when the status is SYNCING or about to become so; accepted calls are completed or in flight and at most 5000; success means a single-device answer or an error-free last completion |
| `Restore.RunInv` | frameworks/innerkitsimpl/src/adaptor/distributed_object_store_impl.cpp:161-201 | over every interleaving each status is a function of the accepted calls, completions and single-device answers so far |
| `Restore.NoCompletionBeforeAssignment` | frameworks/innerkitsimpl/src/adaptor/distributed_object_store_impl.cpp:192-194 | between an accepted call and the assignment of SYNCING no completion can run, so no result is overwritten |
| `Restore.SuccessStays` | frameworks/innerkitsimpl/src/adaptor/distributed_object_store_impl.cpp:173-199 | SYNC_SUCCESS is absorbing: no later event changes it or starts the session again |
| `Restore.StartedOnlyWhenNeeded` | frameworks/innerkitsimpl/src/adaptor/distributed_object_store_impl.cpp:173-175 | a synchronisation starts only for a session that is new or rejected, or whose last completion reported an error, and that has none in flight |
| `Restore.AskedExactlyInNeed` | frameworks/innerkitsimpl/src/adaptor/distributed_object_store_impl.cpp:172-192 | at its turn a session is asked if and only if, by its history, nothing is in flight for it, it has not been answered with ERR_SINGLE_DEVICE, and its last completion, if any, had an error; otherwise nothing but the turn passes |
| `Restore.AnswerIsUsed` | frameworks/innerkitsimpl/src/adaptor/distributed_object_store_impl.cpp:193-198 | after the answer the session is in need again if and only if it was neither accepted nor a single device |
| `Restore.CompletionIsRecorded` | frameworks/innerkitsimpl/src/adaptor/distributed_object_store_impl.cpp:176-190 | a completion ends its synchronisation, and the session is in need again if and only if some device failed |
| `Restore.EveryRoundAsks` | frameworks/innerkitsimpl/src/adaptor/distributed_object_store_impl.cpp:169-201 | over every run: each round gives every object its turn, and asks exactly those in need at their turn |
| `Restore.NeedIsMet` | frameworks/innerkitsimpl/src/adaptor/distributed_object_store_impl.cpp:169-201 | from every reachable state: a session in need is asked no later than at its next turn, so a failed one is retried in every round |
| `Restore.MutexExcludes` | frameworks/innerkitsimpl/src/adaptor/distributed_object_store_impl.cpp:171-179 | the loop and a completion exclude each other, and no status is written without the mutex |
| `Restore.EnteredAreRecorded` | frameworks/innerkitsimpl/src/adaptor/distributed_object_store_impl.cpp:176-190 | over every run every completion that has come in is recorded or about to be |
| `Restore.SuccessHasCause` | frameworks/innerkitsimpl/src/adaptor/distributed_object_store_impl.cpp:179-198 | a session succeeds only if an earlier event answered its call with ERR_SINGLE_DEVICE or reported a completion that is OK on every device |
| `Restore.RunsEnd` | frameworks/innerkitsimpl/src/adaptor/distributed_object_store_impl.cpp:169-214 | every run is finite: a measure of the start bounds its length |
| `Restore.NoDeadlock` | frameworks/innerkitsimpl/src/adaptor/distributed_object_store_impl.cpp:169-214 | before the notification some step is always possible |
| `Restore.RestoreEnds` | frameworks/innerkitsimpl/src/adaptor/distributed_object_store_impl.cpp:203-217 | whenever the restoring thread cannot go on and no completion is at work, it has done all 5000 rounds and notified exactly once, also if synchronisations are still outstanding; none is exactly when every accepted call is completed, which is when no status is SYNCING |
| `Restore.LoopAlone` | frameworks/innerkitsimpl/src/adaptor/distributed_object_store_impl.cpp:169-216 | from every reachable state with no completion at work the thread alone gets to its single notification, whatever the calls are answered and though nothing ever completes |
| `Restore.RoundsAreCounted` | frameworks/innerkitsimpl/src/adaptor/distributed_object_store_impl.cpp:203-214 | over every run the round counter counts the rounds that ended |
| `Restore.FinishedKeepsLooping` | frameworks/innerkitsimpl/src/adaptor/distributed_object_store_impl.cpp:203-214 | over every run from a state in which all sessions have succeeded in round r: nothing is started any more, and a run that gets to the notification has gone through all of the other 5000 - r rounds |
| `Restore.OnComplete` | frameworks/innerkitsimpl/src/adaptor/distributed_object_store_impl.cpp:179-187 | the completion loop yields success if and only if every device is OK |
| `Restore.IsFinished` | frameworks/innerkitsimpl/src/adaptor/distributed_object_store_impl.cpp:203-210 | the scan is true if and only if every status is SYNC_SUCCESS |
| `ConditionLocks.NoLostWakeup` | frameworks/innerkitsimpl/include/common/condition_lock.h:29-51 | over every interleaving of Notify, Wait, Clear and spurious wake-ups with any number of waiters: beside a set flag nobody sleeps unless a woken waiter has still to return |
| `ConditionLocks.WaitersDrain` | frameworks/innerkitsimpl/include/common/condition_lock.h:37-44 | once set and not cleared, no waiter is added, each wake-up decreases a measure, and when nobody is left to wake nobody sleeps |
| `ConditionLocks.WaitReturnsLastSignal` | frameworks/innerkitsimpl/include/common/condition_lock.h:37-44 | Wait returns if and only if a signal stands, and returns the data of the last Notify |
| `ConditionLocks.FlagIsLastSignal` | frameworks/innerkitsimpl/include/common/condition_lock.h:29-51 | flag and data always are the last Notify not followed by a Clear |
| `ConditionLocks.StepDrains` | frameworks/innerkitsimpl/include/common/condition_lock.h:37-44 | the decrease of the measure, event by event |
| `ConditionLocks.OneIsWoken` | frameworks/innerkitsimpl/include/common/condition_lock.h:29-51 | every signal, clear and return wakes exactly one sleeper, if any sleeps |
| `ConditionLocks.ConditionLock.Notify` | frameworks/innerkitsimpl/include/common/condition_lock.h:29-35 | stores the data, sets the flag, wakes one sleeper |
| `ConditionLocks.ConditionLock.Wait` | frameworks/innerkitsimpl/include/common/condition_lock.h:37-44 | returns the data and wakes the next if the flag is set, else goes to sleep |
| `ConditionLocks.ConditionLock.WakeUp` | frameworks/innerkitsimpl/include/common/condition_lock.h:40-43 | the same test again after a wake-up |
| `ConditionLocks.ConditionLock.Clear` | frameworks/innerkitsimpl/include/common/condition_lock.h:46-51 | clears the flag and wakes one sleeper |
| `SessionRendezvous.MeetIffNoClose` | frameworks/innerkitsimpl/src/communicator/softbus_adapter_standard.cpp:507-514 | whichever side fetches first, a later fetch of the same id gives the same semaphore if and only if no close of the id came between |
| `SessionRendezvous.SharedSemaphore` | frameworks/innerkitsimpl/src/communicator/softbus_adapter_standard.cpp:507-514 | in every reachable state two calls share a semaphore if and only if they are for the same id with the same number of closes before their fetches |
| `SessionRendezvous.EpochCountsCloses` | frameworks/innerkitsimpl/src/communicator/softbus_adapter_standard.cpp:497-505 | the epoch of an id counts its closes |
| `SessionRendezvous.WaiterReturnsLastPosted` | frameworks/innerkitsimpl/src/communicator/softbus_adapter_standard.cpp:485-495 | a waiter returns when and only when a status stands on its semaphore, and returns the last one posted there |
| `SessionRendezvous.StatusFromSameEpoch` | frameworks/innerkitsimpl/src/communicator/softbus_adapter_standard.cpp:485-505 | a returned status was posted by a call for the same id whose fetch no close separates from the waiter's: never one from before a close |
| `SessionRendezvous.SentOnlyAfterOk` | frameworks/innerkitsimpl/src/communicator/softbus_adapter_standard.cpp:468-477 | SendBytes runs only after SOFTBUS_OK has been posted for the id, in the waiter's own epoch |
| `SessionRendezvous.OkIsSent` | frameworks/innerkitsimpl/src/communicator/softbus_adapter_standard.cpp:468-477 | a sender can send if and only if it has been given SOFTBUS_OK, and then once |
| `SessionRendezvous.CloseIsOne` | frameworks/innerkitsimpl/src/communicator/softbus_adapter_standard.cpp:497-505 | between clearing and erasing no fetch and no other close comes in, and the map stays |
| `SessionRendezvous.WaitersGoOn` | frameworks/innerkitsimpl/src/communicator/softbus_adapter_standard.cpp:485-495 | while a status stands on a semaphore, some waiter on it can go on and takes that status |
| `SessionRendezvous.CloseAbandons` | frameworks/innerkitsimpl/src/communicator/softbus_adapter_standard.cpp:497-505 | closing an id abandons a waiter of it if and only if no call that has fetched the same semaphore is left to post |
| `SessionRendezvous.AbandonedForEver` | frameworks/innerkitsimpl/src/communicator/softbus_adapter_standard.cpp:485-505 | an abandoned waiter never returns, whatever follows: no status on its semaphore, nobody left to post, and no later fetch gives that semaphore |
| `SessionRendezvous.AbandonedRun` | frameworks/innerkitsimpl/src/communicator/softbus_adapter_standard.cpp:485-505 | a run from the start that abandons a waiter: fetch, wait, close |
| `SessionRendezvous.RunInv` | frameworks/innerkitsimpl/src/communicator/softbus_adapter_standard.cpp:485-514 | over every interleaving of fetches, posts, waits and closes: table, semaphores and calls stay consistent, and no semaphore loses a wake-up |
| `SessionRendezvous.HeldIsLastPosted` | frameworks/innerkitsimpl/src/communicator/softbus_adapter_standard.cpp:491-505 | what a semaphore holds is the last status posted on it, unless a close cleared it since |
| `SessionRendezvous.RunKeepsCall` | frameworks/innerkitsimpl/src/communicator/softbus_adapter_standard.cpp:485-495 | what a call has fetched never changes, whatever is closed later |
| `SessionRendezvous.SoftBusAdapter.GetSemaphore` | frameworks/innerkitsimpl/src/communicator/softbus_adapter_standard.cpp:507-514 | an existing semaphore is reused and the map unchanged; otherwise a new, unset one is entered |
| `SessionRendezvous.SoftBusAdapter.OnSessionOpen` | frameworks/innerkitsimpl/src/communicator/softbus_adapter_standard.cpp:491-495 | the status stands on the semaphore of the id, the old one if there was one, and one of its sleepers is woken |
| `SessionRendezvous.SoftBusAdapter.OnSessionClose` | frameworks/innerkitsimpl/src/communicator/softbus_adapter_standard.cpp:497-505 | the semaphore is cleared with one wake-up and forgotten, no other entry changes |
| `NodeCaches.RunInv` | frameworks/innerkitsimpl/src/communicator/softbus_adapter_standard.cpp:343-403 | over every interleaving of online, offline and searches each cached pair is true, and every non-empty answer maps to the requested udid |
| `NodeCaches.EntryStays` | frameworks/innerkitsimpl/src/communicator/softbus_adapter_standard.cpp:343-403 | only the node's own going offline removes an entry, and nothing alters it |
| `NodeCaches.DeviceChangedExactly` | frameworks/innerkitsimpl/src/communicator/softbus_adapter_standard.cpp:343-368 | offline erases exactly that node, online inserts it if absent under its own udid, any other change does nothing |
| `NodeCaches.CachedExactly` | frameworks/innerkitsimpl/src/communicator/softbus_adapter_standard.cpp:343-403 | after every run a node is cached if and only if it has come online or been listed since it last went offline |
| `NodeCaches.GoneStaysGone` | frameworks/innerkitsimpl/src/communicator/softbus_adapter_standard.cpp:343-403 | over every run: a node that is offline, does not come back and is not listed is neither cached nor answered any more |
| `NodeCaches.ScanKeeps` | frameworks/innerkitsimpl/src/communicator/softbus_adapter_standard.cpp:386-398 | a scan adds exactly the listed nodes, each with its own udid, and alters no entry |
| `NodeCaches.ScanFinds` | frameworks/innerkitsimpl/src/communicator/softbus_adapter_standard.cpp:386-398 | a scan finds a node if and only if the list has an uncached one with the udid, and what it finds is one |
| `NodeCaches.ScanFindsLast` | frameworks/innerkitsimpl/src/communicator/softbus_adapter_standard.cpp:386-398 | among several new nodes with the udid the last one is answered |
| `NodeCaches.SearchIsComplete` | frameworks/innerkitsimpl/src/communicator/softbus_adapter_standard.cpp:369-403 | uninterrupted, the search answers if and only if a cached or listed node has the udid, and then with such a node |
| `NodeCaches.SearchKeepsEntries` | frameworks/innerkitsimpl/src/communicator/softbus_adapter_standard.cpp:369-403 | a search alters no existing entry and keeps the cache true |
| `NodeCaches.AskAgain` | frameworks/innerkitsimpl/src/communicator/softbus_adapter_standard.cpp:369-403 | a second search gives the same answer and leaves the cache alone: a found node if the cached udids are distinct, none if the same nodes are listed |
| `NodeCaches.MissesExactlyWhenCached` | frameworks/innerkitsimpl/src/communicator/softbus_adapter_standard.cpp:378-398 | over every run between the two critical sections: the search comes back empty if and only if all listed nodes with the udid are cached at the scan, and every one of them came into the cache after the search of it |
| `NodeCaches.OnlineBetweenIsMissed` | frameworks/innerkitsimpl/src/communicator/softbus_adapter_standard.cpp:343-403 | a run in which that happens |
| `NodeCaches.SoftBusNodes.UpdateRelationship` | frameworks/innerkitsimpl/src/communicator/softbus_adapter_standard.cpp:343-368 | online inserts only if absent, offline erases, anything else does nothing |
| `NodeCaches.SoftBusNodes.Search` | frameworks/innerkitsimpl/src/communicator/softbus_adapter_standard.cpp:371-378 | a cached node with the udid, none if and only if there is none |
| `NodeCaches.SoftBusNodes.Scan` | frameworks/innerkitsimpl/src/communicator/softbus_adapter_standard.cpp:386-398 | the loop over the listed nodes; the last new match wins |
| `NodeCaches.SoftBusNodes.ToNodeID` | frameworks/innerkitsimpl/src/communicator/softbus_adapter_standard.cpp:369-403 | both parts together: cached answer first, then the list, if there is one |
| `SaveResume.SaveThenResume` | frameworks/innerkitsimpl/src/adaptor/flat_object_store.cpp:48-74 | a successful save, anything short of another save or revocation, delete, create and resume: the table equals the saved one, also the empty one |
| `SaveResume.SaveSucceeds` | frameworks/innerkitsimpl/src/adaptor/flat_object_store.cpp:158-208 | Save returns SUCCESS if and only if the table could be read and the service reported success for the requested device; otherwise nothing is saved |
| `SaveResume.SaveFails` | frameworks/innerkitsimpl/src/adaptor/flat_object_store.cpp:158-208 | the status of every failing save: store closed, no table, the read, the request, or ERR_DB_GET_FAIL for the callback |
| `SaveResume.SaveKeeps` | frameworks/innerkitsimpl/src/adaptor/flat_object_store.cpp:158-208 | a successful save keeps exactly the table, for that session only |
| `SaveResume.RevokeForgets` | frameworks/innerkitsimpl/src/adaptor/flat_object_store.cpp:173-227 | revoking returns SUCCESS if and only if the service reported it for the request and in the callback; then the snapshot of that session is forgotten and no other; otherwise nothing is, with the refusal or ERR_DB_GET_FAIL |
| `SaveResume.RevokeThenResume` | frameworks/innerkitsimpl/src/adaptor/flat_object_store.cpp:48-74 | a successful revocation, anything short of another save, delete, create and resume: the table is empty |
| `SaveResume.KeptOverRun` | frameworks/innerkitsimpl/src/adaptor/flat_object_store.cpp:158-227 | over every run only a successful save or revocation of a session changes what the service keeps for it |
| `SaveResume.ResumeOverlays` | frameworks/innerkitsimpl/src/adaptor/flat_object_store.cpp:59-71 | a resume lets saved values win, keeps all other entries and touches no other table |
| `SaveResume.FlatObjectStore.Save` | frameworks/innerkitsimpl/src/adaptor/flat_object_store.cpp:158-208 | reads the table, hands it to the service and maps the callback to a status |
| `SaveResume.FlatObjectStore.RevokeSave` | frameworks/innerkitsimpl/src/adaptor/flat_object_store.cpp:173-227 | maps the answer of the service to a status |
| `SaveResume.FlatObjectStore.OnRetrieved` | frameworks/innerkitsimpl/src/adaptor/flat_object_store.cpp:59-71 | an empty snapshot is ignored, any other is stored as a batch, whatever the service sends |
| `SaveWaits.RunInv` | frameworks/innerkitsimpl/src/adaptor/flat_object_store.cpp:186-227 | over every interleaving of saves, revocations and callbacks one call at a time is between its request and its return, and success is returned only if it was called back |
| `SaveWaits.ReturnsExactly` | frameworks/innerkitsimpl/src/adaptor/flat_object_store.cpp:199-207 | a refused request returns its status, a called-back one SUCCESS or ERR_DB_GET_FAIL, and both give the mutex back |
| `SaveWaits.ResultIsLast` | frameworks/innerkitsimpl/src/adaptor/flat_object_store.cpp:191-198 | over every run the result of a call is the last one called back |
| `SaveWaits.GoesOnUnlessUnanswered` | frameworks/innerkitsimpl/src/adaptor/flat_object_store.cpp:186-227 | calls that have begun can go on if and only if the one that holds the mutex does not wait unanswered |
| `SaveWaits.BlockedForEver` | frameworks/innerkitsimpl/src/adaptor/flat_object_store.cpp:189-205 | without the callback of an accepted request that call waits for ever, over every continuation, and no other call gets as far as its request |
| `SaveWaits.SecondCallBlocks` | frameworks/innerkitsimpl/src/adaptor/flat_object_store.cpp:189-205 | a run from the start in which a second call is blocked so |
| `UvQueues.RunConserves` | frameworks/jskitsimpl/src/common/uv_queue.cpp:30-70 | over every interleaving of submitters and drains: handed over plus pending equals submitted, in order, per process function; once all work has run nothing is pending |
| `UvQueues.StepConserves` | frameworks/jskitsimpl/src/common/uv_queue.cpp:30-70 | the same for one step |
| `UvQueues.WorksAreCounted` | frameworks/jskitsimpl/src/common/uv_queue.cpp:30-70 | over every interleaving each accepted argument brings one work item and each drain uses up one |
| `UvQueues.UvQueue.AppendArgument` | frameworks/jskitsimpl/src/common/uv_queue.cpp:42-53 | the critical section appends to the list of that process function |
| `UvQueues.UvQueue.CallFunction` | frameworks/jskitsimpl/src/common/uv_queue.cpp:30-70 | a whole submission; without memory for the work item nothing is kept |
| `UvQueues.UvQueue.RunWork` | frameworks/jskitsimpl/src/common/uv_queue.cpp:57-64 | one work item hands over every pending list as it is and empties the map |
| `DeliveryLocks.RunInv` | frameworks/jskitsimpl/src/common/uv_queue.cpp:30-70 | over every interleaving of work items, scripts, status and change events: the mutex of the notifier and that of every queue has at most one holder, and queued events have a work item, or are about to get one, or are being drained |
| `DeliveryLocks.WorksAreCounted` | frameworks/jskitsimpl/src/common/uv_queue.cpp:55-69 | over every run the work items run for a watcher are those submitted, each once |
| `DeliveryLocks.CallbackHasEvent` | frameworks/jskitsimpl/src/common/uv_queue.cpp:57-64 | a callback runs only in a drain of a queue to which something has been appended since it was last emptied |
| `DeliveryLocks.ProgressUnlessDeadlocked` | frameworks/jskitsimpl/src/adaptor/notifier_impl.cpp:57-70 | whatever has begun or is queued can be carried on, unless a callback running in the drain of a queue waits for the notifier while a status event holding the notifier waits for that queue |
| `DeliveryLocks.OnlyCallbacksDeadlock` | frameworks/jskitsimpl/src/adaptor/js_watcher.cpp:323-344 | no run deadlocks in which no callback adds or removes status handlers or leaves a session |
| `DeliveryLocks.DeadlockHappens` | frameworks/jskitsimpl/src/common/uv_queue.cpp:57-64 | a run from the start that ends in that deadlock: a change is queued, its work item drains the queue, a status event comes in, and the callback asks for the notifier |
| `DeliveryLocks.DeadlockStays` | frameworks/jskitsimpl/src/adaptor/notifier_impl.cpp:57-70 | no later event resolves it |
| `ChangeDelivery.EveryHandlerOnce` | frameworks/innerkitsimpl/src/adaptor/flat_object_storage_engine.cpp:407-428 | after every run, whatever the database answers, a foreign change that touches a property queues one event per live change handler of a joined proxy, in list order, if and only if the proxy hears, else none; no handler of another proxy gets one |
| `ChangeDelivery.StatusReachesItsSession` | frameworks/jskitsimpl/src/adaptor/notifier_impl.cpp:57-70 | over every run a status change queues one event per status handler of the proxy in that session and none for a handler of another proxy |
| `ChangeDelivery.ProcessBatch` | frameworks/jskitsimpl/src/adaptor/js_watcher.cpp:65-93 | the dispatch loop calls the events of a batch up to the first that fails |
| `ChangeDelivery.CalledExactly` | frameworks/jskitsimpl/src/adaptor/js_watcher.cpp:124-157 | the called events are a prefix of the batch; an event is called if and only if its arguments can be made and every callback before it returned |
| `ChangeDelivery.AllCalledExactly` | frameworks/jskitsimpl/src/adaptor/js_watcher.cpp:65-93 | all are called if and only if none fails before the last and the last can be called |
| `ChangeDelivery.HandlerCalledExactly` | frameworks/jskitsimpl/src/adaptor/js_watcher.cpp:65-93 | after every run: a live handler of a proxy that hears is called for a foreign change if and only if everything queued before its event in the batch returned |
| `ChangeDelivery.StatusHandlerCalledExactly` | frameworks/jskitsimpl/src/adaptor/js_watcher.cpp:124-178 | after every run, for a named device: a status handler of the session is queued session, network id and status as given, and is called if and only if everything queued before it in the batch returned |
| `ChangeDelivery.NothingToTell` | frameworks/jskitsimpl/src/adaptor/js_watcher.cpp:96-99 | an empty list of names, an empty session and an empty network id queue nothing |
| `ChangeDelivery.EventAt` | frameworks/jskitsimpl/src/adaptor/js_watcher.cpp:107-110 | the k-th event carries the k-th handler with session, names, network id and status as given |
| `ChangeDelivery.SecondHandlerMissed` | frameworks/jskitsimpl/src/adaptor/js_watcher.cpp:65-93 | a run with two handlers in which the first one called throws and the second is never called |
| `ChangeDelivery.NamesInverse` | frameworks/innerkitsimpl/src/adaptor/flat_object_storage_engine.cpp:411-418 | stripping the prefix gives back the property names, in order |
| `ChangeDelivery.NamesSkipOthers` | frameworks/innerkitsimpl/src/adaptor/flat_object_storage_engine.cpp:411-418 | no names are reported if and only if no key has the prefix |
| `ChangeDelivery.ChangedNames` | frameworks/innerkitsimpl/src/adaptor/flat_object_storage_engine.cpp:407-428 | inserted names before updated ones |
| `ChangeDelivery.EmitChange` | frameworks/jskitsimpl/src/adaptor/js_watcher.cpp:94-111 | walking the heap list queues one event per handler in list order, none for an empty change, and keeps the queue conserved |
| `ChangeDelivery.EmitStatus` | frameworks/jskitsimpl/src/adaptor/js_watcher.cpp:159-178 | likewise for a status; none for an empty session or network id |

## Left out

- NAPI references, type checks, promises and failures; memory exhaustion for list nodes and event arguments.
- JSON text: stringify and parse are taken to be inverse; strings with lone surrogates are not representable.
- Properties named `get`, `put` or `__sessionId`, which would shadow the members of the joined object.
- Two proxies with the same random objectId: the record is keyed by distinct ids.
- The internals of the database, the soft bus and the object service.
- Writes into a table from outside during a run: the pull that `CreateTable` starts (flat_object_storage_engine.cpp:134), changes from other devices, and `ResumeObject` (flat_object_store.cpp:72), which fills a new table. `World` has none of them, so the `DataRuns` rows hold while there are none; `SaveResume` models resuming by itself.
- Session ids with a NUL: native code cuts them there (js_util.cpp:69) while the proxy keeps the whole id. A `SessionId` is the native one.
- Assigning a symbol: `console.info` throws before `put` is reached, so nothing at all changes; the model lets it clear the undefined mark like other values that cannot be stored.
- Locks other than the two of `DeliveryLocks`; in particular those of the database and of the engine.
- `GetTable`, which nothing calls, and `SyncAllData`, whose answer is an argument of the restore machine.
- Concurrent `CreateTable` calls on one key: calls on the object store are serialized.
- Finalizers, object lifetime after deletion, and completions that arrive after the restoring thread has ended: its status map, which they would write to, is kept alive in the model.
- A change of the set of objects while a restore is running.
- The version counter of the JavaScript object, and saving from JavaScript.
- The order in which `std::map` is walked: searches and batches are proved for any order.
- The 32-bit range of offsets and statuses beyond the stated bounds; statuses are natural numbers.
- Pass-through communicator classes, listener priorities of device changes, logging, tracing, permissions and start-up retries.
- StorageEngine.FlatObjectStorageEngine.CreateTable: the two critical sections around the database call are one step, because creates are serialized, and the pull it starts at the end is not modelled. Nor is a `GetKvStore` that gives no delegate: the code then dereferences null (flat_object_storage_engine.cpp:105).
- SaveResume.FlatObjectStore.Save: the service calls back for every accepted request; what happens otherwise is `SaveWaits`.
- SaveResume.FlatObjectStore.RevokeSave: the same premise.
- ChangeDelivery.ProcessBatch: what the JavaScript engine makes of the exception after the batch has ended; and callbacks that arrive at a reference already deleted.
- A callback of the object service that comes after its call has returned, when the condition lock it would notify is gone.
- SessionRendezvous.SoftBusAdapter.OnSessionOpen: runs fetch and post without interruption; their interleavings are those of the state machine.
- NodeCaches.SoftBusNodes.ToNodeID: runs both parts without interruption; their interleavings are those of the state machine.
