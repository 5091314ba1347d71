/**
 How a sender and the session-opened callback meet
 (frameworks/innerkitsimpl/src/communicator/softbus_adapter_standard.cpp).

 Both sides fetch the semaphore of the session id, made on demand under `statusMutex_`, and then wait on
 it or post to it without holding that mutex. A close clears the semaphore and forgets it. Every call of
 GetSessionStatus and OnSessionOpen has its own number; each event is one critical section.
 */
module SessionRendezvous {
  import opened Types
  import C = ConditionLocks

  type CallId = C.Thread
  type Handle = int
  type Semaphore = nat

  const SOFTBUS_OK: int := 0

  /** A status on a semaphore and, as history, the call that posted it. */
  datatype Post = Post(status: int, poster: CallId)

  datatype Kind = Waiter | Opener(status: int)

  datatype Pc = Fetched | Waiting | Returned(post: Post) | Posted | Sent(got: Post)

  /** `epoch` is the number of closes of the id before the semaphore was fetched. */
  datatype CallRecord = CallRecord(kind: Kind, id: Handle, epoch: nat, sem: Semaphore, pc: Pc)

  datatype Event =
    | FetchToWait(c: CallId, id: Handle)
    | FetchToPost(c: CallId, id: Handle, status: int)
    | PostStatus(c: CallId, wake: Option<CallId>)
    | Arrive(c: CallId, wake: Option<CallId>)
    | Resume(c: CallId, wake: Option<CallId>)
    | Spurious(c: CallId)
    | CloseClears(id: Handle, wake: Option<CallId>)
    | CloseErases(id: Handle)
    | SendBytes(c: CallId)

  /** `closes` and `owners` are history: closes per id, and the id and epoch each semaphore was made for. */
  datatype Adapter = Adapter(
    table: map<Handle, Semaphore>,
    locks: seq<C.Lock<Post>>,
    closing: Option<Handle>,
    calls: map<CallId, CallRecord>,
    closes: map<Handle, nat>,
    owners: seq<(Handle, nat)>)
  {
    function Epoch(id: Handle): nat {
      if id in closes then closes[id] else 0
    }

    function GetSemaphore(id: Handle): (Adapter, Semaphore) {
      if id in table then (this, table[id]) else
      (this.(table := table[id := |locks|],
             locks := locks + [C.Lock(false, Post(0, 0), {}, {})],
             owners := owners + [(id, Epoch(id))]),
       |locks|)
    }

    function Fetch(c: CallId, kind: Kind, id: Handle): Adapter {
      var (made, sem) := GetSemaphore(id);
      made.(calls := calls[c := CallRecord(kind, id, Epoch(id), sem, Fetched)])
    }

    function WithPc(c: CallId, pc: Pc): Adapter
      requires c in calls
    {
      this.(calls := calls[c := calls[c].(pc := pc)])
    }

    predicate Has(c: CallId, kind: Kind, pc: Pc) {
      c in calls && calls[c].kind == kind && calls[c].pc == pc && calls[c].sem < |locks|
    }
  }

  const EMPTY := Adapter(map[], [], None, map[], map[], [])

  /** The event as the semaphore of the call sees it. */
  function OnLock(st: Adapter, event: Event): C.Event<Post>
    requires event.PostStatus? || event.Arrive? || event.Resume? || event.Spurious?
    requires event.c in st.calls
  {
    match event
    case PostStatus(c, wake) => C.Notify(Post(if st.calls[c].kind.Opener? then st.calls[c].kind.status else 0, c), wake)
    case Arrive(c, wake) => C.Arrive(c, wake)
    case Resume(c, wake) => C.Resume(c, wake)
    case Spurious(c) => C.Spurious(c)
  }

  predicate Enabled(st: Adapter, event: Event) {
    match event
    case FetchToWait(c, _) => st.closing.None? && c !in st.calls
    case FetchToPost(c, _, _) => st.closing.None? && c !in st.calls
    case PostStatus(c, _) =>
      c in st.calls && st.calls[c].kind.Opener? && st.Has(c, st.calls[c].kind, Fetched) && LockReady(st, event)
    case Arrive(c, _) => st.Has(c, Waiter, Fetched) && LockReady(st, event)
    case Resume(c, _) => st.Has(c, Waiter, Waiting) && LockReady(st, event)
    case Spurious(c) => st.Has(c, Waiter, Waiting) && LockReady(st, event)
    case CloseClears(id, wake) =>
      st.closing.None? && (id in st.table && st.table[id] < |st.locks| ==> st.locks[st.table[id]].MayWake(wake))
    case CloseErases(id) => st.closing == Some(id)
    case SendBytes(c) =>
      c in st.calls && st.calls[c].kind.Waiter? && st.calls[c].pc.Returned? && st.calls[c].pc.post.status == SOFTBUS_OK
  }

  predicate LockReady(st: Adapter, event: Event)
    requires event.PostStatus? || event.Arrive? || event.Resume? || event.Spurious?
    requires event.c in st.calls && st.calls[event.c].sem < |st.locks|
  {
    st.locks[st.calls[event.c].sem].Enabled(OnLock(st, event))
  }

  /** Where the call stands after an event of its own on its semaphore. */
  function NextPc(st: Adapter, event: Event): Pc
    requires event.PostStatus? || event.Arrive? || event.Resume? || event.Spurious?
    requires event.c in st.calls && st.calls[event.c].sem < |st.locks|
  {
    if event.PostStatus? then Posted else
    var returned := st.locks[st.calls[event.c].sem].Returns(OnLock(st, event));
    if returned.Some? then Returned(returned.value.1) else Waiting
  }

  function Next(st: Adapter, event: Event): Adapter
    requires Enabled(st, event)
  {
    match event
    case FetchToWait(c, id) => st.Fetch(c, Waiter, id)
    case FetchToPost(c, id, status) => st.Fetch(c, Opener(status), id)
    case CloseClears(id, wake) =>
      var held := st.(closing := Some(id));
      if id in st.table && st.table[id] < |st.locks|
      then held.(locks := st.locks[st.table[id] := st.locks[st.table[id]].Next(C.Clear(wake))])
      else held
    case CloseErases(id) => st.(closing := None, table := st.table - {id}, closes := st.closes[id := st.Epoch(id) + 1])
    case SendBytes(c) => st.WithPc(c, Sent(st.calls[c].pc.post))
    case _ =>
      var sem := st.calls[event.c].sem;
      st.WithPc(event.c, NextPc(st, event)).(locks := st.locks[sem := st.locks[sem].Next(OnLock(st, event))])
  }

  /** What a semaphore may be after a signal or a clear: some sleeper, if any, has been woken. */
  ghost predicate Signalled(before: C.Lock<int>, status: int, after: C.Lock<int>) {
    exists wake :: before.MayWake(wake) && after == before.Next(C.Event.Notify(status, wake))
  }

  ghost predicate Cleared(before: C.Lock<int>, after: C.Lock<int>) {
    exists wake :: before.MayWake(wake) && after == before.Next(C.Event.Clear(wake))
  }

  /** The same three operations on the heap; each takes `statusMutex_` for the part on the map. */
  class SoftBusAdapter {
    var sessionsStatus: map<Handle, C.ConditionLock<int>>

    constructor ()
      ensures sessionsStatus == map[]
    {
      sessionsStatus := map[];
    }

    method GetSemaphore(id: Handle) returns (semaphore: C.ConditionLock<int>)
      modifies this
      ensures id in sessionsStatus && sessionsStatus[id] == semaphore
      ensures id in old(sessionsStatus) ==> sessionsStatus == old(sessionsStatus)
      ensures id !in old(sessionsStatus) ==>
                && sessionsStatus == old(sessionsStatus)[id := semaphore]
                && fresh(semaphore) && semaphore.State() == C.Lock(false, 0, {}, {})
    {
      if id !in sessionsStatus {
        semaphore := new C.ConditionLock(0);
        sessionsStatus := sessionsStatus[id := semaphore];
      }
      semaphore := sessionsStatus[id];
    }

    method OnSessionOpen(id: Handle, status: int)
      modifies this, if id in sessionsStatus then {sessionsStatus[id]} else {}
      ensures id in sessionsStatus && sessionsStatus[id].isSet && sessionsStatus[id].data == status
      ensures id in old(sessionsStatus) ==>
                && sessionsStatus == old(sessionsStatus)
                && Signalled(old(sessionsStatus[id].State()), status, sessionsStatus[id].State())
      ensures id !in old(sessionsStatus) ==>
                && fresh(sessionsStatus[id]) && sessionsStatus - {id} == old(sessionsStatus)
                && sessionsStatus[id].State() == C.Lock(true, status, {}, {})
    {
      var semaphore := GetSemaphore(id);
      ghost var wake := semaphore.State().SomeWake();
      semaphore.Notify(status, wake);
    }

    method OnSessionClose(id: Handle)
      modifies this, if id in sessionsStatus then {sessionsStatus[id]} else {}
      ensures sessionsStatus == old(sessionsStatus) - {id}
      ensures id in old(sessionsStatus) ==>
                && !old(sessionsStatus)[id].isSet
                && Cleared(old(sessionsStatus[id].State()), old(sessionsStatus)[id].State())
    {
      if id in sessionsStatus {
        var semaphore := sessionsStatus[id];
        ghost var wake := semaphore.State().SomeWake();
        semaphore.Clear(wake);
        sessionsStatus := sessionsStatus - {id};
      }
    }
  }

  // ---- The invariant ----

  ghost predicate TableInv(st: Adapter) {
    && |st.owners| == |st.locks|
    && (forall id | id in st.table :: st.table[id] < |st.locks| && st.owners[st.table[id]] == (id, st.Epoch(id)))
    && (forall i | 0 <= i < |st.owners| :: st.owners[i].1 <= st.Epoch(st.owners[i].0))
    && (forall i | 0 <= i < |st.owners| :: st.owners[i].1 == st.Epoch(st.owners[i].0) ==>
          st.owners[i].0 in st.table && st.table[st.owners[i].0] == i)
    && (forall i, j | 0 <= i < j < |st.owners| :: st.owners[i] != st.owners[j])
  }

  /** The call that posted this status used the semaphore `sem`. */
  ghost predicate PostedOn(st: Adapter, post: Post, sem: Semaphore) {
    && post.poster in st.calls
    && st.calls[post.poster].kind == Opener(post.status)
    && st.calls[post.poster].sem == sem && st.calls[post.poster].pc == Posted
  }

  ghost predicate CallInv(st: Adapter, c: CallId) {
    c in st.calls ==>
      var call := st.calls[c];
      && call.sem < |st.owners| && st.owners[call.sem] == (call.id, call.epoch)
      && (call.pc.Waiting? ==> call.kind.Waiter?)
      && (call.pc.Waiting? <==> call.sem < |st.locks| && c in st.locks[call.sem].sleeping + st.locks[call.sem].awake)
      && (call.pc.Returned? ==> PostedOn(st, call.pc.post, call.sem))
      && (call.pc.Sent? ==> PostedOn(st, call.pc.got, call.sem) && call.pc.got.status == SOFTBUS_OK)
  }

  ghost predicate LockInv(st: Adapter, sem: Semaphore) {
    sem < |st.locks| ==>
      && st.locks[sem].Inv()
      && (st.locks[sem].isSet ==> PostedOn(st, st.locks[sem].data, sem))
      && (forall c | c in st.locks[sem].sleeping + st.locks[sem].awake :: c in st.calls && st.calls[c].sem == sem)
  }

  ghost predicate Inv(st: Adapter) {
    && TableInv(st)
    && (forall c :: CallInv(st, c))
    && (forall sem :: LockInv(st, sem))
  }

  lemma NewSemaphore(st: Adapter, id: Handle)
    requires TableInv(st) && id !in st.table
    ensures TableInv(st.GetSemaphore(id).0)
  {
    var made := st.GetSemaphore(id).0;
    assert forall i | 0 <= i < |st.owners| :: st.owners[i] != (id, st.Epoch(id));
    assert made.owners == st.owners + [(id, st.Epoch(id))];
  }

  lemma FetchTable(st: Adapter, c: CallId, kind: Kind, id: Handle)
    requires TableInv(st)
    ensures TableInv(st.Fetch(c, kind, id))
  {
    if id !in st.table {
      NewSemaphore(st, id);
    }
  }

  lemma EraseTable(st: Adapter, id: Handle)
    requires TableInv(st) && st.closing == Some(id)
    ensures TableInv(Next(st, CloseErases(id)))
  {
  }

  lemma StepTable(st: Adapter, event: Event)
    requires TableInv(st) && Enabled(st, event)
    ensures TableInv(Next(st, event))
  {
    match event
    case FetchToWait(c, id) => FetchTable(st, c, Waiter, id);
    case FetchToPost(c, id, status) => FetchTable(st, c, Opener(status), id);
    case CloseErases(id) => EraseTable(st, id);
    case _ =>
  }

  /** What a call has fetched, and what it has posted, never changes. */
  lemma CallKeeps(st: Adapter, event: Event, c: CallId)
    requires TableInv(st) && Enabled(st, event) && c in st.calls && CallInv(st, c)
    ensures c in Next(st, event).calls
    ensures Next(st, event).calls[c] == st.calls[c].(pc := Next(st, event).calls[c].pc)
    ensures st.calls[c].pc == Posted ==> Next(st, event).calls[c].pc == Posted
    ensures Next(st, event).owners[st.calls[c].sem] == st.owners[st.calls[c].sem]
  {
  }

  lemma PostedStays(st: Adapter, event: Event, post: Post, sem: Semaphore)
    requires Inv(st) && Enabled(st, event) && PostedOn(st, post, sem)
    ensures PostedOn(Next(st, event), post, sem)
  {
    assert CallInv(st, post.poster);
    CallKeeps(st, event, post.poster);
  }

  lemma PostLock(st: Adapter, c: CallId, wake: Option<CallId>, sem: Semaphore)
    requires Inv(st) && Enabled(st, PostStatus(c, wake))
    ensures LockInv(Next(st, PostStatus(c, wake)), sem)
  {
    assert LockInv(st, sem) && CallInv(st, c);
    if sem != st.calls[c].sem && sem < |st.locks| && st.locks[sem].isSet {
      PostedStays(st, PostStatus(c, wake), st.locks[sem].data, sem);
    }
  }

  /** An event other than a post leaves the status of a semaphore alone, or clears it. */
  lemma OtherLock(st: Adapter, event: Event, sem: Semaphore)
    requires Inv(st) && Enabled(st, event) && !event.PostStatus?
    ensures LockInv(Next(st, event), sem)
  {
    assert LockInv(st, sem);
    if sem < |st.locks| && st.locks[sem].isSet {
      PostedStays(st, event, st.locks[sem].data, sem);
    }
  }

  lemma StepLock(st: Adapter, event: Event, sem: Semaphore)
    requires Inv(st) && Enabled(st, event)
    ensures LockInv(Next(st, event), sem)
  {
    if event.PostStatus? {
      PostLock(st, event.c, event.wake, sem);
    } else {
      OtherLock(st, event, sem);
    }
  }

  lemma FetchedCall(st: Adapter, c: CallId, kind: Kind, id: Handle)
    requires Inv(st) && c !in st.calls
    ensures CallInv(st.Fetch(c, kind, id), c)
  {
    assert LockInv(st, st.GetSemaphore(id).1);
  }

  /** A call that has returned or sent keeps its status. */
  lemma DoneCall(st: Adapter, event: Event, c: CallId)
    requires Inv(st) && Enabled(st, event) && c in st.calls && (st.calls[c].pc.Returned? || st.calls[c].pc.Sent?)
    ensures CallInv(Next(st, event), c)
  {
    var call := st.calls[c];
    assert CallInv(st, c);
    CallKeeps(st, event, c);
    PostedStays(st, event, if call.pc.Returned? then call.pc.post else call.pc.got, call.sem);
  }

  lemma PendingCall(st: Adapter, event: Event, c: CallId)
    requires Inv(st) && Enabled(st, event) && c in st.calls && !st.calls[c].pc.Returned? && !st.calls[c].pc.Sent?
    ensures CallInv(Next(st, event), c)
  {
    var call := st.calls[c];
    assert CallInv(st, c) && LockInv(st, call.sem);
    CallKeeps(st, event, c);
    if (event.Arrive? || event.Resume?) && event.c == c && st.locks[call.sem].isSet {
      PostedStays(st, event, st.locks[call.sem].data, call.sem);
    }
  }

  lemma StepCall(st: Adapter, event: Event, c: CallId)
    requires Inv(st) && Enabled(st, event)
    ensures CallInv(Next(st, event), c)
  {
    if c in st.calls {
      if st.calls[c].pc.Returned? || st.calls[c].pc.Sent? {
        DoneCall(st, event, c);
      } else {
        PendingCall(st, event, c);
      }
    } else if event.FetchToWait? && event.c == c {
      FetchedCall(st, c, Waiter, event.id);
    } else if event.FetchToPost? && event.c == c {
      FetchedCall(st, c, Opener(event.status), event.id);
    }
  }

  lemma StepInv(st: Adapter, event: Event)
    requires Inv(st) && Enabled(st, event)
    ensures Inv(Next(st, event))
  {
    StepTable(st, event);
    forall c ensures CallInv(Next(st, event), c) {
      StepCall(st, event, c);
    }
    forall sem ensures LockInv(Next(st, event), sem) {
      StepLock(st, event, sem);
    }
  }

  // ---- Whole runs ----

  function Run(st: Adapter, events: seq<Event>): Adapter {
    if events == [] then st else
    var before := Run(st, events[..|events| - 1]);
    if Enabled(before, events[|events| - 1]) then Next(before, events[|events| - 1]) else before
  }

  ghost predicate Possible(st: Adapter, events: seq<Event>) {
    forall i | 0 <= i < |events| :: Enabled(Run(st, events[..i]), events[i])
  }

  function Closes(events: seq<Event>, id: Handle): nat {
    if events == [] then 0 else
    Closes(events[..|events| - 1], id) + if events[|events| - 1] == CloseErases(id) then 1 else 0
  }

  lemma PossiblePrefix(st: Adapter, events: seq<Event>)
    requires Possible(st, events) && events != []
    ensures Possible(st, events[..|events| - 1])
    ensures Enabled(Run(st, events[..|events| - 1]), events[|events| - 1])
  {
    var front := events[..|events| - 1];
    forall i | 0 <= i < |front| ensures Enabled(Run(st, front[..i]), front[i]) {
      assert front[..i] == events[..i];
    }
  }

  lemma {:induction false} RunInv(st: Adapter, events: seq<Event>)
    requires Inv(st) && Possible(st, events)
    ensures Inv(Run(st, events))
  {
    if events != [] {
      PossiblePrefix(st, events);
      RunInv(st, events[..|events| - 1]);
      StepInv(Run(st, events[..|events| - 1]), events[|events| - 1]);
    }
  }

  lemma {:induction false} RunKeepsCall(st: Adapter, events: seq<Event>, c: CallId)
    requires Inv(st) && Possible(st, events) && c in st.calls
    ensures c in Run(st, events).calls
    ensures Run(st, events).calls[c] == st.calls[c].(pc := Run(st, events).calls[c].pc)
  {
    if events != [] {
      PossiblePrefix(st, events);
      RunInv(st, events[..|events| - 1]);
      RunKeepsCall(st, events[..|events| - 1], c);
      assert CallInv(Run(st, events[..|events| - 1]), c);
      CallKeeps(Run(st, events[..|events| - 1]), events[|events| - 1], c);
    }
  }

  lemma {:induction false} EpochCountsCloses(st: Adapter, events: seq<Event>, id: Handle)
    requires Possible(st, events)
    ensures Run(st, events).Epoch(id) == st.Epoch(id) + Closes(events, id)
  {
    if events != [] {
      PossiblePrefix(st, events);
      EpochCountsCloses(st, events[..|events| - 1], id);
    }
  }

  /** Two calls share a semaphore exactly when they are for the same id and the same epoch of it. */
  lemma SharedSemaphore(st: Adapter, a: CallId, b: CallId)
    requires Inv(st) && a in st.calls && b in st.calls
    ensures st.calls[a].sem == st.calls[b].sem <==>
              st.calls[a].id == st.calls[b].id && st.calls[a].epoch == st.calls[b].epoch
  {
    assert CallInv(st, a) && CallInv(st, b);
  }

  /**
   Whichever side fetches first: a later fetch of the same id gives the same semaphore if and only if
   the id has not been closed in between.
   */
  lemma MeetIffNoClose(st: Adapter, first: CallId, kind: Kind, id: Handle, events: seq<Event>,
                       second: CallId, kind': Kind)
    requires Inv(st) && first !in st.calls && Possible(st.Fetch(first, kind, id), events) && st.closing == None
    requires Run(st.Fetch(first, kind, id), events).closing == None
    requires second !in Run(st.Fetch(first, kind, id), events).calls
    ensures var met := Run(st.Fetch(first, kind, id), events).Fetch(second, kind', id);
            && first in met.calls && second in met.calls
            && (met.calls[first].sem == met.calls[second].sem <==> Closes(events, id) == 0)
  {
    var fetched := st.Fetch(first, kind, id);
    var later := Run(fetched, events);
    FetchInv(st, first, kind, id);
    RunInv(fetched, events);
    RunKeepsCall(fetched, events, first);
    EpochCountsCloses(fetched, events, id);
    FetchInv(later, second, kind', id);
    SharedSemaphore(later.Fetch(second, kind', id), first, second);
  }

  lemma FetchInv(st: Adapter, c: CallId, kind: Kind, id: Handle)
    requires Inv(st) && st.closing == None && c !in st.calls
    ensures Inv(st.Fetch(c, kind, id))
  {
    var event := match kind
      case Waiter => FetchToWait(c, id)
      case Opener(status) => FetchToPost(c, id, status);
    StepInv(st, event);
  }

  /** The last status posted on the semaphore, unless a close has cleared it since. */
  function LastPosted(st: Adapter, events: seq<Event>, sem: Semaphore): Option<Post> {
    if events == [] then Held(st, sem) else
    var before := Run(st, events[..|events| - 1]);
    match events[|events| - 1]
    case PostStatus(c, _) =>
      if c in before.calls && before.calls[c].sem == sem && before.calls[c].kind.Opener?
      then Some(Post(before.calls[c].kind.status, c))
      else LastPosted(st, events[..|events| - 1], sem)
    case CloseClears(id, _) =>
      if id in before.table && before.table[id] == sem then None else LastPosted(st, events[..|events| - 1], sem)
    case _ => LastPosted(st, events[..|events| - 1], sem)
  }

  function Held(st: Adapter, sem: Semaphore): Option<Post> {
    if sem < |st.locks| && st.locks[sem].isSet then Some(st.locks[sem].data) else None
  }

  lemma StepHeld(st: Adapter, event: Event, sem: Semaphore)
    requires Inv(st) && Enabled(st, event)
    ensures Held(Next(st, event), sem) ==
            match event
            case PostStatus(c, _) =>
              (if st.calls[c].sem == sem then Some(Post(st.calls[c].kind.status, c)) else Held(st, sem))
            case CloseClears(id, _) => (if id in st.table && st.table[id] == sem then None else Held(st, sem))
            case _ => Held(st, sem)
  {
  }

  lemma {:induction false} HeldIsLastPosted(st: Adapter, events: seq<Event>, sem: Semaphore)
    requires Inv(st) && Possible(st, events)
    ensures Held(Run(st, events), sem) == LastPosted(st, events, sem)
  {
    if events != [] {
      PossiblePrefix(st, events);
      RunInv(st, events[..|events| - 1]);
      HeldIsLastPosted(st, events[..|events| - 1], sem);
      StepHeld(Run(st, events[..|events| - 1]), events[|events| - 1], sem);
    }
  }

  /** A waiter returns when and only when a status stands on its semaphore, and returns the last one posted there. */
  lemma WaiterReturnsLastPosted(events: seq<Event>, event: Event)
    requires Possible(EMPTY, events) && Enabled(Run(EMPTY, events), event) && (event.Arrive? || event.Resume?)
    ensures var st := Run(EMPTY, events);
            var posted := LastPosted(EMPTY, events, st.calls[event.c].sem);
            Next(st, event).calls[event.c].pc == if posted.Some? then Returned(posted.value) else Waiting
  {
    HeldIsLastPosted(EMPTY, events, Run(EMPTY, events).calls[event.c].sem);
  }

  /** A status that was returned came from a call for the same id whose fetch no close separates from the waiter's. */
  lemma StatusFromSameEpoch(events: seq<Event>, c: CallId)
    requires Possible(EMPTY, events) && c in Run(EMPTY, events).calls && Run(EMPTY, events).calls[c].pc.Returned?
    ensures var st := Run(EMPTY, events);
            var post := st.calls[c].pc.post;
            && post.poster in st.calls
            && st.calls[post.poster] ==
                 CallRecord(Opener(post.status), st.calls[c].id, st.calls[c].epoch, st.calls[c].sem, Posted)
  {
    var st := Run(EMPTY, events);
    RunInv(EMPTY, events);
    assert CallInv(st, c) && CallInv(st, st.calls[c].pc.post.poster);
  }

  /** Nothing is sent before SOFTBUS_OK has been posted for the id, in the epoch of the waiter. */
  lemma SentOnlyAfterOk(events: seq<Event>, c: CallId)
    requires Possible(EMPTY, events) && Enabled(Run(EMPTY, events), SendBytes(c))
    ensures var st := Run(EMPTY, events);
            exists o :: o in st.calls && st.calls[o] ==
              CallRecord(Opener(SOFTBUS_OK), st.calls[c].id, st.calls[c].epoch, st.calls[c].sem, Posted)
  {
    StatusFromSameEpoch(events, c);
  }

  /** Between the two halves of a close the map is not touched: no fetch and no other close comes in. */
  lemma CloseIsOne(st: Adapter, event: Event, id: Handle)
    requires st.closing == Some(id) && Enabled(st, event)
    ensures !event.FetchToWait? && !event.FetchToPost? && !event.CloseClears?
    ensures event.CloseErases? ==> event.id == id && Next(st, event).closing == None
    ensures !event.CloseErases? ==> Next(st, event).closing == Some(id) && Next(st, event).table == st.table
  {
  }

  /** And a sender that has been given SOFTBUS_OK can send, once. */
  lemma OkIsSent(st: Adapter, c: CallId)
    requires c in st.calls && st.calls[c].kind.Waiter?
    ensures Enabled(st, SendBytes(c)) <==>
              st.calls[c].pc.Returned? && st.calls[c].pc.post.status == SOFTBUS_OK
    ensures Enabled(st, SendBytes(c)) ==>
              && Next(st, SendBytes(c)).calls[c].pc == Sent(st.calls[c].pc.post)
              && !Enabled(Next(st, SendBytes(c)), SendBytes(c))
  {
  }

  lemma SomebodyAwake(st: Adapter, sem: Semaphore) returns (c: CallId, wake: Option<CallId>)
    requires Inv(st) && Held(st, sem).Some? && st.locks[sem].sleeping + st.locks[sem].awake != {}
    ensures st.Has(c, Waiter, Waiting) && st.calls[c].sem == sem
    ensures c in st.locks[sem].awake && st.locks[sem].MayWake(wake)
  {
    assert LockInv(st, sem);
    c :| c in st.locks[sem].awake;
    assert CallInv(st, c);
    wake := st.locks[sem].SomeWake();
  }

  /** As long as a status stands on a semaphore, somebody who waits there can go on, and takes it along. */
  lemma WaitersGoOn(st: Adapter, c: CallId) returns (other: CallId, wake: Option<CallId>)
    requires Inv(st) && c in st.calls && st.calls[c].pc == Waiting && Held(st, st.calls[c].sem).Some?
    ensures Enabled(st, Resume(other, wake)) && st.calls[other].sem == st.calls[c].sem
    ensures Next(st, Resume(other, wake)).calls[other].pc == Returned(Held(st, st.calls[c].sem).value)
  {
    assert CallInv(st, c);
    other, wake := SomebodyAwake(st, st.calls[c].sem);
  }

  // ---- Waiting in vain ----

  /**
   A waiter whose id has been closed since its fetch, with no status on its semaphore and nobody left who
   could still post one there.
   */
  ghost predicate Abandoned(st: Adapter, c: CallId) {
    && c in st.calls && st.calls[c].kind.Waiter? && (st.calls[c].pc == Fetched || st.calls[c].pc == Waiting)
    && st.calls[c].epoch < st.Epoch(st.calls[c].id)
    && Held(st, st.calls[c].sem).None?
    && NobodyToPost(st, st.calls[c].sem)
  }

  ghost predicate NobodyToPost(st: Adapter, sem: Semaphore) {
    forall o | o in st.calls && st.calls[o].sem == sem && st.calls[o].kind.Opener? :: st.calls[o].pc != Fetched
  }

  /** No later fetch gives the semaphore of an epoch that is over. */
  lemma NoNewPoster(st: Adapter, event: Event, c: CallId)
    requires Inv(st) && Enabled(st, event) && c in st.calls && st.calls[c].epoch < st.Epoch(st.calls[c].id)
    requires NobodyToPost(st, st.calls[c].sem)
    ensures NobodyToPost(Next(st, event), st.calls[c].sem)
  {
    var sem := st.calls[c].sem;
    assert CallInv(st, c);
    if event.FetchToPost? {
      assert st.GetSemaphore(event.id).1 != sem;
    }
  }

  lemma AbandonedStep(st: Adapter, event: Event, c: CallId)
    requires Inv(st) && Enabled(st, event) && Abandoned(st, c)
    ensures Abandoned(Next(st, event), c)
  {
    assert CallInv(st, c);
    CallKeeps(st, event, c);
    NoNewPoster(st, event, c);
    StepHeld(st, event, st.calls[c].sem);
  }

  /** Such a waiter waits for ever, whatever happens. */
  lemma {:induction false} AbandonedForEver(st: Adapter, events: seq<Event>, c: CallId)
    requires Inv(st) && Possible(st, events) && Abandoned(st, c)
    ensures Abandoned(Run(st, events), c)
  {
    if events != [] {
      PossiblePrefix(st, events);
      RunInv(st, events[..|events| - 1]);
      AbandonedForEver(st, events[..|events| - 1], c);
      AbandonedStep(Run(st, events[..|events| - 1]), events[|events| - 1], c);
    }
  }

  /** Closing the id abandons a waiter exactly when no call of its epoch is left to post. */
  lemma CloseAbandons(st: Adapter, c: CallId, wake: Option<CallId>)
    requires Inv(st) && c in st.calls && st.calls[c].kind.Waiter?
    requires (st.calls[c].pc == Fetched || st.calls[c].pc == Waiting)
    requires st.calls[c].epoch == st.Epoch(st.calls[c].id) && Enabled(st, CloseClears(st.calls[c].id, wake))
    ensures var id := st.calls[c].id;
            var cleared := Next(st, CloseClears(id, wake));
            && Enabled(cleared, CloseErases(id))
            && (Abandoned(Next(cleared, CloseErases(id)), c) <==> NobodyToPost(st, st.calls[c].sem))
  {
    var id := st.calls[c].id;
    assert CallInv(st, c);
    assert st.table[id] == st.calls[c].sem;
    StepHeld(st, CloseClears(id, wake), st.calls[c].sem);
  }

  lemma OneMore(st: Adapter, events: seq<Event>, event: Event)
    requires Possible(st, events) && Enabled(Run(st, events), event)
    ensures Possible(st, events + [event]) && Run(st, events + [event]) == Next(Run(st, events), event)
  {
    var longer := events + [event];
    assert longer[..|events|] == events;
    forall i | 0 <= i < |longer| ensures Enabled(Run(st, longer[..i]), longer[i]) {
      if i < |events| {
        assert longer[..i] == events[..i];
      }
    }
  }

  /** One sender that has gone to sleep on a new semaphore. */
  function Asleep(id: Handle): Adapter {
    Adapter(map[id := 0], [C.Lock(false, Post(0, 0), {0}, {})], None,
            map[0 := CallRecord(Waiter, id, 0, 0, Waiting)], map[], [(id, 0)])
  }

  /** Before it goes to sleep. */
  function JustFetched(id: Handle): Adapter {
    Adapter(map[id := 0], [C.Lock(false, Post(0, 0), {}, {})], None,
            map[0 := CallRecord(Waiter, id, 0, 0, Fetched)], map[], [(id, 0)])
  }

  lemma ArrivalSleeps(id: Handle)
    ensures Enabled(JustFetched(id), Arrive(0, None)) && Next(JustFetched(id), Arrive(0, None)) == Asleep(id)
  {
    var st := JustFetched(id);
    var lock := st.locks[0].Next(OnLock(st, Arrive(0, None)));
    assert lock == C.Lock(false, Post(0, 0), {0}, {}) by {
      assert {} + {0} == {0 as CallId};
    }
    assert NextPc(st, Arrive(0, None)) == Waiting;
    assert st.locks[0 := lock] == Asleep(id).locks;
  }

  lemma FallsAsleep(id: Handle)
    ensures var events := [FetchToWait(0, id), Arrive(0, None)];
            Possible(EMPTY, events) && Run(EMPTY, events) == Asleep(id)
  {
    var fetch := [FetchToWait(0, id)];
    OneMore(EMPTY, [], FetchToWait(0, id));
    assert [] + fetch == fetch && Run(EMPTY, fetch) == JustFetched(id);
    ArrivalSleeps(id);
    OneMore(EMPTY, fetch, Arrive(0, None));
    assert fetch + [Arrive(0, None)] == [FetchToWait(0, id), Arrive(0, None)];
  }

  lemma CloseLeavesAsleep(id: Handle)
    ensures Enabled(Asleep(id), CloseClears(id, Some(0)))
    ensures var cleared := Next(Asleep(id), CloseClears(id, Some(0)));
            Enabled(cleared, CloseErases(id)) && Abandoned(Next(cleared, CloseErases(id)), 0)
  {
  }

  /** A run in which that happens: fetch, wait, and a close before anybody has posted. */
  lemma AbandonedRun(id: Handle)
    ensures var events := [FetchToWait(0, id), Arrive(0, None), CloseClears(id, Some(0)), CloseErases(id)];
            Possible(EMPTY, events) && Abandoned(Run(EMPTY, events), 0)
  {
    var waits := [FetchToWait(0, id), Arrive(0, None)];
    FallsAsleep(id);
    CloseLeavesAsleep(id);
    OneMore(EMPTY, waits, CloseClears(id, Some(0)));
    OneMore(EMPTY, waits + [CloseClears(id, Some(0))], CloseErases(id));
    assert waits + [CloseClears(id, Some(0))] + [CloseErases(id)] ==
           [FetchToWait(0, id), Arrive(0, None), CloseClears(id, Some(0)), CloseErases(id)];
  }
}
