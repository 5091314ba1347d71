/**
 `TriggerRestore`: one thread starts the synchronisation of every object, retries for a fixed number of
 rounds and then notifies; the database reports the end of each accepted synchronisation on threads of
 its own (frameworks/innerkitsimpl/src/adaptor/distributed_object_store_impl.cpp).

 The machine below interleaves the two sides step by step. What the database answers, and when, is
 part of the event. The objects stay the same while a restore is running.
 */
module Restore {
  import opened Types

  datatype SyncStatus = SYNC_START | SYNCING | SYNC_SUCCESS | SYNC_FAIL

  type Device = Text

  const MAX_RETRY_SIZE: nat := 5000
  const DB_OK: nat := 0

  /** Where the restoring thread stands; `Called` is between the sync call and the use of its answer. */
  datatype Pc = Acquire | Item(k: nat) | Called(k: nat, answer: StatusCode) | Check | Notify | Done

  /** Who holds `dataMutex_`. */
  datatype Lock = Free | ByLoop | ByCompletion(session: SessionId, devices: map<Device, nat>)

  /**
   `outstanding` are the accepted synchronisations whose completion has not been recorded yet; `issued`,
   `completed`, `last` and `single` are the history: accepted calls, completions, the last completion and
   the sessions answered with ERR_SINGLE_DEVICE.
   */
  datatype State = State(
    objects: seq<SessionId>,
    status: map<SessionId, SyncStatus>,
    round: nat,
    pc: Pc,
    lock: Lock,
    outstanding: multiset<SessionId>,
    issued: multiset<SessionId>,
    completed: multiset<SessionId>,
    last: map<SessionId, map<Device, nat>>,
    single: set<SessionId>,
    notified: nat)

  datatype Event =
    | LoopStep(answer: StatusCode)
    | CompletionEnters(session: SessionId, devices: map<Device, nat>)
    | CompletionRecords

  function Start(objects: seq<SessionId>): State {
    State(objects, map s | s in objects :: SYNC_START, 0, Acquire, Free,
          multiset{}, multiset{}, multiset{}, map[], {}, 0)
  }

  predicate Enabled(st: State, event: Event) {
    match event
    case LoopStep(_) => st.pc != Done && (st.pc == Acquire ==> st.lock == Free)
    case CompletionEnters(session, _) => st.lock == Free && session in st.outstanding
    case CompletionRecords => st.lock.ByCompletion?
  }

  predicate AllOk(devices: map<Device, nat>) {
    forall d | d in devices :: devices[d] == DB_OK
  }

  predicate NeedsSync(st: State, session: SessionId) {
    session in st.status && st.status[session] != SYNC_SUCCESS && st.status[session] != SYNCING
  }

  function Next(st: State, event: Event): State {
    match event
    case LoopStep(answer) => LoopNext(st, answer)
    case CompletionEnters(session, devices) => st.(lock := ByCompletion(session, devices))
    case CompletionRecords =>
      if !st.lock.ByCompletion? then st else
      var s := st.lock.session;
      st.(status := st.status[s := if AllOk(st.lock.devices) then SYNC_SUCCESS else SYNC_FAIL],
          lock := Free,
          outstanding := st.outstanding - multiset{s},
          completed := st.completed + multiset{s},
          last := st.last[s := st.lock.devices])
  }

  function LoopNext(st: State, answer: StatusCode): State {
    match st.pc
    case Acquire => st.(pc := Item(0), lock := ByLoop)
    case Item(k) =>
      if k >= |st.objects| then st.(pc := Check, lock := Free)
      else if !NeedsSync(st, st.objects[k]) then st.(pc := Item(k + 1))
      else if answer == SUCCESS then
        st.(pc := Called(k, answer),
            outstanding := st.outstanding + multiset{st.objects[k]},
            issued := st.issued + multiset{st.objects[k]})
      else st.(pc := Called(k, answer))
    case Called(k, result) =>
      var next := st.(pc := Item(k + 1));
      if k >= |st.objects| then next
      else if result == SUCCESS then next.(status := st.status[st.objects[k] := SYNCING])
      else if result == ERR_SINGLE_DEVICE then
        next.(status := st.status[st.objects[k] := SYNC_SUCCESS], single := st.single + {st.objects[k]})
      else next
    // Whether every status is SYNC_SUCCESS by now only decides about a pause.
    case Check => st.(round := st.round + 1, pc := if st.round + 1 < MAX_RETRY_SIZE then Acquire else Notify)
    case Notify => st.(pc := Done, notified := st.notified + 1)
    case Done => st
  }

  /** The scan after each round. */
  method IsFinished(status: map<SessionId, SyncStatus>) returns (isFinished: bool)
    ensures isFinished <==> forall s | s in status :: status[s] == SYNC_SUCCESS
  {
    var todo := status.Keys;
    while todo != {}
      invariant todo <= status.Keys
      invariant forall s | s in status && s !in todo :: status[s] == SYNC_SUCCESS
      decreases |todo|
    {
      var s :| s in todo;
      if status[s] != SYNC_SUCCESS {
        return false;
      }
      todo := todo - {s};
    }
    return true;
  }

  /** The result a completion records: success only if every device reports success. */
  method OnComplete(devices: map<Device, nat>) returns (result: SyncStatus)
    ensures result == if AllOk(devices) then SYNC_SUCCESS else SYNC_FAIL
  {
    result := SYNC_SUCCESS;
    var todo := devices.Keys;
    while todo != {}
      invariant todo <= devices.Keys
      invariant result == SYNC_SUCCESS || result == SYNC_FAIL
      invariant result == SYNC_SUCCESS <==> forall d | d in devices && d !in todo :: devices[d] == DB_OK
      decreases |todo|
    {
      var d :| d in todo;
      if devices[d] != DB_OK {
        result := SYNC_FAIL;
      }
      todo := todo - {d};
    }
  }

  // ---- The invariant ----

  /** The call for this session has been accepted, but its status has not been assigned yet. */
  predicate JustAccepted(st: State, s: SessionId) {
    st.pc.Called? && st.pc.answer == SUCCESS && st.pc.k < |st.objects| && st.objects[st.pc.k] == s
  }

  /** The status is a function of the history. */
  function StatusByHistory(st: State, s: SessionId): SyncStatus {
    if s in st.outstanding && !JustAccepted(st, s) then SYNCING
    else if s in st.single then SYNC_SUCCESS
    else if s !in st.last then SYNC_START
    else if AllOk(st.last[s]) then SYNC_SUCCESS
    else SYNC_FAIL
  }

  ghost predicate SessionInv(st: State, s: SessionId) {
    && st.outstanding[s] <= 1
    && (s in st.status ==> st.status[s] == StatusByHistory(st, s))
    && (s !in st.status ==> s !in st.outstanding)
    && (s in st.single ==> s !in st.outstanding)
    && (JustAccepted(st, s) ==> s in st.outstanding)
    && st.issued[s] == st.completed[s] + st.outstanding[s]
    && st.issued[s] <= st.round + (if st.pc.Check? || (st.lock.ByLoop? && s in st.outstanding) then 1 else 0)
  }

  ghost predicate LoopInv(st: State) {
    && (forall s :: s in st.status <==> s in st.objects)
    && (st.lock.ByLoop? <==> st.pc.Item? || st.pc.Called?)
    && (st.pc.Item? ==> st.pc.k <= |st.objects|)
    && (st.pc.Called? ==> st.pc.k < |st.objects| && NeedsSync(st, st.objects[st.pc.k]))
    && (st.lock.ByCompletion? ==> st.lock.session in st.outstanding)
    && (if st.pc.Notify? || st.pc.Done? then st.round == MAX_RETRY_SIZE else st.round < MAX_RETRY_SIZE)
    && st.notified == (if st.pc.Done? then 1 else 0)
  }

  ghost predicate Inv(st: State) {
    LoopInv(st) && forall s :: SessionInv(st, s)
  }

  lemma StartInv(objects: seq<SessionId>)
    ensures Inv(Start(objects))
  {
  }

  lemma ItemSession(st: State, answer: StatusCode, s: SessionId)
    requires LoopInv(st) && SessionInv(st, s) && st.pc.Item?
    ensures SessionInv(LoopNext(st, answer), s)
  {
  }

  lemma CalledSession(st: State, answer: StatusCode, s: SessionId)
    requires LoopInv(st) && SessionInv(st, s) && st.pc.Called?
    ensures SessionInv(LoopNext(st, answer), s)
  {
  }

  lemma RecordSession(st: State, s: SessionId)
    requires LoopInv(st) && SessionInv(st, s) && st.lock.ByCompletion?
    ensures SessionInv(Next(st, CompletionRecords), s)
  {
  }

  lemma StepSession(st: State, event: Event, s: SessionId)
    requires LoopInv(st) && SessionInv(st, s) && Enabled(st, event)
    ensures SessionInv(Next(st, event), s)
  {
    if event.CompletionRecords? {
      RecordSession(st, s);
    } else if event.LoopStep? {
      if st.pc.Item? {
        ItemSession(st, event.answer, s);
      } else if st.pc.Called? {
        CalledSession(st, event.answer, s);
      }
    }
  }

  lemma StepLoop(st: State, event: Event)
    requires LoopInv(st) && Enabled(st, event)
    requires st.lock.ByCompletion? ==> SessionInv(st, st.lock.session)
    ensures LoopInv(Next(st, event))
  {
  }

  lemma StepInv(st: State, event: Event)
    requires Inv(st) && Enabled(st, event)
    ensures Inv(Next(st, event))
  {
    StepLoop(st, event);
    forall s ensures SessionInv(Next(st, event), s) {
      StepSession(st, event, s);
    }
  }

  // ---- One step ----

  /** Under the lock nothing comes between an accepted call and the assignment of SYNCING. */
  lemma NoCompletionBeforeAssignment(st: State, event: Event)
    requires Inv(st) && st.pc.Called? && Enabled(st, event)
    ensures event.LoopStep?
    ensures st.pc.answer == SUCCESS ==>
              var s := st.objects[st.pc.k];
              && s in st.outstanding && st.status[s] !in {SYNCING, SYNC_SUCCESS}
              && Next(st, event) == st.(pc := Item(st.pc.k + 1), status := st.status[s := SYNCING])
  {
    assert SessionInv(st, st.objects[st.pc.k]);
  }

  /** The statuses are written under the mutex, and its two kinds of holders exclude each other. */
  lemma MutexExcludes(st: State, event: Event)
    requires Inv(st) && Enabled(st, event)
    ensures st.lock.ByLoop? ==> event.LoopStep?
    ensures st.lock.ByCompletion? ==> event == CompletionRecords || (event.LoopStep? && (st.pc.Check? || st.pc.Notify?))
    ensures Next(st, event).status != st.status ==> st.lock != Free
  {
  }

  /** A synchronisation is started only for a session that is new, was rejected or has failed, and has none running. */
  lemma StartedOnlyWhenNeeded(st: State, event: Event, s: SessionId)
    requires Inv(st) && Enabled(st, event)
    requires Next(st, event).issued[s] != st.issued[s]
    ensures s in st.status && s !in st.outstanding && s !in st.single
    ensures st.status[s] == if s in st.last then SYNC_FAIL else SYNC_START
    ensures s in st.last ==> exists d :: d in st.last[s] && st.last[s][d] != DB_OK
    ensures Next(st, event).issued == st.issued + multiset{s}
  {
    assert SessionInv(st, s);
  }

  /**
   Told from the history alone: nothing is running for the session, it has not been answered with
   ERR_SINGLE_DEVICE, and its last completion, if any, had an error.
   */
  predicate InNeed(st: State, s: SessionId) {
    s !in st.outstanding && s !in st.single && (s in st.last ==> !AllOk(st.last[s]))
  }

  /** At its turn a session is asked exactly when it is in need; otherwise it is passed over. */
  lemma AskedExactlyInNeed(st: State, answer: StatusCode)
    requires Inv(st) && st.pc.Item? && st.pc.k < |st.objects|
    ensures var k, next := st.pc.k, Next(st, LoopStep(answer));
            var s := st.objects[k];
            if InNeed(st, s)
            then next.pc == Called(k, answer)
                 && next.issued == st.issued + (if answer == SUCCESS then multiset{s} else multiset{})
            else next == st.(pc := Item(k + 1))
  {
    assert SessionInv(st, st.objects[st.pc.k]);
  }

  /** The answer decides: accepted is running, a single device is done, anything else stays in need. */
  lemma AnswerIsUsed(st: State, answer: StatusCode)
    requires Inv(st) && st.pc.Called?
    ensures var s, next := st.objects[st.pc.k], Next(st, LoopStep(answer));
            && next.pc == Item(st.pc.k + 1) && next.last == st.last && next.outstanding == st.outstanding
            && next.single == st.single + (if st.pc.answer == ERR_SINGLE_DEVICE then {s} else {})
            && (InNeed(next, s) <==> st.pc.answer != SUCCESS && st.pc.answer != ERR_SINGLE_DEVICE)
  {
    assert SessionInv(st, st.objects[st.pc.k]);
  }

  /** A completion ends its synchronisation; the session is in need again exactly when a device failed. */
  lemma CompletionIsRecorded(st: State)
    requires Inv(st) && st.lock.ByCompletion?
    ensures var s, devices, next := st.lock.session, st.lock.devices, Next(st, CompletionRecords);
            && next.outstanding == st.outstanding - multiset{s} && next.lock == Free && next.pc == st.pc
            && next.last == st.last[s := devices]
            && (InNeed(next, s) <==> exists d :: d in devices && devices[d] != 0)
  {
    assert SessionInv(st, st.lock.session);
  }

  lemma SuccessStaysStep(st: State, event: Event, s: SessionId)
    requires Inv(st) && Enabled(st, event)
    requires s in st.status && st.status[s] == SYNC_SUCCESS
    ensures s in Next(st, event).status && Next(st, event).status[s] == SYNC_SUCCESS
    ensures Next(st, event).issued[s] == st.issued[s] && Next(st, event).completed[s] == st.completed[s]
  {
    assert SessionInv(st, s);
    if st.lock.ByCompletion? {
      assert SessionInv(st, st.lock.session);
    }
  }

  // ---- Whole runs ----

  function Run(st: State, events: seq<Event>): State {
    if events == [] then st else Next(Run(st, events[..|events| - 1]), events[|events| - 1])
  }

  ghost predicate Possible(st: State, events: seq<Event>) {
    forall i | 0 <= i < |events| :: Enabled(Run(st, events[..i]), events[i])
  }

  lemma PossiblePrefix(st: State, events: seq<Event>)
    requires Possible(st, events) && events != []
    ensures Possible(st, events[..|events| - 1])
    ensures Enabled(Run(st, events[..|events| - 1]), events[|events| - 1])
  {
    var front := events[..|events| - 1];
    forall i | 0 <= i < |front| ensures Enabled(Run(st, front[..i]), front[i]) {
      assert front[..i] == events[..i];
    }
  }

  lemma {:induction false} RunInv(st: State, events: seq<Event>)
    requires Inv(st) && Possible(st, events)
    ensures Inv(Run(st, events)) && Run(st, events).objects == st.objects
  {
    if events != [] {
      var front := events[..|events| - 1];
      PossiblePrefix(st, events);
      RunInv(st, front);
      StepInv(Run(st, front), events[|events| - 1]);
    }
  }

  /**
   The accounting over every run: at most one synchronisation of a session is in flight, and one is
   exactly when the status says so (or the answer is about to be used); accepted calls are completed or
   in flight, and there is at most one per round.
   */
  lemma Accounting(objects: seq<SessionId>, events: seq<Event>, s: SessionId)
    requires Possible(Start(objects), events) && s in objects
    ensures var st := Run(Start(objects), events);
            && s in st.status
            && st.outstanding[s] <= 1
            && (st.outstanding[s] == 1 <==> st.status[s] == SYNCING || JustAccepted(st, s))
            && st.issued[s] == st.completed[s] + st.outstanding[s]
            && st.issued[s] <= 5000
            && (st.status[s] == SYNC_SUCCESS ==> s in st.single || (s in st.last && AllOk(st.last[s])))
  {
    StartInv(objects);
    RunInv(Start(objects), events);
    assert SessionInv(Run(Start(objects), events), s);
  }

  /** The completions of a session that have come in. */
  function Entered(events: seq<Event>, s: SessionId): nat {
    if events == [] then 0 else
    var n := |events| - 1;
    Entered(events[..n], s) + if events[n].CompletionEnters? && events[n].session == s then 1 else 0
  }

  /** The completions of a session that have been recorded, or are about to be. */
  function Recorded(st: State, s: SessionId): nat {
    st.completed[s] + if st.lock.ByCompletion? && st.lock.session == s then 1 else 0
  }

  lemma RecordedStep(st: State, event: Event, s: SessionId)
    requires Inv(st) && Enabled(st, event)
    ensures Recorded(Next(st, event), s) ==
            Recorded(st, s) + if event.CompletionEnters? && event.session == s then 1 else 0
  {
  }

  /** No completion that has come in is lost. */
  lemma {:induction false} EnteredAreRecorded(st: State, events: seq<Event>, s: SessionId)
    requires Inv(st) && Possible(st, events)
    ensures Recorded(Run(st, events), s) == Recorded(st, s) + Entered(events, s)
  {
    if events != [] {
      var n := |events| - 1;
      PossiblePrefix(st, events);
      EnteredAreRecorded(st, events[..n], s);
      RunInv(st, events[..n]);
      RecordedStep(Run(st, events[..n]), events[n], s);
    }
  }

  /** Once a session has succeeded, no later event changes its status or starts it again. */
  lemma {:induction false} SuccessStays(st: State, events: seq<Event>, s: SessionId)
    requires Inv(st) && Possible(st, events)
    requires s in st.status && st.status[s] == SYNC_SUCCESS
    ensures s in Run(st, events).status && Run(st, events).status[s] == SYNC_SUCCESS
    ensures Run(st, events).issued[s] == st.issued[s]
  {
    if events != [] {
      var front := events[..|events| - 1];
      PossiblePrefix(st, events);
      SuccessStays(st, front, s);
      RunInv(st, front);
      SuccessStaysStep(Run(st, front), events[|events| - 1], s);
    }
  }

  /** The i-th event answers a call for the session with ERR_SINGLE_DEVICE. */
  ghost predicate SingleAnswer(objects: seq<SessionId>, events: seq<Event>, i: nat, s: SessionId) {
    && i < |events| && events[i] == LoopStep(ERR_SINGLE_DEVICE)
    && var st := Run(Start(objects), events[..i]);
    st.pc.Item? && st.pc.k < |objects| && objects[st.pc.k] == s && Next(st, events[i]).pc.Called?
  }

  /** The i-th event reports the end of a synchronisation of the session that went well on every device. */
  ghost predicate OkCompletion(events: seq<Event>, i: nat, s: SessionId) {
    i < |events| && events[i].CompletionEnters? && events[i].session == s && AllOk(events[i].devices)
  }

  ghost predicate HasCause(objects: seq<SessionId>, events: seq<Event>, s: SessionId) {
    exists i: nat :: SingleAnswer(objects, events, i, s) || OkCompletion(events, i, s)
  }

  /** What is about to make the session succeed. */
  predicate SuccessComing(st: State, s: SessionId) {
    || (st.pc.Called? && st.pc.answer == ERR_SINGLE_DEVICE && st.pc.k < |st.objects| && st.objects[st.pc.k] == s)
    || (st.lock.ByCompletion? && st.lock.session == s && AllOk(st.lock.devices))
  }

  lemma CauseStays(objects: seq<SessionId>, events: seq<Event>, s: SessionId)
    requires events != [] && HasCause(objects, events[..|events| - 1], s)
    ensures HasCause(objects, events, s)
  {
    var front := events[..|events| - 1];
    var i: nat :| SingleAnswer(objects, front, i, s) || OkCompletion(front, i, s);
    assert front[..i] == events[..i];
    assert SingleAnswer(objects, events, i, s) || OkCompletion(events, i, s);
  }

  lemma SuccessStep(st: State, event: Event, s: SessionId)
    requires Inv(st) && Enabled(st, event) && s in st.objects
    requires s in st.status && st.status[s] != SYNC_SUCCESS
    ensures s in Next(st, event).status
    ensures Next(st, event).status[s] == SYNC_SUCCESS ==> SuccessComing(st, s)
  {
  }

  lemma CauseAppears(objects: seq<SessionId>, events: seq<Event>, s: SessionId)
    requires events != [] && s in objects
    requires var st := Run(Start(objects), events[..|events| - 1]);
             && Inv(st) && Enabled(st, events[|events| - 1]) && st.objects == objects
             && !SuccessComing(st, s) && SuccessComing(Next(st, events[|events| - 1]), s)
    ensures HasCause(objects, events, s)
  {
    var n := |events| - 1;
    assert SingleAnswer(objects, events, n, s) || OkCompletion(events, n, s);
  }

  /** A session succeeds only after a single-device answer to its call, or a completion without any error. */
  lemma {:induction false} SuccessHasCause(objects: seq<SessionId>, events: seq<Event>, s: SessionId)
    requires Possible(Start(objects), events) && s in objects
    ensures s in Run(Start(objects), events).status
    ensures Run(Start(objects), events).status[s] == SYNC_SUCCESS || SuccessComing(Run(Start(objects), events), s) ==>
              HasCause(objects, events, s)
  {
    if events != [] {
      var n := |events| - 1;
      var st := Run(Start(objects), events[..n]);
      PossiblePrefix(Start(objects), events);
      StartInv(objects);
      RunInv(Start(objects), events[..n]);
      SuccessHasCause(objects, events[..n], s);
      assert s in Next(st, events[n]).status by {
        StepLoop(st, events[n]);
      }
      if HasCause(objects, events[..n], s) {
        CauseStays(objects, events, s);
      } else {
        SuccessStep(st, events[n], s);
        if SuccessComing(Next(st, events[n]), s) {
          CauseAppears(objects, events, s);
        }
      }
    }
  }

  // ---- Every round asks every session in need ----

  /** The turn of the k-th object in round r is over. */
  predicate Past(st: State, r: nat, k: nat) {
    || st.round > r
    || (st.round == r && match st.pc
                         case Item(j) => j > k
                         case Called(j, _) => j >= k
                         case Check => true
                         case _ => false)
  }

  /** The i-th event of the run is the turn of the k-th object in round r. */
  ghost predicate Turn(st: State, events: seq<Event>, i: nat, r: nat, k: nat) {
    && i < |events| && events[i].LoopStep?
    && var before := Run(st, events[..i]); before.pc == Item(k) && before.round == r
  }

  /** The i-th event of the run asks the database for the session. */
  ghost predicate Asks(st: State, events: seq<Event>, i: nat, s: SessionId) {
    && i < |events| && events[i].LoopStep?
    && var before := Run(st, events[..i]);
    before.pc.Item? && before.pc.k < |before.objects| && before.objects[before.pc.k] == s
    && Next(before, events[i]).pc == Called(before.pc.k, events[i].answer)
  }

  lemma PastStep(st: State, event: Event, r: nat, k: nat)
    requires Inv(st) && Enabled(st, event) && k < |st.objects| && r < MAX_RETRY_SIZE
    requires !Past(st, r, k) && Past(Next(st, event), r, k)
    ensures event.LoopStep? && st.pc == Item(k) && st.round == r
  {
  }

  /** Every round that has got that far has given its turn to every object. */
  lemma {:induction false} TurnComes(st: State, events: seq<Event>, r: nat, k: nat) returns (i: nat)
    requires Inv(st) && Possible(st, events) && k < |st.objects| && r < MAX_RETRY_SIZE
    requires !Past(st, r, k) && Past(Run(st, events), r, k)
    ensures Turn(st, events, i, r, k)
  {
    var n := |events| - 1;
    PossiblePrefix(st, events);
    RunInv(st, events[..n]);
    if Past(Run(st, events[..n]), r, k) {
      i := TurnComes(st, events[..n], r, k);
      assert events[..n][..i] == events[..i];
    } else {
      PastStep(Run(st, events[..n]), events[n], r, k);
      i := n;
    }
  }

  /** Over every run: each round asks exactly the sessions that are in need at their turn. */
  lemma EveryRoundAsks(objects: seq<SessionId>, events: seq<Event>, r: nat, k: nat) returns (i: nat)
    requires Possible(Start(objects), events) && k < |objects| && r < MAX_RETRY_SIZE
    requires Past(Run(Start(objects), events), r, k)
    ensures Turn(Start(objects), events, i, r, k)
    ensures Asks(Start(objects), events, i, objects[k]) <==> InNeed(Run(Start(objects), events[..i]), objects[k])
  {
    StartInv(objects);
    i := TurnComes(Start(objects), events, r, k);
    PossibleFront(Start(objects), events, i);
    RunInv(Start(objects), events[..i]);
    AskedExactlyInNeed(Run(Start(objects), events[..i]), events[i].answer);
  }

  lemma PossibleFront(st: State, events: seq<Event>, i: nat)
    requires Possible(st, events) && i <= |events|
    ensures Possible(st, events[..i])
  {
    forall j | 0 <= j < i ensures Enabled(Run(st, events[..i][..j]), events[..i][j]) {
      assert events[..i][..j] == events[..j];
    }
  }

  /** In need, and not just being asked. */
  predicate Waits(st: State, s: SessionId) {
    InNeed(st, s) && !(st.pc.Called? && st.pc.k < |st.objects| && st.objects[st.pc.k] == s)
  }

  lemma NeedStays(st: State, event: Event, s: SessionId)
    requires Inv(st) && Enabled(st, event) && Waits(st, s)
    requires !(event.LoopStep? && st.pc.Item? && st.pc.k < |st.objects| && st.objects[st.pc.k] == s)
    ensures Waits(Next(st, event), s)
  {
  }

  lemma AskedEarlier(st: State, events: seq<Event>, n: nat, i: nat, s: SessionId)
    requires n <= |events| && Asks(st, events[..n], i, s)
    ensures Asks(st, events, i, s)
  {
    assert events[..n][..i] == events[..i];
  }

  lemma {:induction false} WaitsOrAsked(st: State, events: seq<Event>, s: SessionId)
    requires Inv(st) && Possible(st, events) && Waits(st, s)
    ensures Waits(Run(st, events), s) || exists i :: Asks(st, events, i, s)
  {
    if events != [] {
      var n := |events| - 1;
      PossiblePrefix(st, events);
      RunInv(st, events[..n]);
      WaitsOrAsked(st, events[..n], s);
      var before := Run(st, events[..n]);
      if Waits(before, s) {
        if events[n].LoopStep? && before.pc.Item? && before.pc.k < |before.objects|
           && before.objects[before.pc.k] == s {
          AskedExactlyInNeed(before, events[n].answer);
          assert Asks(st, events, n, s);
        } else {
          NeedStays(before, events[n], s);
        }
      } else {
        var i :| Asks(st, events[..n], i, s);
        AskedEarlier(st, events, n, i, s);
      }
    }
  }

  /** A session in need is asked no later than at its next turn: a failed one is retried in every round. */
  lemma NeedIsMet(st: State, events: seq<Event>, r: nat, k: nat)
    requires Inv(st) && Possible(st, events) && k < |st.objects| && r < MAX_RETRY_SIZE
    requires !Past(st, r, k) && Past(Run(st, events), r, k) && Waits(st, st.objects[k])
    ensures exists i :: Asks(st, events, i, st.objects[k])
  {
    var s := st.objects[k];
    var turn := TurnComes(st, events, r, k);
    PossibleFront(st, events, turn);
    RunInv(st, events[..turn]);
    WaitsOrAsked(st, events[..turn], s);
    if Waits(Run(st, events[..turn]), s) {
      AskedExactlyInNeed(Run(st, events[..turn]), events[turn].answer);
      assert Asks(st, events, turn, s);
    } else {
      var i :| Asks(st, events[..turn], i, s);
      AskedEarlier(st, events, turn, i, s);
    }
  }

  // ---- Every run ends, after all rounds, with one notification ----

  /** Loop steps of one full round. */
  function RoundSteps(objects: seq<SessionId>): nat {
    2 * |objects| + 3
  }

  function Times(n: nat, steps: nat): nat {
    if n == 0 then 0 else steps + Times(n - 1, steps)
  }

  /** An upper bound on the steps the restoring thread still has to take. */
  function LoopSteps(st: State): int {
    if st.pc.Done? then 0 else
    if st.pc.Notify? || st.round >= MAX_RETRY_SIZE then 1 else
    1 + Times(MAX_RETRY_SIZE - 1 - st.round, RoundSteps(st.objects)) + RoundSteps(st.objects) - StepsTaken(st)
  }

  /** Steps already taken in the current round. */
  function StepsTaken(st: State): int {
    match st.pc
    case Item(k) => 1 + 2 * k
    case Called(k, _) => 2 + 2 * k
    case Check => 2 + 2 * |st.objects|
    case _ => 0
  }

  function Measure(st: State): int {
    4 * LoopSteps(st) + 2 * |st.outstanding| + if st.lock.ByCompletion? then 0 else 1
  }

  lemma LoopStepsDecrease(st: State, answer: StatusCode)
    requires LoopInv(st) && Enabled(st, LoopStep(answer))
    ensures 0 <= LoopSteps(LoopNext(st, answer)) < LoopSteps(st)
  {
  }

  lemma MeasureDecreases(st: State, event: Event)
    requires Inv(st) && Enabled(st, event)
    ensures Measure(Next(st, event)) < Measure(st)
  {
    if event.LoopStep? {
      LoopStepsDecrease(st, event.answer);
    }
  }

  /** No run is longer than its start allows. */
  lemma {:induction false} RunsEnd(st: State, events: seq<Event>)
    requires Inv(st) && Possible(st, events)
    ensures |events| + Measure(Run(st, events)) <= Measure(st)
    ensures |events| <= Measure(st)
  {
    RunInv(st, events);
    if events != [] {
      var front := events[..|events| - 1];
      PossiblePrefix(st, events);
      RunsEnd(st, front);
      RunInv(st, front);
      MeasureDecreases(Run(st, front), events[|events| - 1]);
    }
  }

  /** Nothing can get stuck before the notification. */
  lemma NoDeadlock(st: State)
    requires Inv(st) && st.pc != Done
    ensures exists event :: Enabled(st, event)
  {
    if st.lock.ByCompletion? {
      assert Enabled(st, CompletionRecords);
    } else {
      assert Enabled(st, LoopStep(SUCCESS));
    }
  }

  /** The restoring thread cannot go on. */
  ghost predicate LoopStuck(st: State) {
    forall answer :: !Enabled(st, LoopStep(answer))
  }

  /**
   A thread that cannot go on, with no completion at work, has used every round and notified once, whether
   or not the database still owes completions; it owes none exactly when every accepted call is completed.
   */
  lemma RestoreEnds(objects: seq<SessionId>, events: seq<Event>)
    requires Possible(Start(objects), events)
    requires LoopStuck(Run(Start(objects), events)) && !Run(Start(objects), events).lock.ByCompletion?
    ensures var st := Run(Start(objects), events);
            && st.pc == Done && st.round == 5000 && st.notified == 1
            && (st.outstanding == multiset{} <==> st.issued == st.completed)
            && (st.outstanding == multiset{} <==> forall s | s in objects :: s in st.status && st.status[s] != SYNCING)
  {
    var st := Run(Start(objects), events);
    StartInv(objects);
    RunInv(Start(objects), events);
    if st.pc != Done {
      assert Enabled(st, LoopStep(SUCCESS));
    }
    NothingOwed(st);
  }

  lemma NothingOwed(st: State)
    requires Inv(st) && st.pc == Done
    ensures st.outstanding == multiset{} <==> st.issued == st.completed
    ensures st.outstanding == multiset{} <==> forall s | s in st.objects :: s in st.status && st.status[s] != SYNCING
  {
    assert forall s :: SessionInv(st, s);
    if st.outstanding == multiset{} {
      forall s ensures st.issued[s] == st.completed[s] {
        assert SessionInv(st, s);
      }
      forall s | s in st.objects ensures s in st.status && st.status[s] != SYNCING {
        assert SessionInv(st, s);
      }
    } else {
      var s :| s in st.outstanding;
      assert SessionInv(st, s);
    }
  }

  lemma PossibleSnoc(st: State, events: seq<Event>, event: Event)
    requires Possible(st, events) && Enabled(Run(st, events), event)
    ensures Possible(st, events + [event]) && Run(st, events + [event]) == Next(Run(st, events), event)
  {
    var longer := events + [event];
    assert longer[..|events|] == events;
    forall i | 0 <= i < |longer| ensures Enabled(Run(st, longer[..i]), longer[i]) {
      if i < |events| {
        assert longer[..i] == events[..i];
      }
    }
  }

  lemma AloneStep(st: State, answer: StatusCode)
    requires Inv(st) && !st.lock.ByCompletion? && st.pc != Done
    ensures Enabled(st, LoopStep(answer))
    ensures var next := Next(st, LoopStep(answer));
            && Inv(next) && !next.lock.ByCompletion? && next.completed == st.completed
            && 0 <= LoopSteps(next) < LoopSteps(st)
  {
    StepInv(st, LoopStep(answer));
    LoopStepsDecrease(st, answer);
  }

  /**
   A database that completes nothing delays nothing: whatever it answers to the calls, the thread alone
   reaches the end.
   */
  lemma LoopAlone(st: State, answers: nat -> StatusCode) returns (events: seq<Event>)
    requires Inv(st) && !st.lock.ByCompletion?
    ensures Possible(st, events) && forall i | 0 <= i < |events| :: events[i] == LoopStep(answers(i))
    ensures Run(st, events).pc == Done && Run(st, events).round == MAX_RETRY_SIZE && Run(st, events).notified == 1
    ensures Run(st, events).completed == st.completed
  {
    events := [];
    var now := st;
    while now.pc != Done
      invariant Possible(st, events) && forall i | 0 <= i < |events| :: events[i] == LoopStep(answers(i))
      invariant now == Run(st, events) && Inv(now) && !now.lock.ByCompletion? && now.completed == st.completed
      decreases LoopSteps(now)
    {
      var event := LoopStep(answers(|events|));
      AloneStep(now, answers(|events|));
      PossibleSnoc(st, events, event);
      events, now := events + [event], Next(now, event);
    }
  }

  // ---- A finished restore goes on to the last round ----

  /** The rounds that end during a run. */
  function Rounds(st: State, events: seq<Event>): nat {
    if events == [] then 0 else
    var before, event := Run(st, events[..|events| - 1]), events[|events| - 1];
    Rounds(st, events[..|events| - 1]) + if event.LoopStep? && before.pc == Check then 1 else 0
  }

  lemma RoundStep(st: State, event: Event)
    ensures Next(st, event).round == st.round + if event.LoopStep? && st.pc == Check then 1 else 0
  {
  }

  lemma {:induction false} RoundsAreCounted(st: State, events: seq<Event>)
    requires Possible(st, events)
    ensures Run(st, events).round == st.round + Rounds(st, events)
  {
    if events != [] {
      PossiblePrefix(st, events);
      RoundsAreCounted(st, events[..|events| - 1]);
      RoundStep(Run(st, events[..|events| - 1]), events[|events| - 1]);
    }
  }

  ghost predicate AllDone(st: State) {
    forall s | s in st.objects :: s in st.status && st.status[s] == SYNC_SUCCESS
  }

  lemma AllDoneStep(st: State, event: Event)
    requires Inv(st) && Enabled(st, event) && AllDone(st)
    ensures AllDone(Next(st, event)) && Next(st, event).issued == st.issued
  {
    forall s | s in st.objects ensures s in Next(st, event).status && Next(st, event).status[s] == SYNC_SUCCESS {
      SuccessStaysStep(st, event, s);
    }
    forall s ensures Next(st, event).issued[s] == st.issued[s] {
      if Next(st, event).issued[s] != st.issued[s] {
        StartedOnlyWhenNeeded(st, event, s);
        assert s in st.objects;
        SuccessStaysStep(st, event, s);
      }
    }
  }

  lemma {:induction false} AllDoneStays(st: State, events: seq<Event>)
    requires Inv(st) && Possible(st, events) && AllDone(st)
    ensures AllDone(Run(st, events)) && Run(st, events).issued == st.issued
  {
    if events != [] {
      var front := events[..|events| - 1];
      PossiblePrefix(st, events);
      AllDoneStays(st, front);
      RunInv(st, front);
      AllDoneStep(Run(st, front), events[|events| - 1]);
    }
  }

  /**
   There is no early end: when every session has succeeded in round r, a run to the notification still
   goes through the other 5000 - r rounds, and starts nothing in them.
   */
  lemma FinishedKeepsLooping(st: State, events: seq<Event>)
    requires Inv(st) && Possible(st, events) && AllDone(st)
    ensures AllDone(Run(st, events)) && Run(st, events).issued == st.issued
    ensures Run(st, events).notified == 1 ==> Rounds(st, events) == 5000 - st.round
  {
    AllDoneStays(st, events);
    RunInv(st, events);
    RoundsAreCounted(st, events);
  }
}
