/**
 Saving and revoking one after the other (`CacheManager::Save` and `CacheManager::RevokeSave` in
 frameworks/innerkitsimpl/src/adaptor/flat_object_store.cpp).

 Both hold one mutex from the request to the object service until the service has called back. Each call
 waits on a condition lock of its own, so nobody but the service can wake it.
 */
module SaveWaits {
  import opened Types

  type CallId = nat

  datatype Pc =
    | WantsMutex
    | Requests  // holds the mutex, until the service answers the request itself
    | Waiting   // holds the mutex, until the service calls back
    | Returned(status: StatusCode)

  /** `results` are the last results called back. */
  datatype State = State(holder: Option<CallId>, calls: map<CallId, Pc>, results: map<CallId, StatusCode>)

  const START := State(None, map[], map[])

  datatype Event =
    | Enters(c: CallId)
    | TakesMutex(c: CallId)
    | Answers(c: CallId, status: StatusCode)
    | CallsBack(c: CallId, result: StatusCode)
    | WakesUp(c: CallId)

  predicate At(st: State, c: CallId, pc: Pc) {
    c in st.calls && st.calls[c] == pc
  }

  predicate Enabled(st: State, event: Event) {
    match event
    case Enters(c) => c !in st.calls
    case TakesMutex(c) => At(st, c, WantsMutex) && st.holder == None
    case Answers(c, _) => At(st, c, Requests)
    case CallsBack(c, _) => At(st, c, Requests) || At(st, c, Waiting)
    case WakesUp(c) => At(st, c, Waiting) && c in st.results
  }

  function Next(st: State, event: Event): State
    requires Enabled(st, event)
  {
    match event
    case Enters(c) => st.(calls := st.calls[c := WantsMutex])
    case TakesMutex(c) => st.(holder := Some(c), calls := st.calls[c := Requests])
    case Answers(c, status) =>
      if status == SUCCESS then st.(calls := st.calls[c := Waiting])
      else st.(holder := None, calls := st.calls[c := Returned(status)])
    case CallsBack(c, result) => st.(results := st.results[c := result])
    case WakesUp(c) =>
      var status := if st.results[c] == SUCCESS then SUCCESS else ERR_DB_GET_FAIL;
      st.(holder := None, calls := st.calls[c := Returned(status)])
  }

  /** One call at a time is between its request and its return; success means that success was called back. */
  ghost predicate Inv(st: State) {
    && (forall c | c in st.calls :: st.holder == Some(c) <==> st.calls[c] == Requests || st.calls[c] == Waiting)
    && (st.holder.Some? ==> st.holder.value in st.calls)
    && (forall c | c in st.calls && st.calls[c] == Returned(SUCCESS) :: c in st.results && st.results[c] == SUCCESS)
  }

  lemma StepInv(st: State, event: Event)
    requires Inv(st) && Enabled(st, event)
    ensures Inv(Next(st, event))
  {
  }

  /** What a call returns: the refusal itself, or success exactly if that was called back. */
  lemma ReturnsExactly(st: State, c: CallId, status: StatusCode)
    ensures At(st, c, Requests) && status != SUCCESS ==>
              At(Next(st, Answers(c, status)), c, Returned(status)) && Next(st, Answers(c, status)).holder == None
    ensures At(st, c, Waiting) && c in st.results ==>
              && At(Next(st, WakesUp(c)), c, Returned(if st.results[c] == SUCCESS then SUCCESS else ERR_DB_GET_FAIL))
              && Next(st, WakesUp(c)).holder == None
  {
  }

  // ---- Whole runs ----

  ghost predicate Possible(st: State, events: seq<Event>)
    decreases |events|
  {
    events == [] || (Enabled(st, events[0]) && Possible(Next(st, events[0]), events[1..]))
  }

  function Run(st: State, events: seq<Event>): State
    requires Possible(st, events)
    decreases |events|
  {
    if events == [] then st else Run(Next(st, events[0]), events[1..])
  }

  lemma {:induction false} RunInv(st: State, events: seq<Event>)
    requires Inv(st) && Possible(st, events)
    ensures Inv(Run(st, events))
    decreases |events|
  {
    if events != [] {
      StepInv(st, events[0]);
      RunInv(Next(st, events[0]), events[1..]);
    }
  }

  /** The last result called back for a call. */
  function LastResult(events: seq<Event>, c: CallId): Option<StatusCode> {
    if events == [] then None else
    var n := |events| - 1;
    if events[n].CallsBack? && events[n].c == c then Some(events[n].result) else LastResult(events[..n], c)
  }

  lemma {:induction false} RunSnoc(st: State, events: seq<Event>)
    requires Possible(st, events) && events != []
    ensures var n := |events| - 1;
            && Possible(st, events[..n]) && Enabled(Run(st, events[..n]), events[n])
            && Run(st, events) == Next(Run(st, events[..n]), events[n])
    decreases |events|
  {
    var n := |events| - 1;
    if n > 0 {
      RunSnoc(Next(st, events[0]), events[1..]);
      assert events[1..][..n - 1] == events[..n][1..];
    }
  }

  /** A later callback replaces an earlier one. */
  lemma {:induction false} ResultIsLast(events: seq<Event>, c: CallId)
    requires Possible(START, events)
    ensures var results := Run(START, events).results;
            (if c in results then Some(results[c]) else None) == LastResult(events, c)
  {
    if events != [] {
      RunSnoc(START, events);
      ResultIsLast(events[..|events| - 1], c);
    }
  }

  /** The call that holds the mutex has its request accepted and has not been called back. */
  predicate Unanswered(st: State, c: CallId) {
    st.holder == Some(c) && At(st, c, Waiting) && c !in st.results
  }

  /** What the calls do by themselves. */
  predicate Progress(event: Event) {
    event.TakesMutex? || event.Answers? || event.WakesUp?
  }

  predicate Begun(st: State) {
    exists c :: c in st.calls && !st.calls[c].Returned?
  }

  /** Calls that have begun can go on exactly when the one that holds the mutex does not wait unanswered. */
  lemma GoesOnUnlessUnanswered(st: State)
    requires Inv(st) && Begun(st)
    ensures (exists event :: Progress(event) && Enabled(st, event)) <==> !exists c :: Unanswered(st, c)
  {
    if st.holder.Some? {
      var c := st.holder.value;
      if st.calls[c] == Requests {
        assert Enabled(st, Answers(c, SUCCESS));
        assert forall d :: !Unanswered(st, d);
      } else if c in st.results {
        assert Enabled(st, WakesUp(c));
        assert forall d :: !Unanswered(st, d);
      } else {
        assert Unanswered(st, c);
      }
    } else {
      var c :| c in st.calls && !st.calls[c].Returned?;
      assert Enabled(st, TakesMutex(c));
      assert forall d :: !Unanswered(st, d);
    }
  }

  /**
   Without the callback the call waits for ever, and so does every other call that has not returned yet or
   comes later: none of them gets as far as its request.
   */
  lemma {:induction false} BlockedForEver(st: State, events: seq<Event>, c: CallId)
    requires Inv(st) && Possible(st, events) && Unanswered(st, c)
    requires forall e | e in events :: !(e.CallsBack? && e.c == c)
    ensures Unanswered(Run(st, events), c)
    ensures forall d | d in Run(st, events).calls && d != c && !(d in st.calls && st.calls[d].Returned?) ::
              Run(st, events).calls[d] == WantsMutex
    decreases |events|
  {
    if events != [] {
      assert events[0] in events && forall e | e in events[1..] :: e in events;
      StepInv(st, events[0]);
      BlockedForEver(Next(st, events[0]), events[1..], c);
    }
  }

  lemma First(st: State, event: Event, events: seq<Event>)
    requires Enabled(st, event) && Possible(Next(st, event), events)
    ensures Possible(st, [event] + events) && Run(st, [event] + events) == Run(Next(st, event), events)
  {
    assert ([event] + events)[1..] == events;
  }

  /** A run in which one accepted request that is never called back stops a later call. */
  lemma SecondCallBlocks()
    ensures var events := [Enters(0), TakesMutex(0), Answers(0, SUCCESS), Enters(1)];
            Possible(START, events) && Unanswered(Run(START, events), 0) && At(Run(START, events), 1, WantsMutex)
  {
    var a := Next(START, Enters(0));
    var b := Next(a, TakesMutex(0));
    var c := Next(b, Answers(0, SUCCESS));
    First(c, Enters(1), []);
    First(b, Answers(0, SUCCESS), [Enters(1)]);
    First(a, TakesMutex(0), [Answers(0, SUCCESS), Enters(1)]);
    First(START, Enters(0), [TakesMutex(0), Answers(0, SUCCESS), Enters(1)]);
    assert [Enters(0)] + [TakesMutex(0), Answers(0, SUCCESS), Enters(1)] ==
           [Enters(0), TakesMutex(0), Answers(0, SUCCESS), Enters(1)];
    assert [TakesMutex(0)] + [Answers(0, SUCCESS), Enters(1)] == [TakesMutex(0), Answers(0, SUCCESS), Enters(1)];
    assert [Answers(0, SUCCESS)] + [Enters(1)] == [Answers(0, SUCCESS), Enters(1)] && [Enters(1)] + [] == [Enters(1)];
  }
}
