/**
 The two mutexes on the way of an event, and when they block each other
 (frameworks/jskitsimpl/src/common/uv_queue.cpp and frameworks/jskitsimpl/src/adaptor/notifier_impl.cpp).

 The work callback of a watcher's queue holds the queue's mutex while JavaScript callbacks run. The
 notifier holds its own mutex while a status event is emitted, which takes the queue's mutex for every
 handler. A callback that adds or removes status handlers, or leaves a session, takes the notifier's.
 Who holds a mutex can be read off where the threads stand. Callbacks run only for events that have been
 appended, and only in a work item that a thread has submitted after appending one.
 */
module DeliveryLocks {
  import opened Types

  type Watcher = nat
  type Tid = nat

  /** The JavaScript thread; `inside` is the queue it is draining, if any. */
  datatype Js =
    | JsIdle
    | JsWantsQueue(w: Watcher)
    | JsDrains(w: Watcher)
    | JsAsks(inside: Option<Watcher>)      // for the notifier
    | JsNotifier(inside: Option<Watcher>)  // holds the notifier

  /** A thread that brings a status event or a change event for a watcher. */
  datatype Pc =
    | WantsNotifier(w: Watcher)
    | Emits(w: Watcher)   // holds the notifier, wants the queue for the next handler
    | Appends(w: Watcher) // holds both
    | WantsQueue(w: Watcher)
    | Queues(w: Watcher)  // holds the queue

  /** `pending` are the watchers with events in their queue, `works` the work items that the loop has still to run. */
  datatype State = State(js: Js, threads: map<Tid, Pc>, pending: set<Watcher>, works: multiset<Watcher>)

  const START := State(JsIdle, map[], {}, multiset{})

  /** The queue whose mutex the JavaScript thread holds. */
  function JsQueue(js: Js): Option<Watcher> {
    match js
    case JsIdle => None
    case JsWantsQueue(_) => None
    case JsDrains(w) => Some(w)
    case JsAsks(inside) => inside
    case JsNotifier(inside) => inside
  }

  predicate JsHasQueue(js: Js, w: Watcher) {
    JsQueue(js) == Some(w)
  }

  predicate HasNotifier(pc: Pc) {
    pc.Emits? || pc.Appends?
  }

  predicate HasQueue(pc: Pc, w: Watcher) {
    pc == Appends(w) || pc == Queues(w)
  }

  predicate NotifierFree(st: State) {
    !st.js.JsNotifier? && forall t | t in st.threads :: !HasNotifier(st.threads[t])
  }

  predicate QueueFree(st: State, w: Watcher) {
    !JsHasQueue(st.js, w) && forall t | t in st.threads :: !HasQueue(st.threads[t], w)
  }

  datatype Event =
    | WorkRuns(w: Watcher)
    | ScriptAsks               // on, off or a change of session, outside any callback
    | CallbackAsks             // the same, inside a callback
    | JsTakesQueue
    | JsTakesNotifier
    | JsReleasesNotifier
    | DrainEnds
    | StatusArrives(t: Tid, w: Watcher)
    | ChangeArrives(t: Tid, w: Watcher)
    | TakesNotifier(t: Tid, handlers: bool)
    | TakesQueue(t: Tid)
    | ReleasesQueue(t: Tid, more: bool)

  predicate At(st: State, t: Tid, pc: Pc) {
    t in st.threads && st.threads[t] == pc
  }

  // `uv_queue_work` follows the release of the mutex in the same event: it takes neither of the two mutexes.

  predicate Enabled(st: State, event: Event) {
    match event
    case WorkRuns(w) => st.js.JsIdle? && w in st.works
    case ScriptAsks => st.js.JsIdle?
    case CallbackAsks => st.js.JsDrains? && st.js.w in st.pending
    case JsTakesQueue => st.js.JsWantsQueue? && QueueFree(st, st.js.w)
    case JsTakesNotifier => st.js.JsAsks? && NotifierFree(st)
    case JsReleasesNotifier => st.js.JsNotifier?
    case DrainEnds => st.js.JsDrains?
    case StatusArrives(t, _) => t !in st.threads
    case ChangeArrives(t, _) => t !in st.threads
    case TakesNotifier(t, _) => t in st.threads && st.threads[t].WantsNotifier? && NotifierFree(st)
    case TakesQueue(t) =>
      t in st.threads && (st.threads[t].Emits? || st.threads[t].WantsQueue?) && QueueFree(st, st.threads[t].w)
    case ReleasesQueue(t, _) => t in st.threads && (st.threads[t].Appends? || st.threads[t].Queues?)
  }

  /** Events that carry on with something that has begun. */
  predicate Progress(event: Event) {
    !event.ScriptAsks? && !event.CallbackAsks? && !event.StatusArrives? && !event.ChangeArrives?
  }

  function Next(st: State, event: Event): State
    requires Enabled(st, event)
  {
    match event
    case WorkRuns(w) => st.(js := JsWantsQueue(w), works := st.works - multiset{w})
    case ScriptAsks => st.(js := JsAsks(None))
    case CallbackAsks => st.(js := JsAsks(Some(st.js.w)))
    case JsTakesQueue => st.(js := JsDrains(st.js.w))
    case JsTakesNotifier => st.(js := JsNotifier(st.js.inside))
    case JsReleasesNotifier => st.(js := if st.js.inside.Some? then JsDrains(st.js.inside.value) else JsIdle)
    case DrainEnds => st.(js := JsIdle, pending := st.pending - {st.js.w})
    case StatusArrives(t, w) => st.(threads := st.threads[t := WantsNotifier(w)])
    case ChangeArrives(t, w) => st.(threads := st.threads[t := WantsQueue(w)])
    case TakesNotifier(t, handlers) =>
      st.(threads := if handlers then st.threads[t := Emits(st.threads[t].w)] else st.threads - {t})
    case TakesQueue(t) =>
      var w := st.threads[t].w;
      st.(threads := st.threads[t := if st.threads[t].Emits? then Appends(w) else Queues(w)],
          pending := st.pending + {w})
    case ReleasesQueue(t, more) =>
      var w := st.threads[t].w;
      st.(threads := if more && st.threads[t].Appends? then st.threads[t := Emits(w)]
                     else if more then st.threads[t := WantsQueue(w)]
                     else st.threads - {t},
          works := st.works + multiset{w})
  }

  ghost predicate OneNotifierHolder(st: State) {
    && (forall t, u | t in st.threads && u in st.threads ::
          HasNotifier(st.threads[t]) && HasNotifier(st.threads[u]) ==> t == u)
    && (forall t | t in st.threads && HasNotifier(st.threads[t]) :: !st.js.JsNotifier?)
  }

  ghost predicate OneQueueHolder(st: State, w: Watcher) {
    && (forall t, u | t in st.threads && u in st.threads ::
          HasQueue(st.threads[t], w) && HasQueue(st.threads[u], w) ==> t == u)
    && (forall t | t in st.threads && HasQueue(st.threads[t], w) :: !JsHasQueue(st.js, w))
  }

  /** Each mutex has at most one holder. */
  ghost predicate Inv(st: State) {
    OneNotifierHolder(st) && forall w :: OneQueueHolder(st, w)
  }

  lemma StepNotifier(st: State, event: Event)
    requires OneNotifierHolder(st) && Enabled(st, event)
    ensures OneNotifierHolder(Next(st, event))
  {
  }

  lemma StepQueue(st: State, event: Event, w: Watcher)
    requires OneQueueHolder(st, w) && Enabled(st, event)
    ensures OneQueueHolder(Next(st, event), w)
  {
  }

  lemma StepInv(st: State, event: Event)
    requires Inv(st) && Enabled(st, event)
    ensures Inv(Next(st, event))
  {
    StepNotifier(st, event);
    forall w {
      StepQueue(st, event, w);
    }
  }

  /** Events in a queue have a work item, or are about to get one, or are being drained. */
  ghost predicate Served(st: State) {
    forall w | w in st.pending ::
      || w in st.works || st.js == JsWantsQueue(w) || JsHasQueue(st.js, w)
      || exists t :: t in st.threads && HasQueue(st.threads[t], w)
  }

  lemma StepServed(st: State, event: Event)
    requires Inv(st) && Served(st) && Enabled(st, event)
    ensures Served(Next(st, event))
  {
    var st' := Next(st, event);
    forall w | w in st'.pending
      ensures w in st'.works || st'.js == JsWantsQueue(w) || JsHasQueue(st'.js, w)
              || exists t :: t in st'.threads && HasQueue(st'.threads[t], w)
    {
      if event.TakesQueue? && st.threads[event.t].w == w {
        assert HasQueue(st'.threads[event.t], w);
      } else if w !in st.works && st.js != JsWantsQueue(w) && !JsHasQueue(st.js, w) {
        var t :| t in st.threads && HasQueue(st.threads[t], w);
        if event.ReleasesQueue? && event.t == t {
          assert w in st'.works;
        } else {
          assert HasQueue(st'.threads[t], w);
        }
      }
    }
  }

  lemma StartOk()
    ensures Inv(START) && Served(START)
  {
  }

  /** Something has begun, or some event waits to be called. */
  predicate Busy(st: State) {
    st.js != JsIdle || st.threads != map[] || st.works != multiset{} || st.pending != {}
  }

  /** A callback of the queue of `w` waits for the notifier, whose holder waits for that queue. */
  predicate DeadlockedAt(st: State, w: Watcher, t: Tid) {
    st.js == JsAsks(Some(w)) && At(st, t, Emits(w))
  }

  ghost predicate Deadlocked(st: State) {
    exists w, t :: DeadlockedAt(st, w, t)
  }

  lemma ThreadProgress(st: State, t: Tid) returns (event: Event)
    requires Inv(st) && t in st.threads && !Deadlocked(st)
    ensures Progress(event) && Enabled(st, event)
  {
    var pc := st.threads[t];
    if pc.Appends? || pc.Queues? {
      return ReleasesQueue(t, false);
    }
    if pc.WantsNotifier? {
      if NotifierFree(st) {
        return TakesNotifier(t, true);
      }
      event := NotifierProgress(st);
    } else {
      if QueueFree(st, pc.w) {
        return TakesQueue(t);
      }
      event := QueueProgress(st, pc.w);
    }
  }

  /** Whoever holds the notifier can go on. */
  lemma NotifierProgress(st: State) returns (event: Event)
    requires Inv(st) && !NotifierFree(st) && !Deadlocked(st)
    ensures Progress(event) && Enabled(st, event)
  {
    if st.js.JsNotifier? {
      return JsReleasesNotifier;
    }
    var u :| u in st.threads && HasNotifier(st.threads[u]);
    if st.threads[u].Appends? {
      return ReleasesQueue(u, false);
    }
    var w := st.threads[u].w;
    if QueueFree(st, w) {
      return TakesQueue(u);
    }
    if st.js == JsDrains(w) {
      return DrainEnds;
    }
    assert !DeadlockedAt(st, w, u);
    var v :| v in st.threads && HasQueue(st.threads[v], w);
    event := ReleasesQueue(v, false);
  }

  /** Whoever holds a queue can go on, or waits for somebody who can. */
  lemma QueueProgress(st: State, w: Watcher) returns (event: Event)
    requires Inv(st) && !QueueFree(st, w) && !Deadlocked(st)
    ensures Progress(event) && Enabled(st, event)
  {
    if st.js == JsDrains(w) {
      return DrainEnds;
    }
    if st.js == JsNotifier(Some(w)) {
      return JsReleasesNotifier;
    }
    if st.js == JsAsks(Some(w)) {
      if NotifierFree(st) {
        return JsTakesNotifier;
      }
      event := NotifierProgress(st);
    } else {
      var v :| v in st.threads && HasQueue(st.threads[v], w);
      event := ReleasesQueue(v, false);
    }
  }

  lemma JsProgress(st: State) returns (event: Event)
    requires Inv(st) && st.js != JsIdle && !Deadlocked(st)
    ensures Progress(event) && Enabled(st, event)
  {
    match st.js
    case JsDrains(_) => return DrainEnds;
    case JsNotifier(_) => return JsReleasesNotifier;
    case JsAsks(_) =>
      if NotifierFree(st) {
        return JsTakesNotifier;
      }
      event := NotifierProgress(st);
    case JsWantsQueue(w) =>
      if QueueFree(st, w) {
        return JsTakesQueue;
      }
      event := QueueProgress(st, w);
  }

  /** As long as there is no deadlock of this one kind, whatever has begun can be carried on. */
  lemma ProgressUnlessDeadlocked(st: State) returns (event: Event)
    requires Inv(st) && Served(st) && Busy(st) && !Deadlocked(st)
    ensures Progress(event) && Enabled(st, event)
  {
    if st.js != JsIdle {
      event := JsProgress(st);
    } else if st.works != multiset{} {
      var w :| w in st.works;
      event := WorkRuns(w);
    } else {
      var t :| t in st.threads;
      event := ThreadProgress(st, t);
    }
  }

  // ---- Whole runs ----

  ghost predicate Possible(st: State, events: seq<Event>)
    decreases |events|
  {
    events == [] || (Enabled(st, events[0]) && Possible(Next(st, events[0]), events[1..]))
  }

  function Run(st: State, events: seq<Event>): State
    requires Possible(st, events)
    decreases |events|
  {
    if events == [] then st else Run(Next(st, events[0]), events[1..])
  }

  lemma {:induction false} RunInv(st: State, events: seq<Event>)
    requires Inv(st) && Served(st) && Possible(st, events)
    ensures Inv(Run(st, events)) && Served(Run(st, events))
    decreases |events|
  {
    if events != [] {
      StepInv(st, events[0]);
      StepServed(st, events[0]);
      RunInv(Next(st, events[0]), events[1..]);
    }
  }

  lemma {:induction false} RunSnoc(st: State, events: seq<Event>)
    requires Possible(st, events) && events != []
    ensures var n := |events| - 1;
            && Possible(st, events[..n]) && Enabled(Run(st, events[..n]), events[n])
            && Run(st, events) == Next(Run(st, events[..n]), events[n])
    decreases |events|
  {
    var n := |events| - 1;
    if n > 0 {
      RunSnoc(Next(st, events[0]), events[1..]);
      assert events[1..][..n - 1] == events[..n][1..];
    }
  }

  /** The watcher whose queue the event fills, submits work for, runs work of, or empties. */
  function Filled(st: State, event: Event): Option<Watcher> {
    if event.TakesQueue? && event.t in st.threads then Some(st.threads[event.t].w) else None
  }

  function Submitted(st: State, event: Event): Option<Watcher> {
    if event.ReleasesQueue? && event.t in st.threads then Some(st.threads[event.t].w) else None
  }

  function Emptied(st: State, event: Event): Option<Watcher> {
    if event.DrainEnds? && st.js.JsDrains? then Some(st.js.w) else None
  }

  /** Submissions and runs of work items for a watcher. */
  ghost function Submissions(st: State, events: seq<Event>, w: Watcher): nat
    requires Possible(st, events)
    decreases |events|
  {
    if events == [] then 0 else
    (if Submitted(st, events[0]) == Some(w) then 1 else 0) + Submissions(Next(st, events[0]), events[1..], w)
  }

  function WorkRunsOf(events: seq<Event>, w: Watcher): nat {
    if events == [] then 0 else (if events[0] == WorkRuns(w) then 1 else 0) + WorkRunsOf(events[1..], w)
  }

  /** No work item runs that has not been submitted, and each runs once. */
  lemma {:induction false} WorksAreCounted(st: State, events: seq<Event>, w: Watcher)
    requires Possible(st, events)
    ensures Run(st, events).works[w] + WorkRunsOf(events, w) == st.works[w] + Submissions(st, events, w)
    decreases |events|
  {
    if events != [] {
      WorksAreCounted(Next(st, events[0]), events[1..], w);
    }
  }

  /** Whether something has been appended to the queue since it was last emptied. */
  ghost function HoldsEvents(st: State, events: seq<Event>, w: Watcher): bool
    requires Possible(st, events)
    decreases |events|
  {
    if events == [] then w in st.pending else
    var n := |events| - 1;
    RunSnoc(st, events);
    var before := Run(st, events[..n]);
    if Filled(before, events[n]) == Some(w) then true
    else if Emptied(before, events[n]) == Some(w) then false
    else HoldsEvents(st, events[..n], w)
  }

  lemma {:induction false} PendingExactly(st: State, events: seq<Event>, w: Watcher)
    requires Possible(st, events)
    ensures w in Run(st, events).pending <==> HoldsEvents(st, events, w)
    decreases |events|
  {
    if events != [] {
      RunSnoc(st, events);
      PendingExactly(st, events[..|events| - 1], w);
    }
  }

  /** A callback runs only in a drain of a queue to which something has been appended since the last one. */
  lemma CallbackHasEvent(st: State, events: seq<Event>)
    requires Possible(st, events) && Enabled(Run(st, events), CallbackAsks)
    ensures Run(st, events).js.JsDrains? && HoldsEvents(st, events, Run(st, events).js.w)
  {
    PendingExactly(st, events, Run(st, events).js.w);
  }

  /** A deadlock is for ever: JavaScript runs no more, and no status event gets through. */
  lemma {:induction false} DeadlockStays(st: State, events: seq<Event>, w: Watcher, t: Tid)
    requires Possible(st, events) && DeadlockedAt(st, w, t)
    ensures DeadlockedAt(Run(st, events), w, t)
    decreases |events|
  {
    if events != [] {
      assert HasNotifier(st.threads[t]) && JsHasQueue(st.js, w);
      DeadlockStays(Next(st, events[0]), events[1..], w, t);
    }
  }

  /** It takes a callback that asks for the notifier: without one no run deadlocks. */
  lemma {:induction false} OnlyCallbacksDeadlock(st: State, events: seq<Event>)
    requires Possible(st, events) && CallbackAsks !in events
    requires forall w :: st.js != JsAsks(Some(w)) && st.js != JsNotifier(Some(w))
    ensures !Deadlocked(Run(st, events))
    decreases |events|
  {
    if events != [] {
      assert events[0] in events && forall e | e in events[1..] :: e in events;
      OnlyCallbacksDeadlock(Next(st, events[0]), events[1..]);
    }
  }

  lemma First(st: State, event: Event, events: seq<Event>)
    requires Enabled(st, event) && Possible(Next(st, event), events)
    ensures Possible(st, [event] + events) && Run(st, [event] + events) == Run(Next(st, event), events)
  {
    assert ([event] + events)[1..] == events;
  }

  /** From a drain with an event to call: a status event comes in, and then the callback asks. */
  lemma DrainDeadlocks(st: State, w: Watcher, t: Tid)
    requires st.js == JsDrains(w) && w in st.pending && t !in st.threads && NotifierFree(st)
    ensures var events := [StatusArrives(t, w), TakesNotifier(t, true), CallbackAsks];
            Possible(st, events) && DeadlockedAt(Run(st, events), w, t)
  {
    var a := Next(st, StatusArrives(t, w));
    assert NotifierFree(a);
    var b := Next(a, TakesNotifier(t, true));
    First(b, CallbackAsks, []);
    First(a, TakesNotifier(t, true), [CallbackAsks]);
    First(st, StatusArrives(t, w), [TakesNotifier(t, true), CallbackAsks]);
    assert [StatusArrives(t, w)] + [TakesNotifier(t, true), CallbackAsks] ==
           [StatusArrives(t, w), TakesNotifier(t, true), CallbackAsks];
    assert [TakesNotifier(t, true)] + [CallbackAsks] == [TakesNotifier(t, true), CallbackAsks];
    assert [CallbackAsks] + [] == [CallbackAsks];
  }

  /** After a change has been queued. */
  function Queued(w: Watcher): State {
    State(JsIdle, map[], {w}, multiset{w})
  }

  /** When its callbacks are about to be called. */
  function Draining(w: Watcher): State {
    State(JsDrains(w), map[], {w}, multiset{})
  }

  lemma ChangeIsQueued(w: Watcher, u: Tid, rest: seq<Event>)
    requires Possible(Queued(w), rest)
    ensures var events := [ChangeArrives(u, w)] + ([TakesQueue(u)] + ([ReleasesQueue(u, false)] + rest));
            Possible(START, events) && Run(START, events) == Run(Queued(w), rest)
  {
    var a := State(JsIdle, map[u := WantsQueue(w)], {}, multiset{});
    var b := State(JsIdle, map[u := Queues(w)], {w}, multiset{});
    assert Next(START, ChangeArrives(u, w)) == a && Next(a, TakesQueue(u)) == b;
    assert Next(b, ReleasesQueue(u, false)) == Queued(w);
    First(b, ReleasesQueue(u, false), rest);
    First(a, TakesQueue(u), [ReleasesQueue(u, false)] + rest);
    First(START, ChangeArrives(u, w), [TakesQueue(u)] + ([ReleasesQueue(u, false)] + rest));
  }

  lemma WorkDrains(w: Watcher, rest: seq<Event>)
    requires Possible(Draining(w), rest)
    ensures var events := [WorkRuns(w)] + ([JsTakesQueue] + rest);
            Possible(Queued(w), events) && Run(Queued(w), events) == Run(Draining(w), rest)
  {
    var wants := State(JsWantsQueue(w), map[], {w}, multiset{});
    assert Next(Queued(w), WorkRuns(w)) == wants && Next(wants, JsTakesQueue) == Draining(w);
    First(wants, JsTakesQueue, rest);
    First(Queued(w), WorkRuns(w), [JsTakesQueue] + rest);
  }

  /**
   And it happens: a change is queued and drained, and while its callbacks run a status event comes in for
   the same watcher, just before one of them asks for the notifier.
   */
  lemma DeadlockHappens(w: Watcher, u: Tid, t: Tid)
    ensures var events := [ChangeArrives(u, w), TakesQueue(u), ReleasesQueue(u, false), WorkRuns(w), JsTakesQueue,
                           StatusArrives(t, w), TakesNotifier(t, true), CallbackAsks];
            Possible(START, events) && DeadlockedAt(Run(START, events), w, t)
  {
    var rest := [StatusArrives(t, w), TakesNotifier(t, true), CallbackAsks];
    DrainDeadlocks(Draining(w), w, t);
    WorkDrains(w, rest);
    ChangeIsQueued(w, u, [WorkRuns(w)] + ([JsTakesQueue] + rest));
    assert [ChangeArrives(u, w)] + ([TakesQueue(u)] +
             ([ReleasesQueue(u, false)] + ([WorkRuns(w)] + ([JsTakesQueue] + rest)))) ==
           [ChangeArrives(u, w), TakesQueue(u), ReleasesQueue(u, false), WorkRuns(w), JsTakesQueue,
            StatusArrives(t, w), TakesNotifier(t, true), CallbackAsks];
  }
}
