/**
 A condition variable that wakes its waiters one after the other
 (frameworks/innerkitsimpl/include/common/condition_lock.h).

 Each event is one critical section of the mutex. A waiter is asleep on the condition variable, or awake
 and about to test the flag again; `notify_one` wakes an arbitrary sleeper, which the event names.
 */
module ConditionLocks {
  import opened Types

  type Thread = nat

  datatype Event<T> =
    | Notify(value: T, wake: Option<Thread>)
    | Arrive(t: Thread, wake: Option<Thread>)
    | Resume(t: Thread, wake: Option<Thread>)
    | Clear(wake: Option<Thread>)
    | Spurious(t: Thread)

  datatype Lock<T> = Lock(isSet: bool, data: T, sleeping: set<Thread>, awake: set<Thread>) {

    /** `notify_one`: somebody, if anybody sleeps. */
    predicate MayWake(wake: Option<Thread>) {
      if sleeping == {} then wake == None else wake.Some? && wake.value in sleeping
    }

    ghost function SomeWake(): (wake: Option<Thread>)
      ensures MayWake(wake)
    {
      if sleeping == {} then None else var t :| t in sleeping; Some(t)
    }

    function NotifyOne(wake: Option<Thread>): Lock<T> {
      if wake.None? then this else this.(sleeping := sleeping - {wake.value}, awake := awake + {wake.value})
    }

    predicate Enabled(event: Event<T>) {
      match event
      case Notify(_, wake) => MayWake(wake)
      case Clear(wake) => MayWake(wake)
      case Spurious(t) => t in sleeping
      case Arrive(t, wake) => t !in sleeping + awake && MayWake(wake)
      case Resume(t, wake) => t in awake && MayWake(wake)
    }

    /** A waiter that finds the flag set takes the data and wakes the next one. */
    function Next(event: Event<T>): Lock<T> {
      match event
      case Notify(value, wake) => this.(isSet := true, data := value).NotifyOne(wake)
      case Clear(wake) => this.(isSet := false).NotifyOne(wake)
      case Spurious(t) => NotifyOne(Some(t))
      case Arrive(t, wake) => if isSet then NotifyOne(wake) else this.(sleeping := sleeping + {t})
      case Resume(t, wake) =>
        if isSet then this.(awake := awake - {t}).NotifyOne(wake)
        else this.(awake := awake - {t}, sleeping := sleeping + {t})
    }

    /** What the event makes `Wait` return, and to whom. */
    function Returns(event: Event<T>): Option<(Thread, T)> {
      if isSet && (event.Arrive? || event.Resume?) then Some((event.t, data)) else None
    }

    /** No lost wakeup: nobody sleeps beside a set flag unless somebody is on the way to wake them. */
    ghost predicate Inv() {
      && sleeping !! awake
      && (isSet && sleeping != {} ==> awake != {})
    }

    function Measure(): nat {
      2 * |sleeping| + |awake|
    }
  }

  /** A wake-up that an event may cause: every signal, every clear and every return wakes one sleeper, if any sleeps. */
  predicate Wakes<T>(st: Lock<T>, event: Event<T>) {
    event.Notify? || event.Clear? || (st.isSet && (event.Arrive? || event.Resume?))
  }

  /** Exactly one sleeper becomes awake, and stays awake until it resumes. */
  lemma OneIsWoken<T>(st: Lock<T>, event: Event<T>)
    requires st.Enabled(event) && Wakes(st, event) && st.sleeping !! st.awake
    ensures st.sleeping != {} ==>
              && event.wake.Some? && event.wake.value in st.sleeping
              && st.Next(event).sleeping == st.sleeping - {event.wake.value}
              && event.wake.value in st.Next(event).awake
              && st.Next(event).awake - {event.wake.value} == st.awake - if event.Resume? then {event.t} else {}
    ensures st.sleeping == {} ==>
              && st.Next(event).sleeping == {}
              && st.Next(event).awake == st.awake - if event.Resume? then {event.t} else {}
  {
  }

  class ConditionLock<T> {
    var isSet: bool
    var data: T
    ghost var sleeping: set<Thread>
    ghost var awake: set<Thread>

    ghost function State(): Lock<T>
      reads this
    {
      Lock(isSet, data, sleeping, awake)
    }

    constructor (data: T)
      ensures State() == Lock(false, data, {}, {})
    {
      isSet, this.data := false, data;
      sleeping, awake := {}, {};
    }

    ghost method NotifyOne(wake: Option<Thread>)
      modifies this`sleeping, this`awake
      ensures State() == old(State()).NotifyOne(wake)
    {
      if wake.Some? {
        sleeping, awake := sleeping - {wake.value}, awake + {wake.value};
      }
    }

    method Notify(value: T, ghost wake: Option<Thread>)
      requires State().Enabled(Event.Notify(value, wake))
      modifies this
      ensures State() == old(State()).Next(Event.Notify(value, wake))
    {
      data := value;
      isSet := true;
      NotifyOne(wake);
    }

    /** `Wait` up to the point where the thread returns or goes to sleep. */
    method Wait(ghost t: Thread, ghost wake: Option<Thread>) returns (result: Option<T>)
      requires State().Enabled(Arrive(t, wake))
      modifies this
      ensures State() == old(State()).Next(Arrive(t, wake))
      ensures result.Some? <==> old(State()).Returns(Arrive(t, wake)) == Some((t, old(data)))
      ensures result.Some? ==> result.value == old(data)
    {
      if !isSet {
        sleeping := sleeping + {t};
        return None;
      }
      result := Some(data);
      NotifyOne(wake);
    }

    /** `Wait` from a wake-up to the point where the thread returns or goes back to sleep. */
    method WakeUp(ghost t: Thread, ghost wake: Option<Thread>) returns (result: Option<T>)
      requires State().Enabled(Resume(t, wake))
      modifies this
      ensures State() == old(State()).Next(Resume(t, wake))
      ensures result.Some? <==> old(State()).Returns(Resume(t, wake)) == Some((t, old(data)))
      ensures result.Some? ==> result.value == old(data)
    {
      awake := awake - {t};
      if !isSet {
        sleeping := sleeping + {t};
        return None;
      }
      result := Some(data);
      NotifyOne(wake);
    }

    method Clear(ghost wake: Option<Thread>)
      requires State().Enabled(Event.Clear(wake))
      modifies this
      ensures State() == old(State()).Next(Event.Clear(wake))
    {
      isSet := false;
      NotifyOne(wake);
    }
  }

  // ---- Whole runs ----

  function Run<T>(st: Lock<T>, events: seq<Event<T>>): Lock<T> {
    if events == [] then st else Run(st, events[..|events| - 1]).Next(events[|events| - 1])
  }

  ghost predicate Possible<T>(st: Lock<T>, events: seq<Event<T>>) {
    forall i | 0 <= i < |events| :: Run(st, events[..i]).Enabled(events[i])
  }

  /** The value of the last `Notify`, unless a `Clear` came after it. */
  function LastNotified<T>(st: Lock<T>, events: seq<Event<T>>): Option<T> {
    if events == [] then (if st.isSet then Some(st.data) else None) else
    match events[|events| - 1]
    case Notify(value, _) => Some(value)
    case Clear(_) => None
    case _ => LastNotified(st, events[..|events| - 1])
  }

  function Resumes<T>(events: seq<Event<T>>): nat {
    if events == [] then 0 else
    Resumes(events[..|events| - 1]) + if events[|events| - 1].Resume? then 1 else 0
  }

  lemma PossiblePrefix<T>(st: Lock<T>, events: seq<Event<T>>)
    requires Possible(st, events) && events != []
    ensures Possible(st, events[..|events| - 1])
    ensures Run(st, events[..|events| - 1]).Enabled(events[|events| - 1])
  {
    var front := events[..|events| - 1];
    forall i | 0 <= i < |front| ensures Run(st, front[..i]).Enabled(front[i]) {
      assert front[..i] == events[..i];
    }
  }

  lemma StepInv<T>(st: Lock<T>, event: Event<T>)
    requires st.Inv() && st.Enabled(event)
    ensures st.Next(event).Inv()
  {
  }

  lemma {:induction false} NoLostWakeup<T>(st: Lock<T>, events: seq<Event<T>>)
    requires st.Inv() && Possible(st, events)
    ensures Run(st, events).Inv()
  {
    if events != [] {
      PossiblePrefix(st, events);
      NoLostWakeup(st, events[..|events| - 1]);
      StepInv(Run(st, events[..|events| - 1]), events[|events| - 1]);
    }
  }

  /** The flag and the data are the last signal. */
  lemma {:induction false} FlagIsLastSignal<T>(st: Lock<T>, events: seq<Event<T>>)
    ensures LastNotified(st, events) == if Run(st, events).isSet then Some(Run(st, events).data) else None
  {
    if events != [] {
      FlagIsLastSignal(st, events[..|events| - 1]);
    }
  }

  /** `Wait` returns only while a signal is standing, and returns the last one. */
  lemma {:induction false} WaitReturnsLastSignal<T>(st: Lock<T>, events: seq<Event<T>>, event: Event<T>)
    requires event.Arrive? || event.Resume?
    ensures Run(st, events).Returns(event) ==
            if LastNotified(st, events).Some? then Some((event.t, LastNotified(st, events).value)) else None
  {
    FlagIsLastSignal(st, events);
  }

  lemma WakingDrains<T>(st: Lock<T>, wake: Option<Thread>)
    requires st.sleeping !! st.awake && st.MayWake(wake)
    ensures st.NotifyOne(wake).Measure() <= st.Measure()
    ensures st.NotifyOne(wake).sleeping + st.NotifyOne(wake).awake == st.sleeping + st.awake
  {
  }

  lemma StepDrains<T>(st: Lock<T>, event: Event<T>)
    requires st.Inv() && st.isSet && st.Enabled(event) && !event.Clear?
    ensures st.Next(event).isSet
    ensures st.Next(event).Measure() + (if event.Resume? then 1 else 0) <= st.Measure()
    ensures st.Next(event).sleeping + st.Next(event).awake <= st.sleeping + st.awake
  {
    match event
    case Notify(_, wake) => WakingDrains(st, wake);
    case Arrive(_, wake) => WakingDrains(st, wake);
    case Spurious(t) => WakingDrains(st, Some(t));
    case Resume(t, wake) => WakingDrains(st.(awake := st.awake - {t}), wake);
  }

  /**
   Once set and not cleared: no waiter is added, every wake-up brings the end nearer, and when nobody is
   left to wake up, nobody is asleep either.
   */
  lemma {:induction false} WaitersDrain<T>(st: Lock<T>, events: seq<Event<T>>)
    requires st.Inv() && st.isSet && Possible(st, events)
    requires forall i | 0 <= i < |events| :: !events[i].Clear?
    ensures Run(st, events).isSet && Run(st, events).Inv()
    ensures Run(st, events).sleeping + Run(st, events).awake <= st.sleeping + st.awake
    ensures Run(st, events).Measure() + Resumes(events) <= st.Measure()
    ensures Run(st, events).awake == {} ==> Run(st, events).sleeping == {}
  {
    if events != [] {
      var front := events[..|events| - 1];
      PossiblePrefix(st, events);
      WaitersDrain(st, front);
      StepInv(Run(st, front), events[|events| - 1]);
      StepDrains(Run(st, front), events[|events| - 1]);
    }
  }
}
