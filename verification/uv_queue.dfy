/**
 The queue that hands events to the JavaScript thread
 (frameworks/jskitsimpl/src/common/uv_queue.cpp).

 Any thread may submit; the critical section that appends an argument and the later
 `uv_queue_work` are separate steps, and the drain runs on the loop thread.
 */
module UvQueues {

  /** The callback functions under which arguments are collected. */
  datatype Process = ProcessChange | ProcessStatus

  /**
   `args` is the real state; `submitted` and `handed` record, per process function, every argument
   accepted and every argument handed over so far.
   */
  datatype Queue<A> = Queue(
    args: map<Process, seq<A>>,
    works: nat,      // work items that the loop has still to run
    inFlight: nat,   // submitters between the critical section and `uv_queue_work`
    submitted: map<Process, seq<A>>,
    handed: map<Process, seq<A>>)
  {
    function Append(process: Process, argv: A): Queue<A> {
      this.(args := args[process := At(args, process) + [argv]],
            submitted := submitted[process := At(submitted, process) + [argv]],
            inFlight := inFlight + 1)
    }

    function QueueWork(): Queue<A>
      requires inFlight > 0
    {
      this.(inFlight := inFlight - 1, works := works + 1)
    }

    function Drain(): Queue<A>
      requires works > 0
    {
      this.(args := map[], works := works - 1,
            handed := map p | p in handed.Keys + args.Keys :: At(handed, p) + At(args, p))
    }

    /** Nothing is lost, duplicated or reordered, and pending arguments have somebody to drain them. */
    ghost predicate Conserved() {
      && (forall p: Process :: At(submitted, p) == At(handed, p) + At(args, p))
      && (args != map[] ==> works + inFlight > 0)
    }
  }

  function At<A>(m: map<Process, seq<A>>, p: Process): seq<A> {
    if p in m then m[p] else []
  }

  datatype Step<A> = Append(process: Process, argv: A) | QueueWork | Drain

  ghost predicate Enabled<A>(q: Queue<A>, step: Step<A>) {
    match step
    case Append(_, _) => true
    case QueueWork => q.inFlight > 0
    case Drain => q.works > 0
  }

  function Apply<A>(q: Queue<A>, step: Step<A>): Queue<A>
    requires Enabled(q, step)
  {
    match step
    case Append(process, argv) => q.Append(process, argv)
    case QueueWork => q.QueueWork()
    case Drain => q.Drain()
  }

  ghost predicate Run<A>(q: Queue<A>, steps: seq<Step<A>>, q': Queue<A>)
    decreases |steps|
  {
    if steps == [] then q == q' else
    Enabled(q, steps[0]) && Run(Apply(q, steps[0]), steps[1..], q')
  }

  lemma StepConserves<A>(q: Queue<A>, step: Step<A>)
    requires q.Conserved() && Enabled(q, step)
    ensures Apply(q, step).Conserved()
  {
  }

  /**
   In every interleaving of submitters and drains, what has been handed over and what is pending is
   what has been submitted, in order; once all work has run nothing is pending.
   */
  lemma {:induction false} RunConserves<A>(q: Queue<A>, steps: seq<Step<A>>, q': Queue<A>)
    requires q.Conserved() && Run(q, steps, q')
    ensures q'.Conserved()
    ensures q'.works == 0 && q'.inFlight == 0 ==> forall p: Process :: At(q'.handed, p) == At(q'.submitted, p)
    decreases |steps|
  {
    if steps != [] {
      StepConserves(q, steps[0]);
      RunConserves(Apply(q, steps[0]), steps[1..], q');
    } else {
      forall p: Process ensures q'.args == map[] ==> At(q'.handed, p) == At(q'.submitted, p) {
        assert At(q'.submitted, p) == At(q'.handed, p) + At(q'.args, p);
      }
    }
  }

  function Appends<A>(steps: seq<Step<A>>): nat {
    if steps == [] then 0 else (if steps[0].Append? then 1 else 0) + Appends(steps[1..])
  }

  function Drains<A>(steps: seq<Step<A>>): nat {
    if steps == [] then 0 else (if steps[0].Drain? then 1 else 0) + Drains(steps[1..])
  }

  /** Every accepted argument brings one work item, and every drain uses up one, however much it hands over. */
  lemma {:induction false} WorksAreCounted<A>(q: Queue<A>, steps: seq<Step<A>>, q': Queue<A>)
    requires Run(q, steps, q')
    ensures q'.works + q'.inFlight + Drains(steps) == q.works + q.inFlight + Appends(steps)
    decreases |steps|
  {
    if steps != [] {
      WorksAreCounted(Apply(q, steps[0]), steps[1..], q');
    }
  }

  class UvQueue<A> {
    var args: map<Process, seq<A>>
    var works: nat
    ghost var inFlight: nat
    ghost var submitted: map<Process, seq<A>>
    ghost var handed: map<Process, seq<A>>

    ghost function State(): Queue<A>
      reads this
    {
      Queue(args, works, inFlight, submitted, handed)
    }

    constructor ()
      ensures State() == Queue(map[], 0, 0, map[], map[]) && State().Conserved()
    {
      args, works, inFlight, submitted, handed := map[], 0, 0, map[], map[];
    }

    /** The critical section of `CallFunction`. */
    method AppendArgument(process: Process, argv: A)
      modifies this
      ensures State() == old(State()).Append(process, argv)
    {
      if process in args {
        var newData := args[process];
        newData := newData + [argv];
        args := args[process := newData];
      } else {
        args := args[process := [argv]];
        assert [argv] == [] + [argv];
      }
      submitted := submitted[process := At(submitted, process) + [argv]];
      inFlight := inFlight + 1;
    }

    /** A whole call: without memory for the work item the argument is dropped. */
    method CallFunction(process: Process, argv: A, workOk: bool)
      modifies this
      ensures State() == if workOk then old(State()).Append(process, argv).QueueWork() else old(State())
      ensures old(State()).Conserved() ==> State().Conserved()
    {
      if !workOk {
        return;
      }
      if State().Conserved() {
        StepConserves(State(), Append(process, argv));
        StepConserves(State().Append(process, argv), QueueWork);
      }
      AppendArgument(process, argv);
      works, inFlight := works + 1, inFlight - 1;
    }

    /** The work callback: every process function takes its whole list, then the map is emptied. */
    method RunWork() returns (batches: map<Process, seq<A>>)
      requires works > 0
      modifies this
      ensures State() == old(State()).Drain() && batches == old(args)
    {
      batches := map[];
      var todo := args.Keys;
      ghost var done := handed;
      while todo != {}
        invariant args == old(args) && works == old(works) && inFlight == old(inFlight) && submitted == old(submitted)
        invariant handed == old(handed) && todo <= args.Keys && batches == args - todo
        decreases todo
      {
        var item :| item in todo;
        batches := batches[item := args[item]];
        todo := todo - {item};
      }
      handed := map p | p in handed.Keys + args.Keys :: At(handed, p) + At(args, p);
      args, works := map[], works - 1;
    }
  }
}
