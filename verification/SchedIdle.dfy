/**
 There is always a task to run: the kernel starts one that only ever yields.
 */
module SchedIdle {
  import opened Sched
  import opened Wrappers
  import opened SchedInv
  import opened SchedRun
  import opened SchedFrame
  import opened SchedEffects
  import opened SchedTheorems

  /** A tick never runs out of tasks while the task it interrupts goes on running. */
  lemma TickFindsRunner(s: State, x: Tid)
    requires Reachable(s) && s.running == Some(x) && StateOf(s.state, x) == RUNNING
    ensures Step(s, Tick).Ok?
  {
    hide Reachable, SwitchTask, NobodyLeft;
    NeverFails(s, Tick);
    var s1 := s.(micros := s.micros + MICROS_PER_TICK);
    RunsOutIff(s1, x);
    StillRunning(s1, x);
  }

  lemma StillRunning(s: State, x: Tid)
    requires StateOf(s.state, x) == RUNNING
    ensures !NobodyLeft(s, x)
  {
  }

  // ----- the task that only yields

  /** Task d is ready or on the processor, does nothing but yield, and is in nobody's bed. */
  ghost predicate Steady(s: State, d: Tid) {
    && (d in Queue(s.lists, Ready) || s.running == Some(d)) && d !in s.asleep
    && (CodeAt(s.code, d) == Done || CodeAt(s.code, d) == Then(Yield, Done))
  }

  /** If task d asks for anything, it asks to yield. */
  predicate OnlyYields(s: State, e: Event, d: Tid) { e.Call? && s.running == Some(d) ==> e.op.GiveWay? }

  /** On the processor such a task is running. */
  lemma SteadyRuns(s: State, d: Tid)
    requires Inv(s) && Steady(s, d) && s.running == Some(d)
    ensures StateOf(s.state, d) == RUNNING
  {
    hide Lists, Nodes, Beds, Graves, Burials, Exclusive, Mutexes, Cargos, Fits, Families, Legal, Dying, Awaits;
    assert TaskOk(Of(s, d));
  }

  /** With such a task around no step runs out of tasks. */
  lemma SteadyFinds(s: State, e: Event, d: Tid)
    requires Inv(s) && Allowed(s, e) && Steady(s, d)
    ensures Step(s, e).Ok?
  {
    hide Inv, Exec, SwitchTask, WakeOldest, CodeOf, MayCall, NobodyLeft;
    StepKeeps(s, e);
    match e
    case Tick => TickFinds(s, d);
    case Irq(c) => WakeOldestIs(s, CvQ(c), if s.running.Some? then s.running.value else 0);
    case Run(ch) =>
      if s.running.Some? && CodeAt(s.code, s.running.value).Then? {
        ExecFinds(s, CodeAt(s.code, s.running.value), ch, d);
      }
    case Call(op) =>
  }

  lemma TickFinds(s: State, d: Tid)
    requires Inv(s) && Steady(s, d)
    ensures !Step(s, Tick).Idle?
  {
    hide Inv, SwitchTask, NobodyLeft;
    var s1 := s.(micros := s.micros + MICROS_PER_TICK);
    SwitchIs(s1);
    if s.running == Some(d) {
      SteadyRuns(s, d);
      RunsOutIff(s1, d);
      StillRunning(s1, d);
    }
  }

  lemma ExecFinds(s: State, c: Code, ch: Choice, d: Tid)
    requires Inv(s) && Steady(s, d) && s.running.Some? && c.Then? && c == CodeAt(s.code, s.running.value)
    ensures !Exec(s, s.running.value, c.i, c.rest, ch).Idle?
  {
    hide Inv, Exec, NobodyLeft;
    var x := s.running.value;
    if !Switches(c.i) {
      StayingIs(s, x, c.i, c.rest, ch);
    } else {
      SwitchingIs(s, x, c.i, c.rest, ch);
      if x == d {
        SteadyRuns(s, d);
        YieldFinds(s, d, ch);
      }
    }
  }

  lemma YieldFinds(s: State, d: Tid, ch: Choice)
    requires s.running == Some(d) && StateOf(s.state, d) == RUNNING
    ensures !Exec(s, d, Yield, Done, ch).Idle?
  {
    hide SwitchTask, NobodyLeft;
    RunsOutIff(Go(s, d, Done), d);
    StillRunning(Go(s, d, Done), d);
  }

  /** Nobody goes to bed but by its own code. */
  lemma BedsKept(s: State, e: Event, d: Tid)
    requires Step(s, e).Ok? && Steady(s, d)
    ensures d !in Step(s, e).s.asleep
  {
    hide Exec, SwitchTask, WakeOldest, CodeOf;
    match e
    case Tick => SwitchIs(s.(micros := s.micros + MICROS_PER_TICK));
    case Irq(c) => WakeOldestIs(s, CvQ(c), if s.running.Some? then s.running.value else 0);
    case Run(ch) =>
      if s.running.Some? && CodeAt(s.code, s.running.value).Then? {
        var x, c := s.running.value, CodeAt(s.code, s.running.value);
        if Switches(c.i) {
          SwitchingIs(s, x, c.i, c.rest, ch);
        } else {
          StayingIs(s, x, c.i, c.rest, ch);
        }
      }
    case Call(op) =>
  }

  /** What the task's own code is after a step. */
  lemma SteadyCode(s: State, e: Event, d: Tid)
    requires Inv(s) && Allowed(s, e) && Step(s, e).Ok? && Steady(s, d) && OnlyYields(s, e, d)
    ensures var c := CodeAt(Step(s, e).s.code, d); c == Done || c == Then(Yield, Done)
  {
    hide Inv, Allowed, SwitchTask, WakeOldest, Queueing, Advances;
    StepInOrder(s, e);
    if s.running == Some(d) {
      match e
      case Tick => TickInOrder(s);
      case Irq(c) => IrqInOrder(s, c, d);
      case Run(ch) =>
        if CodeAt(s.code, d).Then? {
          SteadyRuns(s, d);
          var more := SwitchEffect(Go(s, d, Done));
        }
      case Call(op) =>
    }
  }

  /** It stays ready or on the processor. */
  lemma SteadyPlace(s: State, e: Event, d: Tid)
    requires Inv(s) && Allowed(s, e) && Step(s, e).Ok? && Steady(s, d) && OnlyYields(s, e, d)
    ensures var s' := Step(s, e).s; d in Queue(s'.lists, Ready) || s'.running == Some(d)
  {
    hide Inv, Allowed, Queue, SwitchTask, WakeOldest, Exec, CodeOf;
    StepInOrder(s, e);
    var s' := Step(s, e).s;
    if d in Queue(s.lists, Ready) {
      AdvancesKeeps(s, s', d);
    } else {
      SteadyRuns(s, d);
      match e
      case Tick => Requeues(s.(micros := s.micros + MICROS_PER_TICK), d);
      case Irq(c) => WakeOldestEffect(s, CvQ(c), d);
      case Run(ch) =>
        if CodeAt(s.code, d).Then? {
          YieldRequeues(s, d, ch);
        }
      case Call(op) =>
    }
  }

  lemma AdvancesKeeps(s: State, s': State, d: Tid)
    requires Advances(s, s') && d in Queue(s.lists, Ready)
    ensures d in Queue(s'.lists, Ready) || s'.running == Some(d)
  {
    hide Queue;
    if !Grows(s, s') {
      var more: seq<Tid> :| Dispatched(s, s', more);
      var q := Queue(s.lists, Ready) + more;
      assert d in q && (d == q[0] || d in q[1..]);
    }
  }

  /** A switch puts a running task back in the ready queue, or runs it again. */
  lemma Requeues(s: State, d: Tid)
    requires SwitchTask(s).Ok? && s.running == Some(d) && StateOf(s.state, d) == RUNNING
    ensures var s' := SwitchTask(s).s; d in Queue(s'.lists, Ready) || s'.running == Some(d)
  {
    hide Kick, Requeue, Dispatch, Queue, StateOf;
    var s1 := Kick(s, d).s;
    var s2 := Requeue(s1).s;
    KickEffect(s, d);
    KickState(s, d);
    RequeueEffect(s1);
    DispatchEffect(s2);
    var q := Queue(s2.lists, Ready);
    RequeuedIs(s1, d);
    assert q == Queue(s1.lists, Ready) + [d] && q[|q| - 1] == d && q + [] == q;
    assert d in q && (d == q[0] || d in q[1..]);
  }

  lemma KickState(s: State, d: Tid)
    requires Kick(s, d).Ok? && StateOf(s.state, d) == RUNNING
    ensures StateOf(Kick(s, d).s.state, d) == RUNNING
  {
  }

  lemma YieldRequeues(s: State, d: Tid, ch: Choice)
    requires s.running == Some(d) && StateOf(s.state, d) == RUNNING && Exec(s, d, Yield, Done, ch).Ok?
    ensures var s' := Exec(s, d, Yield, Done, ch).s; d in Queue(s'.lists, Ready) || s'.running == Some(d)
  {
    hide SwitchTask;
    Requeues(Go(s, d, Done), d);
  }

  /** Whatever happens, the step finds a task to run and the yielding task goes on as before. */
  lemma SteadyKeeps(s: State, e: Event, d: Tid)
    requires Inv(s) && Allowed(s, e) && Steady(s, d) && OnlyYields(s, e, d)
    ensures Step(s, e).Ok? && Inv(Step(s, e).s) && Steady(Step(s, e).s, d)
  {
    hide Inv, Step, Allowed;
    StepKeeps(s, e);
    SteadyFinds(s, e, d);
    SteadyCode(s, e, d);
    SteadyPlace(s, e, d);
    BedsKept(s, e, d);
  }

  /** A run in which task d only ever yields. */
  ghost predicate YieldRun(s: State, es: seq<Event>, s': State, d: Tid)
    decreases |es|
  {
    if es == [] then s' == s
    else
      && Allowed(s, es[0]) && OnlyYields(s, es[0], d) && Step(s, es[0]).Ok?
      && YieldRun(Step(s, es[0]).s, es[1..], s', d)
  }

  lemma {:induction false} YieldRunKeeps(s: State, es: seq<Event>, s': State, d: Tid)
    requires Inv(s) && Steady(s, d) && YieldRun(s, es, s', d)
    ensures Inv(s') && Steady(s', d)
    decreases |es|
  {
    hide Inv, Step, Allowed, Steady;
    if es != [] {
      SteadyKeeps(s, es[0], d);
      YieldRunKeeps(Step(s, es[0]).s, es[1..], s', d);
    }
  }

  /**
   From a boot that starts a task which only yields, as the kernel's dummy
   does, no assertion of the scheduler, the mutexes or the lists fires in any
   interleaving, and there is always a task to run.
   */
  lemma NoAssertionFires(q: seq<Tid>, micros: nat, d: Tid, es: seq<Event>, s: State, e: Event)
    requires Unique(q) && d in q && YieldRun(Booted(q, micros), es, s, d)
    requires Allowed(s, e)
    ensures Step(s, e).Ok?
  {
    hide Inv, Step, Allowed, Booted;
    BootedInv(q, micros);
    BootedSteady(q, micros, d);
    YieldRunKeeps(Booted(q, micros), es, s, d);
    SteadyFinds(s, e, d);
  }

  lemma BootedSteady(q: seq<Tid>, micros: nat, d: Tid)
    requires d in q
    ensures Steady(Booted(q, micros), d)
  {
  }
}
