/**
 Sleeping over whole runs: nobody returns from sleep_self before its time, and
 nobody leaves WaitingTasks before it.
 */
module SchedSleep {
  import opened Sched
  import opened Wrappers
  import opened SchedInv
  import opened SchedLocal
  import opened SchedGroups
  import opened SchedRun
  import opened SchedFacts
  import opened SchedFrame
  import opened SchedTheorems

  // ----- the clock

  /** Ticks move the clock, and nothing else does. */
  lemma ClockGoes(s: State, e: Event)
    requires Step(s, e).Ok?
    ensures Step(s, e).s.micros == s.micros + if e.Tick? then MICROS_PER_TICK else 0
  {
    hide Exec, SwitchTask, WakeOldest, CodeOf, Calm, Mild;
    match e
    case Tick => TickClock(s);
    case Irq(c) => IrqClock(s, c);
    case Run(ch) =>
      if s.running.Some? && CodeAt(s.code, s.running.value).Then? {
        ExecClock(s, s.running.value, CodeAt(s.code, s.running.value).i, CodeAt(s.code, s.running.value).rest, ch);
      }
    case Call(op) =>
  }

  lemma TickClock(s: State)
    requires Step(s, Tick).Ok?
    ensures Calm(s.(micros := s.micros + MICROS_PER_TICK), Step(s, Tick).s)
    ensures Step(s, Tick).s.micros == s.micros + MICROS_PER_TICK
  {
    hide SwitchTask;
    SwitchCalm(s.(micros := s.micros + MICROS_PER_TICK));
  }

  lemma IrqClock(s: State, c: CvId)
    requires Step(s, Irq(c)).Ok?
    ensures Calm(s, Step(s, Irq(c)).s) && Step(s, Irq(c)).s.micros == s.micros
  {
    hide WakeOldest;
    WakeOldestCalm(s, CvQ(c), if s.running.Some? then s.running.value else 0);
  }

  lemma ExecClock(s: State, x: Tid, i: Instr, r: Code, ch: Choice)
    requires Exec(s, x, i, r, ch).Ok?
    ensures Exec(s, x, i, r, ch).s.micros == s.micros
  {
    hide Exec;
    ExecMild(s, x, i, r, ch);
  }

  // ----- inside sleep_self

  function Bed(w: nat): Code { Then(SleepIn(w), Done) }

  /** The task is in sleep_self, to wake up after w. */
  predicate Sleeping(c: Code, w: nat) {
    || c == Then(SleepTest(w), Done) || c == Then(Yield, Then(SleepTest(w), Done))
    || c == Then(Acquire(WT), Bed(w)) || c == Then(Park(WT), Bed(w)) || c == Then(Owner(WT), Bed(w))
    || c == Then(Yield, Then(Acquire(WT), Bed(w))) || c == Bed(w) || c == Then(SleepBlock(w), Done)
  }

  /** It goes on with it, or the time is over and it is done. */
  lemma SleepStep(s: State, x: Tid, w: nat, ch: Choice)
    requires Sleeping(CodeAt(s.code, x), w)
    ensures var c := CodeAt(s.code, x); var o := Exec(s, x, c.i, c.rest, ch);
      o.Ok? ==> Sleeping(CodeAt(o.s.code, x), w) || (CodeAt(o.s.code, x) == Done && w < s.micros)
  {
    hide Exec, CodeAt;
    var c := CodeAt(s.code, x);
    match c.i
    case Acquire(_) => AcquireCode(s, x, WT, c.rest, ch);
    case Owner(_) => OwnerCode(s, x, WT, c.rest, ch);
    case Park(_) => ParkCode(s, x, WT, c.rest, ch);
    case Yield => YieldCode(s, x, c.rest, ch);
    case SleepTest(_) => SleepEndsIff(s, x, w, c.rest, ch);
    case SleepIn(_) => SleepInBeds(s, x, w, c.rest, ch);
    case SleepBlock(_) => BlockBeds(s, x, w, c.rest, ch);
  }

  lemma AcquireCode(s: State, x: Tid, m: MutexId, r: Code, ch: Choice)
    ensures var o := Exec(s, x, Acquire(m), r, ch);
      o.Ok? ==> CodeAt(o.s.code, x) in {Then(Owner(m), r), Then(Park(m), r), Then(Yield, Then(Acquire(m), r))}
  {
    hide Go, CodeAt, SwitchTask, Block, PutAway, UnlockNow, Push, Wake, Extract, SwapOut, TakeSleepers;
    var h := HeldBy(s.held, x);
    GoCode(s.(locked := s.locked + {m}, held := s.held[x := h + {m}]), x, Then(Owner(m), r));
    GoCode(s, x, Then(Park(m), r));
    GoCode(s, x, Then(Yield, Then(Acquire(m), r)));
  }

  lemma GoCode(s: State, x: Tid, c: Code)
    ensures CodeAt(Go(s, x, c).code, x) == c
  {
  }

  lemma OwnerCode(s: State, x: Tid, m: MutexId, r: Code, ch: Choice)
    ensures var o := Exec(s, x, Owner(m), r, ch); o.Ok? && CodeAt(o.s.code, x) == r
  {
  }

  lemma ParkCode(s: State, x: Tid, m: MutexId, r: Code, ch: Choice)
    ensures var o := Exec(s, x, Park(m), r, ch); o.Ok? ==> CodeAt(o.s.code, x) == Then(Acquire(m), r)
  {
    hide SwitchTask, Push;
    var s1 := Go(s, x, Then(Acquire(m), r));
    if Block(s1, x, MutexQ(m)).Ok? {
      PushCalm(s1, MutexQ(m), x);
      var s2 := Push(s1, MutexQ(m), x).s;
      SwitchCalm(s2.(state := s2.state[x := BLOCKED]));
    }
  }

  lemma YieldCode(s: State, x: Tid, r: Code, ch: Choice)
    ensures var o := Exec(s, x, Yield, r, ch); o.Ok? ==> CodeAt(o.s.code, x) == r
  {
    hide SwitchTask;
    var s1 := Go(s, x, r);
    var s2 := if StateOf(s.state, x) == RUNNING then s1 else s1.(place := s.place[x := Nowhere]);
    if SwitchTask(s2).Ok? {
      SwitchCalm(s2);
    }
  }

  /** Its time is not yet over only if it is still in sleep_self. */
  ghost predicate SleepsUntil(s: State, x: Tid, w: nat) { Sleeping(CodeAt(s.code, x), w) || w < s.micros }

  lemma SleepsThrough(s: State, e: Event, x: Tid, w: nat)
    requires Inv(s) && Allowed(s, e) && Step(s, e).Ok? && SleepsUntil(s, x, w)
    ensures SleepsUntil(Step(s, e).s, x, w)
  {
    hide Inv, Allowed, Exec, SwitchTask, WakeOldest, CodeOf, Sleeping;
    ClockGoes(s, e);
    if s.running != Some(x) {
      OthersGoOn(s, e);
    } else {
      match e
      case Tick => TickClock(s);
      case Irq(c) => IrqClock(s, c);
      case Run(ch) =>
        if CodeAt(s.code, x).Then? && Sleeping(CodeAt(s.code, x), w) {
          SleepStep(s, x, w, ch);
        }
      case Call(op) => SleepingIs(CodeAt(s.code, x), w);
    }
  }

  lemma SleepingIs(c: Code, w: nat)
    ensures Sleeping(c, w) ==> c.Then?
  {
  }

  lemma {:induction false} SleepRuns(s: State, es: seq<Event>, s': State, x: Tid, w: nat)
    requires Inv(s) && SchedTheorems.Run(s, es, s') && SleepsUntil(s, x, w)
    ensures SleepsUntil(s', x, w)
    decreases |es|
  {
    hide Inv, Allowed, Step, SleepsUntil;
    if es != [] {
      StepKeeps(s, es[0]);
      SleepsThrough(s, es[0], x, w);
      SleepRuns(Step(s, es[0]).s, es[1..], s', x, w);
    }
  }

  /**
   A task that calls sleep_self for `diff` microseconds is done with that call
   in no later state before the clock is past that time.
   */
  lemma SleepsLongEnough(s: State, x: Tid, diff: nat, es: seq<Event>, s': State)
    requires Reachable(s) && s.running == Some(x) && CodeAt(s.code, x) == Done
    ensures Step(s, Call(Sleep(diff))).Ok?
    ensures SchedTheorems.Run(Step(s, Call(Sleep(diff))).s, es, s') && CodeAt(s'.code, x) == Done ==>
      s'.micros > s.micros + diff
  {
    hide Reachable, Inv, SchedTheorems.Run, Exec;
    ReachableInv(s);
    StepKeeps(s, Call(Sleep(diff)));
    var s1 := Step(s, Call(Sleep(diff))).s;
    if SchedTheorems.Run(s1, es, s') {
      SleepRuns(s1, es, s', x, s.micros + diff);
    }
  }

  /** The test lets it go if and only if the clock is past its time. */
  lemma SleepEndsIff(s: State, x: Tid, w: nat, r: Code, ch: Choice)
    ensures Exec(s, x, SleepTest(w), r, ch).Ok?
    ensures var c := CodeAt(Exec(s, x, SleepTest(w), r, ch).s.code, x);
      if s.micros > w then c == r else c == Then(Acquire(WT), Then(SleepIn(w), r))
  {
  }

  // ----- WaitingTasks

  /** Who is in WaitingTasks under w is about to block there, or will look at the clock against w when it goes on. */
  predicate Bedded(c: Code, w: nat) {
    && c.Then?
    && (c.i == SleepBlock(w) || c.i == SleepTest(w) || (c.i.Yield? && c.rest.Then? && c.rest.i == SleepTest(w)))
  }

  ghost predicate Beddings(s: State) { forall t: Tid :: t in s.asleep ==> Bedded(CodeAt(s.code, t), s.asleep[t]) }

  lemma ExecBeds(s: State, x: Tid, i: Instr, r: Code, ch: Choice)
    requires At(s, x, i, r) && Exec(s, x, i, r, ch).Ok? && (x in s.asleep ==> Bedded(Then(i, r), s.asleep[x]))
    ensures var s' := Exec(s, x, i, r, ch).s; x in s'.asleep ==> Bedded(CodeAt(s'.code, x), s'.asleep[x])
    ensures var s' := Exec(s, x, i, r, ch).s;
      forall t :: t in s'.asleep && t != x ==> t in s.asleep && s'.asleep[t] == s.asleep[t]
  {
    hide At, Exec, CodeAt;
    AsleepRuns(s, x, i, r);
    if i.SleepIn? {
      SleepInBeds(s, x, i.w, r, ch);
    } else if i.WakerScan? {
      ScanBeds(s, x, r, ch);
    } else {
      ExecAsleep(s, x, i, r, ch);
      if x in s.asleep && i.SleepBlock? {
        BlockBeds(s, x, i.w, r, ch);
      } else if x in s.asleep {
        YieldCode(s, x, r, ch);
      }
    }
  }

  lemma AsleepRuns(s: State, x: Tid, i: Instr, r: Code)
    requires At(s, x, i, r)
    ensures x in s.asleep ==> i.Yield? || i.SleepBlock?
  {
    hide Inv;
    Running(s, x, i, r);
  }

  lemma ExecAsleep(s: State, x: Tid, i: Instr, r: Code, ch: Choice)
    requires Exec(s, x, i, r, ch).Ok? && !i.SleepIn? && !i.WakerScan?
    ensures Exec(s, x, i, r, ch).s.asleep == s.asleep && Exec(s, x, i, r, ch).s.sleeping == s.sleeping
  {
    hide Exec;
    ExecMild(s, x, i, r, ch);
  }

  lemma SleepInBeds(s: State, x: Tid, w: nat, r: Code, ch: Choice)
    ensures var o := Exec(s, x, SleepIn(w), r, ch);
      o.Ok? && o.s.asleep == s.asleep[x := w] && CodeAt(o.s.code, x) == Then(SleepBlock(w), r)
  {
  }

  lemma BlockBeds(s: State, x: Tid, w: nat, r: Code, ch: Choice)
    ensures var o := Exec(s, x, SleepBlock(w), r, ch);
      o.Ok? ==> CodeAt(o.s.code, x) == Then(Yield, Then(SleepTest(w), r))
  {
    hide UnlockNow;
    var s1 := Go(s.(state := s.state[x := BLOCKED]), x, Then(Yield, Then(SleepTest(w), r)));
    if UnlockNow(s1, x, WT).Ok? {
      UnlockCalm(s1, x, WT);
    }
  }

  lemma ScanBeds(s: State, x: Tid, r: Code, ch: Choice)
    ensures var o := Exec(s, x, WakerScan, r, ch);
      o.Ok? && forall t :: t in o.s.asleep ==> t in s.asleep && o.s.asleep[t] == s.asleep[t]
  {
    hide Exec, TakeSleepers;
    ScanIs(s, x, r, ch);
    TakesUp(s, ch.w, x);
  }

  /** A look through WaitingTasks takes the sleepers of one wake-up time, if it is due, or nobody. */
  lemma ScanIs(s: State, x: Tid, r: Code, ch: Choice)
    ensures var o := Exec(s, x, WakerScan, r, ch);
      && o.Ok?
      && (o.s == s.(code := o.s.code) || (Due(s, ch.w) && o.s == TakeSleepers(s, ch.w, x).(code := o.s.code)))
  {
    hide TakeSleepers, Due, Rouses, Sleepers, StateOf, SwitchTask, Block, PutAway, UnlockNow, Push, Wake, Extract,
      SwapOut;
  }

  lemma TakesUp(s: State, w: nat, x: Tid)
    ensures var s' := TakeSleepers(s, w, x);
      && (forall t :: t in s'.asleep ==> t in s.asleep && s'.asleep[t] == s.asleep[t])
      && (forall t :: t in Sleepers(s.sleeping, w) ==> PlaceOf(s'.place, t) == Carried(x))
      && (forall v: nat :: v != w ==> Sleepers(s'.sleeping, v) == Sleepers(s.sleeping, v))
  {
  }

  lemma StepBeds(s: State, e: Event)
    requires Inv(s) && Allowed(s, e) && Step(s, e).Ok? && Beddings(s)
    ensures Beddings(Step(s, e).s)
  {
    hide Inv, Allowed, Exec, SwitchTask, WakeOldest, CodeOf, Beddings;
    match e
    case Tick =>
      TickClock(s);
      BedsSame(s, Step(s, e).s);
    case Irq(c) =>
      IrqClock(s, c);
      BedsSame(s, Step(s, e).s);
    case Run(ch) =>
      if s.running.Some? && CodeAt(s.code, s.running.value).Then? {
        RunBed(s, s.running.value, ch);
      }
    case Call(op) =>
      if s.running.Some? && CodeAt(s.code, s.running.value).Done? {
        CallBeds(s, s.running.value, op);
      }
  }

  lemma RunBed(s: State, x: Tid, ch: Choice)
    requires Inv(s) && Allowed(s, Event.Run(ch)) && s.running == Some(x) && CodeAt(s.code, x).Then? && Beddings(s)
    requires var c := CodeAt(s.code, x); Exec(s, x, c.i, c.rest, ch).Ok?
    ensures var c := CodeAt(s.code, x); Beddings(Exec(s, x, c.i, c.rest, ch).s)
  {
    hide Inv, Allowed, Exec, Bedded, CodeAt;
    var c := CodeAt(s.code, x);
    ExecBeds(s, x, c.i, c.rest, ch);
    OthersGoOn(s, Event.Run(ch));
  }

  /** The code of tasks that are not running does not change. */
  lemma OthersGoOn(s: State, e: Event)
    requires Inv(s) && Allowed(s, e) && Step(s, e).Ok?
    ensures forall u: Tid :: s.running != Some(u) ==> CodeAt(Step(s, e).s.code, u) == CodeAt(s.code, u)
  {
    hide Inv, Allowed, Step, Advances, Queueing, CodeAt;
    StepInOrder(s, e);
  }

  lemma BedsSame(s: State, s': State)
    requires Beddings(s) && s'.asleep == s.asleep && s'.code == s.code
    ensures Beddings(s')
  {
  }

  lemma CallBeds(s: State, x: Tid, op: Op)
    requires Beddings(s) && s.running == Some(x) && CodeAt(s.code, x).Done?
    ensures Step(s, Call(op)).Ok? && Beddings(Step(s, Call(op)).s)
  {
    hide CodeOf, Exec;
  }

  lemma {:induction false} RunBeds(s: State, es: seq<Event>, s': State)
    requires Inv(s) && Beddings(s) && SchedTheorems.Run(s, es, s')
    ensures Beddings(s')
    decreases |es|
  {
    hide Inv, Allowed, Step, Beddings;
    if es != [] {
      StepKeeps(s, es[0]);
      StepBeds(s, es[0]);
      RunBeds(Step(s, es[0]).s, es[1..], s');
    }
  }

  /** Whoever lies in WaitingTasks under w goes on, once it does, with the test against w. */
  lemma SleeperKnowsItsTime(s: State, t: Tid, w: nat)
    requires Reachable(s) && t in Sleepers(s.sleeping, w)
    ensures Bedded(CodeAt(s.code, t), w)
  {
    hide Inv, SchedTheorems.Run, Bedded;
    ReachableInv(s);
    var q: seq<Tid>, micros: nat, es: seq<Event> :| Unique(q) && SchedTheorems.Run(Booted(q, micros), es, s);
    BootedInv(q, micros);
    RunBeds(Booted(q, micros), es, s);
    InBed(s, t, w);
  }

  lemma InBed(s: State, t: Tid, w: nat)
    requires Inv(s) && t in Sleepers(s.sleeping, w)
    ensures t in s.asleep && s.asleep[t] == w
  {
    hide Lists, Nodes, Graves, Burials, Exclusive, Mutexes, Cargos, Fits, Families, Stands;
  }

  /**
   A task leaves WaitingTasks only by the hand of a waker that looks through
   it, not before its wake-up time, and before anyone with a later one.
   */
  lemma LeavesBedInTime(s: State, e: Event, t: Tid, w: nat)
    requires Inv(s) && Step(s, e).Ok?
    requires t in Sleepers(s.sleeping, w) && t !in Sleepers(Step(s, e).s.sleeping, w)
    ensures w <= s.micros && forall v :: v in s.sleeping ==> w <= v
    ensures e.Run? && s.running.Some? && Head(CodeAt(s.code, s.running.value)) == WakerScan
    ensures PlaceOf(Step(s, e).s.place, t) == Carried(s.running.value)
  {
    hide Inv, Exec, SwitchTask, WakeOldest, CodeOf;
    match e
    case Tick => TickClock(s);
    case Irq(c) => IrqClock(s, c);
    case Run(ch) =>
      if s.running.Some? && CodeAt(s.code, s.running.value).Then? {
        var x := s.running.value;
        ExecLeaves(s, x, CodeAt(s.code, x).i, CodeAt(s.code, x).rest, ch, t, w);
      }
    case Call(op) =>
  }

  lemma ExecLeaves(s: State, x: Tid, i: Instr, r: Code, ch: Choice, t: Tid, w: nat)
    requires Exec(s, x, i, r, ch).Ok?
    requires t in Sleepers(s.sleeping, w) && t !in Sleepers(Exec(s, x, i, r, ch).s.sleeping, w)
    ensures i.WakerScan? && Due(s, w) && PlaceOf(Exec(s, x, i, r, ch).s.place, t) == Carried(x)
  {
    hide Exec;
    if i.SleepIn? {
      JoinsBed(s, x, i.w, r, ch, t, w);
    } else if i.WakerScan? {
      ScanLeaves(s, x, r, ch, t, w);
    } else {
      ExecAsleep(s, x, i, r, ch);
    }
  }

  lemma JoinsBed(s: State, x: Tid, v: nat, r: Code, ch: Choice, t: Tid, w: nat)
    requires t in Sleepers(s.sleeping, w)
    ensures var o := Exec(s, x, SleepIn(v), r, ch); o.Ok? && t in Sleepers(o.s.sleeping, w)
  {
  }

  lemma ScanLeaves(s: State, x: Tid, r: Code, ch: Choice, t: Tid, w: nat)
    requires t in Sleepers(s.sleeping, w)
    ensures var o := Exec(s, x, WakerScan, r, ch);
      o.Ok? && (t in Sleepers(o.s.sleeping, w) || (w == ch.w && Due(s, w) && PlaceOf(o.s.place, t) == Carried(x)))
  {
    hide Exec, TakeSleepers, Sleepers, Due, PlaceOf;
    ScanIs(s, x, r, ch);
    TakesUp(s, ch.w, x);
  }

  /** And when the waker looks, and somebody's time has come, the earliest get up: each is in its hands to be roused. */
  lemma WakerTakesEarliest(s: State, x: Tid, r: Code, ch: Choice, v: nat)
    requires At(s, x, WakerScan, r) && Honest(s, x, WakerScan, ch) && v in s.sleeping && v <= s.micros
    ensures Due(s, ch.w) && ch.w <= v
    ensures var o := Exec(s, x, WakerScan, r, ch);
      && o.Ok? && o.s.sleeping == s.sleeping - {ch.w}
      && forall t :: t in Sleepers(s.sleeping, ch.w) ==>
        PlaceOf(o.s.place, t) == Carried(x) && Has(CodeAt(o.s.code, x), Rouse(t))
  {
    hide Inv;
    var w := Earliest(s, v);
    assert Due(s, w);
    var ts := Sleepers(s.sleeping, ch.w);
    forall t | t in ts ensures StateOf(s.state, t) != RUNNING {
      NoneAwake(s, x, r, ch.w, t);
    }
    var k := Then(Acquire(WT), Then(WakerScan, r));
    forall t | t in ts ensures Has(Then(Disown(WT), Rouses(ts, k)), Rouse(t)) {
      RousesHas(ts, k, t);
    }
  }

  lemma {:induction false} RousesHas(ts: seq<Tid>, k: Code, t: Tid)
    requires t in ts
    ensures Has(Rouses(ts, k), Rouse(t))
    decreases |ts|
  {
    if t != ts[0] {
      RousesHas(ts[1..], k, t);
    }
  }

  lemma Earliest(s: State, v: nat) returns (w: nat)
    requires v in s.sleeping
    ensures w in s.sleeping && w <= v && forall u :: u in s.sleeping ==> w <= u
  {
    w := v;
    while exists u :: u in s.sleeping && u < w
      invariant w in s.sleeping && w <= v
      decreases w
    {
      var u: nat :| u in s.sleeping && u < w;
      w := u;
    }
  }
}
