/**
 What the scheduler guarantees over whole runs.
 */
module SchedTheorems {
  import opened Sched
  import opened Wrappers
  import opened SchedInv
  import opened SchedMoves
  import opened SchedLocal
  import opened SchedNodes
  import opened SchedLives
  import opened SchedSwitch
  import opened SchedGroups
  import opened SchedRun
  import opened SchedFrame

  // ----- runs

  /** After boot: some kernel tasks have been started, in some order, none has run, and the clock is anywhere. */
  ghost function Booted(q: seq<Tid>, micros: nat): State {
    var all := set t | t in q;
    State(
      map t | t in q :: RUNNING, map[], all, {}, map[], map[], all,
      map t | t in q :: In(Ready), map[], map t | t in q :: Alive, map[], {},
      None, map[Ready := q], [], {}, map[], map[], [], micros, 0, 0, [])
  }

  lemma BootedInv(q: seq<Tid>, micros: nat)
    requires Unique(q)
    ensures Inv(Booted(q, micros))
  {
    hide Lists, Nodes, Legal, Unique;
    var s := Booted(q, micros);
    BootedLists(q, micros);
    UniqueNone();
    forall t: Tid ensures TaskOk(Of(s, t)) {
      UnfoldDone({}, FactsOf(s), t);
    }
  }

  lemma BootedLists(q: seq<Tid>, micros: nat)
    requires Unique(q)
    ensures var s := Booted(q, micros);
      Lists(s.lists, s.place, |s.drainers|) && Nodes(s.place, s.linked, s.slots, s.running)
  {
    hide Unique;
    var s := Booted(q, micros);
    UniqueNone();
    assert forall t: Tid :: PlaceOf(s.place, t) == if t in q then In(Ready) else Nowhere;
    assert forall l: ListId :: Queue(s.lists, l) == if l == Ready then q else [];
  }

  /** A run in which tasks keep to what they may do. */
  ghost predicate Run(s: State, es: seq<Event>, s': State)
    decreases |es|
  {
    if es == [] then s' == s
    else Allowed(s, es[0]) && Step(s, es[0]).Ok? && Run(Step(s, es[0]).s, es[1..], s')
  }

  lemma {:induction false} RunKeeps(s: State, es: seq<Event>, s': State)
    requires Inv(s) && Run(s, es, s')
    ensures Inv(s')
    decreases |es|
  {
    hide Inv, Step, Allowed;
    if es != [] {
      StepKeeps(s, es[0]);
      RunKeeps(Step(s, es[0]).s, es[1..], s');
    }
  }

  /** A state some run from boot leads to. */
  ghost predicate Reachable(s: State) {
    exists q: seq<Tid>, micros: nat, es: seq<Event> :: Unique(q) && Run(Booted(q, micros), es, s)
  }

  lemma ReachableInv(s: State)
    requires Reachable(s)
    ensures Inv(s)
  {
    hide Inv, Run, Booted;
    var q: seq<Tid>, micros: nat, es: seq<Event> :| Unique(q) && Run(Booted(q, micros), es, s);
    BootedInv(q, micros);
    RunKeeps(Booted(q, micros), es, s);
  }

  lemma {:induction false} RunMore(s: State, es: seq<Event>, s1: State, e: Event)
    requires Run(s, es, s1) && Allowed(s1, e) && Step(s1, e).Ok?
    ensures Run(s, es + [e], Step(s1, e).s)
    decreases |es|
  {
    hide Step, Allowed;
    if es == [] {
      assert [e][1..] == [];
    } else {
      RunMore(Step(s, es[0]).s, es[1..], s1, e);
      assert (es + [e])[1..] == es[1..] + [e];
    }
  }

  lemma ReachableStep(s: State, e: Event)
    requires Reachable(s) && Allowed(s, e) && Step(s, e).Ok?
    ensures Reachable(Step(s, e).s)
  {
    hide Step, Allowed, Run, Booted;
    var q: seq<Tid>, micros: nat, es: seq<Event> :| Unique(q) && Run(Booted(q, micros), es, s);
    RunMore(Booted(q, micros), es, s, e);
  }

  lemma JustBooted(q: seq<Tid>, micros: nat)
    requires Unique(q)
    ensures Reachable(Booted(q, micros))
  {
    hide Booted;
    assert Run(Booted(q, micros), [], Booted(q, micros));
  }

  /** However a kernel boots, in every interleaving no assertion fires but that a task must be left to run. */
  lemma NeverFails(s: State, e: Event)
    requires Reachable(s) && Allowed(s, e)
    ensures !Step(s, e).Fail?
  {
    hide Inv, Step, Allowed, Reachable;
    ReachableInv(s);
    StepKeeps(s, e);
  }

  // ----- waitpid of a stranger

  /** Of the tasks started at boot any two, x and y: x can come to look for y, which is not its child. */
  lemma StrangerReached(x: Tid, y: Tid, micros: nat) returns (s: State)
    requires x != y
    ensures Reachable(s) && At(s, x, WaitCheck(y), Done) && !OwnChild(s, x, WaitCheck(y))
  {
    hide Reachable, Booted, Inv, Step, Allowed;
    var s0 := Booted([x, y], micros);
    assert Unique([x, y]);
    JustBooted([x, y], micros);
    FirstTick(x, y, micros);
    var s1 := Step(s0, Tick).s;
    ReachableStep(s0, Tick);
    LooksFor(s1, x, y);
    var s2 := Go(s1, x, CodeOf(s1, x, WaitPid(y)));
    ReachableStep(s1, Call(WaitPid(y)));
    TakesLock(s2, x, y);
    var s3 := Step(s2, Event.Run(ANY)).s;
    ReachableStep(s2, Event.Run(ANY));
    OwnsLock(s3, x, y);
    s := Step(s3, Event.Run(ANY)).s;
    ReachableStep(s3, Event.Run(ANY));
    ReachableInv(s);
  }

  const ANY := Choice(false, 0, 0)

  ghost predicate Stranger(s: State, x: Tid, y: Tid) {
    s.running == Some(x) && y in s.registered && NumberOf(s.parent, y) == -1
  }

  lemma FirstTick(x: Tid, y: Tid, micros: nat)
    requires x != y
    ensures var o := Step(Booted([x, y], micros), Tick);
      && Allowed(Booted([x, y], micros), Tick) && o.Ok? && Stranger(o.s, x, y)
      && CodeAt(o.s.code, x) == Done && AT !in o.s.locked
  {
    hide Step, Exec, CodeOf, Honest, MayCall;
    var s := Booted([x, y], micros);
    FirstDispatch(s, x);
  }

  lemma FirstDispatch(s: State, x: Tid)
    requires s.running.None? && Queue(s.lists, CvQ(WAKE_CV)) == []
    requires Queue(s.lists, Ready) != [] && Queue(s.lists, Ready)[0] == x && StateOf(s.state, x) == RUNNING
    ensures var o := Step(s, Tick);
      && o.Ok? && o.s.running == Some(x) && o.s.code == s.code && o.s.registered == s.registered
      && o.s.parent == s.parent && o.s.locked == s.locked
  {
    hide Exec, CodeOf, Kick, Requeue, Dispatch;
    var s1 := s.(micros := s.micros + MICROS_PER_TICK);
    var s2 := NobodyKicked(s1);
    NobodyRequeued(s2);
    HeadDispatched(s2, x);
  }

  lemma NobodyKicked(s: State) returns (s': State)
    requires Queue(s.lists, CvQ(WAKE_CV)) == []
    ensures Kick(s, 0) == Ok(s') && s' == s.(lastWake := s'.lastWake)
  {
    s' := if s.micros - s.lastWake > WAKEUP_PERIOD then s.(lastWake := s.micros) else s;
  }

  lemma NobodyRequeued(s: State)
    requires s.running.None?
    ensures Requeue(s) == Ok(s)
  {
  }

  lemma HeadDispatched(s: State, x: Tid)
    requires Queue(s.lists, Ready) != [] && Queue(s.lists, Ready)[0] == x && StateOf(s.state, x) == RUNNING
    ensures var o := Dispatch(s);
      && o.Ok? && o.s.running == Some(x) && o.s.code == s.code && o.s.registered == s.registered
      && o.s.parent == s.parent && o.s.locked == s.locked
  {
  }

  lemma LooksFor(s: State, x: Tid, y: Tid)
    requires Stranger(s, x, y) && CodeAt(s.code, x) == Done && AT !in s.locked
    ensures var s' := Go(s, x, CodeOf(s, x, WaitPid(y)));
      && Allowed(s, Call(WaitPid(y))) && Step(s, Call(WaitPid(y))) == Ok(s') && Stranger(s', x, y) && AT !in s'.locked
      && CodeAt(s'.code, x) == Then(Acquire(AT), Then(WaitCheck(y), Done))
  {
  }

  lemma TakesLock(s: State, x: Tid, y: Tid)
    requires Stranger(s, x, y) && CodeAt(s.code, x) == Then(Acquire(AT), Then(WaitCheck(y), Done)) && AT !in s.locked
    ensures var o := Step(s, Event.Run(ANY));
      Allowed(s, Event.Run(ANY)) && o.Ok? && Stranger(o.s, x, y)
      && CodeAt(o.s.code, x) == Then(Owner(AT), Then(WaitCheck(y), Done))
  {
  }

  lemma OwnsLock(s: State, x: Tid, y: Tid)
    requires Stranger(s, x, y) && CodeAt(s.code, x) == Then(Owner(AT), Then(WaitCheck(y), Done))
    ensures var o := Step(s, Event.Run(ANY));
      Allowed(s, Event.Run(ANY)) && o.Ok? && Stranger(o.s, x, y) && CodeAt(o.s.code, x) == Then(WaitCheck(y), Done)
  {
  }

  // ----- where a node can be

  /** A node is in at most one list, once; it says so itself; and whoever is in the ready queue is running. */
  lemma OneListAtMost(s: State, t: Tid, l: ListId, l': ListId)
    requires Reachable(s) && t in Queue(s.lists, l)
    ensures t in Queue(s.lists, l') ==> l == l'
    ensures multiset(Queue(s.lists, l))[t] == 1 && t in s.linked
    ensures l == Ready ==> StateOf(s.state, t) == RUNNING
  {
    hide Reachable, Beds, Graves, Burials, Exclusive, Mutexes, Cargos, Fits, Families, Legal, Dying, Awaits, Unique;
    ReachableInv(s);
    assert TaskOk(Of(s, t));
    UniqueCount(Queue(s.lists, l), t);
  }

  /** A running task in WaitingTasks is the one that holds its lock. */
  lemma SleeperHoldsLock(s: State, t: Tid, w: nat)
    requires Reachable(s) && t in Sleepers(s.sleeping, w) && StateOf(s.state, t) == RUNNING
    ensures WT in HeldBy(s.held, t) && forall u: Tid :: u != t ==> WT !in HeldBy(s.held, u)
  {
    hide Reachable, Lists, Nodes, Graves, Burials, Mutexes, Cargos, Fits, Families, Legal, Dying, Awaits;
    ReachableInv(s);
    assert t in s.asleep;
    assert TaskOk(Of(s, t));
  }

  /**
   The wake-up in switch_task is overdue only at a tick, and the running task is then in no queue of
   any condition variable.
   */
  lemma WakeupNeverTakesRunning(s: State, x: Tid, c: CvId)
    requires Reachable(s) && s.running == Some(x)
    ensures s.micros - s.lastWake <= WAKEUP_PERIOD && x !in Queue(s.lists, CvQ(c))
  {
    hide Reachable, Beds, Graves, Burials, Mutexes, Cargos, Fits, Families, Stands;
    ReachableInv(s);
  }

  // ----- mutexes

  /** At most one task is between a successful try_lock and its unlock. */
  lemma MutualExclusion(s: State, t: Tid, u: Tid, m: MutexId)
    requires Reachable(s) && m in HeldBy(s.held, t) && m in HeldBy(s.held, u)
    ensures t == u && m in s.locked
  {
    hide Reachable, Lists, Nodes, Beds, Graves, Burials, Cargos, Fits, Families, Stands;
    ReachableInv(s);
    assert MutexOk(CodeAt(s.code, t), HeldBy(s.held, t), s.locked, s.owner, t);
  }

  /** owner() is the holder from the end of lock() to the start of unlock(), and nobody else ever. */
  lemma OwnerIsHolder(s: State, t: Tid, m: MutexId)
    requires Reachable(s)
    ensures m in HeldBy(s.held, t) && Head(CodeAt(s.code, t)) != Owner(m) && Head(CodeAt(s.code, t)) != Release(m) <==>
      m in s.owner && s.owner[m] == t
  {
    hide Reachable, Lists, Nodes, Beds, Graves, Burials, Exclusive, Cargos, Fits, Families, Stands;
    ReachableInv(s);
    assert MutexOk(CodeAt(s.code, t), HeldBy(s.held, t), s.locked, s.owner, t);
  }

  // ----- parents and children

  /**
   A parent back from waitpid_block with AllTasks_lock finds the child it names dead, its node put
   by, and not yet buried.
   */
  lemma WokenParentFindsZombie(s: State, x: Tid, i: Instr, r: Code)
    requires Reachable(s) && s.running == Some(x) && CodeAt(s.code, x) == Then(i, r) && (i.Woken? || i.TakeWoken?)
    ensures AT in HeldBy(s.held, x) && NumberOf(s.woken, x) >= 0 && (i.Woken? ==> NumberOf(s.woken, x) == i.t)
    ensures var z: Tid := NumberOf(s.woken, x);
      StateOf(s.state, z) == ZOMBIE && NumberOf(s.parent, z) == x && z in s.slots && z in s.registered &&
        z !in s.burials
  {
    hide Reachable, Inv;
    ReachableInv(s);
    WokenByZombie(s, x, i, r);
    StandIs(s, x, i, r);
    HoldsAllTasks(i, r, HeldBy(s.held, x), FactsOf(s), x);
    NotYetBuried(s, NumberOf(s.woken, x));
  }

  lemma HoldsAllTasks(i: Instr, r: Code, h: set<MutexId>, f: Facts, x: Tid)
    requires Stand(i, r, h, f, x) && (i.Woken? || i.TakeWoken?)
    ensures AT in h
  {
    hide FitsOk, Legal, Cargo, Awaits, Dying, Has;
    Unfold(i, r, h, f, x);
  }

  lemma NotYetBuried(s: State, z: Tid)
    requires Inv(s) && StateOf(s.state, z) == ZOMBIE
    ensures z !in s.burials
  {
    hide Lists, Nodes, Beds, Graves, Exclusive, Mutexes, Cargos, Fits, Families, Stands;
    ZombieFacts(s, z);
  }

  /** A parent that waits for one child is woken by no other. */
  lemma WokenOnlyByTheOneAskedFor(s: State, p: Tid, t: Tid)
    requires Reachable(s) && Awaits(CodeAt(s.code, p)) == ForPid(t)
    ensures NumberOf(s.woken, p) == t
    ensures StateOf(s.state, p) != WAITPID_BLOCKED ==> Gone(s.code, s.state, s.held, t) && NumberOf(s.parent, t) == p
  {
    hide Reachable, Lists, Nodes, Beds, Graves, Burials, Exclusive, Cargos, Fits, Mutexes, Stands, Awaits, Gone;
    ReachableInv(s);
    assert FamilyOk(s.code, s.state, s.held, s.parent, s.woken, p);
  }

  /** Over a whole run no zombie is buried twice, and the buried stay dead. */
  lemma BuriedAtMostOnce(s: State, z: Tid)
    requires Reachable(s) && z in s.burials
    ensures multiset(s.burials)[z] == 1 && StateOf(s.state, z) == BLOCKED && PlaceOf(s.place, z) == Nowhere
  {
    hide Reachable, Lists, Nodes, Beds, Graves, Exclusive, Mutexes, Cargos, Fits, Families, Legal, Dying, Awaits,
      Unique;
    ReachableInv(s);
    assert TaskOk(Of(s, z));
    UniqueCount(s.burials, z);
  }

  // ----- queues over runs

  /** The local list a step takes from, if any. */
  function DrainedBy(s: State, e: Event): int {
    if e.Run? && s.running.Some? && CodeAt(s.code,
      s.running.value).Then? then Drained(CodeAt(s.code, s.running.value).i) else -1
  }

  /** Only the running task's code changes, and every queue moves on in order. */
  ghost predicate InOrder(s: State, e: Event, s': State) {
    && (forall u: Tid :: s.running != Some(u) ==> CodeAt(s'.code, u) == CodeAt(s.code, u))
    && Advances(s, s') && Queueing(s, s', DrainedBy(s, e))
  }

  lemma StepInOrder(s: State, e: Event)
    requires Inv(s) && Allowed(s, e) && Step(s, e).Ok?
    ensures InOrder(s, e, Step(s, e).s)
  {
    hide Shared, Exec, SwitchTask, WakeOldest, CodeOf, MayCall, Queueing, Advances, CodeAt;
    match e
    case Tick => TickInOrder(s);
    case Irq(c) => IrqInOrder(s, c, if s.running.Some? then s.running.value else 0);
    case Run(ch) =>
      if s.running.Some? && CodeAt(s.code, s.running.value).Then? {
        var x := s.running.value;
        ExecOrderly(s, x, CodeAt(s.code, x).i, CodeAt(s.code, x).rest, ch);
      } else {
        SameQueues(s, s);
        AdvancesSame(s, s);
      }
    case Call(op) =>
      if s.running.Some? && CodeAt(s.code, s.running.value).Done? {
        var x := s.running.value;
        var s1 := if op.Spawn? then s.(life := s.life[op.t := New], place := s.place[op.t := Carried(x)]) else s;
        SameOrderly(s, s1, x, CodeOf(s, x, op));
      } else {
        SameQueues(s, s);
        AdvancesSame(s, s);
      }
  }

  lemma AdvancesSame(s: State, s': State)
    requires Grows(s, s')
    ensures Advances(s, s')
  {
  }

  lemma TickInOrder(s: State)
    requires var o := SwitchTask(s.(micros := s.micros + MICROS_PER_TICK)); o.Ok?
    ensures var s' := SwitchTask(s.(micros := s.micros + MICROS_PER_TICK)).s;
      Advances(s, s') && Queueing(s, s', -1) && s'.code == s.code
  {
    hide SwitchTask;
    var s1 := s.(micros := s.micros + MICROS_PER_TICK);
    var more := SwitchEffect(s1);
    assert Dispatched(s, SwitchTask(s1).s, more);
  }

  lemma IrqInOrder(s: State, c: CvId, u: Tid)
    requires WakeOldest(s, CvQ(c), u).Ok?
    ensures var s' := WakeOldest(s, CvQ(c), u).s; Advances(s, s') && Queueing(s, s', -1) && s'.code == s.code
  {
    hide WakeOldest;
    WakeOldestEffect(s, CvQ(c), u);
  }

  // ----- dispatch in turn

  /** One step moves a ready task up by as many places as there were switches; at the front, the switch runs it. */
  lemma OneStepInTurn(s: State, e: Event, p: nat, t: Tid)
    requires Inv(s) && Allowed(s, e) && Step(s, e).Ok? && p < |Queue(s.lists, Ready)| && Queue(s.lists, Ready)[p] == t
    ensures var s' := Step(s, e).s; var q' := Queue(s'.lists, Ready);
      && (s'.switches == s.switches ==> p < |q'| && q'[p] == t)
      && (s'.switches != s.switches ==> s'.switches == s.switches + 1)
      && (s'.switches != s.switches && p > 0 ==> p - 1 < |q'| && q'[p - 1] == t)
      && (s'.switches != s.switches && p == 0 ==> s'.running == Some(t))
  {
    hide Inv, Step, Allowed, Queue;
    StepInOrder(s, e);
    var s' := Step(s, e).s;
    if !Grows(s, s') {
      var more: seq<Tid> :| Dispatched(s, s', more);
      var q := Queue(s.lists, Ready) + more;
      assert q[p] == t;
    }
  }

  /** A ready task with p older ones ahead of it still has p - k after k switches, whatever arrives meanwhile. */
  lemma {:induction false} WaitsItsTurn(s: State, es: seq<Event>, s': State, p: nat, t: Tid)
    requires Inv(s) && Run(s, es, s') && p < |Queue(s.lists, Ready)| && Queue(s.lists, Ready)[p] == t
    requires s'.switches <= s.switches + p
    ensures s.switches <= s'.switches
    ensures var k := s'.switches - s.switches; p - k < |Queue(s'.lists, Ready)| && Queue(s'.lists, Ready)[p - k] == t
    decreases |es|
  {
    hide Inv, Step, Allowed, Queue;
    if es != [] {
      var s1 := Step(s, es[0]).s;
      StepKeeps(s, es[0]);
      OneStepInTurn(s, es[0], p, t);
      SwitchesGrow(s1, es[1..], s');
      WaitsItsTurn(s1, es[1..], s', if s1.switches == s.switches then p else p - 1, t);
    }
  }

  lemma {:induction false} SwitchesGrow(s: State, es: seq<Event>, s': State)
    requires Inv(s) && Run(s, es, s')
    ensures s.switches <= s'.switches
    decreases |es|
  {
    hide Inv, Step, Allowed, Queueing;
    if es != [] {
      StepKeeps(s, es[0]);
      StepInOrder(s, es[0]);
      SwitchesGrow(Step(s, es[0]).s, es[1..], s');
    }
  }

  /** It is dispatched at exactly the (p + 1)-th following switch. */
  lemma DispatchedInTurn(s: State, es: seq<Event>, s': State, e: Event, p: nat, t: Tid)
    requires Reachable(s) && Run(s, es, s') && Allowed(s', e) && Step(s', e).Ok?
    requires p < |Queue(s.lists, Ready)| && Queue(s.lists, Ready)[p] == t
    requires s'.switches == s.switches + p && Step(s', e).s.switches == s.switches + p + 1
    ensures Step(s', e).s.running == Some(t)
  {
    hide Reachable, Inv, Step, Allowed, Queue;
    ReachableInv(s);
    RunKeeps(s, es, s');
    WaitsItsTurn(s, es, s', p, t);
    OneStepInTurn(s', e, 0, t);
  }

  // ----- condition variables

  /** CV::wait is one step: when the mutex is free again the task is already in the queue, last, and blocked. */
  lemma WaitLeavesNoGap(s: State, x: Tid, c: CvId, m: MutexId, r: Code, ch: Choice)
    requires At(s, x, Wait(c, m), r) && Exec(s, x, Wait(c, m), r, ch).Ok?
    ensures var s' := Exec(s, x, Wait(c, m), r, ch).s;
      && Queue(s'.lists, CvQ(c)) == Queue(s.lists, CvQ(c)) + [x] && StateOf(s'.state, x) == BLOCKED
      && m !in HeldBy(s'.held, x) && CodeAt(s'.code, x) == Then(Acquire(m), r)
  {
    hide Inv, Block, UnlockNow, At;
    WaitKeeps(s, x, c, m, r);
    var s0 := Go(s, x, Then(Acquire(m), r));
    var s1 := UnlockNow(s0, x, m).s;
    assert s.micros - s.lastWake <= WAKEUP_PERIOD by { ClockNow(s, x, Wait(c, m), r); }
    UnlockEffect(s, s0, x, m);
    BlockEffect(s1, x, CvQ(c));
    QueuedFacts(Block(s1, x, CvQ(c)).s, x, c, m, r);
  }

  lemma ClockNow(s: State, x: Tid, i: Instr, r: Code)
    requires At(s, x, i, r)
    ensures s.micros - s.lastWake <= WAKEUP_PERIOD
  {
    hide Shared;
  }

  lemma BlockEffect(s: State, x: Tid, l: ListId)
    requires Block(s, x, l).Ok? && l.CvQ? && s.micros - s.lastWake <= WAKEUP_PERIOD
    ensures var s' := Block(s, x, l).s; Queue(s'.lists, l) == Queue(s.lists, l) + [x] && s'.code == s.code
  {
    hide SwitchTask, Push;
    PushEffect(s, l, x);
    PushClock(s, l, x);
    var s1 := Push(s, l, x).s;
    var more := SwitchEffect(s1.(state := s1.state[x := BLOCKED]));
  }

  lemma QueuedFacts(s: State, x: Tid, c: CvId, m: MutexId, r: Code)
    requires Inv(s) && x in Queue(s.lists, CvQ(c)) && CodeAt(s.code, x) == Then(Acquire(m), r)
    ensures StateOf(s.state, x) == BLOCKED && m !in HeldBy(s.held, x)
  {
    hide Nodes, Beds, Graves, Burials, Exclusive, Mutexes, Cargos, Fits, Families, Legal, Dying, Awaits;
    assert TaskOk(Of(s, x));
    Unfold(Acquire(m), r, HeldBy(s.held, x), FactsOf(s), x);
  }

  /**
   A waiter leaves its queue only from the front, or together with all the others when notify_all
   takes the queue over.
   */
  lemma WaiterMissesNothing(s: State, e: Event, c: CvId, p: nat, t: Tid)
    requires Reachable(s) && Allowed(s, e) && Step(s, e).Ok? && p < |Queue(s.lists, CvQ(c))|
    requires Queue(s.lists, CvQ(c))[p] == t
    ensures var q, q' := Queue(s.lists, CvQ(c)), Queue(Step(s, e).s.lists, CvQ(c));
      || (p < |q'| && q'[p] == t)
      || (q' == q[1..] && (p > 0 ==> q'[p - 1] == t))
      || (q' == [] && Queue(Step(s, e).s.lists, DrainQ(|s.drainers|)) == q)
  {
    hide Reachable, Inv, Step, Allowed, Queue, Advances;
    ReachableInv(s);
    StepInOrder(s, e);
    var q, q' := Queue(s.lists, CvQ(c)), Queue(Step(s, e).s.lists, CvQ(c));
    assert Shift(q, q') || TakenOver(s, Step(s, e).s, CvQ(c));
  }

  /** notify_one takes the longest waiting task, and unblocking puts it at the back of the ready queue, running. */
  lemma NotifyTakesOldest(s: State, x: Tid, c: CvId, r: Code, ch: Choice)
    requires At(s, x, Notify(c), r) && Queue(s.lists, CvQ(c)) != []
    ensures var q := Queue(s.lists, CvQ(c)); var o := Exec(s, x, Notify(c), r, ch);
      && o.Ok? && Queue(o.s.lists, CvQ(c)) == q[1..] && CodeAt(o.s.code, x) == Then(Unblock(q[0]), r)
      && Inv(o.s) && StateOf(o.s.state, q[0]) == BLOCKED
  {
    hide Inv, Pop;
    ExtractKeeps(s, x, Notify(c), r, CvQ(c));
    WaiterBlocked(s, c);
    ExtractEffect(s, x, CvQ(c), r, r);
  }

  lemma WaiterBlocked(s: State, c: CvId)
    requires Inv(s) && Queue(s.lists, CvQ(c)) != []
    ensures StateOf(s.state, Queue(s.lists, CvQ(c))[0]) == BLOCKED
  {
    hide Lists, Nodes, Beds, Graves, Burials, Exclusive, Mutexes, Cargos, Fits, Families, Stands;
    Waiter(s, CvQ(c));
  }

  lemma ExtractEffect(s: State, x: Tid, l: ListId, empty: Code, rest: Code)
    requires Queue(s.lists, l) != []
    ensures var s', q := Extract(s, x, l, empty, rest), Queue(s.lists, l);
      Queue(s'.lists, l) == q[1..] && CodeAt(s'.code, x) == Then(Unblock(q[0]), rest) && s'.state == s.state &&
        s'.drainers == s.drainers
  {
  }

  // ----- notify_all

  /** Task x is in the drain loop of a notify_all, with r to do afterwards. */
  ghost predicate Draining(s: State, x: Tid, k: nat, r: Code) {
    var c := CodeAt(s.code, x);
    c == Then(Drain(k), r) || (c.Then? && c.i.Unblock? && c.rest == Then(Drain(k), r))
  }

  /** The tasks it has yet to wake, in order: the one in its hands, then its list. */
  function Owed(s: State, x: Tid, k: nat): seq<Tid> {
    var c := CodeAt(s.code, x);
    (if c.Then? && c.i.Unblock? then [c.i.t] else []) + Queue(s.lists, DrainQ(k))
  }

  /** What x puts at the back of the ready queue in one step. */
  function Gives(s: State, e: Event, x: Tid): seq<Tid> {
    var c := CodeAt(s.code, x);
    if e.Run? && s.running == Some(x) && c.Then? && c.i.Unblock? then [c.i.t] else []
  }

  /** ... and over a run. */
  ghost function Given(s: State, es: seq<Event>, x: Tid): seq<Tid>
    decreases |es|
  {
    if es == [] || !Step(s, es[0]).Ok? then [] else Gives(s, es[0], x) + Given(Step(s, es[0]).s, es[1..], x)
  }

  lemma GivesToReady(s: State, e: Event, x: Tid)
    requires Inv(s) && Allowed(s, e) && Gives(s, e, x) != []
    ensures Step(s, e).Ok?
    ensures var s', t := Step(s, e).s, Gives(s, e, x)[0];
      Queue(s'.lists, Ready) == Queue(s.lists, Ready) + [t] && StateOf(s'.state, t) == RUNNING
    ensures CodeAt(Step(s, e).s.code, x) == CodeAt(s.code, x).rest
  {
    hide Inv, Allowed;
    StepKeeps(s, e);
  }

  /** The list of a notify_all is drained by nobody else. */
  lemma OwnList(s: State, e: Event, x: Tid, k: nat, r: Code)
    requires Inv(s) && Draining(s, x, k, r) && DrainedBy(s, e) == k
    ensures s.running == Some(x) && k < |s.drainers|
  {
    hide Lists, Nodes, Beds, Graves, Burials, Exclusive, Mutexes, Cargos, Families, Stands, Clock;
    var y := s.running.value;
    assert Has(CodeAt(s.code, x), Drain(k)) && Has(CodeAt(s.code, y), Drain(k));
    assert FitsOk(CodeAt(s.code, x), FactsOf(s), x) && FitsOk(CodeAt(s.code, y), FactsOf(s), y);
    assert Fit(FactsOf(s), x, Drain(k)) && Fit(FactsOf(s), y, Drain(k));
  }

  lemma ListKnown(s: State, x: Tid, k: nat, r: Code)
    requires Inv(s) && Draining(s, x, k, r)
    ensures k < |s.drainers|
  {
    hide Lists, Nodes, Beds, Graves, Burials, Exclusive, Mutexes, Cargos, Families, Stands, Clock;
    assert Has(CodeAt(s.code, x), Drain(k));
    assert FitsOk(CodeAt(s.code, x), FactsOf(s), x);
    assert Fit(FactsOf(s), x, Drain(k));
  }

  /** One step pays off the front of what is owed, or nothing. */
  lemma DrainStep(s: State, e: Event, x: Tid, k: nat, r: Code)
    requires Inv(s) && Allowed(s, e) && Step(s, e).Ok? && Draining(s, x, k, r)
    ensures var s' := Step(s, e).s;
      || (Draining(s', x, k, r) && Gives(s, e, x) + Owed(s', x, k) == Owed(s, x, k))
      || (CodeAt(s'.code, x) == r && Gives(s, e, x) == Owed(s, x, k) == [])
  {
    hide Inv, Allowed;
    ListKnown(s, x, k, r);
    if s.running == Some(x) && e.Run? {
      DrainOwn(s, e, x, k, r);
    } else {
      DrainIdle(s, e, x, k, r);
    }
  }

  lemma DrainOwn(s: State, e: Event, x: Tid, k: nat, r: Code)
    requires Inv(s) && Allowed(s, e) && Step(s, e).Ok? && Draining(s, x, k, r) && s.running == Some(x) && e.Run?
    requires k < |s.drainers|
    ensures var s' := Step(s, e).s;
      || (Draining(s', x, k, r) && Gives(s, e, x) + Owed(s', x, k) == Owed(s, x, k))
      || (CodeAt(s'.code, x) == r && Gives(s, e, x) == Owed(s, x, k) == [])
  {
    hide Inv, Allowed, Step, Queue;
    if CodeAt(s.code, x).i.Unblock? {
      DrainPays(s, e, x, k);
    } else {
      DrainTakes(s, e, x, k, r);
    }
  }

  /** The task in hand is paid off; the list stays. */
  lemma DrainPays(s: State, e: Event, x: Tid, k: nat)
    requires Inv(s) && Allowed(s, e) && Step(s, e).Ok? && s.running == Some(x) && e.Run? && k < |s.drainers|
    requires CodeAt(s.code, x).Then? && CodeAt(s.code, x).i.Unblock?
    ensures CodeAt(Step(s, e).s.code, x) == CodeAt(s.code, x).rest
    ensures Queue(Step(s, e).s.lists, DrainQ(k)) == Queue(s.lists, DrainQ(k))
  {
    hide Inv, Allowed, Step, Queueing, Advances, Queue;
    StepInOrder(s, e);
    GivesToReady(s, e, x);
    QueueingAt(s, Step(s, e).s, -1, k);
  }

  /** The front of the list is taken in hand, or the loop ends. */
  lemma DrainTakes(s: State, e: Event, x: Tid, k: nat, r: Code)
    requires s.running == Some(x) && e.Run? && CodeAt(s.code, x) == Then(Drain(k), r)
    ensures Step(s, e).Ok?
    ensures var s', q := Step(s, e).s, Queue(s.lists, DrainQ(k));
      if q == [] then CodeAt(s'.code, x) == r
      else Queue(s'.lists, DrainQ(k)) == q[1..] && CodeAt(s'.code, x) == Then(Unblock(q[0]), Then(Drain(k), r))
  {
    hide Queue, Pop, Extract;
    ExtractIs(s, x, DrainQ(k), r, Then(Drain(k), r));
    if Queue(s.lists, DrainQ(k)) != [] {
      ExtractEffect(s, x, DrainQ(k), r, Then(Drain(k), r));
    }
  }

  lemma ExtractIs(s: State, x: Tid, l: ListId, empty: Code, rest: Code)
    ensures Queue(s.lists, l) == [] ==> CodeAt(Extract(s, x, l, empty, rest).code, x) == empty
  {
  }

  lemma QueueingAt(s: State, s': State, drained: int, k: nat)
    requires Queueing(s, s', drained) && k != drained && k < |s.drainers|
    ensures Queue(s'.lists, DrainQ(k)) == Queue(s.lists, DrainQ(k))
  {
  }

  lemma DrainIdle(s: State, e: Event, x: Tid, k: nat, r: Code)
    requires Inv(s) && Allowed(s, e) && Step(s, e).Ok? && Draining(s, x, k, r) && !(s.running == Some(x) && e.Run?)
    requires k < |s.drainers|
    ensures var s' := Step(s, e).s; Draining(s', x, k, r) && Gives(s, e, x) == [] && Owed(s', x, k) == Owed(s, x, k)
  {
    hide Inv, Allowed, Queueing, Advances, Exec, WakeOldest, SwitchTask;
    StepInOrder(s, e);
    var s' := Step(s, e).s;
    if DrainedBy(s, e) == k {
      OwnList(s, e, x, k, r);
    }
    QueueingAt(s, s', DrainedBy(s, e), k);
    IdleCode(s, e, x);
  }

  lemma IdleCode(s: State, e: Event, x: Tid)
    requires Inv(s) && Allowed(s, e) && Step(s, e).Ok? && !(s.running == Some(x) && e.Run?) && CodeAt(s.code, x).Then?
    ensures CodeAt(Step(s, e).s.code, x) == CodeAt(s.code, x)
  {
    hide Inv, Allowed, Queueing, Advances, SwitchTask, WakeOldest;
    StepInOrder(s, e);
    if s.running == Some(x) && e.Tick? {
      TickInOrder(s);
    }
    if s.running == Some(x) && e.Irq? {
      IrqInOrder(s, e.c, x);
    }
  }

  /** Right after the swap the task owes exactly the queue as it was, and the queue is empty. */
  lemma NotifyAllOwesAll(s: State, x: Tid, c: CvId, r: Code, ch: Choice)
    requires At(s, x, NotifyAll(c), r)
    ensures var o := Exec(s, x, NotifyAll(c), r, ch);
      && o.Ok? && Draining(o.s, x, |s.drainers|, r) && Owed(o.s, x, |s.drainers|) == Queue(s.lists, CvQ(c)) &&
        Queue(o.s.lists, CvQ(c)) == []
  {
    hide Inv;
  }

  /** However the run goes on, the task wakes exactly those, oldest first, before it is done. */
  lemma {:induction false} NotifyAllWakesAll(s: State, es: seq<Event>, s': State, x: Tid, k: nat, r: Code)
    returns (n: nat, mid: State)
    requires Inv(s) && Run(s, es, s') && Draining(s, x, k, r)
    ensures n <= |es| && Run(s, es[..n], mid)
    ensures || (n == |es| && mid == s' && Draining(s', x, k, r) && Given(s, es, x) + Owed(s', x, k) == Owed(s, x, k))
            || (CodeAt(mid.code, x) == r && Given(s, es[..n], x) == Owed(s, x, k))
    decreases |es|
  {
    hide Inv, Step, Allowed, Draining, Owed, Gives;
    if es == [] {
      n, mid := 0, s;
    } else {
      var s1 := Step(s, es[0]).s;
      StepKeeps(s, es[0]);
      DrainStep(s, es[0], x, k, r);
      if Draining(s1, x, k, r) && Gives(s, es[0], x) + Owed(s1, x, k) == Owed(s, x, k) {
        n, mid := NotifyAllWakesAll(s1, es[1..], s', x, k, r);
        assert es[..n + 1][1..] == es[1..][..n] && es[..n + 1][0] == es[0];
        assert n + 1 == |es| ==> es[..n + 1] == es && es[1..][..n] == es[1..];
        n := n + 1;
      } else {
        n, mid := 1, s1;
        assert es[..1][1..] == [] && es[..1][0] == es[0];
        assert Given(s1, [], x) == [];
      }
    }
  }
}
