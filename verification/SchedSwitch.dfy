/**
 Switching tasks, and the steps that give up the processor.
 */
module SchedSwitch {
  import opened Sched
  import opened Wrappers
  import opened SchedInv
  import opened SchedMoves
  import opened SchedLocal
  import opened SchedNodes

  // ----- waking the oldest waiter in one go

  /** What waking y leaves of the rest. */
  ghost predicate Woke(s: State, s': State, l: ListId) {
    && Queue(s.lists, l) != []
    && var y := Queue(s.lists, l)[0];
       s' == s.(lists := s.lists[l := Queue(s.lists, l)[1..]][Ready := Queue(s.lists, Ready) + [y]],
                place := s.place[y := In(Ready)], state := s.state[y := RUNNING])
  }

  lemma WakeOldestIs(s: State, l: ListId, u: Tid)
    requires Shared(s) && l != Ready && Queue(s.lists, l) != []
    ensures WakeOldest(s, l, u).Ok? && Woke(s, WakeOldest(s, l, u).s, l)
  {
    hide Lists, Beds, Graves, Burials, Exclusive, Mutexes, Cargos, Fits, Families, Stands;
    Waiter(s, l);
    var y := Queue(s.lists, l)[0];
    var s1 := Pop(s, l, Carried(u));
    var lists' := QueueSet(s.lists, l, Queue(s.lists, l)[1..]);
    assert y in s.linked;
    assert s.linked - {y} + {y} == s.linked;
    assert s.place[y := Carried(u)][y := In(Ready)] == s.place[y := In(Ready)];
  }

  lemma WokeLists(lists: Queues, place: Places, drains: nat, l: ListId)
    requires Lists(lists, place, drains) && l != Ready && Queue(lists, l) != []
    ensures var y := Queue(lists, l)[0];
      Lists(lists[l := Queue(lists, l)[1..]][Ready := Queue(lists, Ready) + [y]], place[y := In(Ready)], drains)
  {
    hide Lists;
    var y := Queue(lists, l)[0];
    ListsPop(lists, place, drains, l, Nowhere);
    var lists' := QueueSet(lists, l, Queue(lists, l)[1..]);
    var place' := PlaceSet(place, y, Nowhere);
    ListsPush(lists', place', drains, Ready, y);
    assert place[y := Nowhere][y := In(Ready)] == place[y := In(Ready)];
  }

  /** WakeOldest keeps everything, for a list that is not the ready queue. */
  lemma WakeOldestKeeps(s: State, l: ListId, u: Tid)
    requires Shared(s) && l != Ready
    ensures WakeOldest(s, l, u).Ok? && Shared(WakeOldest(s, l, u).s)
    ensures Queue(s.lists, l) == [] ==> WakeOldest(s, l, u).s == s
    ensures Queue(s.lists, l) != [] ==> Woke(s, WakeOldest(s, l, u).s, l)
  {
    hide Lists, Nodes, Beds, Graves, Burials, Exclusive, Mutexes, Cargos, Fits, Families, Stands, Of, TaskOk;
    if Queue(s.lists, l) == [] {
      return;
    }
    WakeOldestIs(s, l, u);
    var y, s', f := Queue(s.lists, l)[0], WakeOldest(s, l, u).s, FactsOf(s);
    Waiter(s, l);
    WokeLists(s.lists, s.place, |s.drainers|, l);
    NodesIn(s.place, s.linked, s.slots, s.running, y);
    CargosMove(s.code, s.place, y, In(Ready));
    UnheldAt(s.code, s.place, y);
    StateFacts(f, y, RUNNING);
    FitsFree(s.code, f, FactsOf(s'), y);
    FamiliesState(s.code, s.state, s.held, s.parent, s.woken, y, RUNNING);
    WokeViews(s, s', l);
    StandsOff(s, s', y);
  }

  lemma NodesIn(place: Places, linked: set<Tid>, slots: set<Tid>, running: Option<Tid>, y: Tid)
    requires Nodes(place, linked, slots, running) && PlaceOf(place, y).In?
    ensures Nodes(place[y := In(Ready)], linked, slots, running)
  {
    hide PlaceOf;
    var place' := PlaceSet(place, y, In(Ready));
  }

  lemma WokeViews(s: State, s': State, l: ListId)
    requires Shared(s) && l != Ready && Queue(s.lists, l) != [] && Woke(s, s', l)
    ensures Off(s, s', Queue(s.lists, l)[0]) && TaskOk(Of(s', Queue(s.lists, l)[0]))
  {
    hide Lists, Nodes, Beds, Graves, Burials, Exclusive, Mutexes, Cargos, Fits, Families, StateOf, PlaceOf, Legal,
      Dying, Awaits;
    var y := Queue(s.lists, l)[0];
    Waiter(s, l);
    assert TaskOk(Of(s, y));
    var state' := StateSet(s.state, y, RUNNING);
    var place' := PlaceSet(s.place, y, In(Ready));
  }

  // ----- switch_task

  /** The running task is still on the processor, or has just blocked with the clock in order. */
  ghost predicate Leaving(s: State) {
    && Shared(s) && s.lastWake <= s.micros
    && (s.running.Some? ==>
        || PlaceOf(s.place, s.running.value) == OnCpu
        || (StateOf(s.state, s.running.value) != RUNNING && s.micros - s.lastWake <= WAKEUP_PERIOD))
  }

  /** The periodic wake-up never takes the running task out of the queue: if it is due, the task is on the processor. */
  lemma KickKeeps(s: State, u: Tid)
    requires Leaving(s)
    ensures Kick(s, u).Ok?
    ensures var s1 := Kick(s, u).s;
      && Leaving(s1) && s1.running == s.running && s1.micros == s.micros && s1.micros - s1.lastWake <= WAKEUP_PERIOD
      && s1.switches == s.switches && Queue(s.lists, Ready) <= Queue(s1.lists, Ready)
  {
    hide Lists, Nodes, Beds, Graves, Burials, Exclusive, Mutexes, Cargos, Fits, Families, Stands;
    if s.micros - s.lastWake > WAKEUP_PERIOD {
      var s0 := s.(lastWake := s.micros);
      assert Shared(s0) by { SameShared(s, s0); }
      WakeOldestKeeps(s0, CvQ(WAKE_CV), u);
      if Queue(s.lists, CvQ(WAKE_CV)) != [] {
        Waiter(s, CvQ(WAKE_CV));
        WokeOther(s0, Kick(s, u).s, CvQ(WAKE_CV));
      }
    }
  }

  lemma SameShared(s: State, s': State)
    requires Shared(s) && s' == s.(micros := s'.micros, lastWake := s'.lastWake, switches := s'.switches)
    ensures Shared(s')
  {
    hide Lists, Nodes, Beds, Graves, Burials, Exclusive, Mutexes, Cargos, Fits, Families, TaskOk;
    forall t: Tid ensures TaskOk(Of(s', t)) {
      assert TaskOk(Of(s, t));
    }
  }

  lemma WokeOther(s: State, s': State, l: ListId)
    requires l != Ready && Woke(s, s', l)
    ensures forall t: Tid ::
      t != Queue(s.lists, l)[0] ==>
      PlaceOf(s'.place, t) == PlaceOf(s.place, t) && StateOf(s'.state, t) == StateOf(s.state, t)
    ensures Queue(s'.lists, Ready) == Queue(s.lists, Ready) + [Queue(s.lists, l)[0]]
  {
    hide PlaceOf, StateOf;
    var y := Queue(s.lists, l)[0];
    var place' := PlaceSet(s.place, y, In(Ready));
    var state' := StateSet(s.state, y, RUNNING);
  }

  ghost predicate NoneOnCpu(place: Places) { forall t: Tid :: PlaceOf(place, t) != OnCpu }

  lemma RequeueKeeps(s: State)
    requires Leaving(s)
    ensures Requeue(s).Ok?
    ensures var s1 := Requeue(s).s;
      && Shared(s1) && NoneOnCpu(s1.place) && s1.running == s.running && s1.micros == s.micros &&
        s1.lastWake == s.lastWake
      && s1.switches == s.switches && Queue(s.lists, Ready) <= Queue(s1.lists, Ready)
  {
    hide Lists, Nodes, Beds, Graves, Burials, Exclusive, Mutexes, Cargos, Fits, Families, Stands, NoneOnCpu;
    if s.running.None? {
      NobodyOnCpu(s);
      return;
    }
    var x := s.running.value;
    if PlaceOf(s.place, x) != OnCpu {
      NobodyOnCpu(s);
    } else if StateOf(s.state, x) == RUNNING {
      PreemptKeeps(s, x);
    } else {
      DozeKeeps(s, x);
    }
  }

  lemma NobodyOnCpu(s: State)
    requires Shared(s) && (s.running.Some? ==> PlaceOf(s.place, s.running.value) != OnCpu)
    ensures NoneOnCpu(s.place)
  {
    hide Lists, Beds, Graves, Burials, Exclusive, Mutexes, Cargos, Fits, Families, Stands;
  }

  lemma OnCpuFacts(s: State, x: Tid)
    requires Shared(s) && PlaceOf(s.place, x) == OnCpu
    ensures x !in s.linked && x !in s.slots && s.running == Some(x)
    ensures StateOf(s.state, x) == RUNNING ==> TaskOk(Of(s, x).(place := In(Ready)))
    ensures StateOf(s.state, x) != RUNNING ==> TaskOk(Of(s, x).(place := Nowhere))
  {
    hide Lists, Beds, Graves, Burials, Exclusive, Mutexes, Cargos, Fits, Families, Legal, Dying, Awaits;
    assert TaskOk(Of(s, x));
  }

  lemma PlaceViews(s: State, s': State, x: Tid, p: Place)
    requires s' == s.(place := s.place[x := p], lists := s'.lists, linked := s'.linked, running := s'.running,
      switches := s'.switches)
    ensures Off(s, s', x) && Of(s', x) == Of(s, x).(place := p)
  {
    hide PlaceOf;
    var place' := PlaceSet(s.place, x, p);
  }

  lemma OthersNotOnCpu(s: State, x: Tid, p: Place)
    requires Shared(s) && s.running == Some(x) && p != OnCpu
    ensures NoneOnCpu(s.place[x := p])
  {
    hide Lists, Beds, Graves, Burials, Exclusive, Mutexes, Cargos, Fits, Families, Stands, PlaceOf;
    var place' := PlaceSet(s.place, x, p);
  }

  /** A preempted task. */
  lemma PreemptKeeps(s: State, x: Tid)
    requires Shared(s) && PlaceOf(s.place, x) == OnCpu && StateOf(s.state, x) == RUNNING
    ensures Push(s, Ready, x).Ok? && Shared(Push(s, Ready, x).s) && NoneOnCpu(Push(s, Ready, x).s.place)
    ensures Queue(Push(s, Ready, x).s.lists, Ready) == Queue(s.lists, Ready) + [x]
  {
    hide Lists, Nodes, Beds, Graves, Burials, Exclusive, Mutexes, Cargos, Fits, Families, Stands, Of, TaskOk, NoneOnCpu;
    OnCpuFacts(s, x);
    var s' := Push(s, Ready, x).s;
    ListsPush(s.lists, s.place, |s.drainers|, Ready, x);
    NodesPush(s.place, s.linked, s.slots, s.running, Ready, x);
    CargosMove(s.code, s.place, x, In(Ready));
    PlaceViews(s, s', x, In(Ready));
    StandsOff(s, s', x);
    OthersNotOnCpu(s, x, In(Ready));
  }

  /** A task that has gone to sleep. */
  lemma DozeKeeps(s: State, x: Tid)
    requires Shared(s) && PlaceOf(s.place, x) == OnCpu && StateOf(s.state, x) != RUNNING
    ensures var s' := s.(place := s.place[x := Nowhere]); Shared(s') && NoneOnCpu(s'.place)
  {
    hide Lists, Nodes, Beds, Graves, Burials, Exclusive, Mutexes, Cargos, Fits, Families, Stands, Of, TaskOk, NoneOnCpu;
    OnCpuFacts(s, x);
    var s' := s.(place := s.place[x := Nowhere]);
    ListsMove(s.lists, s.place, |s.drainers|, x, Nowhere);
    NodesDoze(s.place, s.linked, s.slots, s.running, x);
    CargosMove(s.code, s.place, x, Nowhere);
    PlaceViews(s, s', x, Nowhere);
    StandsOff(s, s', x);
    OthersNotOnCpu(s, x, Nowhere);
  }

  lemma NodesDoze(place: Places, linked: set<Tid>, slots: set<Tid>, running: Option<Tid>, x: Tid)
    requires Nodes(place, linked, slots, running) && x !in linked && x !in slots
    ensures Nodes(place[x := Nowhere], linked, slots, running)
  {
    hide PlaceOf;
    var place' := PlaceSet(place, x, Nowhere);
  }

  /** The oldest ready task is one that can run. */
  lemma ReadyFacts(s: State)
    requires Shared(s) && Queue(s.lists, Ready) != []
    ensures var y := Queue(s.lists, Ready)[0];
      PlaceOf(s.place, y) == In(Ready) && StateOf(s.state, y) == RUNNING && y !in s.slots &&
        TaskOk(Of(s, y).(place := OnCpu))
  {
    hide Beds, Graves, Burials, Exclusive, Mutexes, Cargos, Fits, Families, Legal, Dying, Awaits;
    var y := Queue(s.lists, Ready)[0];
    assert y in Queue(s.lists, Ready);
    assert TaskOk(Of(s, y));
  }

  lemma DispatchKeeps(s: State)
    requires Shared(s) && NoneOnCpu(s.place) && s.lastWake <= s.micros && s.micros - s.lastWake <= WAKEUP_PERIOD
    ensures !Dispatch(s).Fail?
    ensures Dispatch(s).Idle? <==> Queue(s.lists, Ready) == []
    ensures Dispatch(s).Ok? ==> Inv(Dispatch(s).s)
  {
    hide Lists, Nodes, Beds, Graves, Burials, Exclusive, Mutexes, Cargos, Fits, Families, Stands, Of, TaskOk;
    if Queue(s.lists, Ready) == [] {
      return;
    }
    ReadyFacts(s);
    var y := Queue(s.lists, Ready)[0];
    var s' := Dispatch(s).s;
    ListsPop(s.lists, s.place, |s.drainers|, Ready, OnCpu);
    NodesDispatch(s.place, s.linked, s.slots, s.running, y);
    CargosMove(s.code, s.place, y, OnCpu);
    PlaceViews(s, s', y, OnCpu);
    StandsOff(s, s', y);
  }

  lemma NodesDispatch(place: Places, linked: set<Tid>, slots: set<Tid>, running: Option<Tid>, y: Tid)
    requires Nodes(place, linked, slots, running) && NoneOnCpu(place) && y !in slots
    ensures Nodes(place[y := OnCpu], linked - {y}, slots, Some(y))
  {
    hide PlaceOf;
    var place' := PlaceSet(place, y, OnCpu);
  }

  /** switch_task halts only when no task is left, and leaves the invariant intact. */
  lemma SwitchKeeps(s: State)
    requires Leaving(s)
    ensures !SwitchTask(s).Fail? && (SwitchTask(s).Ok? ==> Inv(SwitchTask(s).s))
  {
    hide Leaving, Shared, NoneOnCpu, Inv, Kick, Requeue, Dispatch;
    var u := if s.running.Some? then s.running.value else 0;
    KickKeeps(s, u);
    var s1 := Kick(s, u).s;
    RequeueKeeps(s1);
    LeavingClock(s1);
    DispatchKeeps(Requeue(s1).s);
  }

  lemma LeavingClock(s: State)
    requires Leaving(s)
    ensures s.lastWake <= s.micros
  {
  }

  // ----- blocking on a list

  /** A running task that will try for a lock when it comes back. */
  lemma BlockFacts(s: State, x: Tid)
    requires Inv(s) && s.running == Some(x) && Head(CodeAt(s.code, x)).Acquire?
    ensures PlaceOf(s.place, x) == OnCpu && StateOf(s.state, x) == RUNNING && LifeOf(s.life, x) == Alive
    ensures x !in s.linked && x !in s.slots && x !in s.asleep
    ensures x !in s.buried ==> forall l :: l != Ready ==> TaskOk(Of(s, x).(place := In(l), state := BLOCKED))
  {
    hide Lists, Beds, Graves, Burials, Exclusive, Mutexes, Cargos, Fits, Families, Legal, Dying, Awaits;
    assert TaskOk(Of(s, x));
  }

  lemma BlockKeeps(s: State, x: Tid, l: ListId)
    requires Inv(s) && s.running == Some(x) && Head(CodeAt(s.code, x)).Acquire? && x !in s.buried
    requires (l.MutexQ? || l.CvQ?)
    ensures !Block(s, x, l).Fail? && (Block(s, x, l).Ok? ==> Inv(Block(s, x, l).s))
  {
    hide Lists, Nodes, Beds, Graves, Burials, Exclusive, Mutexes, Cargos, Fits, Families, Stands, Of, TaskOk, FactsOff,
      SwitchTask;
    BlockFacts(s, x);
    var s1 := Push(s, l, x).s;
    var s2 := s1.(state := s1.state[x := BLOCKED]);
    ListsPush(s.lists, s.place, |s.drainers|, l, x);
    NodesPush(s.place, s.linked, s.slots, s.running, l, x);
    CargosMove(s.code, s.place, x, In(l));
    UnheldAt(s.code, s.place, x);
    StateFacts(FactsOf(s), x, BLOCKED);
    FitsFree(s.code, FactsOf(s), FactsOf(s2), x);
    FamiliesState(s.code, s.state, s.held, s.parent, s.woken, x, BLOCKED);
    BlockViews(s, s2, x, l);
    StandsOff(s, s2, x);
    assert Shared(s2);
    assert StateOf(s2.state, x) == BLOCKED;
    SwitchKeeps(s2);
  }

  lemma BlockViews(s: State, s': State, x: Tid, l: ListId)
    requires s' == s.(place := s.place[x := In(l)], state := s.state[x := BLOCKED], lists := s'.lists,
      linked := s'.linked)
    ensures Off(s, s', x) && Of(s', x) == Of(s, x).(place := In(l), state := BLOCKED)
  {
    hide PlaceOf, StateOf;
    var place' := PlaceSet(s.place, x, In(l));
    var state' := StateSet(s.state, x, BLOCKED);
  }

  lemma ParkKeeps(s: State, x: Tid, m: MutexId, r: Code)
    requires At(s, x, Park(m), r)
    ensures var o := Block(Go(s, x, Then(Acquire(m), r)), x, MutexQ(m)); !o.Fail? && (o.Ok? ==> Inv(o.s))
  {
    hide Inv, Fine, Block, Legal, FitsOk, FamilyOk, MutexOk, Gone, Of, TaskOk;
    Running(s, x, Park(m), r);
    StandIs(s, x, Park(m), r);
    ParkFine(m, r, HeldBy(s.held, x), FactsOf(s), x);
    CodeStep(s, x, Park(m), r, Then(Acquire(m), r));
    BlockKeeps(Go(s, x, Then(Acquire(m), r)), x, MutexQ(m));
  }

  lemma ParkFine(m: MutexId, r: Code, h: set<MutexId>, f: Facts, x: Tid)
    requires Stand(Park(m), r, h, f, x)
    ensures Fine(Then(Park(m), r), Then(Acquire(m), r), h, f, x) && !Dying(Then(Park(m), r))
  {
    hide FitsOk, Legal, Cargo, Awaits, Dying, Has;
    Unfold(Park(m), r, h, f, x);
    Unfold(Acquire(m), r, h, f, x);
  }

  // ----- unlocking in one go

  lemma MutexesDrop(code: Codes, held: Holds, locked: set<MutexId>, owner: map<MutexId, Tid>, x: Tid, c: Code,
      m: MutexId)
    requires Mutexes(code, held, locked, owner) && Exclusive(held) && m in HeldBy(held, x)
    requires !Head(CodeAt(code, x)).Owner? && !Head(CodeAt(code, x)).Release? && !Head(c).Owner? && !Head(c).Release?
    ensures m in locked
    ensures var h := HeldBy(held, x) - {m};
      Mutexes(code[x := c], held[x := h], locked - {m}, owner - {m}) && Exclusive(held[x := h])
  {
    hide CodeAt, HeldBy, Head;
    var h := HeldBy(held, x) - {m};
    var code' := CodeSet(code, x, c);
    var held' := HeldSet(held, x, h);
    MutexesOne(code, held, locked, owner, x);
    forall u: Tid ensures MutexOk(CodeAt(code', u), HeldBy(held', u), locked - {m}, owner - {m}, u) {
      MutexesOne(code, held, locked, owner, u);
    }
  }

  /** CV::wait: the mutex is released, the task queued and blocked, with nothing in between. */
  lemma WaitKeeps(s: State, x: Tid, c: CvId, m: MutexId, r: Code)
    requires At(s, x, Wait(c, m), r)
    ensures var o := UnlockNow(Go(s, x, Then(Acquire(m), r)), x, m);
      o.Ok? && var o' := Block(o.s, x, CvQ(c)); !o'.Fail? && (o'.Ok? ==> Inv(o'.s))
  {
    hide Inv, Follows, Legal, FitsOk, Mutexes, Exclusive, Block, WakeOldest, FamilyOk, MutexOk, Gone, Of, TaskOk;
    var i, h, k := Wait(c, m), HeldBy(s.held, x), Then(Acquire(m), r);
    Running(s, x, i, r);
    StandIs(s, x, i, r);
    WaitFollows(c, m, r, h, FactsOf(s), x);
    InvMutexes(s);
    MutexesDrop(s.code, s.held, s.locked, s.owner, x, k, m);
    var s1 := s.(code := s.code[x := k], owner := s.owner - {m}, locked := s.locked - {m},
      held := s.held[x := h - {m}]);
    LockStep(s, s1, x, i, r, k, h - {m});
    WakeForRunner(s1, MutexQ(m), x);
    BlockKeeps(WakeOldest(s1, MutexQ(m), x).s, x, CvQ(c));
  }

  /** Waking a waiter leaves the running task as it is. */
  lemma WakeForRunner(s: State, l: ListId, x: Tid)
    requires Inv(s) && s.running == Some(x) && l != Ready
    ensures WakeOldest(s, l, x).Ok? && Inv(WakeOldest(s, l, x).s)
    ensures var s' := WakeOldest(s, l, x).s; s'.running == Some(x) && s'.code == s.code && s'.buried == s.buried
  {
    hide Shared;
    WakeOldestKeeps(s, l, x);
    if Queue(s.lists, l) != [] {
      WaiterNotRunning(s, l);
      WokeOther(s, WakeOldest(s, l, x).s, l);
    }
  }

  lemma WaiterNotRunning(s: State, l: ListId)
    requires Inv(s) && l != Ready && Queue(s.lists, l) != []
    ensures s.running != Some(Queue(s.lists, l)[0])
  {
    hide Lists, Nodes, Beds, Graves, Burials, Exclusive, Mutexes, Cargos, Fits, Families, Stands;
    Waiter(s, l);
  }

  lemma WaitFollows(c: CvId, m: MutexId, r: Code, h: set<MutexId>, f: Facts, x: Tid)
    requires Stand(Wait(c, m), r, h, f, x)
    ensures Follows(Then(Wait(c, m), r), Then(Acquire(m), r), h - {m}, f, x) && m in h && !Dying(Then(Wait(c, m), r))
  {
    hide FitsOk, Legal, Cargo, Awaits, Dying, Has;
    PutBack(h, m);
    Unfold(Wait(c, m), r, h, f, x);
    Unfold(Acquire(m), r, h - {m}, f, x);
  }

  // ----- going to sleep, and putting the own node away

  /** The running task changes its code, state and place, and gives up one lock. */
  ghost predicate Drops(s: State, s': State, x: Tid, c: Code, st: TaskState, p: Place, m: MutexId) {
    s' == s.(code := s.code[x := c], state := s.state[x := st], place := s'.place, slots := s'.slots,
             held := s.held[x := HeldBy(s.held, x) - {m}], owner := s.owner - {m}, locked := s.locked - {m})
    && if p == OnCpu then s'.place == s.place && s'.slots == s.slots
       else s'.place == s.place[x := Slot] && s'.slots == s.slots + {x}
  }

  lemma DropsViews(s: State, s': State, x: Tid, c: Code, st: TaskState, p: Place, m: MutexId)
    requires Drops(s, s', x, c, st, p, m) && PlaceOf(s.place, x) == OnCpu && (p == OnCpu || p == Slot)
    ensures Off(s, s', x) && Of(s', x) == Of(s, x).(code := c, state := st, place := p, held := HeldBy(s.held, x) - {m})
    ensures forall u: Tid :: u != x ==> SameKin(s, s', u)
  {
    hide CodeAt, StateOf, PlaceOf, HeldBy;
    var code' := CodeSet(s.code, x, c);
    var state' := StateSet(s.state, x, st);
    var held' := HeldSet(s.held, x, HeldBy(s.held, x) - {m});
    var place' := PlaceSet(s.place, x, Slot);
  }

  lemma DropsKeeps(s: State, s': State, x: Tid, i: Instr, r: Code, c: Code, st: TaskState, p: Place, m: MutexId)
    requires At(s, x, i, r) && (i.SleepBlock? || i.Zombify? || i.WaitBlock?) && (p == OnCpu || p == Slot)
    requires Drops(s, s', x, c, st, p, m)
    requires m in HeldBy(s.held, x) && !Head(c).Owner? && !Head(c).Release?
    requires Cargo(c) == Cargo(Then(i, r)) && FitsOk(c, FactsOf(s'), x)
    requires TaskOk(Of(s, x).(code := c, state := st, place := p, held := HeldBy(s.held, x) - {m}))
    requires Families(s'.code, s'.state, s'.held, s'.parent, s'.woken)
    ensures m in s.locked && Shared(s')
  {
    hide Lists, Nodes, Beds, Graves, Burials, Exclusive, Mutexes, Cargos, Fits, Families, Stands, Of, TaskOk, FactsOff,
      FitsOk, Cargo, Legal, Dying, Awaits;
    Running(s, x, i, r);
    DropsViews(s, s', x, c, st, p, m);
    MutexesDrop(s.code, s.held, s.locked, s.owner, x, c, m);
    SelfUnheldNow(s, x);
    StateFacts(FactsOf(s), x, st);
    FitsOff(s.code, FactsOf(s), FactsOf(s'), x, c, x);
    CargosGo(s.code, s.place, x, c);
    if p == Slot {
      ListsMove(s.lists, s.place, |s.drainers|, x, Slot);
      NodesSlot(s.place, s.linked, s.slots, s.running, x);
      CargosMove(s'.code, s.place, x, Slot);
    }
    StandsOff(s, s', x);
  }

  lemma SelfUnheldNow(s: State, x: Tid)
    requires Shared(s) && PlaceOf(s.place, x) == OnCpu
    ensures forall u: Tid :: Cargo(CodeAt(s.code, u))[x] == 0
  {
    hide Lists, Nodes, Beds, Graves, Burials, Exclusive, Mutexes, Cargos, Fits, Families, Stands, CodeAt, Cargo;
    UnheldAt(s.code, s.place, x);
  }

  lemma NodesSlot(place: Places, linked: set<Tid>, slots: set<Tid>, running: Option<Tid>, x: Tid)
    requires Nodes(place, linked, slots, running) && x !in linked
    ensures Nodes(place[x := Slot], linked, slots + {x}, running)
  {
    hide PlaceOf;
    var place' := PlaceSet(place, x, Slot);
  }

  // sleep_self

  lemma SleepFollows(w: nat, r: Code, h: set<MutexId>, f: Facts, f': Facts, x: Tid)
    requires Stand(SleepBlock(w), r, h, f, x) && FactsOff(f, f', x) && f'.woken == f.woken && f'.parent == f.parent
    requires Cargo(r)[x] == 0
    ensures var c := Then(Yield, Then(SleepTest(w), r));
      && Cargo(c) == Cargo(Then(SleepBlock(w), r)) && Legal(c, h - {WT}) && FitsOk(c, f', x) &&
        Awaits(c).NotWaiting? && WT in h && !Dying(Then(SleepBlock(w), r))
  {
    hide FitsOk, Legal, Cargo, Awaits, Dying, Has, FactsOff;
    Unfold(SleepBlock(w), r, h, f, x);
    FitsOkOff(r, f, f', x, x);
    Unfold(SleepTest(w), r, h - {WT}, f', x);
    Unfold(Yield, Then(SleepTest(w), r), h - {WT}, f', x);
  }

  /** A task falling asleep is in WaitingTasks. */
  lemma SleeperOk(s: State, x: Tid, w: nat, r: Code, c: Code, h: set<MutexId>)
    requires At(s, x, SleepBlock(w), r) && Legal(c, h) && c.Then? && c.i.Yield? && x !in s.buried
    ensures TaskOk(Of(s, x).(code := c, state := BLOCKED, place := OnCpu, held := h))
  {
    hide Lists, Nodes, Beds, Graves, Burials, Exclusive, Mutexes, Cargos, Fits, Families, Legal, Dying, Awaits;
    assert TaskOk(Of(s, x));
  }

  lemma SleepBlockKeeps(s: State, x: Tid, w: nat, r: Code)
    requires At(s, x, SleepBlock(w), r)
    ensures var o := UnlockNow(Go(s.(state := s.state[x := BLOCKED]), x, Then(Yield, Then(SleepTest(w), r))), x, WT);
      o.Ok? && Inv(o.s)
  {
    hide Lists, Nodes, Beds, Graves, Burials, Exclusive, Mutexes, Cargos, Fits, Families, Stands, Of, TaskOk, FactsOff,
      FitsOk, Cargo, Legal, Dying, Awaits, WakeOldest;
    var i, h, c := SleepBlock(w), HeldBy(s.held, x), Then(Yield, Then(SleepTest(w), r));
    var s1 := s.(code := s.code[x := c], state := s.state[x := BLOCKED], owner := s.owner - {WT},
      locked := s.locked - {WT}, held := s.held[x := h - {WT}]);
    Running(s, x, i, r);
    StandIs(s, x, i, r);
    SelfUnheldNow(s, x);
    StateFacts(FactsOf(s), x, BLOCKED);
    assert Cargo(CodeAt(s.code, x))[x] == 0;
    CargoRest(i, r, x);
    SleepFollows(w, r, h, FactsOf(s), FactsOf(s1), x);
    SleeperOk(s, x, w, r, c, h - {WT});
    DropsFamilies(s, s1, x, i, r, c, BLOCKED, OnCpu, WT);
    DropsKeeps(s, s1, x, i, r, c, BLOCKED, OnCpu, WT);
    WakeForRunner(s1, MutexQ(WT), x);
  }

  lemma CargoRest(i: Instr, r: Code, x: Tid)
    requires Cargo(Then(i, r))[x] == 0
    ensures Cargo(r)[x] == 0
  {
  }

  /** Families, for a task that is not gone before. */
  lemma DropsFamilies(s: State, s': State, x: Tid, i: Instr, r: Code, c: Code, st: TaskState, p: Place, m: MutexId)
    requires At(s, x, i, r) && (i.SleepBlock? || i.WaitBlock?) && (p == OnCpu || p == Slot)
    requires Drops(s, s', x, c, st, p, m)
    requires FamilyOk(s'.code, s'.state, s'.held, s'.parent, s'.woken, x)
    ensures Families(s'.code, s'.state, s'.held, s'.parent, s'.woken)
  {
    hide Lists, Nodes, Beds, Graves, Burials, Exclusive, Mutexes, Cargos, Fits, Families, Stands, Of, TaskOk, Legal,
      Dying, Awaits, FamilyOk;
    Running(s, x, i, r);
    DropsViews(s, s', x, c, st, p, m);
    FamiliesOff(s, s', x);
  }

  // zombify_self and waitpid_block

  lemma PutAwayOk(s: State, x: Tid, i: Instr, r: Code, c: Code, st: TaskState)
    requires At(s, x, i, r) && !i.Yield? && !i.SleepBlock? && x !in s.buried && Legal(c, HeldBy(s.held, x) - {AT})
    requires !Head(c).SleepBlock?
    requires st == ZOMBIE || (st == WAITPID_BLOCKED && Head(c) == Acquire(AT) && !Awaits(c).NotWaiting? &&
      (Awaits(c).ForAny? ==> NumberOf(s.woken, x) == -1))
    ensures TaskOk(Of(s, x).(code := c, state := st, place := Slot, held := HeldBy(s.held, x) - {AT}))
  {
    hide Lists, Nodes, Beds, Graves, Burials, Exclusive, Mutexes, Cargos, Fits, Families, Legal, Dying, Awaits;
    assert TaskOk(Of(s, x));
  }

  lemma ZombifyFollows(r: Code, h: set<MutexId>, f: Facts, f': Facts, x: Tid)
    requires Stand(Zombify, r, h, f, x)
    ensures Cargo(Done) == Cargo(Then(Zombify, r)) && Legal(Done, h - {AT}) && FitsOk(Done, f', x) && AT in h
    ensures !Dying(Then(Zombify, r))
  {
    hide FitsOk, Legal, Cargo, Awaits, Dying, Has;
    Unfold(Zombify, r, h, f, x);
    UnfoldDone(h - {AT}, f', x);
  }

  /** Whoever relied on the task being about to die may rely on its being dead. */
  lemma ZombieFamilies(s: State, s': State, x: Tid)
    requires Families(s.code, s.state, s.held, s.parent, s.woken) && (forall u: Tid :: u != x ==> SameKin(s, s', u))
    requires StateOf(s'.state, x) == ZOMBIE && Awaits(CodeAt(s'.code, x)).NotWaiting? && s'.parent == s.parent
    ensures Families(s'.code, s'.state, s'.held, s'.parent, s'.woken)
  {
    hide CodeAt, StateOf, HeldBy, NumberOf, Awaits;
    forall p: Tid ensures FamilyOk(s'.code, s'.state, s'.held, s'.parent, s'.woken, p) {
      assert FamilyOk(s.code, s.state, s.held, s.parent, s.woken, p);
      assert p != x ==> SameKin(s, s', p);
      var w := NumberOf(s.woken, p);
      assert w >= 0 && w != x ==> SameKin(s, s', w);
    }
  }

  lemma ZombifyKeeps(s: State, x: Tid, r: Code)
    requires At(s, x, Zombify, r)
    ensures var o := PutAway(Go(s, x, Done), x, ZOMBIE); !o.Fail? && (o.Ok? ==> Inv(o.s))
  {
    hide Lists, Nodes, Beds, Graves, Burials, Exclusive, Mutexes, Cargos, Fits, Families, Stands, Of, TaskOk, FactsOff,
      FitsOk, Cargo, Legal, Dying, Awaits, WakeOldest, SwitchTask;
    var i, h := Zombify, HeldBy(s.held, x);
    var s1 := s.(code := s.code[x := Done], state := s.state[x := ZOMBIE], place := s.place[x := Slot],
      slots := s.slots + {x},
                 owner := s.owner - {AT}, locked := s.locked - {AT}, held := s.held[x := h - {AT}]);
    Running(s, x, i, r);
    StandIs(s, x, i, r);
    ZombifyFollows(r, h, FactsOf(s), FactsOf(s1), x);
    PutAwayOk(s, x, i, r, Done, ZOMBIE);
    DropsViews(s, s1, x, Done, ZOMBIE, Slot, AT);
    UnfoldDone(h - {AT}, FactsOf(s), x);
    ZombieFamilies(s, s1, x);
    DropsKeeps(s, s1, x, i, r, Done, ZOMBIE, Slot, AT);
    LeaveAfterWake(s1, AT, x);
  }

  /** The lock's next owner is woken, then the processor is given up. */
  lemma LeaveAfterWake(s: State, m: MutexId, x: Tid)
    requires Shared(s) && s.running == Some(x) && Clock(s.micros, s.lastWake, s.running)
    requires StateOf(s.state, x) != RUNNING && PlaceOf(s.place, x) == Slot
    ensures WakeOldest(s, MutexQ(m), x).Ok?
    ensures var o := SwitchTask(WakeOldest(s, MutexQ(m), x).s); !o.Fail? && (o.Ok? ==> Inv(o.s))
  {
    hide Shared, Inv, SwitchTask;
    WakeOldestKeeps(s, MutexQ(m), x);
    var s' := WakeOldest(s, MutexQ(m), x).s;
    if Queue(s.lists, MutexQ(m)) != [] {
      Waiter(s, MutexQ(m));
      WokeOther(s, s', MutexQ(m));
    }
    SwitchKeeps(s');
  }

  lemma WaitBlockFollows(pid: int, next: Instr, r: Code, h: set<MutexId>, f: Facts, f': Facts, x: Tid)
    requires Stand(WaitBlock(pid), r, h, f, x) && (next.Woken? || next.TakeWoken?)
    ensures var c := Then(Acquire(AT), Then(next, r));
      && Cargo(c) == Cargo(Then(WaitBlock(pid), r)) && Legal(c, h - {AT}) && FitsOk(c, f', x) &&
        Awaits(c) == AwaitStep(next, NotWaiting)
  {
    hide FitsOk, Legal, Cargo, Awaits, Dying, Has, Only;
    PutBack(h, AT);
    Unfold(WaitBlock(pid), r, h, f, x);
    BackCode(next, h, f', x);
    Unfold(Acquire(AT), Then(next, r), h - {AT}, f', x);
  }

  lemma BackCode(next: Instr, h: set<MutexId>, f: Facts, x: Tid)
    requires (next.Woken? || next.TakeWoken?) && Only(h, AT)
    ensures var c := Then(next, Done);
      Cargo(c) == Cargo(Done) && Legal(c, h) && FitsOk(c, f, x) && Awaits(c) == AwaitStep(next, NotWaiting) && AT in h
  {
    hide FitsOk, Legal, Cargo, Awaits, Dying, Has;
    UnfoldDone(h - {AT}, f, x);
    Unfold(next, Done, h, f, x);
  }

  lemma WaitBlockIs(pid: int, r: Code, h: set<MutexId>, f: Facts, x: Tid)
    requires Stand(WaitBlock(pid), r, h, f, x)
    ensures AT in h && !Dying(Then(WaitBlock(pid), r)) && pid >= -1 && NumberOf(f.woken, x) == pid
  {
    hide FitsOk, Legal, Cargo, Awaits, Dying, Has;
    Unfold(WaitBlock(pid), r, h, f, x);
  }

  /** The task's node is in its slot, and AllTasks_lock is free. */
  lemma WaitBlockDrops(s: State, s1: State, x: Tid, pid: int, next: Instr, r: Code)
    requires At(s, x, WaitBlock(pid), r) && next == if pid >= 0 then Woken(pid) else TakeWoken
    requires s1 == s.(code := s.code[x := Then(Acquire(AT), Then(next, r))], state := s.state[x := WAITPID_BLOCKED],
      place := s.place[x := Slot], slots := s.slots + {x},
      owner := s.owner - {AT}, locked := s.locked - {AT}, held := s.held[x := HeldBy(s.held, x) - {AT}])
    ensures Shared(s1) && AT in s.locked
  {
    hide Lists, Nodes, Beds, Graves, Burials, Exclusive, Mutexes, Cargos, Fits, Families, Stands, Of, TaskOk, FactsOff,
      FitsOk;
    hide Cargo, Legal, Dying, Awaits, Gone, Shared;
    var i, h, c := WaitBlock(pid), HeldBy(s.held, x), Then(Acquire(AT), Then(next, r));
    Running(s, x, i, r);
    StandIs(s, x, i, r);
    WaitBlockIs(pid, r, h, FactsOf(s), x);
    WaitBlockFollows(pid, next, r, h, FactsOf(s), FactsOf(s1), x);
    PutAwayOk(s, x, i, r, c, WAITPID_BLOCKED);
    DropsFamilies(s, s1, x, i, r, c, WAITPID_BLOCKED, Slot, AT);
    DropsKeeps(s, s1, x, i, r, c, WAITPID_BLOCKED, Slot, AT);
  }

  lemma WaitBlockKeeps(s: State, x: Tid, pid: int, r: Code)
    requires At(s, x, WaitBlock(pid), r)
    ensures var o := PutAway(Go(s, x, Then(Acquire(AT), Then(if pid >= 0 then Woken(pid) else TakeWoken, r))), x,
      WAITPID_BLOCKED);
      !o.Fail? && (o.Ok? ==> Inv(o.s))
  {
    hide Shared, WakeOldest, SwitchTask;
    var next, h := if pid >= 0 then Woken(pid) else TakeWoken, HeldBy(s.held, x);
    var s1 := s.(code := s.code[x := Then(Acquire(AT), Then(next, r))], state := s.state[x := WAITPID_BLOCKED],
                 place := s.place[x := Slot], slots := s.slots + {x},
                 owner := s.owner - {AT}, locked := s.locked - {AT}, held := s.held[x := h - {AT}]);
    WaitBlockDrops(s, s1, x, pid, next, r);
    LeaveAfterWake(s1, AT, x);
  }

  // ----- dying

  lemma BlockSelfKeeps(s: State, x: Tid, r: Code)
    requires At(s, x, BlockSelf, r)
    ensures var o := SwitchTask(Go(s.(state := s.state[x := BLOCKED], life := s.life[x := Dead],
      place := s.place[x := Nowhere]), x, Done));
      !o.Fail? && (o.Ok? ==> Inv(o.s))
  {
    hide Lists, Nodes, Beds, Graves, Burials, Exclusive, Mutexes, Cargos, Fits, Families, Stands, Of, TaskOk, FactsOff,
      FitsOk, Cargo, Legal, Dying, Awaits, SwitchTask;
    var i := BlockSelf;
    var s1 := Go(s.(state := s.state[x := BLOCKED], life := s.life[x := Dead], place := s.place[x := Nowhere]), x,
      Done);
    Running(s, x, i, r);
    StandIs(s, x, i, r);
    DeathFollows(r, HeldBy(s.held, x), FactsOf(s), FactsOf(s1), x);
    SelfUnheldNow(s, x);
    DeathFacts(FactsOf(s), x);
    FitsOff(s.code, FactsOf(s), FactsOf(s1), x, Done, x);
    CodeKit(s, x, i, r, Done);
    ListsMove(s.lists, s.place, |s.drainers|, x, Nowhere);
    NodesDoze(s.place, s.linked, s.slots, s.running, x);
    CargosMove(s1.code, s.place, x, Nowhere);
    FamiliesState(s1.code, s.state, s.held, s.parent, s.woken, x, BLOCKED);
    BurialsLife(s.burials, s.life, x, Dead);
    DeathViews(s, s1, x);
    DeathOk(s, x, r);
    StandsOff(s, s1, x);
    assert Shared(s1);
    assert StateOf(s1.state, x) == BLOCKED;
    SwitchKeeps(s1);
  }

  lemma DeathFollows(r: Code, h: set<MutexId>, f: Facts, f': Facts, x: Tid)
    requires Stand(BlockSelf, r, h, f, x)
    ensures Cargo(Done) == Cargo(Then(BlockSelf, r)) && Legal(Done, h) && FitsOk(Done, f', x)
    ensures Awaits(Done).NotWaiting?
  {
    hide FitsOk, Legal, Cargo, Awaits, Dying, Has;
    Unfold(BlockSelf, r, h, f, x);
    UnfoldDone(h, f', x);
  }

  lemma DeathFacts(f: Facts, x: Tid)
    requires StateOf(f.state, x) == RUNNING && LifeOf(f.life, x) == Alive
    ensures FactsOff(f, f.(state := f.state[x := BLOCKED], life := f.life[x := Dead]), x)
  {
    hide StateOf, LifeOf;
    var state' := StateSet(f.state, x, BLOCKED);
    var life' := LifeSet(f.life, x, Dead);
  }

  lemma DeathViews(s: State, s': State, x: Tid)
    requires s' == Go(s.(state := s.state[x := BLOCKED], life := s.life[x := Dead], place := s.place[x := Nowhere]), x,
      Done)
    ensures Off(s, s', x) && Of(s', x) == Of(s, x).(state := BLOCKED, life := Dead, place := Nowhere, code := Done)
  {
    hide CodeAt, StateOf, PlaceOf, LifeOf;
    var code' := CodeSet(s.code, x, Done);
    var state' := StateSet(s.state, x, BLOCKED);
    var place' := PlaceSet(s.place, x, Nowhere);
    var life' := LifeSet(s.life, x, Dead);
  }

  lemma DeathOk(s: State, x: Tid, r: Code)
    requires At(s, x, BlockSelf, r) && Legal(Done, HeldBy(s.held, x))
    ensures TaskOk(Of(s, x).(state := BLOCKED, life := Dead, place := Nowhere, code := Done))
  {
    hide Lists, Nodes, Beds, Graves, Burials, Exclusive, Mutexes, Cargos, Fits, Families, Legal, Dying, Awaits;
    assert TaskOk(Of(s, x));
  }

  // ----- yielding

  lemma YieldFollows(r: Code, h: set<MutexId>, f: Facts, x: Tid)
    requires Stand(Yield, r, h, f, x)
    ensures Follows(Then(Yield, r), r, h, f, x) && Awaits(r) == Awaits(Then(Yield, r)) && !Head(r).Owner?
    ensures !Head(r).Release?
    ensures !Dying(Then(Yield, r))
  {
    hide FitsOk, Legal, Cargo, Awaits, Dying, Has;
    Unfold(Yield, r, h, f, x);
  }

  lemma YieldOk(s: State, x: Tid, r: Code)
    requires At(s, x, Yield, r) && Legal(r, HeldBy(s.held, x)) && !Head(r).SleepBlock? && !Dying(Then(Yield, r))
    ensures StateOf(s.state, x) == RUNNING ==> TaskOk(Of(s, x).(code := r))
    ensures StateOf(s.state, x) != RUNNING ==> TaskOk(Of(s, x).(code := r, place := Nowhere))
  {
    hide Lists, Nodes, Beds, Graves, Burials, Exclusive, Mutexes, Cargos, Fits, Families, Legal, Dying, Awaits;
    assert TaskOk(Of(s, x));
  }

  lemma YieldKeeps(s: State, x: Tid, r: Code)
    requires At(s, x, Yield, r)
    ensures var s1 := Go(s, x, r);
      var o := SwitchTask(if StateOf(s.state, x) == RUNNING then s1 else s1.(place := s.place[x := Nowhere]));
        !o.Fail? && (o.Ok? ==> Inv(o.s))
  {
    hide Inv, SwitchTask, Follows, Legal, Dying, Leaving, FitsOk, FamilyOk, MutexOk, Gone;
    Running(s, x, Yield, r);
    StandIs(s, x, Yield, r);
    YieldFollows(r, HeldBy(s.held, x), FactsOf(s), x);
    YieldCode(s, x, r);
    if StateOf(s.state, x) == RUNNING {
      YieldRuns(s, x, r);
      SwitchKeeps(Go(s, x, r));
    } else {
      YieldDozes(s, x, r);
      SwitchKeeps(Go(s, x, r).(place := s.place[x := Nowhere]));
    }
  }

  ghost predicate CodeParts(s: State, code: Codes) {
    && Cargos(code, s.place) && Mutexes(code, s.held, s.locked, s.owner) && Fits(code, FactsOf(s))
    && Families(code, s.state, s.held, s.parent, s.woken)
  }

  lemma YieldRuns(s: State, x: Tid, r: Code)
    requires At(s, x, Yield, r) && CodeParts(s, s.code[x := r]) && StateOf(s.state, x) == RUNNING
    ensures Leaving(Go(s, x, r))
  {
    hide Lists, Nodes, Beds, Graves, Burials, Exclusive, Mutexes, Cargos, Fits, Families, Stands, Of, TaskOk, FitsOk,
      Cargo, Legal, Dying, Awaits;
    StandIs(s, x, Yield, r);
    YieldFollows(r, HeldBy(s.held, x), FactsOf(s), x);
    YieldOk(s, x, r);
    GoViews(s, x, r);
    StandsOff(s, Go(s, x, r), x);
  }

  lemma YieldDozes(s: State, x: Tid, r: Code)
    requires At(s, x, Yield, r) && CodeParts(s, s.code[x := r]) && StateOf(s.state, x) != RUNNING
    ensures Leaving(Go(s, x, r).(place := s.place[x := Nowhere]))
  {
    hide Lists, Nodes, Beds, Graves, Burials, Exclusive, Mutexes, Cargos, Fits, Families, Stands, Of, TaskOk, FitsOk,
      Cargo, Legal, Dying, Awaits;
    Running(s, x, Yield, r);
    StandIs(s, x, Yield, r);
    YieldFollows(r, HeldBy(s.held, x), FactsOf(s), x);
    YieldOk(s, x, r);
    var s1 := Go(s, x, r).(place := s.place[x := Nowhere]);
    ListsMove(s.lists, s.place, |s.drainers|, x, Nowhere);
    NodesDoze(s.place, s.linked, s.slots, s.running, x);
    CargosMove(s1.code, s.place, x, Nowhere);
    DozeViews(s, s1, x, r);
    StandsOff(s, s1, x);
  }

  lemma GoViews(s: State, x: Tid, c: Code)
    ensures Off(s, Go(s, x, c), x) && Of(Go(s, x, c), x) == Of(s, x).(code := c)
  {
    hide CodeAt;
    var code' := CodeSet(s.code, x, c);
  }

  lemma DozeViews(s: State, s': State, x: Tid, c: Code)
    requires s' == Go(s, x, c).(place := s.place[x := Nowhere])
    ensures Off(s, s', x) && Of(s', x) == Of(s, x).(code := c, place := Nowhere)
  {
    hide CodeAt, PlaceOf;
    var code' := CodeSet(s.code, x, c);
    var place' := PlaceSet(s.place, x, Nowhere);
  }

  /** The parts about code alone, when only the yield goes. */
  lemma YieldCode(s: State, x: Tid, r: Code)
    requires At(s, x, Yield, r) && Follows(Then(Yield, r), r, HeldBy(s.held, x), FactsOf(s), x)
    requires Awaits(r) == Awaits(Then(Yield, r))
    requires !Head(r).Owner? && !Head(r).Release?
    ensures CodeParts(s, s.code[x := r])
  {
    hide Lists, Nodes, Beds, Graves, Burials, Exclusive, Mutexes, Cargos, Fits, Families, Stands, Of, TaskOk, FitsOk,
      Cargo, Legal, Dying, Awaits;
    Running(s, x, Yield, r);
    CargosGo(s.code, s.place, x, r);
    FitsGo(s.code, FactsOf(s), x, r);
    MutexesGo(s.code, s.held, s.locked, s.owner, x, r);
    KinGo(s, x, r);
    FamiliesOff(s, Go(s, x, r), x);
  }

  // ----- interrupts

  lemma TickKeeps(s: State)
    requires Inv(s)
    ensures var o := SwitchTask(s.(micros := s.micros + MICROS_PER_TICK)); !o.Fail? && (o.Ok? ==> Inv(o.s))
  {
    hide Shared, SwitchTask;
    SameShared(s, s.(micros := s.micros + MICROS_PER_TICK));
    SwitchKeeps(s.(micros := s.micros + MICROS_PER_TICK));
  }

  lemma IrqKeeps(s: State, c: CvId)
    requires Inv(s)
    ensures var o := WakeOldest(s, CvQ(c), if s.running.Some? then s.running.value else 0); o.Ok? && Inv(o.s)
  {
    hide Shared, WakeOldest;
    var u := if s.running.Some? then s.running.value else 0;
    WakeOldestKeeps(s, CvQ(c), u);
    if Queue(s.lists, CvQ(c)) != [] {
      WaiterNotRunning(s, CvQ(c));
      WokeOther(s, WakeOldest(s, CvQ(c), u).s, CvQ(c));
    }
  }
}
