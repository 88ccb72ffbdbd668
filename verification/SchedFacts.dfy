/**
 What one step can do to the states of tasks, their kin, the sleepers and the
 clock.
 */
module SchedFacts {
  import opened Sched
  import opened Wrappers
  import opened SchedInv

  // ----- moves of nodes

  /** Tasks may have been made running; apart from that only nodes have moved. */
  ghost predicate Calm(s: State, s': State) {
    && s'.code == s.code && s'.woken == s.woken && s'.parent == s.parent && s'.registered == s.registered
    && s'.life == s.life && s'.asleep == s.asleep && s'.sleeping == s.sleeping && s'.micros == s.micros
    && s'.buried == s.buried && s'.graves == s.graves && s'.held == s.held
    && forall t: Tid :: StateOf(s'.state, t) == StateOf(s.state, t) || StateOf(s'.state, t) == RUNNING
  }

  lemma CalmSame(s: State, s': State)
    requires s' == s.(lists := s'.lists, place := s'.place, linked := s'.linked, slots := s'.slots,
      running := s'.running, switches := s'.switches, lastWake := s'.lastWake)
    ensures Calm(s, s')
  {
  }

  lemma CalmTrans(s: State, s1: State, s2: State)
    requires Calm(s, s1) && Calm(s1, s2)
    ensures Calm(s, s2)
  {
    hide StateOf;
  }

  lemma PushCalm(s: State, l: ListId, t: Tid)
    requires Push(s, l, t).Ok?
    ensures Calm(s, Push(s, l, t).s)
  {
    hide Calm;
    CalmSame(s, Push(s, l, t).s);
  }

  lemma RunningCalm(s: State, t: Tid)
    ensures Calm(s, s.(state := s.state[t := RUNNING]))
  {
  }

  lemma WakeOldestCalm(s: State, l: ListId, u: Tid)
    requires WakeOldest(s, l, u).Ok?
    ensures Calm(s, WakeOldest(s, l, u).s)
  {
    hide Calm, Push, Queue;
    if Queue(s.lists, l) == [] {
      CalmSame(s, s);
    } else {
      var t := Queue(s.lists, l)[0];
      var s1 := Pop(s, l, Carried(u));
      var s2 := s1.(state := s1.state[t := RUNNING]);
      CalmSame(s, s1);
      RunningCalm(s1, t);
      PushCalm(s2, Ready, t);
      CalmTrans(s, s1, s2);
      CalmTrans(s, s2, Push(s2, Ready, t).s);
    }
  }

  lemma UnlockCalm(s: State, x: Tid, m: MutexId)
    requires UnlockNow(s, x, m).Ok?
    ensures Calm(Unlocked(s, x, m), UnlockNow(s, x, m).s) && UnlockNow(s, x, m).s.code == s.code
  {
    hide WakeOldest;
    WakeOldestCalm(Unlocked(s, x, m), MutexQ(m), x);
  }

  function Unlocked(s: State, x: Tid, m: MutexId): State {
    s.(owner := s.owner - {m}, locked := s.locked - {m}, held := s.held[x := HeldBy(s.held, x) - {m}])
  }

  lemma KickCalm(s: State, u: Tid)
    requires Kick(s, u).Ok?
    ensures Calm(s, Kick(s, u).s)
  {
    hide Calm, WakeOldest;
    var s1 := s.(lastWake := s.micros);
    CalmSame(s, s);
    CalmSame(s, s1);
    if s.micros - s.lastWake > WAKEUP_PERIOD {
      WakeOldestCalm(s1, CvQ(WAKE_CV), u);
      CalmTrans(s, s1, WakeOldest(s1, CvQ(WAKE_CV), u).s);
    }
  }

  lemma RequeueCalm(s: State)
    requires Requeue(s).Ok?
    ensures Calm(s, Requeue(s).s)
  {
    hide Calm, Push, StateOf, PlaceOf;
    CalmSame(s, s);
    if s.running.Some? {
      var t := s.running.value;
      if StateOf(s.state, t) == RUNNING {
        PushCalm(s, Ready, t);
      } else {
        CalmSame(s, s.(place := s.place[t := Nowhere]));
      }
    }
  }

  lemma DispatchCalm(s: State)
    requires Dispatch(s).Ok?
    ensures Calm(s, Dispatch(s).s)
  {
    hide Calm;
    CalmSame(s, Dispatch(s).s);
  }

  lemma SwitchCalm(s: State)
    requires SwitchTask(s).Ok?
    ensures Calm(s, SwitchTask(s).s)
  {
    hide Calm, Kick, Requeue, Dispatch;
    var u := if s.running.Some? then s.running.value else 0;
    var s1 := Kick(s, u).s;
    var s2 := Requeue(s1).s;
    KickCalm(s, u);
    RequeueCalm(s1);
    DispatchCalm(s2);
    CalmTrans(s, s1, s2);
    CalmTrans(s, s2, Dispatch(s2).s);
  }

  // ----- instructions

  /** The states a task can come to: its own instruction may make it a zombie or let it wait for a child. */
  predicate Comes(was: TaskState, now: TaskState, own: bool, i: Instr) {
    || now == was || now == RUNNING || now == BLOCKED
    || (own && i.Zombify? && now == ZOMBIE) || (own && i.WaitBlock? && now == WAITPID_BLOCKED)
  }

  /** Which instructions change what. */
  ghost predicate Mild(s: State, s': State, x: Tid, i: Instr) {
    && s'.micros == s.micros
    && (forall t: Tid :: Comes(StateOf(s.state, t), StateOf(s'.state, t), t == x, i))
    && (!i.SetWoken? && !i.WakeParent? ==> s'.woken == s.woken)
    && (!i.Adopt? ==> s'.parent == s.parent)
    && (!i.SleepIn? && !i.WakerScan? ==> s'.sleeping == s.sleeping && s'.asleep == s.asleep)
    && (!i.Register? && !i.Erase? ==> s'.registered == s.registered)
    && (!i.Start? && !i.BlockSelf? && !i.Bury? ==> s'.life == s.life)
    && (!i.BurySelf? && !i.FreerTake? && !i.Bury? ==> s'.buried == s.buried && s'.graves == s.graves)
    && (forall t: Tid :: t != x ==> HeldBy(s'.held, t) == HeldBy(s.held, t))
  }

  lemma MildGo(s: State, s1: State, x: Tid, c: Code, i: Instr)
    requires Mild(s, s1, x, i)
    ensures Mild(s, Go(s1, x, c), x, i)
  {
    hide StateOf, Comes;
  }

  lemma MildCalm(s: State, s1: State, s2: State, x: Tid, i: Instr)
    requires Mild(s, s1, x, i) && Calm(s1, s2)
    ensures Mild(s, s2, x, i)
  {
    hide StateOf;
  }

  lemma CalmMild(s: State, s': State, x: Tid, i: Instr)
    requires Calm(s, s')
    ensures Mild(s, s', x, i)
  {
    hide StateOf;
  }

  /** The lock is given up on the way. */
  lemma UnlockMild(s: State, s1: State, x: Tid, m: MutexId, i: Instr)
    requires Mild(s, s1, x, i) && UnlockNow(s1, x, m).Ok?
    ensures Mild(s, UnlockNow(s1, x, m).s, x, i)
  {
    hide Mild, UnlockNow, Calm, Unlocked;
    UnlockCalm(s1, x, m);
    UnlockedMild(s, s1, x, m, i);
    MildCalm(s, Unlocked(s1, x, m), UnlockNow(s1, x, m).s, x, i);
  }

  lemma UnlockedMild(s: State, s1: State, x: Tid, m: MutexId, i: Instr)
    requires Mild(s, s1, x, i)
    ensures Mild(s, Unlocked(s1, x, m), x, i)
  {
    hide StateOf, Comes;
  }

  /** Instructions that end with a switch. */
  lemma SwitchMild(s: State, s1: State, x: Tid, i: Instr)
    requires Mild(s, s1, x, i) && SwitchTask(s1).Ok?
    ensures Mild(s, SwitchTask(s1).s, x, i)
  {
    hide Mild, SwitchTask, Calm;
    SwitchCalm(s1);
    MildCalm(s, s1, SwitchTask(s1).s, x, i);
  }

  lemma BlockMild(s: State, s1: State, x: Tid, l: ListId, i: Instr)
    requires Mild(s, s1, x, i) && Block(s1, x, l).Ok?
    ensures Mild(s, Block(s1, x, l).s, x, i)
  {
    hide Mild, SwitchTask, Push, Calm;
    PushCalm(s1, l, x);
    var s2 := Push(s1, l, x).s;
    MildCalm(s, s1, s2, x, i);
    MildBlocked(s, s2, x, i);
    SwitchMild(s, s2.(state := s2.state[x := BLOCKED]), x, i);
  }

  lemma MildBlocked(s: State, s1: State, x: Tid, i: Instr)
    requires Mild(s, s1, x, i)
    ensures Mild(s, s1.(state := s1.state[x := BLOCKED]), x, i)
  {
  }

  lemma PutAwayMild(s: State, c: Code, x: Tid, st: TaskState, i: Instr)
    requires PutAway(Go(s, x, c), x, st).Ok? && Comes(StateOf(s.state, x), st, true, i)
    ensures Mild(s, PutAway(Go(s, x, c), x, st).s, x, i)
  {
    hide Mild, SwitchTask, UnlockNow, Calm;
    var s1 := Go(s, x, c).(state := s.state[x := st], slots := s.slots + {x}, place := s.place[x := Slot]);
    MildAway(s, s1, x, st, i);
    var s2 := UnlockNow(s1, x, AT).s;
    UnlockMild(s, s1, x, AT, i);
    SwitchMild(s, s2, x, i);
  }

  lemma MildAway(s: State, s1: State, x: Tid, st: TaskState, i: Instr)
    requires s1 == s.(code := s1.code, state := s.state[x := st], slots := s1.slots, place := s1.place)
    requires Comes(StateOf(s.state, x), st, true, i)
    ensures Mild(s, s1, x, i)
  {
  }

  lemma MildSame(s: State, x: Tid, i: Instr)
    ensures Mild(s, s, x, i)
  {
  }

  lemma ExecMild(s: State, x: Tid, i: Instr, r: Code, ch: Choice)
    requires Exec(s, x, i, r, ch).Ok?
    ensures Mild(s, Exec(s, x, i, r, ch).s, x, i)
  {
    hide Mild, Exec;
    if i.Acquire? || i.Owner? || i.Disown? || i.Release? {
      LocksMild(s, x, i, r, ch);
    } else if i.Hand? || i.Notify? || i.NotifyAll? || i.Drain? {
      TakesMild(s, x, i, r, ch);
    } else if i.Unblock? || i.Rouse? || i.Launch? || i.WakeParent? || i.Register? || i.Adopt? || i.Start? {
      GivesMild(s, x, i, r, ch);
    } else if i.SleepTest? || i.SleepIn? || i.WakerScan? || i.SleepBlock? {
      SleepsMild(s, x, i, r, ch);
    } else if i.Park? || i.Yield? || i.Wait? || i.Zombify? || i.BlockSelf? || i.WaitBlock? {
      LeavesMild(s, x, i, r, ch);
    } else {
      RestMild(s, x, i, r, ch);
    }
  }

  lemma ExtractMild(s: State, x: Tid, l: ListId, empty: Code, rest: Code, i: Instr)
    ensures Mild(s, Extract(s, x, l, empty, rest), x, i)
  {
    hide Mild, Calm, Queue;
    MildSame(s, x, i);
    MildGo(s, s, x, empty, i);
    if Queue(s.lists, l) != [] {
      CalmSame(s, Pop(s, l, Carried(x)));
      CalmMild(s, Pop(s, l, Carried(x)), x, i);
      MildGo(s, Pop(s, l, Carried(x)), x, Then(Unblock(Queue(s.lists, l)[0]), rest), i);
    }
  }

  lemma LocksMild(s: State, x: Tid, i: Instr, r: Code, ch: Choice)
    requires i.Acquire? || i.Owner? || i.Disown? || i.Release?
    requires Exec(s, x, i, r, ch).Ok?
    ensures Mild(s, Exec(s, x, i, r, ch).s, x, i)
  {
    hide Extract, SwapOut, SwitchTask, Block, PutAway, UnlockNow, Push, Wake, StateOf, Mild;
    var h := HeldBy(s.held, x);
    match i
    case Acquire(m) =>
      PlainMild(s, s.(locked := s.locked + {m}, held := s.held[x := h + {m}]), x, x, Then(Owner(m), r), i);
      PlainMild(s, s, x, x, if ch.park then Then(Park(m), r) else Then(Yield, Then(Acquire(m), r)), i);
    case Owner(m) => PlainMild(s, s.(owner := s.owner[m := x]), x, x, r, i);
    case Disown(m) => PlainMild(s, s.(owner := s.owner - {m}), x, x, Then(Release(m), r), i);
    case Release(m) =>
      PlainMild(s, s.(locked := s.locked - {m}, held := s.held[x := h - {m}]), x, x, Then(Hand(m), r), i);
  }

  lemma TakesMild(s: State, x: Tid, i: Instr, r: Code, ch: Choice)
    requires i.Hand? || i.Notify? || i.NotifyAll? || i.Drain?
    requires Exec(s, x, i, r, ch).Ok?
    ensures Mild(s, Exec(s, x, i, r, ch).s, x, i)
  {
    hide Extract, SwapOut, SwitchTask, Block, PutAway, UnlockNow, Push, Wake, StateOf, Mild;
    match i
    case Hand(m) => ExtractMild(s, x, MutexQ(m), r, r, i);
    case Notify(c) => ExtractMild(s, x, CvQ(c), r, r, i);
    case Drain(k) => ExtractMild(s, x, DrainQ(k), r, Then(Drain(k), r), i);
    case NotifyAll(c) => SwapMild(s, x, c, r);
  }

  lemma SwapMild(s: State, x: Tid, c: CvId, r: Code)
    ensures Exec(s, x, NotifyAll(c), r, Choice(false, 0, 0)).Ok?
    ensures var k := |s.drainers|;
      Mild(s, Go(SwapOut(s.(drainers := s.drainers + [x]), c, k), x, Then(Drain(k), r)), x, NotifyAll(c))
  {
    hide StateOf;
  }

  lemma GivesMild(s: State, x: Tid, i: Instr, r: Code, ch: Choice)
    requires i.Unblock? || i.Rouse? || i.Launch? || i.WakeParent? || i.Register? || i.Adopt? || i.Start?
    requires Exec(s, x, i, r, ch).Ok?
    ensures Mild(s, Exec(s, x, i, r, ch).s, x, i)
  {
    hide Push, SwitchTask, Block, PutAway, UnlockNow, Extract, SwapOut, Mild, Calm, StateOf;
    match i
    case Unblock(t) => PushMild(s, s.(state := s.state[t := RUNNING]), x, t, r, i);
    case Launch(t) => PushMild(s, s, x, t, r, i);
    case WakeParent(p) =>
      PushMild(s, s.(woken := s.woken[p := x], state := s.state[p := RUNNING], slots := s.slots - {p}), x, p,
        Then(Zombify, Done), i);
    case _ => BirthsMild(s, x, i, r, ch);
  }

  lemma BirthsMild(s: State, x: Tid, i: Instr, r: Code, ch: Choice)
    requires i.Rouse? || i.Register? || i.Adopt? || i.Start?
    requires Exec(s, x, i, r, ch).Ok?
    ensures Mild(s, Exec(s, x, i, r, ch).s, x, i)
  {
    hide Push, SwitchTask, Block, PutAway, UnlockNow, Extract, SwapOut, Mild, Calm, StateOf;
    match i
    case Rouse(t) => PlainMild(s, s.(state := s.state[t := RUNNING]), x, t, Then(Launch(t), r), i);
    case Start(t) =>
      PlainMild(s, s.(state := s.state[t := RUNNING], life := s.life[t := Alive]), x, t, Then(Launch(t), r), i);
    case Register(t, own) =>
      PlainMild(s, s.(registered := s.registered + {t}), x, t,
        Then(Disown(AT), Then(if own then Adopt(t) else Start(t), r)), i);
    case Adopt(t) => PlainMild(s, s.(parent := s.parent[t := x]), x, t, Then(Start(t), r), i);
  }

  /** Of the fields that matter the instruction changes only those it may; and no state, or that of t to running. */
  ghost predicate Fields(s: State, s1: State, t: Tid, i: Instr) {
    && s1.micros == s.micros && (s1.state == s.state || s1.state == s.state[t := RUNNING])
    && (i.SetWoken? || i.WakeParent? || s1.woken == s.woken) && (i.Adopt? || s1.parent == s.parent)
    && s1.sleeping == s.sleeping && s1.asleep == s.asleep
    && (i.Register? || i.Erase? || s1.registered == s.registered) && (i.Start? || s1.life == s.life)
    && (i.BurySelf? || i.FreerTake? || (s1.buried == s.buried && s1.graves == s.graves))
  }

  /** Of the mutexes held at most those of x change. */
  ghost predicate HeldKept(s: State, s1: State, x: Tid) {
    s1.held == s.held || s1.held == s.held[x := HeldBy(s1.held, x)]
  }

  lemma PlainMild(s: State, s1: State, x: Tid, t: Tid, c: Code, i: Instr)
    requires Fields(s, s1, t, i) && HeldKept(s, s1, x)
    ensures Mild(s, s1, x, i) && Mild(s, Go(s1, x, c), x, i)
  {
    hide Mild;
    OthersHold(s, s1, x);
    StatesCome(s, s1, x, t, i);
    FieldsMild(s, s1, x, t, i);
    MildGo(s, s1, x, c, i);
  }

  lemma StatesCome(s: State, s1: State, x: Tid, t: Tid, i: Instr)
    requires s1.state == s.state || s1.state == s.state[t := RUNNING]
    ensures forall u: Tid :: Comes(StateOf(s.state, u), StateOf(s1.state, u), u == x, i)
  {
  }

  lemma FieldsMild(s: State, s1: State, x: Tid, t: Tid, i: Instr)
    requires Fields(s, s1, t, i) && (forall u: Tid :: u != x ==> HeldBy(s1.held, u) == HeldBy(s.held, u))
    requires forall u: Tid :: Comes(StateOf(s.state, u), StateOf(s1.state, u), u == x, i)
    ensures Mild(s, s1, x, i)
  {
    hide StateOf, Comes, HeldBy;
  }

  lemma OthersHold(s: State, s1: State, x: Tid)
    requires HeldKept(s, s1, x)
    ensures forall u: Tid :: u != x ==> HeldBy(s1.held, u) == HeldBy(s.held, u)
  {
  }

  lemma PushMild(s: State, s1: State, x: Tid, t: Tid, c: Code, i: Instr)
    requires Fields(s, s1, t, i) && s1.held == s.held && Push(s1, Ready, t).Ok?
    ensures Mild(s, Go(Push(s1, Ready, t).s, x, c), x, i)
  {
    hide Push, Mild, Calm, Fields;
    PlainMild(s, s1, x, t, c, i);
    PushCalm(s1, Ready, t);
    MildCalm(s, s1, Push(s1, Ready, t).s, x, i);
    MildGo(s, Push(s1, Ready, t).s, x, c, i);
  }

  lemma SleepsMild(s: State, x: Tid, i: Instr, r: Code, ch: Choice)
    requires i.SleepTest? || i.SleepIn? || i.WakerScan? || i.SleepBlock?
    requires Exec(s, x, i, r, ch).Ok?
    ensures Mild(s, Exec(s, x, i, r, ch).s, x, i)
  {
    hide Push, SwitchTask, Block, PutAway, UnlockNow, Extract, SwapOut, Mild, Calm, StateOf, Due, Rouses, TakeSleepers;
    match i
    case SleepTest(w) =>
      MildSame(s, x, i);
      MildGo(s, s, x, if s.micros <= w then Then(Acquire(WT), Then(SleepIn(w), r)) else r, i);
    case SleepIn(w) => LiesMild(s, x, w, r);
    case WakerScan =>
      MildSame(s, x, i);
      RisesMild(s, x, ch.w);
      MildGo(s, s, x, Then(Wait(WAKE_CV, WT), Then(Disown(WT), r)), i);
      MildGo(s, TakeSleepers(s, ch.w, x), x,
        Then(Disown(WT), Rouses(Sleepers(s.sleeping, ch.w), Then(Acquire(WT), Then(WakerScan, r)))), i);
    case SleepBlock(w) =>
      var s1 := Go(s.(state := s.state[x := BLOCKED]), x, Then(Yield, Then(SleepTest(w), r)));
      MildAway(s, s1, x, BLOCKED, i);
      UnlockMild(s, s1, x, WT, i);
  }

  lemma LiesMild(s: State, x: Tid, w: nat, r: Code)
    ensures var s1 := s.(sleeping := s.sleeping[w := Sleepers(s.sleeping, w) + [x]], asleep := s.asleep[x := w]);
      Mild(s, Go(s1, x, Then(SleepBlock(w), r)), x, SleepIn(w))
  {
    hide StateOf, Sleepers;
  }

  lemma RisesMild(s: State, x: Tid, w: nat)
    ensures Mild(s, TakeSleepers(s, w, x), x, WakerScan)
  {
    hide StateOf, Sleepers;
  }

  lemma LeavesMild(s: State, x: Tid, i: Instr, r: Code, ch: Choice)
    requires i.Park? || i.Yield? || i.Wait? || i.Zombify? || i.BlockSelf? || i.WaitBlock?
    requires Exec(s, x, i, r, ch).Ok?
    ensures Mild(s, Exec(s, x, i, r, ch).s, x, i)
  {
    hide Push, SwitchTask, Block, PutAway, UnlockNow, Extract, SwapOut, Mild, Calm, StateOf;
    MildSame(s, x, i);
    match i
    case Park(m) =>
      MildGo(s, s, x, Then(Acquire(m), r), i);
      BlockMild(s, Go(s, x, Then(Acquire(m), r)), x, MutexQ(m), i);
    case Wait(c, m) =>
      var s1 := Go(s, x, Then(Acquire(m), r));
      MildGo(s, s, x, Then(Acquire(m), r), i);
      UnlockMild(s, s1, x, m, i);
      BlockMild(s, UnlockNow(s1, x, m).s, x, CvQ(c), i);
    case Yield =>
      var s1 := Go(s, x, r);
      MildGo(s, s, x, r, i);
      CalmSame(s1, s1.(place := s.place[x := Nowhere]));
      MildCalm(s, s1, s1.(place := s.place[x := Nowhere]), x, i);
      SwitchMild(s, if StateOf(s.state, x) == RUNNING then s1 else s1.(place := s.place[x := Nowhere]), x, i);
    case Zombify => PutAwayMild(s, Done, x, ZOMBIE, i);
    case WaitBlock(pid) =>
      PutAwayMild(s, Then(Acquire(AT), Then(if pid >= 0 then Woken(pid) else TakeWoken, r)), x, WAITPID_BLOCKED, i);
    case BlockSelf =>
      var s1 := Go(s.(state := s.state[x := BLOCKED], life := s.life[x := Dead], place := s.place[x := Nowhere]), x,
        Done);
      EndsMild(s, x);
      SwitchMild(s, s1, x, i);
  }

  lemma EndsMild(s: State, x: Tid)
    ensures Mild(s, Go(s.(state := s.state[x := BLOCKED], life := s.life[x := Dead], place := s.place[x := Nowhere]), x,
      Done), x, BlockSelf)
  {
  }

  lemma RestMild(s: State, x: Tid, i: Instr, r: Code, ch: Choice)
    requires i.ExitCheck? || i.BurySelf? || i.FreerCheck? || i.FreerTake? || i.Erase? || i.WaitCheck? || i.SetWoken?
      || i.Woken? || i.TakeWoken? || i.Bury?
    requires Exec(s, x, i, r, ch).Ok?
    ensures Mild(s, Exec(s, x, i, r, ch).s, x, i)
  {
    hide Mild, Exec;
    if i.ExitCheck? || i.BurySelf? || i.FreerCheck? || i.FreerTake? || i.Erase? {
      DeathsMild(s, x, i, r, ch);
    } else {
      WaitsMild(s, x, i, r, ch);
    }
  }

  lemma DeathsMild(s: State, x: Tid, i: Instr, r: Code, ch: Choice)
    requires i.ExitCheck? || i.BurySelf? || i.FreerCheck? || i.FreerTake? || i.Erase?
    requires Exec(s, x, i, r, ch).Ok?
    ensures Mild(s, Exec(s, x, i, r, ch).s, x, i)
  {
    hide Push, SwitchTask, Block, PutAway, UnlockNow, Extract, SwapOut, FreerSleep, DisposeSelf, StateOf, Mild,
      NumberOf;
    match i
    case ExitCheck =>
      PlainMild(s, s, x, x, Then(Disown(AT), DisposeSelf()), i);
      PlainMild(s, s, x, x, Then(Zombify, Done), i);
      if NumberOf(s.parent, x) >= 0 {
        PlainMild(s, s, x, x, Then(WakeParent(NumberOf(s.parent, x)), Done), i);
      }
    case BurySelf =>
      PlainMild(s, s.(graves := s.graves + [x], buried := s.buried + {x}), x, x,
        Then(Notify(FREE_CV), Then(Disown(TF), Then(BlockSelf, Done))), i);
    case FreerCheck =>
      PlainMild(s, s, x, x,
        if s.graves == [] then FreerSleep(r) else Then(Disown(TF), Then(Acquire(TF), Then(FreerTake, r))), i);
    case FreerTake =>
      PlainMild(s, s, x, x, FreerSleep(r), i);
      var t := s.graves[0];
      PlainMild(s, s.(graves := s.graves[1..], buried := s.buried - {t}), x, x,
        Then(Disown(TF), Then(Acquire(AT), Then(Erase(t), r))), i);
    case Erase(t) => PlainMild(s, s.(registered := s.registered - {t}), x, x, Then(Disown(AT), r), i);
  }

  lemma WaitsMild(s: State, x: Tid, i: Instr, r: Code, ch: Choice)
    requires i.WaitCheck? || i.SetWoken? || i.Woken? || i.TakeWoken? || i.Bury?
    requires Exec(s, x, i, r, ch).Ok?
    ensures Mild(s, Exec(s, x, i, r, ch).s, x, i)
  {
    hide Push, SwitchTask, Block, PutAway, UnlockNow, Extract, SwapOut, BuryCode, StateOf, Mild, NumberOf, ZombieChild;
    match i
    case WaitCheck(pid) =>
      PlainMild(s, s, x, x, Then(Disown(AT), r), i);
      PlainMild(s, s, x, x, r, i);
      PlainMild(s, s, x, x, Then(SetWoken(if pid >= 0 then pid else -1), r), i);
      PlainMild(s, s, x, x, Then(Disown(AT), BuryCode(ch.z, r)), i);
      if pid >= 0 {
        PlainMild(s, s, x, x, BuryCode(pid, Then(Disown(AT), r)), i);
      }
    case SetWoken(pid) => PlainMild(s, s.(woken := s.woken[x := pid]), x, x, Then(WaitBlock(pid), r), i);
    case Woken(t) => PlainMild(s, s, x, x, BuryCode(t, Then(Disown(AT), r)), i);
    case TakeWoken => PlainMild(s, s, x, x, Then(Disown(AT), BuryCode(NumberOf(s.woken, x), r)), i);
    case Bury(z) => BuriesMild(s, x, z, r, ch);
  }

  lemma BuriesMild(s: State, x: Tid, z: Tid, r: Code, ch: Choice)
    requires Exec(s, x, Bury(z), r, ch).Ok?
    ensures Mild(s, Exec(s, x, Bury(z), r, ch).s, x, Bury(z))
  {
    hide SwitchTask, Push;
  }
}
