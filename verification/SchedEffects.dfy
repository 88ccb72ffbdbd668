/**
 What one instruction can do beside what it is for: leave the processor with
 nobody to run, put a task to bed, take a waiter out of its queue.
 */
module SchedEffects {
  import opened Sched
  import opened Wrappers
  import opened SchedInv
  import opened SchedRun
  import opened SchedFrame
  import opened SchedMoves

  /**
   A switch away from task x finds nothing to run: nobody is ready, x itself is not, and no wake-up
   of the waker is due.
   */
  ghost predicate NobodyLeft(s: State, x: Tid) {
    Queue(s.lists, Ready) == [] && StateOf(s.state, x) != RUNNING && Kicked(s) == []
  }

  lemma RunsOutIff(s: State, x: Tid)
    requires s.running == Some(x)
    ensures SwitchTask(s).Idle? <==> NobodyLeft(s, x)
  {
    hide Kick, Requeue, Dispatch, Queue, Push, StateOf, Kicked, Requeued;
    KickIs(s, x);
    var k := Kick(s, x);
    if k.Ok? {
      KickEffect(s, x);
      RequeueIs(k.s);
      RequeuedIs(k.s, x);
      var r := Requeue(k.s);
      if r.Ok? {
        RequeueEffect(k.s);
        DispatchIs(r.s);
        assert Queue(r.s.lists, Ready) == Queue(s.lists, Ready) + Kicked(s) + Requeued(k.s);
      }
    }
  }

  lemma KickIs(s: State, u: Tid)
    ensures !Kick(s, u).Idle?
    ensures Kicked(s) == [] ==> Kick(s, u).Ok? && Kick(s, u).s.state == s.state
  {
  }

  lemma RequeueIs(s: State)
    ensures !Requeue(s).Idle?
    ensures Requeued(s) == [] ==> Requeue(s).Ok?
  {
  }

  lemma RequeuedIs(s: State, x: Tid)
    requires s.running == Some(x)
    ensures Requeued(s) == [] <==> StateOf(s.state, x) != RUNNING
  {
  }

  lemma DispatchIs(s: State)
    ensures Dispatch(s).Idle? <==> Queue(s.lists, Ready) == []
  {
  }

  // ----- instructions that leave the processor

  /** No wake-up of the waker is due. */
  predicate Timely(s: State) { s.micros - s.lastWake <= WAKEUP_PERIOD }

  /** Nobody left the queue of a condition variable; some may have joined. */
  ghost predicate Waiters(s: State, s': State) {
    forall c: CvId :: Queue(s.lists, CvQ(c)) <= Queue(s'.lists, CvQ(c))
  }

  /** It found nobody to run only if nobody was ready, put nobody to bed, and between ticks woke no waiter. */
  ghost predicate Harmless(s: State, o: Outcome) {
    && (o.Idle? ==> Queue(s.lists, Ready) == [])
    && (o.Ok? ==> o.s.asleep == s.asleep && (Timely(s) ==> Waiters(s, o.s)))
  }

  lemma PushIs(s: State, l: ListId, x: Tid)
    ensures !Push(s, l, x).Idle?
    ensures Push(s, l, x).Ok? ==> Push(s, l, x).s.asleep == s.asleep
  {
    hide Queue;
  }

  lemma WakeOldestIs(s: State, l: ListId, u: Tid)
    ensures !WakeOldest(s, l, u).Idle?
    ensures WakeOldest(s, l, u).Ok? ==> WakeOldest(s, l, u).s.asleep == s.asleep
  {
  }

  lemma UnlockIs(s: State, x: Tid, m: MutexId)
    ensures var o := UnlockNow(s, x, m);
      && !o.Idle? && Harmless(s, o)
      && (o.Ok? ==> Queue(s.lists, Ready) <= Queue(o.s.lists, Ready) && Timely(o.s) == Timely(s) && Waiters(s, o.s))
  {
    hide WakeOldest, Queue;
    var s1 := s.(owner := s.owner - {m}, locked := s.locked - {m}, held := s.held[x := HeldBy(s.held, x) - {m}]);
    WakeOldestIs(s1, MutexQ(m), x);
    if WakeOldest(s1, MutexQ(m), x).Ok? {
      WakeOldestEffect(s1, MutexQ(m), x);
      WakeClock(s1, MutexQ(m), x);
    }
  }

  lemma SwitchIs(s: State)
    ensures Harmless(s, SwitchTask(s))
  {
    hide Kick, Requeue, Dispatch, Queue;
    var u := if s.running.Some? then s.running.value else 0;
    KickIs(s, u);
    var k := Kick(s, u);
    if k.Ok? {
      KickEffect(s, u);
      KickAsleep(s, u);
      RequeueIs(k.s);
      var r := Requeue(k.s);
      if r.Ok? {
        RequeueEffect(k.s);
        RequeueAsleep(k.s);
        DispatchIs(r.s);
        DispatchAsleep(r.s);
        if Dispatch(r.s).Ok? {
          DispatchEffect(r.s);
        }
      }
    }
  }

  lemma KickAsleep(s: State, u: Tid)
    ensures Kick(s, u).Ok? ==> Kick(s, u).s.asleep == s.asleep
  {
    hide WakeOldest;
    WakeOldestIs(s.(lastWake := s.micros), CvQ(WAKE_CV), u);
  }

  lemma RequeueAsleep(s: State)
    ensures Requeue(s).Ok? ==> Requeue(s).s.asleep == s.asleep
  {
  }

  lemma DispatchAsleep(s: State)
    ensures Dispatch(s).Ok? ==> Dispatch(s).s.asleep == s.asleep
  {
  }

  lemma BlockIs(s: State, x: Tid, l: ListId)
    requires l != Ready
    ensures Harmless(s, Block(s, x, l))
  {
    hide Push, SwitchTask, Queue;
    PushIs(s, l, x);
    if Push(s, l, x).Ok? {
      PushEffect(s, l, x);
      PushClock(s, l, x);
      var s1 := Push(s, l, x).s;
      SwitchIs(s1.(state := s1.state[x := BLOCKED]));
    }
  }

  lemma PutAwayIs(s: State, x: Tid, st: TaskState)
    ensures Harmless(s, PutAway(s, x, st))
  {
    hide UnlockNow, SwitchTask, Queue;
    var s1 := s.(state := s.state[x := st], slots := s.slots + {x}, place := s.place[x := Slot]);
    UnlockIs(s1, x, AT);
    if UnlockNow(s1, x, AT).Ok? {
      SwitchIs(UnlockNow(s1, x, AT).s);
    }
  }

  lemma WaitIs(s: State, x: Tid, c: CvId, m: MutexId)
    ensures var o := UnlockNow(s, x, m); o.Ok? ==> Harmless(s, Block(o.s, x, CvQ(c)))
  {
    hide UnlockNow, Block, Queue;
    UnlockIs(s, x, m);
    if UnlockNow(s, x, m).Ok? {
      BlockIs(UnlockNow(s, x, m).s, x, CvQ(c));
    }
  }

  predicate Switches(i: Instr) {
    i.Park? || i.Yield? || i.Wait? || i.SleepBlock? || i.Zombify? || i.BlockSelf? || i.WaitBlock?
  }

  lemma SwitchingIs(s: State, x: Tid, i: Instr, r: Code, ch: Choice)
    requires Switches(i)
    ensures Harmless(s, Exec(s, x, i, r, ch))
  {
    hide Harmless, Exec;
    match i
    case Park(m) => ParkIs(s, x, m, r, ch);
    case Wait(c, m) => CvWaitIs(s, x, c, m, r, ch);
    case SleepBlock(w) => SleepBlockIs(s, x, w, r, ch);
    case Zombify => ZombifyIs(s, x, r, ch);
    case WaitBlock(pid) => WaitBlockIs(s, x, pid, r, ch);
    case BlockSelf => BlockSelfIs(s, x, r, ch);
    case Yield => YieldIs(s, x, r, ch);
  }

  lemma ParkIs(s: State, x: Tid, m: MutexId, r: Code, ch: Choice)
    ensures Harmless(s, Exec(s, x, Park(m), r, ch))
  {
    hide Block, Queue;
    BlockIs(Go(s, x, Then(Acquire(m), r)), x, MutexQ(m));
  }

  lemma CvWaitIs(s: State, x: Tid, c: CvId, m: MutexId, r: Code, ch: Choice)
    ensures Harmless(s, Exec(s, x, Wait(c, m), r, ch))
  {
    hide Block, UnlockNow, Queue;
    UnlockIs(Go(s, x, Then(Acquire(m), r)), x, m);
    WaitIs(Go(s, x, Then(Acquire(m), r)), x, c, m);
  }

  lemma SleepBlockIs(s: State, x: Tid, w: nat, r: Code, ch: Choice)
    ensures Harmless(s, Exec(s, x, SleepBlock(w), r, ch))
  {
    hide UnlockNow, Queue;
    UnlockIs(Go(s.(state := s.state[x := BLOCKED]), x, Then(Yield, Then(SleepTest(w), r))), x, WT);
  }

  lemma ZombifyIs(s: State, x: Tid, r: Code, ch: Choice)
    ensures Harmless(s, Exec(s, x, Zombify, r, ch))
  {
    hide PutAway, Queue;
    PutAwayIs(Go(s, x, Done), x, ZOMBIE);
  }

  lemma WaitBlockIs(s: State, x: Tid, pid: int, r: Code, ch: Choice)
    ensures Harmless(s, Exec(s, x, WaitBlock(pid), r, ch))
  {
    hide PutAway, Queue;
    PutAwayIs(Go(s, x, Then(Acquire(AT), Then(if pid >= 0 then Woken(pid) else TakeWoken, r))), x, WAITPID_BLOCKED);
  }

  lemma BlockSelfIs(s: State, x: Tid, r: Code, ch: Choice)
    ensures Harmless(s, Exec(s, x, BlockSelf, r, ch))
  {
    hide SwitchTask, Queue;
    SwitchIs(Go(s.(state := s.state[x := BLOCKED], life := s.life[x := Dead], place := s.place[x := Nowhere]), x,
      Done));
  }

  lemma YieldIs(s: State, x: Tid, r: Code, ch: Choice)
    ensures Harmless(s, Exec(s, x, Yield, r, ch))
  {
    hide SwitchTask, Queue;
    var s1 := Go(s, x, r);
    SwitchIs(if StateOf(s.state, x) == RUNNING then s1 else s1.(place := s.place[x := Nowhere]));
  }

  // ----- instructions that keep it

  /** Nobody but the task itself goes to bed, and waiters leave only a queue that is notified. */
  ghost predicate Stays(s: State, x: Tid, i: Instr, o: Outcome) {
    && !o.Idle?
    && (o.Ok? ==> forall t :: t in o.s.asleep ==> t in s.asleep || (t == x && i.SleepIn?))
    && (o.Ok? ==> forall c: CvId ::
      i == Notify(c) || i == NotifyAll(c) || Queue(s.lists, CvQ(c)) <= Queue(o.s.lists, CvQ(c)))
  }

  lemma SameStays(s: State, s1: State, x: Tid, c: Code, i: Instr)
    requires s1.asleep == s.asleep && s1.lists == s.lists
    ensures Stays(s, x, i, Ok(Go(s1, x, c)))
  {
  }

  lemma StayingIs(s: State, x: Tid, i: Instr, r: Code, ch: Choice)
    requires !Switches(i)
    ensures Stays(s, x, i, Exec(s, x, i, r, ch))
  {
    hide Exec, Stays;
    if i.Acquire? || i.Owner? || i.Disown? || i.Release? {
      LocksStay(s, x, i, r, ch);
    } else if i.Rouse? || i.SleepTest? || i.SleepIn? || i.WakerScan? {
      SleepsStay(s, x, i, r, ch);
    } else if i.Unblock? || i.Launch? || i.WakeParent? {
      GivesStay(s, x, i, r, ch);
    } else if i.Hand? || i.Notify? || i.NotifyAll? || i.Drain? {
      TakesStay(s, x, i, r, ch);
    } else if i.Register? || i.Adopt? || i.Start? || i.ExitCheck? || i.BurySelf? {
      LivesStay(s, x, i, r, ch);
    } else if i.FreerCheck? || i.FreerTake? || i.Erase? {
      FreerStays(s, x, i, r, ch);
    } else {
      WaitsStay(s, x, i, r, ch);
    }
  }

  lemma LocksStay(s: State, x: Tid, i: Instr, r: Code, ch: Choice)
    requires i.Acquire? || i.Owner? || i.Disown? || i.Release?
    ensures Stays(s, x, i, Exec(s, x, i, r, ch))
  {
    hide Stays, SwitchTask, Block, PutAway, UnlockNow, Push, Wake, Extract, SwapOut, Pop, Go;
    var h := HeldBy(s.held, x);
    StaysFail(s, x, i);
    match i
    case Acquire(m) =>
      SameStays(s, s.(locked := s.locked + {m}, held := s.held[x := h + {m}]), x, Then(Owner(m), r), i);
      SameStays(s, s, x, if ch.park then Then(Park(m), r) else Then(Yield, Then(Acquire(m), r)), i);
    case Owner(m) => SameStays(s, s.(owner := s.owner[m := x]), x, r, i);
    case Disown(m) => SameStays(s, s.(owner := s.owner - {m}), x, Then(Release(m), r), i);
    case Release(m) => SameStays(s, s.(locked := s.locked - {m}, held := s.held[x := h - {m}]), x, Then(Hand(m), r), i);
  }

  lemma StaysFail(s: State, x: Tid, i: Instr)
    ensures Stays(s, x, i, Fail)
  {
  }

  lemma SleepsStay(s: State, x: Tid, i: Instr, r: Code, ch: Choice)
    requires i.Rouse? || i.SleepTest? || i.SleepIn? || i.WakerScan?
    ensures Stays(s, x, i, Exec(s, x, i, r, ch))
  {
    hide Stays, Due, Rouses, Sleepers, StateOf, TakeSleepers, SwitchTask, Block, PutAway, UnlockNow, Push, Wake,
      Extract, SwapOut, Pop, Go;
    match i
    case Rouse(t) => SameStays(s, s.(state := s.state[t := RUNNING]), x, Then(Launch(t), r), i);
    case SleepTest(w) => SameStays(s, s, x, if s.micros <= w then Then(Acquire(WT), Then(SleepIn(w), r)) else r, i);
    case SleepIn(w) => LiesDown(s, x, w, r);
    case WakerScan =>
      GetsUp(s, x, ch.w, Then(Disown(WT), Rouses(Sleepers(s.sleeping, ch.w), Then(Acquire(WT), Then(WakerScan, r)))));
      SameStays(s, s, x, Then(Wait(WAKE_CV, WT), Then(Disown(WT), r)), i);
  }

  lemma LiesDown(s: State, x: Tid, w: nat, r: Code)
    ensures var s1 := s.(sleeping := s.sleeping[w := Sleepers(s.sleeping, w) + [x]], asleep := s.asleep[x := w]);
      Stays(s, x, SleepIn(w), Ok(Go(s1, x, Then(SleepBlock(w), r))))
  {
  }

  lemma GetsUp(s: State, x: Tid, w: nat, c: Code)
    ensures Stays(s, x, WakerScan, Ok(Go(TakeSleepers(s, w, x), x, c)))
  {
    hide Sleepers;
  }

  lemma GivesStay(s: State, x: Tid, i: Instr, r: Code, ch: Choice)
    requires i.Unblock? || i.Launch? || i.WakeParent?
    ensures Stays(s, x, i, Exec(s, x, i, r, ch))
  {
    hide Push, SwitchTask, Block, PutAway, UnlockNow, Queue, Stays, Go;
    StaysFail(s, x, i);
    match i
    case Unblock(t) => PushStays(s, s.(state := s.state[t := RUNNING]), x, t, r, i);
    case Launch(t) => PushStays(s, s, x, t, r, i);
    case WakeParent(p) =>
      PushStays(s, s.(woken := s.woken[p := x], state := s.state[p := RUNNING], slots := s.slots - {p}), x, p,
        Then(Zombify, Done), i);
  }

  lemma PushStays(s: State, s1: State, x: Tid, t: Tid, c: Code, i: Instr)
    requires s1.asleep == s.asleep && s1.lists == s.lists
    ensures var o := Push(s1, Ready, t); !o.Idle? && (o.Ok? ==> Stays(s, x, i, Ok(Go(o.s, x, c))))
  {
    hide Push, Queue;
    PushIs(s1, Ready, t);
    if Push(s1, Ready, t).Ok? {
      PushEffect(s1, Ready, t);
    }
  }

  lemma ExtractStays(s: State, x: Tid, l: ListId, empty: Code, rest: Code, i: Instr)
    requires l.CvQ? ==> i == Notify(l.c)
    ensures Stays(s, x, i, Ok(Extract(s, x, l, empty, rest)))
  {
    hide Stays, Pop, Go, Queue;
    SameStays(s, s, x, empty, i);
    if Queue(s.lists, l) != [] {
      PopStays(s, x, l, Carried(x), Then(Unblock(Queue(s.lists, l)[0]), rest), i);
    }
  }

  lemma PopStays(s: State, x: Tid, l: ListId, p: Place, c: Code, i: Instr)
    requires Queue(s.lists, l) != [] && (l.CvQ? ==> i == Notify(l.c))
    ensures Stays(s, x, i, Ok(Go(Pop(s, l, p), x, c)))
  {
    hide Queue;
    var lists' := QueueSet(s.lists, l, Queue(s.lists, l)[1..]);
    assert Pop(s, l, p).lists == lists';
  }

  lemma TakesStay(s: State, x: Tid, i: Instr, r: Code, ch: Choice)
    requires i.Hand? || i.Notify? || i.NotifyAll? || i.Drain?
    ensures Stays(s, x, i, Exec(s, x, i, r, ch))
  {
    hide Stays, SwitchTask, Block, PutAway, UnlockNow, Push, Wake, Extract, SwapOut, Pop, Go, Queue;
    match i
    case Hand(m) => ExtractStays(s, x, MutexQ(m), r, r, i);
    case Notify(c) => ExtractStays(s, x, CvQ(c), r, r, i);
    case NotifyAll(c) => SwapStays(s, x, c, |s.drainers|, r);
    case Drain(k) => ExtractStays(s, x, DrainQ(k), r, Then(Drain(k), r), i);
  }

  lemma SwapStays(s: State, x: Tid, c: CvId, k: nat, r: Code)
    ensures Stays(s, x, NotifyAll(c), Ok(Go(SwapOut(s.(drainers := s.drainers + [x]), c, k), x, Then(Drain(k), r))))
  {
    hide Queue;
    var lists1 := QueueSet(s.lists, DrainQ(k), Queue(s.lists, CvQ(c)));
    var lists2 := QueueSet(lists1, CvQ(c), []);
  }

  lemma LivesStay(s: State, x: Tid, i: Instr, r: Code, ch: Choice)
    requires i.Register? || i.Adopt? || i.Start? || i.ExitCheck? || i.BurySelf?
    ensures Stays(s, x, i, Exec(s, x, i, r, ch))
  {
    hide Stays, StateOf, NumberOf, DisposeSelf, Go, SwitchTask, Block, PutAway, UnlockNow, Push, Wake, Extract,
      SwapOut, Pop;
    StaysFail(s, x, i);
    match i
    case Register(t, own) =>
      SameStays(s, s.(registered := s.registered + {t}), x,
        Then(Disown(AT), Then(if own then Adopt(t) else Start(t), r)), i);
    case Adopt(t) => SameStays(s, s.(parent := s.parent[t := x]), x, Then(Start(t), r), i);
    case Start(t) => SameStays(s, s.(state := s.state[t := RUNNING], life := s.life[t := Alive]), x,
      Then(Launch(t), r), i);
    case ExitCheck =>
      SameStays(s, s, x, Then(Disown(AT), DisposeSelf()), i);
      SameStays(s, s, x, Then(Zombify, Done), i);
      if NumberOf(s.parent, x) >= 0 {
        SameStays(s, s, x, Then(WakeParent(NumberOf(s.parent, x)), Done), i);
      }
    case BurySelf =>
      SameStays(s, s.(graves := s.graves + [x], buried := s.buried + {x}), x,
        Then(Notify(FREE_CV), Then(Disown(TF), Then(BlockSelf, Done))), i);
  }

  lemma FreerStays(s: State, x: Tid, i: Instr, r: Code, ch: Choice)
    requires i.FreerCheck? || i.FreerTake? || i.Erase?
    ensures Stays(s, x, i, Exec(s, x, i, r, ch))
  {
    hide Stays, StateOf, FreerSleep, Go, SwitchTask, Block, PutAway, UnlockNow, Push, Wake, Extract, SwapOut, Pop;
    StaysFail(s, x, i);
    match i
    case FreerCheck =>
      SameStays(s, s, x, if s.graves == [] then FreerSleep(r) else Then(Disown(TF),
        Then(Acquire(TF), Then(FreerTake, r))), i);
    case FreerTake =>
      if s.graves != [] {
        var t := s.graves[0];
        SameStays(s, s, x, FreerSleep(r), i);
        SameStays(s, s.(graves := s.graves[1..], buried := s.buried - {t}), x,
          Then(Disown(TF), Then(Acquire(AT), Then(Erase(t), r))), i);
      }
    case Erase(t) => SameStays(s, s.(registered := s.registered - {t}), x, Then(Disown(AT), r), i);
  }

  lemma WaitsStay(s: State, x: Tid, i: Instr, r: Code, ch: Choice)
    requires i.WaitCheck? || i.SetWoken? || i.Woken? || i.TakeWoken? || i.Bury?
    ensures Stays(s, x, i, Exec(s, x, i, r, ch))
  {
    hide Stays, StateOf, NumberOf, BuryCode, ZombieChild, Go, SwitchTask, Block, PutAway, UnlockNow, Push, Wake,
      Extract, SwapOut, Pop;
    StaysFail(s, x, i);
    match i
    case WaitCheck(pid) =>
      SameStays(s, s, x, Then(Disown(AT), r), i);
      SameStays(s, s, x, r, i);
      SameStays(s, s, x, Then(SetWoken(if pid >= 0 then pid else -1), r), i);
      SameStays(s, s, x, Then(Disown(AT), BuryCode(ch.z, r)), i);
      if pid >= 0 {
        SameStays(s, s, x, BuryCode(pid, Then(Disown(AT), r)), i);
      }
    case SetWoken(pid) => SameStays(s, s.(woken := s.woken[x := pid]), x, Then(WaitBlock(pid), r), i);
    case Woken(t) => SameStays(s, s, x, BuryCode(t, Then(Disown(AT), r)), i);
    case TakeWoken =>
      if NumberOf(s.woken, x) >= 0 {
        SameStays(s, s, x, Then(Disown(AT), BuryCode(NumberOf(s.woken, x), r)), i);
      }
    case Bury(z) =>
      SameStays(s, s.(state := s.state[z := BLOCKED], slots := s.slots - {z}, place := s.place[z := Nowhere],
        life := s.life[z := Dead],
        graves := s.graves + [z], buried := s.buried + {z}, burials := s.burials + [z]), x,
          Then(Notify(FREE_CV), Then(Disown(TF), r)), i);
  }
}
