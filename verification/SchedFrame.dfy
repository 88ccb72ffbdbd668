/**
 What a step does to the queues and to the code of tasks that are not running.
 */
module SchedFrame {
  import opened Sched
  import opened Wrappers
  import opened SchedInv
  import opened SchedMoves
  import opened SchedLocal

  // ----- effects of the moves

  /** The list l becomes q, and apart from it only the ready queue may grow, by `more`. */
  ghost predicate Lists2(s: State, s': State, l: ListId, q: seq<Tid>, more: seq<Tid>) {
    && (forall k :: k != l && k != Ready ==> Queue(s'.lists, k) == Queue(s.lists, k))
    && (l != Ready ==> Queue(s'.lists, l) == q)
    && Queue(s'.lists, Ready) == Queue(s.lists, Ready) + more
    && s'.code == s.code && s'.switches == s.switches && s'.running == s.running && s'.drainers == s.drainers
  }

  lemma PushEffect(s: State, l: ListId, t: Tid)
    requires Push(s, l, t).Ok?
    ensures var s' := Push(s, l, t).s;
      Lists2(s, s', l, Queue(s.lists, l) + [t], if l == Ready then [t] else [])
  {
    var lists' := QueueSet(s.lists, l, Queue(s.lists, l) + [t]);
  }

  lemma WakeOldestEffect(s: State, l: ListId, u: Tid)
    requires WakeOldest(s, l, u).Ok? && l != Ready
    ensures var s', q := WakeOldest(s, l, u).s, Queue(s.lists, l);
      Lists2(s, s', l, if q == [] then q else q[1..], if q == [] then [] else [q[0]])
  {
    var q := Queue(s.lists, l);
    if q != [] {
      var lists1 := QueueSet(s.lists, l, q[1..]);
      var lists2 := QueueSet(lists1, Ready, Queue(lists1, Ready) + [q[0]]);
    }
  }

  /** One dispatch: some tasks join the ready queue, then its oldest leaves it to run. */
  ghost predicate Dispatched(s: State, s': State, more: seq<Tid>) {
    var q := Queue(s.lists, Ready) + more;
    q != [] && Queue(s'.lists, Ready) == q[1..] && s'.running == Some(q[0]) && s'.switches == s.switches + 1
  }

  /** What the periodic wake-up takes from the waker's queue. */
  function Kicked(s: State): seq<Tid> {
    var q := Queue(s.lists, CvQ(WAKE_CV));
    if s.micros - s.lastWake > WAKEUP_PERIOD && q != [] then [q[0]] else []
  }

  lemma KickEffect(s: State, u: Tid)
    requires Kick(s, u).Ok?
    ensures var w := CvQ(WAKE_CV); Lists2(s, Kick(s, u).s, w, Queue(s.lists, w)[|Kicked(s)|..], Kicked(s))
  {
    hide WakeOldest;
    if s.micros - s.lastWake > WAKEUP_PERIOD {
      WakeOldestEffect(s.(lastWake := s.micros), CvQ(WAKE_CV), u);
    }
  }

  /** What the switched-out task adds to the ready queue. */
  function Requeued(s: State): seq<Tid> {
    if s.running.Some? && StateOf(s.state, s.running.value) == RUNNING then [s.running.value] else []
  }

  lemma RequeueEffect(s: State)
    requires Requeue(s).Ok?
    ensures Lists2(s, Requeue(s).s, Ready, [], Requeued(s))
  {
    hide Lists2, Push;
    if Requeued(s) == [] {
      StaysOff(s);
    } else {
      PushEffect(s, Ready, s.running.value);
      AnyQueue(s, Requeue(s).s, [s.running.value]);
    }
  }

  lemma StaysOff(s: State)
    requires Requeue(s).Ok? && Requeued(s) == []
    ensures Lists2(s, Requeue(s).s, Ready, [], [])
  {
    hide Queue, Push;
    assert Requeue(s).s == s.(place := Requeue(s).s.place);
  }

  lemma AnyQueue(s: State, s': State, more: seq<Tid>)
    requires Lists2(s, s', Ready, Queue(s.lists, Ready) + more, more)
    ensures Lists2(s, s', Ready, [], more)
  {
  }

  lemma DispatchEffect(s: State)
    requires Dispatch(s).Ok?
    ensures var s' := Dispatch(s).s;
      && Dispatched(s, s', []) && s'.code == s.code && s'.drainers == s.drainers
      && forall k :: k != Ready ==> Queue(s'.lists, k) == Queue(s.lists, k)
  {
    var lists' := QueueSet(s.lists, Ready, Queue(s.lists, Ready)[1..]);
  }

  /** switch_task: at most the waker and the task switched out join the ready queue, then its oldest runs. */
  lemma SwitchEffect(s: State) returns (more: seq<Tid>)
    requires SwitchTask(s).Ok?
    ensures var s' := SwitchTask(s).s;
      && Dispatched(s, s', more) && s'.code == s.code && s'.drainers == s.drainers
      && (forall k :: k != Ready && k != CvQ(WAKE_CV) ==> Queue(s'.lists, k) == Queue(s.lists, k))
      && Queue(s'.lists, CvQ(WAKE_CV)) == Queue(s.lists, CvQ(WAKE_CV))[|Kicked(s)|..]
  {
    hide Kick, Requeue, Dispatch;
    var u := if s.running.Some? then s.running.value else 0;
    var s1 := Kick(s, u).s;
    var s2 := Requeue(s1).s;
    KickEffect(s, u);
    RequeueEffect(s1);
    DispatchEffect(s2);
    more := Kicked(s) + Requeued(s1);
    assert Queue(s.lists, Ready) + Kicked(s) + Requeued(s1) == Queue(s.lists, Ready) + more;
  }

  // ----- effects of the running task's steps

  /** Nothing switched: the ready queue keeps its order and may only grow. */
  ghost predicate Grows(s: State, s': State) {
    s'.switches == s.switches && Queue(s.lists, Ready) <= Queue(s'.lists, Ready)
  }

  /** The ready queue grew, or one task was dispatched from its front. */
  ghost predicate Advances(s: State, s': State) { Grows(s, s') || exists more: seq<Tid> :: Dispatched(s, s', more) }

  /** A queue stays, gets one task at the back, or loses the one at the front. */
  ghost predicate Shift(q: seq<Tid>, q': seq<Tid>) {
    q' == q || (q != [] && q' == q[1..]) || (|q'| == |q| + 1 && q' == q + [q'[|q|]])
  }

  /**
   The queues of mutexes and condition variables are queues; notify_all takes one over as it is, and
   only it drains that.
   */
  ghost predicate Queueing(s: State, s': State, drained: int) {
    && (forall k: nat :: k < |s.drainers| && k != drained ==> Queue(s'.lists, DrainQ(k)) == Queue(s.lists, DrainQ(k)))
    && (forall l: ListId :: l.MutexQ? ==> Shift(Queue(s.lists, l), Queue(s'.lists, l)))
    && (forall l: ListId :: l.CvQ? ==> Shift(Queue(s.lists, l), Queue(s'.lists, l)) || TakenOver(s, s', l))
  }

  ghost predicate TakenOver(s: State, s': State, l: ListId) {
    Queue(s'.lists, l) == [] && Queue(s'.lists, DrainQ(|s.drainers|)) == Queue(s.lists, l)
  }

  /** The code of other tasks is untouched, and all queues move on in order. */
  ghost predicate Orderly(s: State, s': State, x: Tid, drained: int) {
    && (forall u: Tid :: u != x ==> CodeAt(s'.code, u) == CodeAt(s.code, u))
    && Advances(s, s') && Queueing(s, s', drained)
  }

  /** The local list an instruction takes from. */
  function Drained(i: Instr): int { if i.Drain? then i.k else -1 }

  lemma GoOrderly(s: State, s1: State, x: Tid, c: Code, drained: int)
    requires s1.code == s.code && Grows(s, s1) && Queueing(s, s1, drained)
    ensures Orderly(s, Go(s1, x, c), x, drained)
  {
    hide CodeAt, Queue, Shift, TakenOver;
    var code' := CodeSet(s.code, x, c);
    var s' := Go(s1, x, c);
    forall l: ListId | l.CvQ? ensures Shift(Queue(s.lists, l), Queue(s'.lists, l)) || TakenOver(s, s', l) {
      TakenOverGo(s, s1, x, c, l);
    }
  }

  lemma TakenOverGo(s: State, s1: State, x: Tid, c: Code, l: ListId)
    ensures TakenOver(s, s1, l) <==> TakenOver(s, Go(s1, x, c), l)
  {
  }

  /** Nothing but the code of x and fields that are no queues changes. */
  lemma SameOrderly(s: State, s1: State, x: Tid, c: Code)
    requires s1.code == s.code && s1.lists == s.lists && s1.switches == s.switches
    ensures Orderly(s, Go(s1, x, c), x, -1)
  {
    hide CodeAt, Queue;
    var code' := CodeSet(s.code, x, c);
  }

  /** One list shifts, and some tasks join the ready queue. */
  lemma ShiftOrderly(s: State, s1: State, x: Tid, c: Code, l: ListId, q: seq<Tid>, more: seq<Tid>)
    requires Lists2(s, s1, l, q, more) && (l != Ready ==> Shift(Queue(s.lists, l), q))
    ensures Orderly(s, Go(s1, x, c), x, if l.DrainQ? then l.k else -1)
  {
    GoOrderly(s, s1, x, c, if l.DrainQ? then l.k else -1);
  }

  /** The processor is given up after that. */
  lemma SwitchOrderly(s: State, s1: State, x: Tid)
    requires SwitchTask(s1).Ok? && Grows(s, s1) && Queueing(s, s1, -1) && forall u: Tid ::
      u != x ==> CodeAt(s1.code, u) == CodeAt(s.code, u)
    requires Kicked(s1) == []
    ensures Orderly(s, SwitchTask(s1).s, x, -1)
  {
    hide SwitchTask, CodeAt, Shift, Kicked;
    var more := SwitchEffect(s1);
    var s' := SwitchTask(s1).s;
    var grown := Queue(s1.lists, Ready)[|Queue(s.lists, Ready)|..] + more;
    assert Queue(s1.lists, Ready) + more == Queue(s.lists, Ready) + grown;
    assert Dispatched(s, s', grown);
    assert Queueing(s, s', -1) by {
      assert forall l :: l != Ready ==> Queue(s'.lists, l) == Queue(s1.lists, l);
    }
  }

  lemma BlockOrderly(s: State, s1: State, x: Tid, l: ListId)
    requires Block(s1, x, l).Ok? && Grows(s, s1)
    requires (forall u: Tid :: u != x ==> CodeAt(s1.code, u) == CodeAt(s.code, u))
    requires forall k :: k != Ready && k != l ==> Shift(Queue(s.lists, k), Queue(s1.lists, k))
    requires forall k: nat :: Queue(s1.lists, DrainQ(k)) == Queue(s.lists, DrainQ(k))
    requires (l.MutexQ? || l.CvQ?) && Queue(s1.lists, l) == Queue(s.lists, l)
    requires s1.micros - s1.lastWake <= WAKEUP_PERIOD
    ensures Orderly(s, Block(s1, x, l).s, x, -1)
  {
    hide SwitchTask, Push, CodeAt;
    PushEffect(s1, l, x);
    var s2 := Push(s1, l, x).s;
    var s3 := s2.(state := s2.state[x := BLOCKED]);
    PushClock(s1, l, x);
    SwitchOrderly(s, s3, x);
  }

  lemma PushClock(s: State, l: ListId, t: Tid)
    requires Push(s, l, t).Ok?
    ensures var s' := Push(s, l, t).s; s'.micros == s.micros && s'.lastWake == s.lastWake
  {
  }

  /** Instructions that touch no queue. */
  predicate Quiet(i: Instr) {
    || i.Acquire? || i.Owner? || i.Disown? || i.Release? || i.Rouse? || i.SleepTest? || i.SleepIn? || i.WakerScan?
    || i.Register? || i.Adopt? || i.Start? || i.ExitCheck? || i.BurySelf? || i.FreerCheck? || i.FreerTake? || i.Erase?
    || i.WaitCheck? || i.SetWoken? || i.Woken? || i.TakeWoken? || i.Bury?
  }

  lemma QuietOrderly(s: State, x: Tid, i: Instr, r: Code, ch: Choice)
    requires Quiet(i) && Exec(s, x, i, r, ch).Ok?
    ensures Orderly(s, Exec(s, x, i, r, ch).s, x, -1)
  {
    hide Orderly, Exec;
    if i.Acquire? || i.Owner? || i.Disown? || i.Release? {
      LocksOrderly(s, x, i, r, ch);
    } else if i.Rouse? || i.SleepTest? || i.SleepIn? || i.WakerScan? {
      SleepsOrderly(s, x, i, r, ch);
    } else if i.Register? || i.Adopt? || i.Start? || i.ExitCheck? || i.BurySelf? {
      LivesOrderly(s, x, i, r, ch);
    } else if i.FreerCheck? || i.FreerTake? || i.Erase? {
      FreerOrderly(s, x, i, r, ch);
    } else {
      WaitsOrderly(s, x, i, r, ch);
    }
  }

  lemma LocksOrderly(s: State, x: Tid, i: Instr, r: Code, ch: Choice)
    requires (i.Acquire? || i.Owner? || i.Disown? || i.Release?) && Exec(s, x, i, r, ch).Ok?
    ensures Orderly(s, Exec(s, x, i, r, ch).s, x, -1)
  {
    hide Orderly, SwitchTask, Block, PutAway, UnlockNow, Push, Wake, Extract, SwapOut, Pop;
    var h := HeldBy(s.held, x);
    match i
    case Acquire(m) =>
      SameOrderly(s, s.(locked := s.locked + {m}, held := s.held[x := h + {m}]), x, Then(Owner(m), r));
      SameOrderly(s, s, x, if ch.park then Then(Park(m), r) else Then(Yield, Then(Acquire(m), r)));
    case Owner(m) => SameOrderly(s, s.(owner := s.owner[m := x]), x, r);
    case Disown(m) => SameOrderly(s, s.(owner := s.owner - {m}), x, Then(Release(m), r));
    case Release(m) => SameOrderly(s, s.(locked := s.locked - {m}, held := s.held[x := h - {m}]), x, Then(Hand(m), r));
  }

  lemma SleepsOrderly(s: State, x: Tid, i: Instr, r: Code, ch: Choice)
    requires (i.Rouse? || i.SleepTest? || i.SleepIn? || i.WakerScan?) && Exec(s, x, i, r, ch).Ok?
    ensures Orderly(s, Exec(s, x, i, r, ch).s, x, -1)
  {
    hide Orderly, Due, Rouses, Sleepers, StateOf, TakeSleepers, SwitchTask, Block, PutAway, UnlockNow, Push, Wake,
      Extract, SwapOut, Pop;
    match i
    case Rouse(t) => SameOrderly(s, s.(state := s.state[t := RUNNING]), x, Then(Launch(t), r));
    case SleepTest(w) => SameOrderly(s, s, x, if s.micros <= w then Then(Acquire(WT), Then(SleepIn(w), r)) else r);
    case SleepIn(w) =>
      SameOrderly(s, s.(sleeping := s.sleeping[w := Sleepers(s.sleeping, w) + [x]], asleep := s.asleep[x := w]), x,
        Then(SleepBlock(w), r));
    case WakerScan =>
      TakeSame(s, ch.w, x);
      SameOrderly(s, TakeSleepers(s, ch.w, x), x,
        Then(Disown(WT), Rouses(Sleepers(s.sleeping, ch.w), Then(Acquire(WT), Then(WakerScan, r)))));
      SameOrderly(s, s, x, Then(Wait(WAKE_CV, WT), Then(Disown(WT), r)));
  }

  lemma TakeSame(s: State, w: nat, x: Tid)
    ensures var s' := TakeSleepers(s, w, x); s'.code == s.code && s'.lists == s.lists && s'.switches == s.switches
  {
  }

  lemma LivesOrderly(s: State, x: Tid, i: Instr, r: Code, ch: Choice)
    requires i.Register? || i.Adopt? || i.Start? || i.ExitCheck? || i.BurySelf?
    requires Exec(s, x, i, r, ch).Ok?
    ensures Orderly(s, Exec(s, x, i, r, ch).s, x, -1)
  {
    hide Orderly, Due, Rouses, Sleepers, StateOf, NumberOf, FreerSleep, DisposeSelf, BuryCode, ZombieChild,
      TakeSleepers;
    hide SwitchTask, Block, PutAway, UnlockNow, Push, Wake, Extract, SwapOut, Pop;
    match i
    case Register(t, own) =>
      SameOrderly(s, s.(registered := s.registered + {t}), x,
        Then(Disown(AT), Then(if own then Adopt(t) else Start(t), r)));
    case Adopt(t) => SameOrderly(s, s.(parent := s.parent[t := x]), x, Then(Start(t), r));
    case Start(t) => SameOrderly(s, s.(state := s.state[t := RUNNING], life := s.life[t := Alive]), x,
      Then(Launch(t), r));
    case ExitCheck =>
      SameOrderly(s, s, x, Then(Disown(AT), DisposeSelf()));
      SameOrderly(s, s, x, Then(Zombify, Done));
      if NumberOf(s.parent, x) >= 0 {
        SameOrderly(s, s, x, Then(WakeParent(NumberOf(s.parent, x)), Done));
      }
    case BurySelf =>
      SameOrderly(s, s.(graves := s.graves + [x], buried := s.buried + {x}), x,
        Then(Notify(FREE_CV), Then(Disown(TF), Then(BlockSelf, Done))));
  }

  lemma FreerOrderly(s: State, x: Tid, i: Instr, r: Code, ch: Choice)
    requires i.FreerCheck? || i.FreerTake? || i.Erase?
    requires Exec(s, x, i, r, ch).Ok?
    ensures Orderly(s, Exec(s, x, i, r, ch).s, x, -1)
  {
    hide Orderly, Due, Rouses, Sleepers, StateOf, NumberOf, FreerSleep, DisposeSelf, BuryCode, ZombieChild,
      TakeSleepers;
    hide SwitchTask, Block, PutAway, UnlockNow, Push, Wake, Extract, SwapOut, Pop;
    match i
    case FreerCheck =>
      SameOrderly(s, s, x, if s.graves == [] then FreerSleep(r) else Then(Disown(TF),
        Then(Acquire(TF), Then(FreerTake, r))));
    case FreerTake =>
      SameOrderly(s, s, x, FreerSleep(r));
      var t := s.graves[0];
      SameOrderly(s, s.(graves := s.graves[1..], buried := s.buried - {t}), x,
        Then(Disown(TF), Then(Acquire(AT), Then(Erase(t), r))));
    case Erase(t) => SameOrderly(s, s.(registered := s.registered - {t}), x, Then(Disown(AT), r));
  }

  lemma WaitsOrderly(s: State, x: Tid, i: Instr, r: Code, ch: Choice)
    requires i.WaitCheck? || i.SetWoken? || i.Woken? || i.TakeWoken? || i.Bury?
    requires Exec(s, x, i, r, ch).Ok?
    ensures Orderly(s, Exec(s, x, i, r, ch).s, x, -1)
  {
    hide Orderly, Due, Rouses, Sleepers, StateOf, NumberOf, FreerSleep, DisposeSelf, BuryCode, ZombieChild,
      TakeSleepers;
    hide SwitchTask, Block, PutAway, UnlockNow, Push, Wake, Extract, SwapOut, Pop;
    match i
    case WaitCheck(pid) =>
      SameOrderly(s, s, x, Then(Disown(AT), r));
      SameOrderly(s, s, x, r);
      SameOrderly(s, s, x, Then(SetWoken(if pid >= 0 then pid else -1), r));
      SameOrderly(s, s, x, Then(Disown(AT), BuryCode(ch.z, r)));
      if pid >= 0 {
        SameOrderly(s, s, x, BuryCode(pid, Then(Disown(AT), r)));
      }
    case SetWoken(pid) => SameOrderly(s, s.(woken := s.woken[x := pid]), x, Then(WaitBlock(pid), r));
    case Woken(t) => SameOrderly(s, s, x, BuryCode(t, Then(Disown(AT), r)));
    case TakeWoken => SameOrderly(s, s, x, Then(Disown(AT), BuryCode(NumberOf(s.woken, x), r)));
    case Bury(z) =>
      SameOrderly(s, s.(state := s.state[z := BLOCKED], slots := s.slots - {z}, place := s.place[z := Nowhere],
        life := s.life[z := Dead],
        graves := s.graves + [z], buried := s.buried + {z}, burials := s.burials + [z]), x,
          Then(Notify(FREE_CV), Then(Disown(TF), r)));
  }

  lemma AnyDrained(s: State, s': State, x: Tid, drained: int)
    requires Orderly(s, s', x, -1)
    ensures Orderly(s, s', x, drained)
  {
    hide CodeAt, Shift, Advances, TakenOver;
  }

  lemma ExtractOrderly(s: State, x: Tid, l: ListId, empty: Code, rest: Code)
    requires l != Ready
    ensures Orderly(s, Extract(s, x, l, empty, rest), x, if l.DrainQ? then l.k else -1)
  {
    hide Orderly;
    var q := Queue(s.lists, l);
    if q == [] {
      SameOrderly(s, s, x, empty);
      AnyDrained(s, Go(s, x, empty), x, if l.DrainQ? then l.k else -1);
    } else {
      var lists' := QueueSet(s.lists, l, q[1..]);
      ShiftOrderly(s, Pop(s, l, Carried(x)), x, Then(Unblock(q[0]), rest), l, q[1..], []);
    }
  }

  lemma GiveOrderly(s: State, s1: State, x: Tid, t: Tid, c: Code)
    requires Push(s1, Ready, t).Ok? && s1.code == s.code && s1.lists == s.lists && s1.switches == s.switches
    requires s1.running == s.running && s1.drainers == s.drainers
    ensures Orderly(s, Go(Push(s1, Ready, t).s, x, c), x, -1)
  {
    hide Orderly, Push;
    PushEffect(s1, Ready, t);
    AnyQueue(s, Push(s1, Ready, t).s, [t]);
    ShiftOrderly(s, Push(s1, Ready, t).s, x, c, Ready, [], [t]);
  }

  lemma SwapOrderly(s: State, x: Tid, c: CvId, k: Code)
    ensures Orderly(s, Go(SwapOut(s.(drainers := s.drainers + [x]), c, |s.drainers|), x, k), x, -1)
  {
    hide Orderly;
    var s1 := SwapOut(s.(drainers := s.drainers + [x]), c, |s.drainers|);
    var q := Queue(s.lists, CvQ(c));
    var lists1 := QueueSet(s.lists, DrainQ(|s.drainers|), q);
    var lists' := QueueSet(lists1, CvQ(c), []);
    assert TakenOver(s, s1, CvQ(c));
    GoOrderly(s, s1, x, k, -1);
  }

  // ----- steps that unlock in one go, or leave the processor

  /** The state after the lock is given up and its next owner woken. */
  lemma UnlockEffect(s: State, s0: State, x: Tid, m: MutexId)
    requires UnlockNow(s0, x, m).Ok? && s0.lists == s.lists && s0.switches == s.switches
    ensures var s1 := UnlockNow(s0, x, m).s;
      && Grows(s, s1) && s1.code == s0.code && s1.micros == s0.micros && s1.lastWake == s0.lastWake
      && (forall k :: k != Ready && k != MutexQ(m) ==> Queue(s1.lists, k) == Queue(s.lists, k))
      && Shift(Queue(s.lists, MutexQ(m)), Queue(s1.lists, MutexQ(m)))
  {
    hide WakeOldest;
    var s' := s0.(owner := s0.owner - {m}, locked := s0.locked - {m}, held := s0.held[x := HeldBy(s0.held, x) - {m}]);
    WakeOldestEffect(s', MutexQ(m), x);
    WakeClock(s', MutexQ(m), x);
  }

  lemma WakeClock(s: State, l: ListId, u: Tid)
    requires WakeOldest(s, l, u).Ok?
    ensures var s' := WakeOldest(s, l, u).s; s'.micros == s.micros && s'.lastWake == s.lastWake
  {
  }

  lemma LeaveOrderly(s: State, x: Tid, i: Instr, r: Code, ch: Choice)
    requires (i.Park? || i.Wait? || i.SleepBlock? || i.Zombify? || i.WaitBlock? || i.BlockSelf? || i.Yield?)
    requires Exec(s, x, i, r, ch).Ok?
    requires s.micros - s.lastWake <= WAKEUP_PERIOD
    ensures Orderly(s, Exec(s, x, i, r, ch).s, x, -1)
  {
    hide Orderly, Block, SwitchTask, UnlockNow, StateOf, CodeAt, Queueing, PutAway;
    match i
    case Park(m) => QueueUpOrderly(s, x, i, r, ch);
    case Wait(c, m) => QueueUpOrderly(s, x, i, r, ch);
    case SleepBlock(w) =>
      var c := Then(Yield, Then(SleepTest(w), r));
      var s0 := Go(s.(state := s.state[x := BLOCKED]), x, c);
      GoOff(s, s.(state := s.state[x := BLOCKED]), x, c);
      UnlockEffect(s, s0, x, WT);
      UnlockOrderly(s, UnlockNow(s0, x, WT).s, x, WT);
    case Zombify => PutAwayOrderly(s, x, ZOMBIE, Done);
    case WaitBlock(pid) => PutAwayOrderly(s, x, WAITPID_BLOCKED,
      Then(Acquire(AT), Then(if pid >= 0 then Woken(pid) else TakeWoken, r)));
    case BlockSelf =>
      var s1 := s.(state := s.state[x := BLOCKED], life := s.life[x := Dead], place := s.place[x := Nowhere]);
      GoOff(s, s1, x, Done);
      SameQueues(s, Go(s1, x, Done));
      SwitchOrderly(s, Go(s1, x, Done), x);
    case Yield =>
      var s1 := if StateOf(s.state, x) == RUNNING then Go(s, x, r) else Go(s, x, r).(place := s.place[x := Nowhere]);
      GoOff(s, s, x, r);
      SameQueues(s, s1);
      SwitchOrderly(s, s1, x);
  }

  lemma QueueUpOrderly(s: State, x: Tid, i: Instr, r: Code, ch: Choice)
    requires (i.Park? || i.Wait?) && Exec(s, x, i, r, ch).Ok? && s.micros - s.lastWake <= WAKEUP_PERIOD
    ensures Orderly(s, Exec(s, x, i, r, ch).s, x, -1)
  {
    hide Orderly, Block, SwitchTask, UnlockNow, StateOf, CodeAt, Queueing, PutAway;
    var s0 := Go(s, x, Then(Acquire(i.m), r));
    GoOff(s, s, x, Then(Acquire(i.m), r));
    match i
    case Park(m) => BlockOrderly(s, s0, x, MutexQ(m));
    case Wait(c, m) =>
      UnlockEffect(s, s0, x, m);
      BlockOrderly(s, UnlockNow(s0, x, m).s, x, CvQ(c));
  }

  lemma GoOff(s: State, s1: State, x: Tid, c: Code)
    requires s1.code == s.code
    ensures forall u: Tid :: u != x ==> CodeAt(Go(s1, x, c).code, u) == CodeAt(s.code, u)
  {
    hide CodeAt;
    var code' := CodeSet(s.code, x, c);
  }

  lemma SameQueues(s: State, s': State)
    requires s'.lists == s.lists && s'.switches == s.switches
    ensures Grows(s, s') && Queueing(s, s', -1)
  {
    hide Queue;
  }

  lemma UnlockOrderly(s: State, s': State, x: Tid, m: MutexId)
    requires Grows(s, s') && (forall u: Tid :: u != x ==> CodeAt(s'.code, u) == CodeAt(s.code, u))
    requires (forall k :: k != Ready && k != MutexQ(m) ==> Queue(s'.lists, k) == Queue(s.lists, k))
    requires Shift(Queue(s.lists, MutexQ(m)), Queue(s'.lists, MutexQ(m)))
    ensures Queueing(s, s', -1) && Orderly(s, s', x, -1)
  {
    hide Queue, CodeAt;
  }

  lemma PutAwayOrderly(s: State, x: Tid, st: TaskState, c: Code)
    requires PutAway(Go(s, x, c), x, st).Ok? && s.micros - s.lastWake <= WAKEUP_PERIOD
    ensures Orderly(s, PutAway(Go(s, x, c), x, st).s, x, -1)
  {
    hide Orderly, SwitchTask, UnlockNow, CodeAt, Queueing;
    var s0 := Go(s, x, c).(state := s.state[x := st], slots := s.slots + {x}, place := s.place[x := Slot]);
    GoOff(s, s, x, c);
    UnlockEffect(s, s0, x, AT);
    UnlockOrderly(s, UnlockNow(s0, x, AT).s, x, AT);
    SwitchOrderly(s, UnlockNow(s0, x, AT).s, x);
  }

  /** Whatever the running task does next, queues are queues. */
  lemma ExecOrderly(s: State, x: Tid, i: Instr, r: Code, ch: Choice)
    requires Exec(s, x, i, r, ch).Ok? && s.micros - s.lastWake <= WAKEUP_PERIOD
    ensures Orderly(s, Exec(s, x, i, r, ch).s, x, Drained(i))
  {
    hide Orderly, Push, Extract, SwapOut, SwitchTask, UnlockNow, Block, PutAway;
    if Quiet(i) {
      QuietOrderly(s, x, i, r, ch);
    } else {
      match i
      case Hand(m) => ExtractOrderly(s, x, MutexQ(m), r, r);
      case Notify(c) => ExtractOrderly(s, x, CvQ(c), r, r);
      case Drain(k) => ExtractOrderly(s, x, DrainQ(k), r, Then(Drain(k), r));
      case NotifyAll(c) => SwapOrderly(s, x, c, Then(Drain(|s.drainers|), r));
      case Unblock(t) => GiveOrderly(s, s.(state := s.state[t := RUNNING]), x, t, r);
      case Launch(t) => GiveOrderly(s, s, x, t, r);
      case WakeParent(p) =>
        GiveOrderly(s, s.(woken := s.woken[p := x], state := s.state[p := RUNNING], slots := s.slots - {p}), x, p,
          Then(Zombify, Done));
      case _ => LeaveOrderly(s, x, i, r, ch);
    }
  }
}
