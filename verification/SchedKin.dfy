/**
 waitpid and exit over whole runs: nobody is left waiting for a child that is
 gone, and an exit wakes the parent that waits for it.
 */
module SchedKin {
  import opened Sched
  import opened Wrappers
  import opened SchedInv
  import opened SchedLocal
  import opened SchedRun
  import opened SchedFacts
  import opened SchedTheorems
  import opened SchedSleep
  import opened SchedCalls

  /** The task sleeps in waitpid_block and would take z for an answer. */
  predicate WaitsFor(s: State, p: Tid, z: Tid) {
    && StateOf(s.state, p) == WAITPID_BLOCKED && NumberOf(s.parent, z) == p
    && (NumberOf(s.woken, p) == z || NumberOf(s.woken, p) == -1)
  }

  ghost predicate NoneInVain(s: State) {
    forall p: Tid, z: Tid :: WaitsFor(s, p, z) ==> StateOf(s.state, z) != ZOMBIE
  }

  /** Nor is anybody about to become a zombie that is waited for. */
  ghost predicate NoneMissed(s: State) {
    forall p: Tid, z: Tid :: WaitsFor(s, p, z) ==> Head(CodeAt(s.code, z)) != Zombify
  }

  /** The code is about to wait, and would take z for an answer. */
  predicate Asks(c: Code, z: Tid) {
    (Head(c).SetWoken? || Head(c).WaitBlock?) && (Head(c).pid == z || Head(c).pid == -1)
  }

  /** Nor is anybody about to wait for a zombie. */
  ghost predicate NoneOverlooked(s: State) {
    forall p: Tid, z: Tid :: Asks(CodeAt(s.code, p), z) && NumberOf(s.parent, z) == p ==> StateOf(s.state, z) != ZOMBIE
  }

  ghost predicate ZombiesDone(s: State) {
    forall z: Tid :: StateOf(s.state, z) == ZOMBIE ==> CodeAt(s.code, z) == Done
  }

  // ----- code

  predicate Tense(i: Instr) { i.Zombify? || i.SetWoken? || i.WaitBlock? }

  predicate AsksWell(i: Instr) { i.WaitCheck? ==> i.pid >= -1 }

  /** Nothing in the code ends in a zombie or in waitpid_block without looking first, or for good. */
  predicate Still(c: Code) { c.Done? || (!Tense(c.i) && !c.i.BlockSelf? && AsksWell(c.i) && Still(c.rest)) }

  predicate Plain(c: Code) { c.Then? ==> AsksWell(c.i) && !c.i.BlockSelf? && Still(c.rest) }

  /** A task that is about to block for good is on its way to be freed. */
  ghost predicate Plainly(s: State) {
    forall u: Tid :: Plain(CodeAt(s.code, u)) || (Dying(CodeAt(s.code, u)) && u in s.buried)
  }

  ghost predicate DeadDone(s: State) { forall t: Tid :: LifeOf(s.life, t) == Dead ==> CodeAt(s.code, t) == Done }

  ghost predicate Kin(s: State) {
    NoneInVain(s) && NoneMissed(s) && NoneOverlooked(s) && ZombiesDone(s) && DeadDone(s) && Plainly(s)
  }

  /** Which instruction may come to be next only after which. */
  predicate Follows(j: Instr, i: Instr) {
    && (j.Zombify? ==> i.ExitCheck? || i.WakeParent?) && (j.SetWoken? ==> i.WaitCheck?)
    && (j.WaitBlock? ==> i.SetWoken?) && !j.BlockSelf?
  }

  predicate Next(c: Code, i: Instr) { Plain(c) && (c.Then? ==> Follows(c.i, i)) }

  lemma StillNext(c: Code, i: Instr)
    requires Still(c)
    ensures Next(c, i)
  {
  }

  lemma StillThen(j: Instr, r: Code)
    requires Still(r) && !Tense(j) && !j.BlockSelf? && AsksWell(j)
    ensures Still(Then(j, r))
  {
  }

  lemma GoNext(s: State, x: Tid, c: Code, i: Instr)
    requires Next(c, i)
    ensures Next(CodeAt(Go(s, x, c).code, x), i)
  {
  }

  lemma GoStill(s: State, x: Tid, c: Code, i: Instr)
    requires Still(c)
    ensures Next(CodeAt(Go(s, x, c).code, x), i)
  {
    StillNext(c, i);
  }

  lemma GoThen(s: State, x: Tid, j: Instr, r: Code, i: Instr)
    requires Still(r) && AsksWell(j) && Follows(j, i)
    ensures Next(Then(j, r), i) && Next(CodeAt(Go(s, x, Then(j, r)).code, x), i)
  {
    GoNext(s, x, Then(j, r), i);
  }

  lemma FragmentsStill(z: Tid, r: Code)
    requires Still(r)
    ensures Still(Done) && Still(DisposeSelf()) && Still(FreerSleep(r)) && Still(BuryCode(z, r))
  {
    var c := Then(Disown(TF), r);
    StillThen(Wait(FREE_CV, TF), c);
    StillThen(Acquire(TF), Then(Wait(FREE_CV, TF), c));
  }

  lemma CodeNext(s: State, s': State, x: Tid, i: Instr)
    requires s'.code == s.code && Next(CodeAt(s.code, x), i)
    ensures Next(CodeAt(s'.code, x), i)
  {
  }

  lemma ExecNext(s: State, x: Tid, i: Instr, r: Code, ch: Choice)
    requires Exec(s, x, i, r, ch).Ok? && Still(r) && AsksWell(i) && !i.BlockSelf? && !i.BurySelf?
    ensures Next(CodeAt(Exec(s, x, i, r, ch).s.code, x), i)
  {
    hide Next, Exec, CodeAt, Still;
    if i.Acquire? || i.Owner? || i.Disown? || i.Release? {
      LocksNext(s, x, i, r, ch);
    } else if i.Hand? || i.Notify? || i.NotifyAll? || i.Drain? {
      TakesNext(s, x, i, r, ch);
    } else if i.Unblock? || i.Rouse? || i.Launch? || i.WakeParent? || i.Register? || i.Adopt? || i.Start? {
      GivesNext(s, x, i, r, ch);
    } else if i.SleepTest? || i.SleepIn? || i.WakerScan? || i.SleepBlock? {
      SleepsNext(s, x, i, r, ch);
    } else if i.Park? || i.Yield? || i.Wait? || i.Zombify? || i.WaitBlock? {
      LeavesNext(s, x, i, r, ch);
    } else if i.ExitCheck? || i.FreerCheck? || i.FreerTake? || i.Erase? {
      DeathsNext(s, x, i, r, ch);
    } else {
      WaitsNext(s, x, i, r, ch);
    }
  }

  lemma LocksNext(s: State, x: Tid, i: Instr, r: Code, ch: Choice)
    requires (i.Acquire? || i.Owner? || i.Disown? || i.Release?) && Exec(s, x, i, r, ch).Ok? && Still(r)
    ensures Next(CodeAt(Exec(s, x, i, r, ch).s.code, x), i)
  {
    hide SwitchTask, Block, PutAway, UnlockNow, Push, Wake, Extract, SwapOut, Go, CodeAt, Next, Still;
    var h := HeldBy(s.held, x);
    match i
    case Acquire(m) =>
      StillThen(i, r);
      GoThen(s.(locked := s.locked + {m}, held := s.held[x := h + {m}]), x, Owner(m), r, i);
      GoThen(s, x, Park(m), r, i);
      GoThen(s, x, Yield, Then(i, r), i);
    case Owner(m) => GoStill(s.(owner := s.owner[m := x]), x, r, i);
    case Disown(m) => GoThen(s.(owner := s.owner - {m}), x, Release(m), r, i);
    case Release(m) => GoThen(s.(locked := s.locked - {m}, held := s.held[x := h - {m}]), x, Hand(m), r, i);
  }

  lemma ExtractNext(s: State, x: Tid, l: ListId, empty: Code, rest: Code, i: Instr)
    requires Still(empty) && Still(rest)
    ensures Next(CodeAt(Extract(s, x, l, empty, rest).code, x), i)
  {
    hide Go, CodeAt, Queue, Pop, Next, Still;
    GoStill(s, x, empty, i);
    if Queue(s.lists, l) != [] {
      GoThen(Pop(s, l, Carried(x)), x, Unblock(Queue(s.lists, l)[0]), rest, i);
    }
  }

  lemma TakesNext(s: State, x: Tid, i: Instr, r: Code, ch: Choice)
    requires (i.Hand? || i.Notify? || i.NotifyAll? || i.Drain?) && Exec(s, x, i, r, ch).Ok? && Still(r)
    ensures Next(CodeAt(Exec(s, x, i, r, ch).s.code, x), i)
  {
    hide SwitchTask, Block, PutAway, UnlockNow, Push, Wake, Extract, SwapOut, Go, CodeAt, Next, Still;
    match i
    case Hand(m) => ExtractNext(s, x, MutexQ(m), r, r, i);
    case Notify(c) => ExtractNext(s, x, CvQ(c), r, r, i);
    case Drain(k) =>
      StillThen(i, r);
      ExtractNext(s, x, DrainQ(k), r, Then(i, r), i);
    case NotifyAll(c) =>
      var k := |s.drainers|;
      GoThen(SwapOut(s.(drainers := s.drainers + [x]), c, k), x, Drain(k), r, i);
  }

  lemma GivesNext(s: State, x: Tid, i: Instr, r: Code, ch: Choice)
    requires i.Unblock? || i.Rouse? || i.Launch? || i.WakeParent? || i.Register? || i.Adopt? || i.Start?
    requires Exec(s, x, i, r, ch).Ok? && Still(r)
    ensures Next(CodeAt(Exec(s, x, i, r, ch).s.code, x), i)
  {
    hide SwitchTask, Block, PutAway, UnlockNow, Push, Extract, SwapOut, Go, CodeAt, Next, Still, StateOf;
    match i
    case Unblock(t) => GoStill(Push(s.(state := s.state[t := RUNNING]), Ready, t).s, x, r, i);
    case Launch(t) => GoStill(Push(s, Ready, t).s, x, r, i);
    case WakeParent(p) =>
      var s1 := s.(woken := s.woken[p := x], state := s.state[p := RUNNING], slots := s.slots - {p});
      FragmentsStill(p, r);
      GoThen(Push(s1, Ready, p).s, x, Zombify, Done, i);
    case _ => BirthsNext(s, x, i, r, ch);
  }

  lemma BirthsNext(s: State, x: Tid, i: Instr, r: Code, ch: Choice)
    requires (i.Rouse? || i.Register? || i.Adopt? || i.Start?) && Exec(s, x, i, r, ch).Ok? && Still(r)
    ensures Next(CodeAt(Exec(s, x, i, r, ch).s.code, x), i)
  {
    hide SwitchTask, Block, PutAway, UnlockNow, Push, Wake, Extract, SwapOut, Go, CodeAt, Next, Still, StateOf;
    match i
    case Rouse(t) => GoThen(s.(state := s.state[t := RUNNING]), x, Launch(t), r, i);
    case Start(t) => GoThen(s.(state := s.state[t := RUNNING], life := s.life[t := Alive]), x, Launch(t), r, i);
    case Register(t, own) =>
      StillThen(if own then Adopt(t) else Start(t), r);
      GoThen(s.(registered := s.registered + {t}), x, Disown(AT), Then(if own then Adopt(t) else Start(t), r), i);
    case Adopt(t) => GoThen(s.(parent := s.parent[t := x]), x, Start(t), r, i);
  }

  lemma {:induction false} RousesStill(ts: seq<Tid>, k: Code)
    requires Still(k)
    ensures Still(Rouses(ts, k))
    decreases |ts|
  {
    if ts != [] {
      RousesStill(ts[1..], k);
    }
  }

  lemma SleepsNext(s: State, x: Tid, i: Instr, r: Code, ch: Choice)
    requires (i.SleepTest? || i.SleepIn? || i.WakerScan? || i.SleepBlock?) && Exec(s, x, i, r, ch).Ok? && Still(r)
    ensures Next(CodeAt(Exec(s, x, i, r, ch).s.code, x), i)
  {
    hide Exec, Next, Still, CodeAt;
    match i
    case SleepTest(w) =>
      SleepEndsIff(s, x, w, r, ch);
      StillThen(SleepIn(w), r);
      StillNext(r, i);
      GoThen(s, x, Acquire(WT), Then(SleepIn(w), r), i);
    case SleepIn(w) =>
      SleepInBeds(s, x, w, r, ch);
      GoThen(s, x, SleepBlock(w), r, i);
    case SleepBlock(w) =>
      BlockBeds(s, x, w, r, ch);
      StillThen(SleepTest(w), r);
      GoThen(s, x, Yield, Then(SleepTest(w), r), i);
    case WakerScan => ScanNext(s, x, r, ch);
  }

  lemma ScanNext(s: State, x: Tid, r: Code, ch: Choice)
    requires Still(r)
    ensures Exec(s, x, WakerScan, r, ch).Ok? && Next(CodeAt(Exec(s, x, WakerScan, r, ch).s.code, x), WakerScan)
  {
    hide SwitchTask, Block, PutAway, UnlockNow, Push, Wake, Extract, SwapOut, Go, CodeAt, Next, Still, Due, Rouses,
      TakeSleepers, Sleepers, StateOf;
    var k := Then(Acquire(WT), Then(WakerScan, r));
    StillThen(WakerScan, r);
    StillThen(Acquire(WT), Then(WakerScan, r));
    RousesStill(Sleepers(s.sleeping, ch.w), k);
    GoThen(TakeSleepers(s, ch.w, x), x, Disown(WT), Rouses(Sleepers(s.sleeping, ch.w), k), WakerScan);
    StillThen(Disown(WT), r);
    GoThen(s, x, Wait(WAKE_CV, WT), Then(Disown(WT), r), WakerScan);
  }

  lemma BlockNext(s1: State, x: Tid, l: ListId, i: Instr)
    requires Next(CodeAt(s1.code, x), i) && Block(s1, x, l).Ok?
    ensures Next(CodeAt(Block(s1, x, l).s.code, x), i)
  {
    hide SwitchTask, Push, Next, CodeAt;
    PushCalm(s1, l, x);
    var s2 := Push(s1, l, x).s;
    SwitchCalm(s2.(state := s2.state[x := BLOCKED]));
  }

  lemma PutAwayNext(s1: State, x: Tid, st: TaskState, i: Instr)
    requires Next(CodeAt(s1.code, x), i) && PutAway(s1, x, st).Ok?
    ensures Next(CodeAt(PutAway(s1, x, st).s.code, x), i)
  {
    hide SwitchTask, UnlockNow, Next, CodeAt;
    var s2 := s1.(state := s1.state[x := st], slots := s1.slots + {x}, place := s1.place[x := Slot]);
    UnlockCalm(s2, x, AT);
    SwitchCalm(UnlockNow(s2, x, AT).s);
  }

  lemma LeavesNext(s: State, x: Tid, i: Instr, r: Code, ch: Choice)
    requires i.Park? || i.Yield? || i.Wait? || i.Zombify? || i.WaitBlock?
    requires Exec(s, x, i, r, ch).Ok? && Still(r)
    ensures Next(CodeAt(Exec(s, x, i, r, ch).s.code, x), i)
  {
    hide SwitchTask, Block, PutAway, UnlockNow, Push, Wake, Extract, SwapOut, Go, CodeAt, Next, Still, Calm, StateOf;
    StillNext(r, i);
    match i
    case Park(m) =>
      GoThen(s, x, Acquire(m), r, i);
      BlockNext(Go(s, x, Then(Acquire(m), r)), x, MutexQ(m), i);
    case Wait(c, m) =>
      var s1 := Go(s, x, Then(Acquire(m), r));
      GoThen(s, x, Acquire(m), r, i);
      UnlockCalm(s1, x, m);
      CodeNext(s1, UnlockNow(s1, x, m).s, x, i);
      BlockNext(UnlockNow(s1, x, m).s, x, CvQ(c), i);
    case Yield => YieldCode(s, x, r, ch);
    case _ => EndsNext(s, x, i, r, ch);
  }

  lemma EndsNext(s: State, x: Tid, i: Instr, r: Code, ch: Choice)
    requires (i.Zombify? || i.WaitBlock?) && Exec(s, x, i, r, ch).Ok? && Still(r)
    ensures Next(CodeAt(Exec(s, x, i, r, ch).s.code, x), i)
  {
    hide SwitchTask, Block, PutAway, UnlockNow, Push, Wake, Extract, SwapOut, Go, CodeAt, Next, Still, Calm, StateOf;
    FragmentsStill(0, r);
    match i
    case Zombify =>
      GoStill(s, x, Done, i);
      PutAwayNext(Go(s, x, Done), x, ZOMBIE, i);
    case WaitBlock(pid) =>
      var c := Then(if pid >= 0 then Woken(pid) else TakeWoken, r);
      StillThen(if pid >= 0 then Woken(pid) else TakeWoken, r);
      GoThen(s, x, Acquire(AT), c, i);
      PutAwayNext(Go(s, x, Then(Acquire(AT), c)), x, WAITPID_BLOCKED, i);
  }

  lemma DeathsNext(s: State, x: Tid, i: Instr, r: Code, ch: Choice)
    requires i.ExitCheck? || i.FreerCheck? || i.FreerTake? || i.Erase?
    requires Exec(s, x, i, r, ch).Ok? && Still(r)
    ensures Next(CodeAt(Exec(s, x, i, r, ch).s.code, x), i)
  {
    hide Exec, Next, Still, CodeAt;
    match i
    case ExitCheck => ExitNext(s, x, r, ch);
    case FreerCheck => FreerCheckNext(s, x, r, ch);
    case FreerTake => FreerTakeNext(s, x, r, ch);
    case Erase(t) => EraseNext(s, x, t, r, ch);
  }

  lemma ExitNext(s: State, x: Tid, r: Code, ch: Choice)
    requires Exec(s, x, ExitCheck, r, ch).Ok? && Still(r)
    ensures Next(CodeAt(Exec(s, x, ExitCheck, r, ch).s.code, x), ExitCheck)
  {
    hide SwitchTask, Block, PutAway, UnlockNow, Push, Wake, Extract, SwapOut, Go, CodeAt, Next, Still, StateOf,
      NumberOf, DisposeSelf;
    FragmentsStill(0, r);
    GoThen(s, x, Disown(AT), DisposeSelf(), ExitCheck);
    GoThen(s, x, Zombify, Done, ExitCheck);
    if NumberOf(s.parent, x) >= 0 {
      GoThen(s, x, WakeParent(NumberOf(s.parent, x)), Done, ExitCheck);
    }
  }

  lemma FreerCheckNext(s: State, x: Tid, r: Code, ch: Choice)
    requires Exec(s, x, FreerCheck, r, ch).Ok? && Still(r)
    ensures Next(CodeAt(Exec(s, x, FreerCheck, r, ch).s.code, x), FreerCheck)
  {
    hide SwitchTask, Block, PutAway, UnlockNow, Push, Wake, Extract, SwapOut, Go, CodeAt, Next, Still, FreerSleep;
    FragmentsStill(0, r);
    StillThen(FreerTake, r);
    StillThen(Acquire(TF), Then(FreerTake, r));
    GoStill(s, x, FreerSleep(r), FreerCheck);
    GoThen(s, x, Disown(TF), Then(Acquire(TF), Then(FreerTake, r)), FreerCheck);
  }

  lemma FreerTakeNext(s: State, x: Tid, r: Code, ch: Choice)
    requires Exec(s, x, FreerTake, r, ch).Ok? && Still(r)
    ensures Next(CodeAt(Exec(s, x, FreerTake, r, ch).s.code, x), FreerTake)
  {
    hide Exec, CodeAt, Next, Still, FreerSleep;
    FreerTakeCode(s, x, r, ch);
    FragmentsStill(0, r);
    StillNext(FreerSleep(r), FreerTake);
    if s.graves != [] {
      var t := s.graves[0];
      StillThen(Erase(t), r);
      StillThen(Acquire(AT), Then(Erase(t), r));
      GoThen(s, x, Disown(TF), Then(Acquire(AT), Then(Erase(t), r)), FreerTake);
    }
  }

  lemma FreerTakeCode(s: State, x: Tid, r: Code, ch: Choice)
    requires Exec(s, x, FreerTake, r, ch).Ok?
    ensures s.graves != []
    ensures CodeAt(Exec(s, x, FreerTake, r, ch).s.code, x) in
      {FreerSleep(r), Then(Disown(TF), Then(Acquire(AT), Then(Erase(s.graves[0]), r)))}
  {
    hide SwitchTask, Block, PutAway, UnlockNow, Push, Wake, Extract, SwapOut, FreerSleep, StateOf, Go, CodeAt;
    GoCode(s, x, FreerSleep(r));
    if s.graves != [] {
      var t := s.graves[0];
      GoCode(s.(graves := s.graves[1..], buried := s.buried - {t}), x,
        Then(Disown(TF), Then(Acquire(AT), Then(Erase(t), r))));
    }
  }

  lemma EraseNext(s: State, x: Tid, t: Tid, r: Code, ch: Choice)
    requires Exec(s, x, Erase(t), r, ch).Ok? && Still(r)
    ensures Next(CodeAt(Exec(s, x, Erase(t), r, ch).s.code, x), Erase(t))
  {
    hide SwitchTask, Block, PutAway, UnlockNow, Push, Wake, Extract, SwapOut, Go, CodeAt, Next, Still, StateOf;
    FragmentsStill(0, r);
    GoThen(s.(registered := s.registered - {t}), x, Disown(AT), r, Erase(t));
  }

  lemma WaitsNext(s: State, x: Tid, i: Instr, r: Code, ch: Choice)
    requires i.WaitCheck? || i.SetWoken? || i.Woken? || i.TakeWoken? || i.Bury?
    requires Exec(s, x, i, r, ch).Ok? && Still(r)
    ensures Next(CodeAt(Exec(s, x, i, r, ch).s.code, x), i)
  {
    hide Exec, Next, Still, CodeAt;
    match i
    case WaitCheck(pid) => WaitCheckNext(s, x, pid, r, ch);
    case SetWoken(pid) => SetWokenNext(s, x, pid, r, ch);
    case Woken(t) => WokenNext(s, x, t, r, ch);
    case TakeWoken => TakeWokenNext(s, x, r, ch);
    case Bury(z) => BuryingNext(s, x, z, r, ch);
  }

  lemma WaitCheckNext(s: State, x: Tid, pid: int, r: Code, ch: Choice)
    requires Exec(s, x, WaitCheck(pid), r, ch).Ok? && Still(r)
    ensures Next(CodeAt(Exec(s, x, WaitCheck(pid), r, ch).s.code, x), WaitCheck(pid))
  {
    hide Exec, CodeAt, Next, Still, SearchCode;
    SearchIs(s, x, pid, r, ch);
    SearchNext(s, x, pid, r, ch);
  }

  /** What waitpid's search leads to. */
  function SearchCode(s: State, x: Tid, pid: int, r: Code, ch: Choice): Code {
    if pid >= 0 then
      if !Found(s, pid) then Then(Disown(AT), r)
      else if NumberOf(s.parent, pid) != x then r
      else if StateOf(s.state, pid) != ZOMBIE then Then(SetWoken(pid), r)
      else BuryCode(pid, Then(Disown(AT), r))
    else if ZombieChild(s, ch.z, x) then Then(Disown(AT), BuryCode(ch.z, r))
    else Then(SetWoken(-1), r)
  }

  lemma SearchIs(s: State, x: Tid, pid: int, r: Code, ch: Choice)
    ensures Exec(s, x, WaitCheck(pid), r, ch) == Ok(Go(s, x, SearchCode(s, x, pid, r, ch)))
    ensures CodeAt(Go(s, x, SearchCode(s, x, pid, r, ch)).code, x) == SearchCode(s, x, pid, r, ch)
  {
    hide SwitchTask, Block, PutAway, UnlockNow, Push, Wake, Extract, SwapOut, StateOf, NumberOf, ZombieChild, BuryCode;
  }

  lemma SearchNext(s: State, x: Tid, pid: int, r: Code, ch: Choice)
    requires Still(r)
    ensures Next(SearchCode(s, x, pid, r, ch), WaitCheck(pid))
  {
    hide Next, Still, CodeAt, Go, StateOf, NumberOf, ZombieChild, BuryCode;
    var i := WaitCheck(pid);
    FragmentsStill(ch.z, r);
    StillThen(Disown(AT), r);
    StillNext(r, i);
    StillNext(Then(Disown(AT), r), i);
    GoThen(s, x, SetWoken(if pid >= 0 then pid else -1), r, i);
    GoThen(s, x, Disown(AT), BuryCode(ch.z, r), i);
    if pid >= 0 {
      FragmentsStill(pid, Then(Disown(AT), r));
      StillNext(BuryCode(pid, Then(Disown(AT), r)), i);
    }
  }

  lemma SetWokenNext(s: State, x: Tid, pid: int, r: Code, ch: Choice)
    requires Exec(s, x, SetWoken(pid), r, ch).Ok? && Still(r)
    ensures Next(CodeAt(Exec(s, x, SetWoken(pid), r, ch).s.code, x), SetWoken(pid))
  {
    hide SwitchTask, Block, PutAway, UnlockNow, Push, Wake, Extract, SwapOut, Go, CodeAt, Next, Still;
    FragmentsStill(0, r);
    GoThen(s.(woken := s.woken[x := pid]), x, WaitBlock(pid), r, SetWoken(pid));
  }

  lemma WokenNext(s: State, x: Tid, t: Tid, r: Code, ch: Choice)
    requires Exec(s, x, Woken(t), r, ch).Ok? && Still(r)
    ensures Next(CodeAt(Exec(s, x, Woken(t), r, ch).s.code, x), Woken(t))
  {
    hide SwitchTask, Block, PutAway, UnlockNow, Push, Wake, Extract, SwapOut, Go, CodeAt, Next, Still, NumberOf,
      BuryCode;
    FragmentsStill(0, r);
    StillThen(Disown(AT), r);
    FragmentsStill(t, Then(Disown(AT), r));
    GoStill(s, x, BuryCode(t, Then(Disown(AT), r)), Woken(t));
  }

  lemma TakeWokenNext(s: State, x: Tid, r: Code, ch: Choice)
    requires Exec(s, x, TakeWoken, r, ch).Ok? && Still(r)
    ensures Next(CodeAt(Exec(s, x, TakeWoken, r, ch).s.code, x), TakeWoken)
  {
    hide SwitchTask, Block, PutAway, UnlockNow, Push, Wake, Extract, SwapOut, Go, CodeAt, Next, Still, NumberOf,
      BuryCode;
    FragmentsStill(0, r);
    FragmentsStill(NumberOf(s.woken, x), r);
    GoThen(s, x, Disown(AT), BuryCode(NumberOf(s.woken, x), r), TakeWoken);
  }

  lemma BuryingNext(s: State, x: Tid, z: Tid, r: Code, ch: Choice)
    requires Exec(s, x, Bury(z), r, ch).Ok? && Still(r)
    ensures Next(CodeAt(Exec(s, x, Bury(z), r, ch).s.code, x), Bury(z))
  {
    hide SwitchTask, Block, PutAway, UnlockNow, Push, Wake, Extract, SwapOut, Go, CodeAt, Next, Still;
    FragmentsStill(0, r);
    StillThen(Disown(TF), r);
    GoThen(s.(state := s.state[z := BLOCKED], slots := s.slots - {z}, place := s.place[z := Nowhere],
      life := s.life[z := Dead], graves := s.graves + [z], buried := s.buried + {z}, burials := s.burials + [z]), x,
      Notify(FREE_CV), Then(Disown(TF), r), Bury(z));
  }

  // ----- code on its way out

  lemma BurySelfCode(s: State, x: Tid, r: Code, ch: Choice)
    ensures var o := Exec(s, x, BurySelf, r, ch); o.Ok? && Dying(CodeAt(o.s.code, x))
  {
    hide SwitchTask, Block, PutAway, UnlockNow, Push, Wake, Extract, SwapOut, Go, CodeAt, Dying;
    var d := Then(Disown(TF), Then(BlockSelf, Done));
    DyingLast();
    DyingThen(Disown(TF), Then(BlockSelf, Done));
    DyingThen(Notify(FREE_CV), d);
    GoCode(s.(graves := s.graves + [x], buried := s.buried + {x}), x, Then(Notify(FREE_CV), d));
  }

  lemma BlockSelfCode(s: State, x: Tid, r: Code, ch: Choice)
    requires Exec(s, x, BlockSelf, r, ch).Ok?
    ensures CodeAt(Exec(s, x, BlockSelf, r, ch).s.code, x) == Done
    ensures Exec(s, x, BlockSelf, r, ch).s.life == s.life[x := Dead]
  {
    hide SwitchTask;
    SwitchCalm(Go(s.(state := s.state[x := BLOCKED], life := s.life[x := Dead], place := s.place[x := Nowhere]), x,
      Done));
  }

  lemma DyingLast()
    ensures Dying(Then(BlockSelf, Done))
  {
  }

  lemma DyingThen(j: Instr, r: Code)
    requires Dying(r) && (j.Notify? || j.Unblock? || j.Disown? || j.Release? || j.Hand?)
    ensures Dying(Then(j, r))
  {
  }

  /** It stays on it until it is done. */
  lemma DyingOn(s: State, x: Tid, i: Instr, r: Code, ch: Choice)
    requires Exec(s, x, i, r, ch).Ok? && Dying(Then(i, r))
    ensures var c := CodeAt(Exec(s, x, i, r, ch).s.code, x); c == Done || Dying(c)
  {
    hide Exec, CodeAt, Queue;
    match i
    case BlockSelf => BlockSelfCode(s, x, r, ch);
    case Disown(m) =>
      DisownCode(s, x, m, r, ch);
      DyingThen(Release(m), r);
    case Release(m) =>
      ReleaseCode(s, x, m, r, ch);
      DyingThen(Hand(m), r);
    case Unblock(t) => UnblockCode(s, x, t, r, ch);
    case Hand(m) => TakeOn(s, x, i, MutexQ(m), r, ch);
    case Notify(c) => TakeOn(s, x, i, CvQ(c), r, ch);
  }

  lemma TakeOn(s: State, x: Tid, i: Instr, l: ListId, r: Code, ch: Choice)
    requires (i.Hand? && l == MutexQ(i.m)) || (i.Notify? && l == CvQ(i.c))
    requires Dying(r)
    ensures var o := Exec(s, x, i, r, ch); o.Ok? && Dying(CodeAt(o.s.code, x))
  {
    hide Queue, CodeAt, Extract;
    HandTakes(s, x, l, r);
    if Queue(s.lists, l) != [] {
      DyingThen(Unblock(Queue(s.lists, l)[0]), r);
    }
  }

  /** What may follow, in any case. */
  predicate Leads(c: Code, i: Instr) { Next(c, i) || Dying(c) }

  lemma ExecLeads(s: State, x: Tid, i: Instr, r: Code, ch: Choice)
    requires Exec(s, x, i, r, ch).Ok? && (Plain(Then(i, r)) || Dying(Then(i, r)))
    ensures var c := CodeAt(Exec(s, x, i, r, ch).s.code, x);
      Leads(c, i) && (Next(c, i) || (Dying(c) && (i.BurySelf? || Dying(Then(i, r)))))
  {
    hide Next, Exec, CodeAt, Still, Dying;
    if Dying(Then(i, r)) {
      DyingOn(s, x, i, r, ch);
      FragmentsStill(0, Done);
      StillNext(Done, i);
    } else if i.BurySelf? {
      BurySelfCode(s, x, r, ch);
    } else {
      ExecNext(s, x, i, r, ch);
    }
  }

  lemma DyingHead(c: Code)
    requires Dying(c)
    ensures c.Then? && !Tense(c.i) && Head(c) == c.i
  {
  }

  // ----- what holds of those concerned

  lemma TenseHolds(s: State, u: Tid)
    requires Inv(s) && Tense(Head(CodeAt(s.code, u)))
    ensures AT in HeldBy(s.held, u)
  {
    hide Lists, Nodes, Beds, Graves, Burials, Exclusive, Mutexes, Cargos, Fits, Families, Clock, Dying, Awaits, Static;
    assert TaskOk(Of(s, u));
  }

  /** Only one task at a time is about to become a zombie or to wait: it has AllTasks_lock. */
  lemma OneTense(s: State, u: Tid, v: Tid)
    requires Inv(s) && Tense(Head(CodeAt(s.code, u))) && Tense(Head(CodeAt(s.code, v)))
    ensures u == v
  {
    hide Lists, Nodes, Beds, Graves, Burials, Mutexes, Cargos, Fits, Families, Stands, Clock, HeldBy;
    TenseHolds(s, u);
    TenseHolds(s, v);
  }

  lemma InSlotRegistered(s: State, t: Tid)
    requires Inv(s) && (StateOf(s.state, t) == ZOMBIE || StateOf(s.state, t) == WAITPID_BLOCKED)
    ensures t in s.registered
  {
    hide Lists, Nodes, Beds, Graves, Burials, Exclusive, Mutexes, Cargos, Fits, Families, Clock, Dying, Awaits, Legal;
    assert TaskOk(Of(s, t));
  }

  lemma NewbornIs(s: State, x: Tid, t: Tid, r: Code)
    requires At(s, x, Adopt(t), r)
    ensures StateOf(s.state, t) == BLOCKED && CodeAt(s.code, t) == Done
  {
    hide Lists, Nodes, Beds, Graves, Burials, Exclusive, Mutexes, Cargos, Fits, Families, Clock, Dying, Awaits, Legal,
      MutexOk, FitsOk, FamilyOk, Gone;
    Running(s, x, Adopt(t), r);
    assert TaskOk(Of(s, t));
  }

  lemma RunnerIs(s: State, x: Tid, i: Instr, r: Code)
    requires At(s, x, i, r)
    ensures StateOf(s.state, x) != ZOMBIE && StateOf(s.state, x) != WAITPID_BLOCKED
    ensures i.WaitBlock? ==> NumberOf(s.woken, x) == i.pid
    ensures i.WakeParent? ==> NumberOf(s.parent, x) == i.p
  {
    hide Lists, Nodes, Beds, Graves, Burials, Exclusive, Mutexes, Cargos, Fits, Families, Clock, Dying, Awaits, Legal,
      MutexOk, FitsOk, FamilyOk, Gone;
    Running(s, x, i, r);
    assert TaskOk(Of(s, x));
  }

  // ----- a step of the running task

  /** The step of x from s to s' by instruction i, as far as kin is concerned. */
  ghost predicate Moved(s: State, s': State, x: Tid, i: Instr) {
    && Mild(s, s', x, i)
    && (forall u: Tid :: u != x ==> CodeAt(s'.code, u) == CodeAt(s.code, u))
    && Leads(CodeAt(s'.code, x), i)
    && (Next(CodeAt(s'.code, x), i) || (Dying(CodeAt(s'.code, x)) && (i.BurySelf? || Dying(CodeAt(s.code, x)))))
    && (i.SetWoken? ==> s'.woken == s.woken[x := i.pid])
    && (i.WakeParent? ==> s'.woken == s.woken[i.p := x] && StateOf(s'.state, i.p) == RUNNING)
    && (i.Adopt? ==> s'.parent == s.parent[i.t := x])
    && (i.BurySelf? ==> s'.buried == s.buried + {x})
    && (i.FreerTake? ==> TakenOut(s, s'))
    && (i.Bury? ==> s'.buried == s.buried + {i.t} && s'.life == s.life[i.t := Dead])
    && (i.BlockSelf? ==> s'.life == s.life[x := Dead] && CodeAt(s'.code, x) == Done)
    && (i.Start? ==> s'.life == s.life[i.t := Alive])
  }

  /** The freer takes at most the oldest grave, and not that of a task that still runs. */
  ghost predicate TakenOut(s: State, s': State) {
    || s'.buried == s.buried
    || (s.graves != [] && s'.buried == s.buried - {s.graves[0]} && StateOf(s.state, s.graves[0]) != RUNNING)
  }

  lemma ExecMoved(s: State, x: Tid, i: Instr, r: Code, ch: Choice)
    requires At(s, x, i, r) && Allowed(s, Event.Run(ch)) && Exec(s, x, i, r, ch).Ok?
    requires Plain(Then(i, r)) || Dying(Then(i, r))
    ensures Moved(s, Exec(s, x, i, r, ch).s, x, i)
  {
    hide Inv, Allowed, Exec, Mild, Next, CodeAt, Still, StateOf, Dying, Plain;
    ExecMild(s, x, i, r, ch);
    ExecLeads(s, x, i, r, ch);
    OthersGoOn(s, Event.Run(ch));
    assert Step(s, Event.Run(ch)) == Exec(s, x, i, r, ch);
    if i.SetWoken? {
      SetWokenIs(s, x, i.pid, r, ch);
    } else if i.WakeParent? {
      WakeParentIs(s, x, i.p, r, ch);
    } else if i.Adopt? {
      AdoptIs(s, x, i.t, r, ch);
    } else if i.BlockSelf? {
      BlockSelfCode(s, x, r, ch);
    } else if i.Start? {
      StartIs(s, x, i.t, r, ch);
    } else if i.Bury? {
      BuryIs(s, x, i.t, r, ch);
    } else {
      GraveIs(s, x, i, r, ch);
    }
  }

  lemma StartIs(s: State, x: Tid, t: Tid, r: Code, ch: Choice)
    requires Exec(s, x, Start(t), r, ch).Ok?
    ensures Exec(s, x, Start(t), r, ch).s.life == s.life[t := Alive]
  {
    hide SwitchTask, Block, PutAway, UnlockNow, Push, Wake, Extract, SwapOut, StateOf;
  }

  lemma BuryIs(s: State, x: Tid, z: Tid, r: Code, ch: Choice)
    requires Exec(s, x, Bury(z), r, ch).Ok?
    ensures var s' := Exec(s, x, Bury(z), r, ch).s; s'.buried == s.buried + {z} && s'.life == s.life[z := Dead]
  {
    hide SwitchTask, Block, PutAway, UnlockNow, Push, Wake, Extract, SwapOut, StateOf;
  }

  lemma GraveIs(s: State, x: Tid, i: Instr, r: Code, ch: Choice)
    requires Exec(s, x, i, r, ch).Ok?
    ensures var s' := Exec(s, x, i, r, ch).s;
      (i.BurySelf? ==> s'.buried == s.buried + {x}) && (i.FreerTake? ==> TakenOut(s, s'))
  {
    hide Exec, TakenOut;
    if i.BurySelf? {
      BurySelfIs(s, x, r, ch);
    } else if i.FreerTake? {
      FreerTakeIs(s, x, r, ch);
    }
  }

  lemma BurySelfIs(s: State, x: Tid, r: Code, ch: Choice)
    ensures var o := Exec(s, x, BurySelf, r, ch); o.Ok? && o.s.buried == s.buried + {x}
  {
    hide SwitchTask, Block, PutAway, UnlockNow, Push, Wake, Extract, SwapOut, StateOf;
  }

  lemma FreerTakeIs(s: State, x: Tid, r: Code, ch: Choice)
    requires Exec(s, x, FreerTake, r, ch).Ok?
    ensures TakenOut(s, Exec(s, x, FreerTake, r, ch).s)
  {
    hide SwitchTask, Block, PutAway, UnlockNow, Push, Wake, Extract, SwapOut, StateOf, FreerSleep, Go, TakenOut;
    TakenNone(s, Go(s, x, FreerSleep(r)), x, FreerSleep(r));
    if s.graves != [] && StateOf(s.state, s.graves[0]) != RUNNING {
      TakenOne(s, x, Then(Disown(TF), Then(Acquire(AT), Then(Erase(s.graves[0]), r))));
    }
  }

  lemma TakenNone(s: State, s': State, x: Tid, c: Code)
    requires s' == Go(s, x, c)
    ensures TakenOut(s, s')
  {
  }

  lemma TakenOne(s: State, x: Tid, c: Code)
    requires s.graves != [] && StateOf(s.state, s.graves[0]) != RUNNING
    ensures TakenOut(s, Go(s.(graves := s.graves[1..], buried := s.buried - {s.graves[0]}), x, c))
  {
  }

  lemma SetWokenIs(s: State, x: Tid, pid: int, r: Code, ch: Choice)
    ensures var o := Exec(s, x, SetWoken(pid), r, ch);
      && o.Ok? && o.s.woken == s.woken[x := pid] && o.s.state == s.state && o.s.parent == s.parent
      && CodeAt(o.s.code, x) == Then(WaitBlock(pid), r)
  {
    hide SwitchTask, Block, PutAway, UnlockNow, Push, Wake, Extract, SwapOut;
  }

  lemma WakeParentIs(s: State, x: Tid, p: Tid, r: Code, ch: Choice)
    requires Exec(s, x, WakeParent(p), r, ch).Ok?
    ensures var s' := Exec(s, x, WakeParent(p), r, ch).s;
      && s'.woken == s.woken[p := x] && StateOf(s'.state, p) == RUNNING && CodeAt(s'.code, x) == Then(Zombify, Done)
      && (p != x ==> StateOf(s'.state, x) == StateOf(s.state, x))
      && Queue(s'.lists, Ready) == Queue(s.lists, Ready) + [p]
  {
    hide SwitchTask, Block, PutAway, UnlockNow, Wake, Extract, SwapOut;
  }

  lemma AdoptIs(s: State, x: Tid, t: Tid, r: Code, ch: Choice)
    ensures var o := Exec(s, x, Adopt(t), r, ch); o.Ok? && o.s.parent == s.parent[t := x]
  {
    hide SwitchTask, Block, PutAway, UnlockNow, Push, Wake, Extract, SwapOut;
  }

  /** Whoever waits after the step waited before it, or it is x that begins to, or z has just got its parent. */
  lemma StillWaits(s: State, s': State, x: Tid, i: Instr, r: Code, p: Tid, z: Tid)
    requires At(s, x, i, r) && Moved(s, s', x, i) && WaitsFor(s', p, z)
    ensures WaitsFor(s, p, z) || (i.WaitBlock? && p == x) || (i.Adopt? && z == i.t)
  {
    hide Inv, Next, Leads;
    RunnerIs(s, x, i, r);
    assert Comes(StateOf(s.state, p), StateOf(s'.state, p), p == x, i);
  }

  lemma VainKept(s: State, s': State, x: Tid, i: Instr, r: Code)
    requires At(s, x, i, r) && Moved(s, s', x, i) && Kin(s)
    ensures NoneInVain(s')
  {
    hide Inv, Next, Leads, NumberOf, StateOf, CodeAt, Plainly, DeadDone;
    forall p: Tid, z: Tid | WaitsFor(s', p, z) ensures StateOf(s'.state, z) != ZOMBIE {
      StillWaits(s, s', x, i, r, p, z);
      assert Comes(StateOf(s.state, z), StateOf(s'.state, z), z == x, i);
      if WaitsFor(s, p, z) {
        assert Head(CodeAt(s.code, z)) != Zombify;
      } else if i.WaitBlock? {
        RunnerIs(s, x, i, r);
        assert Asks(CodeAt(s.code, x), z);
      } else {
        NewbornIs(s, x, i.t, r);
      }
    }
  }

  lemma MissedKept(s: State, s': State, x: Tid, i: Instr, r: Code)
    requires At(s, x, i, r) && Moved(s, s', x, i) && Kin(s)
    requires i.ExitCheck? && Head(CodeAt(s'.code, x)).Zombify? ==> forall p: Tid :: !WaitsFor(s, p, x)
    ensures NoneMissed(s')
  {
    hide Inv, StateOf, CodeAt, Plainly, NoneInVain, NoneOverlooked, Mild, Plain, Dying, DeadDone;
    if Dying(CodeAt(s'.code, x)) {
      DyingHead(CodeAt(s'.code, x));
    }
    forall p: Tid, z: Tid | WaitsFor(s', p, z) ensures Head(CodeAt(s'.code, z)) != Zombify {
      StillWaits(s, s', x, i, r, p, z);
      if z != x {
        if Head(CodeAt(s.code, z)) == Zombify {
          if i.WaitBlock? {
            OneTense(s, x, z);
          } else if i.Adopt? && z == i.t {
            NewbornIs(s, x, i.t, r);
          }
        }
      } else if i.WakeParent? {
        RunnerIs(s, x, i, r);
        SameParent(s, s', x, i);
      }
    }
  }

  lemma SameParent(s: State, s': State, x: Tid, i: Instr)
    requires Mild(s, s', x, i) && !i.Adopt?
    ensures s'.parent == s.parent
  {
  }

  lemma OverlookedKept(s: State, s': State, x: Tid, i: Instr, r: Code)
    requires At(s, x, i, r) && Moved(s, s', x, i) && Kin(s)
    requires i.WaitCheck? || i.SetWoken? ==> s'.state == s.state && forall z: Tid ::
      Asks(CodeAt(s'.code, x), z) && NumberOf(s.parent, z) == x ==> StateOf(s.state, z) != ZOMBIE
    ensures NoneOverlooked(s')
  {
    hide Inv, StateOf, CodeAt, Plainly, NoneInVain, NoneMissed, Plain, Dying, DeadDone;
    if Dying(CodeAt(s'.code, x)) {
      DyingHead(CodeAt(s'.code, x));
    }
    forall p: Tid, z: Tid | Asks(CodeAt(s'.code, p), z) && NumberOf(s'.parent, z) == p
      ensures StateOf(s'.state, z) != ZOMBIE
    {
      assert Comes(StateOf(s.state, z), StateOf(s'.state, z), z == x, i);
      if p != x {
        if i.Zombify? && z == x {
          OneTense(s, x, p);
        }
      } else {
        assert i.WaitCheck? || i.SetWoken?;
      }
    }
  }

  lemma ZombiesKept(s: State, s': State, x: Tid, i: Instr, r: Code)
    requires At(s, x, i, r) && Moved(s, s', x, i) && Kin(s)
    requires i.Zombify? ==> CodeAt(s'.code, x) == Done
    ensures ZombiesDone(s')
  {
    hide Inv, StateOf, CodeAt, Plainly, NoneInVain, NoneMissed, NoneOverlooked, Plain, Next, Leads, DeadDone;
    RunnerIs(s, x, i, r);
    forall z: Tid | StateOf(s'.state, z) == ZOMBIE ensures CodeAt(s'.code, z) == Done {
      assert Comes(StateOf(s.state, z), StateOf(s'.state, z), z == x, i);
    }
  }

  lemma PlainlyKept(s: State, s': State, x: Tid, i: Instr, r: Code)
    requires At(s, x, i, r) && Moved(s, s', x, i) && Kin(s)
    ensures Plainly(s')
  {
    hide Inv, Mild, CodeAt, Plain, Dying, NoneInVain, NoneMissed, NoneOverlooked, ZombiesDone, LifeOf, StateOf, Leads;
    forall u: Tid ensures Plain(CodeAt(s'.code, u)) || (Dying(CodeAt(s'.code, u)) && u in s'.buried) {
      assert Plain(CodeAt(s.code, u)) || (Dying(CodeAt(s.code, u)) && u in s.buried);
      if Dying(CodeAt(s.code, u)) {
        DyingNotPlain(CodeAt(s.code, u));
        DyingStays(s, s', x, i, r, u);
      }
    }
  }

  lemma DyingNotPlain(c: Code)
    requires Dying(c)
    ensures !Plain(c)
  {
    if c.rest.Then? {
      DyingNotStill(c.rest);
    }
  }

  lemma {:induction false} DyingNotStill(c: Code)
    ensures Dying(c) ==> !Still(c)
  {
    if c.Then? {
      DyingNotStill(c.rest);
    }
  }

  /** The freer takes no task that is still on its way out. */
  lemma DyingStays(s: State, s': State, x: Tid, i: Instr, r: Code, u: Tid)
    requires At(s, x, i, r) && Moved(s, s', x, i) && DeadDone(s) && Dying(CodeAt(s.code, u)) && u in s.buried
    ensures u in s'.buried
  {
    hide Inv, CodeAt, Dying, Next, Leads, LifeOf, StateOf;
    if i.FreerTake? && s'.buried != s.buried && u == s.graves[0] {
      DyingRuns(s, u);
    }
  }

  lemma DyingRuns(s: State, u: Tid)
    requires Inv(s) && DeadDone(s) && Dying(CodeAt(s.code, u)) && u in s.buried
    ensures StateOf(s.state, u) == RUNNING
  {
    hide Lists, Nodes, Beds, Graves, Burials, Exclusive, Mutexes, Cargos, Fits, Families, Clock, Awaits, Legal;
    DyingHead(CodeAt(s.code, u));
    assert TaskOk(Of(s, u));
  }

  lemma DeadKept(s: State, s': State, x: Tid, i: Instr, r: Code)
    requires At(s, x, i, r) && Moved(s, s', x, i) && Kin(s)
    ensures DeadDone(s')
  {
    hide Inv, CodeAt, Plain, Dying, NoneInVain, NoneMissed, NoneOverlooked, StateOf, Leads, Next, Plainly;
    DeathsAt(s, x, i, r);
    forall t: Tid | LifeOf(s'.life, t) == Dead ensures CodeAt(s'.code, t) == Done {
    }
  }

  lemma DeathsAt(s: State, x: Tid, i: Instr, r: Code)
    requires At(s, x, i, r)
    ensures LifeOf(s.life, x) == Alive
    ensures i.Bury? ==> StateOf(s.state, i.t) == ZOMBIE && i.t != x
  {
    hide Inv, Legal, FitsOk, FamilyOk, Gone, MutexOk, Dying;
    Running(s, x, i, r);
  }

  // ----- the instructions that look

  /** An exit goes straight on to become a zombie only if its parent does not wait for it. */
  lemma ExitLooks(s: State, x: Tid, r: Code, ch: Choice, p: Tid)
    requires Inv(s)
    ensures var o := Exec(s, x, ExitCheck, r, ch);
      && o.Ok?
      && (WaitsFor(s, p, x) ==> o.s == Go(s, x, Then(WakeParent(p), Done)))
      && (Head(CodeAt(o.s.code, x)).Zombify? ==> !WaitsFor(s, p, x))
  {
    hide Inv, SwitchTask, Block, PutAway, UnlockNow, Push, Wake, Extract, SwapOut, DisposeSelf, StateOf, NumberOf;
    if WaitsFor(s, p, x) {
      InSlotRegistered(s, p);
    }
  }

  lemma SearchLooks(s: State, x: Tid, pid: int, r: Code, ch: Choice, z: Tid)
    requires At(s, x, WaitCheck(pid), r) && Honest(s, x, WaitCheck(pid), ch) && pid >= -1 && Still(r)
    requires Asks(SearchCode(s, x, pid, r, ch), z) && NumberOf(s.parent, z) == x
    ensures StateOf(s.state, z) != ZOMBIE
  {
    hide Inv, NumberOf, StateOf, ZombieChild;
    StillNext(r, WaitCheck(pid));
    if pid == -1 {
      ZombieSeen(s, x, r, ch, z);
    }
  }

  /** If there is a zombie child the search finds one. */
  lemma ZombieSeen(s: State, x: Tid, r: Code, ch: Choice, z: Tid)
    requires At(s, x, WaitCheck(-1), r) && Honest(s, x, WaitCheck(-1), ch) && NumberOf(s.parent, z) == x
    ensures StateOf(s.state, z) == ZOMBIE ==> ZombieChild(s, ch.z, x)
  {
    hide Inv, NumberOf, StateOf;
    if StateOf(s.state, z) == ZOMBIE {
      InSlotRegistered(s, z);
      assert ZombieChild(s, z, x);
    }
  }

  lemma ZombifyCode(s: State, x: Tid, r: Code, ch: Choice)
    requires Exec(s, x, Zombify, r, ch).Ok?
    ensures CodeAt(Exec(s, x, Zombify, r, ch).s.code, x) == Done
  {
    hide SwitchTask, UnlockNow;
    var s1 := Go(s, x, Done).(state := s.state[x := ZOMBIE], slots := s.slots + {x}, place := s.place[x := Slot]);
    UnlockCalm(s1, x, AT);
    SwitchCalm(UnlockNow(s1, x, AT).s);
  }

  lemma ExecKin(s: State, x: Tid, i: Instr, r: Code, ch: Choice)
    requires At(s, x, i, r) && Allowed(s, Event.Run(ch)) && Exec(s, x, i, r, ch).Ok? && Kin(s)
    ensures Kin(Exec(s, x, i, r, ch).s)
  {
    hide At, Allowed, Exec, Moved, NoneInVain, NoneMissed, NoneOverlooked, ZombiesDone, DeadDone, Plainly, CodeAt,
      Still,
      StateOf, NumberOf, Dying, Plain;
    var s' := Exec(s, x, i, r, ch).s;
    PlainAt(s, x, i, r);
    ExecMoved(s, x, i, r, ch);
    VainKept(s, s', x, i, r);
    if i.ExitCheck? {
      forall p: Tid | Head(CodeAt(s'.code, x)).Zombify? ensures !WaitsFor(s, p, x) {
        ExitAt(s, x, i, r);
        ExitLooks(s, x, r, ch, p);
      }
    }
    MissedKept(s, s', x, i, r);
    if i.WaitCheck? {
      SearchKin(s, x, i.pid, r, ch);
    } else if i.SetWoken? {
      AskingOn(s, x, i.pid, r, ch);
    }
    OverlookedKept(s, s', x, i, r);
    if i.Zombify? {
      ZombifyCode(s, x, r, ch);
    }
    ZombiesKept(s, s', x, i, r);
    DeadKept(s, s', x, i, r);
    PlainlyKept(s, s', x, i, r);
  }

  lemma PlainAt(s: State, x: Tid, i: Instr, r: Code)
    requires At(s, x, i, r) && Plainly(s)
    ensures Plain(Then(i, r)) || Dying(Then(i, r))
    ensures i.WaitCheck? ==> i.pid >= -1 && Still(r)
  {
    hide Inv;
    assert Plain(CodeAt(s.code, x)) || Dying(CodeAt(s.code, x));
  }

  lemma ExitAt(s: State, x: Tid, i: Instr, r: Code)
    requires At(s, x, i, r)
    ensures Inv(s)
  {
    hide Inv;
  }

  lemma SearchKin(s: State, x: Tid, pid: int, r: Code, ch: Choice)
    requires At(s, x, WaitCheck(pid), r) && Allowed(s, Event.Run(ch)) && pid >= -1 && Still(r)
    ensures var o := Exec(s, x, WaitCheck(pid), r, ch);
      && o.Ok? && o.s.state == s.state
      && forall z: Tid :: Asks(CodeAt(o.s.code, x), z) && NumberOf(s.parent, z) == x ==> StateOf(s.state, z) != ZOMBIE
  {
    hide Inv, Exec, SearchCode, NumberOf, StateOf, Honest, Asks, Still;
    SearchIs(s, x, pid, r, ch);
    forall z: Tid | Asks(SearchCode(s, x, pid, r, ch), z) && NumberOf(s.parent, z) == x
      ensures StateOf(s.state, z) != ZOMBIE
    {
      SearchLooks(s, x, pid, r, ch, z);
    }
  }

  lemma AskingOn(s: State, x: Tid, pid: int, r: Code, ch: Choice)
    requires At(s, x, SetWoken(pid), r) && NoneOverlooked(s)
    ensures var o := Exec(s, x, SetWoken(pid), r, ch);
      && o.Ok? && o.s.state == s.state
      && forall z: Tid :: Asks(CodeAt(o.s.code, x), z) && NumberOf(s.parent, z) == x ==> StateOf(s.state, z) != ZOMBIE
  {
    hide Inv, Exec, NumberOf, StateOf;
    SetWokenIs(s, x, pid, r, ch);
    forall z: Tid | Asks(Then(WaitBlock(pid), r), z) &&
      NumberOf(s.parent, z) == x ensures StateOf(s.state, z) != ZOMBIE {
      assert Asks(CodeAt(s.code, x), z);
    }
  }

  // ----- any step, any run

  lemma KinCalm(s: State, s': State)
    requires Kin(s) && s'.code == s.code && s'.woken == s.woken && s'.parent == s.parent
    requires s'.life == s.life && s'.buried == s.buried
    requires forall t: Tid :: StateOf(s'.state, t) == StateOf(s.state, t) || StateOf(s'.state, t) == RUNNING
    ensures Kin(s')
  {
    hide StateOf, CodeAt, NumberOf, Plain, Dying, LifeOf;
    forall p: Tid, z: Tid | WaitsFor(s', p, z) ensures WaitsFor(s, p, z) {
    }
  }

  lemma KinCall(s: State, x: Tid, op: Op)
    requires Kin(s) && MayCall(s, x, op) && CodeAt(s.code, x).Done? && StateOf(s.state, x) != ZOMBIE
    requires LifeOf(s.life, x) != Dead
    ensures var s1 := if op.Spawn? then s.(life := s.life[op.t := New], place := s.place[op.t := Carried(x)]) else s;
      Kin(Go(s1, x, CodeOf(s, x, op)))
  {
    hide StateOf, NumberOf, CodeOf, Plain, Dying;
    var s1 := if op.Spawn? then s.(life := s.life[op.t := New], place := s.place[op.t := Carried(x)]) else s;
    var s' := Go(s1, x, CodeOf(s, x, op));
    CallPlain(s, x, op);
    forall p: Tid, z: Tid | WaitsFor(s', p, z) ensures WaitsFor(s, p, z) {
    }
    forall p: Tid, z: Tid | Asks(CodeAt(s'.code, p), z) ensures p != x {
    }
    forall u: Tid
      ensures Plain(CodeAt(s'.code, u)) || (Dying(CodeAt(s'.code, u)) && u in s'.buried)
      ensures u != x ==> CodeAt(s'.code, u) == CodeAt(s.code, u)
    {
      assert Plain(CodeAt(s.code, u)) || (Dying(CodeAt(s.code, u)) && u in s.buried);
    }
  }

  lemma CallPlain(s: State, x: Tid, op: Op)
    requires MayCall(s, x, op)
    ensures var c := CodeOf(s, x, op); Plain(c) && c.Then? && !Tense(c.i)
  {
  }

  lemma OnCpuAlive(s: State, x: Tid)
    requires Inv(s) && s.running == Some(x)
    ensures StateOf(s.state, x) != ZOMBIE && LifeOf(s.life, x) != Dead
  {
    hide Lists, Nodes, Beds, Graves, Burials, Exclusive, Mutexes, Cargos, Fits, Families, Clock, Dying, Awaits, Legal;
    assert TaskOk(Of(s, x));
  }

  lemma StepKin(s: State, e: Event)
    requires Inv(s) && Allowed(s, e) && Step(s, e).Ok? && Kin(s)
    ensures Kin(Step(s, e).s)
  {
    hide Inv, Exec, SwitchTask, WakeOldest, CodeOf, Kin, Honest, MayCall, CodeAt;
    match e
    case Tick =>
      TickClock(s);
      KinCalm(s, Step(s, e).s);
    case Irq(c) =>
      IrqClock(s, c);
      KinCalm(s, Step(s, e).s);
    case Run(ch) =>
      if s.running.Some? && CodeAt(s.code, s.running.value).Then? {
        var x := s.running.value;
        ExecKin(s, x, CodeAt(s.code, x).i, CodeAt(s.code, x).rest, ch);
      }
    case Call(op) =>
      if s.running.Some? && CodeAt(s.code, s.running.value).Done? {
        OnCpuAlive(s, s.running.value);
        KinCall(s, s.running.value, op);
      }
  }

  lemma {:induction false} RunKin(s: State, es: seq<Event>, s': State)
    requires Inv(s) && Kin(s) && SchedTheorems.Run(s, es, s')
    ensures Kin(s')
    decreases |es|
  {
    hide Inv, Allowed, Step, Kin;
    if es != [] {
      StepKeeps(s, es[0]);
      StepKin(s, es[0]);
      RunKin(Step(s, es[0]).s, es[1..], s');
    }
  }

  lemma BootedKin(q: seq<Tid>, micros: nat)
    ensures Kin(Booted(q, micros))
  {
    var s := Booted(q, micros);
    assert forall t: Tid ::
      CodeAt(s.code, t) == Done && (StateOf(s.state, t) == RUNNING || StateOf(s.state, t) == BLOCKED);
  }

  lemma ReachableKin(s: State)
    requires Reachable(s)
    ensures Inv(s) && Kin(s)
  {
    hide Inv, Kin, SchedTheorems.Run, Booted;
    ReachableInv(s);
    var q: seq<Tid>, micros: nat, es: seq<Event> :| Unique(q) && SchedTheorems.Run(Booted(q, micros), es, s);
    BootedInv(q, micros);
    BootedKin(q, micros);
    RunKin(Booted(q, micros), es, s);
  }

  /** In every interleaving: nobody sleeps in waitpid while a child it would take for an answer is a zombie. */
  lemma NobodyWaitsInVain(s: State, p: Tid, z: Tid)
    requires Reachable(s) && StateOf(s.state, p) == WAITPID_BLOCKED
    requires NumberOf(s.parent, z) == p && StateOf(s.state, z) == ZOMBIE
    ensures NumberOf(s.woken, p) != z && NumberOf(s.woken, p) != -1
  {
    hide Reachable, Inv, StateOf, NumberOf;
    ReachableKin(s);
    assert !WaitsFor(s, p, z);
  }

  // ----- an exit wakes the parent

  /** x has found its parent waiting for it and is about to wake it. */
  ghost predicate Waking(s: State, x: Tid, p: Tid) { CodeAt(s.code, x) == Then(WakeParent(p), Done) }

  /** p was waiting for x, is now the last of the ready tasks and knows who woke it; x is no zombie yet. */
  ghost predicate Woke(s: State, s': State, x: Tid, p: Tid) {
    && WaitsFor(s, p, x) && Queue(s'.lists, Ready) == Queue(s.lists, Ready) + [p]
    && StateOf(s'.state, p) == RUNNING && NumberOf(s'.woken, p) == x
    && StateOf(s'.state, x) != ZOMBIE && CodeAt(s'.code, x) == Then(Zombify, Done)
  }

  lemma WakingStep(s: State, e: Event, x: Tid, p: Tid)
    requires Inv(s) && Allowed(s, e) && Step(s, e).Ok? && Waking(s, x, p)
    ensures Waking(Step(s, e).s, x, p) || Woke(s, Step(s, e).s, x, p)
  {
    hide Inv, Allowed, Exec, SwitchTask, WakeOldest, CodeOf, CodeAt, Woke;
    if s.running != Some(x) {
      OthersGoOn(s, e);
    } else {
      match e
      case Tick => TickClock(s);
      case Irq(c) => IrqClock(s, c);
      case Run(ch) => WakingRun(s, x, p, ch);
      case Call(op) =>
    }
  }

  lemma WakingRun(s: State, x: Tid, p: Tid, ch: Choice)
    requires At(s, x, WakeParent(p), Done) && Exec(s, x, WakeParent(p), Done, ch).Ok?
    ensures Woke(s, Exec(s, x, WakeParent(p), Done, ch).s, x, p)
  {
    hide Inv, Exec, Legal, FitsOk, FamilyOk, Gone, MutexOk, Dying, CodeAt, Queue;
    Running(s, x, WakeParent(p), Done);
    RunnerIs(s, x, WakeParent(p), Done);
    WakeParentIs(s, x, p, Done, ch);
  }

  lemma WakingAlive(s: State, x: Tid, p: Tid)
    requires Kin(s) && Waking(s, x, p)
    ensures StateOf(s.state, x) != ZOMBIE
  {
    hide StateOf;
  }

  lemma {:induction false} WakesFirst(s: State, es: seq<Event>, s': State, x: Tid, p: Tid) returns (n: nat, mid: State)
    requires Inv(s) && Kin(s) && SchedTheorems.Run(s, es, s') && Waking(s, x, p) && StateOf(s'.state, x) == ZOMBIE
    ensures n < |es| && SchedTheorems.Run(s, es[..n], mid) && Step(mid, es[n]).Ok?
    ensures Woke(mid, Step(mid, es[n]).s, x, p)
    decreases |es|
  {
    hide Inv, Allowed, Step, Woke, StateOf;
    WakingAlive(s, x, p);
    assert es != [];
    var s1 := Step(s, es[0]).s;
    StepKeeps(s, es[0]);
    StepKin(s, es[0]);
    WakingStep(s, es[0], x, p);
    if Woke(s, s1, x, p) {
      n, mid := 0, s;
    } else {
      n, mid := WakesFirst(s1, es[1..], s', x, p);
      assert es[..n + 1][1..] == es[1..][..n] && es[..n + 1][0] == es[0];
      n := n + 1;
    }
  }

  /**
   The exit of a child wakes the parent that waits for it, or for any child: it
   is about to after its look at the parent, and in whatever run x becomes a
   zombie, there is a step before at which the parent is made ready with the
   child's number.
   */
  lemma ExitWakesParent(s: State, x: Tid, r: Code, ch: Choice, p: Tid, es: seq<Event>, s': State)
    returns (n: nat, mid: State)
    requires Reachable(s) && At(s, x, ExitCheck, r) && WaitsFor(s, p, x) && Allowed(s, Event.Run(ch))
    requires Step(s, Event.Run(ch)).Ok? && SchedTheorems.Run(Step(s, Event.Run(ch)).s, es, s')
    requires StateOf(s'.state, x) == ZOMBIE
    ensures n < |es| && SchedTheorems.Run(Step(s, Event.Run(ch)).s, es[..n], mid) && Step(mid, es[n]).Ok?
    ensures Woke(mid, Step(mid, es[n]).s, x, p)
  {
    hide Reachable, Inv, Kin, Allowed, Exec, SchedTheorems.Run, Woke, StateOf;
    ReachableKin(s);
    StepKeeps(s, Event.Run(ch));
    StepKin(s, Event.Run(ch));
    ExitLooks(s, x, r, ch, p);
    var s1 := Step(s, Event.Run(ch)).s;
    assert s1 == Go(s, x, Then(WakeParent(p), Done));
    n, mid := WakesFirst(s1, es, s', x, p);
  }
}
