/**
 Whole runs of the scheduler: what holds after any sequence of steps, ticks and
 interrupts.
 */
module SchedRun {
  import opened Sched
  import opened Wrappers
  import opened SchedInv
  import opened SchedMoves
  import opened SchedLocal
  import opened SchedNodes
  import opened SchedLives
  import opened SchedSwitch
  import opened SchedGroups

  // ----- calls

  /** Code a task may start with. */
  ghost predicate Opening(c: Code, h: set<MutexId>, f: Facts, x: Tid) {
    && Cargo(c) == multiset{} && Legal(c, h) && FitsOk(c, f, x) && Awaits(c).NotWaiting?
    && !Head(c).Owner? && !Head(c).Release? && !Head(c).SleepBlock?
  }

  /** One instruction that takes no lock of the scheduler. */
  lemma OpenOne(i: Instr, h: set<MutexId>, f: Facts, x: Tid)
    requires Legal(Done, h) && Fit(f, x, i) && After(i, Done, h).Some? && Legal(Done, After(i, Done, h).value)
    requires !Carries(i) && !i.Woken? && !i.TakeWoken? && !i.Owner? && !i.Release? && !i.SleepBlock?
    ensures Opening(Then(i, Done), h, f, x)
  {
    hide FitsOk, Legal, Cargo, Awaits, Dying, Has;
    UnfoldDone(h, f, x);
    Unfold(i, Done, h, f, x);
  }

  /** One of the scheduler's locks, then something under it. */
  lemma OpenLocked(m: MutexId, i: Instr, h: set<MutexId>, f: Facts, x: Tid)
    requires Legal(Done, h) && m <= 2 && Fit(f, x, i) && After(i, Done, h + {m}) == Some(h + {m} - {m})
    requires i.WaitCheck? || i.ExitCheck? || i.BurySelf? || i.FreerCheck? || i.WakerScan?
    ensures Opening(Then(Acquire(m), Then(i, Done)), h, f, x)
  {
    hide FitsOk, Legal, Cargo, Awaits, Dying, Has, After;
    UnfoldDone(h, f, x);
    PutBack(h, m);
    Unfold(i, Done, h + {m}, f, x);
    Unfold(Acquire(m), Then(i, Done), h, f, x);
    AcquireAfter(m, Then(i, Done), h);
  }

  lemma AcquireAfter(m: MutexId, r: Code, h: set<MutexId>)
    ensures After(Acquire(m), r, h) == if m in h then None else Some(h + {m})
  {
  }

  /** Only user mutexes are locked by name, only what is held is unlocked, new tasks are new. */
  ghost predicate MayCall(s: State, x: Tid, op: Op) {
    match op
    case Lock(m) => m >= 3 && m !in HeldBy(s.held, x)
    case Unlock(m) => m >= 3 && m in HeldBy(s.held, x)
    case WaitOn(c, m) => c >= 2 && m >= 3 && m in HeldBy(s.held, x)
    case NotifyOne(c) => c >= 2
    case NotifyEvery(c) => c >= 2
    case Spawn(t, _) => LifeOf(s.life, t) == Unborn && t !in s.registered
    case WaitPid(pid) => pid >= -1
    case Daemon => x == FREER || x == WAKER
    case _ => true
  }

  lemma OpOpens(s: State, x: Tid, op: Op)
    requires MayCall(s, x, op) && !op.Spawn? && Legal(Done, HeldBy(s.held, x))
    ensures Opening(CodeOf(s, x, op), HeldBy(s.held, x), FactsOf(s), x)
  {
    hide Opening;
    var h, f := HeldBy(s.held, x), FactsOf(s);
    match op
    case Lock(m) => OpenOne(Acquire(m), h, f, x);
    case Unlock(m) => OpenOne(Disown(m), h, f, x);
    case WaitOn(c, m) => OpenOne(Wait(c, m), h, f, x);
    case NotifyOne(c) => OpenOne(Notify(c), h, f, x);
    case NotifyEvery(c) => OpenOne(NotifyAll(c), h, f, x);
    case Sleep(diff) => OpenOne(SleepTest(s.micros + diff), h, f, x);
    case WaitPid(pid) => OpenLocked(AT, WaitCheck(pid), h, f, x);
    case Exit =>
      OpenLocked(TF, BurySelf, h, f, x);
      OpenLocked(AT, ExitCheck, h, f, x);
    case GiveWay => OpenOne(Yield, h, f, x);
    case Daemon =>
      if x == FREER {
        OpenLocked(TF, FreerCheck, h, f, x);
      } else {
        OpenLocked(WT, WakerScan, h, f, x);
      }
  }

  /** A task outside the kernel. */
  lemma OutsideFacts(s: State, x: Tid)
    requires Inv(s) && s.running == Some(x) && CodeAt(s.code, x) == Done
    ensures Legal(Done, HeldBy(s.held, x)) && !Gone(s.code, s.state, s.held, x) && Cargo(Done) == multiset{}
    ensures MutexOk(Done, HeldBy(s.held, x), s.locked, s.owner, x) && LifeOf(s.life, x) == Alive
    ensures forall c :: Legal(c, HeldBy(s.held, x)) && !Head(c).SleepBlock? ==> TaskOk(Of(s, x).(code := c))
  {
    hide Lists, Nodes, Beds, Graves, Burials, Exclusive, Cargos, Fits, Families, Clock, MutexOk, Awaits;
    assert TaskOk(Of(s, x));
    assert MutexOk(CodeAt(s.code, x), HeldBy(s.held, x), s.locked, s.owner, x);
  }

  lemma CallKeeps(s: State, x: Tid, c: Code)
    requires Inv(s) && s.running == Some(x) && CodeAt(s.code, x) == Done && Opening(c, HeldBy(s.held, x), FactsOf(s), x)
    ensures Inv(Go(s, x, c))
  {
    hide Inv, Legal, FitsOk, Cargo, Awaits, Of, TaskOk, Gone;
    OutsideFacts(s, x);
    GoViews(s, x, c);
    CodeKeeps(s, x, c);
  }

  /** A new task. */
  lemma SpawnKeeps(s: State, x: Tid, t: Tid, own: bool)
    requires Inv(s) && s.running == Some(x) && CodeAt(s.code, x) == Done && LifeOf(s.life, t) == Unborn
    ensures Inv(Go(s.(life := s.life[t := New], place := s.place[t := Carried(x)]), x,
      Then(Acquire(AT), Then(Register(t, own), Done))))
  {
    hide Lists, Nodes, Beds, Graves, Burials, Exclusive, Mutexes, Cargos, Fits, Families, Stands, Of, TaskOk, FactsOff,
      FitsOk, Cargo, Legal, Dying, Awaits, Gone;
    var f, h, c := FactsOf(s), HeldBy(s.held, x), Then(Acquire(AT), Then(Register(t, own), Done));
    var s' := Go(s.(life := s.life[t := New], place := s.place[t := Carried(x)]), x, c);
    OutsideFacts(s, x);
    UnbornFacts(s, t);
    NewFacts(f, t);
    SpawnCode(t, own, h, FactsOf(s'), x);
    ListsMove(s.lists, s.place, |s.drainers|, t, Carried(x));
    NodesCarry(s.place, s.linked, s.slots, s.running, t, x);
    CargosTake(s.code, s.place, x, t, c);
    UnheldAt(s.code, s.place, t);
    UnheldIs(s.code, t);
    FitsOff(s.code, f, FactsOf(s'), x, c, t);
    MutexesGo(s.code, s.held, s.locked, s.owner, x, c);
    CodeFamilies(s, x, c);
    BurialsLife(s.burials, s.life, t, New);
    SpawnViews(s, s', x, c, t);
    StandsOff2(s, s', x, t);
  }

  lemma UnheldIs(code: Codes, t: Tid)
    requires Unheld(code, t)
    ensures forall u: Tid :: Cargo(CodeAt(code, u))[t] == 0
  {
  }

  lemma UnbornFacts(s: State, t: Tid)
    requires Shared(s) && LifeOf(s.life, t) == Unborn
    ensures PlaceOf(s.place, t) == Nowhere && t !in s.linked && t !in s.slots && StateOf(s.state, t) == BLOCKED
    ensures CodeAt(s.code, t) == Done
    ensures forall u: Tid :: TaskOk(Of(s, t).(life := New, place := Carried(u)))
  {
    hide Lists, Beds, Graves, Burials, Exclusive, Mutexes, Cargos, Fits, Families;
    assert TaskOk(Of(s, t));
  }

  lemma NewFacts(f: Facts, t: Tid)
    requires StateOf(f.state, t) == BLOCKED && LifeOf(f.life, t) == Unborn
    ensures FactsOff(f, f.(life := f.life[t := New]), t) && LifeOf(f.life[t := New], t) == New
  {
    hide LifeOf;
    var life' := LifeSet(f.life, t, New);
  }

  lemma SpawnCode(t: Tid, own: bool, h: set<MutexId>, f: Facts, x: Tid)
    requires Legal(Done, h) && LifeOf(f.life, t) == New
    ensures var c := Then(Acquire(AT), Then(Register(t, own), Done));
      Cargo(c) == multiset{} + multiset{t} && Legal(c, h) && FitsOk(c, f, x) && Awaits(c).NotWaiting?
  {
    hide FitsOk, Legal, Cargo, Awaits, Dying, Has;
    UnfoldDone(h, f, x);
    PutBack(h, AT);
    Unfold(Register(t, own), Done, h + {AT}, f, x);
    Unfold(Acquire(AT), Then(Register(t, own), Done), h, f, x);
  }

  lemma NodesCarry(place: Places, linked: set<Tid>, slots: set<Tid>, running: Option<Tid>, t: Tid, x: Tid)
    requires Nodes(place, linked, slots, running) && t !in linked && t !in slots
    ensures Nodes(place[t := Carried(x)], linked, slots, running)
  {
    hide PlaceOf;
    var place' := PlaceSet(place, t, Carried(x));
  }

  lemma SpawnViews(s: State, s': State, x: Tid, c: Code, t: Tid)
    requires s' == Go(s.(life := s.life[t := New], place := s.place[t := Carried(x)]), x, c) && x != t
    ensures forall u: Tid :: u != x && u != t ==> Of(s', u) == Of(s, u)
    ensures Of(s', x) == Of(s, x).(code := c) && Of(s', t) == Of(s, t).(life := New, place := Carried(x))
  {
    hide CodeAt, PlaceOf, LifeOf;
    var code' := CodeSet(s.code, x, c);
    var place' := PlaceSet(s.place, t, Carried(x));
    var life' := LifeSet(s.life, t, New);
  }

  // ----- the running task's next step

  ghost predicate Safe(o: Outcome) { !o.Fail? && (o.Ok? ==> Inv(o.s)) }

  lemma ExecLocks(s: State, x: Tid, i: Instr, r: Code, ch: Choice)
    requires At(s, x, i, r) && (i.Acquire? || i.Owner? || i.Park? || i.Disown? || i.Release?)
    ensures Safe(Exec(s, x, i, r, ch))
  {
    hide At, Inv, Stand, Fine, Block;
    match i
    case Acquire(m) =>
      NotOwner(s, x, m, r);
      if m !in s.locked {
        AcquireKeeps(s, x, m, r);
      } else {
        StandIs(s, x, i, r);
        AcquireFine(m, r, HeldBy(s.held, x), FactsOf(s), x);
        CodeStep(s, x, i, r, if ch.park then Then(Park(m), r) else Then(Yield, Then(Acquire(m), r)));
      }
    case Owner(m) => OwnerKeeps(s, x, m, r);
    case Park(m) => ParkKeeps(s, x, m, r);
    case Disown(m) => DisownKeeps(s, x, m, r);
    case Release(m) => ReleaseKeeps(s, x, m, r);
  }

  /** lock()'s assertion: the task does not own what it is about to lock. */
  lemma NotOwner(s: State, x: Tid, m: MutexId, r: Code)
    requires At(s, x, Acquire(m), r)
    ensures !(m in s.owner && s.owner[m] == x)
  {
    hide Inv, Legal, FitsOk, FamilyOk, Gone;
    Running(s, x, Acquire(m), r);
    Unfold(Acquire(m), r, HeldBy(s.held, x), FactsOf(s), x);
  }

  lemma ExecQueues(s: State, x: Tid, i: Instr, r: Code, ch: Choice)
    requires At(s, x, i, r) && (i.Hand? || i.Notify? || i.Drain? || i.NotifyAll? || i.Yield? || i.Wait?)
    ensures Safe(Exec(s, x, i, r, ch))
  {
    hide At, Inv, Stand, Fine, Block, SwitchTask, UnlockNow, SwapOut, Pop;
    match i
    case Hand(m) => ExtractAny(s, x, i, r, MutexQ(m));
    case Notify(c) => ExtractAny(s, x, i, r, CvQ(c));
    case Drain(k) => ExtractAny(s, x, i, r, DrainQ(k));
    case NotifyAll(c) => NotifyAllKeeps(s, x, c, r);
    case Yield => YieldKeeps(s, x, r);
    case Wait(c, m) => WaitKeeps(s, x, c, m, r);
  }

  lemma ExtractAny(s: State, x: Tid, i: Instr, r: Code, l: ListId)
    requires At(s, x, i, r) && (i.Hand? || i.Notify? || i.Drain?) && l != Ready
    ensures Inv(Extract(s, x, l, r, if i.Drain? then Then(i, r) else r))
  {
    hide At, Inv, Stand, Fine;
    if Queue(s.lists, l) == [] {
      StandIs(s, x, i, r);
      RestFine(i, r, HeldBy(s.held, x), FactsOf(s), x);
      CodeStep(s, x, i, r, r);
    } else {
      ExtractKeeps(s, x, i, r, l);
    }
  }

  lemma ExecGives(s: State, x: Tid, i: Instr, r: Code, ch: Choice)
    requires At(s, x, i, r) && (i.Unblock? || i.Launch? || i.Rouse? || i.Start? || i.Register? || i.Adopt?)
    ensures Safe(Exec(s, x, i, r, ch))
  {
    hide At, Inv;
    match i
    case Unblock(t) =>
      GiveKeeps(s, Go(s.(state := s.state[t := RUNNING], lists := s.lists[Ready := Queue(s.lists, Ready) + [t]],
        place := s.place[t := In(Ready)], linked := s.linked + {t}), x, r), x, i, r);
    case Launch(t) =>
      GiveKeeps(s, Go(s.(lists := s.lists[Ready := Queue(s.lists, Ready) + [t]], place := s.place[t := In(Ready)],
        linked := s.linked + {t}), x, r), x, i, r);
    case Rouse(t) => RouseKeeps(s, x, t, r);
    case Start(t) => StartKeeps(s, x, t, r);
    case Register(t, own) => RegisterKeeps(s, x, t, own, r);
    case Adopt(t) => AdoptKeeps(s, x, t, r);
  }

  lemma ExecSleeps(s: State, x: Tid, i: Instr, r: Code, ch: Choice)
    requires At(s, x, i, r) && (i.SleepTest? || i.SleepIn? || i.SleepBlock? || i.WakerScan?)
    ensures Safe(Exec(s, x, i, r, ch))
  {
    hide At, Inv, Stand, Fine, UnlockNow, TakeSleepers, Rouses, Due;
    StandIs(s, x, i, r);
    var h, f := HeldBy(s.held, x), FactsOf(s);
    match i
    case SleepTest(w) =>
      if s.micros <= w {
        SleepFine(w, r, h, f, x);
        CodeStep(s, x, i, r, Then(Acquire(WT), Then(SleepIn(w), r)));
      } else {
        SleepRest(w, r, h, f, x);
        CodeStep(s, x, i, r, r);
      }
    case SleepIn(w) => SleepInKeeps(s, x, w, r);
    case SleepBlock(w) => SleepBlockKeeps(s, x, w, r);
    case WakerScan =>
      WakerKeeps(s, x, ch.w, r);
      WakerFine(r, h, f, x);
      CodeStep(s, x, i, r, Then(Wait(WAKE_CV, WT), Then(Disown(WT), r)));
  }

  lemma SleepRest(w: nat, r: Code, h: set<MutexId>, f: Facts, x: Tid)
    requires Stand(SleepTest(w), r, h, f, x)
    ensures Fine(Then(SleepTest(w), r), r, h, f, x)
  {
    hide FitsOk, Legal, Cargo, Awaits, Dying, Has, Fine;
    Unfold(SleepTest(w), r, h, f, x);
    RestFine(SleepTest(w), r, h, f, x);
  }

  lemma ExecExits(s: State, x: Tid, r: Code, ch: Choice)
    requires At(s, x, ExitCheck, r)
    ensures Safe(Exec(s, x, ExitCheck, r, ch))
  {
    hide At, Inv, Stand, Fine, Last;
    var i, h, f, p := ExitCheck, HeldBy(s.held, x), FactsOf(s), NumberOf(s.parent, x);
    StandIs(s, x, i, r);
    LastIs(i, r, h, f, x);
    ExitFine(Then(i, r), h, f, x);
    ZombifyFine(Then(i, r), h, f, x, Zombify);
    CodeStep(s, x, i, r, Then(Disown(AT), DisposeSelf()));
    CodeStep(s, x, i, r, Then(Zombify, Done));
    if Found(s, p) && StateOf(s.state, p) == WAITPID_BLOCKED &&
      (NumberOf(s.woken, p) == x || NumberOf(s.woken, p) == -1) {
      ExitWakes(s, x, r, p);
    }
  }

  lemma ExecLeaves(s: State, x: Tid, i: Instr, r: Code, ch: Choice)
    requires At(s, x, i, r) && (i.WakeParent? || i.Zombify? || i.BurySelf? || i.BlockSelf?)
    ensures Safe(Exec(s, x, i, r, ch))
  {
    hide At, Inv, SwitchTask, PutAway;
    match i
    case WakeParent(p) =>
      WakeParentKeeps(s, s.(code := s.code[x := Then(Zombify, Done)], state := s.state[p := RUNNING],
        slots := s.slots - {p}, place := s.place[p := In(Ready)],
        woken := s.woken[p := x], lists := s.lists[Ready := Queue(s.lists, Ready) + [p]], linked := s.linked + {p}), x,
          p, r);
    case Zombify => ZombifyKeeps(s, x, r);
    case BurySelf => BurySelfKeeps(s, x, r);
    case BlockSelf => BlockSelfKeeps(s, x, r);
  }

  lemma ExitWakes(s: State, x: Tid, r: Code, p: Tid)
    requires At(s, x, ExitCheck, r) && NumberOf(s.parent, x) == p && StateOf(s.state, p) == WAITPID_BLOCKED
    requires NumberOf(s.woken, p) == x || NumberOf(s.woken, p) == -1
    ensures Inv(Go(s, x, Then(WakeParent(p), Done)))
  {
    hide Inv, Stand, Fine, Last, Legal, FitsOk, FamilyOk, MutexOk, Gone, Dying;
    var h, f := HeldBy(s.held, x), FactsOf(s);
    Running(s, x, ExitCheck, r);
    StandIs(s, x, ExitCheck, r);
    LastIs(ExitCheck, r, h, f, x);
    ZombifyFine(Then(ExitCheck, r), h, f, x, WakeParent(p));
    CodeStep(s, x, ExitCheck, r, Then(WakeParent(p), Done));
  }

  lemma ExecFreer(s: State, x: Tid, i: Instr, r: Code, ch: Choice)
    requires At(s, x, i, r) && (i.FreerCheck? || i.FreerTake?)
    ensures Safe(Exec(s, x, i, r, ch))
  {
    hide At, Inv, Stand, Fine, Last, FreerSleep;
    var h, f := HeldBy(s.held, x), FactsOf(s);
    StandIs(s, x, i, r);
    FreerFit(s, x, i, r);
    LastIs(i, r, h, f, x);
    FreerSleepFine(Then(i, r), h, f, x);
    match i
    case FreerCheck =>
      if s.graves == [] {
        CodeStep(s, x, i, r, FreerSleep(r));
      } else {
        FreerTakeFine(Then(i, r), h, f, x);
        CodeStep(s, x, i, r, Then(Disown(TF), Then(Acquire(TF), Then(FreerTake, r))));
      }
    case FreerTake =>
      CodeStep(s, x, i, r, FreerSleep(r));
      if StateOf(s.state, s.graves[0]) != RUNNING {
        FreerPopKeeps(s, x, r);
      }
  }

  lemma ExecBuries(s: State, x: Tid, i: Instr, r: Code, ch: Choice)
    requires At(s, x, i, r) && (i.Erase? || i.Bury?)
    ensures Safe(Exec(s, x, i, r, ch))
  {
    hide At, Inv;
    match i
    case Erase(t) => EraseKeeps(s, x, t, r);
    case Bury(z) =>
      BuryKeeps(s, Go(s.(state := s.state[z := BLOCKED], slots := s.slots - {z}, place := s.place[z := Nowhere],
        life := s.life[z := Dead],
        graves := s.graves + [z], buried := s.buried + {z}, burials := s.burials + [z]), x,
          Then(Notify(FREE_CV), Then(Disown(TF), r))), x, z, r,
        Then(Notify(FREE_CV), Then(Disown(TF), r)));
  }

  lemma FreerFit(s: State, x: Tid, i: Instr, r: Code)
    requires At(s, x, i, r) && (i.FreerCheck? || i.FreerTake?)
    ensures x == FREER && (i.FreerTake? ==> s.graves != [])
  {
    hide Inv, Legal, FitsOk, FamilyOk, MutexOk, Gone;
    Running(s, x, i, r);
  }

  /** waitpid is called only for a task's own children. */
  ghost predicate OwnChild(s: State, x: Tid, i: Instr) {
    i.WaitCheck? && Found(s, i.pid) ==> NumberOf(s.parent, i.pid) == x
  }

  lemma ExecWaits(s: State, x: Tid, i: Instr, r: Code, ch: Choice)
    requires At(s, x, i, r) && (i.WaitCheck? || i.SetWoken? || i.WaitBlock? || i.Woken? || i.TakeWoken?)
    requires OwnChild(s, x, i)
    ensures Safe(Exec(s, x, i, r, ch))
  {
    hide At, Inv, Stand, Fine, Last, BuryCode, PutAway;
    match i
    case WaitCheck(pid) => WaitCheckKeeps(s, x, pid, r, ch);
    case SetWoken(pid) => SetWokenKeeps(s, x, pid, r);
    case WaitBlock(pid) => WaitBlockKeeps(s, x, pid, r);
    case Woken(t) => ExecWoken(s, x, i, r, ch);
    case TakeWoken => ExecWoken(s, x, i, r, ch);
  }

  lemma ExecWoken(s: State, x: Tid, i: Instr, r: Code, ch: Choice)
    requires At(s, x, i, r) && (i.Woken? || i.TakeWoken?)
    ensures Safe(Exec(s, x, i, r, ch))
  {
    hide At, Inv, BuryCode;
    WokenByZombie(s, x, i, r);
    BuryNext(s, x, i, r, NumberOf(s.woken, x));
  }

  lemma BuryNext(s: State, x: Tid, i: Instr, r: Code, z: Tid)
    requires At(s, x, i, r) && (i.WaitCheck? || i.Woken? || i.TakeWoken?) && StateOf(s.state, z) == ZOMBIE
    requires NumberOf(s.parent, z) == x
    ensures Inv(Go(s, x, BuryCode(z, Then(Disown(AT), r)))) && Inv(Go(s, x, Then(Disown(AT), BuryCode(z, r))))
  {
    hide Inv, Stand, Fine, Last, BuryCode, Legal, FitsOk, FamilyOk, MutexOk, Gone;
    var h, f := HeldBy(s.held, x), FactsOf(s);
    Running(s, x, i, r);
    StandIs(s, x, i, r);
    LastIs(i, r, h, f, x);
    BuryFine(Then(i, r), h, f, x, z);
    ReleaseBuryFine(Then(i, r), h, f, x, z);
    CodeStep(s, x, i, r, BuryCode(z, Then(Disown(AT), r)));
    CodeStep(s, x, i, r, Then(Disown(AT), BuryCode(z, r)));
  }

  lemma WaitCheckKeeps(s: State, x: Tid, pid: int, r: Code, ch: Choice)
    requires At(s, x, WaitCheck(pid), r) && OwnChild(s, x, WaitCheck(pid))
    ensures Safe(Exec(s, x, WaitCheck(pid), r, ch))
  {
    hide At, Inv, Stand, Fine, Last, BuryCode;
    var i, h, f := WaitCheck(pid), HeldBy(s.held, x), FactsOf(s);
    StandIs(s, x, i, r);
    if pid >= 0 {
      WaitFine(pid, pid, r, h, f, x);
      if !Found(s, pid) {
        CodeStep(s, x, i, r, Then(Disown(AT), r));
      } else if StateOf(s.state, pid) != ZOMBIE {
        CodeStep(s, x, i, r, Then(SetWoken(pid), r));
      } else {
        BuryNext(s, x, i, r, pid);
      }
    } else if ZombieChild(s, ch.z, x) {
      BuryNext(s, x, i, r, ch.z);
    } else {
      WaitFine(pid, -1, r, h, f, x);
      CodeStep(s, x, i, r, Then(SetWoken(-1), r));
    }
  }

  /**
   waitpid of a task that is not the caller's child returns with AllTasks_lock
   held: the search keeps the invariant if and only if that is not the case.
   */
  lemma WaitCheckIff(s: State, x: Tid, pid: int, r: Code, ch: Choice)
    requires At(s, x, WaitCheck(pid), r)
    ensures Safe(Exec(s, x, WaitCheck(pid), r, ch)) <==> OwnChild(s, x, WaitCheck(pid))
  {
    hide Inv, Exec;
    if OwnChild(s, x, WaitCheck(pid)) {
      WaitCheckKeeps(s, x, pid, r, ch);
    } else {
      StrangerStuck(s, x, pid, r, ch);
    }
  }

  lemma StrangerStuck(s: State, x: Tid, pid: int, r: Code, ch: Choice)
    requires At(s, x, WaitCheck(pid), r) && !OwnChild(s, x, WaitCheck(pid))
    ensures r == Done && Exec(s, x, WaitCheck(pid), r, ch) == Ok(Go(s, x, Done))
    ensures AT in HeldBy(s.held, x) && AT in s.owner && s.owner[AT] == x && AT in s.locked && !Inv(Go(s, x, Done))
  {
    hide Inv, Legal, FitsOk, FamilyOk, Gone, Awaits, Cargo, Dying;
    var h := HeldBy(s.held, x);
    Running(s, x, WaitCheck(pid), r);
    Unfold(WaitCheck(pid), r, h, FactsOf(s), x);
    UnfoldDone(h, FactsOf(s), x);
    HeldOutside(Go(s, x, Done), x);
  }

  lemma HeldOutside(s: State, x: Tid)
    requires AT in HeldBy(s.held, x) && CodeAt(s.code, x) == Done
    ensures !Inv(s)
  {
    hide Lists, Nodes, Beds, Graves, Burials, Exclusive, Cargos, Fits, Families, Clock, Mutexes, Awaits;
    assert !TaskOk(Of(s, x));
  }

  /** The calls that begin with AllTasks_lock: waitpid, the creation of a task, and the exit of one with a parent. */
  predicate TakesAll(s: State, x: Tid, op: Op) { op.WaitPid? || op.Spawn? || (op.Exit? && NumberOf(s.parent, x) != -1) }

  /** After that the task's next call, if it begins with AllTasks_lock, halts the kernel. */
  lemma StrangerHalts(s: State, x: Tid, pid: int, r: Code, ch: Choice, op: Op, ch': Choice)
    requires At(s, x, WaitCheck(pid), r) && !OwnChild(s, x, WaitCheck(pid)) && TakesAll(s, x, op)
    ensures Step(s, Run(ch)) == Ok(Go(s, x, Done))
    ensures Step(Go(s, x, Done), Call(op)).Ok?
    ensures Step(Step(Go(s, x, Done), Call(op)).s, Run(ch')).Fail?
  {
    hide Inv, Step, Exec, CodeOf;
    StrangerStuck(s, x, pid, r, ch);
    RunsHead(s, x, WaitCheck(pid), r, ch);
    var g := Go(s, x, Done);
    var s1 := CallsLock(g, x, op);
    RunsHead(s1, x, Acquire(AT), CodeAt(s1.code, x).rest, ch');
    OwnLockFails(s1, x, CodeAt(s1.code, x).rest, ch');
  }

  lemma RunsHead(s: State, x: Tid, i: Instr, r: Code, ch: Choice)
    requires s.running == Some(x) && CodeAt(s.code, x) == Then(i, r)
    ensures Step(s, Run(ch)) == Exec(s, x, i, r, ch)
  {
    hide Exec, CodeOf;
  }

  lemma CallsLock(s: State, x: Tid, op: Op) returns (s': State)
    requires s.running == Some(x) && CodeAt(s.code, x) == Done && TakesAll(s, x, op)
    ensures Step(s, Call(op)) == Ok(s') && s'.running == Some(x) && s'.owner == s.owner && s'.locked == s.locked
    ensures CodeAt(s'.code, x).Then? && CodeAt(s'.code, x).i == Acquire(AT)
  {
    hide Exec, CodeOf, SwitchTask, WakeOldest;
    BeginsWithLock(s, x, op);
    var s1 := if op.Spawn? then s.(life := s.life[op.t := New], place := s.place[op.t := Carried(x)]) else s;
    s' := Go(s1, x, CodeOf(s, x, op));
  }

  lemma BeginsWithLock(s: State, x: Tid, op: Op)
    requires TakesAll(s, x, op)
    ensures CodeOf(s, x, op).Then? && CodeOf(s, x, op).i == Acquire(AT)
  {
  }

  lemma OwnLockFails(s: State, x: Tid, r: Code, ch: Choice)
    requires AT in s.locked && AT in s.owner && s.owner[AT] == x
    ensures Exec(s, x, Acquire(AT), r, ch) == Fail
  {
  }

  lemma ExecKeeps(s: State, x: Tid, i: Instr, r: Code, ch: Choice)
    requires At(s, x, i, r) && OwnChild(s, x, i)
    ensures Safe(Exec(s, x, i, r, ch))
  {
    hide At, Safe, Exec, OwnChild;
    match i
    case Acquire(_) => ExecLocks(s, x, i, r, ch);
    case Owner(_) => ExecLocks(s, x, i, r, ch);
    case Park(_) => ExecLocks(s, x, i, r, ch);
    case Disown(_) => ExecLocks(s, x, i, r, ch);
    case Release(_) => ExecLocks(s, x, i, r, ch);
    case Unblock(_) => ExecGives(s, x, i, r, ch);
    case Rouse(_) => ExecGives(s, x, i, r, ch);
    case Launch(_) => ExecGives(s, x, i, r, ch);
    case Register(_, _) => ExecGives(s, x, i, r, ch);
    case Adopt(_) => ExecGives(s, x, i, r, ch);
    case Start(_) => ExecGives(s, x, i, r, ch);
    case SleepTest(_) => ExecSleeps(s, x, i, r, ch);
    case SleepIn(_) => ExecSleeps(s, x, i, r, ch);
    case SleepBlock(_) => ExecSleeps(s, x, i, r, ch);
    case WakerScan => ExecSleeps(s, x, i, r, ch);
    case ExitCheck => ExecExits(s, x, r, ch);
    case WakeParent(_) => ExecLeaves(s, x, i, r, ch);
    case Zombify => ExecLeaves(s, x, i, r, ch);
    case BurySelf => ExecLeaves(s, x, i, r, ch);
    case BlockSelf => ExecLeaves(s, x, i, r, ch);
    case FreerCheck => ExecFreer(s, x, i, r, ch);
    case FreerTake => ExecFreer(s, x, i, r, ch);
    case Erase(_) => ExecBuries(s, x, i, r, ch);
    case Bury(_) => ExecBuries(s, x, i, r, ch);
    case WaitCheck(_) => ExecWaits(s, x, i, r, ch);
    case SetWoken(_) => ExecWaits(s, x, i, r, ch);
    case WaitBlock(_) => ExecWaits(s, x, i, r, ch);
    case Woken(_) => ExecWaits(s, x, i, r, ch);
    case TakeWoken => ExecWaits(s, x, i, r, ch);
    case _ => ExecQueues(s, x, i, r, ch);
  }

  // ----- any step, any run

  /** What the tasks may do, and what the searches of waitpid and the waker find. */
  ghost predicate Allowed(s: State, e: Event) {
    match e
    case Tick => true
    case Irq(c) => c >= 2
    case Run(ch) => s.running.Some? ==> Honest(s, s.running.value, Head(CodeAt(s.code, s.running.value)), ch)
    case Call(op) => s.running.Some? && CodeAt(s.code, s.running.value).Done? ==> MayCall(s, s.running.value, op)
  }

  ghost predicate Honest(s: State, x: Tid, i: Instr, ch: Choice) {
    && OwnChild(s, x, i)
    && (i.WakerScan? && (exists w: nat :: Due(s, w)) ==> Due(s, ch.w))
    && (i == WaitCheck(-1) && (exists z: Tid :: ZombieChild(s, z, x)) ==>
        ZombieChild(s, ch.z, x) && forall z: Tid :: ZombieChild(s, z, x) ==> ch.z <= z)
  }

  /** Every step keeps the invariant, and none of the kernel's assertions fires; it can only run out of tasks. */
  lemma StepKeeps(s: State, e: Event)
    requires Inv(s) && Allowed(s, e)
    ensures Safe(Step(s, e))
  {
    hide Inv, Exec, SwitchTask, WakeOldest, MayCall, CodeOf;
    match e
    case Tick => TickKeeps(s);
    case Irq(c) => IrqKeeps(s, c);
    case Run(ch) =>
      if s.running.Some? && CodeAt(s.code, s.running.value).Then? {
        var c := CodeAt(s.code, s.running.value);
        ExecKeeps(s, s.running.value, c.i, c.rest, ch);
      }
    case Call(op) =>
      if s.running.Some? && CodeAt(s.code, s.running.value).Done? {
        CalledKeeps(s, s.running.value, op);
      }
  }

  lemma CalledKeeps(s: State, x: Tid, op: Op)
    requires Inv(s) && s.running == Some(x) && CodeAt(s.code, x) == Done && MayCall(s, x, op)
    ensures var s1 := if op.Spawn? then s.(life := s.life[op.t := New], place := s.place[op.t := Carried(x)]) else s;
      Inv(Go(s1, x, CodeOf(s, x, op)))
  {
    hide Inv, Opening;
    if op.Spawn? {
      SpawnKeeps(s, x, op.t, op.own);
    } else {
      OutsideFacts(s, x);
      OpOpens(s, x, op);
      CallKeeps(s, x, CodeOf(s, x, op));
    }
  }
}
