/**
 Steps that change the running task and the locks only.
 */
module SchedLocal {
  import opened Sched
  import opened Wrappers
  import opened SchedInv
  import opened SchedMoves

  /** The running task is about to execute i. */
  ghost predicate At(s: State, x: Tid, i: Instr, r: Code) {
    Inv(s) && s.running == Some(x) && CodeAt(s.code, x) == Then(i, r)
  }

  /** What holds of the running task. */
  lemma Running(s: State, x: Tid, i: Instr, r: Code)
    requires At(s, x, i, r)
    ensures PlaceOf(s.place, x) == OnCpu && LifeOf(s.life, x) == Alive && x in s.registered && x !in s.linked
    ensures x !in s.slots
    ensures !i.Yield? ==> StateOf(s.state, x) == RUNNING
    ensures x in s.asleep && !i.Yield? ==> i.SleepBlock?
    ensures x in s.buried ==> Dying(Then(i, r))
    ensures Legal(Then(i, r), HeldBy(s.held, x)) && FitsOk(r, FactsOf(s), x) && Fit(FactsOf(s), x, i)
    ensures FamilyOk(s.code, s.state, s.held, s.parent, s.woken, x)
    ensures (!i.Zombify? ==> !Gone(s.code, s.state, s.held, x))
    ensures MutexOk(Then(i, r), HeldBy(s.held, x), s.locked, s.owner, x)
  {
    hide Legal, Fit, Dying, Awaits, Lists, Beds, Graves, Burials, Exclusive, Cargos, MutexOk, FitsOk, FamilyOk;
    assert TaskOk(Of(s, x));
    assert FitsOk(CodeAt(s.code, x), FactsOf(s), x);
    Unfold(i, r, HeldBy(s.held, x), FactsOf(s), x);
    assert MutexOk(CodeAt(s.code, x), HeldBy(s.held, x), s.locked, s.owner, x);
  }

  /** Only the code of the running task changes. */
  lemma CodeKeeps(s: State, x: Tid, c: Code)
    requires Inv(s) && s.running == Some(x) && Cargo(c) == Cargo(CodeAt(s.code, x)) && FitsOk(c, FactsOf(s), x)
    requires !Gone(s.code, s.state, s.held, x) && TaskOk(Of(Go(s, x, c), x))
    requires FamilyOk(Go(s, x, c).code, s.state, s.held, s.parent, s.woken, x)
    requires MutexOk(c, HeldBy(s.held, x), s.locked, s.owner, x)
    ensures Inv(Go(s, x, c))
  {
    hide Lists, Nodes, Beds, Graves, Burials, Exclusive, Mutexes, Cargos, Fits, Families, Stands, Clock, Cargo, FitsOk,
      Gone, TaskOk, FamilyOk, MutexOk;
    var s' := Go(s, x, c);
    CargosGo(s.code, s.place, x, c);
    FitsGo(s.code, FactsOf(s), x, c);
    MutexesGo(s.code, s.held, s.locked, s.owner, x, c);
    OffGo(s, x, c);
    KinGo(s, x, c);
    FamiliesOff(s, s', x);
    StandsOff(s, s', x);
  }

  lemma KinGo(s: State, x: Tid, c: Code)
    ensures forall u: Tid :: u != x ==> SameKin(s, Go(s, x, c), u)
  {
    hide CodeAt;
    var code' := CodeSet(s.code, x, c);
  }

  lemma OffGo(s: State, x: Tid, c: Code)
    ensures Off(s, Go(s, x, c), x)
  {
    hide CodeAt;
    var code' := CodeSet(s.code, x, c);
  }

  /** Code c' may stand in for code c: it is in order, and has the same tasks in its hands. */
  ghost predicate Fine(c: Code, c': Code, h: set<MutexId>, f: Facts, x: Tid) {
    Follows(c, c', h, f, x) && !Head(c').Owner? && !Head(c').Release?
  }

  ghost predicate Follows(c: Code, c': Code, h: set<MutexId>, f: Facts, x: Tid) {
    && Cargo(c') == Cargo(c) && Legal(c', h) && FitsOk(c', f, x) && (Dying(c) ==> Dying(c'))
    && (Awaits(c').NotWaiting? || Awaits(c') == Awaits(c)) && !Head(c').SleepBlock?
  }

  /** The running task goes on with other code, in the same circumstances. */
  lemma CodeStep(s: State, x: Tid, i: Instr, r: Code, c: Code)
    requires At(s, x, i, r) && !i.Zombify? && !i.Yield? && !i.SleepBlock? && !i.Owner? && !i.Release?
    requires Fine(Then(i, r), c, HeldBy(s.held, x), FactsOf(s), x)
    ensures Inv(Go(s, x, c))
  {
    hide Cargo, FitsOk, Lists, Nodes, Beds, Graves, Burials, Exclusive, Mutexes, Cargos, Fits, Families, Clock, Legal,
      Fit, Dying, Awaits, Inv;
    Running(s, x, i, r);
    CodeKeeps(s, x, c);
  }

  lemma PutBack(h: set<MutexId>, m: MutexId)
    ensures m in h ==> h - {m} + {m} == h
    ensures m !in h ==> h + {m} - {m} == h
  {
  }

  /** The code is in order where it stands. */
  ghost predicate Stand(i: Instr, r: Code, h: set<MutexId>, f: Facts, x: Tid) {
    Legal(Then(i, r), h) && FitsOk(Then(i, r), f, x)
  }

  // ----- what each instruction leads to

  /** An instruction that is done with. */
  lemma RestFine(i: Instr, r: Code, h: set<MutexId>, f: Facts, x: Tid)
    requires Stand(i, r, h, f, x) && !Carries(i) && After(i, r, h) == Some(h) && !i.BlockSelf?
    ensures Fine(Then(i, r), r, h, f, x)
  {
    hide FitsOk, Legal, Cargo, Awaits, Dying, Has, Fit;
    Unfold(i, r, h, f, x);
  }

  lemma AcquireFine(m: MutexId, r: Code, h: set<MutexId>, f: Facts, x: Tid)
    requires Stand(Acquire(m), r, h, f, x)
    ensures Fine(Then(Acquire(m), r), Then(Park(m), r), h, f, x)
    ensures Fine(Then(Acquire(m), r), Then(Yield, Then(Acquire(m), r)), h, f, x)
  {
    hide FitsOk, Legal, Cargo, Awaits, Dying, Has;
    Unfold(Acquire(m), r, h, f, x);
    Unfold(Park(m), r, h, f, x);
    Unfold(Yield, Then(Acquire(m), r), h, f, x);
  }

  lemma SleepFine(w: nat, r: Code, h: set<MutexId>, f: Facts, x: Tid)
    requires Stand(SleepTest(w), r, h, f, x)
    ensures Fine(Then(SleepTest(w), r), Then(Acquire(WT), Then(SleepIn(w), r)), h, f, x)
  {
    hide FitsOk, Legal, Cargo, Awaits, Dying, Has;
    PutBack(h, WT);
    Unfold(SleepTest(w), r, h, f, x);
    Unfold(SleepIn(w), r, h + {WT}, f, x);
    Unfold(Acquire(WT), Then(SleepIn(w), r), h, f, x);
  }

  lemma WakerFine(r: Code, h: set<MutexId>, f: Facts, x: Tid)
    requires Stand(WakerScan, r, h, f, x)
    ensures Fine(Then(WakerScan, r), Then(Wait(WAKE_CV, WT), Then(Disown(WT), r)), h, f, x)
  {
    hide FitsOk, Legal, Cargo, Awaits, Dying, Has;
    Unfold(WakerScan, r, h, f, x);
    Unfold(Disown(WT), r, h, f, x);
    Unfold(Wait(WAKE_CV, WT), Then(Disown(WT), r), h, f, x);
  }

  /** The last instruction, of the scheduler's locks with only m held, and nothing in its hands. */
  ghost predicate Last(c: Code, h: set<MutexId>, m: MutexId) { Only(h, m) && Cargo(c) == multiset{} && !Dying(c) }

  lemma LastIs(i: Instr, r: Code, h: set<MutexId>, f: Facts, x: Tid)
    requires Stand(i, r, h, f, x) && (i.ExitCheck? || i.WaitCheck? || i.Woken? || i.TakeWoken? || i.FreerCheck? ||
      i.FreerTake?)
    ensures r == Done && Last(Then(i, r), h, if i.FreerCheck? || i.FreerTake? then TF else AT)
  {
    hide FitsOk, Legal, Cargo, Awaits, Dying, Has;
    Unfold(i, r, h, f, x);
    UnfoldDone(h, f, x);
  }

  lemma FreerSleepFine(c: Code, h: set<MutexId>, f: Facts, x: Tid)
    requires Last(c, h, TF)
    ensures Fine(c, FreerSleep(Done), h, f, x)
  {
    hide FitsOk, Legal, Cargo, Awaits, Dying, Has;
    PutBack(h, TF);
    var c1 := Then(Disown(TF), Done);
    var c2 := Then(Wait(FREE_CV, TF), c1);
    UnfoldDone(h - {TF}, f, x);
    Unfold(Disown(TF), Done, h, f, x);
    Unfold(Wait(FREE_CV, TF), c1, h, f, x);
    Unfold(Acquire(TF), c2, h - {TF}, f, x);
    Unfold(Disown(TF), Then(Acquire(TF), c2), h, f, x);
  }

  lemma FreerTakeFine(c: Code, h: set<MutexId>, f: Facts, x: Tid)
    requires Last(c, h, TF) && Fit(f, x, FreerTake)
    ensures Fine(c, Then(Disown(TF), Then(Acquire(TF), Then(FreerTake, Done))), h, f, x)
  {
    hide FitsOk, Legal, Cargo, Awaits, Dying, Has;
    PutBack(h, TF);
    UnfoldDone(h - {TF}, f, x);
    Unfold(FreerTake, Done, h, f, x);
    Unfold(Acquire(TF), Then(FreerTake, Done), h - {TF}, f, x);
    Unfold(Disown(TF), Then(Acquire(TF), Then(FreerTake, Done)), h, f, x);
  }

  lemma ExitFine(c: Code, h: set<MutexId>, f: Facts, x: Tid)
    requires Last(c, h, AT)
    ensures Fine(c, Then(Disown(AT), DisposeSelf()), h, f, x)
  {
    hide FitsOk, Legal, Cargo, Awaits, Dying, Has;
    UnfoldDone(h - {AT} + {TF} - {TF}, f, x);
    Unfold(BurySelf, Done, h - {AT} + {TF}, f, x);
    Unfold(Acquire(TF), Then(BurySelf, Done), h - {AT}, f, x);
    Unfold(Disown(AT), DisposeSelf(), h, f, x);
  }

  lemma ZombifyFine(c: Code, h: set<MutexId>, f: Facts, x: Tid, i: Instr)
    requires Last(c, h, AT) && (i.Zombify? || i.WakeParent?) && Fit(f, x, i)
    ensures Fine(c, Then(i, Done), h, f, x)
  {
    hide FitsOk, Legal, Cargo, Awaits, Dying, Has;
    UnfoldDone(h - {AT}, f, x);
    Unfold(i, Done, h, f, x);
  }

  lemma WaitFine(pid: int, pid': int, r: Code, h: set<MutexId>, f: Facts, x: Tid)
    requires Stand(WaitCheck(pid), r, h, f, x) && pid' >= -1
    ensures Fine(Then(WaitCheck(pid), r), Then(Disown(AT), r), h, f, x)
    ensures Fine(Then(WaitCheck(pid), r), Then(SetWoken(pid'), r), h, f, x)
  {
    hide FitsOk, Legal, Cargo, Awaits, Dying, Has;
    Unfold(WaitCheck(pid), r, h, f, x);
    Unfold(Disown(AT), r, h, f, x);
    Unfold(SetWoken(pid'), r, h, f, x);
  }

  /** A dead child is going to be buried, with AllTasks_lock released after. */
  lemma BuryFine(c: Code, h: set<MutexId>, f: Facts, x: Tid, z: Tid)
    requires Last(c, h, AT) && Fit(f, x, Bury(z))
    ensures Fine(c, BuryCode(z, Then(Disown(AT), Done)), h, f, x)
  {
    hide FitsOk, Legal, Cargo, Awaits, Dying, Has;
    PutBack(h, TF);
    UnfoldDone(h - {AT}, f, x);
    Unfold(Disown(AT), Done, h, f, x);
    Unfold(Bury(z), Then(Disown(AT), Done), h + {TF}, f, x);
    Unfold(Acquire(TF), Then(Bury(z), Then(Disown(AT), Done)), h, f, x);
  }

  /** The same with AllTasks_lock released before. */
  lemma ReleaseBuryFine(c: Code, h: set<MutexId>, f: Facts, x: Tid, z: Tid)
    requires Last(c, h, AT) && Fit(f, x, Bury(z))
    ensures Fine(c, Then(Disown(AT), BuryCode(z, Done)), h, f, x)
  {
    hide FitsOk, Legal, Cargo, Awaits, Dying, Has;
    PutBack(h - {AT}, TF);
    UnfoldDone(h - {AT}, f, x);
    Unfold(Bury(z), Done, h - {AT} + {TF}, f, x);
    Unfold(Acquire(TF), Then(Bury(z), Done), h - {AT}, f, x);
    Unfold(Disown(AT), BuryCode(z, Done), h, f, x);
  }

  /** Back from waitpid_block with AllTasks_lock: the child that woke the task is a zombie, and the one asked for. */
  lemma WokenByZombie(s: State, x: Tid, i: Instr, r: Code)
    requires At(s, x, i, r) && (i.Woken? || i.TakeWoken?)
    ensures NumberOf(s.woken, x) >= 0 && (i.Woken? ==> NumberOf(s.woken, x) == i.t)
    ensures var z: Tid := NumberOf(s.woken, x);
      && StateOf(s.state, z) == ZOMBIE && NumberOf(s.parent, z) == x && z != x
      && z in s.slots && z in s.registered && LifeOf(s.life, z) == Alive
  {
    hide Fits, Mutexes, Cargos, MutexOk, Lists, Beds, Graves, Burials, Legal, Families, Awaits;
    Running(s, x, i, r);
    Unfold(i, r, HeldBy(s.held, x), FactsOf(s), x);
    assert TaskOk(Of(s, NumberOf(s.woken, x)));
  }

  // ----- locks

  /** The running task's code and locks change. */
  lemma LocksKeep(s: State, s': State, x: Tid, c: Code, h: set<MutexId>)
    requires Inv(s) && s.running == Some(x) && Cargo(c) == Cargo(CodeAt(s.code, x)) && FitsOk(c, FactsOf(s), x)
    requires s' == s.(code := s.code[x := c], held := s'.held, locked := s'.locked, owner := s'.owner)
    requires s'.held == s.held || s'.held == s.held[x := h]
    requires Mutexes(s'.code, s'.held, s'.locked, s'.owner) && Exclusive(s'.held)
    requires !Gone(s.code, s.state, s.held, x) && TaskOk(Of(s', x))
    requires FamilyOk(s'.code, s'.state, s'.held, s'.parent, s'.woken, x)
    ensures Inv(s')
  {
    hide Lists, Nodes, Beds, Graves, Burials, Exclusive, Mutexes, Cargos, Fits, Families, Stands, Clock, Cargo, FitsOk,
      Gone, TaskOk, FamilyOk, Of, Off;
    CargosGo(s.code, s.place, x, c);
    FitsGo(s.code, FactsOf(s), x, c);
    OffLocks(s, s', x, c, h);
    FamiliesOff(s, s', x);
    StandsOff(s, s', x);
  }

  lemma OffLocks(s: State, s': State, x: Tid, c: Code, h: set<MutexId>)
    requires s' == s.(code := s.code[x := c], held := s'.held, locked := s'.locked, owner := s'.owner)
    requires s'.held == s.held || s'.held == s.held[x := h]
    ensures Off(s, s', x) && forall u: Tid :: u != x ==> SameKin(s, s', u)
  {
    hide CodeAt, HeldBy;
    var code' := CodeSet(s.code, x, c);
    var held' := HeldSet(s.held, x, h);
  }

  /** The running task goes on with other code and other locks. */
  lemma LockStep(s: State, s': State, x: Tid, i: Instr, r: Code, c: Code, h: set<MutexId>)
    requires At(s, x, i, r) && !i.Zombify? && !i.Yield? && !i.SleepBlock?
    requires Follows(Then(i, r), c, h, FactsOf(s), x) && HeldBy(s'.held, x) == h
    requires s' == s.(code := s.code[x := c], held := s'.held, locked := s'.locked, owner := s'.owner)
    requires s'.held == s.held || s'.held == s.held[x := h]
    requires Mutexes(s'.code, s'.held, s'.locked, s'.owner) && Exclusive(s'.held)
    ensures Inv(s')
  {
    hide Cargo, FitsOk, Lists, Nodes, Beds, Graves, Burials, Exclusive, Mutexes, Cargos, Fits, Families, Clock, Legal,
      Fit, Dying, Awaits, Inv;
    Running(s, x, i, r);
    LocksKeep(s, s', x, c, h);
  }

  lemma InvMutexes(s: State)
    requires Inv(s)
    ensures Mutexes(s.code, s.held, s.locked, s.owner) && Exclusive(s.held)
  {
  }

  lemma AcquireKeeps(s: State, x: Tid, m: MutexId, r: Code)
    requires At(s, x, Acquire(m), r) && m !in s.locked
    ensures Inv(Go(s.(locked := s.locked + {m}, held := s.held[x := HeldBy(s.held, x) + {m}]), x, Then(Owner(m), r)))
  {
    hide Inv, Mutexes, Exclusive, Follows, Legal, FitsOk;
    var h, c := HeldBy(s.held, x), Then(Owner(m), r);
    Running(s, x, Acquire(m), r);
    StandIs(s, x, Acquire(m), r);
    OwnerFollows(m, r, h, FactsOf(s), x);
    InvMutexes(s);
    MutexesHeld(s.code, s.held, s.locked, s.owner, x, c, m, true);
    LockStep(s, Go(s.(locked := s.locked + {m}, held := s.held[x := h + {m}]), x, c), x, Acquire(m), r, c, h + {m});
  }

  lemma StandIs(s: State, x: Tid, i: Instr, r: Code)
    requires At(s, x, i, r)
    ensures Stand(i, r, HeldBy(s.held, x), FactsOf(s), x)
  {
    hide Inv, Legal, Fit, Has, FitsOk;
    Running(s, x, i, r);
    Unfold(i, r, HeldBy(s.held, x), FactsOf(s), x);
  }

  lemma OwnerFollows(m: MutexId, r: Code, h: set<MutexId>, f: Facts, x: Tid)
    requires Stand(Acquire(m), r, h, f, x)
    ensures Follows(Then(Acquire(m), r), Then(Owner(m), r), h + {m}, f, x)
  {
    hide FitsOk, Legal, Cargo, Awaits, Dying, Has;
    Unfold(Acquire(m), r, h, f, x);
    Unfold(Owner(m), r, h + {m}, f, x);
  }

  lemma OwnerKeeps(s: State, x: Tid, m: MutexId, r: Code)
    requires At(s, x, Owner(m), r)
    ensures Inv(Go(s.(owner := s.owner[m := x]), x, r))
  {
    hide Inv, Mutexes, Exclusive, Follows, Legal, FitsOk;
    var h := HeldBy(s.held, x);
    Running(s, x, Owner(m), r);
    StandIs(s, x, Owner(m), r);
    ClaimFollows(m, r, h, FactsOf(s), x);
    InvMutexes(s);
    MutexesClaim(s.code, s.held, s.locked, s.owner, x, r, m);
    LockStep(s, Go(s.(owner := s.owner[m := x]), x, r), x, Owner(m), r, r, h);
  }

  lemma ClaimFollows(m: MutexId, r: Code, h: set<MutexId>, f: Facts, x: Tid)
    requires Stand(Owner(m), r, h, f, x)
    ensures Follows(Then(Owner(m), r), r, h, f, x) && m in h && !Head(r).Owner? && !Head(r).Release?
  {
    hide FitsOk, Legal, Cargo, Awaits, Dying, Has;
    Unfold(Owner(m), r, h, f, x);
  }

  lemma DisownKeeps(s: State, x: Tid, m: MutexId, r: Code)
    requires At(s, x, Disown(m), r)
    ensures Inv(Go(s.(owner := s.owner - {m}), x, Then(Release(m), r)))
  {
    hide Inv, Mutexes, Exclusive, Follows, Legal, FitsOk;
    var h, c := HeldBy(s.held, x), Then(Release(m), r);
    Running(s, x, Disown(m), r);
    StandIs(s, x, Disown(m), r);
    ReleaseFollows(m, r, h, FactsOf(s), x);
    InvMutexes(s);
    MutexesDisown(s.code, s.held, s.locked, s.owner, x, c, m);
    LockStep(s, Go(s.(owner := s.owner - {m}), x, c), x, Disown(m), r, c, h);
  }

  lemma ReleaseFollows(m: MutexId, r: Code, h: set<MutexId>, f: Facts, x: Tid)
    requires Stand(Disown(m), r, h, f, x)
    ensures Follows(Then(Disown(m), r), Then(Release(m), r), h, f, x) && m in h
  {
    hide FitsOk, Legal, Cargo, Awaits, Dying, Has;
    Unfold(Disown(m), r, h, f, x);
    Unfold(Release(m), r, h, f, x);
  }

  lemma ReleaseKeeps(s: State, x: Tid, m: MutexId, r: Code)
    requires At(s, x, Release(m), r)
    ensures m in s.locked
    ensures Inv(Go(s.(locked := s.locked - {m}, held := s.held[x := HeldBy(s.held, x) - {m}]), x, Then(Hand(m), r)))
  {
    hide Inv, Mutexes, Exclusive, Follows, Legal, FitsOk;
    var h, c := HeldBy(s.held, x), Then(Hand(m), r);
    Running(s, x, Release(m), r);
    StandIs(s, x, Release(m), r);
    HandFollows(m, r, h, FactsOf(s), x);
    InvMutexes(s);
    NobodyOwns(s.code, s.held, s.locked, s.owner, x, m);
    MutexesHeld(s.code, s.held, s.locked, s.owner, x, c, m, false);
    LockStep(s, Go(s.(locked := s.locked - {m}, held := s.held[x := h - {m}]), x, c), x, Release(m), r, c, h - {m});
  }

  lemma HandFollows(m: MutexId, r: Code, h: set<MutexId>, f: Facts, x: Tid)
    requires Stand(Release(m), r, h, f, x)
    ensures Follows(Then(Release(m), r), Then(Hand(m), r), h - {m}, f, x) && m in h
  {
    hide FitsOk, Legal, Cargo, Awaits, Dying, Has;
    Unfold(Release(m), r, h, f, x);
    Unfold(Hand(m), r, h - {m}, f, x);
  }
}
