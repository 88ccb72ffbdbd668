/**
 Steps about going to sleep, waiting for children, dying and being buried.
 */
module SchedLives {
  import opened Sched
  import opened Wrappers
  import opened SchedInv
  import opened SchedMoves
  import opened SchedLocal
  import opened SchedNodes

  // ----- the running task alone

  /** The running task's own record changes: code, what it asked for, where it is listed. */
  lemma SelfKeeps(s: State, s': State, x: Tid, i: Instr, r: Code, c: Code)
    requires At(s, x, i, r) && !i.Zombify? && Cargo(c) == Cargo(Then(i, r)) && Awaits(c).NotWaiting?
    requires s' == s.(code := s.code[x := c], woken := s'.woken, sleeping := s'.sleeping, asleep := s'.asleep,
      graves := s'.graves, buried := s'.buried)
    requires Off(s, s', x) && TaskOk(Of(s', x)) && Beds(s'.sleeping, s'.asleep) && Graves(s'.graves, s'.buried)
    requires Fits(s'.code, FactsOf(s')) && MutexOk(c, HeldBy(s.held, x), s.locked, s.owner, x)
    ensures Inv(s')
  {
    hide Lists, Nodes, Beds, Graves, Burials, Exclusive, Mutexes, Cargos, Fits, Families, Clock, Cargo, Stands, TaskOk,
      MutexOk, Awaits;
    Running(s, x, i, r);
    CargosGo(s.code, s.place, x, c);
    MutexesGo(s.code, s.held, s.locked, s.owner, x, c);
    SelfFamilies(s, s', x, c);
    StandsOff(s, s', x);
  }

  lemma SelfFamilies(s: State, s': State, x: Tid, c: Code)
    requires Families(s.code, s.state, s.held, s.parent, s.woken) && !Gone(s.code, s.state, s.held, x)
    requires Awaits(c).NotWaiting?
    requires s' == s.(code := s.code[x := c], woken := s'.woken, sleeping := s'.sleeping, asleep := s'.asleep,
      graves := s'.graves, buried := s'.buried)
    requires Off(s, s', x)
    ensures Families(s'.code, s'.state, s'.held, s'.parent, s'.woken)
  {
    hide Awaits, Families, StateOf, HeldBy, NumberOf, PlaceOf, LifeOf;
    forall u: Tid | u != x ensures SameKin(s, s', u) {
      assert Of(s', u) == Of(s, u);
    }
    FamiliesOff(s, s', x);
  }

  /** An instruction followed by the only thing it leads to. */
  lemma NextFollows(i: Instr, i': Instr, r: Code, h: set<MutexId>, f: Facts, f': Facts, x: Tid)
    requires Stand(i, r, h, f, x) && ((i.SetWoken? && i'.WaitBlock?) || (i.SleepIn? && i'.SleepBlock?))
    requires f' == f.(woken := f'.woken) && FactsOff(f, f', x) && Cargo(r)[x] == 0
    requires i.SetWoken? ==> i'.pid == i.pid == NumberOf(f'.woken, x)
    requires i.SleepIn? ==> f' == f
    ensures var c := Then(i', r);
      Cargo(c) == Cargo(Then(i, r)) && Legal(c, h) && FitsOk(c, f', x) && !Dying(Then(i, r)) && Awaits(c).NotWaiting?
  {
    hide FitsOk, Legal, Cargo, Awaits, Dying, Has, FactsOff;
    Unfold(i, r, h, f, x);
    UnfoldDone(h, f', x);
    Unfold(i', r, h, f', x);
  }

  lemma SetWokenKeeps(s: State, x: Tid, pid: int, r: Code)
    requires At(s, x, SetWoken(pid), r)
    ensures Inv(Go(s.(woken := s.woken[x := pid]), x, Then(WaitBlock(pid), r)))
  {
    hide Lists, Nodes, Beds, Graves, Burials, Exclusive, Mutexes, Cargos, Fits, Families, Clock, Cargo, FitsOk, Legal,
      Dying, Awaits, Stands, FactsOff;
    var i, c := SetWoken(pid), Then(WaitBlock(pid), r);
    var s' := Go(s.(woken := s.woken[x := pid]), x, c);
    Running(s, x, i, r);
    StandIs(s, x, i, r);
    WokenFacts(FactsOf(s), x, pid);
    SelfUnheld(s, x, i, r);
    NextFollows(i, WaitBlock(pid), r, HeldBy(s.held, x), FactsOf(s), FactsOf(s'), x);
    FitsOff(s.code, FactsOf(s), FactsOf(s'), x, c, x);
    WokenOff(s, s', x, c, pid);
    RunnerOk(s, x, i, r, Of(s', x));
    SelfKeeps(s, s', x, i, r, c);
  }

  lemma WokenFacts(f: Facts, x: Tid, pid: int)
    requires StateOf(f.state, x) == RUNNING && LifeOf(f.life, x) == Alive
    ensures FactsOff(f, f.(woken := f.woken[x := pid]), x) && NumberOf(f.woken[x := pid], x) == pid
  {
    hide NumberOf, StateOf, LifeOf;
    var woken' := NumberSet(f.woken, x, pid);
  }

  lemma WokenOff(s: State, s': State, x: Tid, c: Code, pid: int)
    requires s' == Go(s.(woken := s.woken[x := pid]), x, c)
    ensures Off(s, s', x) && Of(s', x) == Of(s, x).(code := c, woken := pid)
  {
    hide NumberOf, CodeAt;
    var woken' := NumberSet(s.woken, x, pid);
    var code' := CodeSet(s.code, x, c);
  }

  /** Nobody has the running task in hand. */
  lemma SelfUnheld(s: State, x: Tid, i: Instr, r: Code)
    requires At(s, x, i, r)
    ensures forall u: Tid :: Cargo(CodeAt(s.code, u))[x] == 0
    ensures Cargo(r)[x] == 0
  {
    hide Lists, Nodes, Beds, Graves, Burials, Exclusive, Mutexes, Cargos, Fits, Families, Clock, Stands, CodeAt;
    UnheldAt(s.code, s.place, x);
    assert Cargo(CodeAt(s.code, x))[x] == 0;
  }

  /** A task that runs on is all right. */
  lemma RunnerOk(s: State, x: Tid, i: Instr, r: Code, k: View)
    requires At(s, x, i, r) && !i.Yield?
    requires k == Of(s, x).(code := k.code, woken := k.woken, asleep := k.asleep, buried := k.buried)
    requires Legal(k.code, k.held) && (k.buried ==> Dying(k.code))
    requires (k.asleep ==> Head(k.code).SleepBlock? && WT in k.held)
    requires Head(k.code).SleepBlock? ==> k.asleep
    ensures TaskOk(k)
  {
    hide Lists, Nodes, Beds, Graves, Burials, Exclusive, Mutexes, Cargos, Fits, Families, Clock, Legal, Dying, Awaits;
    assert TaskOk(Of(s, x));
  }

  lemma SleepInKeeps(s: State, x: Tid, w: nat, r: Code)
    requires At(s, x, SleepIn(w), r)
    ensures Inv(Go(s.(sleeping := s.sleeping[w := Sleepers(s.sleeping, w) + [x]], asleep := s.asleep[x := w]), x,
      Then(SleepBlock(w), r)))
  {
    hide Lists, Nodes, Beds, Graves, Burials, Exclusive, Mutexes, Cargos, Fits, Families, Clock, Cargo, FitsOk, Legal,
      Dying, Awaits, Stands, FactsOff;
    var i, c := SleepIn(w), Then(SleepBlock(w), r);
    var s' := Go(s.(sleeping := s.sleeping[w := Sleepers(s.sleeping, w) + [x]], asleep := s.asleep[x := w]), x, c);
    Running(s, x, i, r);
    StandIs(s, x, i, r);
    SelfUnheld(s, x, i, r);
    SameFacts(FactsOf(s), x);
    NextFollows(i, SleepBlock(w), r, HeldBy(s.held, x), FactsOf(s), FactsOf(s), x);
    FitsGo(s.code, FactsOf(s), x, c);
    BedsIn(s.sleeping, s.asleep, w, x);
    OffGo(s, x, c);
    assert WT in HeldBy(s.held, x) by { Unfold(i, r, HeldBy(s.held, x), FactsOf(s), x); }
    RunnerOk(s, x, i, r, Of(s', x));
    SelfKeeps(s, s', x, i, r, c);
  }

  lemma SameFacts(f: Facts, x: Tid)
    requires StateOf(f.state, x) == RUNNING && LifeOf(f.life, x) == Alive
    ensures FactsOff(f, f, x)
  {
  }

  lemma BedsIn(sleeping: Bedroom, asleep: map<Tid, nat>, w: nat, x: Tid)
    requires Beds(sleeping, asleep) && x !in asleep
    ensures Beds(sleeping[w := Sleepers(sleeping, w) + [x]], asleep[x := w])
  {
    hide Unique, Sleepers;
    var sleeping' := BedSet(sleeping, w, Sleepers(sleeping, w) + [x]);
    assert x !in Sleepers(sleeping, w);
    UniquePush(Sleepers(sleeping, w), x);
  }

  lemma BurySelfKeeps(s: State, x: Tid, r: Code)
    requires At(s, x, BurySelf, r)
    ensures Inv(Go(s.(graves := s.graves + [x], buried := s.buried + {x}), x,
      Then(Notify(FREE_CV), Then(Disown(TF), Then(BlockSelf, Done)))))
  {
    hide Lists, Nodes, Beds, Graves, Burials, Exclusive, Mutexes, Cargos, Fits, Families, Clock, Cargo, FitsOk, Legal,
      Dying, Awaits, Stands, FactsOff;
    var i, c := BurySelf, Then(Notify(FREE_CV), Then(Disown(TF), Then(BlockSelf, Done)));
    var s' := Go(s.(graves := s.graves + [x], buried := s.buried + {x}), x, c);
    Running(s, x, i, r);
    StandIs(s, x, i, r);
    DyingCode(r, HeldBy(s.held, x), FactsOf(s), x);
    GravesIn(s.graves, s.buried, x);
    FitsGo(s.code, FactsOf(s), x, c);
    FitsGraves(s'.code, FactsOf(s));
    OffGo(s, x, c);
    RunnerOk(s, x, i, r, Of(s', x));
    SelfKeeps(s, s', x, i, r, c);
  }

  lemma DyingCode(r: Code, h: set<MutexId>, f: Facts, x: Tid)
    requires Stand(BurySelf, r, h, f, x)
    ensures var c := Then(Notify(FREE_CV), Then(Disown(TF), Then(BlockSelf, Done)));
      && Cargo(c) == Cargo(Then(BurySelf, r)) && Legal(c, h) && FitsOk(c, f, x) && Dying(c) && Awaits(c).NotWaiting? &&
        !Dying(Then(BurySelf, r))
  {
    hide FitsOk, Legal, Cargo, Awaits, Dying, Has;
    Unfold(BurySelf, r, h, f, x);
    UnfoldDone(h - {TF}, f, x);
    Unfold(BlockSelf, Done, h - {TF}, f, x);
    Unfold(Disown(TF), Then(BlockSelf, Done), h, f, x);
    Unfold(Notify(FREE_CV), Then(Disown(TF), Then(BlockSelf, Done)), h, f, x);
  }

  lemma GravesIn(graves: seq<Tid>, buried: set<Tid>, x: Tid)
    requires Graves(graves, buried) && x !in buried
    ensures Graves(graves + [x], buried + {x})
  {
    hide Unique;
    UniquePush(graves, x);
  }

  lemma FitsGraves(code: Codes, f: Facts)
    requires Fits(code, f)
    ensures Fits(code, f.(graves := true))
  {
    hide CodeAt, Has;
    forall u: Tid ensures FitsOk(CodeAt(code, u), f.(graves := true), u) {
      assert FitsOk(CodeAt(code, u), f, u);
    }
  }

  // ----- the freer

  /** Who is in TasksToFree and not running is dead. */
  lemma DeadInGrave(s: State)
    requires Shared(s) && s.graves != [] && StateOf(s.state, s.graves[0]) != RUNNING
    ensures LifeOf(s.life, s.graves[0]) == Dead && s.graves[0] in s.buried
  {
    hide Lists, Nodes, Beds, Burials, Exclusive, Mutexes, Cargos, Fits, Families, Legal, Dying;
    assert s.graves[0] in s.graves;
    assert TaskOk(Of(s, s.graves[0]));
  }

  lemma FreerPopKeeps(s: State, x: Tid, r: Code)
    requires At(s, x, FreerTake, r) && s.graves != [] && StateOf(s.state, s.graves[0]) != RUNNING
    ensures var t := s.graves[0];
      Inv(Go(s.(graves := s.graves[1..], buried := s.buried - {t}), x,
        Then(Disown(TF), Then(Acquire(AT), Then(Erase(t), r)))))
  {
    hide Lists, Nodes, Beds, Graves, Burials, Exclusive, Mutexes, Cargos, Fits, Families, Clock, Cargo, FitsOk, Legal,
      Dying, Awaits, Stands, FactsOff, Of, TwoChange;
    var t, i := s.graves[0], FreerTake;
    var c := Then(Disown(TF), Then(Acquire(AT), Then(Erase(t), r)));
    var s' := Go(s.(graves := s.graves[1..], buried := s.buried - {t}), x, c);
    Running(s, x, i, r);
    StandIs(s, x, i, r);
    DeadInGrave(s);
    EraseCode(t, r, HeldBy(s.held, x), FactsOf(s), FactsOf(s'), x);
    GravesOut(s.graves, s.buried);
    FitsNoGraves(s.code, FactsOf(s), FactsOf(s'), x, c);
    DeadChange(s, s', x, c, t);
    DeadOk(s, t, Of(s', t));
    CodeKit(s, x, i, r, c);
    TwoStands(s, s', x, i, r, c, t);
  }

  lemma EraseCode(t: Tid, r: Code, h: set<MutexId>, f: Facts, f': Facts, x: Tid)
    requires Stand(FreerTake, r, h, f, x) && LifeOf(f.life, t) == Dead && f' == f.(graves := f'.graves)
    ensures var c := Then(Disown(TF), Then(Acquire(AT), Then(Erase(t), r)));
      && Cargo(c) == Cargo(Then(FreerTake, r)) && Legal(c, h) && FitsOk(c, f', x) && Awaits(c).NotWaiting? &&
        !Dying(Then(FreerTake, r))
  {
    hide FitsOk, Legal, Cargo, Awaits, Dying, Has;
    Unfold(FreerTake, r, h, f, x);
    var h' := h - {TF};
    PutBack(h', AT);
    UnfoldDone(h', f', x);
    Unfold(Erase(t), r, h' + {AT}, f', x);
    Unfold(Acquire(AT), Then(Erase(t), r), h', f', x);
    Unfold(Disown(TF), Then(Acquire(AT), Then(Erase(t), r)), h, f', x);
  }

  lemma GravesOut(graves: seq<Tid>, buried: set<Tid>)
    requires Graves(graves, buried) && graves != []
    ensures Graves(graves[1..], buried - {graves[0]})
  {
    hide Unique;
    UniquePop(graves);
  }

  /** Only the freer itself counts on TasksToFree not being empty. */
  lemma FitsNoGraves(code: Codes, f: Facts, f': Facts, x: Tid, c: Code)
    requires Fits(code, f) && x == FREER && f' == f.(graves := f'.graves) && FitsOk(c, f', x)
    ensures Fits(code[x := c], f')
  {
    hide CodeAt, Has;
    var code' := CodeSet(code, x, c);
    forall u: Tid ensures FitsOk(CodeAt(code', u), f', u) {
      assert FitsOk(CodeAt(code, u), f, u);
    }
  }

  lemma DeadChange(s: State, s': State, x: Tid, c: Code, t: Tid)
    requires s' == s.(code := s.code[x := c], graves := s'.graves, buried := s'.buried, registered := s'.registered)
    requires x != t
    requires (s'.buried == s.buried - {t} && s'.registered == s.registered) ||
      (s'.buried == s.buried && s'.registered == s.registered - {t})
    ensures TwoChange(s, s', x, c, t) && Of(s', t) == Of(s, t).(buried := t in s'.buried,
      registered := t in s'.registered)
  {
    hide CodeAt;
    var code' := CodeSet(s.code, x, c);
  }

  /** A dead task stays as it is, listed and registered or not. */
  lemma DeadOk(s: State, t: Tid, k: View)
    requires Shared(s) && LifeOf(s.life, t) == Dead && k == Of(s, t).(buried := k.buried, registered := k.registered)
    ensures TaskOk(k) && StateOf(s.state, t) == BLOCKED
  {
    hide Lists, Nodes, Beds, Graves, Burials, Exclusive, Mutexes, Cargos, Fits, Families, Legal, Dying;
    assert TaskOk(Of(s, t));
  }

  lemma EraseKeeps(s: State, x: Tid, t: Tid, r: Code)
    requires At(s, x, Erase(t), r)
    ensures StateOf(s.state, t) != RUNNING
    ensures Inv(Go(s.(registered := s.registered - {t}), x, Then(Disown(AT), r)))
  {
    hide Lists, Nodes, Beds, Graves, Burials, Exclusive, Mutexes, Cargos, Fits, Families, Clock, Cargo, FitsOk, Legal,
      Dying, Awaits, Stands, FactsOff, Of, TwoChange;
    var i, c := Erase(t), Then(Disown(AT), r);
    var s' := Go(s.(registered := s.registered - {t}), x, c);
    Running(s, x, i, r);
    StandIs(s, x, i, r);
    DeadChange(s, s', x, c, t);
    DeadOk(s, t, Of(s', t));
    ErasedCode(t, r, HeldBy(s.held, x), FactsOf(s), x);
    FitsGo(s.code, FactsOf(s), x, c);
    FitsErased(s'.code, FactsOf(s), t);
    CodeKit(s, x, i, r, c);
    TwoStands(s, s', x, i, r, c, t);
  }

  lemma ErasedCode(t: Tid, r: Code, h: set<MutexId>, f: Facts, x: Tid)
    requires Stand(Erase(t), r, h, f, x)
    ensures var c := Then(Disown(AT), r);
      && Cargo(c) == Cargo(Then(Erase(t), r)) && Legal(c, h) && FitsOk(c, f, x) && Awaits(c).NotWaiting? &&
        !Dying(Then(Erase(t), r))
  {
    hide FitsOk, Legal, Cargo, Awaits, Dying, Has;
    Unfold(Erase(t), r, h, f, x);
    Unfold(Disown(AT), r, h, f, x);
  }

  lemma FitsErased(code: Codes, f: Facts, t: Tid)
    requires Fits(code, f) && LifeOf(f.life, t) == Dead
    ensures Fits(code, f.(registered := f.registered - {t}))
  {
    hide CodeAt, Has;
    forall u: Tid ensures FitsOk(CodeAt(code, u), f.(registered := f.registered - {t}), u) {
      assert FitsOk(CodeAt(code, u), f, u);
    }
  }

  // ----- the burial of a zombie

  lemma ZombieFacts(s: State, z: Tid)
    requires Shared(s) && StateOf(s.state, z) == ZOMBIE
    ensures PlaceOf(s.place, z) == Slot && z in s.slots && z !in s.buried && z !in s.asleep
    ensures LifeOf(s.life, z) == Alive && z !in s.burials
    ensures TaskOk(Of(s, z).(state := BLOCKED, place := Nowhere, life := Dead, buried := true))
  {
    hide Lists, Beds, Graves, Exclusive, Mutexes, Cargos, Fits, Families, Legal, Dying, Awaits, Unique;
    assert TaskOk(Of(s, z));
  }

  /** The code after a burial: no second burial in it. */
  lemma BuriedCode(z: Tid, r: Code, h: set<MutexId>, f: Facts, f': Facts, x: Tid)
    requires Stand(Bury(z), r, h, f, x)
    ensures var c := Then(Notify(FREE_CV), Then(Disown(TF), r));
      && Cargo(c) == Cargo(Then(Bury(z), r)) && Legal(c, h) && FitsOk(c, f', x) && Awaits(c).NotWaiting? &&
        !Dying(Then(Bury(z), r))
  {
    hide FitsOk, Legal, Cargo, Awaits, Dying, Has;
    Unfold(Bury(z), r, h, f, x);
    UnfoldDone(h, f', x);
    Unfold(Disown(AT), Done, h, f', x);
    Unfold(Disown(TF), r, h, f', x);
    Unfold(Notify(FREE_CV), Then(Disown(TF), r), h, f', x);
  }

  lemma FitsBuried(code: Codes, f: Facts, f': Facts, x: Tid, z: Tid, c: Code)
    requires Fits(code, f) && StateOf(f.state, z) == ZOMBIE && NumberOf(f.parent, z) == x
    requires LifeOf(f.life, z) == Alive && FitsOk(c, f', x)
    requires f' == f.(state := f.state[z := BLOCKED], life := f.life[z := Dead], graves := true)
    requires Unheld(code, z)
    ensures Fits(code[x := c], f')
  {
    hide CodeAt, Has, StateOf, LifeOf, Cargo;
    var code' := CodeSet(code, x, c);
    var state' := StateSet(f.state, z, BLOCKED);
    var life' := LifeSet(f.life, z, Dead);
    forall u: Tid ensures FitsOk(CodeAt(code', u), f', u) {
      assert FitsOk(CodeAt(code, u), f, u);
      forall i | u != x && Has(CodeAt(code, u), i) ensures Fit(f', u, i) {
        assert Fit(f, u, i);
        if Carries(i) {
          HasCargo(CodeAt(code, u), i);
          assert Cargo(CodeAt(code, u))[z] == 0;
        }
      }
    }
  }

  lemma FamiliesBuried(s: State, code: Codes, x: Tid, z: Tid)
    requires Families(code, s.state, s.held, s.parent, s.woken) && StateOf(s.state, z) == ZOMBIE
    requires NumberOf(s.parent, z) == x
    requires Awaits(CodeAt(code, x)).NotWaiting?
    ensures Families(code, s.state[z := BLOCKED], s.held, s.parent, s.woken)
  {
    hide CodeAt, StateOf, HeldBy, NumberOf, Awaits;
    var state' := StateSet(s.state, z, BLOCKED);
    forall p: Tid ensures FamilyOk(code, state', s.held, s.parent, s.woken, p) {
      assert FamilyOk(code, s.state, s.held, s.parent, s.woken, p);
    }
  }

  lemma BuriedViews(s: State, s': State, x: Tid, c: Code, z: Tid)
    requires s' == s.(code := s.code[x := c], state := s.state[z := BLOCKED], slots := s'.slots,
      place := s.place[z := Nowhere], life := s.life[z := Dead],
      graves := s'.graves, buried := s.buried + {z}, burials := s'.burials) && x != z
    ensures TwoChange(s, s', x, c, z) && Of(s', z) == Of(s, z).(state := BLOCKED, place := Nowhere, life := Dead,
      buried := true)
  {
    hide CodeAt, StateOf, PlaceOf, LifeOf;
    var code' := CodeSet(s.code, x, c);
    var state' := StateSet(s.state, z, BLOCKED);
    var place' := PlaceSet(s.place, z, Nowhere);
    var life' := LifeSet(s.life, z, Dead);
  }

  lemma BuryKeeps(s: State, s': State, x: Tid, z: Tid, r: Code, c: Code)
    requires At(s, x, Bury(z), r) && c == Then(Notify(FREE_CV), Then(Disown(TF), r))
    requires s' == s.(code := s.code[x := c], state := s.state[z := BLOCKED], slots := s.slots - {z},
      place := s.place[z := Nowhere], life := s.life[z := Dead],
      graves := s.graves + [z], buried := s.buried + {z}, burials := s.burials + [z])
    ensures z in s.slots && z !in s.burials && Inv(s')
  {
    hide Lists, Nodes, Beds, Graves, Burials, Exclusive, Mutexes, Cargos, Fits, Families, Clock, Cargo, FitsOk, Legal,
      Dying, Awaits, Stands, Of, TwoChange;
    var i, f := Bury(z), FactsOf(s);
    Running(s, x, i, r);
    StandIs(s, x, i, r);
    ZombieFacts(s, z);
    BuriedCode(z, r, HeldBy(s.held, x), f, FactsOf(s'), x);
    CodeKit(s, x, i, r, c);
    ListsMove(s.lists, s.place, |s.drainers|, z, Nowhere);
    NodesUnslot(s.place, s.linked, s.slots, s.running, z);
    CargosMove(s'.code, s.place, z, Nowhere);
    UnheldAt(s.code, s.place, z);
    FitsBuried(s.code, f, FactsOf(s'), x, z, c);
    FamiliesBuried(s, s'.code, x, z);
    GravesIn(s.graves, s.buried, z);
    BurialsIn(s.burials, s.life, z);
    BuriedViews(s, s', x, c, z);
    TwoStands(s, s', x, i, r, c, z);
  }

  lemma NodesUnslot(place: Places, linked: set<Tid>, slots: set<Tid>, running: Option<Tid>, z: Tid)
    requires Nodes(place, linked, slots, running) && PlaceOf(place, z) == Slot
    ensures Nodes(place[z := Nowhere], linked, slots - {z}, running)
  {
    hide PlaceOf;
    var place' := PlaceSet(place, z, Nowhere);
  }

  lemma BurialsIn(burials: seq<Tid>, life: Lives, z: Tid)
    requires Burials(burials, life) && z !in burials
    ensures Burials(burials + [z], life[z := Dead])
  {
    hide LifeOf, Unique;
    var life' := LifeSet(life, z, Dead);
    UniquePush(burials, z);
  }

  // ----- a child wakes its parent

  lemma WaitingParent(s: State, p: Tid)
    requires Shared(s) && StateOf(s.state, p) == WAITPID_BLOCKED
    ensures PlaceOf(s.place, p) == Slot && p in s.slots && p !in s.linked && p !in s.asleep
    ensures LifeOf(s.life, p) == Alive
    ensures Head(CodeAt(s.code, p)) == Acquire(AT) && !Gone(s.code, s.state, s.held, p)
    ensures !Awaits(CodeAt(s.code, p)).NotWaiting?
    ensures forall w: int :: TaskOk(Of(s, p).(state := RUNNING, place := In(Ready), woken := w))
  {
    hide Lists, Beds, Graves, Burials, Exclusive, Mutexes, Cargos, Fits, Families, Legal, Dying, Awaits;
    assert TaskOk(Of(s, p));
  }

  /** Code that is about to wake a parent does so next, with AllTasks_lock held. */
  lemma {:induction false} WakeParentNext(c: Code, h: set<MutexId>, p: Tid)
    requires Legal(c, h) && Has(c, WakeParent(p))
    ensures c.Then? && c.i == WakeParent(p) && AT in h
  {
    if c.i != WakeParent(p) {
      WakeParentNext(c.rest, After(c.i, c.rest, h).value, p);
    }
  }

  /** A task on its way back from waitpid_block has no such call ahead of it. */
  lemma {:induction false} NotBackAndForth(c: Code, h: set<MutexId>, i: Instr)
    requires Legal(c, h) && !Awaits(c).NotWaiting? && i.WaitBlock?
    ensures !Has(c, i)
  {
    if c.i.Woken? || c.i.TakeWoken? {
      assert c.rest.Done?;
    } else {
      NotBackAndForth(c.rest, After(c.i, c.rest, h).value, i);
    }
  }

  lemma FitsWoken(code: Codes, held: Holds, f: Facts, f': Facts, x: Tid, p: Tid, c: Code)
    requires Fits(code, f) && StateOf(f.state, p) == WAITPID_BLOCKED && LifeOf(f.life, p) == Alive
    requires FitsOk(c, f', x) && Unheld(code, p)
    requires f' == f.(state := f.state[p := RUNNING], woken := f.woken[p := x])
    requires AT in HeldBy(held, x) && Exclusive(held) && !Awaits(CodeAt(code, p)).NotWaiting?
    requires forall u: Tid :: Legal(CodeAt(code, u), HeldBy(held, u))
    ensures Fits(code[x := c], f')
  {
    hide CodeAt, Has, StateOf, NumberOf, Cargo, Legal, HeldBy, Awaits;
    var code' := CodeSet(code, x, c);
    var state' := StateSet(f.state, p, RUNNING);
    var woken' := NumberSet(f.woken, p, x);
    forall u: Tid ensures FitsOk(CodeAt(code', u), f', u) {
      assert FitsOk(CodeAt(code, u), f, u);
      forall i | u != x && Has(CodeAt(code, u), i) ensures Fit(f', u, i) {
        assert Fit(f, u, i);
        if Carries(i) {
          HasCargo(CodeAt(code, u), i);
          assert Cargo(CodeAt(code, u))[p] == 0;
        }
        if i.WakeParent? {
          WakeParentNext(CodeAt(code, u), HeldBy(held, u), i.p);
        }
        if i.WaitBlock? && u == p {
          NotBackAndForth(CodeAt(code, p), HeldBy(held, p), i);
        }
      }
    }
  }

  lemma FamiliesWoken(code: Codes, state: States, held: Holds, parent: Numbers, woken: Numbers, x: Tid, p: Tid)
    requires Families(code, state, held, parent, woken) && StateOf(state, p) == WAITPID_BLOCKED && p != x
    requires NumberOf(parent, x) == p
    requires (NumberOf(woken, p) == x || NumberOf(woken, p) == -1) && Gone(code, state, held, x)
    requires !Gone(code, state, held, p)
    ensures Families(code, state[p := RUNNING], held, parent, woken[p := x])
  {
    hide CodeAt, StateOf, HeldBy, NumberOf, Awaits;
    var state' := StateSet(state, p, RUNNING);
    var woken' := NumberSet(woken, p, x);
    forall q: Tid ensures FamilyOk(code, state', held, parent, woken', q) {
      assert FamilyOk(code, state, held, parent, woken, q);
    }
  }

  lemma WokenViews(s: State, s': State, x: Tid, c: Code, p: Tid)
    requires s' == s.(code := s.code[x := c], state := s.state[p := RUNNING], slots := s'.slots,
      place := s.place[p := In(Ready)], woken := s.woken[p := x],
      lists := s'.lists, linked := s'.linked) && x != p
    ensures TwoChange(s, s', x, c, p) && Of(s', p) == Of(s, p).(state := RUNNING, place := In(Ready), woken := x)
  {
    hide CodeAt, StateOf, PlaceOf, NumberOf;
    var code' := CodeSet(s.code, x, c);
    var state' := StateSet(s.state, p, RUNNING);
    var place' := PlaceSet(s.place, p, In(Ready));
    var woken' := NumberSet(s.woken, p, x);
  }

  lemma WakeParentKeeps(s: State, s': State, x: Tid, p: Tid, r: Code)
    requires At(s, x, WakeParent(p), r)
    requires s' == s.(code := s.code[x := Then(Zombify, Done)], state := s.state[p := RUNNING], slots := s.slots - {p},
      place := s.place[p := In(Ready)],
      woken := s.woken[p := x], lists := s.lists[Ready := Queue(s.lists, Ready) + [p]], linked := s.linked + {p})
    ensures p in s.slots && p !in s.linked && Inv(s')
  {
    hide Lists, Nodes, Beds, Graves, Burials, Exclusive, Mutexes, Cargos, Fits, Families, Clock, Cargo, FitsOk, Legal,
      Dying, Awaits, Stands, Of, TaskOk, TwoChange;
    hide StateOf, PlaceOf, NumberOf, HeldBy, CodeAt, LifeOf, Queue, Gone;
    var i, c, f, h := WakeParent(p), Then(Zombify, Done), FactsOf(s), HeldBy(s.held, x);
    Running(s, x, i, r);
    StandIs(s, x, i, r);
    WaitingParent(s, p);
    ZombifyCode(p, r, h, f, FactsOf(s'), x);
    CodeKit(s, x, i, r, c);
    WokenQueues(s, s', x, p);
    WokenFits(s, s', x, p, c);
    WokenFamily(s, x, c, p);
    WokenViews(s, s', x, c, p);
    var place' := PlaceSet(s.place, p, In(Ready));
    TwoStands(s, s', x, i, r, c, p);
  }

  lemma WokenQueues(s: State, s': State, x: Tid, p: Tid)
    requires Lists(s.lists, s.place, |s.drainers|) && Nodes(s.place, s.linked, s.slots, s.running)
    requires Cargos(s'.code, s.place) && PlaceOf(s.place, p) == Slot
    requires s'.place == s.place[p := In(Ready)] && s'.lists == s.lists[Ready := Queue(s.lists, Ready) + [p]]
    requires s'.linked == s.linked + {p} && s'.slots == s.slots - {p}
    ensures Lists(s'.lists, s'.place, |s.drainers|) && Nodes(s'.place, s'.linked, s'.slots, s.running)
    ensures Cargos(s'.code, s'.place)
  {
    hide Lists, Nodes, Cargos;
    ListsPush(s.lists, s.place, |s.drainers|, Ready, p);
    NodesWake(s.place, s.linked, s.slots, s.running, p);
    CargosMove(s'.code, s.place, p, In(Ready));
  }

  lemma WokenFits(s: State, s': State, x: Tid, p: Tid, c: Code)
    requires Shared(s) && PlaceOf(s.place, p) == Slot && StateOf(s.state, p) == WAITPID_BLOCKED
    requires LifeOf(s.life, p) == Alive
    requires FitsOk(c, FactsOf(s'), x) && !Awaits(CodeAt(s.code, p)).NotWaiting? && AT in HeldBy(s.held, x)
    requires FactsOf(s') == FactsOf(s).(state := s.state[p := RUNNING], woken := s.woken[p := x])
    ensures Fits(s.code[x := c], FactsOf(s'))
  {
    hide Lists, Nodes, Beds, Graves, Burials, Exclusive, Mutexes, Cargos, Fits, Families, Stands, Awaits, FitsOk;
    UnheldAt(s.code, s.place, p);
    AllLegal(s);
    FitsWoken(s.code, s.held, FactsOf(s), FactsOf(s'), x, p, c);
  }

  lemma WokenFamily(s: State, x: Tid, c: Code, p: Tid)
    requires Families(s.code[x := c], s.state, s.held, s.parent, s.woken) && StateOf(s.state, p) == WAITPID_BLOCKED
    requires p != x && NumberOf(s.parent, x) == p
    requires NumberOf(s.woken, p) == x || NumberOf(s.woken, p) == -1
    requires AT in HeldBy(s.held, x) && Head(c) == Zombify && Head(CodeAt(s.code, p)) == Acquire(AT)
    ensures Families(s.code[x := c], s.state[p := RUNNING], s.held, s.parent, s.woken[p := x])
  {
    hide Families, StateOf, HeldBy, NumberOf, CodeAt;
    var code' := CodeSet(s.code, x, c);
    FamiliesWoken(code', s.state, s.held, s.parent, s.woken, x, p);
  }

  lemma AllLegal(s: State)
    requires Stands(s)
    ensures forall u: Tid :: Legal(CodeAt(s.code, u), HeldBy(s.held, u))
  {
    hide Legal, CodeAt, HeldBy;
    forall u: Tid ensures Legal(CodeAt(s.code, u), HeldBy(s.held, u)) {
      assert TaskOk(Of(s, u));
    }
  }

  lemma ZombifyCode(p: Tid, r: Code, h: set<MutexId>, f: Facts, f': Facts, x: Tid)
    requires Stand(WakeParent(p), r, h, f, x)
    ensures var c := Then(Zombify, Done);
      && Cargo(c) == Cargo(Then(WakeParent(p), r)) && Legal(c, h) && FitsOk(c, f', x) && Awaits(c).NotWaiting? &&
        !Dying(Then(WakeParent(p), r)) && AT in h
  {
    hide FitsOk, Legal, Cargo, Awaits, Dying, Has;
    Unfold(WakeParent(p), r, h, f, x);
    UnfoldDone(h - {AT}, f', x);
    Unfold(Zombify, Done, h, f', x);
  }

  lemma NodesWake(place: Places, linked: set<Tid>, slots: set<Tid>, running: Option<Tid>, p: Tid)
    requires Nodes(place, linked, slots, running) && PlaceOf(place, p) == Slot
    ensures Nodes(place[p := In(Ready)], linked + {p}, slots - {p}, running)
  {
    hide PlaceOf;
    var place' := PlaceSet(place, p, In(Ready));
  }
}
