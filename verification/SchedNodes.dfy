/**
 Steps of the running task that move other tasks' nodes.
 */
module SchedNodes {
  import opened Sched
  import opened Wrappers
  import opened SchedInv
  import opened SchedMoves
  import opened SchedLocal

  // ----- two tasks change: the code of x, and something about y

  ghost predicate TwoChange(s: State, s': State, x: Tid, c: Code, y: Tid) {
    && (forall u: Tid :: u != x && u != y ==> Of(s', u) == Of(s, u))
    && Of(s', x) == Of(s, x).(code := c) && s'.code == s.code[x := c]
  }

  lemma TwoStands(s: State, s': State, x: Tid, i: Instr, r: Code, c: Code, y: Tid)
    requires At(s, x, i, r) && !i.Yield? && !i.SleepBlock? && TwoChange(s, s', x, c, y)
    requires Legal(c, HeldBy(s.held, x)) && (Dying(Then(i, r)) ==> Dying(c)) && !Head(c).SleepBlock?
    requires TaskOk(Of(s', y))
    ensures Stands(s')
  {
    hide Legal, Dying, Awaits, Lists, Nodes, Beds, Graves, Burials, Exclusive, Mutexes, Cargos, Fits, Families, Clock,
      FitsOk;
    Running(s, x, i, r);
    assert TaskOk(Of(s, x));
    StandsOff2(s, s', x, y);
  }

  /** The code of x and the place and state of y change. */
  ghost predicate Moved(s: State, s': State, x: Tid, c: Code, y: Tid, p: Place, st: TaskState) {
    && s'.code == s.code[x := c]
    && (s'.place == s.place[y := p] || (s'.place == s.place && PlaceOf(s.place, y) == p))
    && (s'.state == s.state[y := st] || (s'.state == s.state && StateOf(s.state, y) == st))
    && s'.held == s.held && s'.asleep == s.asleep && s'.buried == s.buried && s'.registered == s.registered
    && s'.woken == s.woken && s'.parent == s.parent && s'.life == s.life
  }

  lemma MovedViews(s: State, s': State, x: Tid, c: Code, y: Tid, p: Place, st: TaskState)
    requires Moved(s, s', x, c, y, p, st) && x != y
    ensures TwoChange(s, s', x, c, y) && Of(s', y) == Of(s, y).(place := p, state := st)
  {
    hide CodeAt, PlaceOf, StateOf;
    var code' := CodeSet(s.code, x, c);
    var place' := PlaceSet(s.place, y, p);
    var state' := StateSet(s.state, y, st);
  }

  lemma MovedStands(s: State, s': State, x: Tid, i: Instr, r: Code, c: Code, y: Tid, p: Place, st: TaskState)
    requires At(s, x, i, r) && !i.Yield? && !i.SleepBlock? && Moved(s, s', x, c, y, p, st) && x != y
    requires Legal(c, HeldBy(s.held, x)) && (Dying(Then(i, r)) ==> Dying(c)) && !Head(c).SleepBlock?
    requires TaskOk(Of(s, y).(place := p, state := st))
    ensures Stands(s')
  {
    hide Legal, Dying, TaskOk, Moved, Inv, TwoChange;
    MovedViews(s, s', x, c, y, p, st);
    TwoStands(s, s', x, i, r, c, y);
  }

  /** The code of x changes, and the state of a task that is no zombie and not in waitpid. */
  lemma MovedFamilies(s: State, s': State, x: Tid, i: Instr, r: Code, c: Code, y: Tid, st: TaskState)
    requires At(s, x, i, r) && !i.Zombify? && Awaits(c).NotWaiting?
    requires s'.code == s.code[x := c] && (s'.state == s.state[y := st] || s'.state == s.state)
    requires s'.held == s.held && s'.parent == s.parent && s'.woken == s.woken
    requires StateOf(s.state, y) != ZOMBIE && StateOf(s.state, y) != WAITPID_BLOCKED && st != ZOMBIE
    requires st != WAITPID_BLOCKED
    ensures Families(s'.code, s'.state, s'.held, s'.parent, s'.woken)
  {
    hide Legal, Dying, Awaits, Lists, Nodes, Beds, Graves, Burials, Exclusive, Mutexes, Cargos, Fits, Families, Clock,
      FitsOk, TaskOk, Of, Stands;
    Running(s, x, i, r);
    CodeFamilies(s, x, c);
    FamiliesState(s'.code, s.state, s.held, s.parent, s.woken, y, st);
  }

  lemma CodeFamilies(s: State, x: Tid, c: Code)
    requires Families(s.code, s.state, s.held, s.parent, s.woken) && !Gone(s.code, s.state, s.held, x)
    requires Awaits(c).NotWaiting?
    ensures Families(s.code[x := c], s.state, s.held, s.parent, s.woken)
  {
    hide Awaits, Families;
    KinGo(s, x, c);
    FamiliesOff(s, Go(s, x, c), x);
  }

  /** The parts of the invariant about code alone, after the running task's code changed. */
  lemma CodeKit(s: State, x: Tid, i: Instr, r: Code, c: Code)
    requires At(s, x, i, r) && !i.Zombify? && !i.Owner? && !i.Release? && Cargo(c) == Cargo(Then(i, r))
    requires Awaits(c).NotWaiting?
    requires !Head(c).Owner? && !Head(c).Release?
    ensures Cargos(s.code[x := c], s.place) && Mutexes(s.code[x := c], s.held, s.locked, s.owner)
    ensures Families(s.code[x := c], s.state, s.held, s.parent, s.woken)
  {
    hide Lists, Nodes, Beds, Graves, Burials, Exclusive, Mutexes, Cargos, Fits, Families, Clock, Cargo, FitsOk, Legal,
      Dying, Awaits, Of, Stands;
    Running(s, x, i, r);
    CargosGo(s.code, s.place, x, c);
    MutexesGo(s.code, s.held, s.locked, s.owner, x, c);
    CodeFamilies(s, x, c);
  }

  // ----- taking the oldest waiter

  /** Code that has one more task in its hands. */
  ghost predicate Takes(c: Code, c': Code, y: Tid, h: set<MutexId>, f: Facts, x: Tid) {
    && Cargo(c') == Cargo(c) + multiset{y} && Legal(c', h) && FitsOk(c', f, x) && (Dying(c) ==> Dying(c'))
    && Awaits(c').NotWaiting? && !Head(c').Owner? && !Head(c').Release? && !Head(c').SleepBlock?
  }

  lemma UnblockTakes(i: Instr, r: Code, y: Tid, h: set<MutexId>, f: Facts, x: Tid)
    requires Stand(i, r, h, f, x) && (i.Hand? || i.Notify? || i.Drain?) && Fit(f, x, Unblock(y))
    ensures Takes(Then(i, r), Then(Unblock(y), if i.Drain? then Then(i, r) else r), y, h, f, x)
  {
    hide FitsOk, Legal, Cargo, Awaits, Dying, Has;
    Unfold(i, r, h, f, x);
    Unfold(Unblock(y), r, h, f, x);
    Unfold(Unblock(y), Then(i, r), h, f, x);
  }

  /** A waiting task is blocked and alive. */
  lemma Waiter(s: State, l: ListId)
    requires Shared(s) && l != Ready && Queue(s.lists, l) != []
    ensures var y := Queue(s.lists, l)[0];
      && PlaceOf(s.place, y) == In(l) && StateOf(s.state, y) == BLOCKED && LifeOf(s.life, y) == Alive && y !in s.slots
      && forall u: Tid, st :: st == BLOCKED || st == RUNNING ==> TaskOk(Of(s, y).(place := Carried(u), state := st))
  {
    hide Beds, Graves, Burials, Exclusive, Mutexes, Cargos, Fits, Families, Legal, Dying;
    var y := Queue(s.lists, l)[0];
    assert y in Queue(s.lists, l);
    assert TaskOk(Of(s, y));
  }

  lemma ExtractKeeps(s: State, x: Tid, i: Instr, r: Code, l: ListId)
    requires At(s, x, i, r) && (i.Hand? || i.Notify? || i.Drain?) && l != Ready && Queue(s.lists, l) != []
    ensures var y := Queue(s.lists, l)[0];
      Inv(Go(Pop(s, l, Carried(x)), x, Then(Unblock(y), if i.Drain? then Then(i, r) else r)))
  {
    hide Lists, Nodes, Beds, Graves, Burials, Exclusive, Mutexes, Cargos, Fits, Families, Clock, Cargo, FitsOk, Legal,
      Dying, Awaits, Of, Stands;
    var y, h, f := Queue(s.lists, l)[0], HeldBy(s.held, x), FactsOf(s);
    var c := Then(Unblock(y), if i.Drain? then Then(i, r) else r);
    var s' := Go(Pop(s, l, Carried(x)), x, c);
    Running(s, x, i, r);
    StandIs(s, x, i, r);
    Waiter(s, l);
    assert Fit(f, x, Unblock(y));
    UnblockTakes(i, r, y, h, f, x);
    ListsPop(s.lists, s.place, |s.drainers|, l, Carried(x));
    NodesPop(s.place, s.linked, s.slots, s.running, y, Carried(x));
    CargosTake(s.code, s.place, x, y, c);
    FitsGo(s.code, f, x, c);
    MutexesGo(s.code, s.held, s.locked, s.owner, x, c);
    MovedStands(s, s', x, i, r, c, y, Carried(x), BLOCKED);
    MovedFamilies(s, s', x, i, r, c, y, BLOCKED);
  }

  // ----- giving a task to the ready queue

  /** The task in the hands of the head instruction is in nobody else's. */
  lemma InHand(code: Codes, place: Places, x: Tid, i: Instr, r: Code)
    requires Cargos(code, place) && CodeAt(code, x) == Then(i, r) && Carries(i)
    ensures PlaceOf(place, i.t) == Carried(x) && Cargo(r)[i.t] == 0 && Cargo(r) + multiset{i.t} == Cargo(Then(i, r))
    ensures forall u: Tid :: u != x ==> Cargo(CodeAt(code, u))[i.t] == 0
  {
    hide CodeAt, PlaceOf;
    CargosOne(code, place, x);
    forall u: Tid | u != x ensures Cargo(CodeAt(code, u))[i.t] == 0 {
      CargosOne(code, place, u);
    }
  }

  /** The code goes on without the task. */
  lemma GiveFollows(i: Instr, r: Code, h: set<MutexId>, f: Facts, x: Tid)
    requires Stand(i, r, h, f, x) && (i.Unblock? || i.Launch?)
    ensures Legal(r, h) && FitsOk(r, f, x) && (Dying(Then(i, r)) ==> Dying(r)) && Awaits(r).NotWaiting?
    ensures !Head(r).Owner? && !Head(r).Release? && !Head(r).SleepBlock?
  {
    hide FitsOk, Legal, Cargo, Awaits, Dying, Has;
    Unfold(i, r, h, f, x);
  }

  /** A task in hand. */
  lemma Carrying(s: State, t: Tid, u: Tid)
    requires Shared(s) && PlaceOf(s.place, t) == Carried(u) && LifeOf(s.life, t) == Alive
    ensures t !in s.linked && t !in s.slots && StateOf(s.state, t) != ZOMBIE && StateOf(s.state, t) != WAITPID_BLOCKED
    ensures TaskOk(Of(s, t).(place := In(Ready), state := RUNNING))
    ensures TaskOk(Of(s, t).(place := Carried(u), state := RUNNING))
  {
    hide Lists, Beds, Graves, Burials, Exclusive, Mutexes, Cargos, Fits, Families, Legal, Dying, Awaits;
    assert TaskOk(Of(s, t));
  }

  lemma GivenFits(s: State, s': State, x: Tid, i: Instr, r: Code)
    requires Shared(s) && (i.Unblock? || i.Launch?) && FitsOk(r, FactsOf(s), x) && Cargos(s'.code, s'.place)
    requires PlaceOf(s'.place, i.t) == In(Ready)
    requires s'.code == s.code[x := r]
    requires FactsOf(s') == if i.Unblock? then FactsOf(s).(state := s.state[i.t := RUNNING]) else FactsOf(s)
    requires StateOf(s.state, i.t) != ZOMBIE && StateOf(s.state, i.t) != WAITPID_BLOCKED && LifeOf(s.life, i.t) == Alive
    ensures Fits(s'.code, FactsOf(s'))
  {
    hide Lists, Nodes, Beds, Graves, Burials, Exclusive, Mutexes, Cargos, Fits, Families, Stands, FitsOk, FactsOff;
    FitsGo(s.code, FactsOf(s), x, r);
    if i.Unblock? {
      UnheldAt(s'.code, s'.place, i.t);
      StateFacts(FactsOf(s), i.t, RUNNING);
      FitsFree(s'.code, FactsOf(s), FactsOf(s'), i.t);
    }
  }

  /** Unblock and Launch: the task in hand goes to the back of the ready queue, running. */
  lemma GiveKeeps(s: State, s': State, x: Tid, i: Instr, r: Code)
    requires At(s, x, i, r) && (i.Unblock? || i.Launch?)
    requires var t := i.t; var s1 := if i.Unblock? then s.(state := s.state[t := RUNNING]) else s;
      s' == Go(s1.(lists := s.lists[Ready := Queue(s.lists, Ready) + [t]], place := s.place[t := In(Ready)],
        linked := s.linked + {t}), x, r)
    ensures i.t !in s.linked && (i.Unblock? ==> StateOf(s.state, i.t) != RUNNING) && Inv(s')
  {
    hide Lists, Nodes, Beds, Graves, Burials, Exclusive, Mutexes, Cargos, Fits, Families, Clock, Cargo, FitsOk, Legal,
      Dying, Awaits, Of, Stands, TaskOk, Moved;
    hide StateOf, PlaceOf, NumberOf, HeldBy, CodeAt, LifeOf, Queue, Gone;
    var t, h, f := i.t, HeldBy(s.held, x), FactsOf(s);
    Running(s, x, i, r);
    StandIs(s, x, i, r);
    InHand(s.code, s.place, x, i, r);
    GiveFollows(i, r, h, f, x);
    Carrying(s, t, x);
    ListsPush(s.lists, s.place, |s.drainers|, Ready, t);
    NodesPush(s.place, s.linked, s.slots, s.running, Ready, t);
    CargosGive(s.code, s.place, x, t, In(Ready), r);
    var place' := PlaceSet(s.place, t, In(Ready));
    GivenFits(s, s', x, i, r);
    GivenMoved(s, s', x, i, r);
    MutexesGo(s.code, s.held, s.locked, s.owner, x, r);
    MovedStands(s, s', x, i, r, r, t, In(Ready), RUNNING);
    MovedFamilies(s, s', x, i, r, r, t, RUNNING);
  }

  lemma GivenMoved(s: State, s': State, x: Tid, i: Instr, r: Code)
    requires (i.Unblock? || i.Launch?) && (i.Launch? ==> StateOf(s.state, i.t) == RUNNING)
    requires var t := i.t; var s1 := if i.Unblock? then s.(state := s.state[t := RUNNING]) else s;
      s' == Go(s1.(lists := s.lists[Ready := Queue(s.lists, Ready) + [t]], place := s.place[t := In(Ready)],
        linked := s.linked + {t}), x, r)
    ensures Moved(s, s', x, r, i.t, In(Ready), RUNNING)
  {
  }

  lemma StateFacts(f: Facts, t: Tid, st: TaskState)
    requires StateOf(f.state, t) != ZOMBIE && StateOf(f.state, t) != WAITPID_BLOCKED && LifeOf(f.life, t) != Dead
    ensures FactsOff(f, f.(state := f.state[t := st]), t)
  {
    hide StateOf, LifeOf;
    var state' := StateSet(f.state, t, st);
  }

  // ----- tasks that stay in hand

  /** Rouse and Start: a task in hand is set running, next to be queued. */
  lemma RaiseFollows(i: Instr, r: Code, h: set<MutexId>, f: Facts, f': Facts, x: Tid)
    requires Stand(i, r, h, f, x) && (i.Rouse? || i.Start?) && Cargo(r)[i.t] == 0 && FactsOff(f, f', i.t)
    requires Fit(f', x, Launch(i.t)) && NumberOf(f'.parent, x) == NumberOf(f.parent, x) && f'.woken == f.woken
    ensures var c := Then(Launch(i.t), r);
      Cargo(c) == Cargo(Then(i, r)) && Legal(c, h) && FitsOk(c, f', x) && !Dying(Then(i, r)) && Awaits(c).NotWaiting?
  {
    hide FitsOk, Legal, Cargo, Awaits, Dying, Has, FactsOff;
    Unfold(i, r, h, f, x);
    FitsOkOff(r, f, f', x, i.t);
    Unfold(Launch(i.t), r, h, f', x);
  }

  lemma RouseKeeps(s: State, x: Tid, t: Tid, r: Code)
    requires At(s, x, Rouse(t), r)
    ensures Inv(Go(s.(state := s.state[t := RUNNING]), x, Then(Launch(t), r)))
  {
    hide Lists, Nodes, Beds, Graves, Burials, Exclusive, Mutexes, Cargos, Fits, Families, Clock, Cargo, FitsOk, Legal,
      Dying, Awaits, Of, Stands, FactsOff;
    var h, f, c := HeldBy(s.held, x), FactsOf(s), Then(Launch(t), r);
    var s' := Go(s.(state := s.state[t := RUNNING]), x, c);
    Running(s, x, Rouse(t), r);
    StandIs(s, x, Rouse(t), r);
    InHand(s.code, s.place, x, Rouse(t), r);
    Carrying(s, t, x);
    StateFacts(f, t, RUNNING);
    RaiseFollows(Rouse(t), r, h, f, FactsOf(s'), x);
    MovedViews(s, s', x, c, t, Carried(x), RUNNING);
    RaiseKeeps(s, s', x, Rouse(t), r);
  }

  lemma StartKeeps(s: State, x: Tid, t: Tid, r: Code)
    requires At(s, x, Start(t), r)
    ensures StateOf(s.state, t) != RUNNING
    ensures Inv(Go(s.(state := s.state[t := RUNNING], life := s.life[t := Alive]), x, Then(Launch(t), r)))
  {
    hide Lists, Nodes, Beds, Graves, Burials, Exclusive, Mutexes, Cargos, Fits, Families, Clock, Cargo, FitsOk, Legal,
      Dying, Awaits, Of, Stands, FactsOff;
    var h, f, c := HeldBy(s.held, x), FactsOf(s), Then(Launch(t), r);
    var s' := Go(s.(state := s.state[t := RUNNING], life := s.life[t := Alive]), x, c);
    Running(s, x, Start(t), r);
    StandIs(s, x, Start(t), r);
    InHand(s.code, s.place, x, Start(t), r);
    Newborn(s, t, x);
    StartFacts(f, t);
    RaiseFollows(Start(t), r, h, f, FactsOf(s'), x);
    StartViews(s, s', x, c, t);
    BurialsLife(s.burials, s.life, t, Alive);
    RaiseKeeps(s, s', x, Start(t), r);
  }

  /** A task that has not been started. */
  lemma Newborn(s: State, t: Tid, x: Tid)
    requires Shared(s) && LifeOf(s.life, t) == New && PlaceOf(s.place, t) == Carried(x)
    ensures StateOf(s.state, t) == BLOCKED && CodeAt(s.code, t) == Done && t !in s.asleep && t !in s.buried
    ensures HeldBy(s.held, t) == {}
    ensures t in s.registered ==> TaskOk(Of(s, t).(state := RUNNING, life := Alive))
    ensures TaskOk(Of(s, t).(registered := true))
  {
    hide Lists, Nodes, Beds, Graves, Burials, Exclusive, Mutexes, Cargos, Fits, Families;
    assert TaskOk(Of(s, t));
  }

  lemma StartFacts(f: Facts, t: Tid)
    requires StateOf(f.state, t) != ZOMBIE && StateOf(f.state, t) != WAITPID_BLOCKED && LifeOf(f.life, t) != Dead
    ensures FactsOff(f, f.(state := f.state[t := RUNNING], life := f.life[t := Alive]), t)
    ensures StateOf(f.state[t := RUNNING], t) == RUNNING && LifeOf(f.life[t := Alive], t) == Alive
  {
    hide StateOf, LifeOf;
    var state' := StateSet(f.state, t, RUNNING);
    var life' := LifeSet(f.life, t, Alive);
  }

  lemma StartViews(s: State, s': State, x: Tid, c: Code, t: Tid)
    requires s' == s.(code := s.code[x := c], state := s.state[t := RUNNING], life := s.life[t := Alive]) && x != t
    ensures TwoChange(s, s', x, c, t) && Of(s', t) == Of(s, t).(state := RUNNING, life := Alive)
  {
    hide CodeAt, StateOf, LifeOf;
    var code' := CodeSet(s.code, x, c);
    var state' := StateSet(s.state, t, RUNNING);
    var life' := LifeSet(s.life, t, Alive);
  }

  /** A task that is not dead may change its life. */
  lemma BurialsLife(burials: seq<Tid>, life: Lives, t: Tid, l: Life)
    requires Burials(burials, life) && (LifeOf(life, t) != Dead || l == Dead)
    ensures Burials(burials, life[t := l])
  {
    hide LifeOf, Unique;
    var life' := LifeSet(life, t, l);
  }

  /** What is common to both. */
  lemma RaiseKeeps(s: State, s': State, x: Tid, i: Instr, r: Code)
    requires At(s, x, i, r) && (i.Rouse? || i.Start?) && i.t != x
    requires s' == s.(code := s.code[x := Then(Launch(i.t), r)], state := s.state[i.t := RUNNING], life := s'.life)
    requires FactsOff(FactsOf(s), FactsOf(s'), i.t) && Legal(Then(Launch(i.t), r), HeldBy(s.held, x))
    requires !Dying(Then(i, r))
    requires Cargo(Then(Launch(i.t), r)) == Cargo(Then(i, r)) && Awaits(Then(Launch(i.t), r)).NotWaiting?
    requires FitsOk(Then(Launch(i.t), r), FactsOf(s'), x) && TwoChange(s, s', x, Then(Launch(i.t), r), i.t)
    requires TaskOk(Of(s', i.t))
    requires Burials(s.burials, s'.life)
    ensures Inv(s')
  {
    hide Lists, Nodes, Beds, Graves, Burials, Exclusive, Mutexes, Cargos, Fits, Families, Clock, Cargo, FitsOk, Legal,
      Dying, Awaits, Of, Stands, TwoChange;
    var t, c, f := i.t, Then(Launch(i.t), r), FactsOf(s);
    Running(s, x, i, r);
    InHand(s.code, s.place, x, i, r);
    CargosGo(s.code, s.place, x, c);
    FitsOff(s.code, f, FactsOf(s'), x, c, t);
    MutexesGo(s.code, s.held, s.locked, s.owner, x, c);
    TwoStands(s, s', x, i, r, c, t);
    MovedFamilies(s, s', x, i, r, c, t, RUNNING);
  }

  lemma RegisterFollows(t: Tid, own: bool, r: Code, h: set<MutexId>, f: Facts, f': Facts, x: Tid)
    requires Stand(Register(t, own), r, h, f, x) && Cargo(r)[t] == 0 && FactsOff(f, f', t)
    requires LifeOf(f'.life, t) == New && t in f'.registered && NumberOf(f'.parent, x) == NumberOf(f.parent, x)
    requires f'.woken == f.woken
    ensures var c, i := Then(Disown(AT), Then(if own then Adopt(t) else Start(t), r)), Register(t, own);
      Cargo(c) == Cargo(Then(i, r)) && Legal(c, h) && FitsOk(c, f', x) && !Dying(Then(i, r)) && Awaits(c).NotWaiting?
  {
    hide FitsOk, Legal, Cargo, Awaits, Dying, Has, FactsOff;
    var next := if own then Adopt(t) else Start(t);
    Unfold(Register(t, own), r, h, f, x);
    FitsOkOff(r, f, f', x, t);
    Unfold(next, r, h - {AT}, f', x);
    Unfold(Disown(AT), Then(next, r), h, f', x);
  }

  lemma AdoptFollows(t: Tid, r: Code, h: set<MutexId>, f: Facts, f': Facts, x: Tid)
    requires Stand(Adopt(t), r, h, f, x) && Cargo(r)[t] == 0 && FactsOff(f, f', t)
    requires LifeOf(f'.life, t) == New && t in f'.registered && NumberOf(f'.parent, x) == NumberOf(f.parent, x)
    requires f'.woken == f.woken
    ensures var c, i := Then(Start(t), r), Adopt(t);
      Cargo(c) == Cargo(Then(i, r)) && Legal(c, h) && FitsOk(c, f', x) && !Dying(Then(i, r)) && Awaits(c).NotWaiting?
  {
    hide FitsOk, Legal, Cargo, Awaits, Dying, Has, FactsOff;
    Unfold(Adopt(t), r, h, f, x);
    FitsOkOff(r, f, f', x, t);
    Unfold(Start(t), r, h, f', x);
  }

  /** Register and Adopt: something about a new task in hand is written down. */
  lemma NewKeeps(s: State, s': State, x: Tid, i: Instr, r: Code, c: Code)
    requires At(s, x, i, r) && (i.Register? || i.Adopt?) && i.t != x && !Head(c).Owner? && !Head(c).Release?
    requires !Head(c).SleepBlock?
    requires s' == s.(code := s.code[x := c], registered := s'.registered, parent := s'.parent)
    requires FactsOff(FactsOf(s), FactsOf(s'), i.t) && Legal(c, HeldBy(s.held, x)) && !Dying(Then(i, r))
    requires Cargo(c) == Cargo(Then(i, r)) && Awaits(c).NotWaiting? && FitsOk(c, FactsOf(s'), x)
    requires TwoChange(s, s', x, c, i.t) && TaskOk(Of(s', i.t)) && CodeAt(s.code, i.t).Done?
    requires Families(s'.code, s.state, s.held, s'.parent, s.woken)
    ensures Inv(s')
  {
    hide Lists, Nodes, Beds, Graves, Burials, Exclusive, Mutexes, Cargos, Fits, Families, Clock, Cargo, FitsOk, Legal,
      Dying, Awaits, Of, Stands, TwoChange;
    Running(s, x, i, r);
    InHand(s.code, s.place, x, i, r);
    CargosGo(s.code, s.place, x, c);
    FitsOff(s.code, FactsOf(s), FactsOf(s'), x, c, i.t);
    MutexesGo(s.code, s.held, s.locked, s.owner, x, c);
    TwoStands(s, s', x, i, r, c, i.t);
  }

  lemma RegisterKeeps(s: State, x: Tid, t: Tid, own: bool, r: Code)
    requires At(s, x, Register(t, own), r)
    ensures Inv(Go(s.(registered := s.registered + {t}), x,
      Then(Disown(AT), Then(if own then Adopt(t) else Start(t), r))))
  {
    hide Lists, Nodes, Beds, Graves, Burials, Exclusive, Mutexes, Cargos, Fits, Families, Clock, Cargo, FitsOk, Legal,
      Dying, Awaits, Stands;
    var i, c := Register(t, own), Then(Disown(AT), Then(if own then Adopt(t) else Start(t), r));
    var s' := Go(s.(registered := s.registered + {t}), x, c);
    Running(s, x, i, r);
    StandIs(s, x, i, r);
    InHand(s.code, s.place, x, i, r);
    Newborn(s, t, x);
    RegisterFollows(t, own, r, HeldBy(s.held, x), FactsOf(s), FactsOf(s'), x);
    OffGo(s, x, c);
    CodeFamilies(s, x, c);
    NewKeeps(s, s', x, i, r, c);
  }

  lemma AdoptKeeps(s: State, x: Tid, t: Tid, r: Code)
    requires At(s, x, Adopt(t), r)
    ensures Inv(Go(s.(parent := s.parent[t := x]), x, Then(Start(t), r)))
  {
    hide Lists, Nodes, Beds, Graves, Burials, Exclusive, Mutexes, Cargos, Fits, Families, Clock, Cargo, FitsOk, Legal,
      Dying, Awaits, Stands;
    var i, c := Adopt(t), Then(Start(t), r);
    var s' := Go(s.(parent := s.parent[t := x]), x, c);
    Running(s, x, i, r);
    StandIs(s, x, i, r);
    InHand(s.code, s.place, x, i, r);
    Newborn(s, t, x);
    ParentFacts(FactsOf(s), t, x);
    AdoptFollows(t, r, HeldBy(s.held, x), FactsOf(s), FactsOf(s'), x);
    OffGo(s, x, c);
    CodeFamilies(s, x, c);
    assert CodeAt(s'.code, t) == Done;
    FamiliesParent(s'.code, s.state, s.held, s.parent, s.woken, t, x);
    NewKeeps(s, s', x, i, r, c);
  }

  lemma ParentFacts(f: Facts, t: Tid, p: int)
    requires StateOf(f.state, t) != ZOMBIE && StateOf(f.state, t) != WAITPID_BLOCKED && LifeOf(f.life, t) != Dead
    ensures FactsOff(f, f.(parent := f.parent[t := p]), t)
    ensures forall u: Tid :: u != t ==> NumberOf(f.parent[t := p], u) == NumberOf(f.parent, u)
  {
    hide NumberOf;
    var parent' := NumberSet(f.parent, t, p);
  }

  /** The parent of a task that is not gone may change. */
  lemma FamiliesParent(code: Codes, state: States, held: Holds, parent: Numbers, woken: Numbers, t: Tid, p: int)
    requires Families(code, state, held, parent, woken) && !Gone(code, state, held, t)
    ensures Families(code, state, held, parent[t := p], woken)
  {
    hide CodeAt, StateOf, HeldBy, NumberOf, Awaits;
    var parent' := NumberSet(parent, t, p);
    forall q: Tid ensures FamilyOk(code, state, held, parent', woken, q) {
      assert FamilyOk(code, state, held, parent, woken, q);
    }
  }
}
