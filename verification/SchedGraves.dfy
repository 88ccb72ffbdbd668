/**
 Dead tasks over whole runs: each is in TasksToFree, or the freer has it in
 hand, until it has left AllTasks.
 */
module SchedGraves {
  import opened Sched
  import opened Wrappers
  import opened SchedInv
  import opened SchedLocal
  import opened SchedRun
  import opened SchedFacts
  import opened SchedTheorems
  import opened SchedSleep
  import opened SchedCalls
  import opened SchedKin

  function Rids(t: Tid): Code { Then(Acquire(AT), Then(Erase(t), Done)) }

  /** The freer has taken t out of TasksToFree and will take it out of AllTasks. */
  predicate Erasing(c: Code, t: Tid) {
    || c in {Then(Disown(TF), Rids(t)), Then(Release(TF), Rids(t)), Then(Hand(TF), Rids(t)), Rids(t)}
    || c in {Then(Park(AT), Then(Erase(t), Done)), Then(Owner(AT), Then(Erase(t), Done)), Then(Yield, Rids(t)),
             Then(Erase(t), Done)}
    || (c.Then? && c.i.Unblock? && c.rest == Rids(t))
  }

  ghost predicate TendedTo(s: State, t: Tid) { t in s.buried || Erasing(CodeAt(s.code, FREER), t) }

  ghost predicate Tended(s: State) {
    forall t: Tid :: LifeOf(s.life, t) == Dead && t in s.registered ==> TendedTo(s, t)
  }

  lemma ErasingRun(s: State, t: Tid, ch: Choice)
    requires s.running == Some(FREER) && Erasing(CodeAt(s.code, FREER), t) && Step(s, Event.Run(ch)).Ok?
    ensures var s' := Step(s, Event.Run(ch)).s; Erasing(CodeAt(s'.code, FREER), t) || t !in s'.registered
  {
    hide Exec, CodeAt, Queue, HeldBy;
    var x := FREER;
    var c := CodeAt(s.code, x);
    assert Step(s, Event.Run(ch)) == Exec(s, x, c.i, c.rest, ch);
    match c.i
    case Acquire(_) => AcquireCode(s, x, AT, c.rest, ch);
    case Park(_) => ParkCode(s, x, AT, c.rest, ch);
    case Yield => YieldCode(s, x, c.rest, ch);
    case Owner(_) => OwnerCode(s, x, AT, c.rest, ch);
    case Disown(_) => DisownCode(s, x, TF, c.rest, ch);
    case Release(_) => ReleaseCode(s, x, TF, c.rest, ch);
    case Hand(_) => HandCode(s, x, TF, c.rest, ch);
    case Unblock(u) => UnblockCode(s, x, u, c.rest, ch);
    case Erase(_) => EraseIs(s, x, t, c.rest, ch);
  }

  lemma EraseIs(s: State, x: Tid, t: Tid, r: Code, ch: Choice)
    requires Exec(s, x, Erase(t), r, ch).Ok?
    ensures Exec(s, x, Erase(t), r, ch).s.registered == s.registered - {t}
  {
    hide SwitchTask, Block, PutAway, UnlockNow, Push, Wake, Extract, SwapOut, StateOf;
  }

  lemma FreerAt(s: State, x: Tid, r: Code)
    requires At(s, x, FreerTake, r)
    ensures x == FREER && r == Done
  {
    hide Inv, Legal, FitsOk, FamilyOk, Gone, MutexOk, Dying;
    Running(s, x, FreerTake, r);
    Unfold(FreerTake, r, HeldBy(s.held, x), FactsOf(s), x);
  }

  /** Whom the freer takes out of TasksToFree it has in hand. */
  lemma TakenInHand(s: State, x: Tid, ch: Choice, t: Tid)
    requires Exec(s, x, FreerTake, Done, ch).Ok? && t in s.buried
    ensures var s' := Exec(s, x, FreerTake, Done, ch).s; t in s'.buried || Erasing(CodeAt(s'.code, x), t)
  {
    hide SwitchTask, Block, PutAway, UnlockNow, Push, Wake, Extract, SwapOut, StateOf, FreerSleep, CodeAt, Erasing, Go;
    GoFields(s, x, FreerSleep(Done));
    if s.graves != [] {
      var u := s.graves[0];
      var s1 := s.(graves := s.graves[1..], buried := s.buried - {u});
      GoFields(s1, x, Then(Disown(TF), Rids(u)));
      InHand(u);
    }
  }

  lemma GoFields(s: State, x: Tid, c: Code)
    ensures Go(s, x, c).buried == s.buried && CodeAt(Go(s, x, c).code, x) == c
  {
  }

  lemma InHand(t: Tid)
    ensures Erasing(Then(Disown(TF), Rids(t)), t)
  {
  }

  lemma EndsBuried(s: State, x: Tid, r: Code)
    requires At(s, x, BlockSelf, r) && Plainly(s)
    ensures x in s.buried
  {
    hide Inv;
    assert Plain(CodeAt(s.code, x)) || (Dying(CodeAt(s.code, x)) && x in s.buried);
  }

  lemma RegisteredNew(s: State, x: Tid, t: Tid, own: bool, r: Code, ch: Choice)
    requires At(s, x, Register(t, own), r)
    ensures LifeOf(s.life, t) != Dead
    ensures var o := Exec(s, x, Register(t, own), r, ch); o.Ok? && o.s.registered == s.registered + {t}
  {
    hide Inv, Legal, FitsOk, FamilyOk, Gone, MutexOk, Dying, SwitchTask, Block, PutAway, UnlockNow, Push, Wake, Extract;
    Running(s, x, Register(t, own), r);
  }

  lemma RunTends(s: State, x: Tid, i: Instr, r: Code, ch: Choice, t: Tid)
    requires At(s, x, i, r) && Allowed(s, Event.Run(ch)) && Exec(s, x, i, r, ch).Ok? && Kin(s) && Tended(s)
    requires LifeOf(Exec(s, x, i, r, ch).s.life, t) == Dead && t in Exec(s, x, i, r, ch).s.registered
    ensures TendedTo(Exec(s, x, i, r, ch).s, t)
  {
    hide Inv, Allowed, Exec, Moved, CodeAt, Erasing, NoneInVain, NoneMissed, NoneOverlooked, ZombiesDone, DeadDone,
      Plainly,
      Mild, Leads;
    var s' := Exec(s, x, i, r, ch).s;
    PlainAt(s, x, i, r);
    ExecMoved(s, x, i, r, ch);
    if LifeOf(s.life, t) != Dead {
      NewlyDead(s, s', x, i, r, t);
    } else {
      WasRegistered(s, x, i, r, ch, t);
      StaysTended(s, x, i, r, ch, t);
    }
  }

  lemma NewlyDead(s: State, s': State, x: Tid, i: Instr, r: Code, t: Tid)
    requires At(s, x, i, r) && Moved(s, s', x, i) && Plainly(s)
    requires LifeOf(s.life, t) != Dead && LifeOf(s'.life, t) == Dead
    ensures t in s'.buried
  {
    hide Inv, Plainly, Leads, Next;
    if i.BlockSelf? {
      EndsBuried(s, x, r);
    }
  }

  lemma WasRegistered(s: State, x: Tid, i: Instr, r: Code, ch: Choice, t: Tid)
    requires At(s, x, i, r) && Exec(s, x, i, r, ch).Ok? && LifeOf(s.life, t) == Dead
    requires t in Exec(s, x, i, r, ch).s.registered
    ensures t in s.registered
  {
    hide Inv, Exec;
    ExecMild(s, x, i, r, ch);
    if i.Register? {
      RegisteredNew(s, x, i.t, i.own, r, ch);
    } else if i.Erase? {
      EraseIs(s, x, i.t, r, ch);
    }
  }

  lemma StaysTended(s: State, x: Tid, i: Instr, r: Code, ch: Choice, t: Tid)
    requires At(s, x, i, r) && Allowed(s, Event.Run(ch)) && Exec(s, x, i, r, ch).Ok? && TendedTo(s, t)
    requires t in Exec(s, x, i, r, ch).s.registered && Moved(s, Exec(s, x, i, r, ch).s, x, i)
    ensures TendedTo(Exec(s, x, i, r, ch).s, t)
  {
    hide Inv, Allowed, Exec, CodeAt, Erasing, Leads, Next;
    if Erasing(CodeAt(s.code, FREER), t) {
      if x == FREER {
        assert Step(s, Event.Run(ch)) == Exec(s, x, i, r, ch);
        ErasingRun(s, t, ch);
      }
    } else if i.FreerTake? {
      FreerAt(s, x, r);
      TakenInHand(s, x, ch, t);
    }
  }

  lemma StepTends(s: State, e: Event)
    requires Inv(s) && Kin(s) && Allowed(s, e) && Step(s, e).Ok? && Tended(s)
    ensures Tended(Step(s, e).s)
  {
    hide Inv, Kin, Exec, SwitchTask, WakeOldest, CodeOf, Erasing, TendedTo, Honest, MayCall;
    match e
    case Tick =>
      TickClock(s);
      SameTended(s, Step(s, e).s);
    case Irq(c) =>
      IrqClock(s, c);
      SameTended(s, Step(s, e).s);
    case Run(ch) =>
      if s.running.Some? && CodeAt(s.code, s.running.value).Then? {
        var x := s.running.value;
        var c := CodeAt(s.code, x);
        forall t: Tid | LifeOf(Step(s, e).s.life, t) == Dead && t in Step(s, e).s.registered
          ensures TendedTo(Step(s, e).s, t)
        {
          RunTends(s, x, c.i, c.rest, ch, t);
        }
      }
    case Call(op) =>
      if s.running.Some? && CodeAt(s.code, s.running.value).Done? {
        CallTends(s, s.running.value, op);
      }
  }

  lemma SameTended(s: State, s': State)
    requires Tended(s) && s'.code == s.code && s'.life == s.life && s'.registered == s.registered
    requires s'.buried == s.buried
    ensures Tended(s')
  {
  }

  lemma CallTends(s: State, x: Tid, op: Op)
    requires Tended(s) && s.running == Some(x) && CodeAt(s.code, x).Done?
    ensures Step(s, Call(op)).Ok? && Tended(Step(s, Call(op)).s)
  {
    hide CodeOf, Exec, Tended, SwitchTask, WakeOldest;
    var s1 := if op.Spawn? then s.(life := s.life[op.t := New], place := s.place[op.t := Carried(x)]) else s;
    LessDead(s, s1, if op.Spawn? then op.t else x);
    GoTended(s1, x, CodeOf(s, x, op));
  }

  lemma LessDead(s: State, s1: State, t: Tid)
    requires Tended(s) && s1.code == s.code && s1.registered == s.registered && s1.buried == s.buried
    requires s1.life == s.life || s1.life == s.life[t := New]
    ensures Tended(s1)
  {
    hide Erasing;
  }

  lemma GoTended(s: State, x: Tid, c: Code)
    requires Tended(s) && CodeAt(s.code, x).Done?
    ensures Tended(Go(s, x, c))
  {
    forall t: Tid | LifeOf(s.life, t) == Dead && t in s.registered ensures TendedTo(Go(s, x, c), t) {
      assert TendedTo(s, t);
      DoneErasesNone(t);
    }
  }

  lemma DoneErasesNone(t: Tid)
    ensures !Erasing(Done, t)
  {
  }

  lemma {:induction false} RunTended(s: State, es: seq<Event>, s': State)
    requires Inv(s) && Kin(s) && Tended(s) && SchedTheorems.Run(s, es, s')
    ensures Tended(s')
    decreases |es|
  {
    hide Inv, Kin, Allowed, Step, Tended;
    if es != [] {
      StepKeeps(s, es[0]);
      StepKin(s, es[0]);
      StepTends(s, es[0]);
      RunTended(Step(s, es[0]).s, es[1..], s');
    }
  }

  lemma BootedTended(q: seq<Tid>, micros: nat)
    ensures Tended(Booted(q, micros))
  {
  }

  /** In every interleaving: a dead task that is still in AllTasks is in TasksToFree, or the freer has it in hand. */
  lemma NoDeadForgotten(s: State, t: Tid)
    requires Reachable(s) && LifeOf(s.life, t) == Dead && t in s.registered
    ensures t in s.graves || Erasing(CodeAt(s.code, FREER), t)
  {
    hide Inv, Kin, SchedTheorems.Run, Booted, Erasing;
    ReachableInv(s);
    var q: seq<Tid>, micros: nat, es: seq<Event> :| Unique(q) && SchedTheorems.Run(Booted(q, micros), es, s);
    BootedInv(q, micros);
    BootedKin(q, micros);
    BootedTended(q, micros);
    RunTended(Booted(q, micros), es, s);
    assert TendedTo(s, t);
    InGrave(s, t);
  }

  lemma InGrave(s: State, t: Tid)
    requires Inv(s)
    ensures t in s.buried <==> t in s.graves
  {
    hide Lists, Nodes, Beds, Burials, Exclusive, Mutexes, Cargos, Fits, Families, Stands, Clock;
  }
}
