/**
 Calls over whole runs, whatever comes in between: who returns from lock holds
 the mutex, unlock frees it and takes the oldest waiter along, and a task
 created becomes ready under its parent.
 */
module SchedCalls {
  import opened Sched
  import opened Wrappers
  import opened SchedInv
  import opened SchedMoves
  import opened SchedLocal
  import opened SchedNodes
  import opened SchedRun
  import opened SchedFacts
  import opened SchedTheorems
  import opened SchedSleep

  // ----- where instructions lead

  lemma DisownCode(s: State, x: Tid, m: MutexId, r: Code, ch: Choice)
    ensures var o := Exec(s, x, Disown(m), r, ch);
      o.Ok? && CodeAt(o.s.code, x) == Then(Release(m), r) && o.s.held == s.held
  {
    hide SwitchTask, Block, PutAway, UnlockNow, Push, Wake, Extract, SwapOut;
  }

  lemma ReleaseCode(s: State, x: Tid, m: MutexId, r: Code, ch: Choice)
    requires Exec(s, x, Release(m), r, ch).Ok?
    ensures var s' := Exec(s, x, Release(m), r, ch).s;
      && CodeAt(s'.code, x) == Then(Hand(m), r) && m !in HeldBy(s'.held, x) && m !in s'.locked
  {
    hide SwitchTask, Block, PutAway, UnlockNow, Push, Wake, Extract, SwapOut;
  }

  /** unlock's last step: the longest waiting task is taken into hand; with nobody waiting it is done. */
  lemma HandCode(s: State, x: Tid, m: MutexId, r: Code, ch: Choice)
    ensures var q := Queue(s.lists, MutexQ(m)); var o := Exec(s, x, Hand(m), r, ch);
      && o.Ok? && o.s.held == s.held && o.s.state == s.state
      && CodeAt(o.s.code, x) == (if q == [] then r else Then(Unblock(q[0]), r))
      && Queue(o.s.lists, MutexQ(m)) == (if q == [] then [] else q[1..])
  {
    hide SwitchTask, Block, PutAway, UnlockNow, Push, Wake, SwapOut, CodeAt, Extract, Pop, Queue;
    HandTakes(s, x, MutexQ(m), r);
  }

  lemma HandTakes(s: State, x: Tid, l: ListId, r: Code)
    ensures var s', q := Extract(s, x, l, r, r), Queue(s.lists, l);
      && s'.held == s.held && s'.state == s.state
      && CodeAt(s'.code, x) == (if q == [] then r else Then(Unblock(q[0]), r))
      && Queue(s'.lists, l) == (if q == [] then [] else q[1..])
  {
    if Queue(s.lists, l) != [] {
      ExtractEffect(s, x, l, r, r);
    }
  }

  lemma UnblockCode(s: State, x: Tid, t: Tid, r: Code, ch: Choice)
    requires Exec(s, x, Unblock(t), r, ch).Ok?
    ensures var s' := Exec(s, x, Unblock(t), r, ch).s;
      && CodeAt(s'.code, x) == r && s'.held == s.held && StateOf(s'.state, t) == RUNNING
      && Queue(s'.lists, Ready) == Queue(s.lists, Ready) + [t]
  {
    hide SwitchTask, Block, PutAway, UnlockNow, Extract, SwapOut;
  }

  // ----- lock

  /** In Mutex::lock. */
  predicate Locking(c: Code, m: MutexId) {
    c in {Then(Acquire(m), Done), Then(Park(m), Done), Then(Owner(m), Done), Then(Yield, Then(Acquire(m), Done))}
  }

  /** It goes on with it, or has just written its name to the mutex it holds. */
  lemma LockingRun(s: State, x: Tid, m: MutexId, ch: Choice)
    requires Inv(s) && s.running == Some(x) && Locking(CodeAt(s.code, x), m) && Allowed(s, Event.Run(ch))
    requires Step(s, Event.Run(ch)).Ok?
    ensures var s' := Step(s, Event.Run(ch)).s;
      Locking(CodeAt(s'.code, x), m) || (CodeAt(s'.code, x) == Done && Owns(s', x, m))
  {
    hide Inv, Allowed, Exec, CodeAt;
    var c := CodeAt(s.code, x);
    assert Step(s, Event.Run(ch)) == Exec(s, x, c.i, c.rest, ch);
    match c.i
    case Acquire(_) => AcquireCode(s, x, m, Done, ch);
    case Park(_) => ParkCode(s, x, m, Done, ch);
    case Yield => YieldCode(s, x, Then(Acquire(m), Done), ch);
    case Owner(_) => OwnerOwns(s, x, m, ch);
  }

  /** x holds the mutex and is its owner, and nobody else holds it. */
  ghost predicate Owns(s: State, x: Tid, m: MutexId) {
    && m in HeldBy(s.held, x) && m in s.locked && m in s.owner && s.owner[m] == x
    && forall u: Tid :: u != x ==> m !in HeldBy(s.held, u)
  }

  lemma OwnerOwns(s: State, x: Tid, m: MutexId, ch: Choice)
    requires At(s, x, Owner(m), Done)
    ensures var o := Exec(s, x, Owner(m), Done, ch); o.Ok? && CodeAt(o.s.code, x) == Done && Owns(o.s, x, m)
  {
    hide Lists, Nodes, Beds, Graves, Burials, Cargos, Fits, Families, Clock, Dying, Awaits, Static, FitsOk, FamilyOk,
      Gone;
    hide SwitchTask, Block, PutAway, UnlockNow, Push, Wake, Extract, SwapOut;
    Running(s, x, Owner(m), Done);
  }

  lemma LockingStep(s: State, e: Event, x: Tid, m: MutexId)
    requires Inv(s) && Allowed(s, e) && Step(s, e).Ok? && Locking(CodeAt(s.code, x), m)
    ensures var s' := Step(s, e).s;
      Locking(CodeAt(s'.code, x), m) || (CodeAt(s'.code, x) == Done && Owns(s', x, m))
  {
    hide Inv, Allowed, Exec, SwitchTask, WakeOldest, CodeOf, CodeAt, Owns;
    if s.running != Some(x) {
      OthersGoOn(s, e);
    } else {
      match e
      case Tick => TickClock(s);
      case Irq(c) => IrqClock(s, c);
      case Run(ch) => LockingRun(s, x, m, ch);
      case Call(op) =>
    }
  }

  /** Whatever comes in between: at the first state at which a call of lock is done, the caller owns the mutex. */
  lemma {:induction false} LockingRuns(s: State, es: seq<Event>, s': State, x: Tid, m: MutexId)
    returns (n: nat, mid: State)
    requires Inv(s) && SchedTheorems.Run(s, es, s') && Locking(CodeAt(s.code, x), m)
    ensures n <= |es| && SchedTheorems.Run(s, es[..n], mid)
    ensures (n == |es| && mid == s' && Locking(CodeAt(s'.code, x), m)) ||
      (CodeAt(mid.code, x) == Done && Owns(mid, x, m))
    decreases |es|
  {
    hide Inv, Allowed, Step, Locking, Owns, CodeAt;
    if es == [] {
      n, mid := 0, s;
    } else {
      var s1 := Step(s, es[0]).s;
      StepKeeps(s, es[0]);
      LockingStep(s, es[0], x, m);
      if Locking(CodeAt(s1.code, x), m) {
        n, mid := LockingRuns(s1, es[1..], s', x, m);
        assert es[..n + 1][1..] == es[1..][..n] && es[..n + 1][0] == es[0];
        n := n + 1;
      } else {
        n, mid := 1, s1;
        assert es[..1][1..] == [] && es[..1][0] == es[0];
      }
    }
  }

  lemma LockReturnsHolding(s: State, x: Tid, m: MutexId, es: seq<Event>, s': State) returns (n: nat, mid: State)
    requires Reachable(s) && s.running == Some(x) && CodeAt(s.code, x) == Done && MayCall(s, x, Lock(m))
    requires Step(s, Call(Lock(m))).Ok? && SchedTheorems.Run(Step(s, Call(Lock(m))).s, es, s')
    ensures n <= |es| && SchedTheorems.Run(Step(s, Call(Lock(m))).s, es[..n], mid)
    ensures (n == |es| && mid == s' && Locking(CodeAt(s'.code, x), m)) ||
      (CodeAt(mid.code, x) == Done && Owns(mid, x, m))
  {
    hide Reachable, Inv, SchedTheorems.Run, Exec, Owns;
    ReachableInv(s);
    StepKeeps(s, Call(Lock(m)));
    n, mid := LockingRuns(Step(s, Call(Lock(m))).s, es, s', x, m);
  }

  /** A mutex that is free is taken at once. */
  lemma FreeMutexTaken(s: State, x: Tid, m: MutexId, r: Code, ch: Choice)
    requires At(s, x, Acquire(m), r) && m !in s.locked
    ensures var o := Exec(s, x, Acquire(m), r, ch);
      o.Ok? && m in HeldBy(o.s.held, x) && m in o.s.locked && CodeAt(o.s.code, x) == Then(Owner(m), r)
  {
    hide Lists, Nodes, Beds, Graves, Burials, Cargos, Fits, Families, Clock, Stands, Exclusive;
    hide SwitchTask, Block, PutAway, UnlockNow, Push, Wake, Extract, SwapOut;
    assert MutexOk(CodeAt(s.code, x), HeldBy(s.held, x), s.locked, s.owner, x);
  }

  // ----- unlock

  /** In Mutex::unlock, after the mutex was released: the waiter taken into hand, if any, is to be made ready. */
  predicate Released(c: Code, m: MutexId) { c == Then(Hand(m), Done) || (c.Then? && c.i.Unblock? && c.rest.Done?) }

  predicate Unlocking(c: Code, m: MutexId) { c == Then(Disown(m), Done) || c == Then(Release(m), Done) }

  /** What is left to do, and what has been done. */
  ghost predicate Freeing(s: State, x: Tid, m: MutexId) {
    Unlocking(CodeAt(s.code, x), m) || (Released(CodeAt(s.code, x), m) && m !in HeldBy(s.held, x))
  }

  lemma FreeingRun(s: State, x: Tid, m: MutexId, ch: Choice)
    requires Inv(s) && s.running == Some(x) && Freeing(s, x, m) && Allowed(s, Event.Run(ch))
    requires Step(s, Event.Run(ch)).Ok?
    ensures var s' := Step(s, Event.Run(ch)).s;
      Freeing(s', x, m) || (CodeAt(s'.code, x) == Done && m !in HeldBy(s'.held, x))
  {
    hide Inv, Allowed, Exec, CodeAt, Queue, HeldBy;
    var c := CodeAt(s.code, x);
    assert Step(s, Event.Run(ch)) == Exec(s, x, c.i, c.rest, ch);
    match c.i
    case Disown(_) => DisownCode(s, x, m, Done, ch);
    case Release(_) => ReleaseCode(s, x, m, Done, ch);
    case Hand(_) => HandCode(s, x, m, Done, ch);
    case Unblock(t) => UnblockCode(s, x, t, Done, ch);
  }

  /** What a task holds changes only by its own steps. */
  lemma HeldStays(s: State, e: Event, x: Tid)
    requires Step(s, e).Ok? && (s.running != Some(x) || !e.Run?)
    ensures HeldBy(Step(s, e).s.held, x) == HeldBy(s.held, x)
  {
    hide Exec, SwitchTask, WakeOldest, CodeOf, HeldBy;
    match e
    case Tick => TickClock(s);
    case Irq(c) => IrqClock(s, c);
    case Run(ch) =>
      if s.running.Some? && CodeAt(s.code, s.running.value).Then? {
        var y := s.running.value;
        ExecMild(s, y, CodeAt(s.code, y).i, CodeAt(s.code, y).rest, ch);
      }
    case Call(op) =>
  }

  lemma FreeingStep(s: State, e: Event, x: Tid, m: MutexId)
    requires Inv(s) && Allowed(s, e) && Step(s, e).Ok? && Freeing(s, x, m)
    ensures var s' := Step(s, e).s;
      Freeing(s', x, m) || (CodeAt(s'.code, x) == Done && m !in HeldBy(s'.held, x))
  {
    hide Inv, Allowed, Exec, SwitchTask, WakeOldest, CodeOf, CodeAt, HeldBy;
    if s.running != Some(x) {
      OthersGoOn(s, e);
      HeldStays(s, e, x);
    } else {
      match e
      case Tick =>
        TickClock(s);
        HeldStays(s, e, x);
      case Irq(c) =>
        IrqClock(s, c);
        HeldStays(s, e, x);
      case Run(ch) => FreeingRun(s, x, m, ch);
      case Call(op) =>
    }
  }

  lemma {:induction false} FreeingRuns(s: State, es: seq<Event>, s': State, x: Tid, m: MutexId)
    returns (n: nat, mid: State)
    requires Inv(s) && SchedTheorems.Run(s, es, s') && Freeing(s, x, m)
    ensures n <= |es| && SchedTheorems.Run(s, es[..n], mid)
    ensures (n == |es| && mid == s' && Freeing(s', x, m)) ||
      (CodeAt(mid.code, x) == Done && m !in HeldBy(mid.held, x))
    decreases |es|
  {
    hide Inv, Allowed, Step, Freeing, CodeAt, HeldBy;
    if es == [] {
      n, mid := 0, s;
    } else {
      var s1 := Step(s, es[0]).s;
      StepKeeps(s, es[0]);
      FreeingStep(s, es[0], x, m);
      if Freeing(s1, x, m) {
        n, mid := FreeingRuns(s1, es[1..], s', x, m);
        assert es[..n + 1][1..] == es[1..][..n] && es[..n + 1][0] == es[0];
        n := n + 1;
      } else {
        n, mid := 1, s1;
        assert es[..1][1..] == [] && es[..1][0] == es[0];
      }
    }
  }

  /**
   Whatever comes in between: at the first state at which a call of unlock is done, the caller holds
   the mutex no more.
   */
  lemma UnlockReturnsFree(s: State, x: Tid, m: MutexId, es: seq<Event>, s': State) returns (n: nat, mid: State)
    requires Reachable(s) && s.running == Some(x) && CodeAt(s.code, x) == Done && MayCall(s, x, Unlock(m))
    requires Step(s, Call(Unlock(m))).Ok? && SchedTheorems.Run(Step(s, Call(Unlock(m))).s, es, s')
    ensures n <= |es| && SchedTheorems.Run(Step(s, Call(Unlock(m))).s, es[..n], mid)
    ensures (n == |es| && mid == s' && Freeing(s', x, m)) ||
      (CodeAt(mid.code, x) == Done && m !in HeldBy(mid.held, x))
  {
    hide Reachable, Inv, SchedTheorems.Run, Exec;
    ReachableInv(s);
    StepKeeps(s, Call(Unlock(m)));
    n, mid := FreeingRuns(Step(s, Call(Unlock(m))).s, es, s', x, m);
  }

  /** unlock takes the longest waiting task into its hands; its next step makes that ready. */
  lemma UnlockTakesOldest(s: State, x: Tid, m: MutexId, r: Code, ch: Choice)
    requires At(s, x, Hand(m), r) && Queue(s.lists, MutexQ(m)) != []
    ensures var q := Queue(s.lists, MutexQ(m)); var o := Exec(s, x, Hand(m), r, ch);
      && o.Ok? && Queue(o.s.lists, MutexQ(m)) == q[1..] && CodeAt(o.s.code, x) == Then(Unblock(q[0]), r)
      && Inv(o.s) && StateOf(o.s.state, q[0]) == BLOCKED
  {
    hide Inv, Exec, Queue, CodeAt;
    HandKeeps(s, x, m, r, ch);
    HandCode(s, x, m, r, ch);
    OldestBlocked(s, MutexQ(m));
  }

  lemma HandKeeps(s: State, x: Tid, m: MutexId, r: Code, ch: Choice)
    requires At(s, x, Hand(m), r) && Queue(s.lists, MutexQ(m)) != []
    ensures Exec(s, x, Hand(m), r, ch).Ok? && Inv(Exec(s, x, Hand(m), r, ch).s)
  {
    hide Inv, Pop;
    ExtractKeeps(s, x, Hand(m), r, MutexQ(m));
  }

  lemma OldestBlocked(s: State, l: ListId)
    requires Inv(s) && l != Ready && Queue(s.lists, l) != []
    ensures StateOf(s.state, Queue(s.lists, l)[0]) == BLOCKED
  {
    hide Lists, Nodes, Beds, Graves, Burials, Exclusive, Mutexes, Cargos, Fits, Families, Stands;
    Waiter(s, l);
  }

  // ----- creating a task

  function Enters(t: Tid, own: bool): Code { Then(Register(t, own), Done) }

  function Leaves(t: Tid, own: bool): Code { Then(if own then Adopt(t) else Start(t), Done) }

  /** In Task's constructor, up to where the parent is set. */
  predicate Spawning(c: Code, t: Tid, own: bool) {
    || c in {Then(Acquire(AT), Enters(t, own)), Then(Park(AT), Enters(t, own)), Then(Owner(AT), Enters(t, own)),
             Then(Yield, Then(Acquire(AT), Enters(t, own))), Enters(t, own)}
    || c in {Then(Disown(AT), Leaves(t, own)), Then(Release(AT), Leaves(t, own)), Then(Hand(AT), Leaves(t, own)),
             Leaves(t, own)}
    || (c.Then? && c.i.Unblock? && c.rest == Leaves(t, own))
  }

  predicate Starting(c: Code, t: Tid) { c == Then(Start(t), Done) || c == Then(Launch(t), Done) }

  ghost predicate Creates(s: State, x: Tid, t: Tid, own: bool) {
    || Spawning(CodeAt(s.code, x), t, own)
    || (Starting(CodeAt(s.code, x), t) && (own ==> NumberOf(s.parent, t) == x))
  }

  /** The task is the last of the ready ones, in AllTasks, and x's child if it was to be. */
  ghost predicate Born(s: State, s': State, x: Tid, t: Tid, own: bool) {
    && Queue(s'.lists, Ready) == Queue(s.lists, Ready) + [t] && StateOf(s'.state, t) == RUNNING
    && t in s'.registered && LifeOf(s'.life, t) == Alive && (own ==> NumberOf(s'.parent, t) == x)
    && CodeAt(s'.code, x) == Done
  }

  lemma SpawningRun(s: State, x: Tid, t: Tid, own: bool, ch: Choice)
    requires Inv(s) && s.running == Some(x) && Spawning(CodeAt(s.code, x), t, own)
    requires Step(s, Event.Run(ch)).Ok?
    ensures Creates(Step(s, Event.Run(ch)).s, x, t, own)
  {
    hide Inv, Exec, CodeAt, Queue, HeldBy, NumberOf;
    var c := CodeAt(s.code, x);
    assert Step(s, Event.Run(ch)) == Exec(s, x, c.i, c.rest, ch);
    match c.i
    case Acquire(_) => AcquireCode(s, x, AT, c.rest, ch);
    case Park(_) => ParkCode(s, x, AT, c.rest, ch);
    case Yield => YieldCode(s, x, c.rest, ch);
    case Owner(_) => OwnerCode(s, x, AT, c.rest, ch);
    case Register(_, _) => RegisterCode(s, x, t, own, ch);
    case Disown(_) => DisownCode(s, x, AT, c.rest, ch);
    case Release(_) => ReleaseCode(s, x, AT, c.rest, ch);
    case Hand(_) => HandCode(s, x, AT, c.rest, ch);
    case Unblock(u) => UnblockCode(s, x, u, c.rest, ch);
    case Adopt(_) => AdoptCode(s, x, t, ch);
    case Start(_) => StartCode(s, x, t, ch);
  }

  lemma RegisterCode(s: State, x: Tid, t: Tid, own: bool, ch: Choice)
    ensures var o := Exec(s, x, Register(t, own), Done, ch);
      o.Ok? && CodeAt(o.s.code, x) == Then(Disown(AT), Leaves(t, own))
  {
    hide SwitchTask, Block, PutAway, UnlockNow, Push, Wake, Extract, SwapOut;
  }

  lemma AdoptCode(s: State, x: Tid, t: Tid, ch: Choice)
    ensures var o := Exec(s, x, Adopt(t), Done, ch);
      o.Ok? && CodeAt(o.s.code, x) == Then(Start(t), Done) && NumberOf(o.s.parent, t) == x
  {
    hide SwitchTask, Block, PutAway, UnlockNow, Push, Wake, Extract, SwapOut;
  }

  lemma StartCode(s: State, x: Tid, t: Tid, ch: Choice)
    requires Exec(s, x, Start(t), Done, ch).Ok?
    ensures var s' := Exec(s, x, Start(t), Done, ch).s;
      CodeAt(s'.code, x) == Then(Launch(t), Done) && s'.parent == s.parent
  {
    hide SwitchTask, Block, PutAway, UnlockNow, Push, Wake, Extract, SwapOut, StateOf;
  }

  lemma StartingRun(s: State, x: Tid, t: Tid, own: bool, ch: Choice)
    requires Inv(s) && s.running == Some(x) && Starting(CodeAt(s.code, x), t) && (own ==> NumberOf(s.parent, t) == x)
    requires Step(s, Event.Run(ch)).Ok?
    ensures Creates(Step(s, Event.Run(ch)).s, x, t, own) || Born(s, Step(s, Event.Run(ch)).s, x, t, own)
  {
    hide Inv, Exec, CodeAt, NumberOf, Born, Spawning;
    var c := CodeAt(s.code, x);
    assert Step(s, Event.Run(ch)) == Exec(s, x, c.i, c.rest, ch);
    if c.i.Start? {
      StartCode(s, x, t, ch);
    } else {
      LaunchBorn(s, x, t, own, ch);
    }
  }

  lemma LaunchBorn(s: State, x: Tid, t: Tid, own: bool, ch: Choice)
    requires At(s, x, Launch(t), Done) && (own ==> NumberOf(s.parent, t) == x) && Exec(s, x, Launch(t), Done, ch).Ok?
    ensures Born(s, Exec(s, x, Launch(t), Done, ch).s, x, t, own)
  {
    hide Inv, SwitchTask, Block, PutAway, UnlockNow, Wake, Extract, SwapOut, Legal, FitsOk, FamilyOk, Gone, MutexOk,
      Dying;
    Running(s, x, Launch(t), Done);
    AliveRegistered(s, t);
  }

  lemma AliveRegistered(s: State, t: Tid)
    requires Inv(s) && LifeOf(s.life, t) == Alive
    ensures t in s.registered
  {
    hide Lists, Nodes, Beds, Graves, Burials, Exclusive, Mutexes, Cargos, Fits, Families, Clock, Dying, Awaits, Legal;
    assert TaskOk(Of(s, t));
  }

  /** What is in one task's hands is in nobody else's. */
  lemma OneCarrier(s: State, x: Tid, y: Tid, t: Tid)
    requires Inv(s) && Cargo(CodeAt(s.code, x))[t] >= 1 && Cargo(CodeAt(s.code, y))[t] >= 1
    ensures x == y
  {
    hide Lists, Nodes, Beds, Graves, Burials, Exclusive, Mutexes, Fits, Families, Stands, Clock, Cargo, PlaceOf, CodeAt;
    assert CargoOk(CodeAt(s.code, x), s.place, x) && CargoOk(CodeAt(s.code, y), s.place, y);
  }

  /** Nobody else gives the new task a parent. */
  lemma ParentStays(s: State, e: Event, x: Tid, t: Tid)
    requires Inv(s) && Step(s, e).Ok? && Starting(CodeAt(s.code, x), t) && (s.running != Some(x) || !e.Run?)
    ensures NumberOf(Step(s, e).s.parent, t) == NumberOf(s.parent, t)
  {
    hide Inv, Exec, SwitchTask, WakeOldest, CodeOf, CodeAt;
    match e
    case Tick => TickClock(s);
    case Irq(c) => IrqClock(s, c);
    case Run(ch) =>
      if s.running.Some? && CodeAt(s.code, s.running.value).Then? {
        var y := s.running.value;
        var c := CodeAt(s.code, y);
        if c.i.Adopt? {
          AdoptOther(s, y, c.i.t, c.rest, ch);
          if c.i.t == t {
            OneCarrier(s, x, y, t);
          }
        } else {
          ExecMild(s, y, c.i, c.rest, ch);
        }
      }
    case Call(op) =>
  }

  lemma AdoptOther(s: State, y: Tid, u: Tid, r: Code, ch: Choice)
    ensures var o := Exec(s, y, Adopt(u), r, ch); o.Ok? && o.s.parent == s.parent[u := y]
  {
    hide SwitchTask, Block, PutAway, UnlockNow, Push, Wake, Extract, SwapOut;
  }

  lemma CreatesStep(s: State, e: Event, x: Tid, t: Tid, own: bool)
    requires Inv(s) && Allowed(s, e) && Step(s, e).Ok? && Creates(s, x, t, own)
    ensures Creates(Step(s, e).s, x, t, own) || Born(s, Step(s, e).s, x, t, own)
  {
    hide Inv, Allowed, Exec, SwitchTask, WakeOldest, CodeOf, CodeAt, Born, Spawning, Starting, NumberOf;
    if s.running == Some(x) && e.Run? {
      if Spawning(CodeAt(s.code, x), t, own) {
        SpawningRun(s, x, t, own, e.ch);
      } else {
        StartingRun(s, x, t, own, e.ch);
      }
    } else {
      CodeStays(s, e, x, t, own);
      if Starting(CodeAt(s.code, x), t) {
        ParentStays(s, e, x, t);
      }
    }
  }

  lemma CodeStays(s: State, e: Event, x: Tid, t: Tid, own: bool)
    requires Inv(s) && Allowed(s, e) && Step(s, e).Ok? && Creates(s, x, t, own) && (s.running != Some(x) || !e.Run?)
    ensures CodeAt(Step(s, e).s.code, x) == CodeAt(s.code, x)
  {
    hide Inv, Allowed, Exec, SwitchTask, WakeOldest, CodeOf, CodeAt;
    if s.running != Some(x) {
      OthersGoOn(s, e);
    } else {
      match e
      case Tick => TickClock(s);
      case Irq(c) => IrqClock(s, c);
      case Call(op) =>
    }
  }

  lemma {:induction false} CreatesRuns(s: State, es: seq<Event>, s': State, x: Tid, t: Tid, own: bool)
    returns (n: nat, mid: State)
    requires Inv(s) && SchedTheorems.Run(s, es, s') && Creates(s, x, t, own)
    ensures n <= |es| && SchedTheorems.Run(s, es[..n], mid)
    ensures (n == |es| && mid == s' && Creates(s', x, t, own)) ||
      (n < |es| && Step(mid, es[n]).Ok? && Born(mid, Step(mid, es[n]).s, x, t, own))
    decreases |es|
  {
    hide Inv, Allowed, Step, Creates, Born;
    if es == [] {
      n, mid := 0, s;
    } else {
      var s1 := Step(s, es[0]).s;
      StepKeeps(s, es[0]);
      CreatesStep(s, es[0], x, t, own);
      if Creates(s1, x, t, own) {
        n, mid := CreatesRuns(s1, es[1..], s', x, t, own);
        assert es[..n + 1][1..] == es[1..][..n] && es[..n + 1][0] == es[0];
        n := n + 1;
      } else {
        n, mid := 0, s;
      }
    }
  }

  /**
   Whatever comes in between: a task that creates another is still at it, or
   there was a step that ended the call and made the new task ready, running,
   known to AllTasks and, if it was to be, the creator's child.
   */
  lemma SpawnMakesReady(s: State, x: Tid, t: Tid, own: bool, es: seq<Event>, s': State) returns (n: nat, mid: State)
    requires Reachable(s) && s.running == Some(x) && CodeAt(s.code, x) == Done && MayCall(s, x, Spawn(t, own))
    requires Step(s, Call(Spawn(t, own))).Ok? && SchedTheorems.Run(Step(s, Call(Spawn(t, own))).s, es, s')
    ensures n <= |es| && SchedTheorems.Run(Step(s, Call(Spawn(t, own))).s, es[..n], mid)
    ensures (n == |es| && mid == s' && Creates(s', x, t, own)) ||
      (n < |es| && Step(mid, es[n]).Ok? && Born(mid, Step(mid, es[n]).s, x, t, own))
  {
    hide Reachable, Inv, SchedTheorems.Run, Exec, Born;
    ReachableInv(s);
    StepKeeps(s, Call(Spawn(t, own)));
    n, mid := CreatesRuns(Step(s, Call(Spawn(t, own))).s, es, s', x, t, own);
  }
}
