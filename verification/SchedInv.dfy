/**
 What holds of the scheduler between any two steps.
 */
module SchedInv {
  import opened Sched
  import opened Wrappers

  // ----- code

  /** The tasks a piece of code has in its hands, each as often as it is named. */
  function Cargo(c: Code): multiset<Tid> {
    if c.Done? then multiset{} else Load(c.i) + Cargo(c.rest)
  }

  function Load(i: Instr): multiset<Tid> { if Carries(i) then multiset{i.t} else multiset{} }

  predicate Carries(i: Instr) { i.Unblock? || i.Rouse? || i.Launch? || i.Register? || i.Adopt? || i.Start? }

  predicate Has(c: Code, i: Instr) { c.Then? && (c.i == i || Has(c.rest, i)) }

  lemma {:induction false} HasCargo(c: Code, i: Instr)
    requires Has(c, i) && Carries(i)
    ensures Cargo(c)[i.t] >= 1
  {
    if c.i != i {
      HasCargo(c.rest, i);
    }
  }

  /** The code locks only what is not held and unlocks only what is, and returns without the scheduler's own locks. */
  predicate Legal(c: Code, h: set<MutexId>) {
    if c.Done? then AT !in h && TF !in h && WT !in h
    else Static(c) && After(c.i, c.rest, h).Some? && Legal(c.rest, After(c.i, c.rest, h).value)
  }

  /** The locks held once an instruction and what it leads to are done; none if it is out of place. */
  function After(i: Instr, r: Code, h: set<MutexId>): Option<set<MutexId>> {
    match i
    case Acquire(m) => if m in h then None else Some(h + {m})
    case Park(m) => if m in h then None else Some(h + {m})
    case Owner(m) => if m in h then Some(h) else None
    case Disown(m) => if m in h then Some(h - {m}) else None
    case Release(m) => if m in h then Some(h - {m}) else None
    case Wait(_, m) => if m in h then Some(h) else None
    case SleepTest(_) => if WT in h then None else Some(h)
    case SleepIn(_) => if WT in h then Some(h - {WT}) else None
    case SleepBlock(_) => if WT in h then Some(h - {WT}) else None
    case WakerScan => if WT in h then Some(h - {WT}) else None
    case Register(_, _) => if AT in h then Some(h - {AT}) else None
    case Erase(_) => if AT in h then Some(h - {AT}) else None
    case ExitCheck => if r.Done? && Only(h, AT) then Some(h - {AT}) else None
    case WakeParent(_) => if r.Done? && Only(h, AT) then Some(h - {AT}) else None
    case Zombify => if r.Done? && Only(h, AT) then Some(h - {AT}) else None
    case WaitCheck(_) => if r.Done? && Only(h, AT) then Some(h - {AT}) else None
    case SetWoken(_) => if r.Done? && Only(h, AT) then Some(h - {AT}) else None
    case WaitBlock(_) => if r.Done? && Only(h, AT) then Some(h - {AT}) else None
    case Woken(_) => if r.Done? && Only(h, AT) then Some(h - {AT}) else None
    case TakeWoken => if r.Done? && Only(h, AT) then Some(h - {AT}) else None
    case BurySelf => if r.Done? && Only(h, TF) then Some(h - {TF}) else None
    case FreerCheck => if r.Done? && Only(h, TF) then Some(h - {TF}) else None
    case FreerTake => if r.Done? && Only(h, TF) then Some(h - {TF}) else None
    case Bury(_) => if TF in h && (r.Done? || r == Then(Disown(AT), Done)) then Some(h - {TF}) else None
    case BlockSelf => if r.Done? then Some(h) else None
    case _ => Some(h)
  }

  /** Some instructions are only ever next; and only the way back from waitpid_block leads to its end. */
  predicate Static(c: Code)
    requires c.Then?
  {
    && (c.rest.Then? ==> !c.rest.i.WakeParent? && !c.rest.i.Owner? && !c.rest.i.Release? && !c.rest.i.SleepBlock?)
    && (Awaits(c.rest).NotWaiting? || Awaits(c.rest) == Awaits(c))
  }

  /** Of the scheduler's own locks exactly m is held. */
  predicate Only(h: set<MutexId>, m: MutexId) {
    m in h && (AT in h ==> m == AT) && (TF in h ==> m == TF) && (WT in h ==> m == WT)
  }

  /** The task is on its way back from waitpid_block: what it will do once it has AllTasks_lock. */
  datatype Waiting = NotWaiting | ForPid(t: Tid) | ForAny

  function Awaits(c: Code): Waiting { if c.Done? then NotWaiting else AwaitStep(c.i, Awaits(c.rest)) }

  function AwaitStep(i: Instr, a: Waiting): Waiting {
    if i.Woken? then ForPid(i.t)
    else if i.TakeWoken? then ForAny
    else if i == Acquire(AT) || i == Owner(AT) || i == Park(AT) || i.Yield? then a
    else NotWaiting
  }

  /** The rest of dispose_self after the burial: nothing in it blocks before the end. */
  predicate Dying(c: Code) { c.Then? && DyingStep(c.i, c.rest.Done?, Dying(c.rest)) }

  predicate DyingStep(i: Instr, last: bool, rest: bool) {
    (i.BlockSelf? && last) || ((i.Notify? || i.Unblock? || i.Disown? || i.Release? || i.Hand?) && rest)
  }

  /** Everything about a piece of code, from its first instruction and the rest. */
  lemma Unfold(i: Instr, r: Code, h: set<MutexId>, f: Facts, x: Tid)
    ensures Legal(Then(i, r), h) <==> Static(Then(i, r)) && After(i, r, h).Some? && Legal(r, After(i, r, h).value)
    ensures FitsOk(Then(i, r), f, x) <==> Fit(f, x, i) && FitsOk(r, f, x)
    ensures Cargo(Then(i, r)) == Load(i) + Cargo(r)
    ensures Awaits(Then(i, r)) == AwaitStep(i, Awaits(r))
    ensures Dying(Then(i, r)) <==> DyingStep(i, r.Done?, Dying(r))
  {
    hide After, Fit, Load, AwaitStep, DyingStep, Static;
    assert Has(Then(i, r), i);
    assert forall j :: Has(r, j) ==> Has(Then(i, r), j);
  }

  lemma UnfoldDone(h: set<MutexId>, f: Facts, x: Tid)
    ensures Legal(Done, h) <==> AT !in h && TF !in h && WT !in h
    ensures FitsOk(Done, f, x) && Cargo(Done) == multiset{} && Awaits(Done).NotWaiting? && !Dying(Done)
  {
  }

  // ----- one task

  /** All there is to know about one task. */
  datatype View = View(
    state: TaskState, code: Code, held: set<MutexId>, place: Place, life: Life,
    asleep: bool, buried: bool, registered: bool, woken: int)

  function Of(s: State, t: Tid): View {
    View(StateOf(s.state, t), CodeAt(s.code, t), HeldBy(s.held, t), PlaceOf(s.place, t), LifeOf(s.life, t),
         t in s.asleep, t in s.buried, t in s.registered, NumberOf(s.woken, t))
  }

  /** Where a task's node is, its state and what it does next fit together. */
  predicate TaskOk(k: View) {
    && Legal(k.code, k.held)
    && (Head(k.code).SleepBlock? ==> k.asleep && k.state == RUNNING)
    && (k.buried ==> k.life == Dead || (Dying(k.code) && k.state == RUNNING))
    && (k.life == Alive ==> k.registered)
    && (k.life == New ==> k.place.Carried? && k.state == BLOCKED && k.held == {} && k.code.Done?)
    && (k.life == Unborn ==> k.place == Nowhere && k.state == BLOCKED && k.held == {} && k.code.Done?)
    && (k.life == Dead ==> k.place == Nowhere)
    && match k.place
       case OnCpu => Runs(k) || (k.state == BLOCKED && k.asleep && k.code.Then? && k.code.i.Yield?)
       case In(l) => if l == Ready then Runs(k) else Blocks(k)
       case Carried(_) => (k.state == BLOCKED || k.state == RUNNING) && !k.asleep && !k.buried
       case Slot => !k.asleep && !k.buried && (k.state == ZOMBIE || (k.state == WAITPID_BLOCKED && BackFrom(k)))
       case Nowhere => k.state == BLOCKED && k.asleep == (k.life == Alive)
  }

  /** Running, or ready to; in WaitingTasks only while holding its lock. */
  predicate Runs(k: View) {
    k.state == RUNNING && (k.asleep ==> Head(k.code).SleepBlock? && WT in k.held)
  }

  /** Queued on a mutex or a condition variable. */
  predicate Blocks(k: View) { k.state == BLOCKED && !k.asleep && !k.buried && Head(k.code).Acquire? }

  /** In waitpid_block, with the pid it asked for in _woken_pid. */
  predicate BackFrom(k: View) {
    && Head(k.code) == Acquire(AT) && !Awaits(k.code).NotWaiting?
    && (Awaits(k.code).ForAny? ==> k.woken == -1)
  }

  ghost predicate Stands(s: State) { forall t: Tid :: TaskOk(Of(s, t)) }

  // ----- tasks and each other

  /** What the code has in its hands is what it is going to make ready, each once. */
  ghost predicate CargoOk(c: Code, place: Places, u: Tid) {
    forall t: Tid :: Cargo(c)[t] == if PlaceOf(place, t) == Carried(u) then 1 else 0
  }

  ghost predicate Cargos(code: Codes, place: Places) { forall u: Tid :: CargoOk(CodeAt(code, u), place, u) }

  /** What pending instructions rely on. */
  datatype Facts = Facts(state: States, life: Lives, registered: set<Tid>, parent: Numbers, woken: Numbers,
      graves: bool, drainers: seq<Tid>)

  function FactsOf(s: State): Facts { Facts(s.state, s.life, s.registered, s.parent, s.woken, s.graves != [],
      s.drainers) }

  predicate Fit(f: Facts, u: Tid, i: Instr) {
    match i
    case Unblock(t) => StateOf(f.state, t) == BLOCKED && LifeOf(f.life, t) == Alive
    case Rouse(t) => StateOf(f.state, t) == BLOCKED && LifeOf(f.life, t) == Alive
    case Launch(t) => StateOf(f.state, t) == RUNNING && LifeOf(f.life, t) == Alive
    case Register(t, _) => LifeOf(f.life, t) == New
    case Adopt(t) => LifeOf(f.life, t) == New && t in f.registered
    case Start(t) => LifeOf(f.life, t) == New && t in f.registered
    case Bury(z) => StateOf(f.state, z) == ZOMBIE && NumberOf(f.parent, z) == u && z != u
    case Erase(t) => LifeOf(f.life, t) == Dead
    case FreerTake => u == FREER && f.graves
    case FreerCheck => u == FREER
    case SetWoken(pid) => pid >= -1
    case Drain(k) => k < |f.drainers| && f.drainers[k] == u
    case WaitBlock(pid) => pid >= -1 && NumberOf(f.woken, u) == pid
    case WakeParent(p) =>
      && StateOf(f.state, p) == WAITPID_BLOCKED && NumberOf(f.parent, u) == p && p != u
      && (NumberOf(f.woken, p) == u || NumberOf(f.woken, p) == -1)
    case _ => true
  }

  ghost predicate FitsOk(c: Code, f: Facts, u: Tid) { forall i :: Has(c, i) ==> Fit(f, u, i) }

  ghost predicate Fits(code: Codes, f: Facts) { forall u: Tid :: FitsOk(CodeAt(code, u), f, u) }

  /** The child is dead, or about to be with AllTasks_lock in its hands. */
  predicate Gone(code: Codes, state: States, held: Holds, c: Tid) {
    StateOf(state, c) == ZOMBIE || (AT in HeldBy(held, c) && Head(CodeAt(code, c)) == Zombify)
  }

  /** A parent woken from waitpid_block was woken by the child it names, and by none but the one it asked for. */
  predicate FamilyOk(code: Codes, state: States, held: Holds, parent: Numbers, woken: Numbers, p: Tid) {
    var a, w := Awaits(CodeAt(code, p)), NumberOf(woken, p);
    && (a.ForPid? ==> w == a.t)
    && (!a.NotWaiting? && StateOf(state, p) != WAITPID_BLOCKED ==>
        w >= 0 && w != p && NumberOf(parent, w) == p && Gone(code, state, held, w))
  }

  ghost predicate Families(code: Codes, state: States, held: Holds, parent: Numbers, woken: Numbers) {
    forall p: Tid :: FamilyOk(code, state, held, parent, woken, p)
  }

  // ----- mutexes

  /** owner() is the task from the end of lock() to the start of unlock(). */
  ghost predicate MutexOk(c: Code, h: set<MutexId>, locked: set<MutexId>, owner: map<MutexId, Tid>, u: Tid) {
    && (forall m :: m in h ==> m in locked)
    && (forall m :: m in owner && owner[m] == u <==> m in h && Head(c) != Owner(m) && Head(c) != Release(m))
  }

  ghost predicate Mutexes(code: Codes, held: Holds, locked: set<MutexId>, owner: map<MutexId, Tid>) {
    forall u: Tid :: MutexOk(CodeAt(code, u), HeldBy(held, u), locked, owner, u)
  }

  ghost predicate Exclusive(held: Holds) {
    forall t: Tid, u: Tid, m :: t != u && m in HeldBy(held, t) ==> m !in HeldBy(held, u)
  }

  // ----- queues

  ghost predicate Unique(q: seq<Tid>) { forall i, j :: 0 <= i < j < |q| ==> q[i] != q[j] }

  /** A node is in the list its place names, once, and in no other. */
  ghost predicate Lists(lists: Queues, place: Places, drains: nat) {
    && (forall l, t: Tid :: t in Queue(lists, l) <==> PlaceOf(place, t) == In(l))
    && (forall l :: Unique(Queue(lists, l)))
    && (forall k: nat :: k >= drains ==> Queue(lists, DrainQ(k)) == [])
  }

  /** Nodes know whether they are in a list, or in their task's slot, and one may be running. */
  ghost predicate Nodes(place: Places, linked: set<Tid>, slots: set<Tid>, running: Option<Tid>) {
    && (forall t: Tid :: t in linked <==> PlaceOf(place, t).In?)
    && (forall t: Tid :: t in slots <==> PlaceOf(place, t).Slot?)
    && (forall t: Tid :: PlaceOf(place, t).OnCpu? ==> running == Some(t))
  }

  ghost predicate Beds(sleeping: Bedroom, asleep: map<Tid, nat>) {
    && (forall w: nat, t: Tid :: t in Sleepers(sleeping, w) <==> t in asleep && asleep[t] == w)
    && (forall w: nat :: Unique(Sleepers(sleeping, w)))
  }

  ghost predicate Graves(graves: seq<Tid>, buried: set<Tid>) {
    (forall t: Tid :: t in graves <==> t in buried) && Unique(graves)
  }

  ghost predicate Burials(burials: seq<Tid>, life: Lives) {
    (forall t: Tid :: t in burials ==> LifeOf(life, t) == Dead) && Unique(burials)
  }

  ghost predicate Clock(micros: nat, lastWake: nat, running: Option<Tid>) {
    lastWake <= micros && (running.Some? ==> micros - lastWake <= WAKEUP_PERIOD)
  }

  // ----- all of it

  ghost predicate Shared(s: State) {
    && Lists(s.lists, s.place, |s.drainers|) && Nodes(s.place, s.linked, s.slots, s.running)
    && Beds(s.sleeping, s.asleep) && Graves(s.graves, s.buried) && Burials(s.burials, s.life)
    && Exclusive(s.held) && Mutexes(s.code, s.held, s.locked, s.owner)
    && Cargos(s.code, s.place) && Fits(s.code, FactsOf(s))
    && Families(s.code, s.state, s.held, s.parent, s.woken)
    && Stands(s)
  }

  /** Between two steps. */
  ghost predicate Inv(s: State) {
    && Shared(s) && Clock(s.micros, s.lastWake, s.running)
    && (s.running.Some? ==> PlaceOf(s.place, s.running.value) == OnCpu)
  }
}
