/**
 The scheduler as a transition system: tasks, ready queue, mutexes, condition
 variables, sleepers, zombies and the clock. One step is what runs with no
 interruption in between: code between two points at which interrupts are
 enabled, a timer tick, or a device interrupt.
 */
module Sched {
  import opened Wrappers

  type Tid = nat
  type MutexId = nat
  type CvId = nat

  const AT: MutexId := 0 // AllTasks_lock
  const TF: MutexId := 1 // TasksToFree_lock
  const WT: MutexId := 2 // WaitingTasks_mlock
  const FREE_CV: CvId := 0 // TasksToFree_cv
  const WAKE_CV: CvId := 1 // WaitingTasks_cv

  const FREER: Tid := 0
  const WAKER: Tid := 1
  const MICROS_PER_TICK: nat := 1000
  const WAKEUP_PERIOD: nat := 10000

  datatype TaskState = RUNNING | BLOCKED | ZOMBIE | WAITPID_BLOCKED

  /** The intrusive lists; a notify_all has one of its own while it drains. */
  datatype ListId = Ready | MutexQ(m: MutexId) | CvQ(c: CvId) | DrainQ(k: nat)

  /** Where a task's node is. */
  datatype Place =
    | OnCpu           // RunningTask
    | In(l: ListId)
    | Carried(u: Tid) // in a local variable of u, on its way to the ready queue
    | Slot            // in its own _waitpid_node
    | Nowhere         // in no list: asleep, or for good

  datatype Life = Unborn | New | Alive | Dead

  datatype Instr =
    // Mutex::lock and unlock
    | Acquire(m: MutexId) | Owner(m: MutexId) | Park(m: MutexId)
    | Disown(m: MutexId) | Release(m: MutexId) | Hand(m: MutexId)
    // the ready queue
    | Yield | Unblock(t: Tid) | Rouse(t: Tid) | Launch(t: Tid)
    // CV
    | Wait(c: CvId, m: MutexId) | Notify(c: CvId) | NotifyAll(c: CvId) | Drain(k: nat)
    // sleep_self and task_waker
    | SleepTest(w: nat) | SleepIn(w: nat) | SleepBlock(w: nat) | WakerScan
    // Task::Task and start
    | Register(t: Tid, own: bool) | Adopt(t: Tid) | Start(t: Tid)
    // remove_self, dispose_self, task_freer
    | ExitCheck | WakeParent(p: Tid) | Zombify | BurySelf | BlockSelf
    | FreerCheck | FreerTake | Erase(t: Tid)
    // waitpid
    | WaitCheck(pid: int) | SetWoken(pid: int) | WaitBlock(pid: int) | Woken(t: Tid) | TakeWoken | Bury(t: Tid)

  /** What a task still has to do in the kernel. */
  datatype Code = Done | Then(i: Instr, rest: Code)

  type States = map<Tid, TaskState>
  type Codes = map<Tid, Code>
  type Places = map<Tid, Place>
  type Numbers = map<Tid, int>
  type Holds = map<Tid, set<MutexId>>
  type Lives = map<Tid, Life>
  type Queues = map<ListId, seq<Tid>>
  type Bedroom = map<nat, seq<Tid>>

  datatype State = State(
    // Task and its node, by task
    state: States, code: Codes,
    linked: set<Tid>,                // node->list != nullptr
    slots: set<Tid>,                 // _waitpid_node holds the node
    woken: Numbers, parent: Numbers, // _woken_pid and _parent, -1 for none
    registered: set<Tid>,            // in AllTasks
    // bookkeeping of the model
    place: Places, held: Holds, life: Lives, asleep: map<Tid, nat>, buried: set<Tid>,
    // globals
    running: Option<Tid>,
    lists: Queues,                   // oldest first
    drainers: seq<Tid>,              // who made each of the local lists of notify_all
    locked: set<MutexId>, owner: map<MutexId, Tid>,
    sleeping: Bedroom,               // WaitingTasks
    graves: seq<Tid>,                // TasksToFree, oldest first
    micros: nat, lastWake: nat,
    switches: nat, burials: seq<Tid>)

  function StateOf(m: States, t: Tid): TaskState { if t in m then m[t] else BLOCKED }
  function CodeAt(m: Codes, t: Tid): Code { if t in m then m[t] else Done }
  function PlaceOf(m: Places, t: Tid): Place { if t in m then m[t] else Nowhere }
  function NumberOf(m: Numbers, t: Tid): int { if t in m then m[t] else -1 }
  function HeldBy(m: Holds, t: Tid): set<MutexId> { if t in m then m[t] else {} }
  function LifeOf(m: Lives, t: Tid): Life { if t in m then m[t] else Unborn }
  function Queue(m: Queues, l: ListId): seq<Tid> { if l in m then m[l] else [] }
  function Sleepers(m: Bedroom, w: nat): seq<Tid> { if w in m then m[w] else [] }

  /** Fail: an assertion of the kernel fired; Idle: no task was left to run. */
  datatype Outcome = Ok(s: State) | Idle | Fail {
    predicate IsFailure() { !Ok? }
    function PropagateFailure(): Outcome { this }
    function Extract(): State
      requires Ok?
    {
      s
    }
  }

  function Go(s: State, t: Tid, c: Code): State { s.(code := s.code[t := c]) }

  function Head(c: Code): Instr { if c.Then? then c.i else Yield }

  // ----- lists and the ready queue

  /** List::emplace_front, with its assertion that the node is in no list. */
  function Push(s: State, l: ListId, t: Tid): Outcome {
    if t in s.linked then Fail
    else Ok(s.(lists := s.lists[l := Queue(s.lists, l) + [t]], place := s.place[t := In(l)], linked := s.linked + {t}))
  }

  /** List::extract_back. */
  function Pop(s: State, l: ListId, p: Place): State
    requires Queue(s.lists, l) != []
  {
    var t := Queue(s.lists, l)[0];
    s.(lists := s.lists[l := Queue(s.lists, l)[1..]], place := s.place[t := p], linked := s.linked - {t})
  }

  /** Scheduler::unblock, with its assertion that the task is not running. */
  function Wake(s: State, t: Tid): Outcome {
    if StateOf(s.state, t) == RUNNING then Fail else Push(s.(state := s.state[t := RUNNING]), Ready, t)
  }

  /** The oldest node of a list, if any, goes to the ready queue with nothing in between. */
  function WakeOldest(s: State, l: ListId, u: Tid): Outcome {
    if Queue(s.lists, l) == [] then Ok(s) else Wake(Pop(s, l, Carried(u)), Queue(s.lists, l)[0])
  }

  /** Mutex::unlock as one piece, as it is inside a section without interrupts. */
  function UnlockNow(s: State, t: Tid, m: MutexId): Outcome {
    if m !in s.locked then Fail
    else
      var s1 := s.(owner := s.owner - {m}, locked := s.locked - {m}, held := s.held[t := HeldBy(s.held, t) - {m}]);
      WakeOldest(s1, MutexQ(m), t)
  }

  /** The periodic wake-up of the waker. */
  function Kick(s: State, u: Tid): Outcome {
    if s.micros - s.lastWake > WAKEUP_PERIOD then WakeOldest(s.(lastWake := s.micros), CvQ(WAKE_CV), u) else Ok(s)
  }

  /** The running task goes to the back of the ready queue if it is still running. */
  function Requeue(s: State): Outcome {
    if s.running.None? then Ok(s)
    else
      var t := s.running.value;
      if StateOf(s.state, t) == RUNNING then Push(s, Ready, t)
      else if PlaceOf(s.place, t).OnCpu? then Ok(s.(place := s.place[t := Nowhere]))
      else Ok(s)
  }

  /** The oldest ready task runs. */
  function Dispatch(s: State): Outcome {
    if Queue(s.lists, Ready) == [] then Idle
    else
      var next := Queue(s.lists, Ready)[0];
      if StateOf(s.state, next) != RUNNING then Fail
      else Ok(Pop(s, Ready, OnCpu).(running := Some(next), switches := s.switches + 1))
  }

  /** Scheduler::switch_task */
  function SwitchTask(s: State): Outcome {
    var s1 :- Kick(s, if s.running.Some? then s.running.value else 0);
    var s2 :- Requeue(s1);
    Dispatch(s2)
  }

  // ----- program fragments

  /** LockGuard l(TF); ... around the burial of a zombie. */
  function BuryCode(z: Tid, rest: Code): Code { Then(Acquire(TF), Then(Bury(z), rest)) }
  function DisposeSelf(): Code { Then(Acquire(TF), Then(BurySelf, Done)) }
  function FreerSleep(rest: Code): Code { Then(Disown(TF),
      Then(Acquire(TF), Then(Wait(FREE_CV, TF), Then(Disown(TF), rest)))) }

  function Rouses(ts: seq<Tid>, rest: Code): Code {
    if ts == [] then rest else Then(Rouse(ts[0]), Rouses(ts[1..], rest))
  }

  // ----- one step of the running task

  /** The node joins a list, the task blocks, and the processor is given up. */
  function Block(s: State, x: Tid, l: ListId): Outcome {
    var s1 :- Push(s, l, x);
    SwitchTask(s1.(state := s1.state[x := BLOCKED]))
  }

  /** The task puts its own node away, frees AllTasks_lock and gives up the processor. */
  function PutAway(s: State, x: Tid, st: TaskState): Outcome {
    var s1 :- UnlockNow(s.(state := s.state[x := st], slots := s.slots + {x}, place := s.place[x := Slot]), x, AT);
    SwitchTask(s1)
  }

  /** The head of a list goes to a local variable of x, which will unblock it. */
  function Extract(s: State, x: Tid, l: ListId, empty: Code, rest: Code): State {
    var q := Queue(s.lists, l);
    if q == [] then Go(s, x, empty) else Go(Pop(s, l, Carried(x)), x, Then(Unblock(q[0]), rest))
  }

  /** std::swap(waiters_new, waiters) with a new local list. */
  function SwapOut(s: State, c: CvId, k: nat): State {
    s.(lists := s.lists[DrainQ(k) := Queue(s.lists, CvQ(c))][CvQ(c) := []],
       place := map t | t in s.place :: if s.place[t] == In(CvQ(c)) then In(DrainQ(k)) else s.place[t])
  }

  predicate Due(s: State, w: nat) { w in s.sleeping && w <= s.micros && forall v :: v in s.sleeping ==> w <= v }

  /** The sleepers of wake-up time w leave WaitingTasks and are in x's hands. */
  function TakeSleepers(s: State, w: nat, x: Tid): State {
    s.(sleeping := s.sleeping - {w},
       asleep := map t | t in s.asleep && s.asleep[t] != w :: s.asleep[t],
       place := s.place + map t | t in Sleepers(s.sleeping, w) :: Carried(x))
  }

  predicate Found(s: State, pid: int) { pid >= 0 && pid in s.registered }

  predicate ZombieChild(s: State, z: Tid, p: Tid) {
    z in s.registered && NumberOf(s.parent, z) == p && StateOf(s.state, z) == ZOMBIE
  }

  /** `park` says how lock() goes on after a failed try; `w` and `z` are what a search found. */
  datatype Choice = Choice(park: bool, w: nat, z: Tid)

  function Exec(s: State, x: Tid, i: Instr, r: Code, ch: Choice): Outcome {
    match i
    case Acquire(m) =>
      if m in s.owner && s.owner[m] == x && m in s.locked then Fail
      else if m !in s.locked then
        Ok(Go(s.(locked := s.locked + {m}, held := s.held[x := HeldBy(s.held, x) + {m}]), x, Then(Owner(m), r)))
      else Ok(Go(s, x, if ch.park then Then(Park(m), r) else Then(Yield, Then(Acquire(m), r))))
    case Owner(m) => Ok(Go(s.(owner := s.owner[m := x]), x, r))
    case Park(m) => Block(Go(s, x, Then(Acquire(m), r)), x, MutexQ(m))
    case Disown(m) => Ok(Go(s.(owner := s.owner - {m}), x, Then(Release(m), r)))
    case Release(m) =>
      if m !in s.locked then Fail
      else Ok(Go(s.(locked := s.locked - {m}, held := s.held[x := HeldBy(s.held, x) - {m}]), x, Then(Hand(m), r)))
    case Hand(m) => Ok(Extract(s, x, MutexQ(m), r, r))
    case Yield =>
      var s1 := Go(s, x, r);
      SwitchTask(if StateOf(s.state, x) == RUNNING then s1 else s1.(place := s.place[x := Nowhere]))
    case Unblock(t) =>
      var s1 :- Wake(s, t);
      Ok(Go(s1, x, r))
    case Rouse(t) => Ok(Go(s.(state := s.state[t := RUNNING]), x, Then(Launch(t), r)))
    case Launch(t) =>
      var s1 :- Push(s, Ready, t);
      Ok(Go(s1, x, r))
    case Wait(c, m) =>
      var s1 :- UnlockNow(Go(s, x, Then(Acquire(m), r)), x, m);
      Block(s1, x, CvQ(c))
    case Notify(c) => Ok(Extract(s, x, CvQ(c), r, r))
    case NotifyAll(c) =>
      var k := |s.drainers|;
      Ok(Go(SwapOut(s.(drainers := s.drainers + [x]), c, k), x, Then(Drain(k), r)))
    case Drain(k) => Ok(Extract(s, x, DrainQ(k), r, Then(Drain(k), r)))
    case SleepTest(w) => Ok(Go(s, x, if s.micros <= w then Then(Acquire(WT), Then(SleepIn(w), r)) else r))
    case SleepIn(w) =>
      Ok(Go(s.(sleeping := s.sleeping[w := Sleepers(s.sleeping, w) + [x]], asleep := s.asleep[x := w]), x,
        Then(SleepBlock(w), r)))
    case SleepBlock(w) =>
      UnlockNow(Go(s.(state := s.state[x := BLOCKED]), x, Then(Yield, Then(SleepTest(w), r))), x, WT)
    case WakerScan =>
      var ts := Sleepers(s.sleeping, ch.w);
      if Due(s, ch.w) && forall t :: t in ts ==> StateOf(s.state, t) != RUNNING then
        Ok(Go(TakeSleepers(s, ch.w, x), x, Then(Disown(WT), Rouses(ts, Then(Acquire(WT), Then(WakerScan, r))))))
      else Ok(Go(s, x, Then(Wait(WAKE_CV, WT), Then(Disown(WT), r))))
    case Register(t, own) =>
      Ok(Go(s.(registered := s.registered + {t}), x, Then(Disown(AT), Then(if own then Adopt(t) else Start(t), r))))
    case Adopt(t) => Ok(Go(s.(parent := s.parent[t := x]), x, Then(Start(t), r)))
    case Start(t) =>
      if StateOf(s.state, t) == RUNNING then Fail
      else Ok(Go(s.(state := s.state[t := RUNNING], life := s.life[t := Alive]), x, Then(Launch(t), r)))
    case ExitCheck =>
      var p := NumberOf(s.parent, x);
      if !Found(s, p) then Ok(Go(s, x, Then(Disown(AT), DisposeSelf())))
      else if StateOf(s.state, p) == WAITPID_BLOCKED && (NumberOf(s.woken, p) == x || NumberOf(s.woken, p) == -1) then
        Ok(Go(s, x, Then(WakeParent(p), Done)))
      else Ok(Go(s, x, Then(Zombify, Done)))
    case WakeParent(p) =>
      if p !in s.slots then Fail
      else
        var s1 :- Push(s.(woken := s.woken[p := x], state := s.state[p := RUNNING], slots := s.slots - {p}), Ready, p);
        Ok(Go(s1, x, Then(Zombify, Done)))
    case Zombify => PutAway(Go(s, x, Done), x, ZOMBIE)
    case BurySelf =>
      Ok(Go(s.(graves := s.graves + [x], buried := s.buried + {x}), x,
        Then(Notify(FREE_CV), Then(Disown(TF), Then(BlockSelf, Done)))))
    case BlockSelf =>
      SwitchTask(Go(s.(state := s.state[x := BLOCKED], life := s.life[x := Dead], place := s.place[x := Nowhere]), x,
        Done))
    case FreerCheck =>
      Ok(Go(s, x, if s.graves == [] then FreerSleep(r) else Then(Disown(TF), Then(Acquire(TF), Then(FreerTake, r)))))
    case FreerTake =>
      if s.graves == [] then Fail
      else
        var t := s.graves[0];
        if StateOf(s.state, t) == RUNNING then Ok(Go(s, x, FreerSleep(r)))
        else Ok(Go(s.(graves := s.graves[1..], buried := s.buried - {t}), x,
          Then(Disown(TF), Then(Acquire(AT), Then(Erase(t), r)))))
    case Erase(t) =>
      if StateOf(s.state, t) == RUNNING then Fail
      else Ok(Go(s.(registered := s.registered - {t}), x, Then(Disown(AT), r)))
    case WaitCheck(pid) =>
      if pid >= 0 then
        if !Found(s, pid) then Ok(Go(s, x, Then(Disown(AT), r)))
        else if NumberOf(s.parent, pid) != x then Ok(Go(s, x, r)) // returns with AllTasks_lock held
        else if StateOf(s.state, pid) != ZOMBIE then Ok(Go(s, x, Then(SetWoken(pid), r)))
        else Ok(Go(s, x, BuryCode(pid, Then(Disown(AT), r))))
      else if ZombieChild(s, ch.z, x) then Ok(Go(s, x, Then(Disown(AT), BuryCode(ch.z, r))))
      else Ok(Go(s, x, Then(SetWoken(-1), r)))
    case SetWoken(pid) => Ok(Go(s.(woken := s.woken[x := pid]), x, Then(WaitBlock(pid), r)))
    case WaitBlock(pid) =>
      PutAway(Go(s, x, Then(Acquire(AT), Then(if pid >= 0 then Woken(pid) else TakeWoken, r))), x, WAITPID_BLOCKED)
    case Woken(t) => if NumberOf(s.woken, x) != t then Fail else Ok(Go(s, x, BuryCode(t, Then(Disown(AT), r))))
    case TakeWoken =>
      var z := NumberOf(s.woken, x);
      if !Found(s, z) then Fail else Ok(Go(s, x, Then(Disown(AT), BuryCode(z, r))))
    case Bury(z) =>
      if z !in s.slots then Fail
      else
        var s1 := s.(state := s.state[z := BLOCKED], slots := s.slots - {z}, place := s.place[z := Nowhere],
          life := s.life[z := Dead]);
        Ok(Go(s1.(graves := s.graves + [z], buried := s.buried + {z}, burials := s.burials + [z]), x,
          Then(Notify(FREE_CV), Then(Disown(TF), r))))
  }

  // ----- events

  /** What a task asks of the kernel. */
  datatype Op =
    | Lock(m: MutexId) | Unlock(m: MutexId)
    | WaitOn(c: CvId, m: MutexId) | NotifyOne(c: CvId) | NotifyEvery(c: CvId)
    | Sleep(diff: nat) | WaitPid(pid: int) | Exit | Spawn(t: Tid, own: bool) | GiveWay | Daemon

  datatype Event = Tick | Irq(c: CvId) | Run(ch: Choice) | Call(op: Op)

  function CodeOf(s: State, x: Tid, op: Op): Code {
    match op
    case Lock(m) => Then(Acquire(m), Done)
    case Unlock(m) => Then(Disown(m), Done)
    case WaitOn(c, m) => Then(Wait(c, m), Done)
    case NotifyOne(c) => Then(Notify(c), Done)
    case NotifyEvery(c) => Then(NotifyAll(c), Done)
    case Sleep(diff) => Then(SleepTest(s.micros + diff), Done)
    case WaitPid(pid) => Then(Acquire(AT), Then(WaitCheck(pid), Done))
    case Exit => if NumberOf(s.parent, x) == -1 then DisposeSelf() else Then(Acquire(AT), Then(ExitCheck, Done))
    case Spawn(t, own) => Then(Acquire(AT), Then(Register(t, own), Done))
    case GiveWay => Then(Yield, Done)
    case Daemon => if x == FREER then Then(Acquire(TF), Then(FreerCheck, Done)) else Then(Acquire(WT),
      Then(WakerScan, Done))
  }

  function Step(s: State, e: Event): Outcome {
    match e
    case Tick => SwitchTask(s.(micros := s.micros + MICROS_PER_TICK))
    case Irq(c) => WakeOldest(s, CvQ(c), if s.running.Some? then s.running.value else 0)
    case Run(ch) =>
      if s.running.None? || CodeAt(s.code, s.running.value).Done? then Ok(s)
      else
        var x := s.running.value;
        var c := CodeAt(s.code, x);
        Exec(s, x, c.i, c.rest, ch)
    case Call(op) =>
      if s.running.None? || CodeAt(s.code, s.running.value).Then? then Ok(s)
      else
        var x := s.running.value;
        // a new task is as its constructor leaves it, in the hands of its creator
        var s1 := if op.Spawn? then s.(life := s.life[op.t := New], place := s.place[op.t := Carried(x)]) else s;
        Ok(Go(s1, x, CodeOf(s, x, op)))
  }
}
