/**
 One reference-counted object and its control block, shared by any number of
 threads. Threads copy, lock and drop handles through compare-and-swap retry
 loops; every load and every swap is a step of its own, and a swap may fail
 for no reason at all.
 */
module SharedPointer {

  type Handle = nat
  type Thread = nat

  /**
   `via` is the handle read. A handle stored inside the object is read under a
   `guard`: a strong handle the caller knows of, as in a call on the object.
   Any other handle is its own guard.
   */
  datatype Op =
    | WeakLock(via: Handle, guard: Handle, made: Handle, inside: bool) // a new weak handle, perhaps in the object
    | StrongLock(via: Handle, guard: Handle, made: Handle)             // SharedPtr's copy, and WeakPtr::lock
    | WeakRelease(h: Handle)
    | StrongRelease(h: Handle)

  /** `left`: weak handles inside the object this thread is deleting; its destructor may still read them. */
  datatype Pc =
    | Idle
    | Swapping(op: Op, ctl: int, obj: int, left: set<Handle>)
    | Freeing(block: bool, target: bool, left: set<Handle>)

  datatype State = State(
    ctl: int, obj: int,
    strong: set<Handle>, weak: set<Handle>, inside: set<Handle>,
    blockDeaths: nat, objectDeaths: nat,
    lastDrop: Thread, lastStrong: Thread, // who brought each counter to zero
    pcs: map<Thread, Pc>)

  datatype Event =
    | Begin(t: Thread, op: Op)      // the first load of the loop
    | Swap(t: Thread, spurious: bool)
    | Free(t: Thread, next: Handle) // one deletion, or the next handle inside the deleted object

  datatype Outcome = Ok(s: State) | Fail

  function Pcs(s: State, t: Thread): Pc { if t in s.pcs then s.pcs[t] else Idle }

  function At(s: State, t: Thread, pc: Pc): State { s.(pcs := s.pcs[t := pc]) }

  function Left(pc: Pc): set<Handle> { if pc.Idle? then {} else pc.left }

  /** Back from a loop: to the caller, or to the destructor it was called from. */
  function Back(left: set<Handle>): Pc { if left == {} then Idle else Freeing(false, false, left) }

  // ----- the steps

  /** Reading the counters of a deleted block is a failure. */
  function Load(s: State, t: Thread, op: Op, left: set<Handle>): Outcome {
    if s.blockDeaths > 0 then Fail else Ok(At(s, t, Swapping(op, s.ctl, s.obj, left)))
  }

  /** One pass of a retry loop on the values last read. */
  function Try(s: State, t: Thread, pc: Pc, spurious: bool): Outcome
    requires pc.Swapping?
  {
    if s.blockDeaths > 0 then Fail
    else if pc.op.WeakLock? && pc.ctl < 1 then Fail
    else if pc.op.StrongLock? && pc.obj <= 0 then Ok(At(s, t, Back(pc.left)))
    else if spurious || pc.ctl != s.ctl || pc.obj != s.obj then Load(s, t, pc.op, pc.left)
    else match pc.op
      case WeakLock(_, _, made, inside) =>
        var inside' := if inside then s.inside + {made} else s.inside;
        Ok(At(s.(ctl := s.ctl + 1, weak := s.weak + {made}, inside := inside'), t, Back(pc.left)))
      case StrongLock(_, _, made) =>
        if s.obj + 1 <= 0 || s.ctl + 1 < s.obj + 1 then Fail
        else Ok(At(s.(ctl := s.ctl + 1, obj := s.obj + 1, strong := s.strong + {made}), t, Back(pc.left)))
      case WeakRelease(h) =>
        Ok(At(Dropped(s, t).(weak := s.weak - {h}), t, Freeing(s.ctl - 1 == 0, false, pc.left)))
      case StrongRelease(h) =>
        Ok(At(Dropped(s, t).(obj := s.obj - 1, strong := s.strong - {h},
          lastStrong := if s.obj - 1 == 0 then t else s.lastStrong),
              t, Freeing(s.ctl - 1 == 0, s.obj - 1 == 0, pc.left)))
  }

  function Dropped(s: State, t: Thread): State {
    s.(ctl := s.ctl - 1, lastDrop := if s.ctl - 1 == 0 then t else s.lastDrop)
  }

  /** The block goes first, then the object, whose destructor drops the handles inside it. */
  function Release(s: State, t: Thread, pc: Pc, next: Handle): Outcome
    requires pc.Freeing?
  {
    if pc.block then Ok(At(s.(blockDeaths := s.blockDeaths + 1), t, pc.(block := false)))
    else if pc.target then Ok(At(s.(objectDeaths := s.objectDeaths + 1, inside := {}), t,
      pc.(target := false, left := s.inside)))
    else if pc.left == {} then Ok(At(s, t, Idle))
    else if next !in pc.left then Ok(s)
    else Load(s, t, WeakRelease(next), pc.left - {next})
  }

  function Step(s: State, e: Event): Outcome {
    match e
    case Begin(t, op) => Load(s, t, op, Left(Pcs(s, t)))
    case Swap(t, spurious) => if Pcs(s, t).Swapping? then Try(s, t, Pcs(s, t), spurious) else Ok(s)
    case Free(t, next) => if Pcs(s, t).Freeing? then Release(s, t, Pcs(s, t), next) else Ok(s)
  }

  // ----- who may do what

  predicate Locks(op: Op) { op.WeakLock? || op.StrongLock? }

  /** The handle is one a thread relies on while it copies. */
  predicate Reads(pc: Pc, h: Handle) {
    pc.Swapping? && Locks(pc.op) && (h == pc.op.via || h == pc.op.guard)
  }

  /** The handle is one a thread is dropping. */
  predicate Drops(pc: Pc, h: Handle) {
    (pc.Swapping? && (pc.op.WeakRelease? || pc.op.StrongRelease?) && h == pc.op.h) || (!pc.Idle? && h in pc.left)
  }

  /** The handle is one a thread is about to create. */
  predicate Makes(pc: Pc, h: Handle) {
    pc.Swapping? && Locks(pc.op) && h == pc.op.made
  }

  /** The handle exists outside the object. */
  predicate Held(s: State, h: Handle) { (h in s.strong || h in s.weak) && h !in s.inside }

  /** The destructor of the object is running in this thread, with the handles inside it still in place. */
  predicate Destroying(pc: Pc) { pc.Freeing? && !pc.block && !pc.target && pc.left != {} }

  /**
   A thread uses only handles that exist, drops only what nobody else uses, and
   creates new ones. From the object's destructor it may read, besides its own,
   the handles inside.
   */
  ghost predicate Allowed(s: State, e: Event) {
    match e
    case Begin(t, op) =>
      && (Pcs(s, t).Idle? || (Destroying(Pcs(s, t)) && Locks(op) && op.via in Pcs(s, t).left))
      && Sound(s, op, Left(Pcs(s, t)))
      && (Locks(op) ==> forall u :: u in s.pcs && u != t ==>
          !Drops(s.pcs[u], op.via) && !Drops(s.pcs[u], op.guard) && !Makes(s.pcs[u], op.made))
      && (!Locks(op) ==> forall u :: u in s.pcs ==> !Drops(s.pcs[u], op.h) && !Reads(s.pcs[u], op.h))
    case _ => true
  }

  // ----- the invariant

  ghost predicate Counted(s: State) {
    && s.ctl == |s.strong| + |s.weak| && s.obj == |s.strong|
    && s.strong !! s.weak && s.inside <= s.weak
  }

  /** The guard exists outside the object; a handle inside is read only under a strong guard. */
  ghost predicate Guarded(s: State, via: Handle, guard: Handle, left: set<Handle>) {
    && Held(s, guard) && (via == guard || (via in s.inside && guard in s.strong))
    && (left != {} ==> via == guard && via in left)
  }

  ghost predicate Sound(s: State, op: Op, left: set<Handle>) {
    match op
    case WeakLock(via, guard, made, inside) =>
      Guarded(s, via, guard, left) && made !in s.strong && made !in s.weak && (inside ==> guard in s.strong)
    case StrongLock(via, guard, made) => Guarded(s, via, guard, left) && made !in s.strong && made !in s.weak
    case WeakRelease(h) => h in s.weak && h !in s.inside && h !in left
    case StrongRelease(h) => h in s.strong && left == {}
  }

  /** What a thread reads or drops exists; what it will make does not; what it read was once true. */
  ghost predicate Sane(s: State, pc: Pc) {
    && (pc.Swapping? ==> Sound(s, pc.op, pc.left) && 0 <= pc.obj <= pc.ctl && 1 <= pc.ctl)
    && (pc.Swapping? && pc.op.StrongLock? && pc.op.guard in s.strong ==> pc.obj >= 1)
    && (pc.Swapping? && pc.op.StrongLock? && pc.left != {} ==> pc.obj == 0)
    && (pc.Swapping? && pc.obj == 0 ==> s.obj == 0)
    && (!pc.Idle? ==> forall h :: h in pc.left ==> h in s.weak && h !in s.inside)
    && (!pc.Idle? && pc.left != {} ==> s.obj == 0)
    && (pc.Freeing? && pc.block ==> s.ctl == 0 && s.blockDeaths == 0)
    && (pc.Freeing? && pc.target ==> s.obj == 0 && s.objectDeaths == 0 && pc.left == {})
  }

  ghost predicate Sanity(s: State) { forall t :: t in s.pcs ==> Sane(s, s.pcs[t]) }

  ghost predicate Apart(s: State) {
    forall t, u, h :: t in s.pcs && u in s.pcs && t != u ==>
      && !(Drops(s.pcs[t], h) && Drops(s.pcs[u], h))
      && !(Drops(s.pcs[t], h) && Reads(s.pcs[u], h))
      && !(Makes(s.pcs[t], h) && Makes(s.pcs[u], h))
  }

  predicate FreesBlock(pc: Pc) { pc.Freeing? && pc.block }
  predicate FreesObject(pc: Pc) { pc.Freeing? && pc.target }

  /** The block has died once, or one thread is about to delete it, exactly when no handle is left. */
  ghost predicate BlockOnce(s: State) {
    && (forall t :: t in s.pcs && FreesBlock(s.pcs[t]) ==> t == s.lastDrop)
    && (s.ctl > 0 ==> s.blockDeaths == 0)
    && (s.ctl == 0 ==> s.blockDeaths == if FreesBlock(Pcs(s, s.lastDrop)) then 0 else 1)
  }

  ghost predicate ObjectOnce(s: State) {
    && (forall t :: t in s.pcs && FreesObject(s.pcs[t]) ==> t == s.lastStrong)
    && (s.obj > 0 ==> s.objectDeaths == 0)
    && (s.obj == 0 ==> s.objectDeaths == if FreesObject(Pcs(s, s.lastStrong)) then 0 else 1)
    && (s.objectDeaths > 0 ==> s.inside == {})
  }

  ghost predicate Inv(s: State) {
    Counted(s) && Sanity(s) && Apart(s) && BlockOnce(s) && ObjectOnce(s)
  }

  // ----- each step keeps it

  lemma LoadKeeps(s: State, t: Thread, op: Op, left: set<Handle>)
    requires Inv(s) && s.ctl > 0
    requires var pc := Swapping(op, s.ctl, s.obj, left);
      && Sane(s, pc)
      && forall u, h :: u in s.pcs && u != t ==>
        && !(Drops(pc, h) && (Drops(s.pcs[u], h) || Reads(s.pcs[u], h)))
        && !(Reads(pc, h) && Drops(s.pcs[u], h)) && !(Makes(pc, h) && Makes(s.pcs[u], h))
    requires !FreesBlock(Pcs(s, t)) && !FreesObject(Pcs(s, t))
    ensures Load(s, t, op, left).Ok? && Inv(Load(s, t, op, left).s)
  {
    hide Apart;
    ApartAdded(s, Load(s, t, op, left).s, t, Swapping(op, s.ctl, s.obj, left));
  }

  lemma ApartAdded(s: State, s': State, t: Thread, pc: Pc)
    requires Apart(s) && s'.pcs == s.pcs[t := pc]
    requires forall u, h :: u in s.pcs && u != t ==>
      && !(Drops(pc, h) && (Drops(s.pcs[u], h) || Reads(s.pcs[u], h)))
      && !(Reads(pc, h) && Drops(s.pcs[u], h)) && !(Makes(pc, h) && Makes(s.pcs[u], h))
    ensures Apart(s')
  {
  }

  /** A thread that reads, drops and makes no more than before stays apart from the others. */
  lemma ApartKept(s: State, s': State, t: Thread, pc: Pc)
    requires Apart(s) && t in s.pcs && s'.pcs == s.pcs[t := pc]
    requires forall h ::
      (Drops(pc, h) ==> Drops(s.pcs[t], h)) && (Reads(pc, h) ==> Reads(s.pcs[t], h)) &&
      (Makes(pc, h) ==> Makes(s.pcs[t], h))
    ensures Apart(s')
  {
  }

  ghost predicate OthersSane(s: State, s': State, t: Thread) {
    forall u :: u in s.pcs && u != t ==> Sane(s', s.pcs[u])
  }

  /** The acting thread and all others are sane. */
  lemma SanityFrom(s: State, s': State, t: Thread, pc: Pc)
    requires t in s.pcs && s'.pcs == s.pcs[t := pc] && Sane(s', pc) && OthersSane(s, s', t)
    ensures Sanity(s')
  {
    hide Sane;
  }

  lemma TryWeakLock(s: State, t: Thread)
    requires Inv(s) && t in s.pcs && s.pcs[t].Swapping? && s.pcs[t].op.WeakLock? && s.pcs[t].ctl == s.ctl
    requires s.pcs[t].obj == s.obj
    ensures Try(s, t, s.pcs[t], false).Ok? && Inv(Try(s, t, s.pcs[t], false).s)
  {
    hide Apart, Sanity, OthersSane, Sane, Sound, Try, Counted, BlockOnce, ObjectOnce;
    CtlPositive(s, t);
    SaneAt(s, t);
    NobodyFrees(s);
    var pc := s.pcs[t];
    var inside := if pc.op.inside then s.inside + {pc.op.made} else s.inside;
    var s' := At(s.(ctl := s.ctl + 1, weak := s.weak + {pc.op.made}, inside := inside), t, Back(pc.left));
    WeakSwap(s, t, pc);
    WeakMade(s, pc);
    WeakCounted(s, s', pc.op.made);
    WeakOnce(s, s', t, Back(pc.left));
    ApartKept(s, s', t, s'.pcs[t]);
    OthersMade(s, s', t, pc.op.made);
    BackSane(s, s', pc);
    SanityFrom(s, s', t, s'.pcs[t]);
  }

  lemma WeakSwap(s: State, t: Thread, pc: Pc)
    requires pc.Swapping? && pc.op.WeakLock? && pc.ctl == s.ctl >= 1 && pc.obj == s.obj && s.blockDeaths == 0
    ensures var inside := if pc.op.inside then s.inside + {pc.op.made} else s.inside;
      Try(s, t, pc, false) == Ok(At(s.(ctl := s.ctl + 1, weak := s.weak + {pc.op.made}, inside := inside), t,
        Back(pc.left)))
  {
  }

  lemma WeakMade(s: State, pc: Pc)
    requires Sane(s, pc) && pc.Swapping? && pc.op.WeakLock? && Counted(s)
    ensures pc.op.made !in s.strong && pc.op.made !in s.weak && pc.op.made !in s.inside && pc.ctl >= 1
    ensures pc.op.inside ==> s.obj > 0
    ensures s.inside <= s.weak
  {
  }

  lemma WeakCounted(s: State, s': State, made: Handle)
    requires Counted(s) && made !in s.strong && made !in s.weak
    requires s'.ctl == s.ctl + 1 && s'.obj == s.obj && s'.strong == s.strong && s'.weak == s.weak + {made}
    requires s'.inside == s.inside || s'.inside == s.inside + {made}
    ensures Counted(s')
  {
  }

  lemma WeakOnce(s: State, s': State, t: Thread, pc: Pc)
    requires BlockOnce(s) && ObjectOnce(s) && t in s.pcs && s.pcs[t].Swapping? && s'.pcs == s.pcs[t := pc]
    requires !FreesBlock(pc) && !FreesObject(pc)
    requires 0 < s.ctl < s'.ctl && s'.obj == s.obj && (s.obj == 0 ==> s'.inside == s.inside)
    requires s'.blockDeaths == s.blockDeaths && s'.objectDeaths == s.objectDeaths
    requires s'.lastDrop == s.lastDrop && s'.lastStrong == s.lastStrong && s.obj >= 0
    ensures BlockOnce(s') && ObjectOnce(s')
  {
  }

  lemma BackSane(s: State, s': State, pc: Pc)
    requires Sane(s, pc) && pc.Swapping? && pc.op.WeakLock? && Counted(s)
    requires s'.obj == s.obj && s'.weak == s.weak + {pc.op.made}
    requires s'.inside == if pc.op.inside then s.inside + {pc.op.made} else s.inside
    ensures Sane(s', Back(pc.left))
  {
  }

  lemma TryStrongLock(s: State, t: Thread)
    requires Inv(s) && t in s.pcs && s.pcs[t].Swapping? && s.pcs[t].op.StrongLock? && s.pcs[t].ctl == s.ctl
    requires s.pcs[t].obj == s.obj > 0
    ensures Try(s, t, s.pcs[t], false).Ok? && Inv(Try(s, t, s.pcs[t], false).s)
  {
    hide Apart, Sanity, OthersSane;
    CtlPositive(s, t);
    SaneAt(s, t);
    var s' := Try(s, t, s.pcs[t], false).s;
    ApartKept(s, s', t, s'.pcs[t]);
    OthersMade(s, s', t, s.pcs[t].op.made);
    SanityFrom(s, s', t, s'.pcs[t]);
  }

  lemma TryWeakRelease(s: State, t: Thread)
    requires Inv(s) && t in s.pcs && s.pcs[t].Swapping? && s.pcs[t].op.WeakRelease? && s.pcs[t].ctl == s.ctl
    requires s.pcs[t].obj == s.obj
    ensures Try(s, t, s.pcs[t], false).Ok? && Inv(Try(s, t, s.pcs[t], false).s)
  {
    hide Apart, Sanity, OthersSane;
    CtlPositive(s, t);
    SaneAt(s, t);
    var s' := Try(s, t, s.pcs[t], false).s;
    ApartKept(s, s', t, s'.pcs[t]);
    OthersDropped(s, s', t, s.pcs[t].op.h);
    NobodyFrees(s);
    SanityFrom(s, s', t, s'.pcs[t]);
  }

  lemma TryStrongRelease(s: State, t: Thread)
    requires Inv(s) && t in s.pcs && s.pcs[t].Swapping? && s.pcs[t].op.StrongRelease? && s.pcs[t].ctl == s.ctl
    requires s.pcs[t].obj == s.obj
    ensures Try(s, t, s.pcs[t], false).Ok? && Inv(Try(s, t, s.pcs[t], false).s)
  {
    hide Apart, Sanity, OthersSane;
    CtlPositive(s, t);
    SaneAt(s, t);
    var s' := Try(s, t, s.pcs[t], false).s;
    ApartKept(s, s', t, s'.pcs[t]);
    OthersDropped(s, s', t, s.pcs[t].op.h);
    NobodyFrees(s);
    SanityFrom(s, s', t, s'.pcs[t]);
  }

  lemma NobodyFrees(s: State)
    requires Sanity(s)
    ensures s.ctl > 0 ==> forall t :: t in s.pcs ==> !FreesBlock(s.pcs[t])
    ensures s.obj > 0 ==> forall t :: t in s.pcs ==> !FreesObject(s.pcs[t])
  {
  }

  lemma SaneAt(s: State, t: Thread)
    requires Sanity(s) && t in s.pcs
    ensures Sane(s, s.pcs[t])
  {
  }

  /** A new handle disturbs nobody: the others make different ones. */
  lemma OthersMade(s: State, s': State, t: Thread, made: Handle)
    requires Sanity(s) && Apart(s) && t in s.pcs && Makes(s.pcs[t], made)
    requires s.ctl > 0 && s'.ctl == s.ctl + 1 && (s.obj == 0 ==> s'.obj == 0)
    requires s'.blockDeaths == s.blockDeaths && s'.objectDeaths == s.objectDeaths
    requires forall h ::
      h != made ==> (h in s'.strong <==> h in s.strong) && (h in s'.weak <==> h in s.weak) && (h in s'.inside <==>
      h in s.inside)
    requires made !in s.strong && made !in s.weak && s.inside <= s.weak
    ensures OthersSane(s, s', t)
  {
    forall u | u in s.pcs && u != t ensures Sane(s', s.pcs[u]) {
      OtherMade(s, s', t, u, made);
    }
  }

  lemma OtherMade(s: State, s': State, t: Thread, u: Thread, made: Handle)
    requires u in s.pcs && Sane(s, s.pcs[u]) && !Makes(s.pcs[u], made)
    requires s.ctl > 0 && s'.ctl == s.ctl + 1 && (s.obj == 0 ==> s'.obj == 0)
    requires s'.blockDeaths == s.blockDeaths && s'.objectDeaths == s.objectDeaths
    requires forall h ::
      h != made ==> (h in s'.strong <==> h in s.strong) && (h in s'.weak <==> h in s.weak) && (h in s'.inside <==>
      h in s.inside)
    requires made !in s.strong && made !in s.weak && s.inside <= s.weak
    ensures Sane(s', s.pcs[u])
  {
  }

  /** A dropped handle is missed by nobody: the others use different ones. */
  lemma OthersDropped(s: State, s': State, t: Thread, h: Handle)
    requires Sanity(s) && Apart(s) && t in s.pcs && Drops(s.pcs[t], h)
    requires s.ctl > 0 && s'.obj <= s.obj && (s'.obj < s.obj ==> s.objectDeaths == 0)
    requires s'.blockDeaths == s.blockDeaths && s'.objectDeaths == s.objectDeaths && s'.inside == s.inside
    requires s'.strong == s.strong - {h} && s'.weak == s.weak - {h} && s.obj == |s.strong| && s'.obj == |s'.strong|
    ensures OthersSane(s, s', t)
  {
    forall u | u in s.pcs && u != t ensures Sane(s', s.pcs[u]) {
      OtherDropped(s, s', u, h);
    }
  }

  lemma OtherDropped(s: State, s': State, u: Thread, h: Handle)
    requires u in s.pcs && Sane(s, s.pcs[u]) && !Drops(s.pcs[u], h) && !Reads(s.pcs[u], h)
    requires s.ctl > 0 && s'.obj <= s.obj && (s'.obj < s.obj ==> s.objectDeaths == 0)
    requires s'.blockDeaths == s.blockDeaths && s'.objectDeaths == s.objectDeaths && s'.inside == s.inside
    requires s'.strong == s.strong - {h} && s'.weak == s.weak - {h} && s.obj == |s.strong| && s'.obj == |s'.strong|
    ensures Sane(s', s.pcs[u])
  {
  }

  lemma TryKeeps(s: State, t: Thread, spurious: bool)
    requires Inv(s) && t in s.pcs && s.pcs[t].Swapping?
    ensures Try(s, t, s.pcs[t], spurious).Ok? && Inv(Try(s, t, s.pcs[t], spurious).s)
  {
    hide Apart, Inv;
    var pc := s.pcs[t];
    CtlPositive(s, t);
    if pc.op.StrongLock? && pc.obj <= 0 {
      BackKeeps(s, t);
    } else if spurious || pc.ctl != s.ctl || pc.obj != s.obj {
      ReloadKeeps(s, t);
    } else {
      match pc.op
      case WeakLock(_, _, _, _) => TryWeakLock(s, t);
      case StrongLock(_, _, _) => TryStrongLock(s, t);
      case WeakRelease(_) => TryWeakRelease(s, t);
      case StrongRelease(_) => TryStrongRelease(s, t);
    }
  }

  /** While a thread is in a loop the block is alive. */
  lemma CtlPositive(s: State, t: Thread)
    requires Inv(s) && t in s.pcs && s.pcs[t].Swapping?
    ensures s.ctl > 0 && s.blockDeaths == 0 && s.pcs[t].ctl >= 1 && 0 <= s.obj <= s.ctl
  {
    hide Apart;
    assert Sane(s, s.pcs[t]);
    assert s.strong != {} || s.weak != {};
  }

  lemma BackKeeps(s: State, t: Thread)
    requires Inv(s) && t in s.pcs && s.pcs[t].Swapping?
    ensures Inv(At(s, t, Back(s.pcs[t].left)))
  {
    hide Apart;
    ApartKept(s, At(s, t, Back(s.pcs[t].left)), t, Back(s.pcs[t].left));
  }

  lemma IdleKeeps(s: State, t: Thread)
    requires Inv(s) && t in s.pcs && !FreesBlock(s.pcs[t]) && !FreesObject(s.pcs[t])
    ensures Inv(At(s, t, Idle))
  {
    hide Apart;
    ApartKept(s, At(s, t, Idle), t, Idle);
  }

  lemma ReloadKeeps(s: State, t: Thread)
    requires Inv(s) && t in s.pcs && s.pcs[t].Swapping? && s.ctl > 0 && 0 <= s.obj <= s.ctl
    ensures Load(s, t, s.pcs[t].op, s.pcs[t].left).Ok? && Inv(Load(s, t, s.pcs[t].op, s.pcs[t].left).s)
  {
    hide Apart;
    var s' := Load(s, t, s.pcs[t].op, s.pcs[t].left).s;
    ApartKept(s, s', t, s'.pcs[t]);
  }

  lemma FreeBlockKeeps(s: State, t: Thread)
    requires Inv(s) && t in s.pcs && FreesBlock(s.pcs[t])
    ensures Inv(Release(s, t, s.pcs[t], 0).s)
  {
    hide Apart;
    var s' := Release(s, t, s.pcs[t], 0).s;
    ApartKept(s, s', t, s'.pcs[t]);
  }

  lemma FreeObjectKeeps(s: State, t: Thread)
    requires Inv(s) && t in s.pcs && FreesObject(s.pcs[t]) && !FreesBlock(s.pcs[t])
    ensures Inv(Release(s, t, s.pcs[t], 0).s)
  {
    var s' := Release(s, t, s.pcs[t], 0).s;
  }

  lemma NextInsideKeeps(s: State, t: Thread, next: Handle)
    requires Inv(s) && t in s.pcs && s.pcs[t].Freeing? && !FreesObject(s.pcs[t]) && !FreesBlock(s.pcs[t])
    requires next in s.pcs[t].left
    ensures Release(s, t, s.pcs[t], next).Ok? && Inv(Release(s, t, s.pcs[t], next).s)
  {
    hide Apart;
    assert next in s.weak;
    var s' := Release(s, t, s.pcs[t], next).s;
    ApartKept(s, s', t, s'.pcs[t]);
  }

  lemma ReleaseKeeps(s: State, t: Thread, next: Handle)
    requires Inv(s) && t in s.pcs && s.pcs[t].Freeing?
    ensures Release(s, t, s.pcs[t], next).Ok? && Inv(Release(s, t, s.pcs[t], next).s)
  {
    hide Inv;
    var pc := s.pcs[t];
    if pc.block {
      FreeBlockKeeps(s, t);
    } else if pc.target {
      FreeObjectKeeps(s, t);
    } else if pc.left == {} {
      IdleKeeps(s, t);
    } else if next in pc.left {
      NextInsideKeeps(s, t, next);
    }
  }

  lemma BeginKeeps(s: State, t: Thread, op: Op)
    requires Inv(s) && Allowed(s, Begin(t, op))
    ensures var left := Left(Pcs(s, t)); Load(s, t, op, left).Ok? && Inv(Load(s, t, op, left).s)
  {
    assert s.strong != {} || s.weak != {};
    LoadKeeps(s, t, op, Left(Pcs(s, t)));
  }

  /** Whatever the threads do, no assertion fails and no deleted block is touched. */
  lemma StepKeeps(s: State, e: Event)
    requires Inv(s) && Allowed(s, e)
    ensures Step(s, e).Ok? && Inv(Step(s, e).s)
  {
    hide Inv, Load, Try, Release;
    match e
    case Begin(t, op) => BeginKeeps(s, t, op);
    case Swap(t, spurious) =>
      if Pcs(s, t).Swapping? {
        TryKeeps(s, t, spurious);
      }
    case Free(t, next) =>
      if Pcs(s, t).Freeing? {
        ReleaseKeeps(s, t, next);
      }
  }

  // ----- whole runs

  /** SharedPtr(T*) */
  function Created(h: Handle): State { State(1, 1, {h}, {}, {}, 0, 0, 0, 0, map[]) }

  /** The run in which every thread keeps to its own handles. */
  ghost predicate Run(s: State, es: seq<Event>, s': State)
    decreases |es|
  {
    if es == [] then s' == s
    else Allowed(s, es[0]) && Step(s, es[0]).Ok? && Run(Step(s, es[0]).s, es[1..], s')
  }

  lemma {:induction false} RunKeeps(s: State, es: seq<Event>, s': State)
    requires Inv(s) && Run(s, es, s')
    ensures Inv(s') && s'.objectDeaths >= s.objectDeaths && s'.blockDeaths >= s.blockDeaths
    decreases |es|
  {
    hide Inv;
    if es != [] {
      StepKeeps(s, es[0]);
      RunKeeps(Step(s, es[0]).s, es[1..], s');
    }
  }

  lemma CreatedInv(h: Handle)
    ensures Inv(Created(h))
  {
  }

  /** In every interleaving the counters count the handles, and nothing dies while a handle needs it. */
  lemma CountersExact(h: Handle, es: seq<Event>, s: State)
    requires Run(Created(h), es, s)
    ensures s.ctl == |s.strong| + |s.weak| && s.obj == |s.strong|
    ensures s.strong != {} ==> s.objectDeaths == 0 && s.blockDeaths == 0
    ensures s.weak != {} ==> s.blockDeaths == 0
    ensures s.objectDeaths <= 1 && s.blockDeaths <= 1
  {
    hide Apart, Sanity;
    CreatedInv(h);
    RunKeeps(Created(h), es, s);
  }

  /**
   When all threads are done, the object has died if and only if no strong handle is left, the block
   if and only if none is.
   */
  lemma DiedExactlyOnce(h: Handle, es: seq<Event>, s: State)
    requires Run(Created(h), es, s) && forall t :: t in s.pcs ==> s.pcs[t].Idle?
    ensures s.objectDeaths == (if s.strong == {} then 1 else 0)
    ensures s.blockDeaths == (if s.strong == {} && s.weak == {} then 1 else 0)
  {
    CreatedInv(h);
    RunKeeps(Created(h), es, s);
  }

  /** The next event of any run cannot fail. */
  lemma NeverFails(h: Handle, es: seq<Event>, s: State, e: Event)
    requires Run(Created(h), es, s) && Allowed(s, e)
    ensures Step(s, e).Ok?
  {
    CreatedInv(h);
    RunKeeps(Created(h), es, s);
    StepKeeps(s, e);
  }

  /**
   A lock that succeeds finds the object alive and nobody about to delete it; once it is dead no
   handle revives it.
   */
  lemma NoRevival(h: Handle, es: seq<Event>, s: State, e: Event, later: seq<Event>, s': State)
    requires Run(Created(h), es, s) && Allowed(s, e) && Step(s, e).Ok? && Run(Step(s, e).s, later, s')
    ensures !(Step(s, e).s.strong <= s.strong) ==> s.objectDeaths == 0 && forall t ::
      t in s.pcs ==> !FreesObject(s.pcs[t])
    ensures s.objectDeaths == 1 ==> s'.strong == {} && s'.objectDeaths == 1
  {
    CreatedInv(h);
    RunKeeps(Created(h), es, s);
    StepKeeps(s, e);
    RunKeeps(Step(s, e).s, later, s');
    DeathsGrow(s, e);
    if !(Step(s, e).s.strong <= s.strong) {
      GrowsOnlyAlive(s, e);
    }
    if s.objectDeaths == 1 {
      NoStrongLeft(s');
    }
  }

  lemma GrowsOnlyAlive(s: State, e: Event)
    requires Inv(s) && Allowed(s, e) && Step(s, e).Ok? && !(Step(s, e).s.strong <= s.strong)
    ensures s.objectDeaths == 0 && s.obj > 0 && forall t :: t in s.pcs ==> !FreesObject(s.pcs[t])
  {
    hide Sane;
    NobodyFrees(s);
  }

  lemma NoStrongLeft(s: State)
    requires Inv(s) && s.objectDeaths > 0
    ensures s.strong == {} && s.objectDeaths == 1
  {
  }

  lemma DeathsGrow(s: State, e: Event)
    requires Step(s, e).Ok?
    ensures Step(s, e).s.objectDeaths >= s.objectDeaths
  {
  }

  // ----- when a lock succeeds

  /** The thread is in the loop of a strong lock, and its guard is a strong handle. */
  ghost predicate Locking(s: State, t: Thread, op: Op) {
    t in s.pcs && s.pcs[t].Swapping? && s.pcs[t].op == op && op.StrongLock? && op.guard in s.strong
  }

  /** One pass under a strong guard: the loop goes round again or ends with the new handle; it never gives up. */
  lemma GuardedTry(s: State, t: Thread, op: Op, spurious: bool)
    requires Inv(s) && Locking(s, t, op)
    ensures var r := Try(s, t, s.pcs[t], spurious);
      r.Ok? && (Locking(r.s, t, op) || (t in r.s.pcs && r.s.pcs[t].Idle? && r.s.strong == s.strong + {op.made}))
  {
    TryKeeps(s, t, spurious);
    assert Sane(s, s.pcs[t]);
  }

  /** A step of another thread leaves the loop and its guard alone. */
  lemma GuardStays(s: State, e: Event, t: Thread, op: Op)
    requires Inv(s) && Allowed(s, e) && Step(s, e).Ok? && Locking(s, t, op) && e.t != t
    ensures Locking(Step(s, e).s, t, op)
  {
    assert Reads(s.pcs[t], op.guard);
    if e.Swap? && Pcs(s, e.t).Swapping? && Pcs(s, e.t).op.StrongRelease? {
      assert Drops(s.pcs[e.t], Pcs(s, e.t).op.h);
    }
  }

  /** Until the swap, a thread in the loop does nothing else. */
  lemma OwnStep(s: State, e: Event, t: Thread, op: Op)
    requires Inv(s) && Allowed(s, e) && Locking(s, t, op) && e.t == t
    ensures e.Swap? || (e.Free? && Step(s, e) == Ok(s))
  {
  }

  /**
   However a run goes on, a lock under a strong guard is still in its loop or
   has ended with its new handle. That covers SharedPtr's copy, which ignores
   the result, and a lock of the object's own weak handle in a call on the
   object, whose result is asserted to be there.
   */
  lemma GuardedLockSucceeds(h: Handle, es: seq<Event>, s: State, later: seq<Event>, s': State, t: Thread, op: Op)
    returns (n: nat, mid: State)
    requires Run(Created(h), es, s) && Locking(s, t, op) && Run(s, later, s')
    ensures n <= |later| && Run(s, later[..n], mid)
    ensures (n == |later| && mid == s' && Locking(s', t, op)) ||
      (t in mid.pcs && mid.pcs[t].Idle? && op.made in mid.strong)
  {
    CreatedInv(h);
    RunKeeps(Created(h), es, s);
    n, mid := LockRuns(s, later, s', t, op);
  }

  lemma {:induction false} LockRuns(s: State, later: seq<Event>, s': State, t: Thread, op: Op)
    returns (n: nat, mid: State)
    requires Inv(s) && Locking(s, t, op) && Run(s, later, s')
    ensures n <= |later| && Run(s, later[..n], mid)
    ensures (n == |later| && mid == s' && Locking(s', t, op)) ||
      (t in mid.pcs && mid.pcs[t].Idle? && op.made in mid.strong)
    decreases |later|
  {
    hide Inv, Allowed, Step, Locking;
    if later == [] {
      n, mid := 0, s;
    } else {
      var e := later[0];
      var s1 := Step(s, e).s;
      StepKeeps(s, e);
      LockStep(s, e, t, op);
      if Locking(s1, t, op) {
        n, mid := LockRuns(s1, later[1..], s', t, op);
        assert later[..n + 1][1..] == later[1..][..n] && later[..n + 1][0] == e;
        n := n + 1;
      } else {
        n, mid := 1, s1;
        assert later[..1][1..] == [] && later[..1][0] == e;
      }
    }
  }

  lemma LockStep(s: State, e: Event, t: Thread, op: Op)
    requires Inv(s) && Allowed(s, e) && Step(s, e).Ok? && Locking(s, t, op)
    ensures var s1 := Step(s, e).s; Locking(s1, t, op) || (t in s1.pcs && s1.pcs[t].Idle? && op.made in s1.strong)
  {
    hide Inv, Allowed, Try;
    if e.t != t {
      GuardStays(s, e, t, op);
    } else {
      OwnStep(s, e, t, op);
      if e.Swap? {
        GuardedTry(s, t, op, e.spurious);
      }
    }
  }

  /**
   Whatever kind of handle it goes through, a strong lock leaves its loop
   without its new handle only when no strong handle is left.
   */
  lemma GivesUpOnlyDead(h: Handle, es: seq<Event>, s: State, t: Thread, spurious: bool)
    requires Run(Created(h), es, s) && t in s.pcs && s.pcs[t].Swapping? && s.pcs[t].op.StrongLock?
    ensures var r := Step(s, Swap(t, spurious));
      r.Ok? && (Pcs(r.s, t).Swapping? || s.pcs[t].op.made in r.s.strong || s.strong == {})
  {
    hide Apart, BlockOnce, ObjectOnce;
    CreatedInv(h);
    RunKeeps(Created(h), es, s);
    TryKeeps(s, t, spurious);
    SaneAt(s, t);
  }

  /** A swap on the values last read that does not fail for no reason does what the loop is for. */
  lemma SwapSettles(h: Handle, es: seq<Event>, s: State, t: Thread)
    requires Run(Created(h), es, s) && t in s.pcs && s.pcs[t].Swapping?
    requires s.pcs[t].ctl == s.ctl && s.pcs[t].obj == s.obj
    ensures var r := Step(s, Swap(t, false)); r.Ok? && !Pcs(r.s, t).Swapping? && Settled(s, r.s, s.pcs[t].op)
  {
    hide Apart, BlockOnce, ObjectOnce;
    CreatedInv(h);
    RunKeeps(Created(h), es, s);
    TryKeeps(s, t, false);
    SaneAt(s, t);
    CtlPositive(s, t);
  }

  /** The handles after an operation is done: a strong lock gets its handle if and only if there is a strong one. */
  ghost predicate Settled(s: State, s': State, op: Op) {
    match op
    case WeakLock(_, _, made, _) => s'.strong == s.strong && s'.weak == s.weak + {made}
    case StrongLock(_, _, made) => s'.weak == s.weak && s'.strong == if s.strong == {} then {} else s.strong + {made}
    case WeakRelease(x) => s'.strong == s.strong && s'.weak == s.weak - {x}
    case StrongRelease(x) => s'.strong == s.strong - {x} && s'.weak == s.weak
  }

  /** So an operation that no other thread gets in the way of is done after one load and one swap. */
  lemma DoneAlone(h: Handle, es: seq<Event>, s: State, t: Thread, op: Op)
    requires Run(Created(h), es, s) && Allowed(s, Begin(t, op))
    ensures var b := Step(s, Begin(t, op));
      b.Ok? && var r := Step(b.s, Swap(t, false)); r.Ok? && !Pcs(r.s, t).Swapping? && Settled(s, r.s, op)
  {
    hide Inv, Allowed, Try, Settled;
    CreatedInv(h);
    RunKeeps(Created(h), es, s);
    StepKeeps(s, Begin(t, op));
    var s1 := Step(s, Begin(t, op)).s;
    Appended(Created(h), es, s, Begin(t, op));
    SwapSettles(h, es + [Begin(t, op)], s1, t);
    SettledFrom(s, s1, Step(s1, Swap(t, false)).s, op);
  }

  lemma SettledFrom(s: State, s1: State, s2: State, op: Op)
    requires s1.strong == s.strong && s1.weak == s.weak && Settled(s1, s2, op)
    ensures Settled(s, s2, op)
  {
  }

  /** From the object's destructor a lock of the object's own weak handle gives up at once, and nothing changes. */
  lemma DestructorLockGivesUp(h: Handle, es: seq<Event>, s: State, t: Thread, op: Op, spurious: bool)
    requires Run(Created(h), es, s) && op.StrongLock? && Destroying(Pcs(s, t)) && Allowed(s, Begin(t, op))
    ensures Step(s, Begin(t, op)).Ok?
    ensures var s1 := Step(s, Begin(t, op)).s; Step(s1, Swap(t, spurious)) == Ok(At(s1, t, Pcs(s, t)))
  {
    CreatedInv(h);
    RunKeeps(Created(h), es, s);
    StepKeeps(s, Begin(t, op));
  }

  /** The same while other threads go on: nothing they do makes it succeed. */
  lemma DestructorLockFails(h: Handle, es: seq<Event>, s: State, t: Thread, spurious: bool)
    requires Run(Created(h), es, s) && t in s.pcs && s.pcs[t].Swapping? && s.pcs[t].op.StrongLock?
    requires s.pcs[t].left != {}
    ensures var r := Try(s, t, s.pcs[t], spurious);
      r.Ok? && r.s.strong == s.strong == {} && r.s.pcs[t] == Freeing(false, false, s.pcs[t].left)
  {
    CreatedInv(h);
    RunKeeps(Created(h), es, s);
    TryKeeps(s, t, spurious);
    assert Sane(s, s.pcs[t]);
  }

  /** The case is a real one: the last strong handle to an object that holds a weak handle to itself goes. */
  lemma DestructorReached(h: Handle, w: Handle, t: Thread) returns (es: seq<Event>, s: State)
    requires h != w
    ensures Run(Created(h), es, s) && Destroying(Pcs(s, t)) && Pcs(s, t).left == {w}
  {
    var e0, e1, e2, e3, e4 := Begin(t, WeakLock(h, h, w, true)), Swap(t, false), Begin(t, StrongRelease(h)),
      Swap(t, false), Free(t, 0);
    var s0 := Created(h);
    var s1 := Step(s0, e0).s;
    var s2 := Step(s1, e1).s;
    var s3 := Step(s2, e2).s;
    var s4 := Step(s3, e3).s;
    s := Step(s4, e4).s;
    es := [e0, e1, e2, e3, e4];
    assert [] + [e0] == [e0] && [e0] + [e1] == [e0, e1] && [e0, e1] + [e2] == [e0, e1, e2];
    assert [e0, e1, e2] + [e3] == [e0, e1, e2, e3] && [e0, e1, e2, e3] + [e4] == es;
    Appended(s0, [], s0, e0);
    Appended(s0, [e0], s1, e1);
    Appended(s0, [e0, e1], s2, e2);
    Appended(s0, [e0, e1, e2], s3, e3);
    assert {w} - {} == {w} && s4.weak == {w} && s4.strong == {};
    Appended(s0, [e0, e1, e2, e3], s4, e4);
  }

  lemma {:induction false} Appended(s: State, es: seq<Event>, s1: State, e: Event)
    requires Run(s, es, s1) && Allowed(s1, e) && Step(s1, e).Ok?
    ensures Run(s, es + [e], Step(s1, e).s)
    decreases |es|
  {
    hide Allowed, Step;
    if es == [] {
      assert ([] + [e])[1..] == [];
    } else {
      Appended(Step(s, es[0]).s, es[1..], s1, e);
      assert (es + [e])[1..] == es[1..] + [e];
    }
  }
}
