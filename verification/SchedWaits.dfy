/**
 Condition variables over whole runs: a waiter is woken by the notification
 whose turn it is, and by nothing else.
 */
module SchedWaits {
  import opened Sched
  import opened Wrappers
  import opened SchedInv
  import opened SchedMoves
  import opened SchedLocal
  import opened SchedRun
  import opened SchedFrame
  import opened SchedEffects
  import opened SchedTheorems

  /** The step is a notify_one: by the running task, by an interrupt, or the periodic one of the waker. */
  predicate Notifies(s: State, e: Event, c: CvId) {
    match e
    case Irq(d) => d == c
    case Run(_) => s.running.Some? && Head(CodeAt(s.code, s.running.value)) == Notify(c)
    case Tick => c == WAKE_CV && !Timely(s.(micros := s.micros + MICROS_PER_TICK))
    case Call(_) => false
  }

  predicate NotifiesAll(s: State, e: Event, c: CvId) {
    e.Run? && s.running.Some? && Head(CodeAt(s.code, s.running.value)) == NotifyAll(c)
  }

  /** How often the condition variable is notified in a run. */
  ghost function Notices(s: State, es: seq<Event>, c: CvId): nat
    decreases |es|
  {
    if es == [] || !Step(s, es[0]).Ok? then 0
    else (if Notifies(s, es[0], c) then 1 else 0) + Notices(Step(s, es[0]).s, es[1..], c)
  }

  /** No notify_all takes the whole queue over. */
  ghost predicate NoneTakesAll(s: State, es: seq<Event>, c: CvId)
    decreases |es|
  {
    es != [] && Step(s, es[0]).Ok? ==> !NotifiesAll(s, es[0], c) && NoneTakesAll(Step(s, es[0]).s, es[1..], c)
  }

  // ----- one step

  /** A notification takes the front of the queue; without one nobody leaves it. */
  ghost predicate InTurn(q: seq<Tid>, q': seq<Tid>, notified: bool) {
    if notified then q' == if q == [] then [] else q[1..] else q <= q'
  }

  lemma OneNotice(s: State, e: Event, c: CvId)
    requires Inv(s) && Allowed(s, e) && Step(s, e).Ok? && !NotifiesAll(s, e, c)
    ensures InTurn(Queue(s.lists, CvQ(c)), Queue(Step(s, e).s.lists, CvQ(c)), Notifies(s, e, c))
  {
    hide Shared, Exec, SwitchTask, WakeOldest, CodeOf, MayCall, Queue, InTurn, Harmless, Stays;
    match e
    case Tick => TickNotice(s, c);
    case Irq(d) => IrqNotice(s, c, d);
    case Run(ch) =>
      if s.running.Some? && CodeAt(s.code, s.running.value).Then? {
        var x, k := s.running.value, CodeAt(s.code, s.running.value);
        if k.i == Notify(c) {
          NotifyNotice(s, x, c, k.rest, ch);
        } else {
          OtherNotice(s, x, k.i, k.rest, ch, c);
        }
      } else {
        SameTurn(s, s, c);
      }
    case Call(op) => SameTurn(s, Step(s, e).s, c);
  }

  lemma SameTurn(s: State, s': State, c: CvId)
    requires s'.lists == s.lists
    ensures InTurn(Queue(s.lists, CvQ(c)), Queue(s'.lists, CvQ(c)), false)
  {
  }

  lemma TickNotice(s: State, c: CvId)
    requires Step(s, Tick).Ok?
    ensures InTurn(Queue(s.lists, CvQ(c)), Queue(Step(s, Tick).s.lists, CvQ(c)), Notifies(s, Tick, c))
  {
    hide SwitchTask, Queue;
    var more := SwitchEffect(s.(micros := s.micros + MICROS_PER_TICK));
  }

  lemma IrqNotice(s: State, c: CvId, d: CvId)
    requires Step(s, Irq(d)).Ok?
    ensures InTurn(Queue(s.lists, CvQ(c)), Queue(Step(s, Irq(d)).s.lists, CvQ(c)), d == c)
  {
    hide WakeOldest, Queue;
    WakeOldestEffect(s, CvQ(d), if s.running.Some? then s.running.value else 0);
  }

  lemma NotifyNotice(s: State, x: Tid, c: CvId, r: Code, ch: Choice)
    ensures Exec(s, x, Notify(c), r, ch).Ok?
    ensures InTurn(Queue(s.lists, CvQ(c)), Queue(Exec(s, x, Notify(c), r, ch).s.lists, CvQ(c)), true)
  {
    hide Pop, Queue, Extract;
    TakesFront(s, x, CvQ(c), r);
  }

  lemma TakesFront(s: State, x: Tid, l: ListId, r: Code)
    ensures InTurn(Queue(s.lists, l), Queue(Extract(s, x, l, r, r).lists, l), true)
  {
    hide Queue, Pop;
    if Queue(s.lists, l) == [] {
      assert Extract(s, x, l, r, r).lists == s.lists;
    } else {
      ExtractEffect(s, x, l, r, r);
    }
  }

  lemma OtherNotice(s: State, x: Tid, i: Instr, r: Code, ch: Choice, c: CvId)
    requires Exec(s, x, i, r, ch).Ok? && Timely(s) && i != Notify(c) && i != NotifyAll(c)
    ensures InTurn(Queue(s.lists, CvQ(c)), Queue(Exec(s, x, i, r, ch).s.lists, CvQ(c)), false)
  {
    hide Exec, Queue;
    if Switches(i) {
      SwitchingIs(s, x, i, r, ch);
    } else {
      StayingIs(s, x, i, r, ch);
    }
  }

  // ----- over a run

  /** A waiter with p others ahead of it still has p - k after k notifications, whoever joins meanwhile. */
  lemma {:induction false} WaitsForNotice(s: State, es: seq<Event>, s': State, c: CvId, p: nat, t: Tid)
    requires Inv(s) && SchedTheorems.Run(s, es, s') && p < |Queue(s.lists, CvQ(c))| && Queue(s.lists, CvQ(c))[p] == t
    requires NoneTakesAll(s, es, c) && Notices(s, es, c) <= p
    ensures var k := Notices(s, es, c); p - k < |Queue(s'.lists, CvQ(c))| && Queue(s'.lists, CvQ(c))[p - k] == t
    decreases |es|
  {
    hide Inv, Step, Allowed, Queue, Notifies, NotifiesAll;
    if es != [] {
      var s1 := Step(s, es[0]).s;
      StepKeeps(s, es[0]);
      OneNotice(s, es[0], c);
      WaitsForNotice(s1, es[1..], s', c, if Notifies(s, es[0], c) then p - 1 else p, t);
    }
  }

  /**
   It leaves the queue at exactly the (p + 1)-th following notification, and is then on its way to
   the ready queue.
   */
  lemma WokenInTurn(s: State, es: seq<Event>, s': State, e: Event, c: CvId, p: nat, t: Tid)
    requires Reachable(s) && SchedTheorems.Run(s, es, s') && Allowed(s', e) && Step(s', e).Ok?
    requires p < |Queue(s.lists, CvQ(c))| && Queue(s.lists, CvQ(c))[p] == t
    requires NoneTakesAll(s, es, c) && Notices(s, es, c) == p && Notifies(s', e, c)
    ensures Queue(s'.lists, CvQ(c)) != [] && Queue(s'.lists, CvQ(c))[0] == t
    ensures t !in Queue(Step(s', e).s.lists, CvQ(c))
    ensures OnItsWay(Step(s', e).s, t)
  {
    hide Reachable, Inv, Step, Allowed, Queue, Notifies, NotifiesAll, OnItsWay;
    ReachableInv(s);
    RunKeeps(s, es, s');
    WaitsForNotice(s, es, s', c, p, t);
    NoticeNotAll(s', e, c);
    OneNotice(s', e, c);
    StepKeeps(s', e);
    QueueUnique(s', CvQ(c));
    NoticeReadies(s', e, c, t);
  }

  /** The task is ready, on the processor, or in the hands of the one that notified it. */
  ghost predicate OnItsWay(s: State, t: Tid) {
    || t in Queue(s.lists, Ready) || s.running == Some(t)
    || exists u: Tid :: Head(CodeAt(s.code, u)) == Unblock(t)
  }

  lemma NoticeNotAll(s: State, e: Event, c: CvId)
    requires Notifies(s, e, c)
    ensures !NotifiesAll(s, e, c)
  {
  }

  lemma QueueUnique(s: State, l: ListId)
    requires Inv(s)
    ensures Unique(Queue(s.lists, l))
  {
    hide Nodes, Beds, Graves, Burials, Exclusive, Mutexes, Cargos, Fits, Families, Stands;
  }

  lemma NoticeReadies(s: State, e: Event, c: CvId, t: Tid)
    requires Inv(s) && Step(s, e).Ok? && Notifies(s, e, c) && Queue(s.lists, CvQ(c)) != []
    requires Queue(s.lists, CvQ(c))[0] == t
    ensures OnItsWay(Step(s, e).s, t)
  {
    hide Inv, Exec, SwitchTask, WakeOldest, Queue, OnItsWay;
    match e
    case Tick => TickReadies(s, t);
    case Irq(d) => IrqReadies(s, c, t);
    case Run(ch) =>
      var x := s.running.value;
      NotifyReadies(s, x, c, CodeAt(s.code, x).rest, ch);
  }

  lemma TickReadies(s: State, t: Tid)
    requires Step(s, Tick).Ok? && Notifies(s, Tick, WAKE_CV) && Queue(s.lists, CvQ(WAKE_CV)) != []
    requires Queue(s.lists, CvQ(WAKE_CV))[0] == t
    ensures OnItsWay(Step(s, Tick).s, t)
  {
    hide Kick, Requeue, Dispatch, Queue;
    var s0 := s.(micros := s.micros + MICROS_PER_TICK);
    var u := if s.running.Some? then s.running.value else 0;
    var s1 := Kick(s0, u).s;
    var s2 := Requeue(s1).s;
    KickEffect(s0, u);
    RequeueEffect(s1);
    DispatchEffect(s2);
    var q := Queue(s2.lists, Ready);
    assert Kicked(s0) == [t];
    assert q == Queue(s.lists, Ready) + [t] + Requeued(s1) && q[|Queue(s.lists, Ready)|] == t && q + [] == q;
    assert t in q && (t == q[0] || t in q[1..]);
  }

  lemma IrqReadies(s: State, c: CvId, t: Tid)
    requires Step(s, Irq(c)).Ok? && Queue(s.lists, CvQ(c)) != [] && Queue(s.lists, CvQ(c))[0] == t
    ensures OnItsWay(Step(s, Irq(c)).s, t)
  {
    hide WakeOldest, Queue;
    WakeOldestEffect(s, CvQ(c), if s.running.Some? then s.running.value else 0);
  }

  lemma NotifyReadies(s: State, x: Tid, c: CvId, r: Code, ch: Choice)
    requires Queue(s.lists, CvQ(c)) != []
    ensures Exec(s, x, Notify(c), r, ch).Ok? && OnItsWay(Exec(s, x, Notify(c), r, ch).s, Queue(s.lists, CvQ(c))[0])
  {
    hide Queue, Extract;
    ExtractEffect(s, x, CvQ(c), r, r);
    assert Head(CodeAt(Exec(s, x, Notify(c), r, ch).s.code, x)) == Unblock(Queue(s.lists, CvQ(c))[0]);
  }
}
