/**
 Steps that move whole groups of tasks, and calls into the kernel.
 */
module SchedGroups {
  import opened Sched
  import opened Wrappers
  import opened SchedInv
  import opened SchedMoves
  import opened SchedLocal
  import opened SchedNodes
  import opened SchedLives

  // ----- notify_all

  lemma SwapPlaces(s: State, c: CvId, k: nat)
    ensures forall t: Tid ::
      PlaceOf(SwapOut(s, c, k).place, t) == if PlaceOf(s.place,
      t) == In(CvQ(c)) then In(DrainQ(k)) else PlaceOf(s.place, t)
  {
    var place' := SwapOut(s, c, k).place;
    assert forall t: Tid ::
      PlaceOf(place', t) == if PlaceOf(s.place, t) == In(CvQ(c)) then In(DrainQ(k)) else PlaceOf(s.place, t);
  }

  lemma SwapLists(s: State, c: CvId, k: nat, drains: nat)
    requires Lists(s.lists, s.place, drains) && k < drains && Queue(s.lists, DrainQ(k)) == []
    ensures Lists(SwapOut(s, c, k).lists, SwapOut(s, c, k).place, drains)
  {
    hide Unique, Queue, PlaceOf;
    var q := Queue(s.lists, CvQ(c));
    SwapPlaces(s, c, k);
    var place' := SwapOut(s, c, k).place;
    var lists1 := QueueSet(s.lists, DrainQ(k), q);
    var lists' := QueueSet(lists1, CvQ(c), []);
    UniqueNone();
  }

  lemma UniqueNone()
    ensures Unique([])
  {
  }

  lemma SwapCargos(s: State, c: CvId, k: nat)
    requires Cargos(s.code, s.place)
    ensures Cargos(s.code, SwapOut(s, c, k).place)
  {
    hide Cargo, CodeAt, PlaceOf;
    SwapPlaces(s, c, k);
    var place' := SwapOut(s, c, k).place;
    forall u: Tid ensures CargoOk(CodeAt(s.code, u), place', u) {
      CargosOne(s.code, s.place, u);
    }
  }

  lemma SwapNodes(s: State, c: CvId, k: nat)
    requires Nodes(s.place, s.linked, s.slots, s.running)
    ensures Nodes(SwapOut(s, c, k).place, s.linked, s.slots, s.running)
  {
    hide PlaceOf;
    SwapPlaces(s, c, k);
    var place' := SwapOut(s, c, k).place;
  }

  lemma SwapStands(s: State, c: CvId, k: nat)
    requires Stands(s)
    ensures Stands(SwapOut(s, c, k))
  {
    hide Legal, Dying, Awaits, PlaceOf;
    SwapPlaces(s, c, k);
    var s' := SwapOut(s, c, k);
    forall t: Tid ensures TaskOk(Of(s', t)) {
      assert TaskOk(Of(s, t));
    }
  }

  /** A new local list, still empty. */
  lemma NewListKeeps(s: State, x: Tid)
    requires Inv(s)
    ensures Inv(s.(drainers := s.drainers + [x])) && Queue(s.lists, DrainQ(|s.drainers|)) == []
  {
    hide Nodes, Beds, Graves, Burials, Exclusive, Mutexes, Cargos, Families, Clock, TaskOk;
    var f, f' := FactsOf(s), FactsOf(s.(drainers := s.drainers + [x]));
    forall u: Tid ensures FitsOk(CodeAt(s.code, u), f', u) {
      MoreLists(CodeAt(s.code, u), f, x, u);
    }
    forall t: Tid ensures TaskOk(Of(s.(drainers := s.drainers + [x]), t)) {
      assert TaskOk(Of(s, t));
    }
  }

  lemma MoreLists(c: Code, f: Facts, x: Tid, u: Tid)
    requires FitsOk(c, f, u)
    ensures FitsOk(c, f.(drainers := f.drainers + [x]), u)
  {
    hide Has;
  }

  /** notify_all's swap moves every waiter, in order, to a list of its own. */
  lemma NotifyAllKeeps(s: State, x: Tid, c: CvId, r: Code)
    requires At(s, x, NotifyAll(c), r)
    ensures var k := |s.drainers|; Inv(Go(SwapOut(s.(drainers := s.drainers + [x]), c, k), x, Then(Drain(k), r)))
  {
    hide Lists, Nodes, Beds, Graves, Burials, Exclusive, Mutexes, Cargos, Fits, Families, Stands, Of, TaskOk, Clock,
      SwapOut, FitsOk, Cargo, Legal, Dying, Awaits;
    var k := |s.drainers|;
    var s1 := s.(drainers := s.drainers + [x]);
    NewListKeeps(s, x);
    StandIs(s1, x, NotifyAll(c), r);
    DrainFine(c, k, r, HeldBy(s1.held, x), FactsOf(s1), x);
    CodeStep(s1, x, NotifyAll(c), r, Then(Drain(k), r));
    var s0 := Go(s1, x, Then(Drain(k), r));
    SwapLists(s0, c, k, k + 1);
    SwapNodes(s0, c, k);
    SwapCargos(s0, c, k);
    SwapStands(s0, c, k);
    SwapPlaces(s0, c, k);
    SwapRest(s1, x, c, k, Then(Drain(k), r));
  }

  lemma SwapRest(s: State, x: Tid, c: CvId, k: nat, d: Code)
    ensures var s' := SwapOut(Go(s, x, d), c, k);
      s' == Go(SwapOut(s, c, k), x, d) && s' == Go(s, x, d).(lists := s'.lists, place := s'.place)
  {
  }

  lemma DrainFine(c: CvId, k: nat, r: Code, h: set<MutexId>, f: Facts, x: Tid)
    requires Stand(NotifyAll(c), r, h, f, x) && k < |f.drainers| && f.drainers[k] == x
    ensures Fine(Then(NotifyAll(c), r), Then(Drain(k), r), h, f, x)
  {
    hide FitsOk, Legal, Cargo, Awaits, Dying, Has;
    Unfold(NotifyAll(c), r, h, f, x);
    Unfold(Drain(k), r, h, f, x);
  }

  // ----- task_waker

  /** While the waker looks, nobody in WaitingTasks is running: its check of their states never turns it back. */
  lemma NoneAwake(s: State, x: Tid, r: Code, w: nat, t: Tid)
    requires At(s, x, WakerScan, r) && t in Sleepers(s.sleeping, w)
    ensures StateOf(s.state, t) == BLOCKED && PlaceOf(s.place, t) == Nowhere && LifeOf(s.life, t) == Alive && t != x
    ensures TaskOk(Of(s, t).(asleep := false, place := Carried(x)))
  {
    hide Lists, Graves, Burials, Mutexes, Cargos, Fits, Families, Legal, Dying, Awaits, MutexOk, FitsOk, FamilyOk;
    Running(s, x, WakerScan, r);
    Unfold(WakerScan, r, HeldBy(s.held, x), FactsOf(s), x);
    assert t in s.asleep;
    assert TaskOk(Of(s, t));
  }

  lemma SleeperPlaces(s: State, w: nat, x: Tid)
    ensures forall t: Tid ::
      PlaceOf(TakeSleepers(s, w, x).place, t) == if t in Sleepers(s.sleeping, w) then Carried(x) else PlaceOf(s.place,
      t)
  {
    var place' := TakeSleepers(s, w, x).place;
    assert forall t: Tid ::
      PlaceOf(place', t) == if t in Sleepers(s.sleeping, w) then Carried(x) else PlaceOf(s.place, t);
  }

  lemma SleeperBeds(s: State, w: nat, x: Tid)
    requires Beds(s.sleeping, s.asleep)
    ensures Beds(TakeSleepers(s, w, x).sleeping, TakeSleepers(s, w, x).asleep)
    ensures forall t: Tid :: t in TakeSleepers(s, w, x).asleep <==> t in s.asleep && t !in Sleepers(s.sleeping, w)
  {
    hide Unique;
    UniqueNone();
    var s' := TakeSleepers(s, w, x);
    forall v: nat ensures Sleepers(s'.sleeping, v) == if v == w then [] else Sleepers(s.sleeping, v) {
    }
  }

  lemma {:induction false} RousesFine(ts: seq<Tid>, k: Code, h: set<MutexId>, f: Facts, x: Tid)
    requires Legal(k, h) && FitsOk(k, f, x) && k.Then? && k.i.Acquire? && Awaits(k).NotWaiting?
    requires forall t :: t in ts ==> Fit(f, x, Rouse(t))
    ensures var c := Rouses(ts, k);
      Legal(c, h) && FitsOk(c, f, x) && Cargo(c) == multiset(ts) + Cargo(k) && Awaits(c).NotWaiting? && c.Then? &&
        (c.i.Acquire? || c.i.Rouse?)
  {
    hide FitsOk, Legal, Cargo, Awaits, Dying, Has;
    if ts != [] {
      RousesFine(ts[1..], k, h, f, x);
      Unfold(Rouse(ts[0]), Rouses(ts[1..], k), h, f, x);
      assert ts == [ts[0]] + ts[1..];
    }
  }

  lemma WakerCode(ts: seq<Tid>, r: Code, h: set<MutexId>, f: Facts, x: Tid)
    requires Stand(WakerScan, r, h, f, x) && forall t :: t in ts ==> Fit(f, x, Rouse(t))
    ensures var c := Then(Disown(WT), Rouses(ts, Then(Acquire(WT), Then(WakerScan, r))));
      Legal(c, h) && FitsOk(c, f, x) && Cargo(c) == multiset(ts) + Cargo(Then(WakerScan, r)) &&
        Awaits(c).NotWaiting? && !Dying(Then(WakerScan, r))
  {
    hide FitsOk, Legal, Cargo, Awaits, Dying, Has, Rouses, Stand;
    var k := Then(Acquire(WT), Then(WakerScan, r));
    AgainCode(r, h, f, x);
    RousesFine(ts, k, h - {WT}, f, x);
    Unfold(Disown(WT), Rouses(ts, k), h, f, x);
  }

  /** The waker's loop, entered again. */
  lemma AgainCode(r: Code, h: set<MutexId>, f: Facts, x: Tid)
    requires Stand(WakerScan, r, h, f, x)
    ensures var k := Then(Acquire(WT), Then(WakerScan, r));
      && Legal(k, h - {WT}) && FitsOk(k, f, x) && Cargo(k) == Cargo(Then(WakerScan, r)) && Awaits(k).NotWaiting? &&
        WT in h && !Dying(Then(WakerScan, r))
  {
    hide FitsOk, Legal, Cargo, Awaits, Dying, Has;
    PutBack(h, WT);
    Unfold(WakerScan, r, h, f, x);
    Unfold(Acquire(WT), Then(WakerScan, r), h - {WT}, f, x);
  }

  lemma SleeperCargos(s: State, w: nat, x: Tid, c: Code)
    requires Cargos(s.code, s.place) && Unique(Sleepers(s.sleeping, w))
    requires forall t :: t in Sleepers(s.sleeping, w) ==> PlaceOf(s.place, t) == Nowhere
    requires Cargo(c) == multiset(Sleepers(s.sleeping, w)) + Cargo(CodeAt(s.code, x))
    ensures Cargos(s.code[x := c], TakeSleepers(s, w, x).place)
  {
    hide Cargo, CodeAt, PlaceOf, Unique, Sleepers, TakeSleepers;
    var ts := Sleepers(s.sleeping, w);
    SleeperPlaces(s, w, x);
    var place' := TakeSleepers(s, w, x).place;
    var code' := CodeSet(s.code, x, c);
    forall u: Tid ensures CargoOk(CodeAt(code', u), place', u) {
      CargosOne(s.code, s.place, u);
      var bag: multiset<Tid> := multiset(ts);
      forall t: Tid ensures bag[t] == if t in ts then 1 else 0 {
        UniqueCount(ts, t);
      }
    }
  }

  lemma {:induction false} UniqueCount(q: seq<Tid>, t: Tid)
    requires Unique(q)
    ensures multiset(q)[t] == if t in q then 1 else 0
  {
    if q != [] {
      UniquePop(q);
      UniqueCount(q[1..], t);
      assert q == [q[0]] + q[1..];
    }
  }

  lemma WakerKeeps(s: State, x: Tid, w: nat, r: Code)
    requires At(s, x, WakerScan, r)
    ensures Inv(Go(TakeSleepers(s, w, x), x,
      Then(Disown(WT), Rouses(Sleepers(s.sleeping, w), Then(Acquire(WT), Then(WakerScan, r))))))
  {
    hide Lists, Nodes, Beds, Graves, Burials, Exclusive, Mutexes, Cargos, Fits, Families, Stands, Of, TaskOk, Clock,
      FitsOk, Cargo, Legal, Dying, Awaits, Unique, Rouses;
    var ts, i, f := Sleepers(s.sleeping, w), WakerScan, FactsOf(s);
    var c := Then(Disown(WT), Rouses(ts, Then(Acquire(WT), Then(WakerScan, r))));
    var s' := Go(TakeSleepers(s, w, x), x, c);
    Running(s, x, i, r);
    StandIs(s, x, i, r);
    forall t | t in ts ensures StateOf(s.state, t) == BLOCKED && PlaceOf(s.place, t) == Nowhere &&
      LifeOf(s.life, t) == Alive {
      NoneAwake(s, x, r, w, t);
    }
    WakerCode(ts, r, HeldBy(s.held, x), f, x);
    BedUnique(s, w);
    SleeperBeds(s, w, x);
    SleeperCargos(s, w, x, c);
    SleeperLists(s, w, x);
    FitsGo(s.code, f, x, c);
    MutexesGo(s.code, s.held, s.locked, s.owner, x, c);
    CodeFamilies(s, x, c);
    SleeperStands(s, x, w, r, c);
  }

  lemma BedUnique(s: State, w: nat)
    requires Beds(s.sleeping, s.asleep)
    ensures Unique(Sleepers(s.sleeping, w))
  {
  }

  lemma SleeperLists(s: State, w: nat, x: Tid)
    requires Lists(s.lists, s.place, |s.drainers|) && Nodes(s.place, s.linked, s.slots, s.running)
    requires forall t :: t in Sleepers(s.sleeping, w) ==> PlaceOf(s.place, t) == Nowhere
    ensures Lists(s.lists, TakeSleepers(s, w, x).place, |s.drainers|)
    ensures Nodes(TakeSleepers(s, w, x).place, s.linked, s.slots, s.running)
  {
    hide PlaceOf, Unique, Queue, Sleepers, TakeSleepers;
    SleeperPlaces(s, w, x);
    var place' := TakeSleepers(s, w, x).place;
  }

  lemma SleeperStands(s: State, x: Tid, w: nat, r: Code, c: Code)
    requires At(s, x, WakerScan, r) && Legal(c, HeldBy(s.held, x)) && !Dying(Then(WakerScan, r)) && !Head(c).SleepBlock?
    ensures Stands(Go(TakeSleepers(s, w, x), x, c))
  {
    hide Lists, Nodes, Beds, Graves, Burials, Exclusive, Mutexes, Cargos, Fits, Families, Legal, Dying, Awaits, Clock,
      FitsOk, Sleepers, TaskOk;
    var s' := Go(TakeSleepers(s, w, x), x, c);
    Running(s, x, WakerScan, r);
    forall t: Tid ensures TaskOk(Of(s', t)) {
      SleeperView(s, x, w, r, c, t);
    }
  }

  lemma SleeperView(s: State, x: Tid, w: nat, r: Code, c: Code, t: Tid)
    requires At(s, x, WakerScan, r) && Legal(c, HeldBy(s.held, x)) && !Dying(Then(WakerScan, r)) && !Head(c).SleepBlock?
    ensures TaskOk(Of(Go(TakeSleepers(s, w, x), x, c), t))
  {
    hide Lists, Nodes, Beds, Graves, Burials, Exclusive, Mutexes, Cargos, Fits, Families, Legal, Dying, Awaits, Clock,
      FitsOk, Sleepers, PlaceOf, CodeAt, TakeSleepers;
    var s' := Go(TakeSleepers(s, w, x), x, c);
    var code' := CodeSet(s.code, x, c);
    SleeperPlaces(s, w, x);
    SleeperBeds(s, w, x);
    SleeperSame(s, w, x);
    Running(s, x, WakerScan, r);
    assert TaskOk(Of(s, t));
    if t in Sleepers(s.sleeping, w) {
      NoneAwake(s, x, r, w, t);
    }
  }

  lemma SleeperSame(s: State, w: nat, x: Tid)
    ensures var s' := TakeSleepers(s, w, x); s' == s.(sleeping := s'.sleeping, asleep := s'.asleep, place := s'.place)
  {
  }
}
