/**
 The moves the steps are made of, each against the one part of the invariant it touches.
 */
module SchedMoves {
  import opened Sched
  import opened Wrappers
  import opened SchedInv

  // ----- reading after writing

  lemma QueueSet(m: Queues, k: ListId, v: seq<Tid>) returns (m': Queues)
    ensures m' == m[k := v] && forall j: ListId :: Queue(m', j) == if j == k then v else Queue(m, j)
  {
    m' := m[k := v];
  }

  lemma PlaceSet(m: Places, k: Tid, v: Place) returns (m': Places)
    ensures m' == m[k := v] && forall j: Tid :: PlaceOf(m', j) == if j == k then v else PlaceOf(m, j)
  {
    m' := m[k := v];
  }

  lemma CodeSet(m: Codes, k: Tid, v: Code) returns (m': Codes)
    ensures m' == m[k := v] && forall j: Tid :: CodeAt(m', j) == if j == k then v else CodeAt(m, j)
  {
    m' := m[k := v];
  }

  lemma StateSet(m: States, k: Tid, v: TaskState) returns (m': States)
    ensures m' == m[k := v] && forall j: Tid :: StateOf(m', j) == if j == k then v else StateOf(m, j)
  {
    m' := m[k := v];
  }

  lemma NumberSet(m: Numbers, k: Tid, v: int) returns (m': Numbers)
    ensures m' == m[k := v] && forall j: Tid :: NumberOf(m', j) == if j == k then v else NumberOf(m, j)
  {
    m' := m[k := v];
  }

  lemma HeldSet(m: Holds, k: Tid, v: set<MutexId>) returns (m': Holds)
    ensures m' == m[k := v] && forall j: Tid :: HeldBy(m', j) == if j == k then v else HeldBy(m, j)
  {
    m' := m[k := v];
  }

  lemma LifeSet(m: Lives, k: Tid, v: Life) returns (m': Lives)
    ensures m' == m[k := v] && forall j: Tid :: LifeOf(m', j) == if j == k then v else LifeOf(m, j)
  {
    m' := m[k := v];
  }

  lemma BedSet(m: Bedroom, k: nat, v: seq<Tid>) returns (m': Bedroom)
    ensures m' == m[k := v] && forall j: nat :: Sleepers(m', j) == if j == k then v else Sleepers(m, j)
  {
    m' := m[k := v];
  }

  // ----- lists

  lemma UniquePush(q: seq<Tid>, t: Tid)
    requires Unique(q) && t !in q
    ensures Unique(q + [t])
  {
  }

  lemma UniquePop(q: seq<Tid>)
    requires Unique(q) && q != []
    ensures Unique(q[1..]) && q[0] !in q[1..] && forall t :: t in q <==> t == q[0] || t in q[1..]
  {
    assert q == [q[0]] + q[1..];
  }

  lemma ListsPush(lists: Queues, place: Places, drains: nat, l: ListId, t: Tid)
    requires Lists(lists, place, drains) && !PlaceOf(place, t).In? && !l.DrainQ?
    ensures Lists(lists[l := Queue(lists, l) + [t]], place[t := In(l)], drains)
  {
    hide Unique, Queue, PlaceOf;
    var lists' := QueueSet(lists, l, Queue(lists, l) + [t]);
    var place' := PlaceSet(place, t, In(l));
    assert t !in Queue(lists, l);
    UniquePush(Queue(lists, l), t);
  }

  lemma ListsPop(lists: Queues, place: Places, drains: nat, l: ListId, p: Place)
    requires Lists(lists, place, drains) && Queue(lists, l) != [] && !p.In?
    ensures Lists(lists[l := Queue(lists, l)[1..]], place[Queue(lists, l)[0] := p], drains)
    ensures PlaceOf(place, Queue(lists, l)[0]) == In(l)
  {
    hide Unique, Queue, PlaceOf;
    var q := Queue(lists, l);
    var lists' := QueueSet(lists, l, q[1..]);
    var place' := PlaceSet(place, q[0], p);
    UniquePop(q);
    assert q[0] in q;
    forall k, t: Tid ensures t in Queue(lists', k) <==> PlaceOf(place', t) == In(k) {
      assert t in Queue(lists, k) <==> PlaceOf(place, t) == In(k);
    }
    forall k: nat | k >= drains ensures Queue(lists', DrainQ(k)) == [] {
      assert Queue(lists, DrainQ(k)) == [];
    }
  }

  lemma ListsMove(lists: Queues, place: Places, drains: nat, t: Tid, p: Place)
    requires Lists(lists, place, drains) && !PlaceOf(place, t).In? && !p.In?
    ensures Lists(lists, place[t := p], drains)
  {
    hide Unique, Queue, PlaceOf;
    var place' := PlaceSet(place, t, p);
  }

  // ----- nodes

  lemma NodesPush(place: Places, linked: set<Tid>, slots: set<Tid>, running: Option<Tid>, l: ListId, t: Tid)
    requires Nodes(place, linked, slots, running) && t !in slots
    ensures Nodes(place[t := In(l)], linked + {t}, slots, running)
  {
  }

  lemma NodesPop(place: Places, linked: set<Tid>, slots: set<Tid>, running: Option<Tid>, t: Tid, p: Place)
    requires Nodes(place, linked, slots, running) && t !in slots && !p.In? && !p.Slot?
    requires (p.OnCpu? ==> running == Some(t))
    ensures Nodes(place[t := p], linked - {t}, slots, running)
  {
  }

  // ----- cargo

  /** Code that has the same tasks in its hands. */
  lemma CargosGo(code: Codes, place: Places, x: Tid, c: Code)
    requires Cargos(code, place) && Cargo(c) == Cargo(CodeAt(code, x))
    ensures Cargos(code[x := c], place)
  {
    hide Cargo, CodeAt, PlaceOf;
    var code' := CodeSet(code, x, c);
    CargosOne(code, place, x);
  }

  lemma CargosOne(code: Codes, place: Places, u: Tid)
    requires Cargos(code, place)
    ensures CargoOk(CodeAt(code, u), place, u)
  {
  }

  /** Code that takes a task into its hands. */
  lemma CargosTake(code: Codes, place: Places, x: Tid, t: Tid, c: Code)
    requires Cargos(code, place) && !PlaceOf(place, t).Carried? && Cargo(c) == Cargo(CodeAt(code, x)) + multiset{t}
    ensures Cargos(code[x := c], place[t := Carried(x)])
  {
    hide Cargo, CodeAt, PlaceOf;
    var code' := CodeSet(code, x, c);
    var place' := PlaceSet(place, t, Carried(x));
    CargosOne(code, place, x);
  }

  /** Code that lets go of a task. */
  lemma CargosGive(code: Codes, place: Places, x: Tid, t: Tid, p: Place, c: Code)
    requires Cargos(code, place) && PlaceOf(place, t) == Carried(x) && !p.Carried?
    requires Cargo(c) + multiset{t} == Cargo(CodeAt(code, x))
    ensures Cargos(code[x := c], place[t := p])
  {
    hide Cargo, CodeAt, PlaceOf;
    var code' := CodeSet(code, x, c);
    var place' := PlaceSet(place, t, p);
    CargosOne(code, place, x);
  }

  /** A node that moves between places that are nobody's hands. */
  lemma CargosMove(code: Codes, place: Places, t: Tid, p: Place)
    requires Cargos(code, place) && !PlaceOf(place, t).Carried? && !p.Carried?
    ensures Cargos(code, place[t := p])
  {
    hide Cargo, CodeAt, PlaceOf;
    var place' := PlaceSet(place, t, p);
  }

  // ----- what pending instructions rely on

  lemma FitsGo(code: Codes, f: Facts, x: Tid, c: Code)
    requires Fits(code, f) && FitsOk(c, f, x)
    ensures Fits(code[x := c], f)
  {
    hide FitsOk, CodeAt;
    var code' := CodeSet(code, x, c);
  }

  /** Nobody has the task in hand. */
  ghost predicate Unheld(code: Codes, t: Tid) { forall u: Tid :: Cargo(CodeAt(code, u))[t] == 0 }

  lemma UnheldAt(code: Codes, place: Places, t: Tid)
    requires Cargos(code, place) && !PlaceOf(place, t).Carried?
    ensures Unheld(code, t)
  {
    hide Cargo, CodeAt, PlaceOf;
    forall u: Tid ensures Cargo(CodeAt(code, u))[t] == 0 {
      CargosOne(code, place, u);
    }
  }

  /** Facts change about task t only, which is not dead, no zombie and not in waitpid. */
  ghost predicate FactsOff(f: Facts, f': Facts, t: Tid) {
    && StateOf(f.state, t) != ZOMBIE && StateOf(f.state, t) != WAITPID_BLOCKED && LifeOf(f.life, t) != Dead
    && (forall u: Tid ::
      u != t ==> StateOf(f'.state, u) == StateOf(f.state, u) && LifeOf(f'.life, u) == LifeOf(f.life, u))
    && (forall u: Tid ::
      u != t ==> NumberOf(f'.parent, u) == NumberOf(f.parent, u) && NumberOf(f'.woken, u) == NumberOf(f.woken, u))
    && (forall u: Tid :: u != t ==> (u in f'.registered <==> u in f.registered))
    && (f.graves ==> f'.graves) && f'.drainers == f.drainers
  }

  /** Code that does not have the task in its hands does not notice. */
  lemma FitsOkOff(c: Code, f: Facts, f': Facts, u: Tid, t: Tid)
    requires FitsOk(c, f, u) && Cargo(c)[t] == 0 && FactsOff(f, f', t)
    requires (NumberOf(f'.parent, u) == NumberOf(f.parent, u) && NumberOf(f'.woken, u) == NumberOf(f.woken, u)) ||
      c.Done?
    ensures FitsOk(c, f', u)
  {
    hide Has, StateOf, LifeOf, NumberOf, Cargo;
    forall i | Has(c, i) ensures Fit(f', u, i) {
      assert Fit(f, u, i);
      HasThen(c, i);
      if Carries(i) {
        HasCargo(c, i);
      }
    }
  }

  lemma HasThen(c: Code, i: Instr)
    requires Has(c, i)
    ensures c.Then?
  {
  }

  /** Nobody but x has the task in hand, and what x does next fits. */
  lemma FitsOff(code: Codes, f: Facts, f': Facts, x: Tid, c: Code, t: Tid)
    requires Fits(code, f) && FactsOff(f, f', t) && FitsOk(c, f', x)
    requires t == x || (NumberOf(f'.parent, t) == NumberOf(f.parent, t) &&
      NumberOf(f'.woken, t) == NumberOf(f.woken, t)) || CodeAt(code, t).Done?
    requires forall u: Tid :: u != x ==> Cargo(CodeAt(code, u))[t] == 0
    ensures Fits(code[x := c], f')
  {
    hide CodeAt, FitsOk, StateOf, LifeOf, Cargo;
    var code' := CodeSet(code, x, c);
    forall u: Tid ensures FitsOk(CodeAt(code', u), f', u) {
      if u != x {
        FitsOkOff(CodeAt(code, u), f, f', u, t);
      }
    }
  }

  /** Nobody has the task in hand. */
  lemma FitsFree(code: Codes, f: Facts, f': Facts, t: Tid)
    requires Fits(code, f) && FactsOff(f, f', t) && Unheld(code, t)
    requires NumberOf(f'.parent, t) == NumberOf(f.parent, t) && NumberOf(f'.woken, t) == NumberOf(f.woken, t)
    ensures Fits(code, f')
  {
    hide CodeAt, FitsOk, StateOf, LifeOf, Cargo;
    forall u: Tid ensures FitsOk(CodeAt(code, u), f', u) {
      FitsOkOff(CodeAt(code, u), f, f', u, t);
    }
  }

  // ----- one task changes, or two, and the others do not

  ghost predicate Off(s: State, s': State, x: Tid) { forall u: Tid :: u != x ==> Of(s', u) == Of(s, u) }

  lemma StandsOff(s: State, s': State, x: Tid)
    requires Stands(s) && Off(s, s', x) && TaskOk(Of(s', x))
    ensures Stands(s')
  {
    hide TaskOk, Of;
  }

  lemma StandsOff2(s: State, s': State, x: Tid, y: Tid)
    requires Stands(s) && TaskOk(Of(s', x)) && TaskOk(Of(s', y))
    requires forall u: Tid :: u != x && u != y ==> Of(s', u) == Of(s, u)
    ensures Stands(s')
  {
    hide TaskOk, Of;
  }

  /** What families rest on. */
  ghost predicate SameKin(s: State, s': State, u: Tid) {
    && CodeAt(s'.code, u) == CodeAt(s.code, u) && StateOf(s'.state, u) == StateOf(s.state, u)
    && HeldBy(s'.held, u) == HeldBy(s.held, u) && NumberOf(s'.woken, u) == NumberOf(s.woken, u)
    && NumberOf(s'.parent, u) == NumberOf(s.parent, u)
  }

  /** One task changes that nobody relied on being gone. */
  lemma FamiliesOff(s: State, s': State, x: Tid)
    requires Families(s.code, s.state, s.held, s.parent, s.woken)
    requires forall u: Tid :: u != x ==> SameKin(s, s', u)
    requires !Gone(s.code, s.state, s.held, x) && FamilyOk(s'.code, s'.state, s'.held, s'.parent, s'.woken, x)
    ensures Families(s'.code, s'.state, s'.held, s'.parent, s'.woken)
  {
    hide CodeAt, StateOf, HeldBy, NumberOf, Awaits;
    forall p: Tid ensures FamilyOk(s'.code, s'.state, s'.held, s'.parent, s'.woken, p) {
      assert FamilyOk(s.code, s.state, s.held, s.parent, s.woken, p);
      assert p != x ==> SameKin(s, s', p);
      var w := NumberOf(s.woken, p);
      assert w >= 0 && w != x ==> SameKin(s, s', w);
    }
  }

  /** Waking or blocking a task that is no zombie and not in waitpid is no matter to families. */
  lemma FamiliesState(code: Codes, state: States, held: Holds, parent: Numbers, woken: Numbers, t: Tid, st: TaskState)
    requires Families(code, state, held, parent, woken)
    requires StateOf(state, t) != ZOMBIE && StateOf(state, t) != WAITPID_BLOCKED && st != ZOMBIE
    requires st != WAITPID_BLOCKED
    ensures Families(code, state[t := st], held, parent, woken)
  {
    hide CodeAt, StateOf, HeldBy, NumberOf, Awaits;
    var state' := StateSet(state, t, st);
    forall p: Tid ensures FamilyOk(code, state', held, parent, woken, p) {
      assert FamilyOk(code, state, held, parent, woken, p);
    }
  }

  // ----- mutexes

  lemma MutexesGo(code: Codes, held: Holds, locked: set<MutexId>, owner: map<MutexId, Tid>, x: Tid, c: Code)
    requires Mutexes(code, held, locked, owner) && MutexOk(c, HeldBy(held, x), locked, owner, x)
    ensures Mutexes(code[x := c], held, locked, owner)
  {
    hide CodeAt, HeldBy, MutexOk;
    var code' := CodeSet(code, x, c);
  }

  /** A task takes a free mutex, or gives one of its own up. */
  lemma MutexesHeld(code: Codes, held: Holds, locked: set<MutexId>, owner: map<MutexId, Tid>, x: Tid, c: Code,
      m: MutexId, take: bool)
    requires Mutexes(code, held, locked, owner) && Exclusive(held)
    requires if take then m !in locked && Head(c) == Owner(m)
      else m in HeldBy(held, x) && m !in owner && Head(c) != Owner(m) && Head(c) != Release(m)
    requires forall n :: n != m && n in HeldBy(held, x) ==> Plain(CodeAt(code, x), n) && Plain(c, n)
    ensures var h' := if take then HeldBy(held, x) + {m} else HeldBy(held, x) - {m};
      var locked' := if take then locked + {m} else locked - {m};
      Mutexes(code[x := c], held[x := h'], locked', owner) && Exclusive(held[x := h'])
  {
    hide CodeAt, HeldBy, Head;
    var h' := if take then HeldBy(held, x) + {m} else HeldBy(held, x) - {m};
    var locked' := if take then locked + {m} else locked - {m};
    var code' := CodeSet(code, x, c);
    var held' := HeldSet(held, x, h');
    forall u: Tid ensures MutexOk(CodeAt(code', u), HeldBy(held', u), locked', owner, u) {
      assert MutexOk(CodeAt(code, u), HeldBy(held, u), locked, owner, u);
      assert MutexOk(CodeAt(code, x), HeldBy(held, x), locked, owner, x);
    }
  }

  /** The code is neither about to name itself owner of n nor to release it. */
  predicate Plain(c: Code, n: MutexId) { Head(c) != Owner(n) && Head(c) != Release(n) }

  lemma MutexesOne(code: Codes, held: Holds, locked: set<MutexId>, owner: map<MutexId, Tid>, u: Tid)
    requires Mutexes(code, held, locked, owner)
    ensures MutexOk(CodeAt(code, u), HeldBy(held, u), locked, owner, u)
  {
  }

  /** A mutex has no owner on record while its holder is about to release it, or to claim it. */
  lemma NobodyOwns(code: Codes, held: Holds, locked: set<MutexId>, owner: map<MutexId, Tid>, x: Tid, m: MutexId)
    requires Mutexes(code, held, locked, owner) && Exclusive(held) && m in HeldBy(held, x) && !Plain(CodeAt(code, x), m)
    ensures m !in owner
  {
    hide CodeAt, HeldBy;
    MutexesOne(code, held, locked, owner, x);
    if m in owner {
      MutexesOne(code, held, locked, owner, owner[m]);
    }
  }

  /** The holder claims the mutex. */
  lemma MutexesClaim(code: Codes, held: Holds, locked: set<MutexId>, owner: map<MutexId, Tid>, x: Tid, c: Code,
      m: MutexId)
    requires Mutexes(code, held, locked, owner) && Exclusive(held) && m in HeldBy(held, x)
    requires Head(CodeAt(code, x)) == Owner(m)
    requires forall n :: n in HeldBy(held, x) ==> Plain(c, n)
    ensures Mutexes(code[x := c], held, locked, owner[m := x])
  {
    hide CodeAt, HeldBy, Head;
    var code' := CodeSet(code, x, c);
    NobodyOwns(code, held, locked, owner, x, m);
    forall u: Tid ensures MutexOk(CodeAt(code', u), HeldBy(held, u), locked, owner[m := x], u) {
      MutexesOne(code, held, locked, owner, u);
    }
  }

  /** The holder takes its name off, about to release. */
  lemma MutexesDisown(code: Codes, held: Holds, locked: set<MutexId>, owner: map<MutexId, Tid>, x: Tid, c: Code,
      m: MutexId)
    requires Mutexes(code, held, locked, owner) && Exclusive(held) && m in HeldBy(held, x) && Head(c) == Release(m)
    requires forall n :: n in HeldBy(held, x) ==> Plain(CodeAt(code, x), n)
    ensures Mutexes(code[x := c], held, locked, owner - {m})
  {
    hide CodeAt, HeldBy, Head;
    var code' := CodeSet(code, x, c);
    MutexesOne(code, held, locked, owner, x);
    forall u: Tid ensures MutexOk(CodeAt(code', u), HeldBy(held, u), locked, owner - {m}, u) {
      MutexesOne(code, held, locked, owner, u);
    }
  }
}
