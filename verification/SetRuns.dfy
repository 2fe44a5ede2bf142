/** Whole runs over one machine set: allocation passes, and between them the machine controller
    binding and releasing machines. */
module SetRuns {
  import opened Ids
  import opened Cosi
  import opened OmniApi
  import opened Kube
  import opened Allocation
  import opened MachineAllocator
  import opened MachineControl

  /** The objects of the set that are not, and that are, being deleted, the machines bound to it in
      Omni, and the objects that carry the finalizer. */
  datatype SetView = SetView(active: set<Id>, leaving: set<Id>, bound: set<Id>, guarded: set<Id>)
  {
    ghost predicate Valid() {
      active !! leaving && leaving <= guarded <= active + leaving
    }

    /** Machines the set uses or will adopt. */
    ghost function Occupied(): set<Id> {
      set m | m in active + bound && (m in active || m !in leaving)
    }

    ghost function Members(): set<Id> { set m | m in active + leaving + bound }
  }

  datatype Event =
    | AllocationPass(s: Situation, p: Plan, done: Plan, elsewhere: set<Id>)
    | Guard(m: Id)
    | Bind(m: Id)
    | Unbind(m: Id)
    | Gone(m: Id)
    | Delete(m: Id)

  /** An evicted machine without the finalizer is gone at once. A create that finds an object of
      another set, as it does for the names `elsewhere`, adds nothing to this one. */
  ghost function AfterPass(v: SetView, done: Plan, elsewhere: set<Id>): SetView {
    SetView(v.active + (done.adopt + done.create - elsewhere) - done.evict, v.leaving + done.evict * v.guarded,
      v.bound, v.guarded)
  }

  ghost predicate Reads(v: SetView, s: Situation) {
    s.listed == v.active && s.leaving == v.leaving && s.bound == v.bound
  }

  ghost predicate Next(v: SetView, e: Event, v': SetView) {
    match e
    case AllocationPass(s, p, done, elsewhere) =>
      && Reads(v, s) && ThePlan(s, p) && PartOf(done, p)
      && elsewhere !! v.active + v.leaving && v' == AfterPass(v, done, elsewhere)
    case Guard(m) => m in v.active && v' == v.(guarded := v.guarded + {m})
    case Bind(m) => m in v.active && m in v.guarded && v' == v.(bound := v.bound + {m})
    case Unbind(m) => v' == v.(bound := v.bound - {m})
    case Gone(m) => m in v.leaving && m !in v.bound && v' == v.(leaving := v.leaving - {m}, guarded := v.guarded - {m})
    case Delete(m) =>
      m in v.active && v' == v.(active := v.active - {m}, leaving := v.leaving + ({m} * v.guarded))
  }

  datatype SetRun = SetRun(views: seq<SetView>, events: seq<Event>)
  {
    ghost predicate Valid() {
      && |views| == |events| + 1 && views[0].Valid()
      && forall i :: 0 <= i < |events| ==> Next(views[i], events[i], views[i + 1])
    }
  }

  lemma PlanFacts(v: SetView, s: Situation, p: Plan)
    requires Reads(v, s) && ThePlan(s, p) && v.Valid()
    ensures IsPlan(s, p) && s.Active() == v.Occupied()
    ensures p.adopt == v.Occupied() - v.active && p.create !! v.Members() && p.evict <= v.Occupied()
  {
  }

  lemma NextIsValid(v: SetView, e: Event, v': SetView)
    requires v.Valid() && Next(v, e, v')
    ensures v'.Valid()
  {
    if e.AllocationPass? {
      PlanFacts(v, e.s, e.p);
      PassIsValid(v, e.done, e.elsewhere);
    }
  }

  lemma PassIsValid(v: SetView, done: Plan, elsewhere: set<Id>)
    requires v.Valid() && done.adopt <= v.Occupied() - v.active && done.create !! v.Members() && done.evict <= v.Occupied()
    requires done.evict != {} ==> done.evict <= v.active + done.adopt
    ensures AfterPass(v, done, elsewhere).Valid()
  {
  }

  lemma {:induction false} RunIsValid(r: SetRun, i: nat)
    requires r.Valid() && i < |r.views|
    ensures r.views[i].Valid()
  {
    if i > 0 {
      RunIsValid(r, i - 1);
      NextIsValid(r.views[i - 1], r.events[i - 1], r.views[i]);
    }
  }

  // ── No over-allocation ───────────────────────────────────────────────────────

  lemma PassBound(v: SetView, s: Situation, p: Plan, done: Plan, elsewhere: set<Id>)
    requires v.Valid() && Reads(v, s) && ThePlan(s, p) && PartOf(done, p)
    ensures AfterPass(v, done, elsewhere).Occupied() <= v.Occupied() + done.create
    ensures p.create == {} || |v.Occupied() + p.create| <= s.desired
  {
    PlanFacts(v, s, p);
    OccupiedAfter(v, done, elsewhere);
  }

  lemma OccupiedAfter(v: SetView, done: Plan, elsewhere: set<Id>)
    requires v.Valid() && done.adopt <= v.Occupied()
    ensures AfterPass(v, done, elsewhere).Occupied() <= v.Occupied() + done.create
  {
  }

  lemma NextBound(v: SetView, e: Event, v': SetView, desired: nat)
    requires v.Valid() && Next(v, e, v') && (e.AllocationPass? ==> e.s.desired == desired)
    ensures |v'.Occupied()| <= desired || |v'.Occupied()| <= |v.Occupied()|
  {
    if e.AllocationPass? {
      PassBound(v, e.s, e.p, e.done, e.elsewhere);
      SubsetSize(v'.Occupied(), v.Occupied() + e.p.create);
      if e.p.create == {} { SubsetSize(v'.Occupied(), v.Occupied()); }
    } else {
      SubsetSize(v'.Occupied(), v.Occupied());
    }
  }

  ghost predicate Desires(r: SetRun, desired: nat) {
    forall i :: 0 <= i < |r.events| && r.events[i].AllocationPass? ==> r.events[i].s.desired == desired
  }

  /** With a constant number of replicas, the machines a set uses or will adopt never exceed that
      number, or the initial one if it was larger, however passes fail and bindings come and go. */
  lemma {:induction false} NoOverAllocation(r: SetRun, desired: nat, i: nat)
    requires r.Valid() && Desires(r, desired) && i < |r.views|
    ensures |r.views[i].Occupied()| <= desired || |r.views[i].Occupied()| <= |r.views[0].Occupied()|
  {
    if i > 0 {
      NoOverAllocation(r, desired, i - 1);
      RunIsValid(r, i - 1);
      NextBound(r.views[i - 1], r.events[i - 1], r.views[i], desired);
    }
  }

  /** A scale-up pass that succeeds leaves exactly the desired number, all with an object: in this set,
      unless a create found one in another set. */
  lemma ScaleUpFills(v: SetView, s: Situation, p: Plan, elsewhere: set<Id>)
    requires v.Valid() && Reads(v, s) && ThePlan(s, p) && |v.Occupied()| < s.desired && p.verdict == Allocated
    requires elsewhere !! v.active
    ensures |Kept(s, p)| == s.desired && AfterPass(v, p, elsewhere).active == Kept(s, p) - elsewhere
    ensures elsewhere == {} ==> AfterPass(v, p, elsewhere).Occupied() == Kept(s, p)
  {
    PlanFacts(v, s, p);
    ScaleUpIsExact(s, p);
    FilledSets(v, s, p, elsewhere);
  }

  lemma FilledSets(v: SetView, s: Situation, p: Plan, elsewhere: set<Id>)
    requires v.Valid() && s.Active() == v.Occupied() && p.evict == {} && p.adopt == v.Occupied() - v.active
    requires p.create !! v.Members() && elsewhere !! v.active
    ensures AfterPass(v, p, elsewhere).active == Kept(s, p) - elsewhere
    ensures elsewhere == {} ==> AfterPass(v, p, elsewhere).Occupied() == Kept(s, p)
  {
  }

  /** An evicted machine leaves its binding behind, for the next pass to adopt, exactly when it is bound
      and its object does not carry the finalizer. */
  lemma AdoptedAgainIff(v: SetView, s: Situation, p: Plan, done: Plan, elsewhere: set<Id>, m: Id)
    requires v.Valid() && Reads(v, s) && ThePlan(s, p) && PartOf(done, p) && m in done.evict
    ensures
      var v' := AfterPass(v, done, elsewhere);
      m in v'.Occupied() && m !in v'.active <==> m in v.bound && m !in v.guarded
  {
    PlanFacts(v, s, p);
  }

  // ── The events are what the controllers do ───────────────────────────────────

  ghost function ViewOf(objects: Objects, s: Store, t: Target): SetView {
    SetView(Listed(objects, t, false), Listed(objects, t, true), BoundTo(s, t.setId),
      set n | n in MachinesIn(objects, t.cluster, t.setId) && objects[n].finalizer)
  }

  /** An allocation pass with a current listing, finished or not, is an event of these runs. */
  lemma PassIsEvent(was: Objects, now: Objects, store: Store, store': Store, s: Situation, p: Plan, done: Plan, t: Target)
    requires ThePlan(s, p) && PartOf(done, p) && Carried(was, now, s, done, t)
    requires Reads(ViewOf(was, store, t), s) && BoundTo(store', t.setId) == BoundTo(store, t.setId)
    requires ViewOf(was, store, t).Valid()
    ensures
      Next(ViewOf(was, store, t), AllocationPass(s, p, done, (done.adopt + done.create) * was.Keys), ViewOf(now, store', t))
  {
    PassFits(ViewOf(was, store, t), s, p, done);
    PassObjects(was, now, s, done, t);
  }

  lemma PassFits(v: SetView, s: Situation, p: Plan, done: Plan)
    requires v.Valid() && Reads(v, s) && ThePlan(s, p) && PartOf(done, p)
    ensures done.adopt + done.create !! v.active + v.leaving && done.evict <= v.active + done.adopt
  {
    PlanFacts(v, s, p);
  }

  lemma PassObjects(was: Objects, now: Objects, s: Situation, done: Plan, t: Target)
    requires Carried(was, now, s, done, t) && done.adopt + done.create !! s.listed + s.leaving
    requires s.listed == Listed(was, t, false) && s.leaving == Listed(was, t, true)
    requires done.evict <= s.listed + done.adopt
    ensures ViewOf(now, map[], t) == AfterPass(ViewOf(was, map[], t), done, (done.adopt + done.create) * was.Keys)
  {
    var mid := Applied(was, done, NewMachine(t));
    AppliedView(was, done, t);
    SyncedView(mid, now, s.listed - done.evict, t);
  }

  lemma AppliedView(was: Objects, done: Plan, t: Target)
    requires done.adopt + done.create !! Listed(was, t, false) + Listed(was, t, true)
    requires done.evict <= Listed(was, t, false) + done.adopt
    ensures
      ViewOf(Applied(was, done, NewMachine(t)), map[], t)
      == AfterPass(ViewOf(was, map[], t), done, (done.adopt + done.create) * was.Keys)
  {
    assert MachinesIn(was, t.cluster, t.setId) == Listed(was, t, false) + Listed(was, t, true);
  }

  lemma SyncedView(mid: Objects, now: Objects, names: set<Id>, t: Target)
    requires SyncedOn(mid, now, names, t)
    requires forall n :: n in names && n in mid ==> mid[n].cluster == t.cluster && mid[n].setId == t.setId
    ensures ViewOf(now, map[], t) == ViewOf(mid, map[], t)
  {
    forall n | n in mid
      ensures now[n].deleting == mid[n].deleting && now[n].finalizer == mid[n].finalizer
      ensures now[n].cluster == mid[n].cluster && now[n].setId == mid[n].setId
    {
    }
    assert MachinesIn(now, t.cluster, t.setId) == MachinesIn(mid, t.cluster, t.setId);
  }

  /** At most two events: the last case is an unbinding and the end of the object in one pass. */
  ghost predicate AtMostTwo(v: SetView, v': SetView, m: Id) {
    || v' == v || Next(v, Guard(m), v') || Next(v, Bind(m), v') || Next(v, Unbind(m), v')
    || (m in v.leaving && v' == SetView(v.active, v.leaving - {m}, v.bound - {m}, v.guarded - {m}))
  }

  /** What a machine pass does to a set, whichever set its machine is in. */
  lemma MachinePassIsEvents(was: Objects, s: Store, now: Objects, s': Store, n: Id, t: Target)
    requires PassStep(was, s, now, s', n)
    requires n in was ==> was[n].spec.setId == was[n].setId && was[n].spec.cluster == was[n].cluster
    requires forall m :: m in was && was[m].setId == t.setId ==> was[m].cluster == t.cluster
    ensures AtMostTwo(ViewOf(was, s, t), ViewOf(now, s', t), n)
  {
    if n in was && was[n].deleting && was[n].finalizer {
      ReleaseIsEvents(was, s, now, s', n, t);
    } else if n in was && was[n].finalizer {
      ConvergenceIsEvents(was, s, now, s', n, t);
    }
  }

  lemma ReleaseIsEvents(was: Objects, s: Store, now: Objects, s': Store, n: Id, t: Target)
    requires n in was && TearEffect(s, s', MachineKeys(s, was[n].spec.cluster, n), now != was)
    requires was[n].deleting && was[n].finalizer && (now == was || now == was - {n})
    ensures AtMostTwo(ViewOf(was, s, t), ViewOf(now, s', t), n)
  {
    var v, v' := ViewOf(was, s, t), ViewOf(now, s', t);
    assert v'.bound == v.bound || v'.bound == v.bound - {n};
    if now != was { assert NodeKey(n) !in s'; }
  }

  lemma ConvergenceIsEvents(was: Objects, s: Store, now: Objects, s': Store, n: Id, t: Target)
    requires n in was && StatusOnly(was, now, n) && PassEffect(s, s', GoalOf(n, was[n].spec))
    requires !was[n].deleting && was[n].finalizer
    requires was[n].spec.setId == was[n].setId && (was[n].setId == t.setId ==> was[n].cluster == t.cluster)
    ensures AtMostTwo(ViewOf(was, s, t), ViewOf(now, s', t), n)
  {
    StatusKeepsView(was, now, s, s', n, t);
    PassBinds(s, s', n, was[n].spec, t.setId);
  }

  lemma StatusKeepsView(was: Objects, now: Objects, s: Store, s': Store, n: Id, t: Target)
    requires StatusOnly(was, now, n)
    ensures ViewOf(now, s', t) == ViewOf(was, s, t).(bound := BoundTo(s', t.setId))
  {
  }

  lemma PassBinds(s: Store, s': Store, n: Id, spec: MachineSpec, x: Id)
    requires PassEffect(s, s', GoalOf(n, spec))
    ensures
      var (b, b') := (BoundTo(s, x), BoundTo(s', x));
      b' == b || b' == b - {n} || (b' == b + {n} && spec.setId == x)
  {
    var b, b' := BoundTo(s, x), BoundTo(s', x);
    forall m | m != n ensures m in b' <==> m in b {
      assert NodeKey(m) in s <==> NodeKey(m) in s';
    }
    if n in b' {
      assert b' == b + {n};
    } else {
      assert b' == b - {n};
    }
  }
}
