/** Whole runs over the control-plane set: at most one member leaves at a time, only unhealthy
    members are evicted, and repeated passes carry out one fixed decision. */
module ControlPlaneRuns {
  import opened Ids
  import opened OmniApi
  import opened Allocation
  import opened MachineAllocator
  import opened SetRuns

  lemma EvictsOne(v: SetView, s: Situation, p: Plan, done: Plan)
    requires v.Valid() && Reads(v, s) && ThePlan(s, p) && PartOf(done, p) && s.controlPlane
    ensures done.evict !! s.Healthy() && |done.evict| <= 1
    ensures done.evict != {} ==> v.leaving == {} && |v.Occupied()| > s.desired >= 1 && done.adopt == p.adopt
  {
    PlanFacts(v, s, p);
    ControlPlaneShedsOneUnhealthy(s, p);
    SubsetSize(done.evict, p.evict);
  }

  // ── Safety ───────────────────────────────────────────────────────────────────

  /** Nobody but the controller deletes a member. */
  ghost predicate Undisturbed(r: SetRun) {
    forall i :: 0 <= i < |r.events| ==> OwnEvent(r.events[i])
  }

  ghost predicate OwnEvent(e: Event) {
    !e.Delete? && (e.AllocationPass? ==> e.s.controlPlane)
  }

  /** A pass evicts only unhealthy members, none while one is leaving, and leaves enough of them,
      counting those whose object is in another set. */
  ghost predicate EvictsSafely(v: SetView, e: Event, v': SetView) {
    e.AllocationPass? ==>
      && e.done.evict !! e.s.Healthy()
      && (e.done.evict != {} ==> v.leaving == {} && |v'.active + e.elsewhere| >= e.s.desired >= 1)
  }

  lemma StepLeavesOne(v: SetView, e: Event, v': SetView)
    requires v.Valid() && Next(v, e, v') && OwnEvent(e) && |v.leaving| <= 1
    ensures |v'.leaving| <= 1 && EvictsSafely(v, e, v')
  {
    if e.AllocationPass? {
      EvictsOne(v, e.s, e.p, e.done);
      SubsetSize(e.done.evict * v.guarded, e.done.evict);
      PlanFacts(v, e.s, e.p);
      if e.done.evict != {} { EvictionLeavesEnough(v, e.s, e.p, e.done, e.elsewhere); }
    } else {
      SubsetSize(v'.leaving, v.leaving);
    }
  }

  lemma EvictionLeavesEnough(v: SetView, s: Situation, p: Plan, done: Plan, elsewhere: set<Id>)
    requires v.Valid() && Reads(v, s) && ThePlan(s, p) && PartOf(done, p) && s.controlPlane && done.evict != {}
    ensures |AfterPass(v, done, elsewhere).active + elsewhere| >= s.desired
  {
    EvictsOne(v, s, p, done);
    PlanFacts(v, s, p);
    var left := AfterPass(v, done, elsewhere).active + elsewhere;
    assert v.Occupied() - done.evict <= left;
    SubsetSize(v.Occupied() - done.evict, left);
    DifferenceSize(v.Occupied(), done.evict);
  }

  /** At most one member is ever being deleted. A member is evicted only while no other is leaving,
      it is unhealthy when it is chosen, and the active members never fall below the desired number
      by an eviction. */
  lemma {:induction false} OneMemberAtATime(r: SetRun, i: nat)
    requires r.Valid() && Undisturbed(r) && |r.views[0].leaving| <= 1 && i < |r.events|
    ensures |r.views[i].leaving| <= 1 && |r.views[i + 1].leaving| <= 1
    ensures EvictsSafely(r.views[i], r.events[i], r.views[i + 1])
  {
    if i > 0 { OneMemberAtATime(r, i - 1); }
    RunIsValid(r, i);
    StepLeavesOne(r.views[i], r.events[i], r.views[i + 1]);
  }

  /** More than half of the members are healthy, so etcd keeps its quorum. */
  ghost predicate Majority(v: SetView, healthy: set<Id>) {
    2 * |Within(v.Members(), healthy)| > |v.Members()|
  }

  ghost function Within(a: set<Id>, b: set<Id>): set<Id> { set m | m in a && m in b }

  lemma ShedKeepsMajority(a: set<Id>, b: set<Id>, healthy: set<Id>)
    requires b <= a && a - b !! healthy && 2 * |Within(a, healthy)| > |a|
    ensures 2 * |Within(b, healthy)| > |b|
  {
    assert Within(a, healthy) == Within(b, healthy);
    SubsetSize(b, a);
  }

  /** A step that takes no new machine in, evaluated against the members healthy at that time; only a
      member that is leaving is released. */
  ghost predicate Sheds(v: SetView, e: Event, healthy: set<Id>) {
    && OwnEvent(e)
    && (e.AllocationPass? ==> e.s.Healthy() == healthy && e.p.create == {})
    && (e.Unbind? ==> e.m in v.leaving)
  }

  lemma MembersAfter(v: SetView, done: Plan, elsewhere: set<Id>)
    requires done.create == {} && done.adopt <= v.bound && v.guarded <= v.active + v.leaving
    ensures
      var v' := AfterPass(v, done, elsewhere);
      v'.Members() <= v.Members() && v.Members() - v'.Members() <= done.evict && v'.leaving <= v.leaving + done.evict
  {
  }

  lemma PassShedsOnlyUnhealthy(v: SetView, s: Situation, p: Plan, done: Plan, elsewhere: set<Id>)
    requires v.Valid() && Reads(v, s) && ThePlan(s, p) && PartOf(done, p) && s.controlPlane && p.create == {}
    ensures
      var v' := AfterPass(v, done, elsewhere);
      && v'.Members() <= v.Members() && v.Members() - v'.Members() !! s.Healthy()
      && (v.leaving !! s.Healthy() ==> v'.leaving !! s.Healthy())
  {
    PlanFacts(v, s, p);
    EvictsOne(v, s, p, done);
    MembersAfter(v, done, elsewhere);
  }

  lemma ShedsOnlyUnhealthy(v: SetView, e: Event, v': SetView, healthy: set<Id>)
    requires v.Valid() && Next(v, e, v') && Sheds(v, e, healthy) && v.leaving !! healthy
    ensures v'.Members() <= v.Members() && v.Members() - v'.Members() !! healthy && v'.leaving !! healthy
  {
    if e.AllocationPass? {
      PassShedsOnlyUnhealthy(v, e.s, e.p, e.done, e.elsewhere);
    } else {
      assert v.Members() - v'.Members() <= v.leaving;
    }
  }

  lemma StepKeepsMajority(v: SetView, e: Event, v': SetView, healthy: set<Id>)
    requires v.Valid() && Next(v, e, v') && Sheds(v, e, healthy) && v.leaving !! healthy && Majority(v, healthy)
    ensures Majority(v', healthy) && v'.leaving !! healthy
  {
    ShedsOnlyUnhealthy(v, e, v', healthy);
    ShedKeepsMajority(v.Members(), v'.Members(), healthy);
  }

  /** While the members that are leaving are unhealthy, every scale-down pass and every release keeps the
      majority there is at that step, whatever becomes of the health of the others between the steps. */
  lemma MajorityIsKept(r: SetRun, healthy: seq<set<Id>>, i: nat)
    requires r.Valid() && |healthy| == |r.events| && i < |r.events|
    requires Sheds(r.views[i], r.events[i], healthy[i]) && r.views[i].leaving !! healthy[i]
    ensures Majority(r.views[i], healthy[i]) ==> Majority(r.views[i + 1], healthy[i])
  {
    RunIsValid(r, i);
    if Majority(r.views[i], healthy[i]) { StepKeepsMajority(r.views[i], r.events[i], r.views[i + 1], healthy[i]); }
  }

  /** So where no member turns unhealthy, the majority of the start is kept over the whole run. */
  lemma {:induction false} MajorityLasts(r: SetRun, healthy: seq<set<Id>>, i: nat)
    requires r.Valid() && |healthy| == |r.events| && i < |r.events| && Majority(r.views[0], healthy[0])
    requires forall j :: 0 <= j < |r.events| ==> Sheds(r.views[j], r.events[j], healthy[j]) && r.views[j].leaving !! healthy[j]
    requires forall j :: 0 < j < |r.events| ==> healthy[j - 1] <= healthy[j]
    ensures Majority(r.views[i], healthy[i]) && Majority(r.views[i + 1], healthy[i])
  {
    if i > 0 {
      MajorityLasts(r, healthy, i - 1);
      SubsetSize(Within(r.views[i].Members(), healthy[i - 1]), Within(r.views[i].Members(), healthy[i]));
    }
    MajorityIsKept(r, healthy, i);
  }

  // ── One decision, carried out one member at a time ───────────────────────────

  /** What the scale-down is about: the members at the start, those of them that are healthy, the
      number wanted. */
  datatype Job = Job(members: set<Id>, healthy: set<Id>, desired: nat)
  {
    ghost function Unhealthy(): set<Id> { set m | m in members && m !in healthy }

    /** The members that have been evicted. */
    ghost function Evicted(v: SetView): set<Id> { set m | m in members && m !in v.Occupied() }

    /** How many members are to go: the excess, but no healthy one. */
    ghost function Excess(): int {
      |members| - (if desired >= |members * healthy| then desired else |members * healthy|)
    }

    /** The members to evict, as if all were evicted at once. */
    ghost predicate OneShot(evicted: set<Id>) {
      Least(Less, evicted, Unhealthy(), Excess())
    }

    /** The pass finds the members as healthy as they are. What it finds of other machines, such as one
        that has been evicted, does not matter. */
    ghost predicate SeesHealth(v: SetView, s: Situation) {
      forall m :: m in v.Occupied() ==> (m in s.Healthy() <==> m in healthy)
    }

    /** The events of the job: its own passes, as long as they evict only members that carry the
        finalizer, and the machine controller's steps on its members. */
    ghost predicate Allows(v: SetView, e: Event) {
      match e
      case AllocationPass(s, p, done, _) =>
        s.controlPlane && s.desired == desired && SeesHealth(v, s) && done.evict <= v.guarded
      case Unbind(m) => m in v.leaving
      case Delete(_) => false
      case _ => true
    }

    /** The members gone so far are the first unhealthy ones by name, and enough are left. */
    ghost predicate Underway(v: SetView) {
      && v.Valid() && v.Occupied() <= members && v.leaving <= Evicted(v) && |v.leaving| <= 1
      && Least(Less, Evicted(v), Unhealthy(), |members| - |v.Occupied()|)
      && |v.Occupied()| >= desired >= 1
    }

    ghost predicate Finished(v: SetView) {
      v.leaving == {} && (|v.Occupied()| <= desired || v.Occupied() <= healthy)
    }
  }

  lemma LeastGrows(t: set<Id>, u: set<Id>, x: set<Id>, k: int)
    requires Least(Less, t, u, k) && Least(Less, x, u - t, 1)
    ensures Least(Less, t + x, u, k + 1)
  {
  }

  /** What a pass of the job does, finished or not: it adopts, and evicts the first unhealthy member if
      it evicts anything. */
  lemma EvictionIsNext(j: Job, v: SetView, s: Situation, p: Plan, done: Plan)
    requires j.Underway(v) && Reads(v, s) && ThePlan(s, p) && PartOf(done, p)
    requires s.controlPlane && s.desired == j.desired && j.SeesHealth(v, s)
    ensures done.adopt <= v.Occupied() - v.active && done.create == {}
    ensures done.evict != {} ==>
      v.leaving == {} && |v.Occupied()| > j.desired && Least(Less, done.evict, v.Occupied() - j.healthy, 1)
  {
    PlanFacts(v, s, p);
    ControlPlaneShedsOneUnhealthy(s, p);
    if done.evict != {} {
      SubsetSize(done.evict, p.evict);
      var m :| m in done.evict;
      SubsetSize({m}, done.evict);
      assert done.evict == p.evict;
      assert v.Occupied() - j.healthy == s.Active() - s.Healthy();
    }
  }

  /** What such a pass leaves: adoption does not change which machines the set uses. */
  lemma OccupiedAfterEviction(v: SetView, done: Plan, elsewhere: set<Id>)
    requires v.Valid() && done.adopt <= v.Occupied() - v.active && done.create == {}
    requires done.evict <= v.Occupied() * v.guarded && elsewhere !! v.active + v.leaving
    ensures
      var v' := AfterPass(v, done, elsewhere);
      v'.Occupied() == v.Occupied() - done.evict && v'.leaving == v.leaving + done.evict
  {
  }

  lemma PassKeepsUnderway(j: Job, v: SetView, done: Plan, v': SetView)
    requires j.Underway(v) && v'.Valid() && v'.Occupied() == v.Occupied() - done.evict && v'.leaving == v.leaving + done.evict
    requires done.evict != {} ==>
      v.leaving == {} && |v.Occupied()| > j.desired && Least(Less, done.evict, v.Occupied() - j.healthy, 1)
    ensures j.Underway(v')
  {
    if done.evict == {} {
      assert v'.Occupied() == v.Occupied() && v'.leaving == v.leaving && j.Evicted(v') == j.Evicted(v);
    } else {
      EvictionIsLeast(j, v, done.evict, v');
      SplitSize(v.Occupied(), done.evict);
      assert v'.leaving == done.evict;
    }
  }

  lemma EvictionIsLeast(j: Job, v: SetView, x: set<Id>, v': SetView)
    requires v.Occupied() <= j.members && x <= v.Occupied() && v'.Occupied() == v.Occupied() - x
    requires Least(Less, x, v.Occupied() - j.healthy, 1)
    requires Least(Less, j.Evicted(v), j.Unhealthy(), |j.members| - |v.Occupied()|)
    ensures Least(Less, j.Evicted(v'), j.Unhealthy(), |j.members| - |v.Occupied()| + 1)
  {
    assert v.Occupied() - j.healthy == j.Unhealthy() - j.Evicted(v);
    LeastGrows(j.Evicted(v), j.Unhealthy(), x, |j.members| - |v.Occupied()|);
    assert j.Evicted(v') == j.Evicted(v) + x;
  }

  /** The machine controller's steps do not change which machines the set uses either. */
  lemma MoveKeepsOccupied(v: SetView, e: Event, v': SetView)
    requires v.Valid() && Next(v, e, v') && !e.AllocationPass? && !e.Delete? && (e.Unbind? ==> e.m in v.leaving)
    ensures v'.Occupied() == v.Occupied() && v'.leaving <= v.leaving
  {
  }

  lemma MoveKeepsUnderway(j: Job, v: SetView, v': SetView)
    requires j.Underway(v) && v'.Valid() && v'.Occupied() == v.Occupied() && v'.leaving <= v.leaving
    ensures j.Underway(v')
  {
    assert j.Evicted(v') == j.Evicted(v);
    SubsetSize(v'.leaving, v.leaving);
  }

  lemma StepKeepsUnderway(j: Job, v: SetView, e: Event, v': SetView)
    requires j.Underway(v) && Next(v, e, v') && j.Allows(v, e)
    ensures j.Underway(v')
  {
    NextIsValid(v, e, v');
    if e.AllocationPass? {
      EvictionIsNext(j, v, e.s, e.p, e.done);
      OccupiedAfterEviction(v, e.done, e.elsewhere);
      PassKeepsUnderway(j, v, e.done, v');
    } else {
      MoveKeepsOccupied(v, e, v');
      MoveKeepsUnderway(j, v, v');
    }
  }

  /** Where nothing is left to do, what has been evicted is exactly the one-shot decision. */
  lemma FinishedIsOneShot(j: Job, v: SetView)
    requires j.Underway(v) && j.Finished(v)
    ensures j.OneShot(j.Evicted(v))
  {
    var healthy := j.members * j.healthy;
    forall h | h in healthy ensures h in v.Occupied() {
      assert h in j.Evicted(v) ==> h in j.Unhealthy();
    }
    SubsetSize(healthy, v.Occupied());
    if |v.Occupied()| > j.desired { assert healthy == v.Occupied(); }
  }

  // ── Progress ─────────────────────────────────────────────────────────────────

  ghost function Unadopted(v: SetView): set<Id> { set m | m in v.bound && m !in v.active && m !in v.leaving }

  ghost function Unguarded(v: SetView): set<Id> { set m | m in v.active && m !in v.guarded }

  ghost function StillBound(v: SetView): set<Id> { set m | m in v.bound && m in v.leaving }

  ghost function NotBound(v: SetView): set<Id> { set m | m in v.active && m !in v.bound }

  /** Where something is left to do, a step that changes something is possible: a member that is leaving
      is released, a binding is adopted, a member is given the finalizer, or the next one is evicted. */
  lemma UnfinishedCanMove(j: Job, v: SetView) returns (e: Event, v': SetView)
    requires j.Underway(v) && !j.Finished(v)
    ensures Next(v, e, v') && j.Allows(v, e) && v' != v
  {
    if v.leaving != {} {
      var m :| m in v.leaving;
      if m in v.bound {
        e, v' := Unbind(m), v.(bound := v.bound - {m});
      } else {
        e, v' := Gone(m), v.(leaving := v.leaving - {m}, guarded := v.guarded - {m});
      }
    } else if m :| m in Unadopted(v) {
      e := NextAdoption(j, v, m);
      v' := AfterPass(v, e.done, {});
    } else if m :| m in Unguarded(v) {
      e, v' := Guard(m), v.(guarded := v.guarded + {m});
    } else {
      AllFronted(v);
      e := NextEviction(j, v);
      v' := AfterPass(v, e.p, {});
    }
  }

  /** A pass over the job's set, as it is. */
  ghost function JobSituation(j: Job, v: SetView): (s: Situation)
    ensures Reads(v, s) && s.Healthy() == j.healthy && s.controlPlane && s.desired == j.desired
  {
    var health := map m | m in j.healthy :: MachineHealth(true, true);
    var s := Situation(v.active, v.leaving, v.bound, {}, health, {}, j.desired, true);
    assert s.Healthy() == j.healthy;
    s
  }

  /** A pass that gets no further than this adoption. */
  lemma NextAdoption(j: Job, v: SetView, m: Id) returns (e: Event)
    requires v.Valid() && m in Unadopted(v)
    ensures e.AllocationPass? && Next(v, e, AfterPass(v, e.done, {})) && j.Allows(v, e) && AfterPass(v, e.done, {}) != v
  {
    var s := JobSituation(j, v);
    var p := MakePlan(s);
    PlanFacts(v, s, p);
    e := AllocationPass(s, p, Plan({m}, {}, {}, p.verdict), {});
    assert m in AfterPass(v, e.done, {}).active;
  }

  lemma AllFronted(v: SetView)
    requires v.Valid() && v.leaving == {} && Unadopted(v) == {} == Unguarded(v)
    ensures v.Occupied() == v.active <= v.guarded
  {
    assert forall m :: m in v.active ==> m in Unguarded(v) || m in v.guarded;
    assert forall m :: m in v.bound ==> m in Unadopted(v) || m in v.active;
  }

  lemma NextEviction(j: Job, v: SetView) returns (e: Event)
    requires v.Valid() && v.leaving == {} && v.Occupied() == v.active <= v.guarded
    requires |v.Occupied()| > j.desired >= 1 && !(v.Occupied() <= j.healthy)
    ensures e.AllocationPass? && e.done == e.p && Next(v, e, AfterPass(v, e.p, {})) && j.Allows(v, e)
    ensures AfterPass(v, e.p, {}) != v
  {
    var s := JobSituation(j, v);
    var p := MakePlan(s);
    e := AllocationPass(s, p, p, {});
    PlanFacts(v, s, p);
    ControlPlaneShedsOneUnhealthy(s, p);
    var m :| m in p.evict;
    assert m !in AfterPass(v, p, {}).active;
  }

  ghost function Measure(v: SetView): nat {
    4 * |v.Occupied()| + |v.leaving| + |StillBound(v)| + |NotBound(v)| + 2 * |Unadopted(v)| + |Unguarded(v)|
  }

  lemma StepsGoDown(j: Job, v: SetView, e: Event, v': SetView)
    requires j.Underway(v) && Next(v, e, v') && j.Allows(v, e) && v' != v
    ensures Measure(v') < Measure(v)
  {
    if e.AllocationPass? {
      EvictionIsNext(j, v, e.s, e.p, e.done);
      OccupiedAfterEviction(v, e.done, e.elsewhere);
      PassGoesDown(v, e.done, e.elsewhere, v');
    } else {
      MoveKeepsOccupied(v, e, v');
      MoveGoesDown(v, e, v');
    }
  }

  lemma MoveGoesDown(v: SetView, e: Event, v': SetView)
    requires v.Valid() && Next(v, e, v') && v' != v && v'.Occupied() == v.Occupied()
    requires !e.AllocationPass? && !e.Delete? && (e.Unbind? ==> e.m in v.leaving)
    ensures Measure(v') < Measure(v)
  {
    match e
    case Guard(m) =>
      OneFewer(Unguarded(v'), Unguarded(v), m);
      assert StillBound(v') == StillBound(v) && NotBound(v') == NotBound(v) && Unadopted(v') == Unadopted(v);
    case Bind(m) =>
      OneFewer(NotBound(v'), NotBound(v), m);
      assert StillBound(v') == StillBound(v) && Unadopted(v') == Unadopted(v) && Unguarded(v') == Unguarded(v);
    case Unbind(m) =>
      OneFewer(StillBound(v'), StillBound(v), m);
      assert NotBound(v') == NotBound(v) && Unadopted(v') == Unadopted(v) && Unguarded(v') == Unguarded(v);
    case Gone(m) =>
      OneFewer(v'.leaving, v.leaving, m);
      assert StillBound(v') == StillBound(v) && NotBound(v') == NotBound(v);
      assert Unadopted(v') == Unadopted(v) && Unguarded(v') == Unguarded(v);
  }

  lemma OneFewer(a: set<Id>, b: set<Id>, m: Id)
    requires m in b && forall x :: x in a <==> x in b && x != m
    ensures |a| == |b| - 1
  {
    assert a == b - {m};
  }

  /** What a pass adopts is bound and still lacks the finalizer; what it evicts, at most one member, is no
      longer used. */
  lemma PassGoesDown(v: SetView, done: Plan, elsewhere: set<Id>, v': SetView)
    requires v.Valid() && v' == AfterPass(v, done, elsewhere) && v' != v && elsewhere !! v.active + v.leaving
    requires done.adopt <= v.Occupied() - v.active && done.create == {} && done.evict <= v.Occupied() * v.guarded
    requires done.evict != {} ==> v.leaving == {} && |done.evict| == 1
    requires v'.Occupied() == v.Occupied() - done.evict && v'.leaving == v.leaving + done.evict
    ensures Measure(v') < Measure(v)
  {
    var x := done.adopt - elsewhere;
    PassSets(v, done, x, v');
    SplitSize(Unadopted(v), x);
    SplitSize(v.Occupied(), done.evict);
    SubsetSize(NotBound(v'), NotBound(v));
    AtMostSum(Unguarded(v'), Unguarded(v), x);
    AtMostSum(StillBound(v'), StillBound(v), done.evict);
    AtMostSum(v'.leaving, v.leaving, done.evict);
    if x == {} { assert done.evict != {}; }
  }

  lemma PassSets(v: SetView, done: Plan, x: set<Id>, v': SetView)
    requires v.Valid() && x <= done.adopt <= v.Occupied() - v.active && done.create == {} && done.evict <= v.active
    requires v' == SetView(v.active + x - done.evict, v.leaving + done.evict, v.bound, v.guarded)
    ensures Unadopted(v') == Unadopted(v) - x && x <= Unadopted(v) && NotBound(v') <= NotBound(v)
    ensures Unguarded(v') <= Unguarded(v) + x && StillBound(v') <= StillBound(v) + done.evict
    ensures x == {} == done.evict ==> v' == v
  {
  }

  lemma AtMostSum(a: set<Id>, b: set<Id>, c: set<Id>)
    requires a <= b + c
    ensures |a| <= |b| + |c|
  {
    SubsetSize(a, b + c);
  }

  /** A step of the job that changes something. */
  ghost predicate Works(j: Job, v: SetView, e: Event, v': SetView) {
    Next(v, e, v') && j.Allows(v, e) && v' != v
  }

  lemma WorkGoesOn(j: Job, v: SetView, e: Event, v': SetView)
    requires j.Underway(v) && Works(j, v, e, v')
    ensures j.Underway(v') && Measure(v') < Measure(v)
  {
    StepKeepsUnderway(j, v, e, v');
    StepsGoDown(j, v, e, v');
  }

  /** Any run that keeps changing something is over after as many steps as the measure of its start,
      and where it can change nothing more, it has evicted exactly the unhealthy members of the
      one-shot decision. */
  lemma {:induction false} RunRefinesOneShot(j: Job, r: SetRun, i: nat)
    requires r.Valid() && j.Underway(r.views[0]) && i < |r.views|
    requires forall k :: 0 <= k < |r.events| ==> Works(j, r.views[k], r.events[k], r.views[k + 1])
    ensures j.Underway(r.views[i]) && i + Measure(r.views[i]) <= Measure(r.views[0])
    ensures j.Finished(r.views[i]) ==> j.OneShot(j.Evicted(r.views[i]))
  {
    if i > 0 {
      RunRefinesOneShot(j, r, i - 1);
      WorkGoesOn(j, r.views[i - 1], r.events[i - 1], r.views[i]);
    }
    if j.Finished(r.views[i]) { FinishedIsOneShot(j, r.views[i]); }
  }

  /** The job as it starts: the members are the machines the set uses or will adopt, none is leaving. */
  lemma StartIsUnderway(j: Job, v: SetView)
    requires v.Valid() && v.Occupied() == j.members && v.leaving == {} && |j.members| >= j.desired >= 1
    ensures j.Underway(v)
  {
    assert j.Evicted(v) == {};
  }

  /** Without the finalizer there may be no end: a machine adopted and evicted in one pass leaves its
      binding behind, and the next pass adopts and evicts it again. */
  lemma UnguardedEvictionRepeats(v: SetView, a: Id, b: Id) returns (e: Event)
    requires v == SetView({b}, {}, {a, b}, {b}) && Less(a, b) && a != b
    ensures Next(v, e, v) && OwnEvent(e) && e.AllocationPass? && e.done == e.p
    ensures e.s.desired == 1 && e.p.adopt == {a} == e.p.evict
  {
    var s := Situation(v.active, v.leaving, v.bound, {}, map[], {}, 1, true);
    assert s.Active() == {a, b} && s.Healthy() == {} && s.Adopted() == {a};
    var p := FirstOfTwoGoes(s, a, b);
    e := AllocationPass(s, p, p, {});
    assert AfterPass(v, p, {}) == v;
  }

  lemma FirstOfTwoGoes(s: Situation, a: Id, b: Id) returns (p: Plan)
    requires s.Active() == {a, b} && s.Healthy() == {} && Less(a, b) && a != b
    requires s.controlPlane && s.desired == 1 && s.leaving == {}
    ensures ThePlan(s, p) && p == Plan(s.Adopted(), {}, {a}, Allocated)
  {
    p := MakePlan(s);
    assert IsPlan(s, p);
    ControlPlaneShedsOneUnhealthy(s, p);
    assert {a, b} - s.Healthy() == {a, b};
    FirstOfTwo(p.evict, a, b);
  }

  lemma OnlyMember(t: set<Id>) returns (x: Id)
    requires |t| == 1
    ensures t == {x}
  {
    x :| x in t;
    SubsetSize({x}, t);
  }

  lemma FirstOfTwo(t: set<Id>, a: Id, b: Id)
    requires Least(Less, t, {a, b}, 1) && Less(a, b)
    ensures t == {a}
  {
    LessIsStrictOrder();
    var x := OnlyMember(t);
    assert a !in t ==> Below(Less, t, a);
    assert !Less(b, a);
  }
}
