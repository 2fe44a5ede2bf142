/** What one allocation pass over a machine set decides, stated on sets of machine names:
    which bindings are adopted, which machines are created and which are evicted
    (controllers/omnicluster_controller.go, reconcileMachineSetAllocation). */
module Allocation {
  import opened Ids
  import opened OmniApi

  /** What the pass reads: the listed objects of the set that are not, and that are, being deleted,
      the machines bound to the set in Omni, the available machines that match its selector,
      and the names already spoken for in this pass. */
  datatype Situation = Situation(
    listed: set<Id>, leaving: set<Id>, bound: set<Id>, pool: set<Id>, health: map<Id, MachineHealth>,
    claimed: set<Id>, desired: nat, controlPlane: bool)
  {
    ghost function Adopted(): set<Id> { set m | m in bound && m !in listed && m !in leaving }
    ghost function Active(): set<Id> { listed + Adopted() }
    ghost function Spoken(): set<Id> { claimed + Active() + leaving }
    ghost function Free(): set<Id> { set m | m in pool && m !in Spoken() }
    ghost function Healthy(): set<Id> { set m | m in health && health[m].connected && health[m].ready }
  }

  datatype Verdict = Allocated | Shortage | BelowOne

  datatype Plan = Plan(adopt: set<Id>, create: set<Id>, evict: set<Id>, verdict: Verdict)

  /** Unhealthy before healthy, then by name. */
  predicate Before(health: map<Id, MachineHealth>, a: Id, b: Id) {
    if MachineHealthy(health, a) != MachineHealthy(health, b) then !MachineHealthy(health, a) else Less(a, b)
  }

  function EvictionOrder(health: map<Id, MachineHealth>): (Id, Id) -> bool {
    (a, b) => Before(health, a, b)
  }

  lemma EvictionOrderIsStrict(health: map<Id, MachineHealth>)
    ensures StrictOrder(EvictionOrder(health))
  {
    LessIsStrictOrder();
  }

  /** How many machines an over-full set of `n` sheds in one pass. A worker set sheds the whole excess; the
      control plane sheds one, and none while a member is leaving or when every member is healthy. */
  ghost function Removals(s: Situation, n: int): int {
    if !s.controlPlane then n - s.desired
    else if s.leaving != {} || s.Active() <= s.Healthy() then 0
    else 1
  }

  /** The decision for a set that is short of machines. */
  ghost predicate UpPlan(s: Situation, p: Plan, n: int) {
    var need := s.desired - n;
    && p.evict == {}
    && if |s.Free()| < need then p.create == {} && p.verdict == Shortage
       else Least(Less, p.create, s.Free(), need) && p.verdict == Allocated
  }

  /** The decision for a set with too many machines. */
  ghost predicate DownPlan(s: Situation, p: Plan, n: int) {
    && p.create == {}
    && if s.controlPlane && s.desired < 1 then p.evict == {} && p.verdict == BelowOne
       else Least(EvictionOrder(s.health), p.evict, s.Active(), Removals(s, n)) && p.verdict == Allocated
  }

  ghost predicate IsPlan(s: Situation, p: Plan) {
    var n := |s.Active()|;
    && p.adopt == s.Adopted()
    && if n < s.desired then UpPlan(s, p, n)
       else if n > s.desired then DownPlan(s, p, n)
       else p.create == {} && p.evict == {} && p.verdict == Allocated
  }

  ghost function Kept(s: Situation, p: Plan): set<Id> {
    s.Active() + p.create - p.evict
  }

  /** The names spoken for when the pass over this set is done. */
  ghost function ClaimedAfter(s: Situation, p: Plan): set<Id> {
    s.Spoken() + p.create
  }

  /** A plan carried out up to the point where some call failed: bindings are adopted first, and
      nothing is created or evicted before all of them are. */
  ghost predicate PartOf(done: Plan, p: Plan) {
    && done.adopt <= p.adopt && done.create <= p.create && done.evict <= p.evict && done.verdict == p.verdict
    && (done.create + done.evict != {} ==> done.adopt == p.adopt)
  }

  lemma LeastExists(less: (Id, Id) -> bool, s: set<Id>, k: nat) returns (t: set<Id>)
    requires StrictOrder(less) && k <= |s|
    ensures Least(less, t, s, k)
  {
    var names := NamesOf(s);
    DistinctSize(names);
    var sorted := Sort(less, names);
    PrefixIsLeast(less, sorted, k);
    t := Elems(sorted[..k]);
  }

  ghost function NamesOf(s: set<Id>): (r: seq<Id>)
    ensures Distinct(r) && Elems(r) == s
  {
    if s == {} then []
    else
      var x :| x in s;
      var rest := NamesOf(s - {x});
      Snoc(rest, x);
      rest + [x]
  }

  lemma PlanExists(s: Situation) returns (p: Plan)
    ensures IsPlan(s, p)
  {
    var n, none: set<Id> := |s.Active()|, {};
    if n < s.desired && |s.Free()| >= s.desired - n {
      LessIsStrictOrder();
      var t := LeastExists(Less, s.Free(), s.desired - n);
      p := Plan(s.Adopted(), t, none, Allocated);
    } else if n > s.desired && !(s.controlPlane && s.desired < 1) {
      EvictionOrderIsStrict(s.health);
      var t := LeastExists(EvictionOrder(s.health), s.Active(), Removals(s, n));
      p := Plan(s.Adopted(), none, t, Allocated);
    } else {
      p := Plan(s.Adopted(), none, none,
        if n < s.desired then Shortage else if n > s.desired then BelowOne else Allocated);
    }
  }

  /** The plan is determined by the sets alone: no listing order can change it. */
  lemma PlanUnique(s: Situation, p: Plan, q: Plan)
    requires IsPlan(s, p) && IsPlan(s, q)
    ensures p == q
  {
    var n := |s.Active()|;
    if n < s.desired && |s.Free()| >= s.desired - n {
      LessIsStrictOrder();
      LeastUnique(Less, p.create, q.create, s.Free(), s.desired - n);
    } else if n > s.desired && !(s.controlPlane && s.desired < 1) {
      EvictionOrderIsStrict(s.health);
      LeastUnique(EvictionOrder(s.health), p.evict, q.evict, s.Active(), Removals(s, n));
    }
  }

  // ── What a plan achieves ─────────────────────────────────────────────────────

  /** Scale-up: it succeeds exactly when enough machines are free, and then the set has the desired
      size; on a shortage nothing is created beyond the adoptions. */
  lemma ScaleUpIsExact(s: Situation, p: Plan)
    requires IsPlan(s, p) && |s.Active()| < s.desired
    ensures p.verdict == Allocated <==> |s.Free()| >= s.desired - |s.Active()|
    ensures p.verdict == Allocated ==> |Kept(s, p)| == s.desired && p.create !! s.Spoken()
    ensures p.verdict != Allocated ==> p.create == {} && p.evict == {}
  {
  }

  ghost function Smaller(s: set<Id>, m: Id): set<Id> {
    set y | y in s && Less(y, m)
  }

  lemma InLeast(t: set<Id>, s: set<Id>, k: int, m: Id)
    requires Least(Less, t, s, k) && m in t
    ensures |Smaller(s, m)| < k
  {
    LessIsStrictOrder();
    forall y | y in Smaller(s, m) ensures y in t && y != m {
      assert y !in t ==> Below(Less, t, y) && Less(m, y);
    }
    SubsetSize(Smaller(s, m) + {m}, t);
  }

  lemma NotInLeast(t: set<Id>, s: set<Id>, k: int, m: Id)
    requires Least(Less, t, s, k) && m in s && m !in t
    ensures |Smaller(s, m)| >= k
  {
    assert Below(Less, t, m);
    SubsetSize(t, Smaller(s, m));
  }

  /** Which machines a pass picks, read off what it reads: those free machines before which fewer free
      names sort than machines are needed, if there are enough of them. */
  lemma PickedIff(s: Situation, p: Plan, m: Id)
    requires IsPlan(s, p)
    ensures
      var need := s.desired - |s.Active()|;
      m in p.create <==> m in s.Free() && |Smaller(s.Free(), m)| < need <= |s.Free()|
  {
    if |s.Active()| < s.desired && p.verdict == Allocated && m in s.Free() {
      if m in p.create {
        InLeast(p.create, s.Free(), s.desired - |s.Active()|, m);
      } else {
        NotInLeast(p.create, s.Free(), s.desired - |s.Active()|, m);
      }
    }
  }

  lemma SplitSize<T>(a: set<T>, b: set<T>)
    requires b <= a
    ensures |a - b| == |a| - |b|
  {
  }

  lemma UnhealthyFirst(health: map<Id, MachineHealth>, evict: set<Id>, active: set<Id>, healthy: set<Id>, k: nat)
    requires Least(EvictionOrder(health), evict, active, k)
    requires forall m :: m in healthy <==> MachineHealthy(health, m)
    ensures |evict * healthy| == if k > |active - healthy| then k - |active - healthy| else 0
    ensures evict * healthy != {} ==> active - evict <= healthy
    ensures |active - evict| == |active| - k
  {
    assert active == evict + (active - evict);
    assert evict == (evict * healthy) + (evict - healthy);
    if evict * healthy != {} {
      var h :| h in evict && h in healthy;
      forall u | u in active - healthy ensures u in evict {
        assert u !in evict ==> EvictionOrder(health)(h, u);
      }
      assert evict - healthy == active - healthy;
    } else {
      assert evict <= active - healthy;
      SubsetSize(evict, active - healthy);
    }
  }

  lemma FirstUnhealthy(health: map<Id, MachineHealth>, evict: set<Id>, active: set<Id>, healthy: set<Id>)
    requires Least(EvictionOrder(health), evict, active, 1)
    requires forall m :: m in healthy <==> MachineHealthy(health, m)
    requires !(active <= healthy)
    ensures Least(Less, evict, active - healthy, 1)
  {
    UnhealthyFirst(health, evict, active, healthy, 1);
    var x :| x in active && x !in healthy;
    SubsetSize({x}, active - healthy);
    forall a, b | a in evict && b in active - healthy && b !in evict ensures Less(a, b) {
      assert EvictionOrder(health)(a, b);
    }
  }

  /** Worker scale-down: exactly the desired number stays, as few healthy machines as possible go, and
      no unhealthy machine stays while a healthy one goes. */
  lemma WorkerScaleDownIsOptimal(s: Situation, p: Plan)
    requires IsPlan(s, p) && !s.controlPlane && |s.Active()| > s.desired
    ensures
      var excess, unhealthy := |s.Active()| - s.desired, s.Active() - s.Healthy();
      && p.verdict == Allocated && |Kept(s, p)| == s.desired && |p.evict| == excess
      && |p.evict * s.Healthy()| == (if excess > |unhealthy| then excess - |unhealthy| else 0)
      && (p.evict * s.Healthy() != {} ==> Kept(s, p) <= s.Healthy())
  {
    var active, healthy := s.Active(), s.Healthy();
    assert Kept(s, p) == active - p.evict;
    UnhealthyFirst(s.health, p.evict, active, healthy, |active| - s.desired);
  }

  /** No way of evicting that many machines would spare more healthy ones. */
  lemma NoBetterEviction(s: Situation, p: Plan, other: set<Id>)
    requires IsPlan(s, p) && !s.controlPlane && |s.Active()| > s.desired
    requires other <= s.Active() && |other| == |p.evict|
    ensures |p.evict * s.Healthy()| <= |other * s.Healthy()|
  {
    WorkerScaleDownIsOptimal(s, p);
    HealthyShare(other, s.Active(), s.Healthy());
  }

  lemma HealthyShare(evict: set<Id>, active: set<Id>, healthy: set<Id>)
    requires evict <= active
    ensures |evict * healthy| >= |evict| - |active - healthy|
  {
    assert evict == (evict * healthy) + (evict - healthy);
    SubsetSize(evict - healthy, active - healthy);
  }

  /** Control-plane scale-down: at most one member goes, it is unhealthy and the first such by name,
      none goes while another is leaving, and the set never falls below the desired size. */
  lemma ControlPlaneShedsOneUnhealthy(s: Situation, p: Plan)
    requires IsPlan(s, p) && s.controlPlane
    ensures |p.evict| <= 1 && p.evict !! s.Healthy()
    ensures p.evict != {} ==> s.leaving == {} && s.desired >= 1 && |Kept(s, p)| == |s.Active()| - 1 >= s.desired
    ensures p.evict == {} <==>
      |s.Active()| <= s.desired || s.desired < 1 || s.leaving != {} || s.Active() <= s.Healthy()
    ensures p.evict != {} ==> Least(Less, p.evict, s.Active() - s.Healthy(), 1)
  {
    var active, healthy := s.Active(), s.Healthy();
    if |active| > s.desired && s.desired >= 1 {
      if Removals(s, |active|) == 0 {
        assert |p.evict| == 0;
      } else {
        assert Kept(s, p) == active - p.evict;
        FirstUnhealthy(s.health, p.evict, active, healthy);
        SplitSize(active, p.evict);
      }
    }
  }
}
