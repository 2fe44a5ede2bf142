/** The allocation of all sets of one cluster in one pass (controllers/omnicluster_controller.go):
    the control plane first, then each worker set, all sharing the claimed names. */
module ClusterAllocation {
  import opened Ids
  import opened Cosi
  import opened OmniApi
  import opened Kube
  import opened Allocation
  import opened MachineAllocator

  datatype WorkerSet = WorkerSet(name: Id, spec: MachineSetSpec)

  datatype ClusterSpec = ClusterSpec(
    name: Id, kubernetes: string, talos: string, controlPlane: MachineSetSpec, workers: seq<WorkerSet>)

  const CONTROL_PLANES: Id := "control-planes"

  function SetIdFor(cluster: Id, set_: Id): Id {
    cluster + "-" + set_
  }

  /** Across clusters the ID does not determine the set, and an existing set is used as it is. */
  lemma SetIdsCollide()
    ensures SetIdFor("a", "b-c") == SetIdFor("a-b", "c")
  {
  }

  /** The i-th set of a pass; the control plane comes first. */
  ghost function SetName(c: ClusterSpec, i: nat): Id
    requires i <= |c.workers|
  {
    if i == 0 then CONTROL_PLANES else c.workers[i - 1].name
  }

  ghost function TargetAt(c: ClusterSpec, i: nat, unused: nat): Target
    requires i <= |c.workers|
  {
    Target(c.name, SetIdFor(c.name, SetName(c, i)), if i == 0 then ControlPlane else Worker,
      if i == 0 then c.controlPlane else c.workers[i - 1].spec, unused)
  }

  ghost predicate DistinctSets(c: ClusterSpec) {
    forall i, j :: 0 <= i < j <= |c.workers| ==>
      SetIdFor(c.name, SetName(c, i)) != SetIdFor(c.name, SetName(c, j))
  }

  /** The set IDs of a cluster are distinct exactly when the worker names are, and none of them is
      the name of the control-plane set. Nothing in the spec's validation demands it. */
  lemma SetIdsAreDistinctIff(c: ClusterSpec)
    ensures DistinctSets(c) <==>
      && (forall i, j :: 0 <= i < j < |c.workers| ==> c.workers[i].name != c.workers[j].name)
      && (forall i :: 0 <= i < |c.workers| ==> c.workers[i].name != CONTROL_PLANES)
  {
    var n := |c.name + "-"|;
    forall i, j | 0 <= i < j <= |c.workers|
      ensures SetIdFor(c.name, SetName(c, i)) == SetIdFor(c.name, SetName(c, j)) <==> SetName(c, i) == SetName(c, j)
    {
      assert SetIdFor(c.name, SetName(c, i))[n..] == SetName(c, i);
      assert SetIdFor(c.name, SetName(c, j))[n..] == SetName(c, j);
    }
    if DistinctSets(c) {
      forall i, j | 0 <= i < j < |c.workers| ensures c.workers[i].name != c.workers[j].name {
        assert SetName(c, i + 1) != SetName(c, j + 1);
      }
      forall i | 0 <= i < |c.workers| ensures c.workers[i].name != CONTROL_PLANES {
        assert SetName(c, 0) != SetName(c, i + 1);
      }
    }
  }

  // ── The record of a pass ─────────────────────────────────────────────────────

  /** One set's part of the pass: what it read, what it was to do, what it did; `store` is Omni before it. */
  datatype SetPass = SetPass(t: Target, s: Situation, p: Plan, done: Plan, was: Objects, now: Objects, store: Store)
  {
    ghost predicate Carries() {
      ThePlan(s, p) && forall q :: IsPlan(s, q) ==> PartOf(done, q) && Carried(was, now, s, done, t)
    }

    ghost function Own(): set<Id> { s.listed + s.leaving + s.bound }
  }

  /** Each set starts where the one before it finished. */
  ghost predicate Chained(log: seq<SetPass>) {
    && (forall i :: 0 <= i < |log| ==> log[i].Carries())
    && (|log| > 0 ==> log[0].s.claimed == {})
    && (forall i :: 0 < i < |log| ==> Follows(log[i - 1], log[i]))
  }

  ghost predicate Follows(a: SetPass, b: SetPass) {
    && a.done == a.p && a.p.verdict == Allocated
    && b.s.claimed == ClaimedAfter(a.s, a.p) && b.was == a.now
  }

  /** The names claimed, and the objects, where the record ends. */
  ghost predicate EndsAt(log: seq<SetPass>, claimed: set<Id>, start: Objects, now: Objects) {
    if log == [] then claimed == {} && now == start
    else
      var last := log[|log| - 1];
      && log[0].was == start && now == last.now
      && last.done == last.p && last.p.verdict == Allocated && claimed == ClaimedAfter(last.s, last.p)
  }

  lemma PlanOfPass(e: SetPass)
    requires e.Carries()
    ensures IsPlan(e.s, e.p) && PartOf(e.done, e.p) && Carried(e.was, e.now, e.s, e.done, e.t)
    ensures e.p.create <= e.s.Free() && e.p.evict <= e.s.Active()
  {
  }

  lemma ChainGrows(log: seq<SetPass>, e: SetPass, start: Objects)
    requires Chained(log) && EndsAt(log, e.s.claimed, start, e.was) && e.Carries()
    ensures Chained(log + [e]) && (log + [e])[0].was == start
  {
  }

  /** What the passes of all sets read does not change while they run. */
  datatype View = View(
    cache: Objects, store: Store, statuses: map<Id, MachineReport>, members: map<Id, ClusterMachineStatus>)

  ghost predicate Observed(e: SetPass, v: View) {
    && e.s == SituationIn(v.cache, v.store, v.statuses, v.members, e.t, e.s.claimed)
    && SetsAdded(v.store, e.store, e.t.cluster)
  }

  /** A set whose plan is no allocation, or whose extensions are held or being torn down. */
  ghost predicate Refused(e: SetPass) {
    e.p.verdict != Allocated || !CanApplyExtensions(e.store, e.t)
  }

  /** Nothing but the set itself stands in the way: the selector parses and the listing is current. */
  ghost predicate Unhindered(e: SetPass, cache: Objects) {
    e.t.spec.selector.valid && Current(cache, e.was, e.s.listed)
  }

  /** Apart from extensions, machine sets of the cluster were added and nothing else changed. */
  ghost predicate SetsAdded(s: Store, s': Store, cluster: Id) {
    forall k: Key :: !k.ExtensionsKey? ==>
      && (k in s ==> k in s' && s'[k] == s[k])
      && (k in s' && k !in s ==> k.SetKey? && s'[k].labels.cluster == Some(cluster))
  }

  /** The first `n` sets exist in Omni. */
  ghost predicate AllPresent(s: Store, c: ClusterSpec, n: nat) {
    forall i :: 0 <= i < n && i <= |c.workers| ==> SetKey(SetIdFor(c.name, SetName(c, i))) in s
  }

  lemma SetsAddedSameBindings(s: Store, s': Store, cluster: Id, setId: Id)
    requires SetsAdded(s, s', cluster)
    ensures BoundTo(s, setId) == BoundTo(s', setId)
  {
  }

  class ClusterAllocator {
    const kube: Api
    const omni: OmniClient

    constructor (kube: Api, omni: OmniClient)
      ensures this.kube == kube && this.omni == omni
    {
      this.kube, this.omni := kube, omni;
    }

    /** Makes sure the set exists and allocates it. */
    method AllocateOne(a: Allocator, t: Target, ghost v: View)
      returns (r: Result<seq<Id>>, ghost e: SetPass, ghost ran: bool)
      requires a.kube == kube && a.omni == omni && t.spec.selector.Sound()
      requires Coherent(kube.cache, kube.objects, t.unused)
      requires v.cache == kube.cache && v.statuses == omni.statuses && v.members == omni.members
      requires SetsAdded(v.store, omni.state.store, t.cluster)
      modifies a`claimed, kube`objects, omni.state`store
      ensures SetsAdded(v.store, omni.state.store, t.cluster)
      ensures e.t == t && e.s.claimed == old(a.claimed) && e.was == old(kube.objects) && e.now == kube.objects
      ensures Observed(e, v) && Coherent(kube.cache, kube.objects, t.unused)
      ensures if ran then e.Carries() else r.Err? && e.now == e.was
      ensures r.Ok? ==> e.done == e.p && e.p.verdict == Allocated && a.claimed == ClaimedAfter(e.s, e.p)
      ensures r.Ok? ==> ran && Distinct(r.value) && Elems(r.value) == Kept(e.s, e.p)
      ensures SetsAdded(old(omni.state.store), omni.state.store, t.cluster)
      ensures r.Ok? ==> SetKey(t.setId) in omni.state.store
      ensures kube.reliable && omni.state.reliable ==> ran
      ensures kube.reliable && omni.state.reliable && Unhindered(e, kube.cache) ==>
        (r.Err? <==> Refused(e)) && (e.p.verdict != Allocated ==> r.error == Refusal(e.p))
    {
      ghost var s := SituationIn(v.cache, v.store, v.statuses, v.members, t, a.claimed);
      ghost var p := MakePlan(s);
      ran, e := false, SetPass(t, s, p, p, kube.objects, kube.objects, omni.state.store);
      var ensured := EnsureSet(t, v.store);
      if ensured.Err? { return Err(ensured.error), e, ran; }
      r, e := AllocateEnsured(a, t, s, p);
      ran := true;
    }

    /** Makes sure the set exists, which binds no machine. */
    method EnsureSet(t: Target, ghost start: Store) returns (r: Result<()>)
      requires SetsAdded(start, omni.state.store, t.cluster)
      modifies omni.state`store
      ensures SetsAdded(start, omni.state.store, t.cluster) && SetsAdded(old(omni.state.store), omni.state.store, t.cluster)
      ensures BoundTo(start, t.setId) == BoundTo(omni.state.store, t.setId)
      ensures r.Ok? ==> SetKey(t.setId) in omni.state.store
      ensures omni.state.reliable ==> r.Ok?
    {
      r := omni.EnsureMachineSet(t.cluster, t.setId);
      SetsAddedSameBindings(start, omni.state.store, t.cluster, t.setId);
    }

    /** Allocates a set that exists. */
    method AllocateEnsured(a: Allocator, t: Target, ghost s: Situation, ghost p: Plan)
      returns (r: Result<seq<Id>>, ghost e: SetPass)
      requires a.kube == kube && a.omni == omni && t.spec.selector.Sound()
      requires Coherent(kube.cache, kube.objects, t.unused)
      requires s == SituationIn(kube.cache, omni.state.store, omni.statuses, omni.members, t, a.claimed)
      requires ThePlan(s, p) && PlansFor(s, p)
      modifies a`claimed, kube`objects, omni.state`store
      ensures e.t == t && e.s == s && e.p == p && e.was == old(kube.objects) && e.now == kube.objects && e.Carries()
      ensures Coherent(kube.cache, kube.objects, t.unused)
      ensures OnlyExtensions(old(omni.state.store), omni.state.store, t)
      ensures r.Ok? ==> e.done == p && p.verdict == Allocated && a.claimed == ClaimedAfter(s, p)
      ensures r.Ok? ==> Distinct(r.value) && Elems(r.value) == Kept(s, p)
      ensures e.store == old(omni.state.store)
      ensures kube.reliable && omni.state.reliable && Unhindered(e, kube.cache) ==>
        (r.Err? <==> Refused(e)) && (p.verdict != Allocated ==> r.error == Refusal(p))
    {
      ghost var was, store, done := kube.objects, omni.state.store, p;
      r, done := a.ReconcileAllocation(t, s, p);
      StillCoherent(kube.cache, was, kube.objects, s, done, t);
      e := SetPass(t, s, p, done, was, kube.objects, store);
    }

    /** How far the pass is. */
    ghost predicate Progress(a: Allocator, c: ClusterSpec, unused: nat, v: View, start: Objects, log: seq<SetPass>)
      reads this, kube, omni, omni.state, a
    {
      && a.kube == kube && a.omni == omni && SetsAdded(v.store, omni.state.store, c.name)
      && v.cache == kube.cache && v.statuses == omni.statuses && v.members == omni.members
      && Recorded(log, c, unused, v) && EndsAt(log, a.claimed, start, kube.objects)
      && Coherent(kube.cache, kube.objects, unused) && AllPresent(omni.state.store, c, |log|)
    }

    /** Allocates the next set and enters it into the table. */
    method AllocateNext(a: Allocator, t: Target, table: map<Id, seq<Id>>, ghost c: ClusterSpec, ghost unused: nat,
                        ghost log: seq<SetPass>, ghost v: View, ghost start: Objects)
      returns (r: Result<map<Id, seq<Id>>>, ghost longer: seq<SetPass>)
      requires Progress(a, c, unused, v, start, log) && |log| <= |c.workers|
      requires t == TargetAt(c, |log|, unused) && t.spec.selector.Sound()
      requires DistinctSets(c) ==> Reports(table, log)
      modifies a`claimed, kube`objects, omni.state`store
      ensures r.Ok? ==> |longer| == |log| + 1 && Progress(a, c, unused, v, start, longer)
      ensures r.Ok? && DistinctSets(c) ==> Reports(r.value, longer)
      ensures r.Err? ==> RecordEnds(longer, c, unused, v, start, kube.objects)
      ensures SetsAdded(v.store, omni.state.store, c.name)
      ensures kube.reliable && omni.state.reliable && r.Err? ==> StopsAt(longer, kube.cache, r.error)
    {
      ghost var e;
      var one;
      one, longer, e := AllocateRecorded(a, t, c, unused, log, v, start);
      if one.Err? { return Err(one.error), longer; }
      if DistinctSets(c) { ReportGrows(table, log, e, one.value, c, unused, v); }
      r := Ok(table[t.setId := one.value]);
    }

    /** Allocates the next set and records what was done. */
    method AllocateRecorded(a: Allocator, t: Target, ghost c: ClusterSpec, ghost unused: nat,
                            ghost log: seq<SetPass>, ghost v: View, ghost start: Objects)
      returns (r: Result<seq<Id>>, ghost longer: seq<SetPass>, ghost e: SetPass)
      requires Progress(a, c, unused, v, start, log) && |log| <= |c.workers|
      requires t == TargetAt(c, |log|, unused) && t.spec.selector.Sound()
      modifies a`claimed, kube`objects, omni.state`store
      ensures r.Ok? ==> longer == log + [e] && e.t == t && Progress(a, c, unused, v, start, longer)
      ensures r.Ok? ==> Distinct(r.value) && Elems(r.value) == Kept(e.s, e.p)
      ensures r.Err? ==> RecordEnds(longer, c, unused, v, start, kube.objects)
      ensures SetsAdded(v.store, omni.state.store, c.name)
      ensures kube.reliable && omni.state.reliable && r.Err? ==> StopsAt(longer, kube.cache, r.error)
    {
      ghost var before := omni.state.store;
      ghost var ran;
      r, e, ran := AllocateOne(a, t, v);
      longer := if ran then log + [e] else log;
      if ran { RecordGrows(log, e, c, unused, v, start); }
      if r.Ok? { PresentGrows(before, omni.state.store, c, |log|); }
    }

    /** One allocation pass over every set of the cluster, stopping at the first failure. */
    method AllocateSets(c: ClusterSpec, unused: nat)
      returns (r: Result<map<Id, seq<Id>>>, ghost log: seq<SetPass>)
      requires forall i :: 0 <= i <= |c.workers| ==> TargetAt(c, i, unused).spec.selector.Sound()
      requires Coherent(kube.cache, kube.objects, unused)
      modifies kube`objects, omni.state`store
      ensures
        var v := View(kube.cache, old(omni.state.store), omni.statuses, omni.members);
        RecordEnds(log, c, unused, v, old(kube.objects), kube.objects) && SetsAdded(v.store, omni.state.store, c.name)
      ensures r.Ok? ==> |log| == |c.workers| + 1 && (DistinctSets(c) ==> Reports(r.value, log))
      ensures r.Ok? ==> AllPresent(omni.state.store, c, |c.workers| + 1)
      ensures Placed(log, c)
      ensures kube.reliable && omni.state.reliable && r.Err? ==> StopsAt(log, kube.cache, r.error)
    {
      ghost var v := View(kube.cache, omni.state.store, omni.statuses, omni.members);
      ghost var start := kube.objects;
      var a := new Allocator(kube, omni);
      log := [];
      r, log := AllocateNext(a, Target(c.name, SetIdFor(c.name, CONTROL_PLANES), ControlPlane, c.controlPlane, unused),
                             map[], c, unused, log, v, start);
      if r.Ok? { r, log := AllocateWorkers(a, c, unused, r.value, log, v, start); }
      RecordedArePlaced(log, c, unused, v);
    }

    /** Allocates the worker sets in the order of the spec. */
    method AllocateWorkers(a: Allocator, c: ClusterSpec, unused: nat, table: map<Id, seq<Id>>,
                           ghost log: seq<SetPass>, ghost v: View, ghost start: Objects)
      returns (r: Result<map<Id, seq<Id>>>, ghost longer: seq<SetPass>)
      requires Progress(a, c, unused, v, start, log) && |log| == 1 && (DistinctSets(c) ==> Reports(table, log))
      requires forall i :: 0 <= i <= |c.workers| ==> TargetAt(c, i, unused).spec.selector.Sound()
      modifies a`claimed, kube`objects, omni.state`store
      ensures r.Ok? ==> |longer| == |c.workers| + 1 && (DistinctSets(c) ==> Reports(r.value, longer))
      ensures r.Ok? ==> AllPresent(omni.state.store, c, |c.workers| + 1)
      ensures RecordEnds(longer, c, unused, v, start, kube.objects) && SetsAdded(v.store, omni.state.store, c.name)
      ensures kube.reliable && omni.state.reliable && r.Err? ==> StopsAt(longer, kube.cache, r.error)
    {
      r, longer := Ok(table), log;
      for i := 0 to |c.workers|
        invariant |longer| == i + 1 && r.Ok?
        invariant Progress(a, c, unused, v, start, longer)
        invariant DistinctSets(c) ==> Reports(r.value, longer)
      {
        var w := c.workers[i];
        assert TargetAt(c, i + 1, unused).spec.selector.Sound();
        r, longer := AllocateNext(a, Target(c.name, SetIdFor(c.name, w.name), Worker, w.spec, unused),
                                  r.value, c, unused, longer, v, start);
        if r.Err? { return; }
      }
    }
  }

  /** The record of a pass from `start` to `now`. */
  ghost predicate RecordEnds(log: seq<SetPass>, c: ClusterSpec, unused: nat, v: View, start: Objects, now: Objects) {
    && Recorded(log, c, unused, v)
    && if log == [] then now == start else log[0].was == start && log[|log| - 1].now == now
  }

  /** The record of a pass over the first sets of the cluster. */
  ghost predicate Recorded(log: seq<SetPass>, c: ClusterSpec, unused: nat, v: View) {
    && Chained(log) && |log| <= |c.workers| + 1
    && forall i :: 0 <= i < |log| ==> log[i].t == TargetAt(c, i, unused) && Observed(log[i], v)
  }

  /** The first set of a pass is the control plane's, the others are the worker sets in the order of the
      spec, each with its own part of the spec; machines are read and labelled accordingly. */
  ghost predicate Placed(log: seq<SetPass>, c: ClusterSpec) {
    && |log| <= |c.workers| + 1
    && (forall i :: 0 <= i < |log| ==> log[i].t.cluster == c.name && log[i].s.desired == log[i].t.spec.replicas)
    && (|log| > 0 ==>
          && log[0].t.setId == c.name + "-control-planes" && log[0].t.role == ControlPlane && log[0].s.controlPlane
          && log[0].t.spec == c.controlPlane)
    && (forall i :: 0 < i < |log| ==>
          && log[i].t.setId == c.name + "-" + c.workers[i - 1].name && log[i].t.role == Worker && !log[i].s.controlPlane
          && log[i].t.spec == c.workers[i - 1].spec)
  }

  lemma RecordedArePlaced(log: seq<SetPass>, c: ClusterSpec, unused: nat, v: View)
    requires Recorded(log, c, unused, v)
    ensures Placed(log, c)
  {
    forall i | 0 <= i < |log|
      ensures log[i].s.desired == log[i].t.spec.replicas && (log[i].s.controlPlane <==> i == 0)
      ensures log[i].t == TargetAt(c, i, unused)
    {
      assert Observed(log[i], v);
    }
  }

  /** A pass over a reliable connection ends early at a set it is refused for, or hindered from reading. */
  ghost predicate StopsAt(log: seq<SetPass>, cache: Objects, error: Error) {
    && log != []
    && var last := log[|log| - 1];
       Unhindered(last, cache) ==> Refused(last) && (last.p.verdict != Allocated ==> error == Refusal(last.p))
  }

  /** What a pass sheds of each set: of the control plane at most one member, an unhealthy one; of an
      over-full worker set the whole excess, as few healthy machines as possible. */
  lemma SetsAreShed(log: seq<SetPass>, c: ClusterSpec, i: nat)
    requires Chained(log) && Placed(log, c) && i < |log|
    ensures i == 0 ==> |log[0].p.evict| <= 1 && log[0].p.evict !! log[0].s.Healthy()
    ensures i == 0 && log[0].p.evict != {} ==> |log[0].s.Active()| > c.controlPlane.replicas && log[0].s.leaving == {}
    ensures i > 0 && |log[i].s.Active()| > c.workers[i - 1].spec.replicas ==>
      var (s, p) := (log[i].s, log[i].p);
      var excess, unhealthy := |s.Active()| - c.workers[i - 1].spec.replicas, |s.Active() - s.Healthy()|;
      |p.evict| == excess && |p.evict * s.Healthy()| == if excess > unhealthy then excess - unhealthy else 0
  {
    PlanOfPass(log[i]);
    if i == 0 {
      ControlPlaneShedsOneUnhealthy(log[0].s, log[0].p);
    } else if |log[i].s.Active()| > log[i].s.desired {
      WorkerScaleDownIsOptimal(log[i].s, log[i].p);
    }
  }

  /** Every recorded set is reported with the machines it keeps, each once. */
  ghost predicate Reports(table: map<Id, seq<Id>>, log: seq<SetPass>) {
    forall i :: 0 <= i < |log| ==> Reported(table, log[i])
  }

  ghost predicate Reported(table: map<Id, seq<Id>>, e: SetPass) {
    && e.t.setId in table
    && Distinct(table[e.t.setId]) && Elems(table[e.t.setId]) == Kept(e.s, e.p)
  }

  lemma RecordGrows(log: seq<SetPass>, e: SetPass, c: ClusterSpec, unused: nat, v: View, start: Objects)
    requires Recorded(log, c, unused, v) && |log| <= |c.workers| && e.t == TargetAt(c, |log|, unused)
    requires EndsAt(log, e.s.claimed, start, e.was) && e.Carries() && Observed(e, v)
    ensures Recorded(log + [e], c, unused, v) && RecordEnds(log + [e], c, unused, v, start, e.now)
  {
    ChainGrows(log, e, start);
  }

  lemma PresentGrows(s: Store, s': Store, c: ClusterSpec, n: nat)
    requires n <= |c.workers| && AllPresent(s, c, n) && SetsAdded(s, s', c.name) && SetKey(SetIdFor(c.name, SetName(c, n))) in s'
    ensures AllPresent(s', c, n + 1)
  {
  }

  lemma ReportGrows(table: map<Id, seq<Id>>, log: seq<SetPass>, e: SetPass, names: seq<Id>,
                    c: ClusterSpec, unused: nat, v: View)
    requires DistinctSets(c) && Recorded(log + [e], c, unused, v) && Reports(table, log)
    requires Distinct(names) && Elems(names) == Kept(e.s, e.p)
    ensures Reports(table[e.t.setId := names], log + [e])
  {
    var longer := log + [e];
    forall i | 0 <= i < |longer| ensures Reported(table[e.t.setId := names], longer[i]) {
      if i < |log| {
        assert longer[i] == log[i] && longer[|log|] == e;
        assert longer[i].t.setId != longer[|log|].t.setId;
      }
    }
  }

  // ── One machine, one set ─────────────────────────────────────────────────────

  lemma {:induction false} ClaimsGrow(log: seq<SetPass>, i: nat, j: nat)
    requires Chained(log) && i < j < |log|
    ensures ClaimedAfter(log[i].s, log[i].p) <= log[j].s.claimed
  {
    if i < j - 1 { ClaimsGrow(log, i, j - 1); }
  }

  lemma ClaimedAreNotPicked(a: SetPass, b: SetPass)
    requires ClaimedAfter(a.s, a.p) <= b.s.claimed && a.p.evict <= a.s.Active() && b.p.create <= b.s.Free()
    ensures b.p.create !! Kept(a.s, a.p) + a.p.evict + a.s.leaving
  {
  }

  /** A name an earlier set kept or evicted is never picked for a later set of the same pass. */
  lemma NeverRepicked(log: seq<SetPass>, i: nat, j: nat)
    requires Chained(log) && i < j < |log|
    ensures log[j].p.create !! Kept(log[i].s, log[i].p) + log[i].p.evict + log[i].s.leaving
  {
    ClaimsGrow(log, i, j);
    PlanOfPass(log[i]);
    PlanOfPass(log[j]);
    ClaimedAreNotPicked(log[i], log[j]);
  }

  lemma OverlapOf(a: SetPass, b: SetPass)
    requires a.p.evict <= a.s.Active() && b.p.create !! Kept(a.s, a.p) && a.s.Active() !! b.s.Active()
    requires a.p.create <= a.s.Free()
    ensures Kept(a.s, a.p) * Kept(b.s, b.p) == a.p.create * b.s.Active() - b.p.evict
  {
  }

  /** What two sets have in common: nothing but machines that the earlier one picked although they
      already belong to the later one. */
  lemma OverlapIsExactly(log: seq<SetPass>, i: nat, j: nat)
    requires Chained(log) && i < j < |log|
    requires log[i].s.Active() !! log[j].s.Active()
    ensures
      var (a, b) := (log[i], log[j]);
      Kept(a.s, a.p) * Kept(b.s, b.p) == a.p.create * b.s.Active() - b.p.evict
  {
    NeverRepicked(log, i, j);
    PlanOfPass(log[i]);
    OverlapOf(log[i], log[j]);
  }

  /** The same, read off what the two sets read. */
  lemma OverlapIff(log: seq<SetPass>, i: nat, j: nat, m: Id)
    requires Chained(log) && i < j < |log|
    requires log[i].s.Active() !! log[j].s.Active()
    ensures
      var (a, b) := (log[i], log[j]);
      var free, need := a.s.Free(), a.s.desired - |a.s.Active()|;
      m in Kept(a.s, a.p) && m in Kept(b.s, b.p) <==>
        && m in free && |Smaller(free, m)| < need <= |free|
        && m in b.s.Active() && m !in b.p.evict
  {
    OverlapIsExactly(log, i, j);
    PlanOfPass(log[i]);
    PickedIff(log[i].s, log[i].p, m);
    assert m in Kept(log[i].s, log[i].p) * Kept(log[j].s, log[j].p) <==>
      m in log[i].p.create * log[j].s.Active() - log[j].p.evict;
  }

  /** No machine bound to one set has an object labelled for another set of the cluster. */
  ghost predicate Fronted(v: View, c: ClusterSpec) {
    forall m :: m in v.cache && NodeKey(m) in v.store && v.cache[m].cluster == c.name ==>
      v.store[NodeKey(m)].labels.setId == Some(v.cache[m].setId)
  }

  /** The machines the sets of the cluster already have are not on offer. */
  ghost predicate Reserved(log: seq<SetPass>) {
    forall i, j :: 0 <= i < j < |log| ==> log[i].s.pool !! log[j].Own()
  }

  lemma ActivesAreDisjoint(a: SetPass, b: SetPass, v: View, c: ClusterSpec)
    requires Observed(a, v) && Observed(b, v) && Fronted(v, c)
    requires a.t.cluster == c.name == b.t.cluster && a.t.setId != b.t.setId
    ensures a.s.Active() !! b.s.Active()
  {
  }

  /** Under those two conditions, the machines the sets keep are pairwise disjoint. */
  lemma SetsAreDisjoint(log: seq<SetPass>, c: ClusterSpec, unused: nat, v: View, i: nat, j: nat)
    requires Recorded(log, c, unused, v) && DistinctSets(c) && Fronted(v, c) && Reserved(log) && i < j < |log|
    ensures Kept(log[i].s, log[i].p) !! Kept(log[j].s, log[j].p)
  {
    ActivesAreDisjoint(log[i], log[j], v, c);
    OverlapIsExactly(log, i, j);
    PicksFromPool(log[i]);
    NothingInCommon(Kept(log[i].s, log[i].p), Kept(log[j].s, log[j].p), log[i].p.create, log[j].s.Active(), log[j].p.evict);
  }

  lemma PicksFromPool(e: SetPass)
    requires ThePlan(e.s, e.p)
    ensures e.p.create <= e.s.pool && e.s.Active() <= e.Own()
  {
    assert IsPlan(e.s, e.p);
  }

  lemma NothingInCommon(a: set<Id>, b: set<Id>, created: set<Id>, active: set<Id>, evicted: set<Id>)
    requires a * b == created * active - evicted && created !! active
    ensures a !! b
  {
    assert forall m :: m in a && m in b ==> m in a * b;
  }

  /** So no machine is reported twice. */
  lemma ReportedOnce(log: seq<SetPass>, c: ClusterSpec, unused: nat, v: View, table: map<Id, seq<Id>>, i: nat, j: nat)
    requires Recorded(log, c, unused, v) && DistinctSets(c) && Fronted(v, c) && Reserved(log) && i < j < |log|
    requires Reports(table, log)
    ensures forall m :: !(m in table[log[i].t.setId] && m in table[log[j].t.setId])
  {
    SetsAreDisjoint(log, c, unused, v, i, j);
    assert Reported(table, log[i]) && Reported(table, log[j]);
    InElems(table[log[i].t.setId]);
    InElems(table[log[j].t.setId]);
  }

  /** One worker machine that has an object but is not bound yet, and is still on offer. */
  ghost function UnboundView(c: ClusterSpec, older: nat, m: Id, rep: MachineReport): View
    requires |c.workers| > 0
  {
    View(map[m := NewMachine(TargetAt(c, 1, older))], map[], map[m := rep], map[])
  }

  /** Where a machine of a later set is still on offer, because its own pass has not bound it yet, an
      earlier set picks it too: the create finds the object there, and both sets report it. */
  lemma EarlierSetTakesUnbound(c: ClusterSpec, unused: nat, older: nat, m: Id, rep: MachineReport)
    returns (a: SetPass, b: SetPass)
    requires |c.workers| > 0 && c.controlPlane.replicas == 1 == c.workers[0].spec.replicas && DistinctSets(c)
    requires older < unused && AVAILABLE in rep.labels && c.controlPlane.selector.matches(rep.labels)
    ensures
      var v := UnboundView(c, older, m, rep);
      && Recorded([a, b], c, unused, v) && Fronted(v, c) && Coherent(v.cache, a.was, unused)
      && a.was == b.now == v.cache
    ensures m in Kept(a.s, a.p) && m in Kept(b.s, b.p)
  {
    var v := UnboundView(c, older, m, rep);
    a := UnboundFirst(c, unused, older, m, rep);
    b := UnboundSecond(c, unused, older, m, rep, ClaimedAfter(a.s, a.p));
    assert Follows(a, b);
  }

  lemma UnboundReads(c: ClusterSpec, unused: nat, older: nat, m: Id, rep: MachineReport, claimed: set<Id>)
    requires |c.workers| > 0 && DistinctSets(c)
    requires AVAILABLE in rep.labels && c.controlPlane.selector.matches(rep.labels)
    ensures
      var v := UnboundView(c, older, m, rep);
      var s := SituationIn(v.cache, v.store, v.statuses, v.members, TargetAt(c, 0, unused), claimed);
      s.Active() == {} == s.leaving && s.pool == {m}
    ensures
      var v := UnboundView(c, older, m, rep);
      var s := SituationIn(v.cache, v.store, v.statuses, v.members, TargetAt(c, 1, unused), claimed);
      s.Active() == {m} == s.listed && s.Adopted() == {}
  {
    assert SetIdFor(c.name, SetName(c, 0)) != SetIdFor(c.name, SetName(c, 1));
    assert MachinesIn(UnboundView(c, older, m, rep).cache, c.name, SetIdFor(c.name, SetName(c, 1))) == {m};
  }

  lemma UnboundFirst(c: ClusterSpec, unused: nat, older: nat, m: Id, rep: MachineReport) returns (a: SetPass)
    requires |c.workers| > 0 && c.controlPlane.replicas == 1 && DistinctSets(c)
    requires AVAILABLE in rep.labels && c.controlPlane.selector.matches(rep.labels)
    ensures
      var v := UnboundView(c, older, m, rep);
      && a.t == TargetAt(c, 0, unused) && Observed(a, v) && a.Carries() && a.was == a.now == v.cache && a.done == a.p
      && a.s.claimed == {} && a.p == Plan({}, {m}, {}, Allocated)
    ensures m in Kept(a.s, a.p)
  {
    var v, t := UnboundView(c, older, m, rep), TargetAt(c, 0, unused);
    var s := SituationIn(v.cache, v.store, v.statuses, v.members, t, {});
    UnboundReads(c, unused, older, m, rep, {});
    var p := OnePick(s, m);
    a := SetPass(t, s, p, p, v.cache, v.cache, v.store);
    NothingLost(v.cache, p, t);
  }

  lemma UnboundSecond(c: ClusterSpec, unused: nat, older: nat, m: Id, rep: MachineReport, claimed: set<Id>)
    returns (b: SetPass)
    requires |c.workers| > 0 && c.workers[0].spec.replicas == 1 && DistinctSets(c)
    requires AVAILABLE in rep.labels && c.controlPlane.selector.matches(rep.labels)
    ensures
      var v := UnboundView(c, older, m, rep);
      && b.t == TargetAt(c, 1, unused) && Observed(b, v) && b.Carries() && b.was == b.now == v.cache
      && b.s.claimed == claimed
    ensures m in Kept(b.s, b.p)
  {
    var v, t := UnboundView(c, older, m, rep), TargetAt(c, 1, unused);
    var s := SituationIn(v.cache, v.store, v.statuses, v.members, t, claimed);
    UnboundReads(c, unused, older, m, rep, claimed);
    var p := Plan({}, {}, {}, Allocated);
    assert IsPlan(s, p);
    forall q | IsPlan(s, q) ensures q == p { PlanUnique(s, p, q); }
    b := SetPass(t, s, p, p, v.cache, v.cache, v.store);
    NothingLost(v.cache, p, t);
  }

  /** A plan that evicts nothing and asks only for objects that exist leaves them as they are. */
  lemma NothingLost(objects: Objects, p: Plan, t: Target)
    requires p.evict == {} && p.adopt + p.create <= objects.Keys
    ensures Applied(objects, p, NewMachine(t)) == objects
  {
    assert Created(objects, p.adopt + p.create, NewMachine(t)) == objects;
  }

  lemma OnePick(s: Situation, m: Id) returns (p: Plan)
    requires s.Active() == {} && s.Free() == {m} && s.desired == 1
    ensures ThePlan(s, p) && p == Plan({}, {m}, {}, Allocated)
  {
    p := MakePlan(s);
    assert IsPlan(s, p) && s.Adopted() <= s.Active();
    SubsetSize(p.create, {m});
  }
}
