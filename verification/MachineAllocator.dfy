/** The allocation pass over one machine set, as the cluster controller carries it out
    (controllers/omnicluster_controller.go), proved against the plans of module Allocation. */
module MachineAllocator {
  import opened Ids
  import opened Cosi
  import opened OmniApi
  import opened Kube
  import opened Allocation

  datatype MachineSetSpec = MachineSetSpec(
    replicas: nat, selector: Selector, extensions: seq<string>, kernelArgs: seq<string>, patches: seq<ConfigPatch>)

  /** The machine set a pass works on. `unused` is a resource version no cached object has reached. */
  datatype Target = Target(cluster: Id, setId: Id, role: Role, spec: MachineSetSpec, unused: nat)

  /** The part of a machine's spec that its set determines; the reboot request is not part of it. */
  function DesiredSpec(t: Target): MachineSpec {
    MachineSpec(t.cluster, t.setId, t.role, t.spec.patches, t.spec.kernelArgs, None, "")
  }

  function NewMachine(t: Target): (m: Machine)
    ensures Matches(m, t) && m.spec.rebootRequestedAt.None? && m.spec.managementAddress == ""
    ensures m.status.phase.Pending? && m.status.lastReboot.None? && !m.finalizer && !m.deleting && m.version == t.unused
  {
    Machine(t.cluster, t.setId, DesiredSpec(t), MachineStatus(Pending, None), false, false, t.unused)
  }

  /** The machine is labelled and specified as its set wants it. */
  ghost predicate Matches(m: Machine, t: Target) {
    && m.cluster == t.cluster && m.setId == t.setId
    && m.spec.cluster == t.cluster && m.spec.setId == t.setId && m.spec.role == t.role
    && m.spec.patches == t.spec.patches && m.spec.kernelArgs == t.spec.kernelArgs
  }

  /** A sync leaves to a machine what is not its set's: the reboot request with its address, the status,
      the finalizer and the mark for deletion. */
  ghost predicate Synced(m: Machine, m': Machine, t: Target) {
    && Matches(m', t) && m'.version == m.version + 1
    && m'.spec.rebootRequestedAt == m.spec.rebootRequestedAt && m'.spec.managementAddress == m.spec.managementAddress
    && m'.status == m.status && m'.finalizer == m.finalizer && m'.deleting == m.deleting
  }

  ghost function Created(objects: Objects, names: set<Id>, m: Machine): Objects {
    map n | n in objects.Keys + names :: if n in objects then objects[n] else m
  }

  ghost function DeletedAll(objects: Objects, names: set<Id>): Objects {
    map n | n in objects && !(n in names && !objects[n].finalizer) :: 
      if n in names then Deleted(objects, n)[n] else objects[n]
  }

  /** Some of the objects were brought in sync, the rest are as they were. */
  ghost predicate SyncedOn(was: Objects, now: Objects, names: set<Id>, t: Target) {
    && now.Keys == was.Keys
    && forall n :: n in was ==>
         now[n] == was[n] || (n in names && Synced(was[n], now[n], t))
  }

  ghost predicate AllSynced(now: Objects, names: set<Id>, t: Target) {
    forall n :: n in names && n in now ==> Matches(now[n], t)
  }

  /** The objects after `done` was carried out, with some of the listed survivors synced. */
  ghost predicate Carried(was: Objects, now: Objects, s: Situation, done: Plan, t: Target) {
    SyncedOn(Applied(was, done, NewMachine(t)), now, s.listed - done.evict, t)
  }

  /** The error of a pass that found too few machines, or a control plane that wants none. */
  ghost function Refusal(p: Plan): Error {
    if p.verdict == Shortage then NotEnoughMachines else ControlPlaneBelowOne
  }

  /** The objects after the creations and deletions of a plan. */
  ghost function Applied(objects: Objects, done: Plan, m: Machine): Objects {
    DeletedAll(Created(objects, done.adopt + done.create, m), done.evict)
  }

  lemma NothingDone(objects: Objects, m: Machine)
    ensures Created(objects, {}, m) == objects && DeletedAll(objects, {}) == objects
  {
  }

  lemma CreatedNext(was: Objects, done: set<Id>, n: Id, m: Machine)
    ensures
      var now := Created(was, done, m);
      Created(was, done + {n}, m) == if n in now then now else now[n := m]
  {
  }

  lemma DeletedNext(was: Objects, done: set<Id>, n: Id)
    ensures DeletedAll(was, done + {n}) == Deleted(DeletedAll(was, done), n)
  {
  }

  /** The cache lags behind: a cached version is never ahead, and the current version shows the
      object as it is. */
  ghost predicate Coherent(cache: Objects, objects: Objects, unused: nat) {
    forall n :: n in cache ==>
      && cache[n].version < unused
      && (n in objects ==> cache[n].version <= objects[n].version)
      && (n in objects && cache[n].version == objects[n].version ==> cache[n] == objects[n])
  }

  /** How a pass ends: a part of the plan was carried out and the claims grew accordingly; when it
      succeeded, all of the plan was, and the value lists the names kept. */
  ghost predicate Outcome(s: Situation, p: Plan, done: Plan, r: Result<seq<Id>>, claimed: set<Id>) {
    && PartOf(done, p) && s.claimed <= claimed <= ClaimedAfter(s, p)
    && (r.Ok? ==>
          && done == p && p.verdict == Allocated && claimed == ClaimedAfter(s, p)
          && Distinct(r.value) && Elems(r.value) == Kept(s, p))
    && (r == Err(NotEnoughMachines) ==> p.verdict == Shortage) && (r == Err(ControlPlaneBelowOne) ==> p.verdict == BelowOne)
  }

  /** The listing shows these objects as they are. */
  ghost predicate Current(cache: Objects, objects: Objects, names: set<Id>) {
    forall n :: n in names ==> n in cache && n in objects && cache[n] == objects[n]
  }

  /** The machines may be synced from the cache: none of them is being deleted, and one whose
      version is current is shown as it is. */
  ghost predicate SyncReady(cache: Objects, objects: Objects, names: set<Id>) {
    forall n :: n in names ==>
      && n in cache && !cache[n].deleting
      && (n in objects && cache[n].version == objects[n].version ==> cache[n] == objects[n])
  }

  ghost function Listed(cache: Objects, t: Target, deleting: bool): set<Id> {
    set n | n in MachinesIn(cache, t.cluster, t.setId) && cache[n].deleting == deleting
  }

  /** What a pass over `t` reads, given the names already claimed. */
  ghost function SituationIn(
    cache: Objects, s: Store, statuses: map<Id, MachineReport>, members: map<Id, ClusterMachineStatus>,
    t: Target, claimed: set<Id>): Situation
  {
    Situation(Listed(cache, t, false), Listed(cache, t, true), BoundTo(s, t.setId), Eligible(statuses, t.spec.selector),
      HealthOf(members, statuses, t.setId), claimed, t.spec.replicas, t.role == ControlPlane)
  }

  /** The health a scale-down goes by: a machine counts as healthy exactly when it is reported connected
      and is a running and ready member of the set. */
  lemma HealthyIff(cache: Objects, s: Store, statuses: map<Id, MachineReport>, members: map<Id, ClusterMachineStatus>,
                   t: Target, claimed: set<Id>, m: Id)
    ensures m in SituationIn(cache, s, statuses, members, t, claimed).Healthy() <==>
      && m in statuses && statuses[m].connected
      && m in members && members[m].setId == t.setId && members[m].running && members[m].ready
  {
  }

  /** What a pass does to a machine that stays or is new. */
  lemma PassInFields(was: Objects, now: Objects, s: Situation, done: Plan, t: Target, n: Id)
    requires Carried(was, now, s, done, t) && n in now
    ensures n in was ==>
      && now[n].spec.rebootRequestedAt == was[n].spec.rebootRequestedAt
      && now[n].spec.managementAddress == was[n].spec.managementAddress
      && now[n].status == was[n].status && now[n].finalizer == was[n].finalizer
      && (now[n].deleting <==> was[n].deleting || n in done.evict)
    ensures n !in was ==>
      && n in done.adopt + done.create && now[n].spec.rebootRequestedAt.None? && now[n].spec.managementAddress == ""
      && now[n].status.phase.Pending? && now[n].status.lastReboot.None? && !now[n].finalizer && !now[n].deleting
    ensures n !in was || now[n].spec != was[n].spec ==>
      && now[n].cluster == t.cluster == now[n].spec.cluster && now[n].setId == t.setId == now[n].spec.setId
      && now[n].spec.role == t.role && now[n].spec.patches == t.spec.patches && now[n].spec.kernelArgs == t.spec.kernelArgs
  {
    var mid := Applied(was, done, NewMachine(t));
    assert n in mid && (now[n] == mid[n] || Synced(mid[n], now[n], t));
  }

  /** The names were dealt with from the first one on. */
  ghost predicate InTurn(names: seq<Id>, done: set<Id>) {
    exists n :: 0 <= n <= |names| && done == Elems(names[..n])
  }

  class Allocator {
    const kube: Api
    const omni: OmniClient
    var claimed: set<Id>

    constructor (kube: Api, omni: OmniClient)
      ensures this.kube == kube && this.omni == omni && claimed == {}
    {
      this.kube, this.omni, claimed := kube, omni, {};
    }

    /** Creates an object for every name outside `have`, in order; the value lists those names. */
    method CreateMachines(names: seq<Id>, have: set<Id>, t: Target) returns (r: Result<seq<Id>>, ghost done: set<Id>)
      requires Distinct(names)
      modifies kube`objects
      ensures done <= Elems(names) - have && kube.objects == Created(old(kube.objects), done, NewMachine(t))
      ensures r.Ok? ==> Distinct(r.value) && Elems(r.value) == done == Elems(names) - have
      ensures r.Err? ==> r.error == Unavailable
      ensures kube.reliable ==> r.Ok?
    {
      var made: seq<Id> := [];
      done := {};
      NothingDone(kube.objects, NewMachine(t));
      for i := 0 to |names|
        invariant Distinct(made) && Elems(made) == done == Elems(names[..i]) - have
        invariant done <= Elems(names) - have
        invariant kube.objects == Created(old(kube.objects), done, NewMachine(t))
      {
        ElemsStep(names, i);
        if names[i] !in have {
          var one := kube.Create(names[i], NewMachine(t));
          if one.Err? { return Err(one.error), done; }
          CreatedNext(old(kube.objects), done, names[i], NewMachine(t));
          done := done + {names[i]};
          Snoc(made, names[i]);
          made := made + [names[i]];
        }
      }
      assert names[..|names|] == names;
      return Ok(made), done;
    }

    method DeleteMachines(names: seq<Id>) returns (r: Result<()>, ghost done: set<Id>)
      modifies kube`objects
      ensures done <= Elems(names) && kube.objects == DeletedAll(old(kube.objects), done)
      ensures InTurn(names, done)
      ensures r.Ok? ==> done == Elems(names)
      ensures r.Err? ==> r.error == Unavailable
      ensures kube.reliable ==> r.Ok?
    {
      done := {};
      assert DeletedAll(kube.objects, {}) == kube.objects;
      for i := 0 to |names|
        invariant done == Elems(names[..i]) <= Elems(names) && kube.objects == DeletedAll(old(kube.objects), done)
      {
        ElemsStep(names, i);
        r := kube.Delete(names[i]);
        if r.Err? { return; }
        DeletedNext(old(kube.objects), done, names[i]);
        done := done + {names[i]};
      }
      assert names[..|names|] == names;
      return Ok(()), done;
    }

    /** The first `need` candidates that nobody has claimed, among the first `i`. */
    method PickUnclaimed(candidates: seq<Id>, need: nat) returns (picked: seq<Id>, i: nat)
      requires Distinct(candidates)
      ensures i <= |candidates| && |picked| <= need && (i == |candidates| || |picked| == need)
      ensures Distinct(picked) && forall m :: m in Elems(picked) <==> m in Elems(candidates[..i]) && m !in claimed
    {
      picked, i := [], 0;
      while i < |candidates| && |picked| < need
        invariant 0 <= i <= |candidates| && |picked| <= need
        invariant Distinct(picked)
        invariant forall m :: m in Elems(picked) <==> m in Elems(candidates[..i]) && m !in claimed
      {
        ElemsStep(candidates, i);
        if candidates[i] !in claimed {
          Snoc(picked, candidates[i]);
          picked := picked + [candidates[i]];
        }
        i := i + 1;
      }
    }

    /** The `needed` smallest free names, or too few of them when too few are free. */
    method FindFree(t: Target, needed: nat, ghost free: set<Id>) returns (r: Result<seq<Id>>)
      requires t.spec.selector.Sound()
      requires forall m :: m in free <==> m in Eligible(omni.statuses, t.spec.selector) && m !in claimed
      ensures r.Ok? ==> Distinct(r.value) && FoundFree(r.value, free, needed)
      ensures r.Err? ==> r.error in {Unavailable, InvalidSelector}
      ensures omni.state.reliable && t.spec.selector.valid ==> r.Ok?
    {
      var candidates := omni.SelectAvailableMachines(t.spec.selector, needed + |claimed|);
      if candidates.Err? { return candidates; }
      var picked, i := PickUnclaimed(candidates.value, needed);
      UnclaimedAreLeast(candidates.value, i, picked, needed, Eligible(omni.statuses, t.spec.selector), claimed, free);
      return Ok(picked);
    }

    /** Adopts the bindings that lack an object and claims every name; what stays is the value. */
    method AdoptAndClaim(t: Target, existing: seq<Id>, bound: seq<Id>, ghost s: Situation)
      returns (r: Result<seq<Id>>, deleting: nat, ghost adopted: set<Id>)
      requires Loaded(t, existing, bound, s)
      modifies this`claimed, kube`objects
      ensures adopted <= s.Adopted() && kube.objects == Created(old(kube.objects), adopted, NewMachine(t))
      ensures r.Err? ==> claimed == s.claimed && r.error == Unavailable
      ensures r.Ok? ==> adopted == s.Adopted() && claimed == s.Spoken()
      ensures r.Ok? ==> Distinct(r.value) && Elems(r.value) == s.Active() && (deleting == 0 <==> s.leaving == {})
      ensures kube.reliable ==> r.Ok?
    {
      deleting := 0;
      var made;
      made, adopted := CreateMachines(bound, Elems(existing), t);
      assert Elems(bound) - Elems(existing) == s.Adopted();
      if made.Err? { return Err(made.error), deleting, adopted; }
      var active;
      active, deleting := ClaimListed(existing, s.listed, s.leaving);
      claimed := claimed + Elems(made.value);
      DistinctAppend(active, made.value);
      return Ok(active + made.value), deleting, adopted;
    }

    /** Claims every listed name and sorts out the ones that are not being deleted. */
    method ClaimListed(names: seq<Id>, ghost staying: set<Id>, ghost leaving: set<Id>)
      returns (active: seq<Id>, deleting: nat)
      requires Distinct(names) && staying !! leaving && forall n :: n in Elems(names) <==> n in staying || n in leaving
      requires forall n :: n in Elems(names) ==> n in kube.cache && (n in leaving <==> kube.cache[n].deleting)
      modifies this`claimed
      ensures claimed == old(claimed) + Elems(names)
      ensures Distinct(active) && Elems(active) == staying && (deleting == 0 <==> leaving == {})
    {
      active, deleting := [], 0;
      ghost var gone: set<Id> := {};
      for i := 0 to |names|
        invariant claimed == old(claimed) + Elems(names[..i])
        invariant Distinct(active) && Elems(active) <= staying && gone <= leaving && (deleting == 0 <==> gone == {})
        invariant forall n :: n in Elems(names[..i]) <==> n in Elems(active) || n in gone
      {
        var n := names[i];
        ElemsStep(names, i);
        claimed := claimed + {n};
        if kube.cache[n].deleting {
          deleting, gone := deleting + 1, gone + {n};
        } else {
          Snoc(active, n);
          active := active + [n];
        }
      }
      assert names[..|names|] == names;
      assert gone == leaving && Elems(active) == staying;
    }

    /** Creates the picked machines, claiming each and adding it to the active ones. */
    method AddMachines(t: Target, active: seq<Id>, picked: seq<Id>)
      returns (r: Result<seq<Id>>, ghost created: set<Id>)
      requires Distinct(active) && Distinct(picked) && Elems(active) !! Elems(picked)
      modifies this`claimed, kube`objects
      ensures InTurn(picked, created)
      ensures created <= Elems(picked) && kube.objects == Created(old(kube.objects), created, NewMachine(t))
      ensures claimed == old(claimed) + created
      ensures r.Ok? ==> created == Elems(picked) && Distinct(r.value) && Elems(r.value) == Elems(active) + created
      ensures r.Err? ==> r.error == Unavailable
      ensures kube.reliable ==> r.Ok?
    {
      created := {};
      NothingDone(kube.objects, NewMachine(t));
      for i := 0 to |picked|
        invariant created == Elems(picked[..i]) <= Elems(picked) && claimed == old(claimed) + created
        invariant kube.objects == Created(old(kube.objects), created, NewMachine(t))
      {
        ElemsStep(picked, i);
        var one := kube.Create(picked[i], NewMachine(t));
        if one.Err? { return Err(one.error), created; }
        CreatedNext(old(kube.objects), created, picked[i], NewMachine(t));
        claimed, created := claimed + {picked[i]}, created + {picked[i]};
      }
      assert picked[..|picked|] == picked;
      DistinctAppend(active, picked);
      return Ok(active + picked), created;
    }

    /** Creates the `needed` smallest free names, or none when too few are free. `create` and `enough`
        are what any search for them comes to. */
    method PickAndAdd(t: Target, active: seq<Id>, needed: nat, ghost free: set<Id>, ghost create: set<Id>, ghost enough: bool)
      returns (r: Result<seq<Id>>, ghost created: set<Id>)
      requires t.spec.selector.Sound() && Distinct(active) && Elems(active) !! free
      requires forall m :: m in free <==> m in Eligible(omni.statuses, t.spec.selector) && m !in claimed
      requires SearchFinds(free, needed, create, enough)
      modifies this`claimed, kube`objects
      ensures created <= create && kube.objects == Created(old(kube.objects), created, NewMachine(t))
      ensures claimed == old(claimed) + created
      ensures r.Ok? ==> enough && created == create && Distinct(r.value) && Elems(r.value) == Elems(active) + create
      ensures r == Err(NotEnoughMachines) ==> !enough
      ensures r.Err? ==> r.error in {NotEnoughMachines, Unavailable, InvalidSelector}
      ensures kube.reliable && omni.state.reliable && t.spec.selector.valid ==>
        if enough then r.Ok? else r == Err(NotEnoughMachines)
    {
      created := {};
      NothingDone(kube.objects, NewMachine(t));
      var found := FindFree(t, needed, free);
      if found.Err? { return found, created; }
      if |found.value| < needed { return Err(NotEnoughMachines), created; }
      r, created := AddMachines(t, active, found.value);
    }

    /** Brings a set that is short of machines to the desired number. */
    method ScaleUp(t: Target, active: seq<Id>, ghost s: Situation, ghost p: Plan)
      returns (r: Result<seq<Id>>, ghost created: set<Id>)
      requires t.spec.selector.Sound() && s.pool == Eligible(omni.statuses, t.spec.selector)
      requires PlansFor(s, p) && s.desired == t.spec.replicas > |active|
      requires Distinct(active) && Elems(active) == s.Active() && claimed == s.Spoken()
      modifies this`claimed, kube`objects
      ensures created <= p.create && kube.objects == Created(old(kube.objects), created, NewMachine(t))
      ensures claimed == old(claimed) + created
      ensures r.Ok? ==> p.verdict == Allocated && created == p.create && p.evict == {}
      ensures r.Ok? ==> Distinct(r.value) && Elems(r.value) == Kept(s, p)
      ensures r == Err(NotEnoughMachines) ==> p.verdict == Shortage
      ensures r.Err? ==> r.error in {NotEnoughMachines, Unavailable, InvalidSelector}
      ensures kube.reliable && omni.state.reliable && t.spec.selector.valid ==>
        if p.verdict == Allocated then r.Ok? else r == Err(NotEnoughMachines)
    {
      ghost var free := PlanIsFound(s, p, active);
      r, created := PickAndAdd(t, active, t.spec.replicas - |active|, free, p.create, p.verdict == Allocated);
    }

    /** How many of the ordered names go. */
    method CountRemovals(t: Target, ordered: seq<Id>, deleting: nat, health: map<Id, MachineHealth>)
      returns (r: Result<nat>)
      requires |ordered| > t.spec.replicas
      ensures r.Err? <==> t.role == ControlPlane && t.spec.replicas < 1
      ensures r.Err? ==> r.error == ControlPlaneBelowOne
      ensures r.Ok? ==>
        r.value == (
          if t.role != ControlPlane then |ordered| - t.spec.replicas
          else if deleting > 0 || MachineHealthy(health, ordered[0]) then 0
          else 1)
    {
      var toRemove := |ordered| - t.spec.replicas;
      if t.role == ControlPlane {
        if t.spec.replicas < 1 { return Err(ControlPlaneBelowOne); }
        if deleting > 0 {
          toRemove := 0;
        } else if toRemove > 1 {
          toRemove := 1;
        }
        if toRemove > 0 && MachineHealthy(health, ordered[0]) { toRemove := 0; }
      }
      return Ok(toRemove);
    }

    /** Deletes the first machines in eviction order, as many as may go. */
    method ScaleDown(t: Target, active: seq<Id>, deleting: nat, ghost s: Situation, ghost p: Plan)
      returns (r: Result<seq<Id>>, ghost evicted: set<Id>)
      requires PlansFor(s, p) && s.health == HealthOf(omni.members, omni.statuses, t.setId)
      requires s.desired == t.spec.replicas && s.controlPlane == (t.role == ControlPlane) && (deleting == 0 <==> s.leaving == {})
      requires Distinct(active) && Elems(active) == s.Active() && |active| > s.desired
      modifies kube`objects
      ensures evicted <= p.evict && kube.objects == DeletedAll(old(kube.objects), evicted)
      ensures r.Ok? ==> p.verdict == Allocated && evicted == p.evict
      ensures r.Ok? ==> Distinct(r.value) && Elems(r.value) == Kept(s, p) && p.create == {}
      ensures r == Err(ControlPlaneBelowOne) ==> p.verdict == BelowOne
      ensures r.Err? ==> r.error in {ControlPlaneBelowOne, Unavailable}
      ensures kube.reliable && omni.state.reliable ==>
        if p.verdict == Allocated then r.Ok? else r == Err(ControlPlaneBelowOne)
    {
      evicted := {};
      Counted(s, p, active);
      NothingDone(kube.objects, NewMachine(t));
      var health := omni.MachineSetNodeHealth(t.setId);
      if health.Err? { return Err(health.error), evicted; }
      var ordered := SortForEviction(active, health.value);
      var toRemove := CountRemovals(t, ordered, deleting, health.value);
      if toRemove.Err? { return Err(toRemove.error), evicted; }
      FirstHealthyMeansAll(ordered, health.value, s);
      FirstToEvict(ordered, toRemove.value, health.value, p.evict, s.Active());
      if toRemove.value > 0 {
        var gone;
        gone, evicted := DeleteMachines(ordered[..toRemove.value]);
        if gone.Err? { return Err(gone.error), evicted; }
      }
      return Ok(ordered[toRemove.value..]), evicted;
    }

    /** Brings one machine in sync with the set's spec; one already in sync is not written. */
    method SyncOne(name: Id, t: Target, ghost was: Objects, ghost done: set<Id>) returns (r: Result<()>)
      requires name in kube.cache && !kube.cache[name].deleting && name !in done
      requires SyncedOn(was, kube.objects, done, t) && SyncReady(kube.cache, was, {name})
      modifies kube`objects
      ensures SyncedOn(was, kube.objects, done + {name}, t)
      ensures r.Err? ==> kube.objects == old(kube.objects)
      ensures kube.objects.Keys == old(kube.objects).Keys
      ensures r.Err? ==> r.error in {Unavailable, Conflict, NotFound}
      ensures forall n :: n in kube.objects && n != name ==> kube.objects[n] == old(kube.objects)[n]
      ensures Current(kube.cache, was, {name}) ==>
        && (r.Ok? ==> Matches(kube.objects[name], t))
        && (Matches(was[name], t) ==> kube.objects == old(kube.objects))
        && (kube.reliable ==> r.Ok?)
    {
      var m := kube.cache[name];
      var want := DesiredSpec(t);
      var updated := m.(
        cluster := t.cluster, setId := t.setId,
        spec := m.spec.(cluster := want.cluster, setId := want.setId, role := want.role,
                        patches := want.patches, kernelArgs := want.kernelArgs));
      if updated == m { return Ok(()); }
      r := kube.Update(name, updated);
    }

    /** Brings every listed survivor in sync with the set's spec. */
    method SyncMachines(t: Target, names: seq<Id>, listed: set<Id>, ghost survivors: set<Id>) returns (r: Result<()>)
      requires forall n :: n in survivors <==> n in Elems(names) && n in listed
      requires Distinct(names) && SyncReady(kube.cache, kube.objects, survivors)
      modifies kube`objects
      ensures SyncedOn(old(kube.objects), kube.objects, survivors, t)
      ensures r.Err? ==> r.error in {Unavailable, Conflict, NotFound}
      ensures Current(kube.cache, old(kube.objects), survivors) ==>
        && (r.Ok? ==> AllSynced(kube.objects, survivors, t))
        && (kube.reliable ==> r.Ok?)
    {
      ghost var was := kube.objects;
      ghost var done: set<Id> := {};
      for i := 0 to |names|
        invariant forall n :: n in done <==> n in Elems(names[..i]) && n in listed
        invariant done <= survivors && SyncedOn(was, kube.objects, done, t)
        invariant Current(kube.cache, was, survivors) ==> AllSynced(kube.objects, done, t)
      {
        ElemsStep(names, i);
        if names[i] in listed {
          r := SyncOne(names[i], t, was, done);
          done := done + {names[i]};
          if r.Err? { return; }
        }
      }
      assert names[..|names|] == names;
      assert done == survivors;
      return Ok(());
    }

    /** Creates, rewrites or removes the set's extensions configuration. */
    method ApplyExtensions(t: Target) returns (r: Result<()>)
      modifies omni.state`store
      ensures ExtensionsEffect(old(omni.state.store), omni.state.store, t, r.Ok?)
      ensures omni.state.reliable ==> (r.Ok? <==> CanApplyExtensions(old(omni.state.store), t))
      ensures r.Err? ==> r.error in {Unavailable, Conflict, NotFound, PhaseConflict, InProgress, FinalizersHeld}
      ensures omni.state.reliable && r.Err? ==> r.error == if t.spec.extensions == [] then InProgress else PhaseConflict
    {
      if t.spec.extensions != [] {
        r := omni.EnsureStrings(ExtensionsKey(t.setId), Labels(Some(t.cluster), Some(t.setId), None, None), t.spec.extensions, Elsewhere);
      } else {
        r := omni.state.TeardownAndDestroy(ExtensionsKey(t.setId));
      }
    }

    /** Brings the number of machines to the desired one, as far as this pass may go. */
    method Resize(t: Target, active: seq<Id>, deleting: nat, ghost s: Situation, ghost p: Plan, ghost was: Objects)
      returns (r: Result<seq<Id>>, ghost done: Plan)
      requires t.spec.selector.Sound() && PlansFor(s, p) && Reads(t, s)
      requires Distinct(active) && Elems(active) == s.Active() && claimed == s.Spoken()
      requires deleting == 0 <==> s.leaving == {}
      requires kube.objects == Created(was, p.adopt, NewMachine(t))
      modifies this`claimed, kube`objects
      ensures Outcome(s, p, done, r, claimed) && kube.objects == Applied(was, done, NewMachine(t))
      ensures kube.reliable && omni.state.reliable && t.spec.selector.valid ==>
        done == p && (r.Ok? <==> p.verdict == Allocated) && (r.Err? ==> r.error == Refusal(p))
    {
      ghost var created: set<Id>, evicted: set<Id> := {}, {};
      NothingDone(kube.objects, NewMachine(t));
      if |active| < t.spec.replicas {
        r, created := ScaleUp(t, active, s, p);
        NothingDone(kube.objects, NewMachine(t));
      } else if |active| > t.spec.replicas {
        r, evicted := ScaleDown(t, active, deleting, s, p);
      } else {
        r := Ok(active);
        ExactPlan(s, p, active);
      }
      done := Resized(created, evicted, p, was, NewMachine(t));
      ResizeEnds(s, p, done, r, claimed);
    }

    /** Adopts and resizes one set, from its listing and its bindings. */
    method AdoptAndResize(t: Target, existing: seq<Id>, bound: seq<Id>, ghost s: Situation, ghost p: Plan)
      returns (r: Result<seq<Id>>, ghost done: Plan)
      requires t.spec.selector.Sound() && Loaded(t, existing, bound, s) && PlansFor(s, p)
      modifies this`claimed, kube`objects
      ensures Outcome(s, p, done, r, claimed) && kube.objects == Applied(old(kube.objects), done, NewMachine(t))
      ensures kube.reliable && omni.state.reliable && t.spec.selector.valid ==>
        done == p && (r.Ok? <==> p.verdict == Allocated) && (r.Err? ==> r.error == Refusal(p))
    {
      ghost var was := kube.objects;
      var active, deleting;
      ghost var adopted;
      active, deleting, adopted := AdoptAndClaim(t, existing, bound, s);
      if active.Err? {
        done := AdoptedOnly(adopted, p, was, NewMachine(t));
        return active, done;
      }
      r, done := Resize(t, active.value, deleting, s, p, was);
    }

    /** What the pass reads from Omni. */
    ghost predicate Reads(t: Target, s: Situation)
      reads omni
    {
      && s.pool == Eligible(omni.statuses, t.spec.selector) && s.desired == t.spec.replicas
      && s.health == HealthOf(omni.members, omni.statuses, t.setId) && s.controlPlane == (t.role == ControlPlane)
    }

    /** What a pass over the set reads, and how the reads relate to its situation. */
    ghost predicate Loaded(t: Target, existing: seq<Id>, bound: seq<Id>, s: Situation)
      reads this, kube, omni
    {
      && Distinct(existing) && Elems(existing) == s.listed + s.leaving && s.listed !! s.leaving
      && Distinct(bound) && Elems(bound) == s.bound && s.listed + s.leaving <= kube.cache.Keys
      && (forall n :: n in s.listed + s.leaving ==> (n in s.leaving <==> kube.cache[n].deleting))
      && s.claimed == claimed && Reads(t, s)
    }

    /** Adopts, resizes and syncs one set. */
    method AllocateSet(t: Target, existing: seq<Id>, bound: seq<Id>, ghost s: Situation, ghost p: Plan)
      returns (r: Result<seq<Id>>, ghost done: Plan)
      requires t.spec.selector.Sound() && Loaded(t, existing, bound, s) && PlansFor(s, p)
      requires Coherent(kube.cache, kube.objects, t.unused)
      modifies this`claimed, kube`objects
      ensures Outcome(s, p, done, r, claimed) && Carried(old(kube.objects), kube.objects, s, done, t)
      ensures r.Ok? && Current(kube.cache, old(kube.objects), s.listed) ==>
        AllSynced(kube.objects, s.listed - p.evict, t)
      ensures kube.reliable && omni.state.reliable && t.spec.selector.valid && Current(kube.cache, old(kube.objects), s.listed) ==>
        done == p && (r.Ok? <==> p.verdict == Allocated) && (r.Err? ==> r.error == Refusal(p))
    {
      SurvivorsReady(kube.cache, kube.objects, s, p, t);
      KeptAndListed(s, p);
      r, done := AdoptAndResize(t, existing, bound, s, p);
      if r.Err? { return; }
      var synced := SyncMachines(t, r.value, Elems(existing), s.listed - p.evict);
      if synced.Err? { r := Err(synced.error); }
    }

    /** The set as the pass over it finds it. */
    method ReadSet(t: Target, ghost s: Situation) returns (r: Result<(seq<Id>, seq<Id>)>)
      requires s == SituationIn(kube.cache, omni.state.store, omni.statuses, omni.members, t, claimed)
      ensures r.Ok? ==> Loaded(t, r.value.0, r.value.1, s)
      ensures r.Err? ==> r.error == Unavailable
      ensures kube.reliable && omni.state.reliable ==> r.Ok?
    {
      var existing := kube.ListMachineSetMachines(t.cluster, t.setId);
      if existing.Err? { return Err(existing.error); }
      var bound := omni.AllocatedMachineSetNodes(t.setId);
      if bound.Err? { return Err(bound.error); }
      assert s.listed + s.leaving == MachinesIn(kube.cache, t.cluster, t.setId);
      return Ok((existing.value, bound.value));
    }

    /** Allocates a set that has been read, then its extensions. */
    method AllocateAndExtend(t: Target, existing: seq<Id>, bound: seq<Id>, ghost s: Situation, ghost p: Plan)
      returns (r: Result<seq<Id>>, ghost done: Plan)
      requires t.spec.selector.Sound() && Loaded(t, existing, bound, s) && PlansFor(s, p)
      requires Coherent(kube.cache, kube.objects, t.unused)
      modifies this`claimed, kube`objects, omni.state`store
      ensures Outcome(s, p, done, r, claimed) && Carried(old(kube.objects), kube.objects, s, done, t)
      ensures r.Ok? && Current(kube.cache, old(kube.objects), s.listed) ==>
        AllSynced(kube.objects, s.listed - p.evict, t)
      ensures kube.reliable && omni.state.reliable && t.spec.selector.valid && Current(kube.cache, old(kube.objects), s.listed) ==>
        done == p && (r.Ok? <==> p.verdict == Allocated && CanApplyExtensions(old(omni.state.store), t))
      ensures kube.reliable && omni.state.reliable && t.spec.selector.valid && Current(kube.cache, old(kube.objects), s.listed) ==>
        r.Err? && p.verdict != Allocated ==> r.error == Refusal(p)
      ensures OnlyExtensions(old(omni.state.store), omni.state.store, t)
      ensures r.Ok? ==> ExtensionsEffect(old(omni.state.store), omni.state.store, t, true)
    {
      r, done := AllocateSet(t, existing, bound, s, p);
      if r.Ok? {
        var extended := ApplyExtensions(t);
        if extended.Err? { r := Err(extended.error); }
      }
    }

    /** One allocation pass over one machine set. */
    method ReconcileAllocation(t: Target, ghost s: Situation, ghost p: Plan)
      returns (r: Result<seq<Id>>, ghost done: Plan)
      requires t.spec.selector.Sound() && Coherent(kube.cache, kube.objects, t.unused)
      requires s == SituationIn(kube.cache, omni.state.store, omni.statuses, omni.members, t, claimed) && PlansFor(s, p)
      modifies this`claimed, kube`objects, omni.state`store
      ensures Outcome(s, p, done, r, claimed) && Carried(old(kube.objects), kube.objects, s, done, t)
      ensures r.Ok? && Current(kube.cache, old(kube.objects), s.listed) ==>
        AllSynced(kube.objects, s.listed - p.evict, t)
      ensures kube.reliable && omni.state.reliable && t.spec.selector.valid && Current(kube.cache, old(kube.objects), s.listed) ==>
        done == p && (r.Ok? <==> p.verdict == Allocated && CanApplyExtensions(old(omni.state.store), t))
      ensures kube.reliable && omni.state.reliable && t.spec.selector.valid && Current(kube.cache, old(kube.objects), s.listed) ==>
        r.Err? && p.verdict != Allocated ==> r.error == Refusal(p)
      ensures OnlyExtensions(old(omni.state.store), omni.state.store, t)
      ensures r.Ok? ==> ExtensionsEffect(old(omni.state.store), omni.state.store, t, true)
    {
      var found := ReadSet(t, s);
      if found.Err? {
        NothingDone(kube.objects, NewMachine(t));
        done := AdoptedOnly({}, p, kube.objects, NewMachine(t));
        return Err(found.error), done;
      }
      r, done := AllocateAndExtend(t, found.value.0, found.value.1, s, p);
    }
  }

  /** A pass that came no further than some of its adoptions. */
  ghost function AdoptedOnly(adopted: set<Id>, p: Plan, was: Objects, m: Machine): (done: Plan)
    requires adopted <= p.adopt
    ensures PartOf(done, p) && Applied(was, done, m) == Created(was, adopted, m)
  {
    NothingDone(Created(was, adopted, m), m);
    assert adopted + {} == adopted;
    Plan(adopted, {}, {}, p.verdict)
  }

  /** A pass that adopted every binding and then created or evicted some machines. */
  ghost function Resized(created: set<Id>, evicted: set<Id>, p: Plan, was: Objects, m: Machine): (done: Plan)
    ensures done == Plan(p.adopt, created, evicted, p.verdict)
    ensures Applied(was, done, m) == DeletedAll(Created(Created(was, p.adopt, m), created, m), evicted)
  {
    CreatedTwice(was, p.adopt, created, m);
    Plan(p.adopt, created, evicted, p.verdict)
  }

  lemma ResizeEnds(s: Situation, p: Plan, done: Plan, r: Result<seq<Id>>, claimed: set<Id>)
    requires done.adopt == p.adopt && done.create <= p.create && done.evict <= p.evict && done.verdict == p.verdict
    requires claimed == s.Spoken() + done.create
    requires r.Ok? ==>
      && p.verdict == Allocated && done.create == p.create && done.evict == p.evict
      && Distinct(r.value) && Elems(r.value) == Kept(s, p)
    requires (r == Err(NotEnoughMachines) ==> p.verdict == Shortage) && (r == Err(ControlPlaneBelowOne) ==> p.verdict == BelowOne)
    ensures Outcome(s, p, done, r, claimed)
  {
  }

  /** The plan's shape, given how many machines are active. */
  ghost predicate Sized(s: Situation, p: Plan, n: nat) {
    && (n < s.desired ==> UpPlan(s, p, n) && p.evict == {})
    && (n > s.desired ==> DownPlan(s, p, n) && p.create == {})
    && (n == s.desired ==> p.create == {} && p.evict == {} && p.verdict == Allocated)
    && (p.verdict != Allocated ==> p.create == {} && p.evict == {})
    && (p.evict == {} ==> Kept(s, p) == s.Active() + p.create)
    && (p.create == {} ==> Kept(s, p) == s.Active() - p.evict && ClaimedAfter(s, p) == s.Spoken())
  }

  /** What a plan says of the active machines, once they are counted. */
  ghost predicate PlansFor(s: Situation, p: Plan) {
    && p.adopt == s.Adopted() && p.create <= s.Free()
    && forall active: seq<Id> :: Counts(active, s) ==> Sized(s, p, |active|)
  }

  ghost predicate Counts(active: seq<Id>, s: Situation) {
    Distinct(active) && Elems(active) == s.Active()
  }

  lemma Counted(s: Situation, p: Plan, active: seq<Id>)
    requires PlansFor(s, p) && Distinct(active) && Elems(active) == s.Active()
    ensures Sized(s, p, |active|)
  {
    assert Counts(active, s);
  }

  /** A set that has the desired number stays as it is. */
  lemma ExactPlan(s: Situation, p: Plan, active: seq<Id>)
    requires PlansFor(s, p) && Distinct(active) && Elems(active) == s.Active() && |active| == s.desired
    ensures p.create == {} == p.evict && p.verdict == Allocated && Kept(s, p) == s.Active()
  {
    Counted(s, p, active);
  }

  /** There is a plan for every situation, and only one. */
  ghost predicate ThePlan(s: Situation, p: Plan) {
    forall q :: IsPlan(s, q) <==> q == p
  }

  lemma MakePlan(s: Situation) returns (p: Plan)
    ensures ThePlan(s, p) && PlansFor(s, p)
  {
    p := PlanExists(s);
    PlanIsSized(s, p);
    forall q | IsPlan(s, q) ensures q == p {
      PlanUnique(s, p, q);
    }
  }

  lemma PlanIsSized(s: Situation, p: Plan)
    requires IsPlan(s, p)
    ensures PlansFor(s, p)
  {
    forall active: seq<Id> | Counts(active, s) ensures Sized(s, p, |active|) {
      DistinctSize(active);
    }
  }

  /** Of the listed machines, the plan keeps those that were neither leaving nor evicted. */
  lemma KeptAndListed(s: Situation, p: Plan)
    requires PlansFor(s, p) && s.listed !! s.leaving
    ensures Kept(s, p) * (s.listed + s.leaving) == s.listed - p.evict
  {
  }

  /** What the plan does to other machines leaves the listed survivors ready to be synced. */
  lemma SurvivorsReady(cache: Objects, was: Objects, s: Situation, p: Plan, t: Target)
    requires PlansFor(s, p) && s.listed !! s.leaving && Coherent(cache, was, t.unused) && s.listed <= cache.Keys
    requires forall n :: n in s.listed ==> !cache[n].deleting
    ensures SyncReady(cache, Applied(was, p, NewMachine(t)), s.listed - p.evict)
    ensures Current(cache, was, s.listed) ==> Current(cache, Applied(was, p, NewMachine(t)), s.listed - p.evict)
  {
  }

  lemma StillCoherent(cache: Objects, was: Objects, now: Objects, s: Situation, done: Plan, t: Target)
    requires Coherent(cache, was, t.unused) && Carried(was, now, s, done, t)
    ensures Coherent(cache, now, t.unused)
  {
  }

  lemma CreatedTwice(objects: Objects, a: set<Id>, b: set<Id>, m: Machine)
    ensures Created(Created(objects, a, m), b, m) == Created(objects, a + b, m)
  {
  }

  /** Nothing but the set's extensions configuration changed. */
  ghost predicate OnlyExtensions(s: Store, s': Store, t: Target) {
    forall k :: k != ExtensionsKey(t.setId) ==> (k in s' <==> k in s) && (k in s ==> s'[k] == s[k])
  }

  ghost predicate ExtensionsEffect(s: Store, s': Store, t: Target, ok: bool) {
    var k, labels := ExtensionsKey(t.setId), NodeLabels(t.cluster, t.setId);
    if t.spec.extensions == [] then TearEffect(s, s', {k}, ok)
    else if ok then s' == StringsEnsured(s, k, labels, t.spec.extensions, Elsewhere)
    else s' == s
  }

  ghost predicate CanApplyExtensions(s: Store, t: Target) {
    var k := ExtensionsKey(t.setId);
    if t.spec.extensions == [] then Clear(s, {k})
    else k in s ==> s[k].body == Strings(t.spec.extensions) || s[k].phase == Running
  }

  /** The `needed` smallest names of `free`, in order, or too few of them if `free` is too small. */
  ghost predicate FoundFree(names: seq<Id>, free: set<Id>, needed: nat) {
    && Elems(names) <= free && |names| <= needed
    && (|names| < needed ==> |free| < needed)
    && (|names| == needed ==> Least(Less, Elems(names), free, needed))
  }

  /** Every search for the `needed` smallest free names either finds exactly `create`, or too few. */
  ghost predicate SearchFinds(free: set<Id>, needed: nat, create: set<Id>, enough: bool) {
    forall picked: seq<Id> :: Distinct(picked) && FoundFree(picked, free, needed) ==>
      && Elems(picked) <= free
      && (|picked| == needed <==> enough) && (enough ==> Elems(picked) == create)
  }

  /** What the search finds is what the plan creates. */
  lemma PickedIsPlanned(picked: seq<Id>, s: Situation, p: Plan, n: nat)
    requires UpPlan(s, p, n) && n < s.desired && Distinct(picked) && FoundFree(picked, s.Free(), s.desired - n)
    ensures |picked| == s.desired - n <==> p.verdict == Allocated
    ensures p.verdict == Allocated ==> Elems(picked) == p.create
  {
    if |picked| == s.desired - n {
      SubsetSize(Elems(picked), s.Free());
      LessIsStrictOrder();
      LeastUnique(Less, Elems(picked), p.create, s.Free(), |picked|);
    }
  }

  lemma SearchIsPlan(s: Situation, p: Plan, n: nat)
    requires UpPlan(s, p, n) && n < s.desired
    ensures SearchFinds(s.Free(), s.desired - n, p.create, p.verdict == Allocated)
    ensures p.verdict in {Allocated, Shortage}
  {
    forall picked: seq<Id> | Distinct(picked) && FoundFree(picked, s.Free(), s.desired - n)
      ensures |picked| == s.desired - n <==> p.verdict == Allocated
      ensures p.verdict == Allocated ==> Elems(picked) == p.create
    {
      PickedIsPlanned(picked, s, p, n);
    }
  }

  lemma ShortSearch(s: Situation, p: Plan, active: seq<Id>)
    requires PlansFor(s, p) && Distinct(active) && Elems(active) == s.Active() && |active| < s.desired
    ensures SearchFinds(s.Free(), s.desired - |active|, p.create, p.verdict == Allocated)
    ensures p.verdict in {Allocated, Shortage}
  {
    Counted(s, p, active);
    SearchIsPlan(s, p, |active|);
  }

  lemma ShortKeeps(s: Situation, p: Plan, active: seq<Id>)
    requires PlansFor(s, p) && Distinct(active) && Elems(active) == s.Active() && |active| < s.desired
    ensures p.evict == {} && Kept(s, p) == Elems(active) + p.create
  {
    Counted(s, p, active);
  }

  lemma FreeOf(s: Situation) returns (free: set<Id>)
    ensures free == s.Free() && s.Active() !! free
    ensures forall m :: m in free <==> m in s.pool && m !in s.Spoken()
  {
    free := s.Free();
  }

  /** A set that is short of machines: what a search for them comes to is what the plan says. */
  lemma PlanIsFound(s: Situation, p: Plan, active: seq<Id>) returns (free: set<Id>)
    requires PlansFor(s, p) && Distinct(active) && Elems(active) == s.Active() && |active| < s.desired
    ensures SearchFinds(free, s.desired - |active|, p.create, p.verdict == Allocated)
    ensures Elems(active) !! free && forall m :: m in free <==> m in s.pool && m !in s.Spoken()
    ensures p.verdict in {Allocated, Shortage} && p.evict == {} && Kept(s, p) == Elems(active) + p.create
  {
    ShortSearch(s, p, active);
    ShortKeeps(s, p, active);
    free := FreeOf(s);
  }

  function SortForEviction(names: seq<Id>, health: map<Id, MachineHealth>): (r: seq<Id>)
    requires Distinct(names)
    ensures Sorted(EvictionOrder(health), r) && |r| == |names| && Elems(r) == Elems(names)
  {
    EvictionOrderIsStrict(health);
    Sort(EvictionOrder(health), names)
  }

  lemma FirstHealthyMeansAll(ordered: seq<Id>, health: map<Id, MachineHealth>, s: Situation)
    requires |ordered| > 0 && Sorted(EvictionOrder(health), ordered) && Elems(ordered) == s.Active() && s.health == health
    ensures MachineHealthy(health, ordered[0]) <==> s.Active() <= s.Healthy()
  {
    EvictionOrderIsStrict(health);
    PrefixIsLeast(EvictionOrder(health), ordered, 1);
    var first := ordered[0];
    ElemsStep(ordered, 0);
    assert Elems(ordered[..1]) == {first};
    forall m | m in s.Active() && MachineHealthy(health, first) ensures m in s.Healthy() {
      assert m != first ==> EvictionOrder(health)(first, m);
    }
  }

  lemma FirstToEvict(ordered: seq<Id>, k: nat, health: map<Id, MachineHealth>, evict: set<Id>, active: set<Id>)
    requires Sorted(EvictionOrder(health), ordered) && Elems(ordered) == active && k <= |ordered|
    requires Least(EvictionOrder(health), evict, active, k)
    ensures Elems(ordered[..k]) == evict && Elems(ordered[k..]) == active - evict && Distinct(ordered[k..])
  {
    EvictionOrderIsStrict(health);
    PrefixIsLeast(EvictionOrder(health), ordered, k);
    LeastUnique(EvictionOrder(health), Elems(ordered[..k]), evict, active, k);
    SortedIsDistinct(EvictionOrder(health), ordered);
    Rest(ordered, k);
  }

  /** Asking for `need` more candidates than there are claims always leaves enough of them, if
      enough exist: at most as many as there are claims can be filtered out. */
  lemma UnclaimedAreLeast(names: seq<Id>, i: nat, picked: seq<Id>, need: nat, pool: set<Id>,
                          claimed: set<Id>, free: set<Id>)
    requires forall m :: m in free <==> m in pool && m !in claimed
    requires i <= |names| && Sorted(Less, names) && Distinct(picked)
    requires |picked| <= need && (i == |names| || |picked| == need)
    requires forall m :: m in Elems(picked) <==> m in Elems(names[..i]) && m !in claimed
    requires
      var count := need + |claimed|;
      Least(Less, Elems(names), pool, if count <= |pool| then count else |pool|)
    ensures FoundFree(picked, free, need)
  {
    var all, seen := Elems(names), Elems(names[..i]);
    FirstNamesAreLeast(names, i);
    DistinctSize(picked);
    SubsetSize(Elems(picked), free);
    assert free == pool - claimed;
    if |picked| < need {
      assert names[..i] == names && Elems(picked) == all - claimed;
      DifferenceSize(all, claimed);
      if |all| == |pool| { SubsetSize(all, pool); }
    } else {
      forall y | y in free && y !in Elems(picked) ensures Below(Less, Elems(picked), y) {
        assert if y in all then Below(Less, seen, y) else Below(Less, all, y);
      }
    }
  }
}
