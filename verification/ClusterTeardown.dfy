/** The deletion of a cluster and the pruning of sets that are no longer declared
    (controllers/omnicluster_controller.go). */
module ClusterTeardown {
  import opened Ids
  import opened Cosi
  import opened OmniApi
  import opened Kube
  import opened MachineAllocator
  import opened ClusterAllocation
  import opened Attempts

  class Remover {
    const kube: Api
    const omni: OmniClient

    constructor (kube: Api, omni: OmniClient)
      ensures this.kube == kube && this.omni == omni
    {
      this.kube, this.omni := kube, omni;
    }

    method ReleaseMachines(cluster: Id, names: seq<Id>) returns (r: Result<()>)
      modifies omni.state`store
      ensures Attempt(old(omni.state.store), omni.state.store, ReleaseKeys(old(omni.state.store), cluster, Elems(names)),
                      r.Ok?, omni.state.reliable)
      ensures omni.state.reliable && r.Err? ==> r.error == InProgress
    {
      ghost var s := omni.state.store;
      ghost var all, done: set<Id> := ReleaseKeys(s, cluster, Elems(names)), {};
      AttemptAtNothing(s, ReleaseKeys(s, cluster, done), omni.state.reliable);
      for i := 0 to |names|
        invariant done == Elems(names[..i]) <= Elems(names)
        invariant Attempt(s, omni.state.store, ReleaseKeys(s, cluster, done), true, omni.state.reliable)
      {
        ElemsStep(names, i);
        ghost var t, m := omni.state.store, names[i];
        r := omni.ReleaseMachine(cluster, names[i]);
        ReleaseIsAttempt(t, omni.state.store, cluster, m, r.Ok?, omni.state.reliable);
        ReleaseKeysAfter(s, cluster, done, {m});
        MachineKeysAreReleaseKeys(t, cluster, m);
        AttemptThen(s, t, omni.state.store, ReleaseKeys(s, cluster, done), MachineKeys(t, cluster, m),
                    ReleaseKeys(s, cluster, done + {m}), r.Ok?, omni.state.reliable);
        done := done + {m};
        if r.Err? {
          AttemptOfMore(s, omni.state.store, ReleaseKeys(s, cluster, done), all, omni.state.reliable);
          return;
        }
      }
      assert names[..|names|] == names;
      return Ok(());
    }

    /** Releases every machine bound to one of the sets. */
    method ReleaseSets(cluster: Id, sets: seq<Id>) returns (r: Result<()>)
      modifies omni.state`store
      ensures
        var s := old(omni.state.store);
        Attempt(s, omni.state.store, ReleaseKeys(s, cluster, BoundToAny(s, Elems(sets))), r.Ok?, omni.state.reliable)
      ensures omni.state.reliable && r.Err? ==> r.error == InProgress
    {
      ghost var s, rel := omni.state.store, omni.state.reliable;
      ghost var all, done: set<Id> := Elems(sets), {};
      AttemptAtNothing(s, ReleaseKeys(s, cluster, BoundToAny(s, done)), rel);
      for i := 0 to |sets|
        invariant done == Elems(sets[..i]) <= all
        invariant Attempt(s, omni.state.store, ReleaseKeys(s, cluster, BoundToAny(s, done)), true, rel)
      {
        ElemsStep(sets, i);
        ghost var t := omni.state.store;
        r := ReleaseSet(cluster, sets[i]);
        ReleaseNextSet(s, t, omni.state.store, cluster, done, sets[i], r.Ok?, rel);
        done := done + {sets[i]};
        if r.Err? {
          MoreSetsMoreKeys(s, cluster, done, all);
          AttemptOfMore(s, omni.state.store, ReleaseKeys(s, cluster, BoundToAny(s, done)),
                        ReleaseKeys(s, cluster, BoundToAny(s, all)), rel);
          return;
        }
      }
      assert sets[..|sets|] == sets;
      return Ok(());
    }

    method ReleaseSet(cluster: Id, setId: Id) returns (r: Result<()>)
      modifies omni.state`store
      ensures
        var s := old(omni.state.store);
        Attempt(s, omni.state.store, ReleaseKeys(s, cluster, BoundTo(s, setId)), r.Ok?, omni.state.reliable)
      ensures omni.state.reliable && r.Err? ==> r.error == InProgress
    {
      var nodes := omni.AllocatedMachineSetNodes(setId);
      if nodes.Err? { return Err(nodes.error); }
      r := ReleaseMachines(cluster, nodes.value);
    }

    /** Removes a set, after its extensions. */
    method DeleteSet(setId: Id) returns (r: Result<()>)
      modifies omni.state`store
      ensures Attempt(old(omni.state.store), omni.state.store, SetLevelKeys({setId}), r.Ok?, omni.state.reliable)
      ensures Touched(old(omni.state.store), omni.state.store, SetKey(setId)) ==> ExtensionsKey(setId) !in omni.state.store
      ensures omni.state.reliable && r.Err? ==> r.error == InProgress
    {
      ghost var s, ext, set_, rel := omni.state.store, {ExtensionsKey(setId)}, {SetKey(setId)}, omni.state.reliable;
      r := omni.state.TeardownAndDestroy(ExtensionsKey(setId));
      ghost var t := omni.state.store;
      TearsIsAttempt(s, t, ext, r.Ok?, rel);
      if r.Err? {
        AttemptOfMore(s, t, ext, SetLevelKeys({setId}), rel);
        return;
      }
      r := omni.state.TeardownAndDestroy(SetKey(setId));
      TearsIsAttempt(t, omni.state.store, set_, r.Ok?, rel);
      AttemptThen(s, t, omni.state.store, ext, set_, SetLevelKeys({setId}), r.Ok?, rel);
    }

    method DeleteSets(sets: seq<Id>) returns (r: Result<()>)
      modifies omni.state`store
      ensures Attempt(old(omni.state.store), omni.state.store, SetLevelKeys(Elems(sets)), r.Ok?, omni.state.reliable)
      ensures ExtensionsFirst(old(omni.state.store), omni.state.store, Elems(sets))
      ensures omni.state.reliable && r.Err? ==> r.error == InProgress
    {
      ghost var s, rel := omni.state.store, omni.state.reliable;
      ghost var all, done: set<Id> := Elems(sets), {};
      AttemptAtNothing(s, SetLevelKeys(done), rel);
      for i := 0 to |sets|
        invariant done == Elems(sets[..i]) <= all
        invariant Attempt(s, omni.state.store, SetLevelKeys(done), true, rel)
      {
        ElemsStep(sets, i);
        ghost var t, x := omni.state.store, sets[i];
        r := DeleteSet(sets[i]);
        DeleteNextSet(s, t, omni.state.store, done, x, all, r.Ok?, rel);
        ExtensionsStillFirst(s, t, omni.state.store, done, x, all);
        done := done + {x};
        if r.Err? { return; }
      }
      assert sets[..|sets|] == sets;
      return Ok(());
    }

    /** Deletes the machines that are not being deleted already. */
    method DeleteMachines(names: seq<Id>) returns (r: Result<()>, ghost done: set<Id>)
      requires Elems(names) <= kube.cache.Keys
      modifies kube`objects
      ensures done <= Elems(names) && kube.objects == DeletedAll(old(kube.objects), done)
      ensures r.Ok? ==> done == set n | n in Elems(names) && !kube.cache[n].deleting
      ensures r.Err? ==> r.error == Unavailable
      ensures kube.reliable ==> r.Ok?
    {
      done := {};
      assert DeletedAll(kube.objects, {}) == kube.objects;
      for i := 0 to |names|
        invariant Elems(names[..i]) <= Elems(names) && kube.objects == DeletedAll(old(kube.objects), done)
        invariant forall n :: n in done <==> n in Elems(names[..i]) && !kube.cache[n].deleting
      {
        ElemsStep(names, i);
        if !kube.cache[names[i]].deleting {
          r := kube.Delete(names[i]);
          if r.Err? { return; }
          DeletedNext(old(kube.objects), done, names[i]);
          done := done + {names[i]};
        }
      }
      assert names[..|names|] == names;
      return Ok(()), done;
    }

    /** Deletes a set's machines; the value says how many there still are. */
    method DeleteMachineSetMachines(cluster: Id, setId: Id) returns (r: Result<nat>, ghost done: set<Id>)
      modifies kube`objects
      ensures done <= MachinesIn(kube.cache, cluster, setId) && kube.objects == DeletedAll(old(kube.objects), done)
      ensures r.Ok? ==> r.value == |MachinesIn(kube.cache, cluster, setId)| && done == Undeleted(cluster, setId)
      ensures kube.reliable ==> r.Ok?
    {
      done := {};
      assert DeletedAll(kube.objects, {}) == kube.objects;
      var names := kube.ListMachineSetMachines(cluster, setId);
      if names.Err? { return Err(names.error), done; }
      var one;
      one, done := DeleteMachines(names.value);
      if one.Err? { return Err(one.error), done; }
      DistinctSize(names.value);
      return Ok(|names.value|), done;
    }

    /** Tears down one set: first its machines' objects, then what is bound without an object, then
        its own resources. */
    method PruneSet(cluster: Id, setId: Id) returns (r: Result<()>, ghost done: set<Id>)
      modifies kube`objects, omni.state`store
      ensures done <= MachinesIn(kube.cache, cluster, setId) && kube.objects == DeletedAll(old(kube.objects), done)
      ensures MachinesIn(kube.cache, cluster, setId) != {} ==> r.Err? && omni.state.store == old(omni.state.store)
      ensures kube.reliable && omni.state.reliable ==>
        && done == Undeleted(cluster, setId)
        && (r.Err? ==>
              r.error == if MachinesIn(kube.cache, cluster, setId) != {} then WaitingForMachines else InProgress)
      ensures
        var s, s' := old(omni.state.store), omni.state.store;
        && Attempt(s, s', Footprint(s, cluster, {setId}), r.Ok?,
                   Steady(cluster, {setId}))
        && SetsGoLast(s, s', {setId})
    {
      ghost var s := omni.state.store;
      var count;
      count, done := DeleteMachineSetMachines(cluster, setId);
      if count.Err? { return Err(count.error), done; }
      if count.value > 0 { return Err(WaitingForMachines), done; }
      r := RemoveSet(cluster, setId);
    }

    /** Nothing stands in the way of removing these sets but what Omni holds. */
    ghost predicate Steady(cluster: Id, sets: set<Id>)
      reads kube, omni, omni.state
    {
      kube.reliable && omni.state.reliable && forall x :: x in sets ==> MachinesIn(kube.cache, cluster, x) == {}
    }

    method RemoveSet(cluster: Id, setId: Id) returns (r: Result<()>)
      modifies omni.state`store
      ensures
        var s, s' := old(omni.state.store), omni.state.store;
        && Attempt(s, s', Footprint(s, cluster, {setId}), r.Ok?, omni.state.reliable)
        && SetsGoLast(s, s', {setId})
      ensures omni.state.reliable && r.Err? ==> r.error == InProgress
    {
      ghost var s, rel := omni.state.store, omni.state.reliable;
      ghost var keys, all := ReleaseKeys(s, cluster, BoundTo(s, setId)), Footprint(s, cluster, {setId});
      assert BoundToAny(s, {setId}) == BoundTo(s, setId);
      r := ReleaseSet(cluster, setId);
      ghost var t := omni.state.store;
      if r.Err? {
        AttemptOfMore(s, t, keys, all, rel);
        return;
      }
      r := DeleteSet(setId);
      AttemptThen(s, t, omni.state.store, keys, SetLevelKeys({setId}), all, r.Ok?, rel);
      NoneBoundAfter(s, t, omni.state.store, cluster, {setId}, SetLevelKeys({setId}));
    }

    /** Prunes one more set, after the ones in `pruned`. */
    method PruneNextSet(cluster: Id, x: Id, ghost s: Store, ghost start: Objects, ghost pruned: set<Id>,
                        ghost orphans: set<Id>, ghost before: set<Id>)
      returns (r: Result<()>, ghost done: set<Id>)
      requires pruned + {x} <= orphans && x !in pruned
      requires Attempt(s, omni.state.store, Footprint(s, cluster, pruned), true, Steady(cluster, orphans))
      requires DeletedFor(before, orphans, cluster) && kube.objects == DeletedAll(start, before)
      modifies kube`objects, omni.state`store
      ensures DeletedFor(done, orphans, cluster) && kube.objects == DeletedAll(start, done)
      ensures r.Ok? ==>
        && MachinesIn(kube.cache, cluster, x) == {}
        && Attempt(s, omni.state.store, Footprint(s, cluster, pruned + {x}), true, Steady(cluster, orphans))
      ensures r.Err? ==>
        && Attempt(s, omni.state.store, Footprint(s, cluster, orphans), false, Steady(cluster, orphans))
        && SetsGoLast(s, omni.state.store, orphans)
      ensures WaitingUntouched(s, omni.state.store, cluster, orphans - pruned)
      ensures kube.reliable && omni.state.reliable && r.Err? ==> Held(s, omni.state.store, cluster, orphans, done, r.error)
    {
      ghost var t, more := omni.state.store, {};
      r, more := PruneSet(cluster, x);
      OthersUntouched(s, t, omni.state.store, cluster, pruned, x);
      if r.Err? { StuckOnMore(s, t, omni.state.store, cluster, pruned, x, orphans); }
      PruneNext(s, t, omni.state.store, cluster, pruned, x, orphans, r.Ok?, Steady(cluster, {x}), Steady(cluster, orphans));
      DeletedTwice(start, before, more);
      done := before + more;
    }

    ghost function Undeleted(cluster: Id, setId: Id): set<Id>
      reads kube
    {
      set n | n in MachinesIn(kube.cache, cluster, setId) && !kube.cache[n].deleting
    }

    /** What stops a pruning over a reliable connection: a set with machines, which are all being deleted
        by now, or something in Omni that is held and has been told to go. */
    ghost predicate Held(s: Store, s': Store, cluster: Id, orphans: set<Id>, done: set<Id>, error: Error)
      reads kube
    {
      if error == WaitingForMachines
      then exists x :: x in orphans && MachinesIn(kube.cache, cluster, x) != {} && Undeleted(cluster, x) <= done
      else error == InProgress && Stuck(s, s', Footprint(s, cluster, orphans))
    }

    /** A set that still has machines is left alone. */
    ghost predicate WaitingUntouched(s: Store, s': Store, cluster: Id, sets: set<Id>)
      reads kube
    {
      forall x :: x in sets && MachinesIn(kube.cache, cluster, x) != {} ==> !Touched(s, s', SetKey(x))
    }

    /** Prunes those of the sets that are not to be kept, stopping at the first failure. */
    method PruneSets(cluster: Id, sets: seq<Id>, keep: set<Id>, ghost orphans: set<Id>)
      returns (r: Result<()>, ghost done: set<Id>)
      requires Distinct(sets) && forall x :: x in orphans <==> x in Elems(sets) && x !in keep
      modifies kube`objects, omni.state`store
      ensures DeletedFor(done, orphans, cluster) && kube.objects == DeletedAll(old(kube.objects), done)
      ensures
        var s, s' := old(omni.state.store), omni.state.store;
        && Attempt(s, s', Footprint(s, cluster, orphans), r.Ok?, Steady(cluster, orphans))
        && (r.Err? ==> SetsGoLast(s, s', orphans) && WaitingUntouched(s, s', cluster, orphans))
      ensures r.Ok? ==> forall x :: x in orphans ==> MachinesIn(kube.cache, cluster, x) == {}
      ensures kube.reliable && omni.state.reliable && r.Err? ==>
        Held(old(omni.state.store), omni.state.store, cluster, orphans, done, r.error)
    {
      ghost var s, start, pruned: set<Id> := omni.state.store, kube.objects, {};
      done := {};
      assert DeletedAll(start, {}) == start;
      AttemptAtNothing(s, Footprint(s, cluster, pruned), Steady(cluster, orphans));
      for i := 0 to |sets|
        invariant pruned <= orphans && forall x :: x in pruned <==> x in Elems(sets[..i]) && x !in keep
        invariant forall x :: x in pruned ==> MachinesIn(kube.cache, cluster, x) == {}
        invariant Attempt(s, omni.state.store, Footprint(s, cluster, pruned), true, Steady(cluster, orphans))
        invariant DeletedFor(done, orphans, cluster) && kube.objects == DeletedAll(start, done)
      {
        ElemsStep(sets, i);
        if sets[i] !in keep {
          r, done := PruneNextSet(cluster, sets[i], s, start, pruned, orphans, done);
          if r.Err? { return; }
          pruned := pruned + {sets[i]};
        }
      }
      assert sets[..|sets|] == sets;
      assert pruned == orphans;
      return Ok(()), done;
    }

    /** Prunes the sets that the spec does not declare. */
    method PruneOrphanedMachineSets(c: ClusterSpec) returns (r: Result<()>, ghost done: set<Id>)
      modifies kube`objects, omni.state`store
      ensures
        var s, s' := old(omni.state.store), omni.state.store;
        var orphans := SetsOf(s, c.name) - Declared(c);
        && DeletedFor(done, orphans, c.name) && kube.objects == DeletedAll(old(kube.objects), done)
        && Attempt(s, s', Footprint(s, c.name, orphans), r.Ok?, Steady(c.name, orphans))
        && SetsGoLast(s, s', orphans)
        && WaitingUntouched(s, s', c.name, orphans)
        && (r.Ok? ==> forall x :: x in orphans ==> MachinesIn(kube.cache, c.name, x) == {})
        && (kube.reliable && omni.state.reliable && r.Err? ==> Held(s, s', c.name, orphans, done, r.error))
    {
      ghost var s := omni.state.store;
      ghost var orphans := SetsOf(s, c.name) - Declared(c);
      done := {};
      assert DeletedAll(kube.objects, {}) == kube.objects;
      var sets := omni.ListMachineSetIDs(c.name);
      if sets.Err? { return Err(sets.error), done; }
      assert forall x :: x in Elems(sets.value) <==> x in SetsOf(s, c.name);
      r, done := PruneSets(c.name, sets.value, Declared(c), orphans);
      FinishedGoesLast(s, c.name, orphans);
    }

    /** Whether the Omni cluster belongs to another cluster object of the same name. */
    method OwnedElsewhere(name: Id, me: Id) returns (r: Result<bool>)
      ensures r.Ok? ==> (r.value <==> OwnedByOther(omni.state.store, name, me))
      ensures omni.state.reliable ==> r.Ok?
    {
      var owner := omni.ClusterOwner(name);
      if owner.Err? { return Err(owner.error); }
      return Ok(owner.value.Some? && owner.value != Some(me));
    }

    /** The secrets under both naming formats. */
    method DeleteSecrets(name: Id) returns (r: Result<()>)
      modifies kube`secrets
      ensures old(kube.secrets) - SecretNames(name) <= kube.secrets <= old(kube.secrets)
      ensures r.Ok? ==> kube.secrets == old(kube.secrets) - SecretNames(name)
      ensures kube.reliable ==> r.Ok?
    {
      r := kube.DeleteSecret(name + "-kubeconfig");
      if r.Err? { return; }
      r := kube.DeleteSecret(name + "-cluster-secret");
    }

    /** Deletes every machine of the cluster; finished only when none is left. */
    method DeleteAllMachines(cluster: Id) returns (r: Result<()>, ghost done: set<Id>)
      modifies kube`objects
      ensures done <= MachinesOf(kube.cache, cluster) && kube.objects == DeletedAll(old(kube.objects), done)
      ensures r.Ok? ==> MachinesOf(kube.cache, cluster) == {}
      ensures kube.reliable ==>
        && (r.Ok? <==> MachinesOf(kube.cache, cluster) == {}) && (r.Err? ==> r.error == WaitingForMachines)
        && done == set n | n in MachinesOf(kube.cache, cluster) && !kube.cache[n].deleting
    {
      done := {};
      assert DeletedAll(kube.objects, {}) == kube.objects;
      var names := kube.ListClusterMachines(cluster);
      if names.Err? { return Err(names.error), done; }
      r, done := DeleteMachines(names.value);
      if r.Err? { return; }
      DistinctSize(names.value);
      if |names.value| > 0 { r := Err(WaitingForMachines); }
    }

    /** Releases the nodes of all the sets before it removes any of the sets. */
    method RemoveSets(cluster: Id, sets: seq<Id>) returns (r: Result<()>)
      modifies omni.state`store
      ensures
        var s, s' := old(omni.state.store), omni.state.store;
        && Attempt(s, s', Footprint(s, cluster, Elems(sets)), r.Ok?, omni.state.reliable)
        && SetsGoLast(s, s', Elems(sets))
        && (forall x :: x in Elems(sets) && Touched(s, s', SetKey(x)) ==> BoundToAny(s', Elems(sets)) == {})
        && (omni.state.reliable && r.Err? ==> r.error == InProgress)
    {
      ghost var s, rel, all := omni.state.store, omni.state.reliable, Elems(sets);
      ghost var keys := ReleaseKeys(s, cluster, BoundToAny(s, all));
      r := ReleaseSets(cluster, sets);
      ghost var t := omni.state.store;
      if r.Err? {
        AttemptOfMore(s, t, keys, Footprint(s, cluster, all), rel);
        return;
      }
      r := DeleteSets(sets);
      NoneBoundAfter(s, t, omni.state.store, cluster, all, SetLevelKeys(all));
      AttemptThen(s, t, omni.state.store, keys, SetLevelKeys(all), Footprint(s, cluster, all), r.Ok?, rel);
    }

    /** Removes what the cluster has in Omni, and then the cluster itself. */
    method RemoveCluster(cluster: Id) returns (r: Result<()>)
      modifies omni.state`store
      ensures ClusterRemoval(old(omni.state.store), omni.state.store, cluster, r.Ok?, omni.state.reliable)
      ensures omni.state.reliable && r.Err? ==> r.error == InProgress
    {
      ghost var s, rel := omni.state.store, omni.state.reliable;
      var sets := omni.ListMachineSetIDs(cluster);
      if sets.Err? { return Err(sets.error); }
      assert Elems(sets.value) == SetsOf(s, cluster);
      r := RemoveSets(cluster, sets.value);
      ghost var u := omni.state.store;
      if r.Err? {
        StopsAtSets(s, u, cluster, rel);
        return;
      }
      r := omni.state.TeardownAndDestroy(ClusterKey(cluster));
      EndsAtCluster(s, u, omni.state.store, cluster, r.Ok?, rel);
    }

    /** The delete path of a cluster object named `name`, which signs itself `me`. */
    method DeleteOmniResources(name: Id, me: Id) returns (r: Result<()>, ghost done: set<Id>)
      modifies kube`objects, kube`secrets, omni.state`store
      ensures
        var s, s' := old(omni.state.store), omni.state.store;
        && (OwnedByOther(s, name, me) ==>
              s' == s && kube.objects == old(kube.objects) && kube.secrets == old(kube.secrets))
        && (MachinesOf(kube.cache, name) != {} && !OwnedByOther(s, name, me) ==> r.Err? && s' == s)
        && (!OwnedByOther(s, name, me) ==>
              && ClusterRemoval(s, s', name, r.Ok?,
                                kube.reliable && omni.state.reliable && MachinesOf(kube.cache, name) == {})
              && (r.Ok? ==> kube.secrets == old(kube.secrets) - SecretNames(name)))
      ensures done <= MachinesOf(kube.cache, name) && kube.objects == DeletedAll(old(kube.objects), done)
      ensures kube.reliable && omni.state.reliable && OwnedByOther(old(omni.state.store), name, me) ==> r.Ok?
      ensures kube.reliable && omni.state.reliable && !OwnedByOther(old(omni.state.store), name, me) ==>
        && done == (set n | n in MachinesOf(kube.cache, name) && !kube.cache[n].deleting)
        && kube.secrets == old(kube.secrets) - SecretNames(name)
        && (r.Err? ==> r.error == if MachinesOf(kube.cache, name) != {} then WaitingForMachines else InProgress)
    {
      done := {};
      assert DeletedAll(kube.objects, {}) == kube.objects;
      var other := OwnedElsewhere(name, me);
      if other.Err? { return Err(other.error), done; }
      if other.value { return Ok(()), done; }
      r := DeleteSecrets(name);
      if r.Err? { return; }
      r, done := DeleteAllMachines(name);
      if r.Err? { return; }
      r := RemoveCluster(name);
    }

    /** Only machines of these sets. */
    ghost predicate DeletedFor(done: set<Id>, sets: set<Id>, cluster: Id)
      reads kube
    {
      forall n :: n in done ==> n in MachinesOf(kube.cache, cluster) && kube.cache[n].setId in sets
    }
  }

  ghost function SecretNames(name: Id): set<string> {
    {name + "-kubeconfig", name + "-cluster-secret"}
  }

  ghost function WholeFootprint(s: Store, cluster: Id): set<Key> {
    Footprint(s, cluster, SetsOf(s, cluster)) + {ClusterKey(cluster)}
  }

  /** One attempt at removing a cluster: its sets go before it does. */
  ghost predicate ClusterRemoval(s: Store, s': Store, cluster: Id, ok: bool, reliable: bool) {
    && Attempt(s, s', WholeFootprint(s, cluster), ok, reliable) && SetsGoLast(s, s', SetsOf(s, cluster))
    && (Touched(s, s', ClusterKey(cluster)) ==> SetsOf(s', cluster) == {})
    && (!ok && ClusterKey(cluster) in s ==> ClusterKey(cluster) in s')
  }

  lemma StopsAtSets(s: Store, u: Store, cluster: Id, reliable: bool)
    requires Attempt(s, u, Footprint(s, cluster, SetsOf(s, cluster)), false, reliable)
    requires SetsGoLast(s, u, SetsOf(s, cluster))
    ensures ClusterRemoval(s, u, cluster, false, reliable)
  {
    AttemptOfMore(s, u, Footprint(s, cluster, SetsOf(s, cluster)), WholeFootprint(s, cluster), reliable);
  }

  lemma EndsAtCluster(s: Store, u: Store, s': Store, cluster: Id, ok: bool, reliable: bool)
    requires Attempt(s, u, Footprint(s, cluster, SetsOf(s, cluster)), true, reliable)
    requires Tears(u, s', {ClusterKey(cluster)}, ok, reliable)
    requires !ok && ClusterKey(cluster) in u ==> ClusterKey(cluster) in s'
    ensures ClusterRemoval(s, s', cluster, ok, reliable)
  {
    TearsIsAttempt(u, s', {ClusterKey(cluster)}, ok, reliable);
    AttemptThen(s, u, s', Footprint(s, cluster, SetsOf(s, cluster)), {ClusterKey(cluster)},
                WholeFootprint(s, cluster), ok, reliable);
    NoSetsAfter(s, u, s', cluster);
  }

  lemma NoSetsAfter(s: Store, u: Store, u': Store, cluster: Id)
    requires u == s - Footprint(s, cluster, SetsOf(s, cluster)) && Unwinds(u, u', {ClusterKey(cluster)})
    ensures SetsOf(u', cluster) == {}
    ensures SetsGoLast(s, u', SetsOf(s, cluster))
  {
  }

  lemma DeletedTwice(objects: Objects, a: set<Id>, b: set<Id>)
    ensures DeletedAll(DeletedAll(objects, a), b) == DeletedAll(objects, a + b)
  {
  }

  lemma PruneNext(s: Store, t: Store, u: Store, cluster: Id, pruned: set<Id>, x: Id, orphans: set<Id>,
                  ok: bool, reliable: bool, steady: bool)
    requires Attempt(s, t, Footprint(s, cluster, pruned), true, steady) && (steady ==> reliable)
    requires Attempt(t, u, Footprint(t, cluster, {x}), ok, reliable) && SetsGoLast(t, u, {x})
    requires pruned + {x} <= orphans && x !in pruned
    ensures Attempt(s, u, Footprint(s, cluster, pruned + {x}), ok, steady)
    ensures !ok ==> Attempt(s, u, Footprint(s, cluster, orphans), ok, steady)
    ensures SetsGoLast(s, u, orphans)
  {
    FootprintNext(s, t, cluster, pruned, x);
    AttemptThen(s, t, u, Footprint(s, cluster, pruned), Footprint(t, cluster, {x}),
                Footprint(s, cluster, pruned + {x}), ok, steady);
    MoreSetsMoreKeys(s, cluster, pruned + {x}, orphans);
    if !ok { AttemptOfMore(s, u, Footprint(s, cluster, pruned + {x}), Footprint(s, cluster, orphans), steady); }
    GoLastNext(s, t, u, cluster, pruned, x, orphans);
  }

  lemma StuckOnMore(s: Store, t: Store, u: Store, cluster: Id, pruned: set<Id>, x: Id, orphans: set<Id>)
    requires t == s - Footprint(s, cluster, pruned) && pruned + {x} <= orphans
    ensures Stuck(t, u, Footprint(t, cluster, {x})) ==> Stuck(s, u, Footprint(s, cluster, orphans))
  {
    FootprintNext(s, t, cluster, pruned, x);
    MoreSetsMoreKeys(s, cluster, pruned + {x}, orphans);
  }

  /** Pruning one set after some others leaves the remaining ones alone. */
  lemma OthersUntouched(s: Store, t: Store, u: Store, cluster: Id, pruned: set<Id>, x: Id)
    requires t == s - Footprint(s, cluster, pruned) && Unwinds(t, u, Footprint(t, cluster, {x}))
    ensures forall y :: y !in pruned && (y != x || u == t) ==> !Touched(s, u, SetKey(y))
  {
  }

  lemma FinishedGoesLast(s: Store, cluster: Id, sets: set<Id>)
    ensures SetsGoLast(s, s - Footprint(s, cluster, sets), sets)
  {
  }

  lemma FootprintNext(s: Store, t: Store, cluster: Id, pruned: set<Id>, x: Id)
    requires t == s - Footprint(s, cluster, pruned)
    ensures forall k :: k in s ==>
      (k in Footprint(s, cluster, pruned + {x}) <==>
       k in Footprint(s, cluster, pruned) || k in Footprint(t, cluster, {x}))
  {
  }

  lemma GoLastNext(s: Store, t: Store, u: Store, cluster: Id, pruned: set<Id>, x: Id, orphans: set<Id>)
    requires t == s - Footprint(s, cluster, pruned) && Unwinds(t, u, Footprint(t, cluster, {x})) && SetsGoLast(t, u, {x})
    ensures SetsGoLast(s, u, orphans)
  {
  }

  /** The sets of the spec: the control plane and every worker set. */
  function Declared(c: ClusterSpec): (r: set<Id>)
    ensures forall x :: x in r <==>
      x == c.name + "-control-planes" || exists i :: 0 <= i < |c.workers| && x == c.name + "-" + c.workers[i].name
    ensures forall i :: 0 <= i <= |c.workers| ==> SetIdFor(c.name, SetName(c, i)) in r
  {
    {SetIdFor(c.name, CONTROL_PLANES)} + set i | 0 <= i < |c.workers| :: SetIdFor(c.name, c.workers[i].name)
  }

  /** Whatever a pruning did, the declared sets, their extensions and their bindings are as before. */
  lemma DeclaredAreSpared(s: Store, s': Store, c: ClusterSpec, x: Id, ok: bool)
    requires TearEffect(s, s', Footprint(s, c.name, SetsOf(s, c.name) - Declared(c)), ok) && x in Declared(c)
    ensures !Touched(s, s', SetKey(x)) && !Touched(s, s', ExtensionsKey(x)) && BoundTo(s', x) == BoundTo(s, x)
  {
    var orphans := SetsOf(s, c.name) - Declared(c);
    forall m | NodeKey(m) in s && s[NodeKey(m)].labels.setId == Some(x) ensures NodeKey(m) in s' {
      assert m !in BoundToAny(s, orphans);
    }
  }

  /** Once the machines of the sets are released, no node is bound to them. */
  lemma NoneBoundAfter(s: Store, t: Store, u: Store, cluster: Id, sets: set<Id>, ks: set<Key>)
    requires t == s - ReleaseKeys(s, cluster, BoundToAny(s, sets)) && Unwinds(t, u, ks)
    ensures BoundToAny(u, sets) == {} && forall x :: x in sets ==> BoundTo(u, x) == {}
  {
  }

  lemma DeleteNextSet(s: Store, t: Store, u: Store, done: set<Id>, x: Id, all: set<Id>, ok: bool, reliable: bool)
    requires Attempt(s, t, SetLevelKeys(done), true, reliable) && Attempt(t, u, SetLevelKeys({x}), ok, reliable)
    requires done + {x} <= all
    ensures Attempt(s, u, SetLevelKeys(done + {x}), ok, reliable)
    ensures !ok ==> Attempt(s, u, SetLevelKeys(all), false, reliable)
  {
    AttemptThen(s, t, u, SetLevelKeys(done), SetLevelKeys({x}), SetLevelKeys(done + {x}), ok, reliable);
    if !ok { AttemptOfMore(s, u, SetLevelKeys(done + {x}), SetLevelKeys(all), reliable); }
  }

  ghost predicate ExtensionsFirst(s: Store, s': Store, sets: set<Id>) {
    forall x :: x in sets && Touched(s, s', SetKey(x)) ==> ExtensionsKey(x) !in s'
  }

  lemma ExtensionsStillFirst(s: Store, t: Store, u: Store, done: set<Id>, x: Id, all: set<Id>)
    requires t == s - SetLevelKeys(done) && Unwinds(t, u, SetLevelKeys({x}))
    requires Touched(t, u, SetKey(x)) ==> ExtensionsKey(x) !in u
    ensures ExtensionsFirst(s, u, all)
  {
  }
}
