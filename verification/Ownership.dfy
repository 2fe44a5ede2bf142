/** The cluster controller's two passes, and the owner label that decides which of several cluster
    objects of one name may change the Omni cluster (controllers/omnicluster_controller.go,
    controllers/omni_client.go). */
module Ownership {
  import opened Ids
  import opened Cosi
  import opened OmniApi
  import opened Kube
  import opened MachineAllocator
  import opened ClusterAllocation
  import opened Attempts
  import opened ClusterTeardown

  /** The identity a cluster object signs with. */
  function OwnerName(namespace_: string, name: string): Id {
    namespace_ + "/" + name
  }

  /** What a reconcile pass by `me` may do to the store, finished or not. */
  ghost predicate ReconcileEffect(s: Store, s': Store, c: ClusterSpec, me: Id) {
    var k := ClusterKey(c.name);
    if OwnedByOther(s, c.name, me) then s' == s
    else s' == s || (k in s' && s'[k].labels.owner == Some(me))
  }

  /** The cluster cannot be claimed: another owner has signed it, or it is being torn down and would have
      to change. */
  ghost predicate Unclaimable(s: Store, c: ClusterSpec, me: Id, error: Error) {
    var k := ClusterKey(c.name);
    if OwnedByOther(s, c.name, me) then error == OwnershipConflict
    else
      && k in s && s[k].phase == TearingDown && error == PhaseConflict
      && !(s[k].labels.owner == Some(me) && s[k].body == Versions(c.kubernetes, c.talos))
  }

  /** Nothing is removed, unless it is an extensions configuration. */
  ghost predicate KeepsAll(s: Store, s': Store) {
    forall k: Key :: k in s && !k.ExtensionsKey? ==> k in s'
  }

  lemma NoneDeleted(objects: Objects)
    ensures DeletedAll(objects, {}) == objects
  {
  }

  /** A set that is no longer declared still has machines, or something in Omni is held and told to go. */
  ghost predicate StillToPrune(s: Store, cache: Objects, c: ClusterSpec) {
    || (exists n :: n in MachinesOf(cache, c.name) && cache[n].setId in SetsOf(s, c.name) - Declared(c))
    || (exists k :: k in s && s[k].phase == TearingDown && s[k].fins != {})
  }

  lemma HeldIsStillToPrune(s: Store, s': Store, cache: Objects, c: ClusterSpec, x: Id)
    requires Unwinds(s, s', Footprint(s, c.name, SetsOf(s, c.name) - Declared(c)))
    requires x in SetsOf(s, c.name) - Declared(c) && MachinesIn(cache, c.name, x) != {} && !Touched(s, s', SetKey(x))
    ensures StillToPrune(s', cache, c)
  {
    var n :| n in MachinesIn(cache, c.name, x);
    assert x in SetsOf(s', c.name) && n in MachinesOf(cache, c.name);
  }

  lemma StuckIsStillToPrune(s: Store, s': Store, cache: Objects, c: ClusterSpec, ks: set<Key>)
    requires Stuck(s, s', ks)
    ensures StillToPrune(s', cache, c)
  {
    var k :| k in ks && k in s && s[k].fins != {} && k in s' && s'[k] == Marked(s[k]);
    assert s'[k].phase == TearingDown && s'[k].fins != {};
  }

  /** What a delete pass by `me` may do. */
  ghost predicate DeleteEffect(s: Store, s': Store, name: Id, me: Id, ok: bool, steady: bool) {
    if OwnedByOther(s, name, me) then s' == s
    else ClusterRemoval(s, s', name, ok, steady)
  }

  class ClusterReconciler {
    const kube: Api
    const omni: OmniClient

    constructor (kube: Api, omni: OmniClient)
      ensures this.kube == kube && this.omni == omni
    {
      this.kube, this.omni := kube, omni;
    }

    /** Claims the cluster, allocates every set and prunes the rest. The value lists the machines of
        each set. */
    method Reconcile(c: ClusterSpec, me: Id, unused: nat)
      returns (r: Result<map<Id, seq<Id>>>, ghost log: seq<SetPass>, ghost done: set<Id>)
      requires forall i :: 0 <= i <= |c.workers| ==> TargetAt(c, i, unused).spec.selector.Sound()
      requires Coherent(kube.cache, kube.objects, unused)
      modifies kube`objects, omni.state`store
      ensures ReconcileEffect(old(omni.state.store), omni.state.store, c, me)
      ensures OwnedByOther(old(omni.state.store), c.name, me) ==> r.Err? && kube.objects == old(kube.objects)
      ensures r.Ok? && DistinctSets(c) ==> |log| == |c.workers| + 1 && Chained(log) && Reports(r.value, log)
      ensures r.Ok? ==>
        && AllPresent(omni.state.store, c, |c.workers| + 1) && SetsOf(omni.state.store, c.name) <= Declared(c)
        && ClusterKey(c.name) in omni.state.store
        && omni.state.store[ClusterKey(c.name)].body == Versions(c.kubernetes, c.talos)
      ensures Placed(log, c) && Chained(log)
      ensures
        var mid := if log == [] then old(kube.objects) else log[|log| - 1].now;
        kube.objects == DeletedAll(mid, done) && (log != [] ==> log[0].was == old(kube.objects))
      ensures forall n :: n in done ==> n in MachinesOf(kube.cache, c.name) && kube.cache[n].setId !in Declared(c)
      ensures |log| <= |c.workers| ==>
        done == {} && KeepsAll(old(omni.state.store), omni.state.store)
      ensures kube.reliable && omni.state.reliable && r.Err? ==>
        || Unclaimable(old(omni.state.store), c, me, r.error)
        || StopsAt(log, kube.cache, r.error)
        || (|log| == |c.workers| + 1 && StillToPrune(omni.state.store, kube.cache, c))
    {
      r, log := ClaimAndAllocate(c, me, unused);
      done := {};
      NoneDeleted(kube.objects);
      if r.Err? { return; }
      var pruned;
      pruned, done := Prune(c);
      if pruned.Err? { r := Err(pruned.error); }
    }

    /** Claims the cluster and allocates every set. */
    method ClaimAndAllocate(c: ClusterSpec, me: Id, unused: nat)
      returns (r: Result<map<Id, seq<Id>>>, ghost log: seq<SetPass>)
      requires forall i :: 0 <= i <= |c.workers| ==> TargetAt(c, i, unused).spec.selector.Sound()
      requires Coherent(kube.cache, kube.objects, unused)
      modifies kube`objects, omni.state`store
      ensures ReconcileEffect(old(omni.state.store), omni.state.store, c, me)
      ensures OwnedByOther(old(omni.state.store), c.name, me) ==> r.Err? && log == []
      ensures r.Ok? ==> |log| == |c.workers| + 1 && (DistinctSets(c) ==> Reports(r.value, log))
      ensures r.Ok? ==>
        && AllPresent(omni.state.store, c, |c.workers| + 1) && OwnedBy(omni.state.store, c.name, me)
        && omni.state.store[ClusterKey(c.name)].body == Versions(c.kubernetes, c.talos)
      ensures Placed(log, c) && Chained(log)
      ensures if log == [] then kube.objects == old(kube.objects)
              else log[0].was == old(kube.objects) && log[|log| - 1].now == kube.objects
      ensures KeepsAll(old(omni.state.store), omni.state.store)
      ensures kube.reliable && omni.state.reliable && r.Err? ==>
        Unclaimable(old(omni.state.store), c, me, r.error) || StopsAt(log, kube.cache, r.error)
    {
      log := [];
      var ensured := omni.EnsureCluster(c.name, me, c.kubernetes, c.talos);
      if ensured.Err? { return Err(ensured.error), log; }
      var allocator := new ClusterAllocator(kube, omni);
      r, log := allocator.AllocateSets(c, unused);
    }

    /** Tears down the sets that are no longer declared; the rest stays in place. */
    method Prune(c: ClusterSpec) returns (r: Result<()>, ghost done: set<Id>)
      modifies kube`objects, omni.state`store
      ensures
        var s, s', k := old(omni.state.store), omni.state.store, ClusterKey(c.name);
        && (k in s ==> k in s' && s'[k] == s[k])
        && (AllPresent(s, c, |c.workers| + 1) ==> AllPresent(s', c, |c.workers| + 1))
        && (r.Ok? ==> SetsOf(s', c.name) <= Declared(c))
      ensures kube.objects == DeletedAll(old(kube.objects), done)
      ensures forall n :: n in done ==> n in MachinesOf(kube.cache, c.name) && kube.cache[n].setId !in Declared(c)
      ensures kube.reliable && omni.state.reliable && r.Err? ==> StillToPrune(omni.state.store, kube.cache, c)
    {
      ghost var s := omni.state.store;
      var remover := new Remover(kube, omni);
      r, done := remover.PruneOrphanedMachineSets(c);
      PruneLeavesCluster(s, omni.state.store, c, r.Ok?);
      if r.Err? && kube.reliable && omni.state.reliable {
        if r.error == WaitingForMachines {
          ghost var x :| x in SetsOf(s, c.name) - Declared(c) && MachinesIn(kube.cache, c.name, x) != {};
          HeldIsStillToPrune(s, omni.state.store, kube.cache, c, x);
        } else {
          StuckIsStillToPrune(s, omni.state.store, kube.cache, c, Footprint(s, c.name, SetsOf(s, c.name) - Declared(c)));
        }
      }
    }

    /** The delete path. */
    method Delete(name: Id, me: Id) returns (r: Result<()>)
      modifies kube`objects, kube`secrets, omni.state`store
      ensures DeleteEffect(old(omni.state.store), omni.state.store, name, me, r.Ok?,
                           kube.reliable && omni.state.reliable && MachinesOf(kube.cache, name) == {})
      ensures OwnedByOther(old(omni.state.store), name, me) ==>
        kube.objects == old(kube.objects) && kube.secrets == old(kube.secrets)
      ensures kube.reliable && omni.state.reliable ==>
        if OwnedByOther(old(omni.state.store), name, me) then r.Ok?
        else
          && kube.objects == DeletedAll(old(kube.objects), set n | n in MachinesOf(kube.cache, name) && !kube.cache[n].deleting)
          && kube.secrets == old(kube.secrets) - SecretNames(name)
          && (r.Err? ==> r.error == if MachinesOf(kube.cache, name) != {} then WaitingForMachines else InProgress)
    {
      var remover := new Remover(kube, omni);
      ghost var done;
      r, done := remover.DeleteOmniResources(name, me);
    }
  }

  lemma PruneLeavesCluster(s: Store, s': Store, c: ClusterSpec, ok: bool)
    requires TearEffect(s, s', Footprint(s, c.name, SetsOf(s, c.name) - Declared(c)), ok)
    ensures ClusterKey(c.name) in s ==> ClusterKey(c.name) in s' && s'[ClusterKey(c.name)] == s[ClusterKey(c.name)]
    ensures AllPresent(s, c, |c.workers| + 1) ==> AllPresent(s', c, |c.workers| + 1)
    ensures ok ==> SetsOf(s', c.name) <= Declared(c)
  {
  }

  // ── Runs with several cluster objects of one name ────────────────────────────

  /** `steady` says that the connection holds and no machine is left. */
  datatype Act = ReconcilePass(me: Id, c: ClusterSpec) | DeletePass(me: Id, ok: bool, steady: bool) | OmniActs

  /** Passes are serialised. Omni itself may do anything but sign a cluster or change its signature. */
  ghost predicate Acts(s: Store, a: Act, s': Store, name: Id) {
    var k := ClusterKey(name);
    match a
    case ReconcilePass(me, c) => c.name == name && ReconcileEffect(s, s', c, me)
    case DeletePass(me, ok, steady) => DeleteEffect(s, s', name, me, ok, steady)
    case OmniActs => k in s' ==> s'[k].labels.owner == if k in s then s[k].labels.owner else None
  }

  ghost predicate IsRun(stores: seq<Store>, acts: seq<Act>, name: Id) {
    |stores| == |acts| + 1 && forall i :: 0 <= i < |acts| ==> Acts(stores[i], acts[i], stores[i + 1], name)
  }

  ghost predicate OwnedBy(s: Store, name: Id, owner: Id) {
    ClusterKey(name) in s && s[ClusterKey(name)].labels.owner == Some(owner)
  }

  lemma ActKeepsOwner(s: Store, a: Act, s': Store, name: Id, owner: Id)
    requires Acts(s, a, s', name) && OwnedBy(s, name, owner)
    ensures ClusterKey(name) in s' ==> OwnedBy(s', name, owner)
    ensures !a.OmniActs? && a.me != owner ==> s' == s
  {
  }

  /** Once the label is set, it stays as long as the Omni cluster exists. */
  lemma {:induction false} OwnerNeverChanges(stores: seq<Store>, acts: seq<Act>, name: Id, owner: Id, i: nat, j: nat)
    requires IsRun(stores, acts, name) && i <= j < |stores| && OwnedBy(stores[i], name, owner)
    requires forall n :: i <= n <= j ==> ClusterKey(name) in stores[n]
    ensures OwnedBy(stores[j], name, owner)
  {
    if i < j {
      OwnerNeverChanges(stores, acts, name, owner, i, j - 1);
      ActKeepsOwner(stores[j - 1], acts[j - 1], stores[j], name, owner);
    }
  }

  /** And so long, only the cluster object it names changes anything in Omni, on either path. */
  lemma OnlyTheOwnerWrites(stores: seq<Store>, acts: seq<Act>, name: Id, owner: Id, i: nat, j: nat)
    requires IsRun(stores, acts, name) && i <= j < |acts| && OwnedBy(stores[i], name, owner)
    requires forall n :: i <= n <= j ==> ClusterKey(name) in stores[n]
    requires !acts[j].OmniActs? && stores[j + 1] != stores[j]
    ensures acts[j].me == owner
  {
    OwnerNeverChanges(stores, acts, name, owner, i, j);
    ActKeepsOwner(stores[j], acts[j], stores[j + 1], name, owner);
  }

  /** A delete pass removes the cluster exactly when it succeeds and nobody else has signed it: an
      unlabelled cluster is anybody's. Over a steady connection that is when, besides, nothing of the
      cluster is held. */
  lemma DeleteRemovesIff(s: Store, s': Store, name: Id, me: Id, ok: bool, steady: bool)
    requires ClusterKey(name) in s && DeleteEffect(s, s', name, me, ok, steady)
    ensures ClusterKey(name) !in s' <==> ok && !OwnedByOther(s, name, me)
    ensures steady ==> (ClusterKey(name) !in s' <==> Clear(s, WholeFootprint(s, name)) && !OwnedByOther(s, name, me))
  {
    assert ClusterKey(name) in WholeFootprint(s, name);
  }

  /** Cluster objects with different namespaces or names sign differently, as neither holds a slash. */
  lemma {:induction false} SignaturesDiffer(ns: string, n: string, ns': string, n': string)
    requires '/' !in ns && '/' !in ns' && OwnerName(ns, n) == OwnerName(ns', n')
    ensures ns == ns' && n == n'
  {
    FirstSlash(ns, n, ns', n');
    FirstSlash(ns', n', ns, n);
    var x, y := OwnerName(ns, n), OwnerName(ns', n');
    assert x[..|ns|] == ns && y[..|ns'|] == ns';
    assert x[|ns| + 1..] == n && y[|ns'| + 1..] == n';
  }

  lemma FirstSlash(ns: string, n: string, ns': string, n': string)
    requires '/' !in ns' && OwnerName(ns, n) == OwnerName(ns', n')
    ensures |ns| >= |ns'|
  {
    var y := OwnerName(ns', n');
    assert OwnerName(ns, n)[|ns|] == '/' == y[|ns|];
    forall i | 0 <= i < |ns'| ensures y[i] != '/' { assert y[i] == ns'[i] && ns'[i] in ns'; }
  }
}
