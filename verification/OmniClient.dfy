/** The operations on Omni that the two controllers use (controllers/omni_client.go). */
module OmniApi {
  import opened Ids
  import opened Cosi

  /** What Omni reports about a machine, bound or not. */
  datatype MachineReport = MachineReport(labels: map<string, string>, connected: bool)

  /** What Omni reports about a machine as a member of a cluster. */
  datatype ClusterMachineStatus = ClusterMachineStatus(
    cluster: Id, setId: Id, running: bool, ready: bool, upToDate: bool, configError: string, address: string)

  datatype MachineHealth = MachineHealth(connected: bool, ready: bool)

  datatype Drift = Drift(machine: Id, address: string)

  /** `accepted` says whether the call came back without an error. */
  datatype Reboot = Reboot(cluster: Id, address: string, accepted: bool)

  const AVAILABLE := "omni.sidero.dev/available"

  /** `matches` is the Kubernetes meaning of a selector; `query` is what is pushed down to the
      server. The push-down may only narrow, never lose a match. */
  datatype Selector = Selector(
    valid: bool, matches: map<string, string> -> bool, query: map<string, string> -> bool)
  {
    ghost predicate Sound() {
      forall l :: matches(l) ==> query(l)
    }
  }

  ghost function Eligible(statuses: map<Id, MachineReport>, sel: Selector): set<Id> {
    set m | m in statuses && "omni.sidero.dev/available" in statuses[m].labels && sel.matches(statuses[m].labels)
  }

  ghost function HealthOf(
    members: map<Id, ClusterMachineStatus>, statuses: map<Id, MachineReport>, setId: Id): map<Id, MachineHealth>
  {
    map m | m in members && members[m].setId == setId ::
      MachineHealth(m in statuses && statuses[m].connected, members[m].ready && members[m].running)
  }

  /** A machine Omni does not report on counts as unhealthy. */
  predicate MachineHealthy(health: map<Id, MachineHealth>, m: Id) {
    m in health && health[m].connected && health[m].ready
  }

  ghost function Unsteady(members: map<Id, ClusterMachineStatus>, cluster: Id): set<Id> {
    set m | m in members && members[m].cluster == cluster && !(members[m].running && members[m].ready)
  }

  ghost function Behind(members: map<Id, ClusterMachineStatus>, cluster: Id): set<Id> {
    set m | m in members && members[m].cluster == cluster && !members[m].upToDate && members[m].configError == ""
  }

  /** The members that are behind without a config error, or none while any member of the cluster is not
      running and ready. */
  ghost predicate DriftReport(members: map<Id, ClusterMachineStatus>, cluster: Id, r: seq<Drift>) {
    if Unsteady(members, cluster) != {} then r == []
    else
      && (forall m :: m in Behind(members, cluster) ==> Drift(m, members[m].address) in r)
      && (forall d :: d in r ==> d.machine in Behind(members, cluster) && d.address == members[d.machine].address)
  }

  /** Which machines a report names, and with which address: with every member of the cluster running and
      ready, those that are behind; otherwise none. */
  lemma ReportedIff(members: map<Id, ClusterMachineStatus>, cluster: Id, r: seq<Drift>, d: Drift)
    requires DriftReport(members, cluster, r)
    ensures d in r <==>
      && (forall m :: m in members && members[m].cluster == cluster ==> members[m].running && members[m].ready)
      && d.machine in members && members[d.machine].cluster == cluster && d.address == members[d.machine].address
      && !members[d.machine].upToDate && members[d.machine].configError == ""
  {
    if Unsteady(members, cluster) == {} {
      forall m | m in members && members[m].cluster == cluster ensures members[m].running && members[m].ready {
        assert m !in Unsteady(members, cluster);
      }
    } else {
      var m :| m in Unsteady(members, cluster);
    }
  }

  ghost function BoundTo(s: Store, setId: Id): set<Id> {
    set k | k in s && k.NodeKey? && s[k].labels.setId == Some(setId) :: k.machine
  }

  ghost function PatchKeys(s: Store, cluster: Id, machine: Id): set<Key> {
    set k | k in s && k.PatchKey? && s[k].labels.cluster == Some(cluster) && s[k].labels.machine == Some(machine)
  }

  /** Everything a machine owns in Omni. */
  ghost function MachineKeys(s: Store, cluster: Id, machine: Id): set<Key> {
    {NodeKey(machine), KernelArgsKey(machine)} + PatchKeys(s, cluster, machine)
  }

  /** One attempt at releasing a machine over a reliable connection: the node, then every patch,
      then the kernel arguments, stopping after the first stage that is not finished. */
  ghost function Released(s: Store, cluster: Id, machine: Id): (r: (Store, bool)) {
    var node, args, patches := {NodeKey(machine)}, {KernelArgsKey(machine)}, PatchKeys(s, cluster, machine);
    if !Clear(s, node) then (Torn(s, node), false)
    else if !Clear(s, patches) then (Torn(s, node + patches), false)
    else (Torn(s, MachineKeys(s, cluster, machine)), Clear(s, args))
  }

  /** However a release ended, no patch was touched before the node was gone, and the kernel arguments
      not before all patches were. */
  ghost predicate InOrder(s: Store, s': Store, cluster: Id, machine: Id) {
    var node, args, patches := NodeKey(machine), KernelArgsKey(machine), PatchKeys(s, cluster, machine);
    && (node in s' ==> forall k :: k in patches + {args} && k in s ==> k in s' && s'[k] == s[k])
    && ((exists k :: k in patches && k in s') && args in s ==> args in s' && s'[args] == s[args])
  }

  /** How a release ends; over a reliable connection the outcome is determined. */
  ghost predicate ReleaseOutcome(s: Store, s': Store, cluster: Id, machine: Id, ok: bool, reliable: bool) {
    && TearEffect(s, s', MachineKeys(s, cluster, machine), ok) && InOrder(s, s', cluster, machine)
    && (reliable ==> (s', ok) == Released(s, cluster, machine))
  }

  ghost function NodeLabels(cluster: Id, setId: Id): Labels {
    Labels(Some(cluster), Some(setId), None, None)
  }

  ghost function PatchLabels(cluster: Id, setId: Id, machine: Id): Labels {
    Labels(Some(cluster), Some(setId), Some(machine), None)
  }

  function KeyName(k: Key): Id {
    match k
    case ClusterKey(n) => n
    case SetKey(n) => n
    case NodeKey(n) => n
    case PatchKey(n) => n
    case KernelArgsKey(n) => n
    case ExtensionsKey(n) => n
  }

  /** A list-valued resource after it was created, left alone or rewritten. */
  ghost function StringsEnsured(s: Store, k: Key, labels: Labels, items: seq<string>, origin: Origin): Store {
    if k !in s then s[k := Fresh(labels, Strings(items), origin)]
    else if s[k].body == Strings(items) then s
    else s[k := Written(s[k], Strings(items))]
  }

  /** The cluster carries the label of another owner. */
  ghost predicate OwnedByOther(s: Store, name: Id, owner: Id) {
    var k := ClusterKey(name);
    k in s && s[k].labels.owner.Some? && s[k].labels.owner != Some(owner)
  }

  /** The cluster as the owner wants it: created, signed if nobody has, brought to the versions. */
  ghost function ClusterEnsured(s: Store, name: Id, owner: Id, kubernetes: string, talos: string): Store {
    var k := ClusterKey(name);
    var body := Versions(kubernetes, talos);
    if k !in s then s[k := Fresh(Labels(None, None, None, Some(owner)), body, Elsewhere)]
    else if s[k].labels.owner == Some(owner) && s[k].body == body then s
    else s[k := Written(s[k], body).(labels := s[k].labels.(owner := Some(owner)))]
  }

  ghost function NodeEnsured(s: Store, k: Key, labels: Labels): Store {
    if k in s then s else s[k := Fresh(labels, Empty, MachinePass)]
  }

  ghost function PatchEnsured(s: Store, k: Key, labels: Labels, doc: Doc): Store
    requires k in s ==> s[k].body.Patch?
  {
    if k !in s then s[k := Fresh(labels, Patch(doc), MachinePass)]
    else if JsonEqual(s[k].body.doc, doc) then s
    else s[k := Written(s[k], Patch(doc))]
  }

  /** A rewrite is refused while the patch is being torn down. */
  ghost predicate CanEnsurePatch(s: Store, k: Key, doc: Doc)
    requires k in s ==> s[k].body.Patch?
  {
    k in s ==> JsonEqual(s[k].body.doc, doc) || s[k].phase == Running
  }

  ghost function Unwanted(s: Store, cluster: Id, machine: Id, keep: set<Id>): set<Key> {
    set k | k in PatchKeys(s, cluster, machine) && k.patch !in keep
  }

  class OmniClient {
    const state: State
    var statuses: map<Id, MachineReport>
    var members: map<Id, ClusterMachineStatus>
    var reboots: seq<Reboot>

    constructor (state: State)
      ensures this.state == state && statuses == map[] && members == map[] && reboots == []
    {
      this.state := state;
      statuses, members, reboots := map[], map[], [];
    }

    // ── Cluster and machine sets ───────────────────────────────────────────────

    method EnsureCluster(name: Id, owner: Id, kubernetes: string, talos: string) returns (r: Result<()>)
      modifies state`store
      ensures
        var was := old(state.store);
        && (r.Err? ==> state.store == was)
        && (r.Ok? ==> state.store == ClusterEnsured(was, name, owner, kubernetes, talos))
        && (OwnedByOther(was, name, owner) ==> r.Err? && (state.reliable ==> r == Err(OwnershipConflict)))
        && (state.reliable && !OwnedByOther(was, name, owner) ==>
              (r.Ok? <==> ClusterEnsured(was, name, owner, kubernetes, talos) == was || ClusterKey(name) !in was
                          || was[ClusterKey(name)].phase == Running))
        && (r == Err(OwnershipConflict) ==> OwnedByOther(was, name, owner))
        && (r == Err(PhaseConflict) ==> ClusterKey(name) in was && was[ClusterKey(name)].phase == TearingDown)
        && (state.reliable && !OwnedByOther(was, name, owner) && r.Err? ==> r.error == PhaseConflict)
    {
      var k := ClusterKey(name);
      var existing := state.Get(k);
      if existing == Err(NotFound) {
        r := state.Create(k, Labels(None, None, None, Some(owner)), Versions(kubernetes, talos), Elsewhere);
        return;
      }
      if existing.Err? { return Err(existing.error); }
      var labels, body := existing.value.labels, existing.value.body;
      if labels.owner.Some? && labels.owner != Some(owner) { return Err(OwnershipConflict); }
      var needsUpdate := labels.owner.None?;
      if needsUpdate { labels := labels.(owner := Some(owner)); }
      if body != Versions(kubernetes, talos) {
        body := Versions(kubernetes, talos);
        needsUpdate := true;
      }
      if needsUpdate {
        r := state.Update(k, labels, body);
        return;
      }
      return Ok(());
    }

    /** The owner label; None when the cluster is missing or carries no label. */
    method ClusterOwner(name: Id) returns (r: Result<Option<Id>>)
      ensures r.Ok? ==>
        r.value == (if ClusterKey(name) in state.store then state.store[ClusterKey(name)].labels.owner else None)
      ensures r.Err? ==> r.error == Unavailable
      ensures state.reliable ==> r.Ok?
    {
      var existing := state.Get(ClusterKey(name));
      if existing == Err(NotFound) { return Ok(None); }
      if existing.Err? { return Err(existing.error); }
      return Ok(existing.value.labels.owner);
    }

    method EnsureMachineSet(cluster: Id, setId: Id) returns (r: Result<()>)
      modifies state`store
      ensures r.Err? ==> state.store == old(state.store)
      ensures r.Ok? ==>
        state.store == (
          if SetKey(setId) in old(state.store) then old(state.store)
          else old(state.store)[SetKey(setId) := Fresh(Labels(Some(cluster), None, None, None), Empty, Elsewhere)])
      ensures state.reliable ==> r.Ok?
    {
      var existing := state.Get(SetKey(setId));
      if existing.Ok? { return Ok(()); }
      if existing.error != NotFound { return Err(existing.error); }
      r := state.Create(SetKey(setId), Labels(Some(cluster), None, None, None), Empty, Elsewhere);
    }

    method EnsureStrings(k: Key, labels: Labels, items: seq<string>, origin: Origin) returns (r: Result<()>)
      modifies state`store
      ensures
        var was := old(state.store);
        && (r.Err? ==> state.store == was)
        && (r.Ok? ==> state.store == StringsEnsured(was, k, labels, items, origin))
        && (r.Ok? && k in was && was[k].body != Strings(items) ==> was[k].phase == Running)
        && (state.reliable ==>
              (r.Ok? <==> k !in was || was[k].body == Strings(items) || was[k].phase == Running))
        && (state.reliable && r.Err? ==> r.error == PhaseConflict)
        && (r == Err(PhaseConflict) ==> k in was && was[k].phase == TearingDown)
        && (r.Err? ==> r.error in {Unavailable, Conflict, NotFound, PhaseConflict})
    {
      var existing := state.Get(k);
      if existing == Err(NotFound) {
        r := state.Create(k, labels, Strings(items), origin);
        return;
      }
      if existing.Err? { return Err(existing.error); }
      if existing.value.body != Strings(items) {
        r := state.Update(k, existing.value.labels, Strings(items));
        return;
      }
      return Ok(());
    }

    method ListNames(query: (Key, Resource) -> bool, kind: Id -> Key) returns (r: Result<seq<Id>>)
      requires forall k, v :: query(k, v) ==> kind(KeyName(k)) == k
      requires forall n :: KeyName(kind(n)) == n
      ensures r.Ok? ==> Distinct(r.value)
      ensures r.Ok? ==> forall n :: n in Elems(r.value) <==> kind(n) in state.store && query(kind(n), state.store[kind(n)])
      ensures r.Err? ==> r.error == Unavailable
      ensures state.reliable ==> r.Ok?
    {
      var keys := state.List(query);
      if keys.Err? { return Err(keys.error); }
      var names: seq<Id> := [];
      for i := 0 to |keys.value|
        invariant Distinct(names)
        invariant forall n :: n in Elems(names) <==> kind(n) in Elems(keys.value[..i])
      {
        ElemsStep(keys.value, i);
        assert kind(KeyName(keys.value[i])) == keys.value[i];
        Snoc(names, KeyName(keys.value[i]));
        names := names + [KeyName(keys.value[i])];
      }
      assert keys.value[..|keys.value|] == keys.value;
      return Ok(names);
    }

    method ListMachineSetIDs(cluster: Id) returns (r: Result<seq<Id>>)
      ensures r.Ok? ==> Distinct(r.value)
      ensures r.Ok? ==> forall s :: s in Elems(r.value) <==>
        SetKey(s) in state.store && state.store[SetKey(s)].labels.cluster == Some(cluster)
      ensures r.Err? ==> r.error == Unavailable
      ensures state.reliable ==> r.Ok?
    {
      r := ListNames((k: Key, v: Resource) => k.SetKey? && v.labels.cluster == Some(cluster), s => SetKey(s));
    }

    method AllocatedMachineSetNodes(setId: Id) returns (r: Result<seq<Id>>)
      ensures r.Ok? ==> Distinct(r.value) && Elems(r.value) == BoundTo(state.store, setId)
      ensures r.Err? ==> r.error == Unavailable
      ensures state.reliable ==> r.Ok?
    {
      r := ListNames((k: Key, v: Resource) => k.NodeKey? && v.labels.setId == Some(setId), m => NodeKey(m));
      if r.Ok? {
        assert forall m :: m in BoundTo(state.store, setId) <==>
          NodeKey(m) in state.store && state.store[NodeKey(m)].labels.setId == Some(setId);
      }
    }

    // ── Observations ───────────────────────────────────────────────────────────

    /** The available machines the pushed-down query lets through, matched again on the client. */
    method MatchingMachines(sel: Selector) returns (r: Result<seq<Id>>)
      requires sel.Sound()
      ensures r.Ok? ==> Distinct(r.value) && Elems(r.value) == Eligible(statuses, sel)
      ensures r.Err? ==> r.error == Unavailable
      ensures state.reliable ==> r.Ok?
    {
      var up := Reach(state.reliable);
      if !up { return Err(Unavailable); }
      var listed := set m | m in statuses && AVAILABLE in statuses[m].labels && sel.query(statuses[m].labels);
      ghost var all := Eligible(statuses, sel);
      assert all <= listed;
      var ids: seq<Id> := [];
      while listed != {}
        invariant listed <= statuses.Keys && Elems(ids) !! listed
        invariant Distinct(ids) && Elems(ids) <= all <= Elems(ids) + listed
        invariant forall m :: m in listed ==> (m in all <==> sel.matches(statuses[m].labels))
        decreases listed
      {
        var m :| m in listed;
        listed := listed - {m};
        if sel.matches(statuses[m].labels) {
          Snoc(ids, m);
          ids := ids + [m];
        }
      }
      return Ok(ids);
    }

    /** The first `count` names, in order, of the machines that are available and match. */
    method SelectAvailableMachines(sel: Selector, count: nat) returns (r: Result<seq<Id>>)
      requires sel.Sound()
      ensures r.Ok? ==>
        var all := Eligible(statuses, sel);
        && sel.valid && Sorted(Less, r.value) && Distinct(r.value)
        && Least(Less, Elems(r.value), all, if count <= |all| then count else |all|)
      ensures r.Err? ==> r.error == if sel.valid then Unavailable else InvalidSelector
      ensures state.reliable && sel.valid ==> r.Ok?
    {
      if !sel.valid { return Err(InvalidSelector); }
      var found := MatchingMachines(sel);
      if found.Err? { return found; }
      var ids := SortNames(found.value);
      DistinctSize(found.value);
      var kept := if |ids| > count then count else |ids|;
      FirstNamesAreLeast(ids, kept);
      return Ok(ids[..kept]);
    }

    /** Readiness from the cluster's view of each member, connectivity from the machine's own status. */
    method MachineSetNodeHealth(setId: Id) returns (r: Result<map<Id, MachineHealth>>)
      ensures r.Ok? ==> r.value == HealthOf(members, statuses, setId)
      ensures r.Err? ==> r.error == Unavailable
      ensures state.reliable ==> r.Ok?
    {
      var up := Reach(state.reliable);
      if !up { return Err(Unavailable); }
      var health: map<Id, MachineHealth> :=
        map m | m in members && members[m].setId == setId ::
          MachineHealth(false, members[m].ready && members[m].running);
      var left, all := health.Keys, HealthOf(members, statuses, setId);
      while left != {}
        invariant health.Keys == all.Keys && left <= all.Keys
        invariant forall m :: m in health ==>
          health[m] == if m in left then MachineHealth(false, all[m].ready) else all[m]
        decreases left
      {
        var m :| m in left;
        up := Reach(state.reliable);
        if !up { return Err(Unavailable); }
        if m in statuses { health := health[m := health[m].(connected := statuses[m].connected)]; }
        left := left - {m};
      }
      return Ok(health);
    }

    method GetDriftingMachines(cluster: Id) returns (r: Result<seq<Drift>>)
      ensures r.Ok? ==> DriftReport(members, cluster, r.value)
      ensures r.Err? ==> r.error == Unavailable
      ensures state.reliable ==> r.Ok?
    {
      var up := Reach(state.reliable);
      if !up { return Err(Unavailable); }
      var listed := set m | m in members && members[m].cluster == cluster;
      var unsteady := set m | m in listed && (!members[m].running || !members[m].ready);
      assert unsteady == Unsteady(members, cluster);
      if unsteady != {} { return Ok([]); }
      var drifting: seq<Drift> := [];
      var left := listed;
      while left != {}
        invariant left <= listed
        invariant forall m :: m in listed - left && m in Behind(members, cluster) ==> Drift(m, members[m].address) in drifting
        invariant forall d :: d in drifting ==>
          d.machine in Behind(members, cluster) && d.address == members[d.machine].address
        decreases left
      {
        var m :| m in left;
        if !members[m].upToDate && members[m].configError == "" {
          drifting := drifting + [Drift(m, members[m].address)];
        }
        left := left - {m};
      }
      return Ok(drifting);
    }

    /** Issues the reboot; the call may be lost or refused, but it has been attempted. */
    method RebootMachine(cluster: Id, address: string) returns (r: Result<()>)
      modifies this`reboots
      ensures reboots == old(reboots) + [Reboot(cluster, address, r.Ok?)]
      ensures r.Err? ==> r.error == Unavailable
    {
      var accepted: bool := *;
      reboots := reboots + [Reboot(cluster, address, accepted)];
      return if accepted then Ok(()) else Err(Unavailable);
    }

    // ── One machine ────────────────────────────────────────────────────────────

    /** Binds the machine; a node that already exists must belong to this very set. */
    method EnsureMachineSetNode(cluster: Id, setId: Id, machine: Id) returns (r: Result<()>)
      modifies state`store
      ensures
        var k := NodeKey(machine);
        var was := old(state.store);
        && (r.Err? ==> state.store == was)
        && (r.Ok? ==> state.store == NodeEnsured(was, k, NodeLabels(cluster, setId)))
        && (r.Ok? && k in was ==> was[k].labels.setId == Some(setId))
        && (state.reliable ==> (r.Ok? <==> k in was ==> was[k].labels.setId == Some(setId)))
        && (state.reliable && r.Err? ==> r.error == BoundElsewhere)
        && (r == Err(BoundElsewhere) ==> k in was && was[k].labels.setId != Some(setId))
        && (r.Err? ==> r.error in {Unavailable, NotFound, BoundElsewhere})
    {
      var k := NodeKey(machine);
      r := state.Create(k, Labels(Some(cluster), Some(setId), None, None), Empty, MachinePass);
      if r.Ok? || r.error != Conflict { return; }
      var existing := state.Get(k);
      if existing.Err? { return Err(existing.error); }
      if existing.value.labels.setId != Some(setId) { return Err(BoundElsewhere); }
      return Ok(());
    }

    /** Creates the patch, or rewrites it when the documents are not equal as JSON. */
    method EnsureConfigPatch(patch: Id, cluster: Id, setId: Id, machine: Id, doc: Doc) returns (r: Result<()>)
      requires PatchKey(patch) in state.store ==> state.store[PatchKey(patch)].body.Patch?
      modifies state`store
      ensures r.Err? ==> state.store == old(state.store)
      ensures r.Ok? ==> state.store == PatchEnsured(old(state.store), PatchKey(patch), PatchLabels(cluster, setId, machine), doc)
      ensures r.Ok? ==> CanEnsurePatch(old(state.store), PatchKey(patch), doc)
      ensures state.reliable ==> (r.Ok? <==> CanEnsurePatch(old(state.store), PatchKey(patch), doc))
      ensures state.reliable && r.Err? ==> r.error == PhaseConflict
      ensures r == Err(PhaseConflict) ==> PatchKey(patch) in state.store && state.store[PatchKey(patch)].phase == TearingDown
    {
      var k := PatchKey(patch);
      var existing := state.Get(k);
      if existing == Err(NotFound) {
        r := state.Create(k, Labels(Some(cluster), Some(setId), Some(machine), None), Patch(doc), MachinePass);
        return;
      }
      if existing.Err? { return Err(existing.error); }
      if !JsonEqual(existing.value.body.doc, doc) {
        r := state.Update(k, existing.value.labels, Patch(doc));
        return;
      }
      return Ok(());
    }

    /** Tears down every patch of the machine outside `keep`, going on past one that is not finished. */
    method PruneConfigPatches(cluster: Id, machine: Id, keep: set<Id>) returns (r: Result<()>)
      modifies state`store
      ensures Tears(old(state.store), state.store, Unwanted(old(state.store), cluster, machine, keep), r.Ok?, state.reliable)
      ensures r.Err? && state.reliable ==> r.error == InProgress
    {
      var keys := state.List((k: Key, v: Resource) =>
        k.PatchKey? && v.labels.cluster == Some(cluster) && v.labels.machine == Some(machine));
      if keys.Err? { return Err(keys.error); }
      ghost var was := state.store;
      ghost var done: set<Key> := {};
      var failed := false;
      for i := 0 to |keys.value|
        invariant forall k :: k in done <==> k in Elems(keys.value[..i]) && k.PatchKey? && k.patch !in keep
        invariant forall k :: k in Elems(keys.value) ==> k.PatchKey?
        invariant Tears(was, state.store, done, !failed, state.reliable)
      {
        var k := keys.value[i];
        ElemsStep(keys.value, i);
        if k.patch !in keep {
          ghost var before := state.store;
          var one := state.TeardownAndDestroy(k);
          TearsCompose(was, before, state.store, done, {k}, !failed, one.Ok?, state.reliable);
          done := done + {k};
          failed := failed || one.Err?;
        }
      }
      assert keys.value[..|keys.value|] == keys.value;
      assert done == Unwanted(was, cluster, machine, keep);
      return if failed then Err(InProgress) else Ok(());
    }

    method DeleteConfigPatches(cluster: Id, machine: Id) returns (r: Result<()>)
      modifies state`store
      ensures Tears(old(state.store), state.store, PatchKeys(old(state.store), cluster, machine), r.Ok?, state.reliable)
      ensures r.Err? && state.reliable ==> r.error == InProgress
    {
      assert Unwanted(state.store, cluster, machine, {}) == PatchKeys(state.store, cluster, machine);
      r := PruneConfigPatches(cluster, machine, {});
    }

    /** Unbinds a machine and removes its patches and kernel arguments. */
    method ReleaseMachine(cluster: Id, machine: Id) returns (r: Result<()>)
      modifies state`store
      ensures ReleaseOutcome(old(state.store), state.store, cluster, machine, r.Ok?, state.reliable)
      ensures r.Err? && state.reliable ==> r.error == InProgress
    {
      ghost var s := state.store;
      r := state.TeardownAndDestroy(NodeKey(machine));
      if r.Err? {
        ReleaseStopsAtNode(s, state.store, cluster, machine, state.reliable);
        return;
      }
      assert PatchKeys(state.store, cluster, machine) == PatchKeys(s, cluster, machine);
      r := DeleteConfigPatches(cluster, machine);
      if r.Err? {
        ReleaseStopsAtPatches(s, state.store, cluster, machine, state.reliable);
        return;
      }
      r := state.TeardownAndDestroy(KernelArgsKey(machine));
      ReleaseEndsAtArgs(s, state.store, cluster, machine, r.Ok?, state.reliable);
    }
  }

  lemma ReleaseStopsAtNode(s: Store, s': Store, cluster: Id, machine: Id, reliable: bool)
    requires Tears(s, s', {NodeKey(machine)}, false, reliable) && (NodeKey(machine) in s ==> NodeKey(machine) in s')
    ensures ReleaseOutcome(s, s', cluster, machine, false, reliable)
  {
  }

  lemma ReleaseStopsAtPatches(s: Store, s': Store, cluster: Id, machine: Id, reliable: bool)
    requires Clear(s, {NodeKey(machine)})
    requires Tears(s - {NodeKey(machine)}, s', PatchKeys(s, cluster, machine), false, reliable)
    ensures ReleaseOutcome(s, s', cluster, machine, false, reliable)
  {
    TornCompose(s, {NodeKey(machine)}, PatchKeys(s, cluster, machine));
  }

  lemma ReleaseEndsAtArgs(s: Store, s': Store, cluster: Id, machine: Id, ok: bool, reliable: bool)
    requires
      var node, patches := {NodeKey(machine)}, PatchKeys(s, cluster, machine);
      && Clear(s, node) && Clear(s - node, patches)
      && Tears(s - node - patches, s', {KernelArgsKey(machine)}, ok, reliable)
    ensures ReleaseOutcome(s, s', cluster, machine, ok, reliable)
  {
    var node, patches, args := {NodeKey(machine)}, PatchKeys(s, cluster, machine), {KernelArgsKey(machine)};
    assert s - node - patches == s - (node + patches);
    TornCompose(s, node, patches);
    TornCompose(s, node + patches, args);
    assert node + patches + args == MachineKeys(s, cluster, machine);
    if ok { assert s' == s - MachineKeys(s, cluster, machine); }
  }
}
