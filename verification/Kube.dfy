/** Machine objects (api/v1alpha1/machine_types.go) and the API server that holds them. */
module Kube {
  import opened Ids
  import opened Cosi

  datatype Role = ControlPlane | Worker | UnknownRole(name: string)

  datatype ConfigPatch = ConfigPatch(name: Id, inline: JsonDoc)

  /** Stored times are whole seconds. */
  datatype MachineSpec = MachineSpec(
    cluster: Id, setId: Id, role: Role, patches: seq<ConfigPatch>, kernelArgs: seq<string>,
    rebootRequestedAt: Option<nat>, managementAddress: string)

  /** Why a pass gave up, by the stage that failed. */
  datatype Failure =
    | InvalidRole
    | BindFailed(error: Error)
    | ConfigPatchFailed(error: Error)
    | KernelArgsFailed(error: Error)

  datatype MachinePhase = Pending | Ready | Rebooting | Failed(failure: Failure)

  datatype MachineStatus = MachineStatus(phase: MachinePhase, lastReboot: Option<nat>)

  /** `version` is the resource version, which an update must name. */
  datatype Machine = Machine(
    cluster: Id, setId: Id, spec: MachineSpec, status: MachineStatus,
    finalizer: bool, deleting: bool, version: nat)

  type Objects = map<Id, Machine>

  const NANOS := 1_000_000_000

  /** A stored time drops everything below the second. */
  function Seconds(t: nat): nat {
    t / NANOS
  }

  /** There is a request, and no reboot since. */
  predicate Owed(requested: Option<nat>, last: Option<nat>) {
    requested.Some? && (last.None? || requested.value > last.value)
  }

  predicate RebootOwed(spec: MachineSpec, status: MachineStatus) {
    Owed(spec.rebootRequestedAt, status.lastReboot)
  }

  ghost function Deleted(objects: Objects, name: Id): Objects {
    if name !in objects then objects
    else if objects[name].finalizer then
      objects[name := if objects[name].deleting then objects[name]
                      else objects[name].(deleting := true, version := objects[name].version + 1)]
    else objects - {name}
  }

  ghost function MachinesOf(objects: Objects, cluster: Id): set<Id> {
    set n | n in objects && objects[n].cluster == cluster
  }

  ghost function MachinesIn(objects: Objects, cluster: Id, setId: Id): set<Id> {
    set n | n in objects && objects[n].cluster == cluster && objects[n].setId == setId
  }

  /** `objects` is what the API server holds; `cache` is what a listing shows. */
  class Api {
    var objects: Objects
    var cache: Objects
    var secrets: set<string>
    const reliable: bool

    constructor (reliable: bool)
      ensures objects == map[] && cache == map[] && secrets == {} && this.reliable == reliable
    {
      objects, cache, secrets := map[], map[], {};
      this.reliable := reliable;
    }

    /** The names a listing shows for a label query, in the server's own order. */
    method List(query: Machine -> bool) returns (r: Result<seq<Id>>)
      ensures r.Ok? ==> Distinct(r.value) && Elems(r.value) == set n | n in cache && query(cache[n])
      ensures r.Err? ==> r.error == Unavailable
      ensures reliable ==> r.Ok?
    {
      var up := Reach(reliable);
      if !up { return Err(Unavailable); }
      var left := set n | n in cache && query(cache[n]);
      ghost var all := left;
      var names: seq<Id> := [];
      while left != {}
        invariant Elems(names) !! left && all == Elems(names) + left && Distinct(names)
        decreases left
      {
        var n :| n in left;
        Snoc(names, n);
        left, names := left - {n}, names + [n];
      }
      return Ok(names);
    }

    method ListClusterMachines(cluster: Id) returns (r: Result<seq<Id>>)
      ensures r.Ok? ==> Distinct(r.value) && Elems(r.value) == MachinesOf(cache, cluster)
      ensures r.Err? ==> r.error == Unavailable
      ensures reliable ==> r.Ok?
    {
      r := List((m: Machine) => m.cluster == cluster);
    }

    method ListMachineSetMachines(cluster: Id, setId: Id) returns (r: Result<seq<Id>>)
      ensures r.Ok? ==> Distinct(r.value) && Elems(r.value) == MachinesIn(cache, cluster, setId)
      ensures r.Err? ==> r.error == Unavailable
      ensures reliable ==> r.Ok?
    {
      r := List((m: Machine) => m.cluster == cluster && m.setId == setId);
    }

    /** A create that finds the object already there counts as done. */
    method Create(name: Id, m: Machine) returns (r: Result<()>)
      modifies this`objects
      ensures r.Err? ==> r.error == Unavailable
      ensures objects == (if r.Err? || name in old(objects) then old(objects) else old(objects)[name := m])
      ensures reliable ==> r.Ok?
    {
      var up := Reach(reliable);
      if !up { return Err(Unavailable); }
      if name !in objects { objects := objects[name := m]; }
      return Ok(());
    }

    /** Deletion with a finalizer only marks the object; a missing object is already gone. */
    method Delete(name: Id) returns (r: Result<()>)
      modifies this`objects
      ensures r.Err? ==> r.error == Unavailable
      ensures objects == (if r.Err? then old(objects) else Deleted(old(objects), name))
      ensures reliable ==> r.Ok?
    {
      var up := Reach(reliable);
      if !up { return Err(Unavailable); }
      if name !in objects { return Ok(()); }
      if !objects[name].finalizer {
        objects := objects - {name};
      } else if !objects[name].deleting {
        objects := objects[name := objects[name].(deleting := true, version := objects[name].version + 1)];
      }
      return Ok(());
    }

    /** An update must carry the current version and leaves the status alone. Removing the last
        finalizer of an object marked for deletion removes the object. */
    method Update(name: Id, m: Machine) returns (r: Result<()>)
      modifies this`objects
      ensures r.Ok? ==> name in old(objects) && old(objects)[name].version == m.version
      ensures objects == (
        if r.Err? then old(objects)
        else if m.deleting && !m.finalizer then old(objects) - {name}
        else old(objects)[name := m.(status := old(objects)[name].status, version := m.version + 1)])
      ensures reliable ==> (r.Ok? <==> name in old(objects) && old(objects)[name].version == m.version)
      ensures r.Err? ==> r.error in {Unavailable, Conflict, NotFound}
      ensures reliable && r.Err? ==> r.error == if name in old(objects) then Conflict else NotFound
    {
      var up := Reach(reliable);
      if !up { return Err(Unavailable); }
      if name !in objects { return Err(NotFound); }
      if objects[name].version != m.version { return Err(Conflict); }
      objects := if m.deleting && !m.finalizer then objects - {name}
                 else objects[name := m.(status := objects[name].status, version := m.version + 1)];
      return Ok(());
    }

    /** A status update changes nothing but the status. */
    method UpdateStatus(name: Id, version: nat, status: MachineStatus) returns (r: Result<()>)
      modifies this`objects
      ensures r.Ok? ==> name in old(objects) && old(objects)[name].version == version
      ensures objects == (
        if r.Err? then old(objects)
        else old(objects)[name := old(objects)[name].(status := status, version := version + 1)])
      ensures reliable ==> (r.Ok? <==> name in old(objects) && old(objects)[name].version == version)
      ensures r.Err? ==> r.error in {Unavailable, Conflict, NotFound}
      ensures reliable && r.Err? ==> r.error == if name in old(objects) then Conflict else NotFound
    {
      var up := Reach(reliable);
      if !up { return Err(Unavailable); }
      if name !in objects { return Err(NotFound); }
      if objects[name].version != version { return Err(Conflict); }
      objects := objects[name := objects[name].(status := status, version := version + 1)];
      return Ok(());
    }

    method DeleteSecret(name: string) returns (r: Result<()>)
      modifies this`secrets
      ensures r.Err? ==> r.error == Unavailable
      ensures secrets == (if r.Err? then old(secrets) else old(secrets) - {name})
      ensures reliable ==> r.Ok?
    {
      var up := Reach(reliable);
      if !up { return Err(Unavailable); }
      secrets := secrets - {name};
      return Ok(());
    }
  }
}
