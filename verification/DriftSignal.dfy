/** The cluster controller's part of the reboot handshake (controllers/omnicluster_controller.go,
    signalDriftReboots), and why it is a step of the protocol. */
module DriftSignal {
  import opened Ids
  import opened Cosi
  import opened OmniApi
  import opened Kube
  import opened RebootProtocol

  datatype Signal = UpToDate | InFlight | CoolingDown | Requested(drift: Drift)

  /** The drifting machine has an object in the listing and was not rebooted recently. */
  ghost predicate Candidate(cache: Objects, cluster: Id, d: Drift, now: nat) {
    && d.machine in cache && cache[d.machine].cluster == cluster
    && Cool(cache[d.machine].status.lastReboot, now)
  }

  ghost predicate NoneOwed(objects: Objects, cluster: Id) {
    forall n :: n in objects && objects[n].cluster == cluster ==> !RebootOwed(objects[n].spec, objects[n].status)
  }

  /** `d` is the first candidate. */
  ghost predicate FirstCandidate(cache: Objects, cluster: Id, drifting: seq<Drift>, now: nat, d: Drift) {
    exists i :: 0 <= i < |drifting| && drifting[i] == d && Candidate(cache, cluster, d, now) &&
      forall j :: 0 <= j < i ==> !Candidate(cache, cluster, drifting[j], now)
  }

  /** The machine with a reboot requested at the reported address, and otherwise as it was. */
  ghost predicate Asked(m: Machine, m': Machine, d: Drift, now: nat) {
    && m'.spec.rebootRequestedAt == Some(now / 1_000_000_000) && m'.spec.managementAddress == d.address
    && m'.spec.cluster == m.spec.cluster && m'.spec.setId == m.spec.setId && m'.spec.role == m.spec.role
    && m'.spec.patches == m.spec.patches && m'.spec.kernelArgs == m.spec.kernelArgs
    && m'.cluster == m.cluster && m'.setId == m.setId && m'.finalizer == m.finalizer && m'.deleting == m.deleting
  }

  /** Of the objects, one was asked to reboot. */
  ghost predicate AskedOne(was: Objects, now: Objects, shown: Machine, d: Drift, clock: nat) {
    && d.machine in was && d.machine in now && now == was[d.machine := now[d.machine]]
    && Asked(shown, now[d.machine], d, clock)
    && was[d.machine].version == shown.version && now[d.machine].version == shown.version + 1
    && now[d.machine].status == was[d.machine].status
  }

  /** Somebody has written or removed the object since it was listed. */
  ghost predicate NotCurrent(objects: Objects, d: Drift, cache: Objects)
    requires d.machine in cache
  {
    d.machine !in objects || objects[d.machine].version != cache[d.machine].version
  }

  class DriftSignaller {
    const kube: Api

    constructor (kube: Api)
      ensures this.kube == kube
    {
      this.kube := kube;
    }

    method AnyRebootInFlight(cluster: Id, names: seq<Id>) returns (any: bool)
      requires Elems(names) == MachinesOf(kube.cache, cluster)
      ensures any <==> !NoneOwed(kube.cache, cluster)
    {
      for i := 0 to |names|
        invariant Elems(names[..i]) <= Elems(names)
        invariant forall n :: n in Elems(names[..i]) ==> !RebootOwed(kube.cache[n].spec, kube.cache[n].status)
      {
        ElemsStep(names, i);
        var m := kube.cache[names[i]];
        if RebootOwed(m.spec, m.status) { return true; }
      }
      assert names[..|names|] == names;
      return false;
    }

    method SelectCandidate(cluster: Id, drifting: seq<Drift>, now: nat) returns (r: Option<Drift>)
      ensures r.Some? ==> FirstCandidate(kube.cache, cluster, drifting, now, r.value)
      ensures r.None? ==> forall d :: d in drifting ==> !Candidate(kube.cache, cluster, d, now)
    {
      for i := 0 to |drifting|
        invariant forall j :: 0 <= j < i ==> !Candidate(kube.cache, cluster, drifting[j], now)
      {
        var d := drifting[i];
        if d.machine in kube.cache && kube.cache[d.machine].cluster == cluster {
          if Cool(kube.cache[d.machine].status.lastReboot, now) { return Some(d); }
        }
      }
      return None;
    }

    /** Requests at most one reboot, and only where none is owed. */
    method SignalDriftReboots(cluster: Id, drifting: seq<Drift>, now: nat) returns (r: Result<Signal>)
      requires forall n :: n in kube.cache && kube.cache[n].deleting ==> kube.cache[n].finalizer
      modifies kube`objects
      ensures r.Ok? && r.value.Requested? ==>
        var d := r.value.drift;
        && NoneOwed(kube.cache, cluster) && FirstCandidate(kube.cache, cluster, drifting, now, d)
        && AskedOne(old(kube.objects), kube.objects, kube.cache[d.machine], d, now) && d in drifting
        && kube.cache[d.machine].cluster == cluster
        && (var last := kube.cache[d.machine].status.lastReboot;
            last.None? || now >= last.value * 1_000_000_000 + 600_000_000_000)
      ensures r.Err? || !r.value.Requested? ==> kube.objects == old(kube.objects)
      ensures r.Ok? ==>
        && (r.value == UpToDate <==> drifting == [])
        && (r.value == InFlight <==> drifting != [] && !NoneOwed(kube.cache, cluster))
        && (r.value == CoolingDown <==>
              && drifting != [] && NoneOwed(kube.cache, cluster)
              && forall d :: d in drifting ==> !Candidate(kube.cache, cluster, d, now))
      ensures r.Err? ==> r.error in {Unavailable, Conflict, NotFound}
      ensures kube.reliable && r.Err? ==>
        exists d :: FirstCandidate(kube.cache, cluster, drifting, now, d) && NotCurrent(old(kube.objects), d, kube.cache)
    {
      if drifting == [] { return Ok(UpToDate); }
      var names := kube.ListClusterMachines(cluster);
      if names.Err? { return Err(names.error); }
      var any := AnyRebootInFlight(cluster, names.value);
      if any { return Ok(InFlight); }
      var candidate := SelectCandidate(cluster, drifting, now);
      if candidate.None? { return Ok(CoolingDown); }
      var d := candidate.value;
      var m := kube.cache[d.machine];
      var asked := m.(spec := m.spec.(rebootRequestedAt := Some(Seconds(now)), managementAddress := d.address));
      var updated := kube.Update(d.machine, asked);
      if updated.Err? { return Err(updated.error); }
      return Ok(Requested(d));
    }
  }

  /** The protocol's nodes are the cluster's objects. */
  ghost predicate Mirrors(s: RebootProtocol.State, objects: Objects, cluster: Id) {
    && s.nodes.Keys == MachinesOf(objects, cluster)
    && forall n :: n in s.nodes ==>
         && s.nodes[n].requested == objects[n].spec.rebootRequestedAt
         && s.nodes[n].last == objects[n].status.lastReboot
         && s.nodes[n].version == objects[n].version
  }

  /** The machines a report names. */
  ghost function Named(drifting: seq<Drift>): set<Id> {
    set d | d in drifting :: d.machine
  }

  /** Where Omni shows the machines that are down as not steady, fetching the drift report is the
      protocol's health read: the pass goes on exactly when the report is not empty. It is empty while
      any member is not steady, and otherwise names the members that drift. */
  lemma DriftReportIsHealthRead(s: RebootProtocol.State, members: map<Id, ClusterMachineStatus>, cluster: Id, drifting: seq<Drift>)
    requires s.cluster.Idle? && s.down <= Unsteady(members, cluster) && DriftReport(members, cluster, drifting)
    ensures Step(s, HealthRead(Named(drifting))) == if drifting == [] then s else s.(cluster := Checked(Named(drifting)))
    ensures Unsteady(members, cluster) == {} ==>
      Named(drifting) == Behind(members, cluster)
  {
    if drifting == [] {
      assert Named(drifting) == {};
    } else {
      assert drifting[0].machine in Named(drifting);
    }
    if Unsteady(members, cluster) == {} {
      forall m | m in Behind(members, cluster) ensures m in Named(drifting) {
        assert Drift(m, members[m].address) in drifting;
      }
    }
  }

  /** With a current listing, what the signal does to the objects is what the protocol's listing and
      write do, for the machine it requests. */
  lemma SignalIsListAndWrite(s: RebootProtocol.State, was: Objects, now: Objects, cluster: Id, drifting: seq<Drift>, d: Drift)
    requires Mirrors(s, was, cluster) && s.cluster.Checked? && NoneOwed(was, cluster)
    requires FirstCandidate(was, cluster, drifting, s.clock, d)
    requires s.cluster.drift == Named(drifting) && AskedOne(was, now, was[d.machine], d, s.clock)
    ensures Step(s, List(d.machine)).cluster.Chosen?
    ensures Mirrors(Step(Step(s, List(d.machine)), Write(true)), now, cluster)
  {
  }

  /** A request for an object that somebody has written or removed since it was listed is refused, and
      the protocol's write changes nothing either. */
  lemma RefusedSignalIsWrite(s: RebootProtocol.State, objects: Objects, cluster: Id)
    requires Mirrors(s, objects, cluster) && s.cluster.Chosen?
    requires s.cluster.m in objects ==> objects[s.cluster.m].version != s.cluster.version
    ensures Step(s, Write(true)) == s.(cluster := Idle)
  {
  }

  /** Otherwise the protocol's listing ends the pass as well. */
  lemma NoSignalIsList(s: RebootProtocol.State, objects: Objects, cluster: Id, drifting: seq<Drift>, m: Id)
    requires Mirrors(s, objects, cluster) && s.cluster.Checked?
    requires s.cluster.drift == Named(drifting)
    requires NoneOwed(objects, cluster) ==> forall d :: d in drifting ==> !Candidate(objects, cluster, d, s.clock)
    ensures Step(s, List(m)) == s.(cluster := Idle)
  {
    if s.Owing() == {} && m in s.cluster.drift && m in s.nodes {
      var d :| d in drifting && d.machine == m;
      assert forall n :: n in objects && objects[n].cluster == cluster ==> n in s.nodes && n !in s.Owing();
      assert Candidate(objects, cluster, d, s.clock) <==> Cool(s.nodes[m].last, s.clock);
    }
  }

  /** A Machine object that is created is a machine that joins. */
  lemma CreationIsJoin(s: RebootProtocol.State, was: Objects, cluster: Id, n: Id, m: Machine)
    requires Mirrors(s, was, cluster) && s.cluster.Idle? && n !in was && m.cluster == cluster
    requires m.spec.rebootRequestedAt.None? && m.status.lastReboot.None?
    ensures Mirrors(Step(s, Join(n, m.version)), was[n := m], cluster)
  {
  }

  /** One that is gone is a machine that has left. */
  lemma RemovalIsLeave(s: RebootProtocol.State, was: Objects, cluster: Id, n: Id)
    requires Mirrors(s, was, cluster) && n in s.nodes && s.nodes[n].pc.Resting?
    ensures Mirrors(Step(s, Leave(n)), was - {n}, cluster)
  {
  }

  /** Any other write, such as a sync with the set's spec, a finalizer or a mark for deletion, touches
      the object: the request and the last reboot stay. */
  lemma OtherWriteIsTouch(s: RebootProtocol.State, was: Objects, now: Objects, cluster: Id, n: Id)
    requires Mirrors(s, was, cluster) && n in s.nodes && n in now && now == was[n := now[n]]
    requires now[n].cluster == was[n].cluster && now[n].version == was[n].version + 1
    requires now[n].spec.rebootRequestedAt == was[n].spec.rebootRequestedAt && now[n].status.lastReboot == was[n].status.lastReboot
    ensures Mirrors(Step(s, Touch(n)), now, cluster)
  {
  }

  /** A pass of a machine's controller that calls the machine and then writes its status, or fails
      to, is the protocol's read, call, return and stamp; the call may take time. */
  lemma RebootPassIsSteps(s: RebootProtocol.State, was: Objects, now: Objects, cluster: Id, n: Id,
                          stamp: nat, accepted: bool, status: MachineStatus)
    requires Mirrors(s, was, cluster) && n in s.nodes && s.nodes[n].pc.Resting? && s.clock <= stamp
    requires RebootOwed(was[n].spec, was[n].status) && status.lastReboot == Some(Seconds(stamp))
    requires now == was || now == was[n := was[n].(status := status, version := was[n].version + 1)]
    ensures
      var calling := Step(Step(s, Read(n)), Call(n, accepted));
      var s' := Step(Step(Step(calling, Tick(stamp - s.clock)), Return(n)), Stamp(n, now != was));
      Mirrors(s', now, cluster) && Calls(Step(s, Read(n)), Call(n, accepted), n)
  {
    var v := s.nodes[n].version;
    var calling := Step(Step(s, Read(n)), Call(n, accepted));
    CallSteps(s, n, accepted);
    StampSteps(calling, n, v, stamp, now != was);
    var s' := Step(Step(Step(calling, Tick(stamp - s.clock)), Return(n)), Stamp(n, now != was));
    StillMirrors(s, was, s', now, cluster, n);
  }

  /** The same pass when another writer touches the object between the read and the status write: the
      write is refused, and the reboot is still owed. */
  lemma InterruptedPassIsSteps(s: RebootProtocol.State, was: Objects, now: Objects, cluster: Id, n: Id,
                               stamp: nat, accepted: bool)
    requires Mirrors(s, was, cluster) && n in s.nodes && s.nodes[n].pc.Resting? && s.clock <= stamp
    requires RebootOwed(was[n].spec, was[n].status) && n in now && now == was[n := now[n]]
    requires now[n].cluster == was[n].cluster && now[n].version == was[n].version + 1
    requires now[n].spec.rebootRequestedAt == was[n].spec.rebootRequestedAt && now[n].status.lastReboot == was[n].status.lastReboot
    ensures
      var calling := Step(Step(Step(s, Read(n)), Call(n, accepted)), Touch(n));
      var s' := Step(Step(Step(calling, Tick(stamp - s.clock)), Return(n)), Stamp(n, true));
      Mirrors(s', now, cluster) && s'.nodes[n].Owes() && s'.nodes[n].pc.Resting?
  {
    CallSteps(s, n, accepted);
    var called := Step(Step(s, Read(n)), Call(n, accepted));
    RefusedSteps(called, n, s.nodes[n].version, stamp);
    var calling := Step(called, Touch(n));
    var s' := Step(Step(Step(calling, Tick(stamp - s.clock)), Return(n)), Stamp(n, true));
    StillMirrors(s, was, s', now, cluster, n);
  }

  lemma RefusedSteps(s: RebootProtocol.State, n: Id, v: nat, stamp: nat)
    requires n in s.nodes && s.nodes[n].pc == Calling(v) && s.nodes[n].version == v && s.clock <= stamp
    ensures
      var s' := Step(Step(Step(Step(s, Touch(n)), Tick(stamp - s.clock)), Return(n)), Stamp(n, true));
      && s'.nodes == s.nodes[n := s'.nodes[n]] && s'.nodes[n].requested == s.nodes[n].requested
      && s'.nodes[n].last == s.nodes[n].last && s'.nodes[n].version == v + 1 && s'.nodes[n].pc.Resting?
  {
  }

  lemma StillMirrors(s: RebootProtocol.State, was: Objects, s': RebootProtocol.State, now: Objects, cluster: Id, n: Id)
    requires Mirrors(s, was, cluster) && n in s.nodes && n in now && n in s'.nodes
    requires s'.nodes == s.nodes[n := s'.nodes[n]] && now == was[n := now[n]] && now[n].cluster == was[n].cluster
    requires s'.nodes[n].requested == now[n].spec.rebootRequestedAt && s'.nodes[n].last == now[n].status.lastReboot
    requires s'.nodes[n].version == now[n].version
    ensures Mirrors(s', now, cluster)
  {
  }

  lemma CallSteps(s: RebootProtocol.State, n: Id, accepted: bool)
    requires n in s.nodes && s.nodes[n].pc.Resting? && s.nodes[n].Owes()
    ensures Calls(Step(s, Read(n)), Call(n, accepted), n)
    ensures
      var s' := Step(Step(s, Read(n)), Call(n, accepted));
      && s'.clock == s.clock && s'.nodes == s.nodes[n := s'.nodes[n]] && s'.nodes[n].pc == Calling(s.nodes[n].version)
      && s'.nodes[n].requested == s.nodes[n].requested && s'.nodes[n].last == s.nodes[n].last
      && s'.nodes[n].version == s.nodes[n].version
  {
  }

  lemma StampSteps(s: RebootProtocol.State, n: Id, v: nat, stamp: nat, delivered: bool)
    requires n in s.nodes && s.nodes[n].pc == Calling(v) && s.nodes[n].version == v && s.clock <= stamp
    ensures
      var s' := Step(Step(Step(s, Tick(stamp - s.clock)), Return(n)), Stamp(n, delivered));
      && s'.nodes == s.nodes[n := s'.nodes[n]] && s'.nodes[n].requested == s.nodes[n].requested
      && s'.nodes[n].last == (if delivered then Some(Seconds(stamp)) else s.nodes[n].last)
      && s'.nodes[n].version == (if delivered then v + 1 else v)
  {
  }
}
