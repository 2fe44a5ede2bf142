/** The reboot handshake among the other writers of a machine's object: what the allocation passes do to
    requests, and where the reboot that answers a request goes (controllers/omnicluster_controller.go,
    controllers/machine_controller.go). */
module Handshake {
  import opened Ids
  import opened OmniApi
  import opened Kube
  import opened Allocation
  import opened MachineAllocator
  import opened ClusterAllocation
  import opened MachineControl
  import opened RebootProtocol
  import opened DriftSignal

  // ── Allocation passes are steps of the protocol ──────────────────────────────

  /** Machines of the cluster were added, written to or removed, but no request and no last reboot was
      changed, and no machine with the finalizer is gone. */
  ghost predicate KeepsRequests(was: Objects, now: Objects, cluster: Id) {
    && (forall n :: n in was && n in now ==>
          && now[n].cluster == was[n].cluster && now[n].finalizer == was[n].finalizer
          && now[n].spec.rebootRequestedAt == was[n].spec.rebootRequestedAt
          && now[n].status.lastReboot == was[n].status.lastReboot
          && (now[n] == was[n] || now[n].version == was[n].version + 1))
    && (forall n :: n in now && n !in was ==>
          now[n].cluster == cluster && now[n].spec.rebootRequestedAt.None? && now[n].status.lastReboot.None? && !now[n].finalizer)
    && (forall n :: n in was && n !in now ==> !was[n].finalizer)
  }

  /** The controller of a machine without the finalizer is not in a pass on a reboot. */
  ghost predicate AtRest(s: RebootProtocol.State, objects: Objects) {
    forall n :: n in s.nodes && n in objects && !objects[n].finalizer ==> s.nodes[n].pc.Resting?
  }

  /** An object is in the cluster where the listing shows it. */
  ghost predicate SameCluster(cache: Objects, objects: Objects, cluster: Id) {
    forall n :: n in cache && cache[n].cluster == cluster && n in objects ==> objects[n].cluster == cluster
  }

  ghost predicate OnlyBookkeeping(es: seq<Event>, was: Objects) {
    forall e :: e in es ==> e.Join? || e.Touch? || (e.Leave? && (e.m in was ==> !was[e.m].finalizer))
  }

  ghost function Changed(was: Objects, now: Objects): set<Id> {
    set n | n in was.Keys + now.Keys && !(n in was && n in now && now[n] == was[n])
  }

  /** The change of one machine's object. */
  ghost function OneChanged(was: Objects, now: Objects, n: Id): Objects {
    if n in now then was[n := now[n]] else was - {n}
  }

  lemma JoinStep(s: RebootProtocol.State, was: Objects, now: Objects, cluster: Id, n: Id) returns (e: Event)
    requires Mirrors(s, was, cluster) && s.cluster.Idle? && AtRest(s, was) && KeepsRequests(was, now, cluster)
    requires n in now && n !in was
    ensures Mirrors(Step(s, e), was[n := now[n]], cluster) && AtRest(Step(s, e), was[n := now[n]])
    ensures e.Join? && Step(s, e).cluster.Idle?
  {
    e := Join(n, now[n].version);
    CreationIsJoin(s, was, cluster, n, now[n]);
  }

  lemma TouchStep(s: RebootProtocol.State, was: Objects, now: Objects, cluster: Id, n: Id) returns (e: Event)
    requires Mirrors(s, was, cluster) && s.cluster.Idle? && AtRest(s, was) && KeepsRequests(was, now, cluster)
    requires n in now && n in s.nodes && now[n] != was[n]
    ensures Mirrors(Step(s, e), was[n := now[n]], cluster) && AtRest(Step(s, e), was[n := now[n]])
    ensures e.Touch? && Step(s, e).cluster.Idle?
  {
    e := Touch(n);
    OtherWriteIsTouch(s, was, was[n := now[n]], cluster, n);
  }

  lemma LeaveStep(s: RebootProtocol.State, was: Objects, now: Objects, cluster: Id, n: Id) returns (e: Event)
    requires Mirrors(s, was, cluster) && s.cluster.Idle? && AtRest(s, was) && KeepsRequests(was, now, cluster)
    requires n in s.nodes && n !in now
    ensures Mirrors(Step(s, e), was - {n}, cluster) && AtRest(Step(s, e), was - {n})
    ensures e == Leave(n) && !was[n].finalizer && Step(s, e).cluster.Idle?
  {
    e := Leave(n);
    RemovalIsLeave(s, was, cluster, n);
  }

  /** One machine's object, which may belong to another cluster. */
  lemma OneStep(s: RebootProtocol.State, was: Objects, now: Objects, cluster: Id, n: Id) returns (es: seq<Event>)
    requires Mirrors(s, was, cluster) && s.cluster.Idle? && AtRest(s, was) && KeepsRequests(was, now, cluster)
    requires n in Changed(was, now)
    ensures
      var mid := OneChanged(was, now, n);
      Mirrors(Run(s, es), mid, cluster) && Run(s, es).cluster.Idle? && AtRest(Run(s, es), mid)
    ensures OnlyBookkeeping(es, was)
  {
    if n in was && was[n].cluster != cluster {
      es := [];
      OtherCluster(s, was, now, cluster, n);
    } else {
      var e;
      if n !in was {
        e := JoinStep(s, was, now, cluster, n);
      } else if n in now {
        e := TouchStep(s, was, now, cluster, n);
      } else {
        e := LeaveStep(s, was, now, cluster, n);
      }
      es := [e];
      assert es[..0] == [] && Run(s, es[..0]) == s && Run(s, es) == Step(s, e);
    }
  }

  lemma OtherCluster(s: RebootProtocol.State, was: Objects, now: Objects, cluster: Id, n: Id)
    requires Mirrors(s, was, cluster) && AtRest(s, was) && KeepsRequests(was, now, cluster)
    requires n in was && was[n].cluster != cluster
    ensures Mirrors(s, OneChanged(was, now, n), cluster) && AtRest(s, OneChanged(was, now, n))
  {
  }

  lemma RestToChange(was: Objects, now: Objects, cluster: Id, n: Id)
    requires KeepsRequests(was, now, cluster) && n in Changed(was, now)
    ensures
      var mid := OneChanged(was, now, n);
      KeepsRequests(mid, now, cluster) && Changed(mid, now) == Changed(was, now) - {n} && FinalizersStay(was, mid)
  {
  }

  lemma NothingChanged(was: Objects, now: Objects)
    requires Changed(was, now) == {}
    ensures was == now
  {
    forall n ensures (n in was <==> n in now) && (n in was ==> was[n] == now[n]) {
      assert n !in Changed(was, now);
    }
  }

  lemma {:induction false} RunTogether(s: RebootProtocol.State, es: seq<Event>, fs: seq<Event>)
    ensures Run(s, es + fs) == Run(Run(s, es), fs)
  {
    if fs == [] {
      assert es + fs == es;
    } else {
      RunTogether(s, es, fs[..|fs| - 1]);
      assert (es + fs)[..|es + fs| - 1] == es + fs[..|fs| - 1];
    }
  }

  /** One machine at a time, in any order. */
  lemma {:induction false} ChangesAreSteps(s: RebootProtocol.State, was: Objects, now: Objects, cluster: Id) returns (es: seq<Event>)
    requires Mirrors(s, was, cluster) && s.cluster.Idle? && AtRest(s, was) && KeepsRequests(was, now, cluster)
    ensures Mirrors(Run(s, es), now, cluster) && Run(s, es).cluster.Idle? && AtRest(Run(s, es), now)
    ensures OnlyBookkeeping(es, was)
    decreases |Changed(was, now)|
  {
    if Changed(was, now) == {} {
      NothingChanged(was, now);
      es := [];
    } else {
      var n :| n in Changed(was, now);
      es := OneStep(s, was, now, cluster, n);
      RestToChange(was, now, cluster, n);
      var mid := OneChanged(was, now, n);
      var fs := ChangesAreSteps(Run(s, es), mid, now, cluster);
      BookkeepingBefore(fs, was, mid);
      RunTogether(s, es, fs);
      es := es + fs;
    }
  }

  /** The pass over one set changes no request. */
  lemma PassKeepsRequests(was: Objects, now: Objects, cache: Objects, s: Situation, done: Plan, t: Target)
    requires Carried(was, now, s, done, t) && SameCluster(cache, was, t.cluster)
    requires forall n :: n in s.listed ==> n in cache && cache[n].cluster == t.cluster
    ensures KeepsRequests(was, now, t.cluster) && SameCluster(cache, now, t.cluster)
  {
    var mid := Applied(was, done, NewMachine(t));
    forall n | n in now
      ensures n in was ==>
        && now[n].cluster == was[n].cluster && now[n].finalizer == was[n].finalizer
        && now[n].spec.rebootRequestedAt == was[n].spec.rebootRequestedAt
        && now[n].status.lastReboot == was[n].status.lastReboot
        && (now[n] == was[n] || now[n].version == was[n].version + 1)
      ensures n !in was ==>
        now[n].cluster == t.cluster && now[n].spec.rebootRequestedAt.None? && now[n].status.lastReboot.None? && !now[n].finalizer
    {
      PassInFields(was, now, s, done, t, n);
      assert n in mid && (now[n] == mid[n] || (n in s.listed - done.evict && Synced(mid[n], now[n], t)));
    }
  }

  /** The situation of every recorded set lists machines of the cluster. */
  lemma ListedInCluster(log: seq<SetPass>, c: ClusterSpec, unused: nat, v: View, i: nat)
    requires Recorded(log, c, unused, v) && i < |log|
    ensures forall n :: n in log[i].s.listed ==> n in v.cache && v.cache[n].cluster == c.name
    ensures log[i].t.cluster == c.name && Carried(log[i].was, log[i].now, log[i].s, log[i].done, log[i].t)
  {
    assert Observed(log[i], v);
    PlanOfPass(log[i]);
  }

  ghost predicate FinalizersStay(was: Objects, now: Objects) {
    forall n :: n in was && was[n].finalizer ==> n in now && now[n].finalizer
  }

  lemma BookkeepingBefore(es: seq<Event>, was: Objects, mid: Objects)
    requires OnlyBookkeeping(es, mid) && FinalizersStay(was, mid)
    ensures OnlyBookkeeping(es, was)
  {
  }

  /** The allocation of the sets of a cluster, as far as it came, is a run of the protocol on which machines
      join, are touched and leave, and none that carries the finalizer leaves. */
  lemma {:induction false} AllocationIsBookkeeping(
    s: RebootProtocol.State, log: seq<SetPass>, c: ClusterSpec, unused: nat, v: View, i: nat) returns (es: seq<Event>)
    requires Recorded(log, c, unused, v) && i < |log|
    requires Mirrors(s, log[0].was, c.name) && s.cluster.Idle? && AtRest(s, log[0].was)
    requires SameCluster(v.cache, log[0].was, c.name)
    ensures Mirrors(Run(s, es), log[i].now, c.name) && OnlyBookkeeping(es, log[0].was)
    ensures Run(s, es).cluster.Idle? && AtRest(Run(s, es), log[i].now) && SameCluster(v.cache, log[i].now, c.name)
    ensures FinalizersStay(log[0].was, log[i].now)
  {
    ListedInCluster(log, c, unused, v, i);
    if i == 0 {
      PassKeepsRequests(log[0].was, log[0].now, v.cache, log[0].s, log[0].done, log[0].t);
      es := ChangesAreSteps(s, log[0].was, log[0].now, c.name);
    } else {
      es := AllocationIsBookkeeping(s, log, c, unused, v, i - 1);
      assert Follows(log[i - 1], log[i]);
      var mid := log[i].was;
      PassKeepsRequests(mid, log[i].now, v.cache, log[i].s, log[i].done, log[i].t);
      var fs := ChangesAreSteps(Run(s, es), mid, log[i].now, c.name);
      BookkeepingBefore(fs, log[0].was, mid);
      RunTogether(s, es, fs);
      es := es + fs;
    }
  }

  /** So a reboot that is owed when an allocation pass over the cluster starts is still owed when it ends,
      also where the pass syncs or evicts the machine. */
  lemma AllocationDropsNoRequest(
    s: RebootProtocol.State, log: seq<SetPass>, c: ClusterSpec, unused: nat, v: View, i: nat, m: Id) returns (s': RebootProtocol.State)
    requires Recorded(log, c, unused, v) && i < |log|
    requires Mirrors(s, log[0].was, c.name) && s.cluster.Idle? && AtRest(s, log[0].was)
    requires SameCluster(v.cache, log[0].was, c.name)
    requires Inv(s) && RebootProtocol.Pending(s, m) && log[0].was[m].finalizer
    ensures Mirrors(s', log[i].now, c.name) && Inv(s') && RebootProtocol.Pending(s', m)
    ensures m in log[i].now && RebootOwed(log[i].now[m].spec, log[i].now[m].status)
  {
    var es := AllocationIsBookkeeping(s, log, c, unused, v, i);
    s' := Run(s, es);
    AtMostOneOwed(s, es);
    assert Leave(m) !in es;
    NoRequestIsDropped(s, es, m);
    forall k | 0 <= k < |es| ensures !es[k].Call? { assert es[k] in es; }
  }

  // ── Where the reboot goes ────────────────────────────────────────────────────

  /** An allocation pass over a set, or a pass of the controller of any machine. */
  ghost predicate Meanwhile(a: Objects, b: Objects, cluster: Id, n: Id) {
    || (exists s, done, t :: Carried(a, b, s, done, t) && (n in s.listed ==> t.cluster == cluster))
    || (exists s, s', k :: PassStep(a, s, b, s', k))
  }

  /** The request of machine `n` and where it is to be sent. */
  ghost predicate SameRequest(m: Machine, m': Machine) {
    && m'.spec.rebootRequestedAt == m.spec.rebootRequestedAt && m'.spec.managementAddress == m.spec.managementAddress
    && m'.spec.cluster == m.spec.cluster
  }

  lemma MeanwhileKeepsRequest(a: Objects, b: Objects, cluster: Id, n: Id)
    requires Meanwhile(a, b, cluster, n) && n in a && n in b && a[n].spec.cluster == cluster
    ensures SameRequest(a[n], b[n])
  {
    if s, done, t :| Carried(a, b, s, done, t) && (n in s.listed ==> t.cluster == cluster) {
      PassInFields(a, b, s, done, t, n);
      var mid := Applied(a, done, NewMachine(t));
      assert n in mid && (b[n] == mid[n] || (n in s.listed - done.evict && Synced(mid[n], b[n], t)));
    } else {
      var s, s', k :| PassStep(a, s, b, s', k);
    }
  }

  lemma {:induction false} RequestStays(run: seq<Objects>, cluster: Id, n: Id, i: nat)
    requires i < |run| && forall k :: 0 <= k < |run| ==> n in run[k]
    requires forall k :: 0 <= k < |run| - 1 ==> Meanwhile(run[k], run[k + 1], cluster, n)
    requires run[0][n].spec.cluster == cluster
    ensures SameRequest(run[0][n], run[i][n])
  {
    if i > 0 {
      RequestStays(run, cluster, n, i - 1);
      MeanwhileKeepsRequest(run[i - 1], run[i], cluster, n);
    }
  }

  /** From the report to the call: after a request, whatever allocation and machine passes come between,
      the pass that calls the machine calls the address that Omni reported for it, in its cluster. */
  lemma ReportedAddressIsCalled(
    members: map<Id, ClusterMachineStatus>, cluster: Id, drifting: seq<Drift>, d: Drift, clock: nat,
    was: Objects, shown: Machine, run: seq<Objects>, i: nat, calls: seq<Reboot>, calls': seq<Reboot>)
    requires DriftReport(members, cluster, drifting) && d in drifting && i < |run|
    requires AskedOne(was, run[0], shown, d, clock) && shown.spec.cluster == cluster
    requires forall k :: 0 <= k < |run| ==> d.machine in run[k]
    requires forall k :: 0 <= k < |run| - 1 ==> Meanwhile(run[k], run[k + 1], cluster, d.machine)
    requires MachineControl.Calls(run[i][d.machine], calls, calls') && calls' != calls
    ensures d.machine in members && calls'[..|calls|] == calls && |calls'| == |calls| + 1
    ensures calls'[|calls|].cluster == cluster && calls'[|calls|].address == members[d.machine].address
  {
    RequestStays(run, cluster, d.machine, i);
    ReportedIff(members, cluster, drifting, d);
  }
}
