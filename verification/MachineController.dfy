/** The controller of a single machine (controllers/machine_controller.go): it converges the
    machine's Omni state on its spec, reboots it when a reboot is owed, and unwinds that state
    before the object may go. */
module MachineControl {
  import opened Ids
  import opened Cosi
  import opened OmniApi
  import opened Kube

  function PatchId(cluster: Id, machine: Id, patch: Id): Id {
    cluster + "-" + machine + "-" + patch
  }

  ghost predicate DistinctNames(ps: seq<ConfigPatch>) {
    forall i, j :: 0 <= i < j < |ps| ==> ps[i].name != ps[j].name
  }

  /** Within one machine, distinct patch names give distinct resources. */
  lemma PatchIdInjective(cluster: Id, machine: Id, a: Id, b: Id)
    requires PatchId(cluster, machine, a) == PatchId(cluster, machine, b)
    ensures a == b
  {
    var n := |cluster + "-" + machine + "-"|;
    assert PatchId(cluster, machine, a)[n..] == a && PatchId(cluster, machine, b)[n..] == b;
  }

  /** Across clusters the name does not determine the machine. */
  lemma PatchIdCollides()
    ensures PatchId("a", "m", "n-x") == PatchId("a-m", "n", "x")
  {
  }

  // ── The goal of a pass ───────────────────────────────────────────────────────

  /** A spec in terms of the store: the patch keys it names, with their documents. */
  datatype Goal = Goal(
    name: Id, cluster: Id, setId: Id, patches: seq<Key>, docs: seq<JsonDoc>, args: seq<string>)
  {
    const node := NodeKey(name)
    const kernelArgs := KernelArgsKey(name)
    ghost const nodeLabels := NodeLabels(cluster, setId)
    ghost const patchLabels := PatchLabels(cluster, setId, name)

    ghost predicate Valid() {
      && (forall k :: k in Elems(patches) ==> k.PatchKey?)
      && |docs| == |patches| && forall i :: 0 <= i < |patches| ==> patches[i].PatchKey? && patches[i] in Elems(patches)
    }
  }

  ghost predicate Describes(g: Goal, name: Id, spec: MachineSpec) {
    && g.Valid() && |g.patches| == |spec.patches|
    && g.name == name && g.cluster == spec.cluster && g.setId == spec.setId && g.args == spec.kernelArgs
    && (forall i :: 0 <= i < |g.patches| ==> g.docs[i] == spec.patches[i].inline)
    && (forall i :: 0 <= i < |g.patches| ==> g.patches[i] == PatchKey(spec.cluster + "-" + name + "-" + spec.patches[i].name))
  }

  ghost function GoalOf(name: Id, spec: MachineSpec): (g: Goal)
    ensures Describes(g, name, spec)
  {
    var keys := seq(|spec.patches|, i requires 0 <= i < |spec.patches| =>
      PatchKey(PatchId(spec.cluster, name, spec.patches[i].name)));
    InElems(keys);
    Goal(name, spec.cluster, spec.setId, keys,
      seq(|spec.patches|, i requires 0 <= i < |spec.patches| => spec.patches[i].inline),
      spec.kernelArgs)
  }

  lemma DistinctNamesGiveDistinctKeys(name: Id, spec: MachineSpec)
    requires DistinctNames(spec.patches)
    ensures Distinct(GoalOf(name, spec).patches)
  {
    var g, ps := GoalOf(name, spec), spec.patches;
    DistinctMeans(g.patches);
    forall i, j | 0 <= i < j < |ps| ensures g.patches[i] != g.patches[j] {
      if PatchId(spec.cluster, name, ps[i].name) == PatchId(spec.cluster, name, ps[j].name) {
        PatchIdInjective(spec.cluster, name, ps[i].name, ps[j].name);
      }
    }
  }

  ghost predicate Typed(s: Store) {
    forall k :: k in s && k.PatchKey? ==> s[k].body.Patch?
  }

  /** The store agrees with the goal. */
  ghost predicate Converged(s: Store, g: Goal)
    requires g.Valid() && Typed(s)
  {
    && g.node in s && s[g.node].labels.setId == Some(g.setId)
    && (forall i :: 0 <= i < |g.patches| ==> g.patches[i] in s && JsonEqual(s[g.patches[i]].body.doc, g.docs[i]))
    && PatchKeys(s, g.cluster, g.name) <= Elems(g.patches)
    && (if g.args == [] then g.kernelArgs !in s
        else g.kernelArgs in s && s[g.kernelArgs].body == Strings(g.args))
  }

  /** Patches labelled for this machine that its spec does not name. */
  ghost function Stray(s: Store, g: Goal): set<Key> {
    PatchKeys(s, g.cluster, g.name) - Elems(g.patches)
  }

  /** What any pass does to the store, finished or not: keys outside this machine's are left
      alone, what is created belongs to this machine, and labels and history never change. */
  ghost predicate PassEffect(s: Store, s': Store, g: Goal) {
    var mine := MachineKeys(s, g.cluster, g.name) + Elems(g.patches);
    && (forall k :: k in s && k !in mine ==> k in s' && s'[k] == s[k])
    && (forall k :: k in s && k in s' ==> s'[k].labels == s[k].labels && s'[k].origin == s[k].origin)
    && (forall k :: k in s' && k !in s ==> k in mine && s'[k].origin == MachinePass)
    && (forall k :: k in s' && k !in s && k.PatchKey? ==> s'[k].labels == g.patchLabels)
    && (forall k :: k in s' && k !in s && k.NodeKey? ==> s'[k].labels == g.nodeLabels)
  }

  /** Each of the first `n` patches is as if it were the only one. */
  ghost predicate EachEnsured(s: Store, s': Store, g: Goal, n: nat)
    requires g.Valid() && n <= |g.patches| && Typed(s)
  {
    forall i :: 0 <= i < n ==>
      && g.patches[i] in s'
      && s'[g.patches[i]] == PatchEnsured(s, g.patches[i], g.patchLabels, g.docs[i])[g.patches[i]]
  }

  ghost predicate CanEnsure(s: Store, g: Goal, n: nat)
    requires g.Valid() && n <= |g.patches| && Typed(s)
  {
    forall i :: 0 <= i < n ==> CanEnsurePatch(s, g.patches[i], g.docs[i])
  }

  /** The store after a finished pass, key by key. */
  ghost predicate ConvergesTo(s: Store, s': Store, g: Goal)
    requires g.Valid() && Typed(s)
  {
    && (forall k :: k in s' <==>
          if k == g.kernelArgs then g.args != []
          else k == g.node || k in Elems(g.patches) || (k in s && k !in Stray(s, g)))
    && s'[g.node] == NodeEnsured(s, g.node, g.nodeLabels)[g.node]
    && EachEnsured(s, s', g, |g.patches|)
    && (g.args != [] ==>
          s'[g.kernelArgs] == StringsEnsured(s, g.kernelArgs, Labels(None, None, None, None), g.args, MachinePass)[g.kernelArgs])
    && (forall k :: k in s && k in s' && k !in Elems(g.patches) && k !in {g.node, g.kernelArgs} ==> s'[k] == s[k])
  }

  /** What lets a pass over a reliable connection finish. */
  ghost predicate CanConverge(s: Store, g: Goal)
    requires g.Valid() && Typed(s)
  {
    && (g.node in s ==> s[g.node].labels.setId == Some(g.setId))
    && CanEnsure(s, g, |g.patches|)
    && Clear(s, Stray(s, g))
    && (if g.args == [] then Clear(s, {g.kernelArgs})
        else g.kernelArgs in s ==> s[g.kernelArgs].body == Strings(g.args) || s[g.kernelArgs].phase == Running)
  }

  /** Why a pass over a reliable connection gives up, if it does: each stage is reached only when the ones
      before it are finished. */
  ghost function Obstacle(s: Store, g: Goal): (o: Option<Failure>)
    requires g.Valid() && Typed(s)
  {
    if g.node in s && s[g.node].labels.setId != Some(g.setId) then Some(BindFailed(BoundElsewhere))
    else if !CanEnsure(s, g, |g.patches|) then Some(ConfigPatchFailed(PhaseConflict))
    else if !Clear(s, Stray(s, g)) then Some(ConfigPatchFailed(InProgress))
    else if CanConverge(s, g) then None
    else Some(KernelArgsFailed(if g.args == [] then InProgress else PhaseConflict))
  }

  // ── Stages of a pass ─────────────────────────────────────────────────────────

  /** `s'` is `s` with the patches `done` ensured. */
  ghost predicate EnsuredOn(s: Store, s': Store, done: set<Key>, labels: Labels) {
    && Typed(s) && Typed(s')
    && s'.Keys == s.Keys + done
    && (forall k :: k in s && k !in done ==> s'[k] == s[k])
    && (forall k :: k in s ==> s'[k].labels == s[k].labels && s'[k].origin == s[k].origin)
    && (forall k :: k in s' && k !in s ==> s'[k].labels == labels && s'[k].origin == MachinePass)
  }

  lemma EnsureOne(s: Store, s1: Store, s2: Store, done: set<Key>, k: Key, labels: Labels, doc: Doc)
    requires k.PatchKey? && EnsuredOn(s, s1, done, labels) && s2 == PatchEnsured(s1, k, labels, doc)
    ensures EnsuredOn(s, s2, done + {k}, labels)
  {
  }

  /** The stage of ensuring the patches, after the first `n` of them. */
  ghost predicate Ensured(s: Store, s': Store, g: Goal, n: nat)
    requires g.Valid() && n <= |g.patches|
  {
    && EnsuredOn(s, s', Elems(g.patches[..n]), g.patchLabels)
    && (Distinct(g.patches) ==> CanEnsure(s, g, n) && EachEnsured(s, s', g, n))
  }

  lemma EnsureNext(s: Store, s1: Store, s2: Store, g: Goal, n: nat)
    requires g.Valid() && n < |g.patches| && Ensured(s, s1, g, n)
    requires s2 == PatchEnsured(s1, g.patches[n], g.patchLabels, g.docs[n])
    requires CanEnsurePatch(s1, g.patches[n], g.docs[n])
    ensures Ensured(s, s2, g, n + 1)
  {
    var ks := g.patches;
    ElemsStep(ks, n);
    EnsureOne(s, s1, s2, Elems(ks[..n]), ks[n], g.patchLabels, g.docs[n]);
    if Distinct(ks) {
      forall i | 0 <= i < n ensures ks[i] != ks[n] && ks[i] in s2 && s2[ks[i]] == s1[ks[i]] {
        DistinctMeans(ks);
      }
      assert ks[n] in s1 <==> ks[n] in s;
    }
  }

  /** The store after the binding and the patches, key by key: the kernel arguments are still to come. */
  ghost predicate Patched(s: Store, s': Store, g: Goal)
    requires g.Valid() && Typed(s)
  {
    && (forall k :: k in s' <==> if k == g.kernelArgs then k in s
          else k == g.node || k in Elems(g.patches) || (k in s && k !in Stray(s, g)))
    && s'[g.node] == NodeEnsured(s, g.node, g.nodeLabels)[g.node]
    && EachEnsured(s, s', g, |g.patches|)
    && (forall k :: k in s && k in s' && k !in Elems(g.patches) && k != g.node ==> s'[k] == s[k])
  }

  lemma BothStages(s: Store, s1: Store, mid: Store, s': Store, g: Goal)
    requires Typed(s) && g.Valid() && s1 == NodeEnsured(s, g.node, g.nodeLabels) && Typed(s1)
    requires Ensured(s1, mid, g, |g.patches|) && Distinct(g.patches) && TearEffect(mid, s', Stray(s1, g), true)
    ensures Patched(s, s', g)
  {
    assert g.patches[..|g.patches|] == g.patches;
    SecondStage(s1, mid, s', g);
    FirstStage(s, s1, s', g);
  }

  lemma SecondStage(s1: Store, mid: Store, s': Store, g: Goal)
    requires Typed(s1) && g.Valid() && EnsuredOn(s1, mid, Elems(g.patches), g.patchLabels)
    requires EachEnsured(s1, mid, g, |g.patches|) && s' == mid - Stray(s1, g)
    ensures forall k :: k in s' <==> k in Elems(g.patches) || (k in s1 && k !in Stray(s1, g))
    ensures EachEnsured(s1, s', g, |g.patches|)
    ensures forall k :: k in s1 && k in s' && k !in Elems(g.patches) ==> s'[k] == s1[k]
  {
  }

  lemma FirstStage(s: Store, s1: Store, s': Store, g: Goal)
    requires Typed(s) && g.Valid() && s1 == NodeEnsured(s, g.node, g.nodeLabels) && Typed(s1)
    requires forall k :: k in s' <==> k in Elems(g.patches) || (k in s1 && k !in Stray(s1, g))
    requires EachEnsured(s1, s', g, |g.patches|)
    requires forall k :: k in s1 && k in s' && k !in Elems(g.patches) ==> s'[k] == s1[k]
    ensures Patched(s, s', g)
  {
  }

  lemma LastStage(s: Store, s3: Store, s4: Store, g: Goal)
    requires Typed(s) && g.Valid() && Patched(s, s3, g)
    requires forall k :: k != g.kernelArgs ==> (k in s4 <==> k in s3) && (k in s3 ==> s4[k] == s3[k])
    requires g.kernelArgs in s4 <==> g.args != []
    requires g.args != [] ==>
      s4[g.kernelArgs] == StringsEnsured(s3, g.kernelArgs, Labels(None, None, None, None), g.args, MachinePass)[g.kernelArgs]
    ensures ConvergesTo(s, s4, g)
  {
  }

  /** What the later stages need of the store they start from, they need of the first one. */
  lemma StagesNeed(s: Store, s1: Store, g: Goal)
    requires Typed(s) && g.Valid() && s1 == NodeEnsured(s, g.node, g.nodeLabels) && Typed(s1)
    ensures CanEnsure(s1, g, |g.patches|) <==> CanEnsure(s, g, |g.patches|)
    ensures Stray(s1, g) == Stray(s, g) && (Clear(s1, Stray(s1, g)) <==> Clear(s, Stray(s, g)))
  {
  }

  lemma BindEffect(s: Store, g: Goal)
    requires Typed(s)
    ensures
      var s1 := NodeEnsured(s, g.node, g.nodeLabels);
      Typed(s1) && PassEffect(s, s1, g) && PatchKeys(s1, g.cluster, g.name) == PatchKeys(s, g.cluster, g.name)
  {
  }

  lemma PatchesEffect(s: Store, mid: Store, s': Store, g: Goal, done: set<Key>, pruned: bool)
    requires g.Valid() && done <= Elems(g.patches)
    requires EnsuredOn(s, mid, done, g.patchLabels) && TearEffect(mid, s', Stray(s, g), pruned)
    ensures PassEffect(s, s', g) && Typed(s')
  {
  }

  lemma ArgsEffect(s: Store, s': Store, g: Goal, r: Resource, kept: bool)
    requires Typed(s) && s' == if kept then s[g.kernelArgs := r] else s - {g.kernelArgs}
    requires kept ==> if g.kernelArgs in s
      then r.labels == s[g.kernelArgs].labels && r.origin == s[g.kernelArgs].origin
      else r.origin == MachinePass
    ensures PassEffect(s, s', g) && Typed(s')
  {
  }

  lemma EffectsCompose(s: Store, t: Store, u: Store, g: Goal)
    requires PassEffect(s, t, g) && PassEffect(t, u, g)
    requires forall k :: k in s && k !in t ==> k !in u
    ensures PassEffect(s, u, g)
  {
  }

  /** Only the status of this object changed, if anything. */
  ghost predicate StatusOnly(was: Objects, now: Objects, name: Id) {
    now == was || (name in was && name in now &&
      now == was[name := was[name].(status := now[name].status, version := was[name].version + 1)])
  }

  /** What one pass over `name` may do to the objects and to the store, whatever fails in it. */
  ghost predicate PassStep(was: Objects, s: Store, now: Objects, s': Store, name: Id) {
    if name !in was then now == was && s' == s
    else
      var m := was[name];
      if m.deleting && m.finalizer then
        && TearEffect(s, s', MachineKeys(s, m.spec.cluster, name), now != was)
        && (now != was ==> now == was - {name})
      else if m.deleting then now == was && s' == s
      else if !m.finalizer then
        s' == s && (now == was || now == was[name := m.(finalizer := true, version := m.version + 1)])
      else
        && StatusOnly(was, now, name)
        && (m.spec.role.UnknownRole? ==> s' == s)
        && PassEffect(s, s', GoalOf(name, m.spec))
  }

  /** A pass calls the machine at most once: at the address its spec names, and only when a reboot is owed. */
  ghost predicate Calls(m: Machine, calls: seq<Reboot>, calls': seq<Reboot>) {
    calls' != calls ==>
      && |calls'| == |calls| + 1 && calls'[..|calls|] == calls
      && calls'[|calls|].cluster == m.spec.cluster && calls'[|calls|].address == m.spec.managementAddress
      && m.spec.rebootRequestedAt.Some?
      && (m.status.lastReboot.Some? ==> m.spec.rebootRequestedAt.value > m.status.lastReboot.value)
  }

  /** The status after a call: its time is stamped whether or not it was refused. */
  ghost function Answered(call: Reboot, stamp: nat): MachineStatus {
    MachineStatus(if call.accepted then Ready else Rebooting, Some(stamp / 1_000_000_000))
  }

  /** The phase a pass ends in: the first obstacle, a reboot that was refused, or ready. */
  ghost function Outcome(m: Machine, obstacle: Option<Failure>, called: seq<Reboot>): MachinePhase {
    if m.spec.role.UnknownRole? then Failed(InvalidRole)
    else if obstacle.Some? then Failed(obstacle.value)
    else if exists call :: call in called && !call.accepted then Rebooting
    else Ready
  }

  class MachineReconciler {
    const kube: Api
    const omni: OmniClient

    constructor (kube: Api, omni: OmniClient)
      ensures this.kube == kube && this.omni == omni
    {
      this.kube, this.omni := kube, omni;
    }

    method EnsurePatches(name: Id, spec: MachineSpec, ghost g: Goal) returns (r: Result<set<Id>>, ghost n: nat)
      requires Typed(omni.state.store) && Describes(g, name, spec)
      modifies omni.state`store
      ensures
        var s, s' := old(omni.state.store), omni.state.store;
        && n <= |g.patches| && Ensured(s, s', g, n)
        && (r.Ok? ==> n == |g.patches| && forall k: Key :: k in Elems(g.patches) <==> k.PatchKey? && k.patch in r.value)
        && (Distinct(g.patches) && omni.state.reliable && CanEnsure(s, g, |g.patches|) ==> r.Ok?)
        && (omni.state.reliable && r.Err? ==> r.error == PhaseConflict)
    {
      ghost var s0, ks := omni.state.store, g.patches;
      var keep: set<Id> := {};
      n := 0;
      for i := 0 to |spec.patches|
        invariant n == i && Ensured(s0, omni.state.store, g, i)
        invariant forall k: Key :: k in Elems(ks[..i]) <==> k.PatchKey? && k.patch in keep
      {
        var p := spec.patches[i];
        var patch := PatchId(spec.cluster, name, p.name);
        ElemsStep(ks, i);
        keep := keep + {patch};
        ghost var s1 := omni.state.store;
        var one := omni.EnsureConfigPatch(patch, spec.cluster, spec.setId, name, p.inline);
        if one.Err? { return Err(one.error), n; }
        EnsureNext(s0, s1, omni.state.store, g, i);
        n := n + 1;
      }
      assert ks[..|ks|] == ks;
      return Ok(keep), n;
    }

    /** Ensures every wanted patch, then prunes the others. */
    method ApplyConfigPatches(name: Id, spec: MachineSpec, ghost g: Goal)
      returns (r: Result<()>, ghost mid: Store, ghost n: nat)
      requires Typed(omni.state.store) && Describes(g, name, spec)
      modifies omni.state`store
      ensures
        var s, s' := old(omni.state.store), omni.state.store;
        && n <= |g.patches| && Ensured(s, mid, g, n)
        && TearEffect(mid, s', Stray(s, g), r.Ok?)
        && (r.Ok? ==> n == |g.patches|)
        && (Distinct(g.patches) && (r.Ok? || omni.state.reliable) ==>
              (r.Ok? <==> CanEnsure(s, g, |g.patches|) && Clear(s, Stray(s, g))))
        && (Distinct(g.patches) && omni.state.reliable && r.Err? ==>
              r.error == if CanEnsure(s, g, |g.patches|) then InProgress else PhaseConflict)
    {
      ghost var s0 := omni.state.store;
      var keep;
      keep, n := EnsurePatches(name, spec, g);
      mid := omni.state.store;
      if keep.Err? { return Err(keep.error), mid, n; }
      assert g.patches[..n] == g.patches;
      assert Unwanted(mid, spec.cluster, name, keep.value) == Stray(s0, g);
      r := omni.PruneConfigPatches(spec.cluster, name, keep.value);
    }

    /** Writes the kernel arguments, or removes them when there are none. */
    method ApplyKernelArgs(name: Id, spec: MachineSpec, ghost g: Goal) returns (r: Result<()>)
      requires Typed(omni.state.store) && g.name == name && g.args == spec.kernelArgs
      modifies omni.state`store
      ensures
        var s, s', k := old(omni.state.store), omni.state.store, g.kernelArgs;
        && PassEffect(s, s', g) && Typed(s') && (k in s' ==> k in s || r.Ok?)
        && (forall o :: o != k ==> (o in s' <==> o in s) && (o in s ==> s'[o] == s[o]))
        && (r.Ok? ==> (k in s' <==> g.args != []))
        && (r.Ok? && g.args != [] ==> s'[k] == StringsEnsured(s, k, Labels(None, None, None, None), g.args, MachinePass)[k])
        && (r.Ok? || omni.state.reliable ==>
              (r.Ok? <==>
                 if g.args == [] then Clear(s, {k})
                 else k in s ==> s[k].body == Strings(g.args) || s[k].phase == Running))
        && (omni.state.reliable && r.Err? ==> r.error == if g.args == [] then InProgress else PhaseConflict)
    {
      ghost var s, k := omni.state.store, g.kernelArgs;
      if spec.kernelArgs != [] {
        r := omni.EnsureStrings(KernelArgsKey(name), Labels(None, None, None, None), spec.kernelArgs, MachinePass);
        if r.Ok? { ArgsEffect(s, omni.state.store, g, omni.state.store[k], true); }
      } else {
        r := omni.state.TeardownAndDestroy(KernelArgsKey(name));
        if k in omni.state.store {
          assert omni.state.store == s[k := omni.state.store[k]];
          ArgsEffect(s, omni.state.store, g, omni.state.store[k], true);
        } else {
          assert omni.state.store == s - {k};
          ArgsEffect(s, omni.state.store, g, Fresh(Labels(None, None, None, None), Empty, Elsewhere), false);
        }
      }
    }

    /** The value says what failed, if anything did. */
    method BindAndPatch(name: Id, spec: MachineSpec, ghost g: Goal) returns (failure: Option<Failure>)
      requires Typed(omni.state.store) && Describes(g, name, spec)
      modifies omni.state`store
      ensures
        var s, s' := old(omni.state.store), omni.state.store;
        && Typed(s') && PassEffect(s, s', g) && (forall k :: k in s && k !in s' ==> k in Stray(s, g))
        && (Distinct(g.patches) && failure.None? ==> Patched(s, s', g))
        && (Distinct(g.patches) && (failure.None? || omni.state.reliable) ==>
              (failure.None? <==> (g.node in s ==> s[g.node].labels.setId == Some(g.setId))
                                  && CanEnsure(s, g, |g.patches|) && Clear(s, Stray(s, g))))
        && (Distinct(g.patches) && omni.state.reliable && failure.Some? ==> failure == Obstacle(s, g))
        && (failure.Some? ==> failure.value.BindFailed? || failure.value.ConfigPatchFailed?)
    {
      ghost var s0, n := omni.state.store, 0;
      BindEffect(s0, g);
      var r := omni.EnsureMachineSetNode(spec.cluster, spec.setId, name);
      ghost var s1, mid := omni.state.store, omni.state.store;
      if r.Err? { return Some(BindFailed(r.error)); }
      StagesNeed(s0, s1, g);
      r, mid, n := ApplyConfigPatches(name, spec, g);
      PrefixWithin(g.patches, n);
      PatchesEffect(s1, mid, omni.state.store, g, Elems(g.patches[..n]), r.Ok?);
      EffectsCompose(s0, s1, omni.state.store, g);
      if r.Err? { return Some(ConfigPatchFailed(r.error)); }
      if Distinct(g.patches) { BothStages(s0, s1, mid, omni.state.store, g); }
      return None;
    }

    /** Binds the machine, applies its patches and its kernel arguments, in this order. */
    method Converge(name: Id, spec: MachineSpec, ghost g: Goal) returns (failure: Option<Failure>)
      requires Typed(omni.state.store) && Describes(g, name, spec)
      modifies omni.state`store
      ensures Typed(omni.state.store)
      ensures PassEffect(old(omni.state.store), omni.state.store, g)
      ensures Distinct(g.patches) && failure.None? ==> CanConverge(old(omni.state.store), g)
      ensures Distinct(g.patches) && omni.state.reliable ==> failure == Obstacle(old(omni.state.store), g)
      ensures Distinct(g.patches) && failure.None? ==> ConvergesTo(old(omni.state.store), omni.state.store, g)
      ensures failure.Some? ==> !failure.value.InvalidRole?
    {
      ghost var s0 := omni.state.store;
      failure := BindAndPatch(name, spec, g);
      if failure.Some? { return; }
      ghost var s3 := omni.state.store;
      var r := ApplyKernelArgs(name, spec, g);
      EffectsCompose(s0, s3, omni.state.store, g);
      if r.Err? { return Some(KernelArgsFailed(r.error)); }
      if Distinct(g.patches) { LastStage(s0, s3, omni.state.store, g); }
    }

    method WriteStatus(name: Id, was: Machine, status: MachineStatus) returns (r: Result<()>)
      modifies kube`objects
      ensures StatusOnly(old(kube.objects), kube.objects, name)
      ensures r.Ok? && status != was.status ==> name in kube.objects && kube.objects[name].status == status
      ensures status == was.status ==> kube.objects == old(kube.objects) && r.Ok?
      ensures kube.reliable && name in old(kube.objects) && old(kube.objects)[name].version == was.version ==> r.Ok?
      ensures kube.objects != old(kube.objects) ==> name in kube.objects && kube.objects[name].status == status
    {
      if status == was.status { return Ok(()); }
      r := kube.UpdateStatus(name, was.version, status);
    }

    /** One pass over one machine. `stamp` is the clock after the reboot call returns. */
    method Reconcile(name: Id, stamp: nat) returns (r: Result<()>)
      requires Typed(omni.state.store)
      modifies kube`objects, omni.state`store, omni`reboots
      ensures Typed(omni.state.store)
      ensures
        PassStep(old(kube.objects), old(omni.state.store), kube.objects, omni.state.store, name)
      ensures
        var was, now := old(kube.objects), kube.objects;
        var s, s' := old(omni.state.store), omni.state.store;
        var calls, calls' := old(omni.reboots), omni.reboots;
        if name !in was || was[name].deleting || !was[name].finalizer then
          && calls' == calls
          && (kube.reliable && name in was && !was[name].deleting ==> now != was && r.Ok?)
          && (name !in was || (was[name].deleting && !was[name].finalizer) ==> r.Ok?)
          && (kube.reliable && omni.state.reliable && name in was && was[name].deleting && was[name].finalizer ==>
                var (t, finished) := Released(s, was[name].spec.cluster, name);
                s' == t && (now != was <==> finished) && (r.Ok? <==> finished))
        else
          var m, g := was[name], GoalOf(name, was[name].spec);
          && Calls(m, calls, calls')
          && (now[name].status.lastReboot != m.status.lastReboot ==> calls' != calls)
          && (calls' != calls && (r.Ok? || now != was) ==> now[name].status == Answered(calls'[|calls|], stamp))
          && (now != was && now[name].status.phase == Ready && Distinct(g.patches) ==> ConvergesTo(s, s', g))
          && (calls' != calls && Distinct(g.patches) ==> ConvergesTo(s, s', g))
          && (omni.state.reliable && Distinct(g.patches) && !m.spec.role.UnknownRole? ==>
                (calls' != calls <==> CanConverge(s, g) && RebootOwed(m.spec, m.status)))
          && (omni.state.reliable && Distinct(g.patches) && !m.spec.role.UnknownRole? && CanConverge(s, g) ==>
                ConvergesTo(s, s', g))
          && (kube.reliable ==> r.Ok? && (m.spec.role.UnknownRole? <==> now[name].status.phase == Failed(InvalidRole)))
          && (omni.state.reliable && kube.reliable && Distinct(g.patches) ==>
                now[name].status.phase == Outcome(m, Obstacle(s, g), calls'[|calls|..]))
    {
      if name !in kube.objects { return Ok(()); }
      var m := kube.objects[name];
      if m.deleting {
        if m.finalizer {
          r := omni.ReleaseMachine(m.spec.cluster, name);
          if r.Err? { return; }
          r := kube.Update(name, m.(finalizer := false));
          return;
        }
        return Ok(());
      }
      if !m.finalizer {
        r := kube.Update(name, m.(finalizer := true));
        return;
      }
      if m.spec.role.UnknownRole? {
        var lost := WriteStatus(name, m, m.status.(phase := Failed(InvalidRole)));
        return Ok(());
      }
      ghost var g := GoalOf(name, m.spec);
      var failure := Converge(name, m.spec, g);
      if failure.Some? {
        var lost := WriteStatus(name, m, m.status.(phase := Failed(failure.value)));
        return Ok(());
      }
      var status := m.status.(phase := Ready);
      if RebootOwed(m.spec, m.status) {
        var called := omni.RebootMachine(m.spec.cluster, m.spec.managementAddress);
        status := MachineStatus(if called.Err? then Rebooting else Ready, Some(Seconds(stamp)));
      }
      r := WriteStatus(name, m, status);
    }
  }
}
