/** What the passes of the machine controller add up to: convergence, the bound on teardown, and
    that no run leaves per-machine state behind. */
module MachineLifecycle {
  import opened Ids
  import opened Cosi
  import opened OmniApi
  import opened Kube
  import opened MachineControl

  // ── Convergence ──────────────────────────────────────────────────────────────

  /** A finished pass leaves the store in agreement with the spec. The machine's patches are then
      exactly the wanted ones, unless a wanted name was already taken by a patch of another machine. */
  lemma FinishedPassConverges(s: Store, s': Store, g: Goal)
    requires g.Valid() && Typed(s) && Typed(s') && CanConverge(s, g) && ConvergesTo(s, s', g)
    ensures Converged(s', g)
    ensures PatchKeys(s', g.cluster, g.name) == Elems(g.patches) <==>
      forall k :: k in Elems(g.patches) && k in s ==> k in PatchKeys(s, g.cluster, g.name)
  {
    forall i | 0 <= i < |g.patches| ensures JsonEqual(s'[g.patches[i]].body.doc, g.docs[i]) {
      assert CanEnsurePatch(s, g.patches[i], g.docs[i]);
    }
    PatchesAfter(s, s', g);
  }

  lemma PatchesAfter(s: Store, s': Store, g: Goal)
    requires g.Valid() && Typed(s) && ConvergesTo(s, s', g)
    ensures PatchKeys(s', g.cluster, g.name) <= Elems(g.patches)
    ensures PatchKeys(s', g.cluster, g.name) == Elems(g.patches) <==>
      forall k :: k in Elems(g.patches) && k in s ==> k in PatchKeys(s, g.cluster, g.name)
  {
    InElems(g.patches);
    forall k | k in Elems(g.patches)
      ensures k in s' && (k in PatchKeys(s', g.cluster, g.name) <==> k in s ==> k in PatchKeys(s, g.cluster, g.name))
    {
      var i :| 0 <= i < |g.patches| && g.patches[i] == k;
    }
  }

  /** Omni may hand a stored document back in another form: with the same value, or in one that does
      not parse as JSON. */
  ghost predicate RenderingOf(shown: Doc, stored: Doc) {
    shown.Malformed? || (stored.Json? && shown.value == stored.value)
  }

  /** The store as Omni shows it when it has rendered some of the documents anew. */
  ghost predicate Rendered(s: Store, t: Store)
    requires Typed(s)
  {
    && t.Keys == s.Keys
    && (forall k :: k in s && !k.PatchKey? ==> t[k] == s[k])
    && (forall k :: k in s && k.PatchKey? ==>
          && t[k].body.Patch? && RenderingOf(t[k].body.doc, s[k].body.doc)
          && t[k] == s[k].(body := t[k].body))
  }

  /** A pass over what a finished pass left, as Omni shows it, can finish exactly when every wanted
      patch that does not parse may still be rewritten. */
  lemma NextPassCanConvergeIff(s: Store, t: Store, g: Goal)
    requires g.Valid() && Typed(s) && Typed(t) && Converged(s, g) && Rendered(s, t)
    ensures CanConverge(t, g) <==>
      forall i :: 0 <= i < |g.patches| ==> t[g.patches[i]].body.doc.Json? || t[g.patches[i]].phase == Running
  {
    assert Stray(t, g) == {} by { assert PatchKeys(t, g.cluster, g.name) == PatchKeys(s, g.cluster, g.name); }
    forall i | 0 <= i < |g.patches|
      ensures CanEnsurePatch(t, g.patches[i], g.docs[i]) <==>
        t[g.patches[i]].body.doc.Json? || t[g.patches[i]].phase == Running
    {
      assert JsonEqual(s[g.patches[i]].body.doc, g.docs[i]);
    }
  }

  lemma NextPassKeepsKeys(s: Store, t: Store, t': Store, g: Goal)
    requires g.Valid() && Typed(s) && Typed(t) && Converged(s, g) && Rendered(s, t) && ConvergesTo(t, t', g)
    ensures t'.Keys == t.Keys && forall k :: k in Elems(g.patches) ==> k in s
    ensures forall k :: k in t && k !in Elems(g.patches) ==> t'[k] == t[k]
  {
    assert Stray(t, g) == {} by { assert PatchKeys(t, g.cluster, g.name) == PatchKeys(s, g.cluster, g.name); }
    InElems(g.patches);
    forall k | k in Elems(g.patches) ensures k in s {
      var i :| 0 <= i < |g.patches| && g.patches[i] == k;
    }
  }

  /** It writes nothing to Omni exactly when every wanted patch is shown in a form that parses; one
      that is not, such as YAML, is never equal to what is wanted and is rewritten by every pass. */
  lemma NextPassIsQuietIff(s: Store, t: Store, t': Store, g: Goal)
    requires g.Valid() && Typed(s) && Typed(t) && Converged(s, g) && Rendered(s, t) && ConvergesTo(t, t', g)
    ensures t' == t <==> forall i :: 0 <= i < |g.patches| ==> t[g.patches[i]].body.doc.Json?
  {
    NextPassKeepsKeys(s, t, t', g);
    if forall i :: 0 <= i < |g.patches| ==> t[g.patches[i]].body.doc.Json? {
      InElems(g.patches);
      forall k | k in Elems(g.patches) ensures t'[k] == t[k] {
        var i :| 0 <= i < |g.patches| && g.patches[i] == k;
        assert JsonEqual(s[k].body.doc, g.docs[i]);
      }
    } else {
      var i :| 0 <= i < |g.patches| && !t[g.patches[i]].body.doc.Json?;
      assert t'[g.patches[i]].rev == t[g.patches[i]].rev + 1;
    }
  }

  /** Where Omni keeps documents as they were written, the second pass is possible and quiet. */
  lemma SecondPassIsQuiet(s: Store, s': Store, g: Goal)
    requires g.Valid() && Typed(s) && Converged(s, g)
    ensures CanConverge(s, g) && (ConvergesTo(s, s', g) ==> s' == s)
  {
    forall i | 0 <= i < |g.patches| ensures s[g.patches[i]].body.doc.Json? {
      assert JsonEqual(s[g.patches[i]].body.doc, g.docs[i]);
    }
    NextPassCanConvergeIff(s, s, g);
    if ConvergesTo(s, s', g) { NextPassIsQuietIff(s, s, s', g); }
  }

  /** Patches that share a name agree in a converged store, so with different documents no pass
      over the machine ever reaches one. */
  lemma SharedNamesAgree(s: Store, g: Goal, i: nat, j: nat)
    requires g.Valid() && Typed(s) && Converged(s, g) && i < j < |g.patches| && g.patches[i] == g.patches[j]
    ensures g.docs[j].value == g.docs[i].value
  {
  }

  // ── Teardown ─────────────────────────────────────────────────────────────────

  ghost function StageKeys(s: Store, cluster: Id, machine: Id, stage: nat): set<Key> {
    if stage == 0 then {NodeKey(machine)}
    else if stage == 1 then PatchKeys(s, cluster, machine)
    else {KernelArgsKey(machine)}
  }

  /** The first `n` stages of a release would pass. */
  ghost predicate PassesUpTo(s: Store, cluster: Id, machine: Id, n: nat) {
    forall i :: 0 <= i < n && i < 3 ==> Clear(s, StageKeys(s, cluster, machine, i))
  }

  /** The store after a failed attempt, once Omni has let go of what was marked. */
  ghost function Retried(s: Store, cluster: Id, machine: Id): Store {
    Settle(Released(s, cluster, machine).0)
  }

  /** The attempt finishes exactly when no stage is held. */
  lemma ReleaseFinishesIff(s: Store, cluster: Id, machine: Id)
    ensures Released(s, cluster, machine).1 <==> PassesUpTo(s, cluster, machine, 3)
    ensures Released(s, cluster, machine).1 ==>
      Released(s, cluster, machine).0 == s - MachineKeys(s, cluster, machine)
  {
    Stages(s, cluster, machine);
  }

  lemma Stages(s: Store, cluster: Id, machine: Id)
    ensures StageKeys(s, cluster, machine, 0) == {NodeKey(machine)}
    ensures StageKeys(s, cluster, machine, 1) == PatchKeys(s, cluster, machine)
    ensures StageKeys(s, cluster, machine, 2) == {KernelArgsKey(machine)}
  {
  }

  /** A release goes by the machine alone: it removes the node whichever set and cluster it is bound
      to. So two objects for one machine, in different clusters, would undo each other's binding. */
  lemma ReleaseIgnoresTheSet(s: Store, cluster: Id, machine: Id)
    requires NodeKey(machine) in s && Clear(s, {NodeKey(machine)})
    ensures NodeKey(machine) !in Released(s, cluster, machine).0
  {
  }

  /** A failed attempt gets one stage further next time, however many patches there are: all of
      them are marked even after one of them is not finished. */
  lemma RetryGetsFurther(s: Store, cluster: Id, machine: Id, n: nat)
    requires n < 3 && PassesUpTo(s, cluster, machine, n)
    ensures PassesUpTo(Retried(s, cluster, machine), cluster, machine, n + 1)
  {
    var t := Retried(s, cluster, machine);
    assert PatchKeys(t, cluster, machine) <= PatchKeys(s, cluster, machine);
    Stages(s, cluster, machine);
    forall i | 0 <= i < n + 1 ensures Clear(t, StageKeys(t, cluster, machine, i)) {
      assert i < n ==> Clear(s, StageKeys(s, cluster, machine, i));
    }
  }

  ghost function Attempts(s: Store, cluster: Id, machine: Id, n: nat): Store {
    if n == 0 then s else Retried(Attempts(s, cluster, machine, n - 1), cluster, machine)
  }

  /** If Omni lets go between the attempts, the fourth one finishes. */
  lemma FourAttemptsSuffice(s: Store, cluster: Id, machine: Id)
    ensures Released(Attempts(s, cluster, machine, 3), cluster, machine).1
  {
    RetryGetsFurther(s, cluster, machine, 0);
    RetryGetsFurther(Attempts(s, cluster, machine, 1), cluster, machine, 1);
    RetryGetsFurther(Attempts(s, cluster, machine, 2), cluster, machine, 2);
    ReleaseFinishesIff(Attempts(s, cluster, machine, 3), cluster, machine);
  }

  /** Some resource of `ks` is held and has not been marked yet. */
  ghost predicate Held(s: Store, ks: set<Key>) {
    exists k :: k in ks && k in s && s[k].phase == Running && s[k].fins != {}
  }

  /** So it is in every stage from `n` on. */
  ghost predicate HeldFrom(s: Store, cluster: Id, machine: Id, n: nat) {
    forall i :: n <= i < 3 ==> Held(s, StageKeys(s, cluster, machine, i))
  }

  /** Such a stage costs an attempt: the stages behind it are not even reached. */
  lemma HeldStageCosts(s: Store, cluster: Id, machine: Id, n: nat)
    requires n < 3 && PassesUpTo(s, cluster, machine, n) && HeldFrom(s, cluster, machine, n)
    ensures !Released(s, cluster, machine).1 && HeldFrom(Retried(s, cluster, machine), cluster, machine, n + 1)
  {
    Stages(s, cluster, machine);
    ReleaseFinishesIff(s, cluster, machine);
    assert Held(s, StageKeys(s, cluster, machine, n)) && !Clear(s, StageKeys(s, cluster, machine, n));
    var t := Retried(s, cluster, machine);
    forall i | n + 1 <= i < 3 ensures Held(t, StageKeys(t, cluster, machine, i)) {
      assert Held(s, StageKeys(s, cluster, machine, i));
      var k :| k in StageKeys(s, cluster, machine, i) && k in s && s[k].phase == Running && s[k].fins != {};
      assert n > 0 ==> Clear(s, StageKeys(s, cluster, machine, 0));
      assert k in StageKeys(t, cluster, machine, i) && t[k] == s[k];
    }
  }

  /** Four is the exact bound: with every stage held, the first three attempts fail. */
  lemma {:induction false} HeldStagesFail(s: Store, cluster: Id, machine: Id, n: nat)
    requires HeldFrom(s, cluster, machine, 0) && n <= 3
    ensures PassesUpTo(Attempts(s, cluster, machine, n), cluster, machine, n)
    ensures HeldFrom(Attempts(s, cluster, machine, n), cluster, machine, n)
    ensures n < 3 ==> !Released(Attempts(s, cluster, machine, n), cluster, machine).1
  {
    if n > 0 {
      HeldStagesFail(s, cluster, machine, n - 1);
      var t := Attempts(s, cluster, machine, n - 1);
      HeldStageCosts(t, cluster, machine, n - 1);
      RetryGetsFurther(t, cluster, machine, n - 1);
    }
    if n < 3 { HeldStageCosts(Attempts(s, cluster, machine, n), cluster, machine, n); }
  }

  // ── No run leaves per-machine state behind ───────────────────────────────────

  datatype World = World(objects: Objects, store: Store)

  /** The machine a per-machine resource belongs to. */
  function OwnerOf(k: Key, r: Resource): Option<Id> {
    match k
    case NodeKey(m) => Some(m)
    case KernelArgsKey(m) => Some(m)
    case PatchKey(_) => r.labels.machine
    case _ => None
  }

  /** Everything a machine pass created belongs to a machine that exists and carries the
      finalizer, and a patch names the cluster its teardown will search. */
  ghost predicate NoOrphans(w: World) {
    forall k :: k in w.store && w.store[k].origin == MachinePass && (k.NodeKey? || k.PatchKey? || k.KernelArgsKey?) ==>
      var owner := OwnerOf(k, w.store[k]);
      && owner.Some? && owner.value in w.objects && w.objects[owner.value].finalizer
      && (k.PatchKey? ==> w.store[k].labels.cluster == Some(w.objects[owner.value].spec.cluster))
  }

  /** A new object has no finalizer yet. */
  ghost predicate Creates(w: World, w': World, n: Id) {
    && w'.store == w.store && n !in w.objects && w'.objects.Keys == w.objects.Keys + {n}
    && (forall o :: o in w.objects ==> w'.objects[o] == w.objects[o])
    && !w'.objects[n].finalizer && !w'.objects[n].deleting
  }

  /** The set's spec is copied onto an object, which stays in its cluster. */
  ghost predicate Syncs(w: World, w': World, n: Id) {
    && w'.store == w.store && n in w.objects && w'.objects.Keys == w.objects.Keys
    && (forall o :: o in w.objects && o != n ==> w'.objects[o] == w.objects[o])
    && w'.objects[n].finalizer == w.objects[n].finalizer
    && w'.objects[n].deleting == w.objects[n].deleting
    && w'.objects[n].spec.cluster == w.objects[n].spec.cluster
  }

  /** Omni, its operators and the cluster controller's backstop: finalizers come and go, resources
      are marked, removed or created, but nobody relabels one or forges a machine pass. */
  ghost predicate OthersAct(w: World, w': World) {
    && w'.objects == w.objects
    && (forall k :: k in w'.store && k in w.store ==>
          w'.store[k].labels == w.store[k].labels && w'.store[k].origin == w.store[k].origin)
    && (forall k :: k in w'.store && k !in w.store ==> w'.store[k].origin == Elsewhere)
  }

  ghost predicate Step(w: World, w': World, n: Id) {
    || Creates(w, w', n)
    || Syncs(w, w', n)
    || w' == World(Deleted(w.objects, n), w.store)
    || OthersAct(w, w')
    || PassStep(w.objects, w.store, w'.objects, w'.store, n)
  }

  lemma ReleaseKeepsNoOrphans(w: World, w': World, n: Id)
    requires NoOrphans(w) && n in w.objects && (w'.objects == w.objects || w'.objects == w.objects - {n})
    requires TearEffect(w.store, w'.store, MachineKeys(w.store, w.objects[n].spec.cluster, n), w'.objects != w.objects)
    ensures NoOrphans(w')
  {
    forall k | k in w.store && w.store[k].origin == MachinePass && OwnerOf(k, w.store[k]) == Some(n)
      ensures k in MachineKeys(w.store, w.objects[n].spec.cluster, n)
    {
    }
  }

  lemma ConvergenceKeepsNoOrphans(w: World, w': World, n: Id)
    requires NoOrphans(w) && n in w.objects && w.objects[n].finalizer && StatusOnly(w.objects, w'.objects, n)
    requires PassEffect(w.store, w'.store, GoalOf(n, w.objects[n].spec))
    ensures NoOrphans(w')
  {
    forall k | k in w'.store && k !in w.store
      ensures OwnerOf(k, w'.store[k]) == Some(n)
      ensures k.PatchKey? ==> w'.store[k].labels.cluster == Some(w.objects[n].spec.cluster)
    {
    }
  }

  lemma StepKeepsNoOrphans(w: World, w': World, n: Id)
    requires NoOrphans(w) && Step(w, w', n)
    ensures NoOrphans(w')
  {
    if PassStep(w.objects, w.store, w'.objects, w'.store, n) && n in w.objects && w.objects[n].finalizer {
      if w.objects[n].deleting {
        ReleaseKeepsNoOrphans(w, w', n);
      } else {
        ConvergenceKeepsNoOrphans(w, w', n);
      }
    }
  }

  /** Where a step removes an object that carried the finalizer, everything the machine owned in
      Omni is gone. */
  ghost predicate RemovesClean(w: World, w': World) {
    forall n :: n in w.objects && w.objects[n].finalizer && n !in w'.objects ==>
      MachineKeys(w.store, w.objects[n].spec.cluster, n) !! w'.store.Keys
  }

  lemma StepRemovesClean(w: World, w': World, n: Id)
    requires Step(w, w', n)
    ensures RemovesClean(w, w')
  {
  }

  /** Some step on some machine. */
  ghost predicate Moves(w: World, w': World) {
    exists n :: Step(w, w', n)
  }

  lemma MoveIsSafe(w: World, w': World)
    requires NoOrphans(w) && Moves(w, w')
    ensures NoOrphans(w') && RemovesClean(w, w')
  {
    var n :| Step(w, w', n);
    StepKeepsNoOrphans(w, w', n);
    StepRemovesClean(w, w', n);
  }

  ghost predicate Run(run: seq<World>) {
    forall i :: 0 <= i < |run| - 1 ==> Moves(run[i], run[i + 1])
  }

  /** On every run from a clean start nothing is orphaned, and the object of a machine that
      carried the finalizer goes only when its node, patches and kernel arguments are all gone. */
  lemma {:induction false} NoRunOrphans(run: seq<World>, i: nat)
    requires i < |run| && Run(run) && NoOrphans(run[0])
    ensures NoOrphans(run[i])
    ensures i + 1 < |run| ==> RemovesClean(run[i], run[i + 1])
  {
    if i > 0 {
      NoRunOrphans(run, i - 1);
      MoveIsSafe(run[i - 1], run[i]);
    }
    if i + 1 < |run| { MoveIsSafe(run[i], run[i + 1]); }
  }
}
