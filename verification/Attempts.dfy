/** One attempt at tearing down a set of resources, stopping where something is still held, and how
    attempts follow one another (controllers/omni_client.go, controllers/machine_controller.go). */
module Attempts {
  import opened Ids
  import opened Cosi
  import opened OmniApi

  /** Something of `ks` is held, and has been told to go. */
  ghost predicate Stuck(s: Store, s': Store, ks: set<Key>) {
    exists k :: k in ks && k in s && s[k].fins != {} && k in s' && s'[k] == Marked(s[k])
  }

  /** An attempt at `ks`: over a reliable connection it finishes exactly when nothing is held, and
      otherwise it gets stuck on something that is. */
  ghost predicate Attempt(s: Store, s': Store, ks: set<Key>, ok: bool, reliable: bool) {
    && TearEffect(s, s', ks, ok)
    && (reliable ==> (ok <==> Clear(s, ks)) && (!ok ==> Stuck(s, s', ks)))
  }

  lemma AttemptThen(s: Store, t: Store, u: Store, a: set<Key>, b: set<Key>, c: set<Key>, ok: bool, reliable: bool)
    requires Attempt(s, t, a, true, reliable) && Attempt(t, u, b, ok, reliable)
    requires forall k :: k in s ==> (k in c <==> k in a || k in b)
    ensures Attempt(s, u, c, ok, reliable)
  {
  }

  /** An attempt that failed early also failed at more. */
  lemma AttemptOfMore(s: Store, t: Store, a: set<Key>, c: set<Key>, reliable: bool)
    requires Attempt(s, t, a, false, reliable) && forall k :: k in s && k in a ==> k in c
    ensures Attempt(s, t, c, false, reliable)
  {
  }

  lemma AttemptAtNothing(s: Store, ks: set<Key>, reliable: bool)
    requires ks !! s.Keys
    ensures Attempt(s, s, ks, true, reliable)
  {
  }

  lemma TearsIsAttempt(s: Store, s': Store, ks: set<Key>, ok: bool, reliable: bool)
    requires Tears(s, s', ks, ok, reliable)
    ensures Attempt(s, s', ks, ok, reliable)
  {
  }

  lemma ReleaseIsAttempt(s: Store, s': Store, cluster: Id, m: Id, ok: bool, reliable: bool)
    requires TearEffect(s, s', MachineKeys(s, cluster, m), ok)
    requires reliable ==> (s', ok) == Released(s, cluster, m)
    ensures Attempt(s, s', MachineKeys(s, cluster, m), ok, reliable)
  {
  }

  // ── What belongs to some machines, and to some sets ──────────────────────────

  ghost predicate OfMachines(k: Key, r: Resource, cluster: Id, ms: set<Id>) {
    match k
    case NodeKey(m) => m in ms
    case KernelArgsKey(m) => m in ms
    case PatchKey(_) => r.labels.cluster == Some(cluster) && r.labels.machine.Some? && r.labels.machine.value in ms
    case _ => false
  }

  ghost function ReleaseKeys(s: Store, cluster: Id, ms: set<Id>): set<Key> {
    set k | k in s && OfMachines(k, s[k], cluster, ms)
  }

  ghost function SetsOf(s: Store, cluster: Id): set<Id> {
    set k | k in s && k.SetKey? && s[k].labels.cluster == Some(cluster) :: k.setId
  }

  ghost function BoundToAny(s: Store, sets: set<Id>): set<Id> {
    set k | k in s && k.NodeKey? && s[k].labels.setId.Some? && s[k].labels.setId.value in sets :: k.machine
  }

  ghost function SetLevelKeys(sets: set<Id>): set<Key> {
    (set x | x in sets :: SetKey(x)) + (set x | x in sets :: ExtensionsKey(x))
  }

  /** Everything a teardown of these sets is after. */
  ghost function Footprint(s: Store, cluster: Id, sets: set<Id>): set<Key> {
    ReleaseKeys(s, cluster, BoundToAny(s, sets)) + SetLevelKeys(sets)
  }

  /** The resource was marked, changed or removed. */
  ghost predicate Touched(s: Store, s': Store, k: Key) {
    k in s && (k !in s' || s'[k] != s[k])
  }

  /** A set is torn down only when its nodes and its extensions are gone. */
  ghost predicate SetsGoLast(s: Store, s': Store, sets: set<Id>) {
    forall x :: x in sets && Touched(s, s', SetKey(x)) ==> BoundTo(s', x) == {} && ExtensionsKey(x) !in s'
  }

  lemma MachineKeysAreReleaseKeys(s: Store, cluster: Id, m: Id)
    ensures forall k :: k in s ==> (k in MachineKeys(s, cluster, m) <==> k in ReleaseKeys(s, cluster, {m}))
  {
  }

  /** Releasing some machines leaves what belongs to the others as it was. */
  lemma ReleaseKeysAfter(s: Store, cluster: Id, done: set<Id>, next: set<Id>)
    ensures
      var t := s - ReleaseKeys(s, cluster, done);
      forall k :: k in s ==>
        (k in ReleaseKeys(s, cluster, done + next) <==>
         k in ReleaseKeys(s, cluster, done) || k in ReleaseKeys(t, cluster, next))
  {
  }

  lemma BoundAfter(s: Store, cluster: Id, done: set<Id>, x: Id)
    ensures
      var t := s - ReleaseKeys(s, cluster, BoundToAny(s, done));
      BoundToAny(s, done) + BoundTo(t, x) == BoundToAny(s, done + {x})
  {
  }

  lemma ReleaseNextSet(s: Store, t: Store, u: Store, cluster: Id, done: set<Id>, x: Id, ok: bool, reliable: bool)
    requires Attempt(s, t, ReleaseKeys(s, cluster, BoundToAny(s, done)), true, reliable)
    requires Attempt(t, u, ReleaseKeys(t, cluster, BoundTo(t, x)), ok, reliable)
    ensures Attempt(s, u, ReleaseKeys(s, cluster, BoundToAny(s, done + {x})), ok, reliable)
  {
    BoundAfter(s, cluster, done, x);
    ReleaseKeysAfter(s, cluster, BoundToAny(s, done), BoundTo(t, x));
    AttemptThen(s, t, u, ReleaseKeys(s, cluster, BoundToAny(s, done)), ReleaseKeys(t, cluster, BoundTo(t, x)),
                ReleaseKeys(s, cluster, BoundToAny(s, done + {x})), ok, reliable);
  }

  lemma MoreSetsMoreKeys(s: Store, cluster: Id, a: set<Id>, b: set<Id>)
    requires a <= b
    ensures ReleaseKeys(s, cluster, BoundToAny(s, a)) <= ReleaseKeys(s, cluster, BoundToAny(s, b))
    ensures Footprint(s, cluster, a) <= Footprint(s, cluster, b)
  {
  }

}
