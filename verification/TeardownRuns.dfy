/** What repeated attempts at deleting a cluster, or at pruning its sets, add up to. */
module TeardownRuns {
  import opened Ids
  import opened Cosi
  import opened OmniApi
  import opened Attempts
  import opened ClusterAllocation
  import opened ClusterTeardown

  /** The deletion of a whole cluster keeps nothing; the pruning keeps the declared sets and the
      cluster. */
  datatype Removal = Removal(cluster: Id, keep: set<Id>, whole: bool)
  {
    ghost function Sets(s: Store): set<Id> { SetsOf(s, cluster) - keep }

    ghost function Keys(s: Store): set<Key> {
      Footprint(s, cluster, Sets(s)) + if whole then {ClusterKey(cluster)} else {}
    }
  }

  lemma DeletionIsRemoval(s: Store, cluster: Id)
    ensures Removal(cluster, {}, true).Keys(s) == WholeFootprint(s, cluster)
  {
  }

  lemma PruningIsRemoval(s: Store, c: ClusterSpec)
    ensures Removal(c.name, Declared(c), false).Keys(s) == Footprint(s, c.name, SetsOf(s, c.name) - Declared(c))
  {
  }

  // ── Nothing is forgotten ─────────────────────────────────────────────────────

  /** One attempt, wherever it failed. */
  ghost predicate Tried(s: Store, s': Store, j: Removal, ok: bool) {
    TearEffect(s, s', j.Keys(s), ok) && SetsGoLast(s, s', j.Sets(s))
  }

  /** Omni meanwhile: finalizers come and go, resources other than machine sets may disappear, and
      nothing is created or relabelled. */
  ghost predicate OmniActs(s: Store, s': Store) {
    && s'.Keys <= s.Keys
    && (forall k :: k in s' ==> s'[k].labels == s[k].labels)
    && (forall k: Key :: k in s && k.SetKey? ==> k in s')
  }

  datatype Move = Try(ok: bool) | Omni

  ghost predicate Moves(s: Store, m: Move, s': Store, j: Removal) {
    match m
    case Try(ok) => Tried(s, s', j, ok)
    case Omni => OmniActs(s, s')
  }

  ghost predicate IsRun(stores: seq<Store>, moves: seq<Move>, j: Removal) {
    |stores| == |moves| + 1 && forall i :: 0 <= i < |moves| ==> Moves(stores[i], moves[i], stores[i + 1], j)
  }

  /** Every set is still found, or it is gone with its nodes and its extensions. */
  ghost predicate Covered(s: Store, j: Removal, sets: set<Id>) {
    forall x :: x in sets ==> x in j.Sets(s) || AllGone(s, x)
  }

  ghost predicate AllGone(s: Store, x: Id) {
    SetKey(x) !in s && ExtensionsKey(x) !in s && BoundTo(s, x) == {}
  }

  lemma MoveKeepsCovered(s: Store, m: Move, s': Store, j: Removal, sets: set<Id>)
    requires Covered(s, j, sets) && Moves(s, m, s', j)
    ensures Covered(s', j, sets)
  {
  }

  lemma {:induction false} RunKeepsCovered(stores: seq<Store>, moves: seq<Move>, j: Removal, i: nat)
    requires IsRun(stores, moves, j) && i < |stores|
    ensures Covered(stores[i], j, j.Sets(stores[0]))
  {
    if i > 0 {
      RunKeepsCovered(stores, moves, j, i - 1);
      MoveKeepsCovered(stores[i - 1], moves[i - 1], stores[i], j, j.Sets(stores[0]));
    }
  }

  /** Whatever attempts failed before, and wherever, the one that succeeds leaves no set there was to
      remove at the start, no node bound to one, no extensions, and no cluster if it was to go. */
  lemma RetriesAreComplete(stores: seq<Store>, moves: seq<Move>, j: Removal, i: nat)
    requires IsRun(stores, moves, j) && i < |moves| && moves[i] == Try(true)
    ensures forall x :: x in j.Sets(stores[0]) ==> AllGone(stores[i + 1], x)
    ensures j.whole ==> ClusterKey(j.cluster) !in stores[i + 1]
  {
    RunKeepsCovered(stores, moves, j, i + 1);
    var s, s' := stores[i], stores[i + 1];
    assert Moves(s, moves[i], s', j);
    forall x | SetKey(x) in s' ensures x !in j.Sets(s') {
      assert x in j.Sets(s) ==> SetKey(x) in j.Keys(s);
    }
  }

  // ── Attempts are bounded ─────────────────────────────────────────────────────

  /** What is still to be told to go. */
  ghost function Unmarked(s: Store, ks: set<Key>): set<Key> {
    set k | k in s && k in ks && s[k].phase == Running
  }

  lemma KeysShrink(s: Store, s': Store, j: Removal)
    requires s'.Keys <= s.Keys && forall k :: k in s' ==> s'[k].labels == s[k].labels
    ensures j.Keys(s') <= j.Keys(s)
  {
  }

  /** An attempt over a reliable connection that failed, after which Omni let go. */
  ghost predicate Failed(s: Store, s': Store, j: Removal) {
    exists t :: Attempt(s, t, j.Keys(s), false, true) && s' == Settle(t)
  }

  /** With nothing being torn down still held, it marks something that was not marked. */
  lemma FailureMarksMore(s: Store, t: Store, j: Removal)
    requires Settled(s) && Attempt(s, t, j.Keys(s), false, true)
    ensures Settled(Settle(t)) && Unmarked(Settle(t), j.Keys(Settle(t))) < Unmarked(s, j.Keys(s))
  {
    var s' := Settle(t);
    KeysShrink(s, s', j);
    var k :| k in j.Keys(s) && k in s && s[k].fins != {} && k in t && t[k] == Marked(s[k]);
    assert k in Unmarked(s, j.Keys(s)) && k !in Unmarked(s', j.Keys(s'));
  }

  lemma FewerUnmarked(s: Store, s': Store, j: Removal)
    requires Settled(s) && Failed(s, s', j)
    ensures Settled(s') && |Unmarked(s', j.Keys(s'))| < |Unmarked(s, j.Keys(s))|
  {
    var t :| Attempt(s, t, j.Keys(s), false, true) && s' == Settle(t);
    FailureMarksMore(s, t, j);
    StrictSubsetSize(Unmarked(s', j.Keys(s')), Unmarked(s, j.Keys(s)));
  }

  /** So when Omni lets go between the attempts, there are at most as many failures as there are
      resources to remove that are not yet marked. */
  lemma {:induction false} FailuresAreBounded(stores: seq<Store>, j: Removal, i: nat)
    requires i < |stores| && Settled(stores[0])
    requires forall n :: 0 <= n < |stores| - 1 ==> Failed(stores[n], stores[n + 1], j)
    ensures Settled(stores[i]) && i + |Unmarked(stores[i], j.Keys(stores[i]))| <= |Unmarked(stores[0], j.Keys(stores[0]))|
  {
    if i > 0 {
      FailuresAreBounded(stores, j, i - 1);
      FewerUnmarked(stores[i - 1], stores[i], j);
    }
  }

  lemma StrictSubsetSize<T>(a: set<T>, b: set<T>)
    requires a < b
    ensures |a| < |b|
  {
    var x :| x in b && x !in a;
    SubsetSize(a + {x}, b);
  }

  // ── What the backstop can lose ───────────────────────────────────────────────

  /** The attempt removed the node, and left something else of the machine behind. */
  ghost predicate Leaks(s: Store, t: Store, cluster: Id, m: Id) {
    NodeKey(m) !in t && exists k :: k in MachineKeys(s, cluster, m) && k in t
  }

  /** Over a reliable connection this happens to a machine without an object exactly when its node is
      free to go while one of its patches or its kernel arguments is held. */
  lemma BackstopLeaksIff(s: Store, cluster: Id, m: Id)
    requires NodeKey(m) in s
    ensures Leaks(s, Released(s, cluster, m).0, cluster, m) <==>
      && s[NodeKey(m)].fins == {}
      && !Clear(s, PatchKeys(s, cluster, m) + {KernelArgsKey(m)})
  {
    var t, patches, args := Released(s, cluster, m).0, PatchKeys(s, cluster, m), {KernelArgsKey(m)};
    assert Clear(s, {NodeKey(m)}) <==> s[NodeKey(m)].fins == {};
    assert Clear(s, patches + args) <==> Clear(s, patches) && Clear(s, args);
    if s[NodeKey(m)].fins == {} && !Clear(s, patches + args) {
      var k :| k in patches + args && k in s && s[k].fins != {};
      assert k in MachineKeys(s, cluster, m) && k in t;
    }
  }

  /** What a release may leave behind when any call of it may be lost. */
  ghost predicate MayLeave(s: Store, t: Store, cluster: Id, m: Id) {
    Unwinds(s, t, MachineKeys(s, cluster, m)) && InOrder(s, t, cluster, m)
  }

  /** Where calls may be lost, nothing need be held: a machine can lose what it has exactly when its
      node is free to go and it has any patch or kernel arguments at all. */
  lemma LostCallLeaksIff(s: Store, cluster: Id, m: Id)
    requires NodeKey(m) in s
    ensures (exists t :: MayLeave(s, t, cluster, m) && Leaks(s, t, cluster, m)) <==>
      && s[NodeKey(m)].fins == {}
      && exists k :: k in PatchKeys(s, cluster, m) + {KernelArgsKey(m)} && k in s
  {
    if s[NodeKey(m)].fins == {} && exists k :: k in PatchKeys(s, cluster, m) + {KernelArgsKey(m)} && k in s {
      var t := s - {NodeKey(m)};
      var k :| k in PatchKeys(s, cluster, m) + {KernelArgsKey(m)} && k in s;
      assert k in MachineKeys(s, cluster, m) && k in t;
      assert MayLeave(s, t, cluster, m) && Leaks(s, t, cluster, m);
    }
  }

  /** Nobody finds what was left: the next attempt looks for machines by their nodes. */
  lemma LeaksStay(t: Store, u: Store, j: Removal, m: Id, k: Key, ok: bool)
    requires NodeKey(m) !in t && k in MachineKeys(t, j.cluster, m) && k in t && TearEffect(t, u, j.Keys(t), ok)
    ensures k in u && u[k] == t[k] && NodeKey(m) !in u
  {
  }
}
