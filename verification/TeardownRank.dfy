/** A rank that every attempt at a teardown and every finalizer Omni releases brings down, so that
    retries end also when Omni lets go of one resource at a time. */
module TeardownRank {
  import opened Ids
  import opened Cosi
  import opened OmniApi
  import opened Attempts
  import opened TeardownRuns

  /** What is being torn down: one machine, or the sets of a removal. */
  datatype Work = OneMachine(cluster: Id, m: Id) | ManySets(j: Removal)
  {
    ghost function Keys(s: Store): set<Key> {
      match this
      case OneMachine(cluster, m) => MachineKeys(s, cluster, m)
      case ManySets(j) => j.Keys(s)
    }
  }

  ghost function Present(s: Store, ks: set<Key>): set<Key> {
    set k | k in s && k in ks
  }

  /** The finalizers held, each with its resource. */
  ghost function HeldOn(s: Store, ks: set<Key>): set<(Key, string)> {
    set k, f | k in s && k in ks && f in s[k].fins :: (k, f)
  }

  /** One for each resource that exists, one for each that is not marked, one for each finalizer. */
  ghost function Rank(s: Store, ks: set<Key>): nat {
    |Present(s, ks)| + |Unmarked(s, ks)| + |HeldOn(s, ks)|
  }

  /** Omni lets go of finalizers, of any number on any resources, and changes nothing else. */
  ghost predicate LetsGo(s: Store, s': Store) {
    && s'.Keys == s.Keys
    && forall k :: k in s ==> s'[k].fins <= s[k].fins && s'[k] == s[k].(fins := s'[k].fins)
  }

  ghost predicate LetsGoOfSome(s: Store, s': Store, ks: set<Key>) {
    LetsGo(s, s') && exists k :: k in ks && k in s && s'[k].fins != s[k].fins
  }

  lemma SetsShrink(s: Store, s': Store, ks: set<Key>, ks': set<Key>)
    requires ks' <= ks && s'.Keys <= s.Keys
    requires forall k :: k in s' ==> s'[k].fins <= s[k].fins && (s'[k].phase == Running ==> s[k].phase == Running)
    ensures Present(s', ks') <= Present(s, ks) && Unmarked(s', ks') <= Unmarked(s, ks) && HeldOn(s', ks') <= HeldOn(s, ks)
    ensures Rank(s', ks') <= Rank(s, ks)
    ensures Present(s', ks') < Present(s, ks) || Unmarked(s', ks') < Unmarked(s, ks) || HeldOn(s', ks') < HeldOn(s, ks) ==>
      Rank(s', ks') < Rank(s, ks)
  {
    assert HeldOn(s', ks') <= HeldOn(s, ks);
    Sizes(Present(s', ks'), Present(s, ks));
    Sizes(Unmarked(s', ks'), Unmarked(s, ks));
    Sizes(HeldOn(s', ks'), HeldOn(s, ks));
  }

  lemma Sizes<T>(a: set<T>, b: set<T>)
    requires a <= b
    ensures |a| <= |b| && (a < b ==> |a| < |b|)
  {
    SubsetSize(a, b);
  }

  /** No attempt raises the rank, wherever it fails, and one that changes anything lowers it. */
  lemma AttemptLowersRank(s: Store, s': Store, ks: set<Key>, ks': set<Key>)
    requires Unwinds(s, s', ks) && ks' <= ks
    ensures Rank(s', ks') <= Rank(s, ks) && (s' != s ==> Rank(s', ks') < Rank(s, ks))
  {
    SetsShrink(s, s', ks, ks');
    if s' != s {
      var k :| k in s && (k !in s' || s'[k] != s[k]);
      if k !in s' {
        assert k in Present(s, ks) && k !in Present(s', ks');
      } else {
        assert k in Unmarked(s, ks) && k !in Unmarked(s', ks');
      }
    }
  }

  /** Every single finalizer that is released lowers it. */
  lemma LettingGoLowersRank(s: Store, s': Store, ks: set<Key>, ks': set<Key>)
    requires LetsGo(s, s') && ks' <= ks
    ensures Rank(s', ks') <= Rank(s, ks)
    ensures LetsGoOfSome(s, s', ks) ==> Rank(s', ks') < Rank(s, ks)
  {
    SetsShrink(s, s', ks, ks');
    if k :| k in ks && k in s && s'[k].fins != s[k].fins {
      var f :| f in s[k].fins && f !in s'[k].fins;
      assert (k, f) in HeldOn(s, ks) && (k, f) !in HeldOn(s', ks');
    }
  }

  lemma WorkShrinks(w: Work, s: Store, s': Store)
    requires s'.Keys <= s.Keys && forall k :: k in s' ==> s'[k].labels == s[k].labels
    ensures w.Keys(s') <= w.Keys(s)
  {
    if w.ManySets? { KeysShrink(s, s', w.j); }
  }

  /** An attempt over a reliable connection that fails leaves something marked and held: there is
      always something for Omni to let go of. */
  lemma FailureLeavesHeld(s: Store, s': Store, ks: set<Key>) returns (k: Key)
    requires Attempt(s, s', ks, false, true)
    ensures k in ks && k in s' && s'[k].phase == TearingDown && s'[k].fins != {}
  {
    k :| k in ks && k in s && s[k].fins != {} && k in s' && s'[k] == Marked(s[k]);
  }

  // ── Runs ─────────────────────────────────────────────────────────────────────

  /** A step that gets somewhere: an attempt, finished or not, that changes something, or Omni letting
      go of at least one finalizer. */
  ghost predicate Progress(s: Store, s': Store, w: Work) {
    (Unwinds(s, s', w.Keys(s)) && s' != s) || LetsGoOfSome(s, s', w.Keys(s))
  }

  lemma ProgressLowersRank(s: Store, s': Store, w: Work)
    requires Progress(s, s', w)
    ensures Rank(s', w.Keys(s')) < Rank(s, w.Keys(s))
  {
    WorkShrinks(w, s, s');
    if Unwinds(s, s', w.Keys(s)) && s' != s {
      AttemptLowersRank(s, s', w.Keys(s), w.Keys(s'));
    } else {
      LettingGoLowersRank(s, s', w.Keys(s), w.Keys(s'));
    }
  }

  /** Over any run of attempts, lost calls and partial releases, at most as many steps get somewhere
      as the rank of the start says. */
  lemma {:induction false} ProgressIsBounded(stores: seq<Store>, w: Work, i: nat)
    requires i < |stores|
    requires forall n :: 0 <= n < |stores| - 1 ==> Progress(stores[n], stores[n + 1], w)
    ensures i + Rank(stores[i], w.Keys(stores[i])) <= Rank(stores[0], w.Keys(stores[0]))
  {
    if i > 0 {
      ProgressIsBounded(stores, w, i - 1);
      ProgressLowersRank(stores[i - 1], stores[i], w);
    }
  }

  /** An attempt over a reliable connection that failed, after which Omni let go of at least one of the
      finalizers that are left on what is to go. */
  ghost predicate FailedRound(s: Store, s': Store, w: Work) {
    exists t :: Attempt(s, t, w.Keys(s), false, true) && LetsGoOfSome(t, s', w.Keys(t))
  }

  lemma FailedRoundLowersRank(s: Store, s': Store, w: Work)
    requires FailedRound(s, s', w)
    ensures Rank(s', w.Keys(s')) < Rank(s, w.Keys(s))
  {
    var t :| Attempt(s, t, w.Keys(s), false, true) && LetsGoOfSome(t, s', w.Keys(t));
    RoundLowersRank(s, t, s', w);
  }

  lemma RoundLowersRank(s: Store, t: Store, s': Store, w: Work)
    requires Unwinds(s, t, w.Keys(s)) && LetsGoOfSome(t, s', w.Keys(t))
    ensures Rank(s', w.Keys(s')) < Rank(s, w.Keys(s))
  {
    WorkShrinks(w, s, t);
    AttemptLowersRank(s, t, w.Keys(s), w.Keys(t));
    ProgressLowersRank(t, s', w);
  }

  /** So if Omni lets go of one finalizer between the attempts, and no more, the attempts that fail are
      no more than the resources that exist, those not yet marked, and the finalizers held. */
  lemma {:induction false} PartialReleasesSuffice(stores: seq<Store>, w: Work, i: nat)
    requires i < |stores|
    requires forall n :: 0 <= n < |stores| - 1 ==> FailedRound(stores[n], stores[n + 1], w)
    ensures i + Rank(stores[i], w.Keys(stores[i])) <= Rank(stores[0], w.Keys(stores[0]))
  {
    if i > 0 {
      PartialReleasesSuffice(stores, w, i - 1);
      FailedRoundLowersRank(stores[i - 1], stores[i], w);
    }
  }
}
