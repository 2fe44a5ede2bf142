/** What a second allocation pass does whose listing is stale, while the machine controller and
    other clusters bind machines between the passes. */
module AllocationRuns {
  import opened Ids
  import opened Cosi
  import opened OmniApi
  import opened Kube
  import opened Allocation
  import opened MachineAllocator
  import opened ClusterAllocation

  // ── One set ──────────────────────────────────────────────────────────────────

  /** What a later pass may read: its listing misses any of the machines the first pass adopted or
      created, and any of the created ones have been bound since. The pool may be any other one. */
  ghost predicate StaleReads(s: Situation, p: Plan, s': Situation) {
    && s.listed <= s'.listed <= s.listed + p.adopt + p.create && s'.leaving == s.leaving
    && s.bound <= s'.bound <= s.bound + p.create
    && s'.desired == s.desired && s'.controlPlane == s.controlPlane
  }

  /** The machines the first pass picked that have to be picked again: the second pass neither lists
      them nor finds them bound. */
  ghost function Again(p: Plan, s': Situation): set<Id> {
    set m | m in p.create && m !in s'.Active()
  }

  /** The names to pick again are still on offer, and no machine that has joined the pool sorts
      before one of them. */
  ghost predicate StillFirst(s: Situation, p: Plan, s': Situation) {
    && Again(p, s') <= s'.pool
    && forall y :: y in s'.pool && y !in s.pool && y !in s'.Spoken() ==> Below(Less, Again(p, s'), y)
  }

  lemma PlanPicksFree(s: Situation, p: Plan)
    requires IsPlan(s, p) && |s.Active()| <= s.desired
    ensures p.adopt == s.Adopted() && p.create <= s.Free() && p.evict == {}
  {
  }

  lemma StaleActive(s: Situation, p: Plan, s': Situation, x: set<Id>)
    requires p.adopt == s.Adopted() && p.create <= s.Free() && StaleReads(s, p, s') && s.listed !! s.leaving
    requires x == s'.Active() * p.create && s'.claimed == s.claimed
    ensures s'.Active() == s.Active() + x && s.Active() !! x && Again(p, s') == p.create - x
    ensures s'.Spoken() == s.Spoken() + x
  {
  }

  lemma UnionSize(a: set<Id>, b: set<Id>)
    requires a !! b
    ensures |a + b| == |a| + |b|
  {
  }

  /** What is left of the smallest names is the smallest of what is on offer now exactly when it is
      still on offer and nothing new sorts before it. */
  lemma LeastAgainIff(s: Situation, p: Plan, s': Situation, x: set<Id>, k: int)
    requires Least(Less, p.create, s.Free(), k) && x <= p.create && x !! s.Spoken()
    requires Again(p, s') == p.create - x && s'.Spoken() == s.Spoken() + x
    ensures Least(Less, Again(p, s'), s'.Free(), k - |x|) <==> StillFirst(s, p, s')
  {
    SplitSize(p.create, x);
    if StillFirst(s, p, s') {
      forall y | y in s'.Free() && y !in Again(p, s') ensures Below(Less, Again(p, s'), y) {
        assert y in s.pool ==> y in s.Free() && y !in p.create;
      }
    }
  }

  lemma PickedAgainIff(s: Situation, p: Plan, s': Situation, p': Plan, x: set<Id>, n: nat)
    requires IsPlan(s, p) && |s.Active()| == n <= s.desired && p.verdict == Allocated
    requires IsPlan(s', p') && |s'.Active()| == n + |x| && s'.desired == s.desired
    requires x <= p.create && x !! s.Spoken() && Again(p, s') == p.create - x && s'.Spoken() == s.Spoken() + x
    ensures |s'.Active()| <= s'.desired
    ensures p'.create == Again(p, s') <==> StillFirst(s, p, s')
    ensures p'.verdict != Allocated ==> p'.create == {} && Again(p, s') != {}
  {
    var need := s.desired - n - |x|;
    SubsetSize(x, p.create);
    SplitSize(p.create, x);
    if n < s.desired {
      LeastAgainIff(s, p, s', x, s.desired - n);
      if need == 0 {
        SubsetSize(x, p.create);
      } else if StillFirst(s, p, s') {
        SubsetSize(Again(p, s'), s'.Free());
        LessIsStrictOrder();
        LeastUnique(Less, Again(p, s'), p'.create, s'.Free(), need);
      }
    }
  }

  lemma KeptAgree(s: Situation, p: Plan, s': Situation, p': Plan, x: set<Id>)
    requires p.adopt == s.Adopted() && p'.adopt == s'.Adopted() && p.evict == {} == p'.evict && StaleReads(s, p, s')
    requires s'.Active() == s.Active() + x && x <= p.create && Again(p, s') == p.create - x
    requires p.create !! s.Active() && p'.create !! s'.Active() && s'.Spoken() == s.Spoken() + x
    ensures Kept(s', p') == Kept(s, p) <==> p'.create == Again(p, s')
    ensures p'.create == Again(p, s') ==>
      ClaimedAfter(s', p') == ClaimedAfter(s, p) && p'.adopt + p'.create <= p.adopt + p.create
  {
    assert Kept(s', p') - s'.Active() == p'.create;
    assert Kept(s, p) - s'.Active() == p.create - x;
  }

  lemma AllocatedSize(s: Situation, p: Plan)
    requires IsPlan(s, p) && |s.Active()| <= s.desired && p.verdict == Allocated
    ensures |Kept(s, p)| == s.desired
  {
  }

  lemma MoreTogether(a: set<Id>, b: set<Id>)
    requires |a| == |b| && a != b
    ensures |a + b| > |a|
  {
    SubsetSize(a, a + b);
    if |a + b| == |a| {
      SubsetSize(b, a);
    }
  }

  lemma Disagreement(s: Situation, p: Plan, s': Situation, p': Plan)
    requires IsPlan(s, p) && |s.Active()| <= s.desired && p.verdict == Allocated
    requires IsPlan(s', p') && |s'.Active()| <= s'.desired == s.desired && p'.verdict == Allocated
    ensures Kept(s', p') != Kept(s, p) ==> |Kept(s, p) + Kept(s', p')| > s.desired
  {
    AllocatedSize(s, p);
    AllocatedSize(s', p');
    if Kept(s', p') != Kept(s, p) { MoreTogether(Kept(s, p), Kept(s', p')); }
  }

  /** After a pass that succeeded, a second one comes to the same set exactly when the names to pick
      again are still first. It then adopts what has been bound, evicts nothing and asks for no
      machine the first pass did not. Otherwise it either finds too few machines and creates none, or
      the two passes together hold more machines than desired. */
  lemma StaleRerunAgreesIff(s: Situation, p: Plan, s': Situation, p': Plan)
    requires IsPlan(s, p) && |s.Active()| <= s.desired && p.verdict == Allocated && s.listed !! s.leaving
    requires StaleReads(s, p, s') && s'.claimed == s.claimed && IsPlan(s', p')
    ensures Kept(s', p') == Kept(s, p) <==> StillFirst(s, p, s')
    ensures StillFirst(s, p, s') ==> SameOutcome(s, p, s', p')
    ensures !StillFirst(s, p, s') ==>
      if p'.verdict == Allocated then |Kept(s, p) + Kept(s', p')| > s.desired else p'.create == {}
  {
    var x := s'.Active() * p.create;
    PlanPicksFree(s, p);
    StaleActive(s, p, s', x);
    UnionSize(s.Active(), x);
    PickedAgainIff(s, p, s', p', x, |s.Active()|);
    PlanPicksFree(s', p');
    KeptAgree(s, p, s', p', x);
    if p'.verdict == Allocated { Disagreement(s, p, s', p'); }
  }

  ghost predicate SameOutcome(s: Situation, p: Plan, s': Situation, p': Plan) {
    && Kept(s', p') == Kept(s, p) && ClaimedAfter(s', p') == ClaimedAfter(s, p)
    && p'.verdict == p.verdict && p'.evict == {} && p'.adopt + p'.create <= p.adopt + p.create
  }

  /** A pass that found too few machines finds too few again, if none has joined the pool. */
  lemma ShortageAgain(s: Situation, p: Plan, s': Situation, p': Plan)
    requires IsPlan(s, p) && |s.Active()| <= s.desired && p.verdict != Allocated && s.listed !! s.leaving
    requires StaleReads(s, p, s') && s'.claimed == s.claimed && IsPlan(s', p') && s'.pool <= s.pool
    ensures SameOutcome(s, p, s', p')
  {
    PlanPicksFree(s, p);
    StaleActive(s, p, s', {});
    assert s'.Active() == s.Active() && s'.Spoken() == s.Spoken();
    SubsetSize(s'.Free(), s.Free());
  }

  /** So where machines only leave the pool, and none of those to be picked again does, the second
      pass comes to the same set, whatever the first one found. */
  lemma StaleRerunIsAbsorbed(s: Situation, p: Plan, s': Situation, p': Plan)
    requires IsPlan(s, p) && |s.Active()| <= s.desired && s.listed !! s.leaving
    requires StaleReads(s, p, s') && s'.claimed == s.claimed && IsPlan(s', p')
    requires Again(p, s') <= s'.pool <= s.pool
    ensures SameOutcome(s, p, s', p')
  {
    if p.verdict == Allocated {
      StaleRerunAgreesIff(s, p, s', p');
    } else {
      ShortageAgain(s, p, s', p');
    }
  }

  /** After a pass that evicts nothing, everything it adopted or created exists, and nothing is lost. */
  lemma AllExist(was: Objects, now: Objects, s: Situation, p: Plan, t: Target)
    requires Carried(was, now, s, p, t) && p.evict == {}
    ensures p.adopt + p.create <= now.Keys && was.Keys <= now.Keys
  {
  }

  lemma RepeatChangesNothing(was: Objects, now: Objects, s: Situation, done: Plan, t: Target)
    requires Carried(was, now, s, done, t) && done.evict == {} && done.adopt + done.create <= was.Keys
    ensures SyncedOn(was, now, s.listed, t)
  {
  }

  /** The second pass, which may start from any later objects as long as those of the first one still
      exist, finds every object it asks for, so it creates nothing: the objects stay, up to the
      syncing of those that are listed. */
  lemma StaleRerunKeepsObjects(s: Situation, p: Plan, s': Situation, p': Plan, done: Plan,
                               was: Objects, mid: Objects, later: Objects, now: Objects, t: Target)
    requires IsPlan(s, p) && |s.Active()| <= s.desired && s.listed !! s.leaving
    requires StaleReads(s, p, s') && s'.claimed == s.claimed && IsPlan(s', p')
    requires Again(p, s') <= s'.pool <= s.pool
    requires Carried(was, mid, s, p, t) && mid.Keys <= later.Keys
    requires PartOf(done, p') && Carried(later, now, s', done, t)
    ensures SyncedOn(later, now, s'.listed, t)
  {
    StaleRerunIsAbsorbed(s, p, s', p');
    PlanPicksFree(s, p);
    AllExist(was, mid, s, p, t);
    RepeatChangesNothing(later, now, s', done, t);
  }

  // ── All sets of a cluster ────────────────────────────────────────────────────

  /** A set that was not over-full, and what the second pass reads of it. The claims are not
      compared: they follow. */
  ghost predicate StaleSet(a: SetPass, b: SetPass) {
    && b.t == a.t && |a.s.Active()| <= a.s.desired && a.s.listed !! a.s.leaving
    && StaleReads(a.s, a.p, b.s) && Again(a.p, b.s) <= b.s.pool <= a.s.pool
  }

  ghost predicate StaleLog(log: seq<SetPass>, log': seq<SetPass>) {
    && Chained(log) && Chained(log') && |log'| <= |log|
    && forall i :: 0 <= i < |log'| ==> StaleSet(log[i], log'[i])
  }

  lemma SetRerun(a: SetPass, b: SetPass)
    requires StaleSet(a, b) && a.Carries() && b.Carries() && b.s.claimed == a.s.claimed
    ensures SameOutcome(a.s, a.p, b.s, b.p)
  {
    PlanOfPass(a);
    PlanOfPass(b);
    StaleRerunIsAbsorbed(a.s, a.p, b.s, b.p);
  }

  /** Over a whole cluster pass every set comes to the same machines again, and passes the same claims
      on to the next one: the machines other sets picked may have been bound and left the pool. */
  lemma {:induction false} ClusterRerunIsAbsorbed(log: seq<SetPass>, log': seq<SetPass>, i: nat)
    requires StaleLog(log, log') && i < |log'|
    ensures log'[i].s.claimed == log[i].s.claimed
    ensures SameOutcome(log[i].s, log[i].p, log'[i].s, log'[i].p)
  {
    if i > 0 {
      ClusterRerunIsAbsorbed(log, log', i - 1);
      assert Follows(log[i - 1], log[i]) && Follows(log'[i - 1], log'[i]);
    }
    SetRerun(log[i], log'[i]);
  }

  lemma SetKeepsKeys(a: SetPass)
    requires a.Carries() && a.done == a.p && |a.s.Active()| <= a.s.desired
    ensures a.was.Keys + a.p.adopt + a.p.create <= a.now.Keys
  {
    PlanOfPass(a);
    PlanPicksFree(a.s, a.p);
    AllExist(a.was, a.now, a.s, a.p, a.t);
  }

  lemma {:induction false} KeysGrow(log: seq<SetPass>, i: nat, j: nat)
    requires Chained(log) && i <= j < |log|
    requires forall n :: 0 <= n < |log| ==> log[n].done == log[n].p && |log[n].s.Active()| <= log[n].s.desired
    ensures log[i].p.adopt + log[i].p.create <= log[j].now.Keys
  {
    SetKeepsKeys(log[j]);
    if i < j {
      KeysGrow(log, i, j - 1);
      assert Follows(log[j - 1], log[j]);
    }
  }

  lemma SetRerunKeepsObjects(a: SetPass, b: SetPass)
    requires b.Carries() && SameOutcome(a.s, a.p, b.s, b.p) && a.p.adopt + a.p.create <= b.was.Keys
    ensures SyncedOn(b.was, b.now, b.s.listed, b.t)
  {
    PlanOfPass(b);
    RepeatChangesNothing(b.was, b.now, b.s, b.done, b.t);
  }

  /** And it creates no object for any set, from whatever later objects it starts. */
  lemma {:induction false} ClusterRerunKeepsObjects(log: seq<SetPass>, log': seq<SetPass>, i: nat)
    requires StaleLog(log, log') && i < |log'|
    requires forall n :: 0 <= n < |log| ==> log[n].done == log[n].p && |log[n].s.Active()| <= log[n].s.desired
    requires log[|log| - 1].now.Keys <= log'[0].was.Keys
    ensures log'[i].now.Keys == log'[0].was.Keys
    ensures SyncedOn(log'[i].was, log'[i].now, log'[i].s.listed, log'[i].t)
  {
    if i > 0 {
      ClusterRerunKeepsObjects(log, log', i - 1);
      assert Follows(log'[i - 1], log'[i]);
    }
    KeysGrow(log, i, |log| - 1);
    ClusterRerunIsAbsorbed(log, log', i);
    SetRerunKeepsObjects(log[i], log'[i]);
  }
}
