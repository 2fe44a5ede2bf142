/** The Omni resource store as its clients see it: typed resources with labels, a phase and
    foreign finalizers, a create that conflicts, and the two-step teardown. */
module Cosi {
  import opened Ids

  datatype Error =
    | Unavailable
    | NotFound
    | Conflict
    | PhaseConflict
    | FinalizersHeld
    | InProgress
    | BoundElsewhere
    | OwnershipConflict
    | InvalidSelector
    | NotEnoughMachines
    | ControlPlaneBelowOne
    | WaitingForMachines

  datatype Result<+T> = Ok(value: T) | Err(error: Error)

  datatype Phase = Running | TearingDown

  datatype Key =
    | ClusterKey(name: Id)
    | SetKey(setId: Id)
    | NodeKey(machine: Id)
    | PatchKey(patch: Id)
    | KernelArgsKey(machine: Id)
    | ExtensionsKey(setId: Id)

  /** `owner` is the controller's own label on a Cluster; the rest are Omni's. */
  datatype Labels = Labels(cluster: Option<Id>, setId: Option<Id>, machine: Option<Id>, owner: Option<Id>)

  /** A stored document either does not parse as JSON, or has a value and some layout of it. */
  datatype Doc = Malformed(text: string) | Json(layout: string, value: int)

  /** What a spec asks for always parses; an absent document is the value `null`. */
  type JsonDoc = d: Doc | d.Json? witness Json("null", 0)

  datatype Body =
    | Empty
    | Patch(doc: Doc)
    | Strings(items: seq<string>)
    | Versions(kubernetes: string, talos: string)

  /** History, not data: which program created the resource. */
  datatype Origin = MachinePass | Elsewhere

  /** `rev` grows with every write, so equal stores mean that nothing was written. */
  datatype Resource = Resource(
    rev: nat, phase: Phase, fins: set<string>, labels: Labels, body: Body, origin: Origin)

  type Store = map<Key, Resource>

  predicate JsonEqual(a: Doc, b: Doc) {
    a.Json? && b.Json? && a.value == b.value
  }

  ghost function Fresh(labels: Labels, body: Body, origin: Origin): Resource {
    Resource(0, Running, {}, labels, body, origin)
  }

  ghost function Marked(r: Resource): Resource {
    if r.phase == TearingDown then r else r.(phase := TearingDown, rev := r.rev + 1)
  }

  ghost function Written(r: Resource, body: Body): Resource {
    r.(body := body, rev := r.rev + 1)
  }

  // ── Teardown of a set of keys ────────────────────────────────────────────────

  /** No finalizer is held on any resource of `ks`. */
  ghost predicate Clear(s: Store, ks: set<Key>) {
    forall k :: k in ks && k in s ==> s[k].fins == {}
  }

  /** What is left when each resource of `ks` is marked, and destroyed if nothing holds it. */
  ghost function Torn(s: Store, ks: set<Key>): Store {
    map k | k in s && !(k in ks && s[k].fins == {}) :: if k in ks then Marked(s[k]) else s[k]
  }

  /** `s'` is `s` after some part of the teardown of `ks`, whatever call failed on the way. */
  ghost predicate Unwinds(s: Store, s': Store, ks: set<Key>) {
    && s'.Keys <= s.Keys
    && (forall k :: k in s && k !in s' ==> s[k].fins == {})
    && (forall k :: k in s && k !in ks ==> k in s' && s'[k] == s[k])
    && (forall k :: k in s' && k in ks ==> s'[k] == s[k] || s'[k] == Marked(s[k]))
  }

  ghost predicate TearEffect(s: Store, s': Store, ks: set<Key>, ok: bool) {
    Unwinds(s, s', ks) && (ok ==> Clear(s, ks) && s' == s - ks)
  }

  /** The effect of a teardown, and over a reliable connection its exact outcome. */
  ghost predicate Tears(s: Store, s': Store, ks: set<Key>, ok: bool, reliable: bool) {
    TearEffect(s, s', ks, ok) && (reliable ==> s' == Torn(s, ks) && (ok <==> Clear(s, ks)))
  }

  lemma TearsCompose(s: Store, t: Store, u: Store, a: set<Key>, b: set<Key>, done: bool, next: bool, reliable: bool)
    requires Tears(s, t, a, done, reliable) && Tears(t, u, b, next, reliable)
    ensures Tears(s, u, a + b, done && next, reliable)
  {
    UnwindsCompose(s, t, u, a, b, a + b);
    TornCompose(s, a, b);
    if done && next { assert s - a - b == s - (a + b); }
  }

  lemma TornCompose(s: Store, a: set<Key>, b: set<Key>)
    ensures Torn(Torn(s, a), b) == Torn(s, a + b)
    ensures Clear(s, a) ==> Torn(s, a) == s - a
    ensures Clear(s, a + b) <==> Clear(s, a) && Clear(Torn(s, a), b)
  {
  }

  lemma UnwindsCompose(s: Store, t: Store, u: Store, a: set<Key>, b: set<Key>, c: set<Key>)
    requires Unwinds(s, t, a) && Unwinds(t, u, b) && a <= c && b <= c
    ensures Unwinds(s, u, c)
  {
  }

  /** Omni has let go of everything that is being torn down. */
  ghost predicate Settled(s: Store) {
    forall k :: k in s && s[k].phase == TearingDown ==> s[k].fins == {}
  }

  /** Omni releases every finalizer it holds on a resource being torn down. */
  ghost function Settle(s: Store): Store {
    map k | k in s :: if s[k].phase == TearingDown then s[k].(fins := {}) else s[k]
  }

  /** Whether a call gets through; over a reliable connection it always does. */
  method Reach(reliable: bool) returns (up: bool)
    ensures reliable ==> up
  {
    up := *;
    up := up || reliable;
  }

  /** The client's view of the store. `reliable` says that no call is lost on the way. */
  class State {
    var store: Store
    const reliable: bool

    constructor (reliable: bool)
      ensures store == map[] && this.reliable == reliable
    {
      this.store := map[];
      this.reliable := reliable;
    }

    method Get(k: Key) returns (r: Result<Resource>)
      ensures r.Ok? ==> k in store && r.value == store[k]
      ensures r == Err(NotFound) ==> k !in store
      ensures r.Err? ==> r.error in {NotFound, Unavailable}
      ensures reliable ==> r != Err(Unavailable)
    {
      var up := Reach(reliable);
      if !up { return Err(Unavailable); }
      return if k in store then Ok(store[k]) else Err(NotFound);
    }

    /** The keys whose resource passes `query`, in the server's own order. */
    method List(query: (Key, Resource) -> bool) returns (r: Result<seq<Key>>)
      ensures r.Ok? ==> Distinct(r.value) && Elems(r.value) == set k | k in store && query(k, store[k])
      ensures r.Err? ==> r.error == Unavailable
      ensures reliable ==> r.Ok?
    {
      var up := Reach(reliable);
      if !up { return Err(Unavailable); }
      var left := set k | k in store && query(k, store[k]);
      ghost var all := left;
      var ids: seq<Key> := [];
      while left != {}
        invariant Elems(ids) !! left && all == Elems(ids) + left && Distinct(ids)
        decreases left
      {
        var k :| k in left;
        Snoc(ids, k);
        left, ids := left - {k}, ids + [k];
      }
      return Ok(ids);
    }

    method Create(k: Key, labels: Labels, body: Body, origin: Origin) returns (r: Result<()>)
      modifies this`store
      ensures r.Ok? ==> k !in old(store) && store == old(store)[k := Fresh(labels, body, origin)]
      ensures r.Err? ==> store == old(store) && r.error in {Conflict, Unavailable}
      ensures r == Err(Conflict) ==> k in store
      ensures reliable ==> (r.Ok? <==> k !in old(store)) && r != Err(Unavailable)
    {
      var up := Reach(reliable);
      if !up { return Err(Unavailable); }
      if k in store { return Err(Conflict); }
      store := store[k := Resource(0, Running, {}, labels, body, origin)];
      return Ok(());
    }

    /** An update is refused on a resource that is being torn down. */
    method Update(k: Key, labels: Labels, body: Body) returns (r: Result<()>)
      modifies this`store
      ensures r.Ok? ==>
        && k in old(store) && old(store)[k].phase == Running
        && store == old(store)[k := Written(old(store)[k], body).(labels := labels)]
      ensures r.Err? ==> store == old(store) && r.error in {NotFound, PhaseConflict, Unavailable}
      ensures reliable ==> (r.Ok? <==> k in old(store) && old(store)[k].phase == Running)
      ensures reliable && r.Err? ==> r.error == if k in old(store) then PhaseConflict else NotFound
      ensures r == Err(PhaseConflict) ==> k in store && store[k].phase == TearingDown
    {
      var up := Reach(reliable);
      if !up { return Err(Unavailable); }
      if k !in store { return Err(NotFound); }
      if store[k].phase == TearingDown { return Err(PhaseConflict); }
      store := store[k := store[k].(labels := labels, body := body, rev := store[k].rev + 1)];
      return Ok(());
    }

    /** Marks the resource; the value says whether nothing holds it any more. */
    method Teardown(k: Key) returns (r: Result<bool>)
      modifies this`store
      ensures r.Ok? ==>
        && k in old(store) && store == old(store)[k := Marked(old(store)[k])]
        && r.value == (old(store)[k].fins == {})
      ensures r.Err? ==> store == old(store) && r.error in {NotFound, Unavailable}
      ensures r == Err(NotFound) ==> k !in store
      ensures reliable ==> r != Err(Unavailable)
    {
      var up := Reach(reliable);
      if !up { return Err(Unavailable); }
      if k !in store { return Err(NotFound); }
      var ready := store[k].fins == {};
      if store[k].phase == Running {
        store := store[k := store[k].(phase := TearingDown, rev := store[k].rev + 1)];
      }
      return Ok(ready);
    }

    method Destroy(k: Key) returns (r: Result<()>)
      modifies this`store
      ensures r.Ok? ==> k in old(store) && old(store)[k].fins == {} && store == old(store) - {k}
      ensures r.Err? ==> store == old(store) && r.error in {NotFound, FinalizersHeld, Unavailable}
      ensures reliable && r.Err? ==> r.error == if k in store then FinalizersHeld else NotFound
      ensures r == Err(NotFound) ==> k !in store
      ensures reliable && k in old(store) && old(store)[k].fins == {} ==> r.Ok?
    {
      var up := Reach(reliable);
      if !up { return Err(Unavailable); }
      if k !in store { return Err(NotFound); }
      if store[k].fins != {} { return Err(FinalizersHeld); }
      store := store - {k};
      return Ok(());
    }

    /** Teardown, then Destroy once nothing holds the resource; a missing one is already gone.
        While something still holds it the caller is told to retry. */
    method TeardownAndDestroy(k: Key) returns (r: Result<()>)
      modifies this`store
      ensures Tears(old(store), store, {k}, r.Ok?, reliable)
      ensures r.Err? && k in old(store) ==> k in store
      ensures r.Err? ==> r.error in {InProgress, FinalizersHeld, Unavailable} && (reliable ==> r.error == InProgress)
    {
      var ready := Teardown(k);
      if ready.Err? {
        if ready.error == NotFound { return Ok(()); }
        return Err(ready.error);
      }
      if !ready.value { return Err(InProgress); }
      var gone := Destroy(k);
      if gone.Err? && gone.error != NotFound { return gone; }
      return Ok(());
    }
  }
}
