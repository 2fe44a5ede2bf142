/** The kubeconfig Secret and when its token is replaced (controllers/omnicluster_controller.go,
    controllers/omni_client.go). Times are nanoseconds; the annotation holds whole seconds. */
module Kubeconfig {
  import opened Ids
  import opened Cosi
  import opened Kube

  const DAY := 86400 * NANOS
  const REFRESH_INTERVAL := 30 * DAY
  const TOKEN_LIFE := 90 * DAY

  datatype Token = Token(minted: nat)

  /** `refreshedAt` is the annotation, None when it is absent or does not parse. */
  datatype Secret = Secret(data: map<string, Token>, refreshedAt: Option<nat>)

  predicate NeedsRefresh(secret: Option<Secret>, dataKey: string, now: nat) {
    || secret.None?
    || dataKey !in secret.value.data
    || secret.value.refreshedAt.None?
    || now - secret.value.refreshedAt.value * NANOS >= REFRESH_INTERVAL
  }

  /** The annotation never claims the token to be younger than it is. */
  ghost predicate Honest(secret: Option<Secret>, dataKey: string) {
    secret.Some? && dataKey in secret.value.data && secret.value.refreshedAt.Some? ==>
      secret.value.refreshedAt.value * NANOS <= secret.value.data[dataKey].minted
  }

  /** The stored token at time `at`, if there is one, is younger than `age`. */
  ghost predicate TokenWithin(secret: Option<Secret>, dataKey: string, at: nat, age: nat) {
    secret.Some? && dataKey in secret.value.data && at - secret.value.data[dataKey].minted < age
  }

  class SecretWriter {
    var secret: Option<Secret>
    const reliable: bool

    constructor (reliable: bool)
      ensures secret == None && this.reliable == reliable
    {
      secret := None;
      this.reliable := reliable;
    }

    /** One pass: `now` is the clock at its start, `later` the clock when the token is minted. The
        value says whether the Secret was written. */
    method EnsureSecret(dataKey: string, now: nat, later: nat) returns (r: Result<bool>)
      requires now <= later
      modifies this`secret
      ensures r == Ok(false) ==> !NeedsRefresh(secret, dataKey, now)
      ensures r != Ok(true) ==> secret == old(secret)
      ensures r == Ok(true) ==>
        && NeedsRefresh(old(secret), dataKey, now)
        && secret == Some(Secret(map[dataKey := Token(later)], Some(Seconds(now))))
      ensures reliable ==> r.Ok?
    {
      var up := Reach(reliable);
      if !up { return Err(Unavailable); }
      if !NeedsRefresh(secret, dataKey, now) { return Ok(false); }
      up := Reach(reliable);
      if !up { return Err(Unavailable); }
      var token := Token(later);
      up := Reach(reliable);
      if !up { return Err(Unavailable); }
      secret := Some(Secret(map[dataKey := token], Some(Seconds(now))));
      return Ok(true);
    }
  }

  /** A pass over a ready cluster that succeeded, as the contract above describes it: the clock at its
      start, when a token would be minted, and when the Secret would be written. */
  datatype Pass = Pass(now: nat, later: nat, written: nat)

  ghost predicate Passes(was: Option<Secret>, p: Pass, is_: Option<Secret>, dataKey: string) {
    && p.now <= p.later <= p.written
    && is_ == if NeedsRefresh(was, dataKey, p.now)
              then Some(Secret(map[dataKey := Token(p.later)], Some(Seconds(p.now))))
              else was
  }

  ghost predicate IsRun(secrets: seq<Option<Secret>>, passes: seq<Pass>, dataKey: string, gap: nat) {
    && |secrets| == |passes| + 1
    && (forall i :: 0 <= i < |passes| ==> Passes(secrets[i], passes[i], secrets[i + 1], dataKey))
    && (forall i :: 0 < i < |passes| ==>
          passes[i - 1].written <= passes[i].now && passes[i].written <= passes[i - 1].now + gap)
  }

  lemma PassKeepsHonest(was: Option<Secret>, p: Pass, is_: Option<Secret>, dataKey: string)
    requires Honest(was, dataKey) && Passes(was, p, is_, dataKey)
    ensures Honest(is_, dataKey)
  {
  }

  lemma PassLeavesYoung(was: Option<Secret>, p: Pass, is_: Option<Secret>, dataKey: string, at: nat, gap: nat)
    requires Honest(was, dataKey) && Passes(was, p, is_, dataKey) && p.written <= at <= p.now + gap
    ensures TokenWithin(is_, dataKey, at, REFRESH_INTERVAL + gap)
  {
  }

  lemma {:induction false} RunKeepsHonest(secrets: seq<Option<Secret>>, passes: seq<Pass>, dataKey: string, gap: nat, i: nat)
    requires IsRun(secrets, passes, dataKey, gap) && Honest(secrets[0], dataKey) && i < |secrets|
    ensures Honest(secrets[i], dataKey)
  {
    if i > 0 {
      RunKeepsHonest(secrets, passes, dataKey, gap, i - 1);
      PassKeepsHonest(secrets[i - 1], passes[i - 1], secrets[i], dataKey);
    }
  }

  /** From the write of any pass to the write of the next one, no more than `gap` after the start of this
      one, the stored token is younger than the refresh interval plus the gap. In nanoseconds, 60 days are
      5_184_000_000_000_000 and the 90 days of a token's life 7_776_000_000_000_000. */
  lemma TokenStaysYoung(secrets: seq<Option<Secret>>, passes: seq<Pass>, dataKey: string, gap: nat, i: nat, at: nat)
    requires IsRun(secrets, passes, dataKey, gap) && Honest(secrets[0], dataKey) && i < |passes|
    requires passes[i].written <= at <= passes[i].now + gap
    ensures TokenWithin(secrets[i + 1], dataKey, at, REFRESH_INTERVAL + gap)
    ensures gap <= 5_184_000_000_000_000 ==> TokenWithin(secrets[i + 1], dataKey, at, 7_776_000_000_000_000)
  {
    RunKeepsHonest(secrets, passes, dataKey, gap, i);
    PassLeavesYoung(secrets[i], passes[i], secrets[i + 1], dataKey, at, gap);
  }

  /** Until the next pass has written: its window lies within the one above. */
  lemma TokenUntilNextWrite(secrets: seq<Option<Secret>>, passes: seq<Pass>, dataKey: string, gap: nat, i: nat, at: nat)
    requires IsRun(secrets, passes, dataKey, gap) && Honest(secrets[0], dataKey) && i + 1 < |passes|
    requires passes[i].written <= at <= passes[i + 1].written
    ensures TokenWithin(secrets[i + 1], dataKey, at, REFRESH_INTERVAL + gap)
  {
    TokenStaysYoung(secrets, passes, dataKey, gap, i, at);
  }

  /** What a write leaves behind stands until the next one. */
  lemma {:induction false} RefreshedSince(secrets: seq<Option<Secret>>, passes: seq<Pass>, dataKey: string, gap: nat, i: nat, j: nat)
    requires IsRun(secrets, passes, dataKey, gap) && i < j <= |passes| && NeedsRefresh(secrets[i], dataKey, passes[i].now)
    ensures secrets[j].Some? && dataKey in secrets[j].value.data
    ensures secrets[j].value.refreshedAt.Some? && secrets[j].value.refreshedAt.value >= Seconds(passes[i].now)
    ensures passes[i].now <= passes[j - 1].now
  {
    if i < j - 1 { RefreshedSince(secrets, passes, dataKey, gap, i, j - 1); }
  }

  /** Tokens are minted sparingly: two passes that fetch one are more than 30 days less one second apart. */
  lemma FetchesAreSpaced(secrets: seq<Option<Secret>>, passes: seq<Pass>, dataKey: string, gap: nat, i: nat, j: nat)
    requires IsRun(secrets, passes, dataKey, gap) && i < j < |passes|
    requires NeedsRefresh(secrets[i], dataKey, passes[i].now) && NeedsRefresh(secrets[j], dataKey, passes[j].now)
    ensures passes[j].now - passes[i].now > 2_592_000_000_000_000 - 1_000_000_000
  {
    RefreshedSince(secrets, passes, dataKey, gap, i, j);
  }

  /** Passes that far apart keep every token from expiring exactly when the gap is at most 60 days. */
  lemma SixtyDaysIsTheLimit(dataKey: string, gap: nat)
    ensures
      (forall was, p, is_, at ::
         Honest(was, dataKey) && Passes(was, p, is_, dataKey) && p.written <= at <= p.now + gap ==>
         TokenWithin(is_, dataKey, at, 7_776_000_000_000_000))
      <==> gap <= 5_184_000_000_000_000
  {
    if gap <= 60 * DAY {
      forall was, p, is_, at | Honest(was, dataKey) && Passes(was, p, is_, dataKey) && p.written <= at <= p.now + gap
        ensures TokenWithin(is_, dataKey, at, TOKEN_LIFE)
      {
        PassLeavesYoung(was, p, is_, dataKey, at, gap);
      }
    } else {
      var s := Some(Secret(map[dataKey := Token(0)], Some(0)));
      var p := Pass(REFRESH_INTERVAL - 1, REFRESH_INTERVAL - 1, REFRESH_INTERVAL - 1);
      assert Honest(s, dataKey) && Passes(s, p, s, dataKey);
      assert !TokenWithin(s, dataKey, p.now + gap, TOKEN_LIFE);
    }
  }
}
