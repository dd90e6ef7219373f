/**
 The cached key source. The library class behind it is not part of this repository: what follows
 is the contract the repository configures and documents, taken as an assumption. A fetched set
 is served until it is `cache` old; a lookup that misses may fetch again, once, if the source is
 told to and the last fetch is at least `interval` old. A fetch happens at one instant, and
 `fetch` is what it returns at that instant (nothing when it fails).
 */
module Sources {
  import opened Wrappers
  import opened Time
  import opened Config
  import opened KeyTable

  datatype Batch = Batch(at: Time, kids: seq<KeyId>)

  datatype Policy = Policy(cache: Duration, refreshOnUnknown: bool, interval: Duration)

  /** The library's interval when the configuration leaves it at zero. */
  const DEFAULT_INTERVAL: Duration := 10 * SECOND

  function PrivatePolicy(k: KeyTerms): Policy {
    Policy(k.cache, false, 0)
  }

  function PublicPolicy(k: KeyTerms): Policy {
    Policy(k.cache, true, k.unknownKeyIdInterval)
  }

  /** Signers read private sources, verifiers public ones. */
  function PolicyFor(verifier: bool, k: KeyTerms): Policy {
    if verifier then PublicPolicy(k) else PrivatePolicy(k)
  }

  function Interval(p: Policy): Duration {
    if p.interval == 0 then DEFAULT_INTERVAL else p.interval
  }

  predicate Warm(p: Policy, cached: Option<Batch>, now: Time) {
    cached.Some? && now - cached.value.at < p.cache
  }

  /** A lookup of an unknown kid may fetch: the set is no longer warm, or the unknown-kid interval has passed. */
  predicate MayFetch(p: Policy, cached: Option<Batch>, now: Time) {
    !Warm(p, cached, now) || (p.refreshOnUnknown && now - cached.value.at >= Interval(p))
  }

  /** The set a list call serves; nothing when the fetch it needs fails. */
  function Served(p: Policy, cached: Option<Batch>, now: Time, fetch: Option<seq<KeyId>>): Option<Batch> {
    if Warm(p, cached, now) then cached
    else if fetch.Some? then Some(Batch(now, fetch.value))
    else None
  }

  /** What the source holds after a call: the last set it fetched successfully. */
  function Kept(cached: Option<Batch>, served: Option<Batch>): Option<Batch> {
    if served.Some? then served else cached
  }

  predicate Refetches(p: Policy, batch: Batch, now: Time, kid: KeyId) {
    kid !in batch.kids && p.refreshOnUnknown && now - batch.at >= Interval(p)
  }

  /** The set a lookup ends up searching. */
  function Searched(p: Policy, cached: Option<Batch>, now: Time, fetch: Option<seq<KeyId>>, kid: KeyId): Option<Batch> {
    var served := Served(p, cached, now, fetch);
    if served.Some? && Refetches(p, served.value, now, kid) && fetch.Some? then Some(Batch(now, fetch.value))
    else served
  }

  predicate Finds(p: Policy, cached: Option<Batch>, now: Time, fetch: Option<seq<KeyId>>, kid: KeyId) {
    var searched := Searched(p, cached, now, fetch, kid);
    searched.Some? && kid in searched.value.kids
  }

  /** Whatever a call works on is less than `cache` old, or was fetched by that very call. */
  lemma SearchedIsRecent(p: Policy, cached: Option<Batch>, now: Time, fetch: Option<seq<KeyId>>, kid: KeyId)
    requires Searched(p, cached, now, fetch, kid).Some?
    ensures var batch := Searched(p, cached, now, fetch, kid).value;
            (cached == Some(batch) && now - batch.at < p.cache) || (fetch == Some(batch.kids) && batch.at == now)
  {
  }

  /** What a lookup finds, exactly: a kid of a warm set, or one it fetches when it may. */
  lemma FindsExactly(p: Policy, cached: Option<Batch>, now: Time, fetch: Option<seq<KeyId>>, kid: KeyId)
    ensures Finds(p, cached, now, fetch, kid) <==>
            || (Warm(p, cached, now) && kid in cached.value.kids)
            || (fetch.Some? && kid in fetch.value && MayFetch(p, cached, now))
  {
  }

  /** A key in the store right now is found whenever the unknown-kid interval has passed since the last fetch. */
  lemma FindsFetchable(p: Policy, cached: Option<Batch>, now: Time, kids: seq<KeyId>, kid: KeyId)
    requires p.refreshOnUnknown && kid in kids
    requires cached.Some? ==> now - cached.value.at >= Interval(p)
    ensures Finds(p, cached, now, Some(kids), kid)
  {
  }

  class KeySource {
    const policy: Policy
    var cached: Option<Batch>

    constructor (policy: Policy)
      ensures this.policy == policy && cached == None
    {
      this.policy := policy;
      cached := None;
    }

    method List(now: Time, fetch: Option<seq<KeyId>>) returns (kids: Option<seq<KeyId>>)
      modifies this
      ensures var served := Served(policy, old(cached), now, fetch);
              && cached == Kept(old(cached), served)
              && kids == (if served.Some? then Some(served.value.kids) else None)
      ensures var held := old(cached);
              if held.Some? && now - held.value.at < policy.cache then kids == Some(held.value.kids) && cached == held
              else if fetch.Some? then kids == fetch && cached == Some(Batch(now, fetch.value))
              else kids == None && cached == held
    {
      if cached.None? || now - cached.value.at >= policy.cache {
        if fetch.None? {
          return None;
        }
        cached := Some(Batch(now, fetch.value));
      }
      return Some(cached.value.kids);
    }

    method Get(kid: KeyId, now: Time, fetch: Option<seq<KeyId>>) returns (found: bool)
      modifies this
      ensures found <==> Finds(policy, old(cached), now, fetch, kid)
      ensures cached == Kept(old(cached), Searched(policy, old(cached), now, fetch, kid))
      ensures var held := old(cached);
              var warm := held.Some? && now - held.value.at < policy.cache;
              var interval := if policy.interval == 0 then 10_000_000_000 else policy.interval;
              var elapsed := warm && now - held.value.at >= interval;
              if warm && kid in held.value.kids then found && cached == held
              else if warm && !(policy.refreshOnUnknown && elapsed) then !found && cached == held
              else if fetch.Some? then (found <==> kid in fetch.value) && cached == Some(Batch(now, fetch.value))
              else !found && cached == held
    {
      var kids := List(now, fetch);
      if kids.None? {
        return false;
      }
      if kid !in kids.value && policy.refreshOnUnknown && now - cached.value.at >= Interval(policy) && fetch.Some? {
        cached := Some(Batch(now, fetch.value));
      }
      return kid in cached.value.kids;
    }
  }
}
