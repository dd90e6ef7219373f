/** Per-usage key and token parameters, and the values shipped with the service. */
module Config {
  import opened Time

  type Usage = string

  /** Algorithm names a configuration can carry; only the first ten are registered. */
  datatype Alg =
    | EdDSA
    | ES256 | ES384 | ES512
    | RS256 | RS384 | RS512 | PS256 | PS384 | PS512
    | OtherAlg(name: string)

  /** Asymmetric algorithms only: the generator and preset registries hold exactly these. */
  predicate Registered(alg: Alg) {
    !alg.OtherAlg?
  }

  datatype KeyTerms = KeyTerms(ttl: Duration, rotation: Duration, cache: Duration, unknownKeyIdInterval: Duration)

  datatype TokenTerms = TokenTerms(ttl: Duration, issuer: string, audience: string, subject: string, leeway: Duration)

  datatype UsageConfig = UsageConfig(alg: Alg, key: KeyTerms, token: TokenTerms)

  type KeysConfig = map<Usage, UsageConfig>

  predicate NonNegativeTerms(k: KeyTerms) {
    0 <= k.rotation && 0 <= k.ttl
  }

  predicate NonNegative(config: KeysConfig) {
    forall u :: u in config ==> NonNegativeTerms(config[u].key)
  }

  /**
   How old, on the running clock, a key is before another one is made: the rotation interval, or
   the lifetime in whole seconds if that is shorter, since an expired key is not seen.
   */
  function AgedGap(k: KeyTerms): int {
    if k.rotation <= FloorSecond(k.ttl) then k.rotation else FloorSecond(k.ttl)
  }

  /** The distance that leaves between two stored creation times. */
  function StoredGap(k: KeyTerms): int {
    RoundToSecond(AgedGap(k))
  }

  /** The lifetime, in whole seconds, covers a rotation. */
  predicate LifetimeCoversRotation(k: KeyTerms) {
    k.rotation <= FloorSecond(k.ttl)
  }

  /** The stored distance is the interval or more exactly when neither rounding takes anything from it. */
  lemma StoredGapCoversInterval(k: KeyTerms)
    requires NonNegativeTerms(k)
    ensures StoredGap(k) >= k.rotation <==> LifetimeCoversRotation(k) && RoundToSecond(k.rotation) >= k.rotation
    ensures Whole(k.rotation) && k.rotation <= k.ttl ==> AgedGap(k) == k.rotation == StoredGap(k)
  {
    FloorFacts(k.ttl);
    FloorMonotone(k.rotation, if k.rotation <= k.ttl then k.ttl else k.rotation);
    FloorFacts(k.rotation);
    RoundWhole(FloorSecond(k.ttl));
    if Whole(k.rotation) {
      RoundWhole(k.rotation);
    }
  }

  const AUTH: UsageConfig :=
    UsageConfig(EdDSA, KeyTerms(168 * HOUR, 24 * HOUR, 30 * MINUTE, 0),
                TokenTerms(24 * HOUR, "anovel-authentication", "anovel-client", "user-access", 5 * MINUTE))

  const AUTH_REFRESH: UsageConfig :=
    UsageConfig(EdDSA, KeyTerms(720 * HOUR, 168 * HOUR, 30 * MINUTE, 0),
                TokenTerms(168 * HOUR, "anovel-authentication", "anovel-client", "user-refresh", 5 * MINUTE))

  const SHIPPED: KeysConfig := map["auth" := AUTH, "auth-refresh" := AUTH_REFRESH]
}
