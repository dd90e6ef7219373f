/** What the two caches and the rotation schedule together guarantee about tokens, in every run. */
module TokenLife {
  import opened Wrappers
  import opened Time
  import opened Config
  import opened KeyTable
  import opened Protocol
  import opened Sources
  import opened Lifecycle
  import opened Spacing

  /** Some job that began no more than `period` before state `f` has committed by then. */
  ghost predicate RotatedWithin(r: Run, f: nat, period: int)
    requires f < |r.states|
  {
    exists c: nat, j: JobId ::
      CommittedBefore(r, c, j, f) && DbAt(r, f).clock - r.states[c].store.jobs[j].start <= period
  }

  ghost predicate CommittedBefore(r: Run, c: nat, j: JobId, f: nat) {
    && c < f < |r.states| && c < |r.events|
    && r.events[c] == Store(Commit(j)) && j in r.states[c].store.jobs
  }

  /** Rotation was never more than `period` behind during the `window` before state `i`. */
  ghost predicate OnSchedule(r: Run, i: nat, window: int, period: int)
    requires i < |r.states|
  {
    forall f: nat :: f <= i && DbAt(r, i).clock < DbAt(r, f).clock + window ==> RotatedWithin(r, f, period)
  }

  /** No key of the usage that was fresh at `from`, or made since, has been revoked. Older ones may have been. */
  ghost predicate RecentUnrevoked(d: Db, u: Usage, k: KeyTerms, from: Time) {
    forall id :: id in d.rows && d.rows[id].usage == u && d.rows[id].created + Freshness(k) > from ==>
                   d.rows[id].deleted.None?
  }

  /** What a token costs the key that signed it: one interval, the rotation period, the cache and the token's life. */
  function TokenSpan(c: UsageConfig, period: int): int {
    Freshness(c.key) + period + c.key.cache + c.token.ttl + c.token.leeway
  }

  /**
   The key lifetime, in whole seconds, covers that span. The two strict inequalities in it, a key
   younger than an interval and a set younger than the cache duration, give one nanosecond back.
   */
  predicate LifetimeCovers(c: UsageConfig, period: int) {
    FloorSecond(c.key.ttl) + 1 >= TokenSpan(c, period)
  }

  predicate SaneTerms(c: UsageConfig) {
    0 < c.key.cache && 0 <= c.token.ttl && 0 <= c.token.leeway
  }

  /**
   The circumstances of a signature at event `i`: sound terms, rotation on schedule, and no revocation
   so far of a key made in the last interval, rotation period and cache duration together.
   */
  ghost predicate SignedOnSchedule(p: Params, r: Run, i: nat, period: int)
    requires i < |r.events| && i < |r.states| && r.events[i].Sign? && SysEnabled(p, r.states[i], r.events[i])
  {
    var u := r.states[i].sources[r.events[i].source].usage;
    && SaneTerms(p.config[u]) && LifetimeCovers(p.config[u], period)
    && OnSchedule(r, i, p.config[u].key.cache, period)
    && RecentUnrevoked(DbAt(r, i), u, p.config[u].key, DbAt(r, i).clock - p.config[u].key.cache - period)
  }

  lemma CommitFresh(p: Params, s: State, j: JobId, u: Usage)
    requires AllJobsOk(p, s.db, s.jobs) && Enabled(p, s, Commit(j)) && u in p.config
    ensures FreshKey(After(p, s, Commit(j)).db.rows, p.config[u].key, u, s.jobs[j].start)
  {
    assert JobOk(p, s.db, s.jobs[j]);
    assert DoneFresh(p, s.db, s.jobs[j]);
  }

  lemma CommitStepFresh(p: Params, r: Run, c: nat, j: JobId, f: nat, u: Usage)
    requires IsRun(p, r) && NonNegative(p.config) && CommittedBefore(r, c, j, f) && u in p.config
    ensures FreshKey(DbAt(r, c + 1).rows, p.config[u].key, u, r.states[c].store.jobs[j].start)
  {
    assert IsStep(p, r, c);
    assert AllJobsOk(p, DbAt(r, c), r.states[c].store.jobs) by { RunInv(p, r, c); }
    CommitFresh(p, r.states[c].store, j, u);
  }

  /** A committed job leaves a key of every usage that is less than one interval older than the job's start. */
  lemma CommitLeavesFreshKey(p: Params, r: Run, c: nat, j: JobId, f: nat, u: Usage)
    requires IsRun(p, r) && NonNegative(p.config) && CommittedBefore(r, c, j, f) && u in p.config
    ensures FreshKey(DbAt(r, f).rows, p.config[u].key, u, r.states[c].store.jobs[j].start)
  {
    CommitStepFresh(p, r, c, j, f, u);
    History(p, r, c + 1, f);
    FreshCarries(DbAt(r, c + 1).rows, DbAt(r, f).rows, p.config[u].key, u, r.states[c].store.jobs[j].start);
  }

  /** In a table with a fresh unrevoked key, the head of a search lasts at least as long as that key. */
  lemma FreshHeadLasts(p: Params, d: Db, u: Usage, since: Time, period: int, keys: seq<Row>)
    requires 0 <= d.clock && RowsOk(p, d) && u in p.config && FreshKey(d.rows, p.config[u].key, u, since)
    requires d.clock - since <= period && RecentUnrevoked(d, u, p.config[u].key, d.clock - period)
    requires SaneTerms(p.config[u]) && LifetimeCovers(p.config[u], period)
    requires IsSearch(d.rows, u, d.clock, KEYS_MAX_BATCH_SIZE, keys)
    ensures |keys| > 0
    ensures var k := p.config[u].key; keys[0].expires > d.clock + FloorSecond(k.ttl) - Freshness(k) - period
  {
    var id :| id in d.rows && d.rows[id].usage == u && d.rows[id].created + Freshness(p.config[u].key) > since;
    assert RowOk(p, d.clock, id, d.rows[id]);
    assert Matches(d.rows, u, d.clock, id);
    HeadIsNewest(d.rows, u, d.clock, KEYS_MAX_BATCH_SIZE, keys, id);
    assert Matches(d.rows, u, d.clock, keys[0].id);
    assert RowOk(p, d.clock, keys[0].id, d.rows[keys[0].id]);
  }

  /**
   With recent rotation, and no recent key revoked, a search finds a key, and the head of what it finds
   lasts for the lifetime less one interval and the rotation period: for the cache and the token's life.
   */
  lemma HeadLasts(p: Params, r: Run, f: nat, u: Usage, keys: seq<Row>, period: int)
    requires IsRun(p, r) && NonNegative(p.config) && f < |r.states| && u in p.config
    requires RotatedWithin(r, f, period)
    requires RecentUnrevoked(DbAt(r, f), u, p.config[u].key, DbAt(r, f).clock - period)
    requires SaneTerms(p.config[u]) && LifetimeCovers(p.config[u], period)
    requires IsSearch(DbAt(r, f).rows, u, DbAt(r, f).clock, KEYS_MAX_BATCH_SIZE, keys)
    ensures |keys| > 0
    ensures var k := p.config[u].key; keys[0].expires > DbAt(r, f).clock + FloorSecond(k.ttl) - Freshness(k) - period
    ensures var c := p.config[u]; keys[0].expires >= DbAt(r, f).clock + c.key.cache + c.token.ttl + c.token.leeway
  {
    var c: nat, j: JobId :| CommittedBefore(r, c, j, f) && DbAt(r, f).clock - r.states[c].store.jobs[j].start <= period;
    CommitLeavesFreshKey(p, r, c, j, f, u);
    assert RowsOk(p, DbAt(r, f)) && 0 <= DbAt(r, f).clock by { RunInv(p, r, f); }
    FreshHeadLasts(p, DbAt(r, f), u, r.states[c].store.jobs[j].start, period, keys);
  }

  ghost predicate Unrevoked(d: Db, kid: KeyId) {
    kid in d.rows ==> d.rows[kid].deleted.None?
  }

  /**
   Every token stays verifiable for its whole life. If during the cache window before a signature
   rotation was never more than `period` behind, and no recent key of the usage had been revoked by
   then, the key the signer used is still active whenever the token may be presented, up to its expiry
   plus leeway, unless that very key is revoked.
   */
  lemma SigningKeyOutlivesToken(p: Params, r: Run, i: nat, m: nat, kid: KeyId, period: int) returns (u: Usage)
    requires IsRun(p, r) && NonNegative(p.config) && i < |r.events| && i <= m < |r.states|
    requires SignsWith(p, r.states[i], r.events[i], kid)
    requires SignedOnSchedule(p, r, i, period) && Unrevoked(DbAt(r, m), kid)
    requires var c := p.config[r.states[i].sources[r.events[i].source].usage];
             DbAt(r, m).clock <= DbAt(r, i).clock + c.token.ttl + c.token.leeway
    ensures u == r.states[i].sources[r.events[i].source].usage
    ensures Matches(DbAt(r, m).rows, u, DbAt(r, m).clock, kid)
  {
    var e := r.events[i];
    u := r.states[i].sources[e.source].usage;
    var batch := SignerSet(p, r.states[i], e.source, e.fetch).value;
    var f, keys := UsedSetOrigin(p, r, i, e.source, batch);
    History(p, r, f, i);
    HeadLasts(p, r, f, u, keys, period);
    assert Matches(DbAt(r, f).rows, u, DbAt(r, f).clock, keys[0].id);
    History(p, r, f, m);
    History(p, r, i, m);
  }

  /** Under the same schedule a signer whose fetch works always has a key to sign with. */
  lemma SignerNeverStarves(p: Params, r: Run, i: nat, period: int)
    requires IsRun(p, r) && NonNegative(p.config) && i < |r.events| && SysEnabled(p, r.states[i], r.events[i])
    requires r.events[i].Sign? && r.events[i].fetch.Some?
    requires SignedOnSchedule(p, r, i, period)
    ensures exists kid :: SignsWith(p, r.states[i], r.events[i], kid)
  {
    var e := r.events[i];
    var u := r.states[i].sources[e.source].usage;
    var batch := SignerSet(p, r.states[i], e.source, e.fetch).value;
    var f, keys := UsedSetOrigin(p, r, i, e.source, batch);
    History(p, r, f, i);
    HeadLasts(p, r, f, u, keys, period);
    assert SignsWith(p, r.states[i], e, batch.kids[0]);
  }

  /** How far behind rotation may fall under the shipped terms: 119h25m (access) and 383h25m (refresh), and 1ns. */
  lemma ShippedTolerance(period: int)
    ensures LifetimeCovers(AUTH, period) <==> period <= 119 * HOUR + 25 * MINUTE + 1
    ensures LifetimeCovers(AUTH_REFRESH, period) <==> period <= 383 * HOUR + 25 * MINUTE + 1
    ensures SaneTerms(AUTH) && SaneTerms(AUTH_REFRESH) && NonNegative(SHIPPED)
  {
    assert Whole(AUTH.key.ttl) && Whole(AUTH_REFRESH.key.ttl);
    FloorFacts(AUTH.key.ttl);
    FloorFacts(AUTH_REFRESH.key.ttl);
  }

  // ---- Verifiers against the store ----

  /** A verifier accepts a kid only if that key was active at a search less than `cache` ago, or right now. */
  lemma AcceptedKeyWasActive(p: Params, r: Run, i: nat, kid: KeyId) returns (f: nat)
    requires IsRun(p, r) && NonNegative(p.config) && i < |r.events| && Accepts(p, r.states[i], r.events[i], kid)
    ensures var u := r.states[i].sources[r.events[i].source].usage;
            && f <= i && DbAt(r, f).clock <= DbAt(r, i).clock
            && (DbAt(r, i).clock < DbAt(r, f).clock + p.config[u].key.cache || DbAt(r, i).clock == DbAt(r, f).clock)
            && Matches(DbAt(r, f).rows, u, DbAt(r, f).clock, kid)
  {
    var e := r.events[i];
    var batch := VerifierSet(p, r.states[i], e.source, kid, e.fetch).value;
    var keys;
    f, keys := UsedSetOrigin(p, r, i, e.source, batch);
    var n :| 0 <= n < |batch.kids| && batch.kids[n] == kid;
    assert Matches(DbAt(r, f).rows, r.states[i].sources[e.source].usage, DbAt(r, f).clock, keys[n].id);
  }

  /** A signer signs only with a key that was active at a search less than `cache` ago, or right now. */
  lemma SigningKeyWasActive(p: Params, r: Run, i: nat, kid: KeyId) returns (f: nat)
    requires IsRun(p, r) && NonNegative(p.config) && i < |r.events| && SignsWith(p, r.states[i], r.events[i], kid)
    ensures var u := r.states[i].sources[r.events[i].source].usage;
            && f <= i && DbAt(r, f).clock <= DbAt(r, i).clock
            && (DbAt(r, i).clock < DbAt(r, f).clock + p.config[u].key.cache || DbAt(r, i).clock == DbAt(r, f).clock)
            && Matches(DbAt(r, f).rows, u, DbAt(r, f).clock, kid)
  {
    var e := r.events[i];
    var batch := SignerSet(p, r.states[i], e.source, e.fetch).value;
    var keys;
    f, keys := UsedSetOrigin(p, r, i, e.source, batch);
    assert Matches(DbAt(r, f).rows, r.states[i].sources[e.source].usage, DbAt(r, f).clock, keys[0].id);
  }

  /** The bound on active keys is within the limit of a search, so that a fetch lists every active key. */
  predicate FetchIsComplete(slots: nat, k: KeyTerms) {
    0 < StoredGap(k) && ActiveBound(slots, k) <= KEYS_MAX_BATCH_SIZE
  }

  /** What a verifier decides, exactly: it accepts a kid of a warm set, or one active right now that it may fetch. */
  lemma VerifierDecides(p: Params, r: Run, i: nat, source: SourceId, kid: KeyId, fetch: Option<seq<Row>>)
    requires IsRun(p, r) && NonNegative(p.config) && i < |r.states| && Callable(p, r.states[i], source, true, fetch)
    requires FetchIsComplete(p.slots, p.config[r.states[i].sources[source].usage].key)
    ensures var src, now := r.states[i].sources[source], DbAt(r, i).clock;
            Accepts(p, r.states[i], Verify(source, kid, fetch), kid) <==>
            || (Warm(PolicyOf(p, src), src.cached, now) && kid in src.cached.value.kids)
            || (fetch.Some? && Matches(DbAt(r, i).rows, src.usage, now, kid)
                && MayFetch(PolicyOf(p, src), src.cached, now))
  {
    var src := r.states[i].sources[source];
    if fetch.Some? {
      SearchIsComplete(p, r, i, src.usage, fetch.value);
      assert kid in ActiveIds(DbAt(r, i), src.usage) <==> Matches(DbAt(r, i).rows, src.usage, DbAt(r, i).clock, kid);
    }
    FindsExactly(PolicyOf(p, src), src.cached, DbAt(r, i).clock, FetchedIds(fetch), kid);
  }

  /** Event `f` fetched the set the source holds at state `i`. */
  ghost predicate LastFetch(r: Run, i: nat, source: SourceId, f: nat)
    requires i < |r.states| && source in r.states[i].sources
  {
    var cached := r.states[i].sources[source].cached;
    && f < i && f < |r.events| && cached.Some? && DbAt(r, f).clock == cached.value.at
    && exists keys :: Fetches(r.events[f], source, keys) && cached.value.kids == Ids(keys)
  }

  /** A key active now is in the set a source holds exactly if it was committed when that set was fetched. */
  lemma HeldSinceFetch(p: Params, r: Run, i: nat, source: SourceId, kid: KeyId) returns (f: nat)
    requires IsRun(p, r) && NonNegative(p.config) && i < |r.states| && source in r.states[i].sources
    requires var src := r.states[i].sources[source];
             && src.cached.Some? && src.usage in p.config && FetchIsComplete(p.slots, p.config[src.usage].key)
    ensures LastFetch(r, i, source, f)
    ensures var src := r.states[i].sources[source];
            Matches(DbAt(r, i).rows, src.usage, DbAt(r, i).clock, kid) ==>
              (kid in src.cached.value.kids <==> kid in DbAt(r, f).rows)
  {
    var src := r.states[i].sources[source];
    var keys;
    f, keys := BatchOrigin(p, r, i, source);
    SearchIsComplete(p, r, f, src.usage, keys);
    History(p, r, f, i);
    assert kid in ActiveIds(DbAt(r, f), src.usage) <==> Matches(DbAt(r, f).rows, src.usage, DbAt(r, f).clock, kid);
  }

  /** The source holds a warm set fetched when the key was already committed, or it may fetch and the fetch works. */
  ghost predicate Reaches(p: Params, r: Run, i: nat, source: SourceId, kid: KeyId, fetch: Option<seq<Row>>, f: nat)
    requires i < |r.states| && source in r.states[i].sources && r.states[i].sources[source].usage in p.config
  {
    var src, now := r.states[i].sources[source], DbAt(r, i).clock;
    || (Warm(PolicyOf(p, src), src.cached, now) && f < |r.states| && kid in DbAt(r, f).rows)
    || (fetch.Some? && MayFetch(PolicyOf(p, src), src.cached, now))
  }

  /**
   Which verifiers accept a key that is active right now, exactly: with a working fetch it is refused
   only by a warm source, inside the unknown-kid interval, whose last fetch `f` came before the key.
   */
  lemma ActiveKeyIsAccepted(p: Params, r: Run, i: nat, source: SourceId, kid: KeyId, fetch: Option<seq<Row>>)
    returns (f: nat)
    requires IsRun(p, r) && NonNegative(p.config) && i < |r.states| && Callable(p, r.states[i], source, true, fetch)
    requires FetchIsComplete(p.slots, p.config[r.states[i].sources[source].usage].key)
    requires Matches(DbAt(r, i).rows, r.states[i].sources[source].usage, DbAt(r, i).clock, kid)
    ensures r.states[i].sources[source].cached.Some? ==> LastFetch(r, i, source, f)
    ensures Accepts(p, r.states[i], Verify(source, kid, fetch), kid) <==> Reaches(p, r, i, source, kid, fetch, f)
  {
    VerifierDecides(p, r, i, source, kid, fetch);
    if r.states[i].sources[source].cached.Some? {
      f := HeldSinceFetch(p, r, i, source, kid);
    } else {
      f := 0;
    }
  }

  /**
   Signing, rotation and verification together: throughout a token's life its verifiers accept its
   key under exactly that condition. Every warm verifier that fetched after the signature meets it, and
   so does every verifier that may fetch and whose fetch works.
   */
  lemma TokenIsAcceptedForLife(
    p: Params, r: Run, i: nat, m: nat, kid: KeyId, period: int, verifier: SourceId, fetch: Option<seq<Row>>)
    returns (f: nat)
    requires IsRun(p, r) && NonNegative(p.config) && i < |r.events| && i <= m < |r.states|
    requires SignsWith(p, r.states[i], r.events[i], kid) && Callable(p, r.states[m], verifier, true, fetch)
    requires SignedOnSchedule(p, r, i, period) && Unrevoked(DbAt(r, m), kid)
    requires r.states[m].sources[verifier].usage == r.states[i].sources[r.events[i].source].usage
    requires var c := p.config[r.states[m].sources[verifier].usage];
             && FetchIsComplete(p.slots, c.key)
             && DbAt(r, m).clock <= DbAt(r, i).clock + c.token.ttl + c.token.leeway
    ensures r.states[m].sources[verifier].cached.Some? ==> LastFetch(r, m, verifier, f)
    ensures Accepts(p, r.states[m], Verify(verifier, kid, fetch), kid) <==> Reaches(p, r, m, verifier, kid, fetch, f)
    ensures r.states[m].sources[verifier].cached.Some? && DbAt(r, i).clock < DbAt(r, f).clock ==> kid in DbAt(r, f).rows
  {
    var u := SigningKeyOutlivesToken(p, r, i, m, kid, period);
    f := ActiveKeyIsAccepted(p, r, m, verifier, kid, fetch);
    if r.states[m].sources[verifier].cached.Some? && DbAt(r, i).clock < DbAt(r, f).clock {
      SignedKeyIsCommitted(p, r, i, kid, f);
    }
  }

  /** The key of a signature is in the table at every state that is later on the clock. */
  lemma SignedKeyIsCommitted(p: Params, r: Run, i: nat, kid: KeyId, f: nat)
    requires IsRun(p, r) && NonNegative(p.config) && i < |r.events| && SignsWith(p, r.states[i], r.events[i], kid)
    requires f < |r.states| && DbAt(r, i).clock < DbAt(r, f).clock
    ensures kid in DbAt(r, f).rows
  {
    var g := SigningKeyWasActive(p, r, i, kid);
    if f <= i {
      History(p, r, f, i);
    } else {
      History(p, r, g, f);
    }
  }

  /** A kid used to sign under one usage is accepted under no other. */
  lemma NoCrossUsage(p: Params, r: Run, i: nat, m: nat, kid: KeyId)
    requires IsRun(p, r) && NonNegative(p.config) && i < |r.events| && m < |r.events|
    requires SignsWith(p, r.states[i], r.events[i], kid) && Accepts(p, r.states[m], r.events[m], kid)
    ensures r.states[i].sources[r.events[i].source].usage == r.states[m].sources[r.events[m].source].usage
  {
    var f := SigningKeyWasActive(p, r, i, kid);
    var g := AcceptedKeyWasActive(p, r, m, kid);
    if f <= g {
      History(p, r, f, g);
    } else {
      History(p, r, g, f);
    }
  }

  // ---- When a key stops being used ----

  /** The event has a source sign with, or accept, the kid. */
  ghost predicate Uses(p: Params, r: Run, i: nat, kid: KeyId)
    requires i < |r.events| && i < |r.states|
  {
    SignsWith(p, r.states[i], r.events[i], kid) || Accepts(p, r.states[i], r.events[i], kid)
  }

  ghost function CacheAt(p: Params, r: Run, i: nat, kid: KeyId): int
    requires i < |r.events| && i < |r.states| && Uses(p, r, i, kid)
  {
    p.config[r.states[i].sources[r.events[i].source].usage].key.cache
  }

  lemma UsedKeyWasActive(p: Params, r: Run, i: nat, kid: KeyId) returns (f: nat)
    requires IsRun(p, r) && NonNegative(p.config) && i < |r.events| && Uses(p, r, i, kid)
    ensures f <= i
    ensures DbAt(r, i).clock < DbAt(r, f).clock + CacheAt(p, r, i, kid) || DbAt(r, i).clock == DbAt(r, f).clock
    ensures kid in DbAt(r, f).rows && ActiveAt(DbAt(r, f).rows[kid], DbAt(r, f).clock)
  {
    if SignsWith(p, r.states[i], r.events[i], kid) {
      f := SigningKeyWasActive(p, r, i, kid);
    } else {
      f := AcceptedKeyWasActive(p, r, i, kid);
    }
  }

  /** A key is used less than one cache duration past its stored expiry. */
  lemma ExpiredKeyIsDropped(p: Params, r: Run, i: nat, kid: KeyId)
    requires IsRun(p, r) && NonNegative(p.config) && i < |r.events| && Uses(p, r, i, kid) && 0 <= CacheAt(p, r, i, kid)
    ensures kid in DbAt(r, i).rows && DbAt(r, i).clock < DbAt(r, i).rows[kid].expires + CacheAt(p, r, i, kid)
  {
    var f := UsedKeyWasActive(p, r, i, kid);
    History(p, r, f, i);
  }

  ghost predicate RevokesAt(r: Run, x: nat, kid: KeyId) {
    x < |r.events| && x < |r.states| && r.events[x].Store? && r.events[x].event.Revoke? && r.events[x].event.id == kid
  }

  /**
   After a revocation at event `x` a key is used less than one cache duration past the later of two
   moments: the stored `deleted_at`, and the revocation itself.
   */
  lemma RevokedKeyIsDropped(p: Params, r: Run, x: nat, i: nat, kid: KeyId)
    requires IsRun(p, r) && NonNegative(p.config) && x < i < |r.events| && RevokesAt(r, x, kid)
    requires Uses(p, r, i, kid) && 0 < CacheAt(p, r, i, kid)
    ensures var deleted := RoundToSecond(r.events[x].event.now);
            || DbAt(r, i).clock < deleted + CacheAt(p, r, i, kid)
            || DbAt(r, i).clock < DbAt(r, x).clock + CacheAt(p, r, i, kid)
  {
    var f := UsedKeyWasActive(p, r, i, kid);
    if f <= x {
      History(p, r, f, x);
    } else {
      assert IsStep(p, r, x);
      History(p, r, x + 1, f);
    }
  }

  /** If the stored `deleted_at` is not earlier than the revocation, it alone bounds the use of the key. */
  lemma TimelyRevocationIsDropped(p: Params, r: Run, x: nat, i: nat, kid: KeyId)
    requires IsRun(p, r) && NonNegative(p.config) && x < i < |r.events| && RevokesAt(r, x, kid)
    requires Uses(p, r, i, kid) && 0 < CacheAt(p, r, i, kid)
    requires DbAt(r, x).clock <= RoundToSecond(r.events[x].event.now)
    ensures DbAt(r, i).clock < RoundToSecond(r.events[x].event.now) + CacheAt(p, r, i, kid)
  {
    RevokedKeyIsDropped(p, r, x, i, kid);
  }

  /** The use of a kid by a source: a verifier looks it up, a signer takes the head of its list. */
  function UseOf(source: SourceId, verifier: bool, kid: KeyId, fetch: Option<seq<Row>>): SysEvent {
    if verifier then Verify(source, kid, fetch) else Sign(source, fetch)
  }

  /** The source is about to fetch a list that holds the kid, at its head if the source signs. */
  ghost predicate AboutToFetch(p: Params, s: Sys, source: SourceId, keys: seq<Row>, kid: KeyId) {
    && source in s.sources && Callable(p, s, source, s.sources[source].verifier, Some(keys))
    && !Warm(PolicyOf(p, s.sources[source]), s.sources[source].cached, s.store.db.clock)
    && (if s.sources[source].verifier then kid in Ids(keys) else |keys| > 0 && keys[0].id == kid)
  }

  /** A source keeps using what it fetched, without another fetch, while the set is warm. */
  lemma WarmUse(p: Params, s: Sys, source: SourceId, kid: KeyId)
    requires source in s.sources && s.sources[source].usage in p.config
    requires var src := s.sources[source];
             && Warm(PolicyOf(p, src), src.cached, s.store.db.clock)
             && (if src.verifier then kid in src.cached.value.kids
                 else |src.cached.value.kids| > 0 && src.cached.value.kids[0] == kid)
    ensures var e := UseOf(source, s.sources[source].verifier, kid, None);
            SysEnabled(p, s, e) && (SignsWith(p, s, e, kid) || Accepts(p, s, e, kid))
  {
  }

  /** What the source holds once it has fetched. */
  lemma FetchedUse(p: Params, s: Sys, source: SourceId, keys: seq<Row>, kid: KeyId)
    requires AboutToFetch(p, s, source, keys, kid) && 0 < p.config[s.sources[source].usage].key.cache
    ensures var e := UseOf(source, s.sources[source].verifier, kid, Some(keys));
            && SysEnabled(p, s, e)
            && SysAfter(p, s, e) == Remember(s, source, Some(Batch(s.store.db.clock, Ids(keys))))
  {
  }

  /**
   The condition above is the exact one, for signers and for verifiers. Take any run that reaches a
   moment when a source is about to fetch a key, and that key is then revoked with a stamp that is
   stored as an earlier moment: the run continues to a use of the key at or past `deleted_at` plus
   the cache duration.
   */
  lemma EarlyStampIsOutlived(
    p: Params, r: Run, source: SourceId, keys: seq<Row>, kid: KeyId, stamp: Time, comment: string)
    returns (r': Run, i: nat)
    requires IsRun(p, r) && AboutToFetch(p, r.states[|r.events|], source, keys, kid)
    requires var s := r.states[|r.events|];
             && 0 < p.config[s.sources[source].usage].key.cache
             && Revocable(s.store.db.rows, kid, s.store.db.clock)
             && RoundToSecond(stamp) < s.store.db.clock
    ensures IsRun(p, r') && i < |r'.events| && Uses(p, r', i, kid)
    ensures r'.events[i] == UseOf(source, r.states[|r.events|].sources[source].verifier, kid, None)
    ensures kid in DbAt(r', i).rows && DbAt(r', i).rows[kid].deleted == Some(RoundToSecond(stamp))
    ensures DbAt(r', i).clock >= RoundToSecond(stamp) + CacheAt(p, r', i, kid)
  {
    var s := r.states[|r.events|];
    var now, verifier := s.store.db.clock, s.sources[source].verifier;
    var cache := p.config[s.sources[source].usage].key.cache;
    FetchedUse(p, s, source, keys, kid);
    var r1 := Extend(p, r, UseOf(source, verifier, kid, Some(keys)));
    var r2 := Extend(p, r1, Store(Revoke(kid, stamp, now, comment)));
    var r3 := Extend(p, r2, Store(Tick(now + cache - 1)));
    var s3 := r3.states[|r3.events|];
    assert s3.sources[source] == s.sources[source].(cached := Some(Batch(now, Ids(keys))));
    WarmUse(p, s3, source, kid);
    r' := Extend(p, r3, UseOf(source, verifier, kid, None));
    i := |r3.events|;
    assert r'.states[i] == s3;
  }
}
