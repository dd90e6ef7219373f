/** `JwkGen` and `JwkRotateAll`, run against a table inside one transaction. */
module KeyGen {
  import opened Wrappers
  import opened Time
  import opened Config
  import opened KeyTable
  import opened Issuance
  import opened Base64
  import opened MasterKey
  import opened Extract
  import opened Transport

  /** A generator's output; `kid` is its key id once parsed, or nothing when it does not parse. */
  datatype GeneratedKey = GeneratedKey(priv: Jwk, pub: Option<Jwk>, kid: Option<KeyId>)

  /** What the outside world answers during one generation: clock readings, randomness, failures. */
  datatype Attempt = Attempt(
    searchFails: bool, checkedAt: Time, generated: Option<GeneratedKey>, nonce: Option<Nonce>,
    insertedAt: Time, insertFails: bool)

  datatype Env = Env(crypto: Crypto, ctx: Context, config: KeysConfig, txStart: Time)

  /** No active key of the usage is younger than the interval. */
  ghost predicate Due(rows: Rows, usage: Usage, txStart: Time, now: Time, rotation: Duration) {
    forall id :: Matches(rows, usage, txStart, id) ==> Since(rows[id].created, now) >= rotation
  }

  ghost predicate IsDue(env: Env, rows: Rows, usage: Usage, a: Attempt) {
    usage in env.config && Due(rows, usage, env.txStart, a.checkedAt, env.config[usage].key.rotation)
  }

  /** Testing the head of the list is testing every active key, an empty list included. */
  lemma OverdueMeansDue(rows: Rows, usage: Usage, txStart: Time, keys: seq<Row>, now: Time, rotation: Duration)
    requires Keyed(rows) && IsSearch(rows, usage, txStart, KEYS_MAX_BATCH_SIZE, keys) && 0 <= now
    ensures Overdue(keys, now, rotation) <==> Due(rows, usage, txStart, now, rotation)
  {
    forall id | Matches(rows, usage, txStart, id) ensures |keys| > 0 && rows[id].created <= keys[0].created {
      HeadIsNewest(rows, usage, txStart, KEYS_MAX_BATCH_SIZE, keys, id);
    }
    if |keys| > 0 {
      assert Matches(rows, usage, txStart, keys[0].id);
    }
  }

  /** Everything a due generation needs, apart from a working search and a known usage. */
  predicate Generatable(env: Env, a: Attempt) {
    && a.generated.Some? && a.generated.value.kid.Some?
    && env.ctx.masterKey.Some? && a.nonce.Some?
    && Storable(env.crypto, a.generated.value.priv, a.generated.value.pub)
  }

  /** The first thing, in the order the code meets them, that keeps a generation from succeeding. */
  function ObstacleGiven(env: Env, usage: Usage, a: Attempt, due: bool, taken: bool): Option<Error> {
    if a.searchFails then Some(SearchFailed)
    else if usage !in env.config then Some(ConfigNotFound)
    else if !due then None
    else if !Registered(env.config[usage].alg) then Some(UnknownKeyUsage)
    else if a.generated.None? then Some(GenerateFailed)
    else if env.ctx.masterKey.None? then Some(InvalidMasterKey)
    else if env.crypto.marshal(a.generated.value.priv).None? then Some(SerializeFailed)
    else if a.nonce.None? then Some(RandomFailed)
    else if a.generated.value.kid.None? then Some(BadKeyId)
    else if !Storable(env.crypto, a.generated.value.priv, a.generated.value.pub) then Some(SerializeFailed)
    else if a.insertFails || taken then Some(InsertFailed)
    else None
  }

  function KidOf(a: Attempt): KeyId {
    if a.generated.Some? && a.generated.value.kid.Some? then a.generated.value.kid.value else 0
  }

  ghost function Obstacle(env: Env, rows: Rows, usage: Usage, a: Attempt): Option<Error> {
    ObstacleGiven(env, usage, a, IsDue(env, rows, usage, a), KidOf(a) in rows)
  }

  function Minted(env: Env, usage: Usage, a: Attempt): Row
    requires Generatable(env, a) && usage in env.config
  {
    var g := a.generated.value;
    MintedRow(g.kid.value, StoredPrivate(env.crypto, env.ctx.masterKey.value, a.nonce.value, g.priv),
              StoredPublic(env.crypto, g.pub), usage, a.insertedAt, env.config[usage].key.ttl)
  }

  /** The active key the skip branch returns: the newest, and younger than the interval. */
  ghost predicate Current(env: Env, rows: Rows, usage: Usage, a: Attempt, id: KeyId) {
    && usage in env.config
    && Matches(rows, usage, env.txStart, id)
    && Since(rows[id].created, a.checkedAt) < env.config[usage].key.rotation
    && forall other :: Matches(rows, usage, env.txStart, other) ==> rows[other].created <= rows[id].created
  }

  /**
   What one generation may do. An obstacle is reported and nothing is written; a due usage gets the
   generated key, stored under its id, and its private half back; any other usage gets its current
   key as stored.
   */
  ghost predicate GenOutcome(env: Env, before: Rows, usage: Usage, a: Attempt, r: Result<Jwk, Error>, after: Rows) {
    match Obstacle(env, before, usage, a)
    case Some(error) => r == Err(error) && after == before
    case None =>
      if IsDue(env, before, usage, a) then
        && Generatable(env, a) && (Lawful(env.crypto) ==> r == Ok(a.generated.value.priv))
        && KidOf(a) !in before && after == before[KidOf(a) := Minted(env, usage, a)]
      else
        && after == before
        && exists id :: Current(env, before, usage, a, id) && r == ExtractKey(env.crypto, env.ctx, before[id], true)
  }

  /** The age test passes on the list that was read. */
  predicate ListDue(env: Env, usage: Usage, a: Attempt, keys: seq<Row>) {
    usage in env.config && Overdue(keys, a.checkedAt, env.config[usage].key.rotation)
  }

  /**
   What a generation may do once it has read its list, whatever others have committed since: the list
   and the clock reading decide, and the table matters only as the place of the insert.
   */
  ghost predicate ListOutcome(
    env: Env, before: Rows, usage: Usage, a: Attempt, keys: seq<Row>, r: Result<Jwk, Error>, after: Rows)
  {
    match ObstacleGiven(env, usage, a, ListDue(env, usage, a, keys), KidOf(a) in before)
    case Some(error) => r == Err(error) && after == before
    case None =>
      if ListDue(env, usage, a, keys) then
        && Generatable(env, a) && (Lawful(env.crypto) ==> r == Ok(a.generated.value.priv))
        && KidOf(a) !in before && after == before[KidOf(a) := Minted(env, usage, a)]
      else
        after == before && |keys| > 0 && r == ExtractKey(env.crypto, env.ctx, keys[0], true)
  }

  /** Both halves of the generated pair can be had back from the row. */
  predicate GivesBack(env: Env, row: Row, g: GeneratedKey) {
    && ExtractKey(env.crypto, env.ctx, row, true) == Ok(g.priv)
    && ExtractKey(env.crypto, env.ctx, row, false) == (if g.pub.None? then Err(NoPublicKey) else Ok(g.pub.value))
  }

  /** Reads the newest key, and generates only once the rotation window has elapsed. */
  method JwkGen(table: Table, env: Env, usage: Usage, a: Attempt) returns (r: Result<Jwk, Error>)
    requires Keyed(table.rows) && 0 <= a.checkedAt
    modifies table
    ensures Keyed(table.rows)
    ensures GenOutcome(env, old(table.rows), usage, a, r, table.rows)
    ensures a.searchFails ==> r == Err(SearchFailed) && table.rows == old(table.rows)
    ensures !a.searchFails && usage !in env.config ==> r == Err(ConfigNotFound) && table.rows == old(table.rows)
    ensures !a.searchFails && usage in env.config
            && !Due(old(table.rows), usage, env.txStart, a.checkedAt, env.config[usage].key.rotation) ==>
              && table.rows == old(table.rows)
              && exists id :: && id in table.rows && table.rows[id].usage == usage
                              && table.rows[id].expires > env.txStart
                              && (table.rows[id].deleted.None? || table.rows[id].deleted.value > env.txStart)
                              && Since(table.rows[id].created, a.checkedAt) < env.config[usage].key.rotation
                              && r == ExtractKey(env.crypto, env.ctx, table.rows[id], true)
    ensures !a.searchFails && usage in env.config
            && Due(old(table.rows), usage, env.txStart, a.checkedAt, env.config[usage].key.rotation) ==>
              (var c, before := env.config[usage], old(table.rows);
               if c.alg.OtherAlg? then r == Err(UnknownKeyUsage) && table.rows == before
               else if a.generated.None? then r == Err(GenerateFailed) && table.rows == before
               else
                 var g := a.generated.value;
                 if env.ctx.masterKey.None? then r == Err(InvalidMasterKey) && table.rows == before
                 else if env.crypto.marshal(g.priv).None? then r == Err(SerializeFailed) && table.rows == before
                 else if a.nonce.None? then r == Err(RandomFailed) && table.rows == before
                 else if g.kid.None? then r == Err(BadKeyId) && table.rows == before
                 else if g.pub.Some? && env.crypto.marshal(g.pub.value).None? then
                   r == Err(SerializeFailed) && table.rows == before
                 else if a.insertFails || g.kid.value in before then r == Err(InsertFailed) && table.rows == before
                 else
                   && g.kid.value in table.rows && table.rows == before[g.kid.value := table.rows[g.kid.value]]
                   && var row := table.rows[g.kid.value];
                      && row.id == g.kid.value && row.usage == usage && row.deleted.None? && row.comment.None?
                      && row.created == RoundToSecond(a.insertedAt)
                      && row.expires == RoundToSecond(a.insertedAt + c.key.ttl)
                      && (Lawful(env.crypto) ==> r == Ok(g.priv) && GivesBack(env, row, g)))
  {
    if a.searchFails {
      return Err(SearchFailed);
    }
    var keys := table.Search(usage, env.txStart);
    ghost var before := table.rows;
    r := JwkGenFrom(table, env, usage, keys, a);
    OutcomeOfSearch(env, before, usage, a, keys, r, table.rows);
    if usage in env.config {
      OverdueMeansDue(before, usage, env.txStart, keys, a.checkedAt, env.config[usage].key.rotation);
    }
  }

  /** A generated pair, ready to be stored. */
  datatype EncodedKey = EncodedKey(kid: KeyId, priv: string, pub: Option<string>)

  /** Between the age test and the insert: look up the generator, generate, encrypt and encode. */
  method NewEncodedKey(env: Env, alg: Alg, a: Attempt) returns (r: Result<EncodedKey, Error>)
    ensures if alg.OtherAlg? then r == Err(UnknownKeyUsage)
            else if a.generated.None? then r == Err(GenerateFailed)
            else
              var g := a.generated.value;
              if env.ctx.masterKey.None? then r == Err(InvalidMasterKey)
              else if env.crypto.marshal(g.priv).None? then r == Err(SerializeFailed)
              else if a.nonce.None? then r == Err(RandomFailed)
              else if g.kid.None? then r == Err(BadKeyId)
              else if g.pub.Some? && env.crypto.marshal(g.pub.value).None? then r == Err(SerializeFailed)
              else
                && r.Ok? && r.value.kid == g.kid.value && r.value.priv != ""
                && r.value.priv == StoredPrivate(env.crypto, env.ctx.masterKey.value, a.nonce.value, g.priv)
                && r.value.pub == StoredPublic(env.crypto, g.pub)
  {
    if !Registered(alg) {
      return Err(UnknownKeyUsage);
    }
    if a.generated.None? {
      return Err(GenerateFailed);
    }
    var g := a.generated.value;
    var encrypted := EncryptMasterKey(env.crypto, env.ctx, g.priv, a.nonce);
    if encrypted.Err? {
      return Err(encrypted.error);
    }
    var privateKeyEncoded := Encode(encrypted.value);
    if g.kid.None? {
      return Err(BadKeyId);
    }
    var publicKeyEncoded := None;
    if g.pub.Some? {
      var publicKeySerialized := env.crypto.marshal(g.pub.value);
      if publicKeySerialized.None? {
        return Err(SerializeFailed);
      }
      publicKeyEncoded := Some(Encode(publicKeySerialized.value));
    }
    StoredPrivateIsNotEmpty(env.crypto, env.ctx.masterKey.value, a.nonce.value, g.priv);
    return Ok(EncodedKey(g.kid.value, privateKeyEncoded, publicKeyEncoded));
  }

  /** The rest of it, from the list the search answered: the table may have moved on in the meantime. */
  method JwkGenFrom(table: Table, env: Env, usage: Usage, keys: seq<Row>, a: Attempt) returns (r: Result<Jwk, Error>)
    requires Keyed(table.rows) && 0 <= a.checkedAt && !a.searchFails
    modifies table
    ensures Keyed(table.rows)
    ensures ListOutcome(env, old(table.rows), usage, a, keys, r, table.rows)
    ensures usage !in env.config ==> r == Err(ConfigNotFound) && table.rows == old(table.rows)
    ensures usage in env.config && Since(LastCreated(keys), a.checkedAt) < env.config[usage].key.rotation ==>
              |keys| > 0 && r == ExtractKey(env.crypto, env.ctx, keys[0], true) && table.rows == old(table.rows)
    ensures usage in env.config && Since(LastCreated(keys), a.checkedAt) >= env.config[usage].key.rotation ==>
              (var c, before := env.config[usage], old(table.rows);
               if c.alg.OtherAlg? then r == Err(UnknownKeyUsage) && table.rows == before
               else if a.generated.None? then r == Err(GenerateFailed) && table.rows == before
               else
                 var g := a.generated.value;
                 if env.ctx.masterKey.None? then r == Err(InvalidMasterKey) && table.rows == before
                 else if env.crypto.marshal(g.priv).None? then r == Err(SerializeFailed) && table.rows == before
                 else if a.nonce.None? then r == Err(RandomFailed) && table.rows == before
                 else if g.kid.None? then r == Err(BadKeyId) && table.rows == before
                 else if g.pub.Some? && env.crypto.marshal(g.pub.value).None? then
                   r == Err(SerializeFailed) && table.rows == before
                 else if a.insertFails || g.kid.value in before then r == Err(InsertFailed) && table.rows == before
                 else
                   && g.kid.value in table.rows && table.rows == before[g.kid.value := table.rows[g.kid.value]]
                   && var row := table.rows[g.kid.value];
                      && row.id == g.kid.value && row.usage == usage && row.deleted.None? && row.comment.None?
                      && row.created == RoundToSecond(a.insertedAt)
                      && row.expires == RoundToSecond(a.insertedAt + c.key.ttl)
                      && (Lawful(env.crypto) ==> r == Ok(g.priv) && GivesBack(env, row, g)))
  {
    ghost var before := table.rows;
    var lastCreated := ZERO_TIME;
    if |keys| > 0 {
      lastCreated := keys[0].created;
    }
    if usage !in env.config {
      return Err(ConfigNotFound);
    }
    var keyConfig := env.config[usage];
    var latestKey: Row;
    if Since(lastCreated, a.checkedAt) >= keyConfig.key.rotation {
      var encoded := NewEncodedKey(env, keyConfig.alg, a);
      if encoded.Err? {
        return Err(encoded.error);
      }
      if a.insertFails {
        return Err(InsertFailed);
      }
      var inserted :=
        table.Insert(
          encoded.value.kid, encoded.value.priv, encoded.value.pub, usage, a.insertedAt,
          a.insertedAt + keyConfig.key.ttl);
      if inserted.Err? {
        return Err(inserted.error);
      }
      latestKey := inserted.value;
      GeneratedOutcome(env, before, usage, a, keys, ExtractKey(env.crypto, env.ctx, latestKey, true), table.rows);
    } else {
      SkipOnlyRecent(keys, a.checkedAt, keyConfig.key.rotation);
      latestKey := keys[0];
    }
    r := JwkExtract(env.crypto, env.ctx, latestKey, true);
  }

  lemma GeneratedOutcome(
    env: Env, before: Rows, usage: Usage, a: Attempt, keys: seq<Row>, r: Result<Jwk, Error>, after: Rows)
    requires ObstacleGiven(env, usage, a, true, KidOf(a) in before).None? && ListDue(env, usage, a, keys)
    requires Generatable(env, a) && after == before[KidOf(a) := Minted(env, usage, a)]
    requires r == ExtractKey(env.crypto, env.ctx, Minted(env, usage, a), true)
    ensures ListOutcome(env, before, usage, a, keys, r, after)
    ensures Lawful(env.crypto) ==> GivesBack(env, Minted(env, usage, a), a.generated.value)
  {
    var g := a.generated.value;
    if Lawful(env.crypto) {
      StorageRoundTrip(
        env.crypto, env.ctx.masterKey.value, a.nonce.value, g.priv, g.pub, Minted(env, usage, a), env.ctx);
    }
  }

  /** When the list is what a search of this very table answers, the outcome is that of the table. */
  lemma OutcomeOfSearch(
    env: Env, before: Rows, usage: Usage, a: Attempt, keys: seq<Row>, r: Result<Jwk, Error>, after: Rows)
    requires Keyed(before) && 0 <= a.checkedAt && !a.searchFails
    requires IsSearch(before, usage, env.txStart, KEYS_MAX_BATCH_SIZE, keys)
    requires ListOutcome(env, before, usage, a, keys, r, after)
    ensures GenOutcome(env, before, usage, a, r, after)
  {
    if usage in env.config {
      OverdueMeansDue(before, usage, env.txStart, keys, a.checkedAt, env.config[usage].key.rotation);
      if !ListDue(env, usage, a, keys) {
        SkipOnlyRecent(keys, a.checkedAt, env.config[usage].key.rotation);
        CurrentHead(env, before, usage, a, keys);
      }
    }
  }

  lemma CurrentHead(env: Env, rows: Rows, usage: Usage, a: Attempt, keys: seq<Row>)
    requires Keyed(rows) && usage in env.config && |keys| > 0
    requires IsSearch(rows, usage, env.txStart, KEYS_MAX_BATCH_SIZE, keys)
    requires Since(keys[0].created, a.checkedAt) < env.config[usage].key.rotation
    ensures Current(env, rows, usage, a, keys[0].id) && rows[keys[0].id] == keys[0]
  {
    assert Matches(rows, usage, env.txStart, keys[0].id);
    forall other | Matches(rows, usage, env.txStart, other) ensures rows[other].created <= keys[0].created {
      HeadIsNewest(rows, usage, env.txStart, KEYS_MAX_BATCH_SIZE, keys, other);
    }
  }

  // ---- All usages in one transaction ----

  ghost predicate Generates(env: Env, rows: Rows, attempts: map<Usage, Attempt>, u: Usage) {
    u in attempts && IsDue(env, rows, u, attempts[u]) && Generatable(env, attempts[u])
  }

  /**
   `after` is `before` plus one minted row for each usage of `done` that was due in `before`. The
   order in which usages are taken does not occur in it.
   */
  ghost predicate IsRotation(env: Env, before: Rows, attempts: map<Usage, Attempt>, done: set<Usage>, after: Rows) {
    && (forall u :: u in done ==> u in attempts && Obstacle(env, before, u, attempts[u]).None?)
    && (forall id :: id in before ==> id in after && after[id] == before[id])
    && (forall u :: u in done && Generates(env, before, attempts, u) ==>
                      KidOf(attempts[u]) in after && after[KidOf(attempts[u])] == Minted(env, u, attempts[u]))
    && (forall id :: id in after && id !in before ==>
                       exists u :: u in done && Generates(env, before, attempts, u) && id == KidOf(attempts[u]))
  }

  /** The outcome does not depend on the order in which the configuration map is walked. */
  lemma RotationIsOrderFree(
    env: Env, before: Rows, attempts: map<Usage, Attempt>, done: set<Usage>, after: Rows, after': Rows)
    requires IsRotation(env, before, attempts, done, after) && IsRotation(env, before, attempts, done, after')
    ensures after == after'
  {
  }

  lemma NewRowsAreOfDone(env: Env, before: Rows, attempts: map<Usage, Attempt>, done: set<Usage>, after: Rows)
    requires IsRotation(env, before, attempts, done, after)
    ensures forall id :: id in after && id !in before ==> after[id].usage in done
  {
    forall id | id in after && id !in before ensures after[id].usage in done {
      var v :| v in done && Generates(env, before, attempts, v) && id == KidOf(attempts[v]);
      assert after[id] == Minted(env, v, attempts[v]);
    }
  }

  /** Rows of other usages do not matter to a usage. */
  lemma OtherUsagesDoNotMatter(
    env: Env, before: Rows, attempts: map<Usage, Attempt>, done: set<Usage>, after: Rows, u: Usage, a: Attempt)
    requires IsRotation(env, before, attempts, done, after) && u !in done
    ensures forall id :: Matches(after, u, env.txStart, id) <==> Matches(before, u, env.txStart, id)
    ensures IsDue(env, after, u, a) == IsDue(env, before, u, a)
  {
    NewRowsAreOfDone(env, before, attempts, done, after);
    forall id ensures Matches(after, u, env.txStart, id) <==> Matches(before, u, env.txStart, id) {}
  }

  /** One more usage handled. */
  lemma RotationGrows(
    env: Env, before: Rows, attempts: map<Usage, Attempt>, done: set<Usage>, after: Rows, u: Usage, after': Rows)
    requires IsRotation(env, before, attempts, done, after) && u !in done && u in attempts
    requires Obstacle(env, after, u, attempts[u]).None?
    requires if IsDue(env, after, u, attempts[u])
             then Generatable(env, attempts[u]) && KidOf(attempts[u]) !in after
                  && after' == after[KidOf(attempts[u]) := Minted(env, u, attempts[u])]
             else after' == after
    ensures IsRotation(env, before, attempts, done + {u}, after')
  {
    OtherUsagesDoNotMatter(env, before, attempts, done, after, u, attempts[u]);
    forall id | id in after' && id !in before
      ensures exists v :: v in done + {u} && Generates(env, before, attempts, v) && id == KidOf(attempts[v])
    {
      if id in after {
        var v :| v in done && Generates(env, before, attempts, v) && id == KidOf(attempts[v]);
        assert v in done + {u};
      } else {
        assert Generates(env, before, attempts, u) && u in done + {u};
      }
    }
  }

  /** After a rotation every usage has a key that was young when checked, or the one just made. */
  lemma RotationCovers(env: Env, before: Rows, attempts: map<Usage, Attempt>, done: set<Usage>, after: Rows, u: Usage)
    returns (id: KeyId)
    requires IsRotation(env, before, attempts, done, after) && u in done
    ensures u in env.config && id in after && after[id].usage == u
    ensures || (Generatable(env, attempts[u]) && after[id] == Minted(env, u, attempts[u]))
            || (Matches(before, u, env.txStart, id)
                && Since(after[id].created, attempts[u].checkedAt) < env.config[u].key.rotation)
  {
    if IsDue(env, before, u, attempts[u]) {
      assert Generates(env, before, attempts, u);
      id := KidOf(attempts[u]);
    } else {
      id :| && Matches(before, u, env.txStart, id)
            && Since(before[id].created, attempts[u].checkedAt) < env.config[u].key.rotation;
    }
  }

  /** Nothing stands in the way of any usage, due usages get different ids, and active keys can be read. */
  ghost predicate AllClear(env: Env, rows: Rows, attempts: map<Usage, Attempt>) {
    && Lawful(env.crypto)
    && (forall u :: u in env.config ==> u in attempts && Obstacle(env, rows, u, attempts[u]).None?)
    && (forall u, v :: u in env.config && v in env.config && u != v
                       && Generates(env, rows, attempts, u) && Generates(env, rows, attempts, v) ==>
                         KidOf(attempts[u]) != KidOf(attempts[v]))
    && (forall id, u :: Matches(rows, u, env.txStart, id) && u in env.config ==>
                          ExtractKey(env.crypto, env.ctx, rows[id], true).Ok?)
  }

  /** The error is that of a usage whose turn failed, after the turns of some others had gone through. */
  ghost predicate FailedAt(env: Env, before: Rows, attempts: map<Usage, Attempt>, error: Error) {
    exists done, sofar, u, after ::
      && IsRotation(env, before, attempts, done, sofar) && u in env.config && u in attempts && u !in done
      && GenOutcome(env, sofar, u, attempts[u], Err(error), after)
  }

  /** One turn of the loop. */
  method RotateOne(
    table: Table, env: Env, attempts: map<Usage, Attempt>, usage: Usage, ghost before: Rows, ghost done: set<Usage>)
    returns (generated: Result<Jwk, Error>)
    requires Keyed(table.rows) && usage in env.config && usage in attempts && 0 <= attempts[usage].checkedAt
    requires usage !in done && done <= env.config.Keys && IsRotation(env, before, attempts, done, table.rows)
    modifies table
    ensures Keyed(table.rows)
    ensures generated.Ok? ==> IsRotation(env, before, attempts, done + {usage}, table.rows)
    ensures AllClear(env, before, attempts) ==> generated.Ok?
    ensures generated.Err? ==> FailedAt(env, before, attempts, generated.error)
  {
    ghost var sofar := table.rows;
    generated := JwkGen(table, env, usage, attempts[usage]);
    OutcomeRotates(env, before, attempts, done, sofar, usage, generated, table.rows);
  }

  /** The body of the unit of work: every configured usage, in whatever order the map yields them. */
  method RotateEach(table: Table, env: Env, attempts: map<Usage, Attempt>)
    returns (processed: nat, error: Option<Error>)
    requires Keyed(table.rows)
    requires forall u :: u in env.config ==> u in attempts && 0 <= attempts[u].checkedAt
    modifies table
    ensures Keyed(table.rows)
    ensures error.None? ==> processed == |env.config|
    ensures error.None? ==> IsRotation(env, old(table.rows), attempts, env.config.Keys, table.rows)
    ensures AllClear(env, old(table.rows), attempts) ==> error.None?
    ensures error.Some? ==> FailedAt(env, old(table.rows), attempts, error.value)
  {
    ghost var before := table.rows;
    processed := 0;
    var todo := env.config.Keys;
    ghost var done: set<Usage> := {};
    ProgressStarts(env, before, attempts);
    while todo != {}
      invariant Keyed(table.rows) && Progress(env, before, attempts, done, todo, table.rows, processed)
      decreases todo
    {
      var usage :| usage in todo;
      ghost var sofar := table.rows;
      var generated := RotateOne(table, env, attempts, usage, before, done);
      if generated.Err? {
        return processed, Some(generated.error);
      }
      ProgressGoesOn(env, before, attempts, done, todo, sofar, processed, usage, table.rows);
      processed := processed + 1;
      todo := todo - {usage};
      done := done + {usage};
    }
    ProgressEnds(env, before, attempts, done, table.rows, processed);
    return processed, None;
  }

  ghost predicate Progress(
    env: Env, before: Rows, attempts: map<Usage, Attempt>, done: set<Usage>, todo: set<Usage>, sofar: Rows,
    processed: nat)
  {
    Split(done, todo, env.config.Keys) && processed == |done| && IsRotation(env, before, attempts, done, sofar)
  }

  lemma ProgressStarts(env: Env, before: Rows, attempts: map<Usage, Attempt>)
    ensures Progress(env, before, attempts, {}, env.config.Keys, before, 0)
  {
    NothingDone(env, before, attempts);
  }

  lemma ProgressGoesOn(
    env: Env, before: Rows, attempts: map<Usage, Attempt>, done: set<Usage>, todo: set<Usage>, sofar: Rows,
    processed: nat, u: Usage, after: Rows)
    requires Progress(env, before, attempts, done, todo, sofar, processed) && u in todo
    requires IsRotation(env, before, attempts, done + {u}, after)
    ensures Progress(env, before, attempts, done + {u}, todo - {u}, after, processed + 1)
  {
    OneMoreUsage(done, todo, u, env.config.Keys);
  }

  lemma ProgressEnds(
    env: Env, before: Rows, attempts: map<Usage, Attempt>, done: set<Usage>, sofar: Rows, processed: nat)
    requires Progress(env, before, attempts, done, {}, sofar, processed)
    ensures processed == |env.config| && IsRotation(env, before, attempts, env.config.Keys, sofar)
  {
    var todo := env.config.Keys - done;
    assert todo == {};
    forall u | u in env.config.Keys ensures u in done {
      assert u !in todo;
    }
    assert done == env.config.Keys;
  }

  /** What a rotation that went through shows of its usages: nothing can have been missing. */
  lemma RotationSucceeded(env: Env, before: Rows, attempts: map<Usage, Attempt>, after: Rows)
    requires IsRotation(env, before, attempts, env.config.Keys, after)
    requires forall u :: u in env.config ==> u in attempts
    ensures forall u :: u in env.config ==> !attempts[u].searchFails
    ensures forall u :: u in env.config && IsDue(env, before, u, attempts[u]) ==>
                          && !env.config[u].alg.OtherAlg? && attempts[u].generated.Some?
                          && !attempts[u].insertFails && KidOf(attempts[u]) !in before
                          && Generatable(env, attempts[u]) && KidOf(attempts[u]) in after
  {
    forall u | u in env.config && IsDue(env, before, u, attempts[u])
      ensures Generates(env, before, attempts, u) && KidOf(attempts[u]) !in before
    {
      DueGenerates(env, before, attempts, u);
    }
  }

  /**
   One unit of work over every configured usage: an error anywhere leaves the table as it was, success
   counts every usage and amounts to the one rotation there is. It succeeds whenever nothing stands in
   the way, and only if nothing did.
   */
  method JwkRotateAll(table: Table, env: Env, attempts: map<Usage, Attempt>) returns (r: Result<nat, Error>)
    requires Keyed(table.rows)
    requires forall u :: u in env.config ==> u in attempts && 0 <= attempts[u].checkedAt
    modifies table
    ensures Keyed(table.rows)
    ensures r.Err? ==> table.rows == old(table.rows) && FailedAt(env, old(table.rows), attempts, r.error)
    ensures r.Ok? ==> r.value == |env.config| && IsRotation(env, old(table.rows), attempts, env.config.Keys, table.rows)
    ensures AllClear(env, old(table.rows), attempts) ==> r.Ok?
    ensures r.Ok? ==> forall u :: u in env.config ==> !attempts[u].searchFails
    ensures r.Ok? ==> forall u :: u in env.config && IsDue(env, old(table.rows), u, attempts[u]) ==>
                                    && !env.config[u].alg.OtherAlg? && attempts[u].generated.Some?
                                    && !attempts[u].insertFails && KidOf(attempts[u]) !in old(table.rows)
                                    && Generatable(env, attempts[u]) && KidOf(attempts[u]) in table.rows
  {
    ghost var before := table.rows;
    var snapshot := table.rows;
    var processed, error := RotateEach(table, env, attempts);
    if error.Some? {
      table.rows := snapshot;
      return Err(error.value);
    }
    RotationSucceeded(env, before, attempts, table.rows);
    return Ok(processed);
  }

  /** `todo` is what is left of `every` once `done` is taken out. */
  predicate Split(done: set<Usage>, todo: set<Usage>, every: set<Usage>) {
    done <= every && todo == every - done
  }

  lemma OneMoreUsage(done: set<Usage>, todo: set<Usage>, u: Usage, every: set<Usage>)
    requires Split(done, todo, every) && u in todo
    ensures Split(done + {u}, todo - {u}, every) && |done + {u}| == |done| + 1
  {
  }

  lemma NothingDone(env: Env, rows: Rows, attempts: map<Usage, Attempt>)
    ensures IsRotation(env, rows, attempts, {}, rows)
  {
  }

  /** What did not stand in the way of a usage at first does not later, as long as its id stays free. */
  lemma ObstacleCarries(
    env: Env, before: Rows, attempts: map<Usage, Attempt>, done: set<Usage>, sofar: Rows, u: Usage, a: Attempt)
    requires IsRotation(env, before, attempts, done, sofar) && u !in done && Obstacle(env, before, u, a).None?
    requires IsDue(env, sofar, u, a) ==> KidOf(a) !in sofar
    ensures Obstacle(env, sofar, u, a).None?
  {
    OtherUsagesDoNotMatter(env, before, attempts, done, sofar, u, a);
  }

  lemma KidStaysFree(env: Env, before: Rows, attempts: map<Usage, Attempt>, done: set<Usage>, sofar: Rows, u: Usage)
    requires AllClear(env, before, attempts) && IsRotation(env, before, attempts, done, sofar)
    requires u in env.config && u !in done && done <= env.config.Keys && IsDue(env, sofar, u, attempts[u])
    ensures KidOf(attempts[u]) !in sofar
  {
    OtherUsagesDoNotMatter(env, before, attempts, done, sofar, u, attempts[u]);
    DueGenerates(env, before, attempts, u);
    forall v | v in done && Generates(env, before, attempts, v) ensures KidOf(attempts[v]) != KidOf(attempts[u]) {}
    ForeignKidIsFree(env, before, attempts, done, sofar, u);
  }

  lemma DueGenerates(env: Env, before: Rows, attempts: map<Usage, Attempt>, u: Usage)
    requires u in attempts && Obstacle(env, before, u, attempts[u]).None? && IsDue(env, before, u, attempts[u])
    ensures Generates(env, before, attempts, u) && KidOf(attempts[u]) !in before
  {
  }

  lemma ForeignKidIsFree(
    env: Env, before: Rows, attempts: map<Usage, Attempt>, done: set<Usage>, sofar: Rows, u: Usage)
    requires IsRotation(env, before, attempts, done, sofar) && u in attempts && KidOf(attempts[u]) !in before
    requires forall v :: v in done && Generates(env, before, attempts, v) ==> KidOf(attempts[v]) != KidOf(attempts[u])
    ensures KidOf(attempts[u]) !in sofar
  {
  }

  lemma StillReadable(env: Env, before: Rows, attempts: map<Usage, Attempt>, done: set<Usage>, sofar: Rows, u: Usage)
    requires AllClear(env, before, attempts) && IsRotation(env, before, attempts, done, sofar)
    requires u in env.config && u !in done
    ensures forall id :: Matches(sofar, u, env.txStart, id) ==> ExtractKey(env.crypto, env.ctx, sofar[id], true).Ok?
  {
    OtherUsagesDoNotMatter(env, before, attempts, done, sofar, u, attempts[u]);
  }

  lemma NothingFails(
    env: Env, before: Rows, attempts: map<Usage, Attempt>, done: set<Usage>, sofar: Rows, u: Usage,
    r: Result<Jwk, Error>, after: Rows)
    requires AllClear(env, before, attempts) && IsRotation(env, before, attempts, done, sofar)
    requires u in env.config && u !in done && done <= env.config.Keys
    requires GenOutcome(env, sofar, u, attempts[u], r, after)
    ensures r.Ok?
  {
    if IsDue(env, sofar, u, attempts[u]) {
      KidStaysFree(env, before, attempts, done, sofar, u);
    }
    ObstacleCarries(env, before, attempts, done, sofar, u, attempts[u]);
    StillReadable(env, before, attempts, done, sofar, u);
  }

  /** One iteration: a success adds one usage to the rotation, and nothing fails when all is clear. */
  lemma OutcomeRotates(
    env: Env, before: Rows, attempts: map<Usage, Attempt>, done: set<Usage>, sofar: Rows, u: Usage,
    r: Result<Jwk, Error>, after: Rows)
    requires IsRotation(env, before, attempts, done, sofar) && u !in done && u in attempts && u in env.config
    requires done <= env.config.Keys && GenOutcome(env, sofar, u, attempts[u], r, after)
    ensures r.Ok? ==> IsRotation(env, before, attempts, done + {u}, after)
    ensures AllClear(env, before, attempts) ==> r.Ok?
  {
    if r.Ok? {
      RotationGrows(env, before, attempts, done, sofar, u, after);
    } else if AllClear(env, before, attempts) {
      NothingFails(env, before, attempts, done, sofar, u, r, after);
    }
  }

  /** Rotation keeps the table one of generated keys, which is what the verifier's fetch relies on. */
  lemma RotationKeepsPublished(
    env: Env, before: Rows, attempts: map<Usage, Attempt>, done: set<Usage>, after: Rows,
    pairs: map<KeyId, Jwk>, pairs': map<KeyId, Jwk>)
    requires IsRotation(env, before, attempts, done, after) && Published(env.crypto, before, pairs)
    requires forall id :: id in before ==> id in pairs' && pairs'[id] == pairs[id]
    requires forall u :: u in done && Generates(env, before, attempts, u) ==>
                           && attempts[u].generated.value.pub.Some? && KidOf(attempts[u]) in pairs'
                           && pairs'[KidOf(attempts[u])] == attempts[u].generated.value.pub.value
    ensures Published(env.crypto, after, pairs')
  {
    forall id | id in after
      ensures id in pairs' && env.crypto.marshal(pairs'[id]).Some?
      ensures after[id].pub == StoredPublic(env.crypto, Some(pairs'[id]))
    {
      if id !in before {
        var u :| u in done && Generates(env, before, attempts, u) && id == KidOf(attempts[u]);
        assert after[id] == Minted(env, u, attempts[u]);
      }
    }
  }
}
