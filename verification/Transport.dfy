/** The gRPC hop between the service's key list and a verifier's source. */
module Transport {
  import opened Wrappers
  import opened Config
  import opened KeyTable
  import opened Base64
  import opened MasterKey
  import opened Extract

  datatype JwkMessage = JwkMessage(
    kty: string, use: string, keyOps: seq<string>, alg: string, kid: string, payload: seq<Byte>)

  function ToMessage(k: Jwk): JwkMessage {
    var ops := seq(|k.keyOps|, i requires 0 <= i < |k.keyOps| => k.keyOps[i].name);
    JwkMessage(k.kty.name, k.use.name, ops, k.alg.name, k.kid, k.payload)
  }

  function FromMessage(m: JwkMessage): Jwk {
    var ops := seq(|m.keyOps|, i requires 0 <= i < |m.keyOps| => KeyOp(m.keyOps[i]));
    Jwk(Kty(m.kty), KeyUse(m.use), ops, AlgName(m.alg), m.kid, m.payload)
  }

  /** The handler: any error becomes an internal one. */
  function JwkList(found: Result<seq<Jwk>, Error>): Result<seq<JwkMessage>, Error> {
    if found.Err? then Err(Internal)
    else Ok(seq(|found.value|, i requires 0 <= i < |found.value| => ToMessage(found.value[i])))
  }

  /** The client side of the same call. */
  function SearchKeysGrpc(response: Result<seq<JwkMessage>, Error>): Result<seq<Jwk>, Error> {
    if response.Err? then Err(response.error)
    else Ok(seq(|response.value|, i requires 0 <= i < |response.value| => FromMessage(response.value[i])))
  }

  lemma KeyRoundTrip(k: Jwk)
    ensures FromMessage(ToMessage(k)) == k
  {
    var ops := FromMessage(ToMessage(k)).keyOps;
    assert |ops| == |k.keyOps|;
    forall i | 0 <= i < |ops| ensures ops[i] == k.keyOps[i] {}
  }

  lemma MessageRoundTrip(m: JwkMessage)
    ensures ToMessage(FromMessage(m)) == m
  {
    var ops := ToMessage(FromMessage(m)).keyOps;
    assert |ops| == |m.keyOps|;
    forall i | 0 <= i < |ops| ensures ops[i] == m.keyOps[i] {}
  }

  /** Field by field, a message says of a key what the key says of itself. */
  lemma MessageFields(k: Jwk)
    ensures var m := ToMessage(k);
            && m.kty == k.kty.name && m.use == k.use.name && m.alg == k.alg.name
            && m.kid == k.kid && m.payload == k.payload && |m.keyOps| == |k.keyOps|
            && forall i :: 0 <= i < |m.keyOps| ==> m.keyOps[i] == k.keyOps[i].name
  {
  }

  /** The handler's list holds the keys in order, and hides what went wrong; the client passes errors on. */
  lemma ListFields(keys: seq<Jwk>, error: Error, i: nat)
    requires i < |keys|
    ensures var r := JwkList(Ok(keys));
            && r.Ok? && |r.value| == |keys| && r.value[i].kty == keys[i].kty.name && r.value[i].use == keys[i].use.name
            && r.value[i].alg == keys[i].alg.name && r.value[i].kid == keys[i].kid
            && r.value[i].payload == keys[i].payload && |r.value[i].keyOps| == |keys[i].keyOps|
            && forall n :: 0 <= n < |keys[i].keyOps| ==> r.value[i].keyOps[n] == keys[i].keyOps[n].name
    ensures JwkList(Err(error)) == Err(Internal) && SearchKeysGrpc(Err(error)) == Err(error)
  {
    MessageFields(keys[i]);
  }

  /** The two mappings undo each other on lists of any length. */
  lemma ListRoundTrip(keys: seq<Jwk>)
    ensures SearchKeysGrpc(JwkList(Ok(keys))) == Ok(keys)
  {
    var back := SearchKeysGrpc(JwkList(Ok(keys))).value;
    forall i | 0 <= i < |keys| ensures back[i] == keys[i] {
      KeyRoundTrip(keys[i]);
    }
    assert back == keys;
  }

  lemma MessagesRoundTrip(messages: seq<JwkMessage>)
    ensures JwkList(SearchKeysGrpc(Ok(messages))) == Ok(messages)
  {
    var back := JwkList(SearchKeysGrpc(Ok(messages))).value;
    forall i | 0 <= i < |messages| ensures back[i] == messages[i] {
      MessageRoundTrip(messages[i]);
    }
    assert back == messages;
  }

  /** Every row stores the public key of the pair generated under its id. */
  predicate Published(c: Crypto, rows: Rows, pairs: map<KeyId, Jwk>) {
    forall id :: id in rows ==>
                   id in pairs && c.marshal(pairs[id]).Some? && rows[id].pub == StoredPublic(c, Some(pairs[id]))
  }

  /** What a verifier's fetch returns: search, extract without authorisation, send, receive. */
  method FetchPublic(c: Crypto, ctx: Context, found: Result<seq<Row>, Error>) returns (r: Result<seq<Jwk>, Error>)
    ensures found.Err? ==> r == Err(Internal)
    ensures found.Ok? ==> (r.Ok? <==> AllExtract(c, ctx, found.value, false))
    ensures r.Ok? ==> |r.value| == |found.value|
                      && forall i :: 0 <= i < |r.value| ==> ExtractKey(c, ctx, found.value[i], false) == Ok(r.value[i])
    ensures r.Err? ==> r.error == Internal
  {
    var keys := SearchKeys(c, ctx, found, false);
    if keys.Ok? {
      ListRoundTrip(keys.value);
    }
    r := SearchKeysGrpc(JwkList(keys));
  }

  /**
   End to end: over a table of generated keys, the list a verifier receives is, in order, the
   public keys generated for the rows the search returned. No fetch of it can fail.
   */
  method FetchGenerated(c: Crypto, ctx: Context, table: Table, pairs: map<KeyId, Jwk>, usage: Usage, now: int)
    returns (rows: seq<Row>, r: Result<seq<Jwk>, Error>)
    requires Lawful(c) && Keyed(table.rows) && Published(c, table.rows, pairs)
    ensures IsSearch(table.rows, usage, now, KEYS_MAX_BATCH_SIZE, rows)
    ensures r.Ok? && |r.value| == |rows|
    ensures forall i :: 0 <= i < |rows| ==> rows[i].id in pairs && r.value[i] == pairs[rows[i].id]
  {
    rows := table.Search(usage, now);
    forall i | 0 <= i < |rows|
      ensures rows[i].id in pairs && ExtractKey(c, ctx, rows[i], false) == Ok(pairs[rows[i].id])
    {
      assert Matches(table.rows, usage, now, rows[i].id);
      DecodeEncode(c.marshal(pairs[rows[i].id]).value);
    }
    r := FetchPublic(c, ctx, Ok(rows));
  }
}
