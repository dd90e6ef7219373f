/**
 Key material at rest. JSON marshalling and the authenticated cipher are parameters, assumed only
 to be undone by their inverses; the framing around them is the service's own.
 */
module MasterKey {
  import opened Wrappers
  import opened Base64
  import Hex

  datatype Kty = Kty(name: string)
  datatype KeyUse = KeyUse(name: string)
  datatype KeyOp = KeyOp(name: string)
  datatype AlgName = AlgName(name: string)

  /** A JSON Web Key. */
  datatype Jwk = Jwk(kty: Kty, use: KeyUse, keyOps: seq<KeyOp>, alg: AlgName, kid: string, payload: seq<Byte>)

  const NONCE_LENGTH: nat := 24
  const MASTER_KEY_LENGTH: nat := 32
  /** The cipher's authentication tag. */
  const OVERHEAD: nat := 16

  type Nonce = n: seq<Byte> | |n| == NONCE_LENGTH witness seq(NONCE_LENGTH, i => 0)
  type Secret = k: seq<Byte> | |k| == MASTER_KEY_LENGTH witness seq(MASTER_KEY_LENGTH, i => 0)

  datatype Crypto = Crypto(
    seal: (seq<Byte>, Nonce, Secret) -> seq<Byte>,
    unseal: (seq<Byte>, Nonce, Secret) -> Option<seq<Byte>>,
    marshal: Jwk -> Option<seq<Byte>>,
    unmarshal: seq<Byte> -> Option<Jwk>)

  /**
   What is assumed of the cipher and of the JSON encoding. Sealing is deterministic for a given nonce,
   and the tag covers the whole ciphertext, so what opens is exactly what would be sealed again.
   */
  ghost predicate Lawful(c: Crypto) {
    && (forall m, n, k :: c.unseal(c.seal(m, n, k), n, k) == Some(m) && |c.seal(m, n, k)| == |m| + OVERHEAD)
    && (forall x, n, k :: c.unseal(x, n, k).Some? ==> c.seal(c.unseal(x, n, k).value, n, k) == x)
    && (forall j :: c.marshal(j).Some? ==> c.unmarshal(c.marshal(j).value) == Some(j))
  }

  /** The part of a request context that matters here. */
  datatype Context = Context(masterKey: Option<Secret>)

  /** Parses the hex master key into the context; the context is unchanged on error. */
  method NewMasterKeyContext(ctx: Context, raw: string) returns (r: Context, error: Option<Error>)
    ensures error == (if Hex.Decode(raw).None? then Some(Undecodable)
                      else if |Hex.Decode(raw).value| != MASTER_KEY_LENGTH then Some(InvalidMasterKey)
                      else None)
    ensures error.None? ==> r.masterKey.Some? && Hex.Decode(raw) == Some(r.masterKey.value)
    ensures error.None? ==> |raw| == 64 && |r.masterKey.value| == 32
    ensures error.Some? ==> r == ctx
  {
    var bytes := Hex.Decode(raw);
    if bytes.None? {
      return ctx, Some(Undecodable);
    }
    if |bytes.value| != MASTER_KEY_LENGTH {
      return ctx, Some(InvalidMasterKey);
    }
    Hex.DecodedLength(raw);
    var key := new Byte[MASTER_KEY_LENGTH];
    for i := 0 to MASTER_KEY_LENGTH
      invariant key[..i] == bytes.value[..i]
    {
      key[i] := bytes.value[i];
    }
    assert key[..] == bytes.value;
    return Context(Some(key[..])), None;
  }

  /** Copies the master key onto another context, if there is one to copy. */
  function TransferMasterKeyContext(base: Context, dest: Context): Context {
    if base.masterKey.None? then dest else dest.(masterKey := base.masterKey)
  }

  /** The stored form: the nonce, then the sealed document. */
  function Framed(c: Crypto, key: Secret, nonce: Nonce, document: seq<Byte>): seq<Byte> {
    nonce + c.seal(document, nonce, key)
  }

  function Unframed(c: Crypto, key: Secret, data: seq<Byte>): Result<Jwk, Error> {
    if |data| < NONCE_LENGTH + OVERHEAD then Err(InvalidCiphertext)
    else
      var message := c.unseal(data[NONCE_LENGTH..], data[..NONCE_LENGTH], key);
      if message.None? then Err(InvalidSecret)
      else
        var document := c.unmarshal(message.value);
        if document.None? then Err(Malformed) else Ok(document.value)
  }

  function Decrypted(c: Crypto, ctx: Context, data: seq<Byte>): Result<Jwk, Error> {
    if ctx.masterKey.None? then Err(InvalidMasterKey) else Unframed(c, ctx.masterKey.value, data)
  }

  method EncryptMasterKey(c: Crypto, ctx: Context, data: Jwk, random: Option<Nonce>)
    returns (r: Result<seq<Byte>, Error>)
    ensures r == (if ctx.masterKey.None? then Err(InvalidMasterKey)
                  else if c.marshal(data).None? then Err(SerializeFailed)
                  else if random.None? then Err(RandomFailed)
                  else Ok(Framed(c, ctx.masterKey.value, random.value, c.marshal(data).value)))
    ensures r.Ok? ==> && |r.value| >= 24 && r.value[..24] == random.value
                      && r.value[24..] == c.seal(c.marshal(data).value, random.value, ctx.masterKey.value)
    ensures Lawful(c) && r.Ok? ==> |r.value| == |c.marshal(data).value| + 40
    ensures Lawful(c) && r.Ok? ==> |r.value| >= NONCE_LENGTH + OVERHEAD && Decrypted(c, ctx, r.value) == Ok(data)
  {
    if ctx.masterKey.None? {
      return Err(InvalidMasterKey);
    }
    var serialized := c.marshal(data);
    if serialized.None? {
      return Err(SerializeFailed);
    }
    if random.None? {
      return Err(RandomFailed);
    }
    var nonce := new Byte[NONCE_LENGTH];
    for i := 0 to NONCE_LENGTH
      invariant nonce[..i] == random.value[..i]
    {
      nonce[i] := random.value[i];
    }
    assert nonce[..] == random.value;
    var encrypted := nonce[..] + c.seal(serialized.value, nonce[..], ctx.masterKey.value);
    if Lawful(c) {
      FrameRoundTrip(c, ctx.masterKey.value, random.value, data);
    }
    return Ok(encrypted);
  }

  /** The data is the frame of some document under this key, and that document encodes `content`. */
  ghost predicate Frames(c: Crypto, key: Secret, data: seq<Byte>, content: Option<Jwk>) {
    exists nonce: Nonce, document: seq<Byte> ::
      data == Framed(c, key, nonce, document) && c.unmarshal(document) == content
  }

  /**
   What opening stored data tells about it: a result is the content of a document framed under this
   very key, and each error says what the data is not.
   */
  ghost predicate Opened(c: Crypto, key: Secret, data: seq<Byte>, r: Result<Jwk, Error>) {
    match r
    case Ok(content) => Frames(c, key, data, Some(content))
    case Err(error) =>
      || (error == InvalidCiphertext && |data| < NONCE_LENGTH + OVERHEAD)
      || (error == InvalidSecret && |data| >= NONCE_LENGTH + OVERHEAD
          && forall nonce: Nonce, document: seq<Byte> :: data != Framed(c, key, nonce, document))
      || (error == Malformed && Frames(c, key, data, None))
  }

  method DecryptMasterKey(c: Crypto, ctx: Context, data: seq<Byte>) returns (r: Result<Jwk, Error>)
    ensures ctx.masterKey.None? ==> r == Err(InvalidMasterKey)
    ensures ctx.masterKey.Some? && |data| < 40 ==> r == Err(InvalidCiphertext)
    ensures ctx.masterKey.Some? && |data| >= 40 ==>
              (var message := c.unseal(data[24..], data[..24], ctx.masterKey.value);
               if message.None? then r == Err(InvalidSecret)
               else if c.unmarshal(message.value).None? then r == Err(Malformed)
               else r == Ok(c.unmarshal(message.value).value))
    ensures ctx.masterKey.Some? && Lawful(c) ==> Opened(c, ctx.masterKey.value, data, r)
    ensures r == Decrypted(c, ctx, data)
  {
    if ctx.masterKey.None? {
      return Err(InvalidMasterKey);
    }
    if Lawful(c) {
      UnframedOpens(c, ctx.masterKey.value, data);
    }
    if |data| < NONCE_LENGTH + OVERHEAD {
      return Err(InvalidCiphertext);
    }
    var nonce := new Byte[NONCE_LENGTH];
    for i := 0 to NONCE_LENGTH
      invariant nonce[..i] == data[..i]
    {
      nonce[i] := data[i];
    }
    assert nonce[..] == data[..NONCE_LENGTH];
    var decrypted := c.unseal(data[NONCE_LENGTH..], nonce[..], ctx.masterKey.value);
    if decrypted.None? {
      return Err(InvalidSecret);
    }
    var document := c.unmarshal(decrypted.value);
    if document.None? {
      return Err(Malformed);
    }
    return Ok(document.value);
  }

  lemma FrameParts(c: Crypto, key: Secret, nonce: Nonce, document: seq<Byte>)
    requires Lawful(c)
    ensures var framed := Framed(c, key, nonce, document);
            && |framed| >= NONCE_LENGTH + OVERHEAD
            && c.unseal(framed[NONCE_LENGTH..], framed[..NONCE_LENGTH], key) == Some(document)
  {
    var framed := Framed(c, key, nonce, document);
    assert framed[..NONCE_LENGTH] == nonce;
    assert framed[NONCE_LENGTH..] == c.seal(document, nonce, key);
  }

  lemma UnframedOpens(c: Crypto, key: Secret, data: seq<Byte>)
    requires Lawful(c)
    ensures Opened(c, key, data, Unframed(c, key, data))
  {
    forall nonce: Nonce, document: seq<Byte> | data == Framed(c, key, nonce, document)
      ensures |data| >= NONCE_LENGTH + OVERHEAD && c.unseal(data[NONCE_LENGTH..], data[..NONCE_LENGTH], key).Some?
    {
      FrameParts(c, key, nonce, document);
    }
    if |data| >= NONCE_LENGTH + OVERHEAD {
      var message := c.unseal(data[NONCE_LENGTH..], data[..NONCE_LENGTH], key);
      if message.Some? {
        assert data == Framed(c, key, data[..NONCE_LENGTH], message.value);
      }
    }
  }

  /** There is one answer only: what is opened is determined by what was framed. */
  lemma OpenedIsUnique(c: Crypto, key: Secret, data: seq<Byte>, r: Result<Jwk, Error>)
    requires Lawful(c) && Opened(c, key, data, r)
    ensures r == Unframed(c, key, data)
  {
    forall nonce: Nonce, document: seq<Byte> | data == Framed(c, key, nonce, document)
      ensures |data| >= NONCE_LENGTH + OVERHEAD
      ensures c.unseal(data[NONCE_LENGTH..], data[..NONCE_LENGTH], key) == Some(document)
    {
      FrameParts(c, key, nonce, document);
    }
    UnframedOpens(c, key, data);
  }

  /** What is framed always meets the length threshold and opens to the same document. */
  lemma FrameRoundTrip(c: Crypto, key: Secret, nonce: Nonce, data: Jwk)
    requires Lawful(c) && c.marshal(data).Some?
    ensures var framed := Framed(c, key, nonce, c.marshal(data).value);
            |framed| >= NONCE_LENGTH + OVERHEAD && Unframed(c, key, framed) == Ok(data)
  {
    FrameParts(c, key, nonce, c.marshal(data).value);
  }

  /** A key written in hex and parsed back is the key itself, and survives a transfer. */
  lemma MasterKeyRoundTrip(key: Secret, dest: Context)
    ensures Hex.Decode(Hex.Encode(key)) == Some(key)
    ensures TransferMasterKeyContext(Context(Hex.Decode(Hex.Encode(key))), dest).masterKey == Some(key)
    ensures TransferMasterKeyContext(Context(None), dest) == dest
  {
    Hex.DecodeEncode(key);
  }
}
