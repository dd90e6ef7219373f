/** `JwkExtract` and `JwkSearch`: from stored rows back to key material. */
module Extract {
  import opened Wrappers
  import opened KeyTable
  import opened Base64
  import opened MasterKey

  /** Private material only for an authorised caller; public material is stored in the clear. */
  function ExtractKey(c: Crypto, ctx: Context, row: Row, private: bool): Result<Jwk, Error> {
    if !private && row.pub.None? then Err(NoPublicKey)
    else
      var decoded := Decode(if private then row.priv else row.pub.value);
      if decoded.None? then Err(Undecodable)
      else if private then Decrypted(c, ctx, decoded.value)
      else
        var document := c.unmarshal(decoded.value);
        if document.None? then Err(Malformed) else Ok(document.value)
  }

  /** `JwkExtract`: the missing public half is noticed first, then the column is decoded and read. */
  method JwkExtract(c: Crypto, ctx: Context, row: Row, private: bool) returns (r: Result<Jwk, Error>)
    ensures r == ExtractKey(c, ctx, row, private)
    ensures !private && row.pub.None? ==> r == Err(NoPublicKey)
    ensures private && Decode(row.priv).None? ==> r == Err(Undecodable)
    ensures private && Decode(row.priv).Some? && ctx.masterKey.None? ==> r == Err(InvalidMasterKey)
    ensures private && Decode(row.priv).Some? && ctx.masterKey.Some? && Lawful(c) ==>
              Opened(c, ctx.masterKey.value, Decode(row.priv).value, r)
    ensures !private && row.pub.Some? ==>
              (var decoded := Decode(row.pub.value);
               if decoded.None? then r == Err(Undecodable)
               else if c.unmarshal(decoded.value).None? then r == Err(Malformed)
               else r == Ok(c.unmarshal(decoded.value).value))
  {
    if !private && row.pub.None? {
      return Err(NoPublicKey);
    }
    var decoded := Decode(if private then row.priv else row.pub.value);
    if decoded.None? {
      return Err(Undecodable);
    }
    if private {
      r := DecryptMasterKey(c, ctx, decoded.value);
    } else {
      var document := c.unmarshal(decoded.value);
      r := if document.None? then Err(Malformed) else Ok(document.value);
    }
  }

  /** Both halves of a generated pair, the public one if there is one, have a JSON form. */
  predicate Storable(c: Crypto, priv: Jwk, pub: Option<Jwk>) {
    c.marshal(priv).Some? && (pub.Some? ==> c.marshal(pub.value).Some?)
  }

  function StoredPrivate(c: Crypto, key: Secret, nonce: Nonce, priv: Jwk): string
    requires c.marshal(priv).Some?
  {
    Encode(Framed(c, key, nonce, c.marshal(priv).value))
  }

  function StoredPublic(c: Crypto, pub: Option<Jwk>): Option<string>
    requires pub.Some? ==> c.marshal(pub.value).Some?
  {
    if pub.None? then None else Some(Encode(c.marshal(pub.value).value))
  }

  /** The framed nonce alone makes the stored private key non-empty, as the column demands. */
  lemma StoredPrivateIsNotEmpty(c: Crypto, key: Secret, nonce: Nonce, priv: Jwk)
    requires c.marshal(priv).Some?
    ensures StoredPrivate(c, key, nonce, priv) != ""
  {
    DecodeEncode(Framed(c, key, nonce, c.marshal(priv).value));
  }

  /** Extracting what was stored gives back exactly the generated pair. */
  lemma StorageRoundTrip(c: Crypto, key: Secret, nonce: Nonce, priv: Jwk, pub: Option<Jwk>, row: Row, other: Context)
    requires Lawful(c) && Storable(c, priv, pub)
    requires row.priv == StoredPrivate(c, key, nonce, priv) && row.pub == StoredPublic(c, pub)
    ensures ExtractKey(c, Context(Some(key)), row, true) == Ok(priv)
    ensures ExtractKey(c, other, row, false) == (if pub.None? then Err(NoPublicKey) else Ok(pub.value))
  {
    FrameRoundTrip(c, key, nonce, priv);
    DecodeEncode(Framed(c, key, nonce, c.marshal(priv).value));
    if pub.Some? {
      DecodeEncode(c.marshal(pub.value).value);
    }
  }

  /** Without authorisation the result depends on neither the private column nor the master key. */
  lemma PublicExtractionIsBlind(c: Crypto, ctx: Context, ctx': Context, row: Row, row': Row)
    requires row.pub == row'.pub
    ensures ExtractKey(c, ctx, row, false) == ExtractKey(c, ctx', row', false)
  {
  }

  predicate AllExtract(c: Crypto, ctx: Context, rows: seq<Row>, private: bool) {
    forall i :: 0 <= i < |rows| ==> ExtractKey(c, ctx, rows[i], private).Ok?
  }

  /** All or nothing, in order; the error is the first one met. */
  method SearchKeys(c: Crypto, ctx: Context, found: Result<seq<Row>, Error>, private: bool)
    returns (r: Result<seq<Jwk>, Error>)
    ensures found.Err? ==> r == Err(found.error)
    ensures found.Ok? ==> (r.Ok? <==> AllExtract(c, ctx, found.value, private))
    ensures r.Ok? ==> |r.value| == |found.value|
                      && forall i :: 0 <= i < |r.value| ==>
                                       ExtractKey(c, ctx, found.value[i], private) == Ok(r.value[i])
    ensures found.Ok? && r.Err? ==>
              exists i :: 0 <= i < |found.value| && AllExtract(c, ctx, found.value[..i], private)
                          && ExtractKey(c, ctx, found.value[i], private) == Err(r.error)
  {
    if found.Err? {
      return Err(found.error);
    }
    var entities := found.value;
    var deserialized := new Option<Jwk>[|entities|](_ => None);
    for i := 0 to |entities|
      invariant forall j :: 0 <= j < i ==>
                              && deserialized[j].Some?
                              && ExtractKey(c, ctx, entities[j], private) == Ok(deserialized[j].value)
    {
      var extracted := JwkExtract(c, ctx, entities[i], private);
      if extracted.Err? {
        return Err(extracted.error);
      }
      deserialized[i] := Some(extracted.value);
    }
    return Ok(seq(
      |entities|,
      i requires 0 <= i < |entities| && deserialized[i].Some? reads deserialized => deserialized[i].value));
  }
}
