/**
 `ClaimsSign` and `ClaimsVerify`. The token library is not part of this model: a token is taken as
 the claims that are checked and the id of the key that signed it, and a signature as valid exactly
 when that key is found.
 */
module Claims {
  import opened Wrappers
  import opened Time
  import opened Config
  import opened KeyTable
  import opened Sources
  import opened Protocol
  import opened Lifecycle
  import opened TokenLife

  datatype Token = Token(kid: KeyId, issuer: string, audience: string, subject: string, expires: Time)

  datatype Check =
    | TargetCheck(issuer: string, audience: string, subject: string)
    | TimestampCheck(leeway: Duration)

  predicate Passes(check: Check, token: Token, now: Time) {
    match check
    case TargetCheck(issuer, audience, subject) =>
      token.issuer == issuer && token.audience == audience && token.subject == subject
    case TimestampCheck(leeway) => now <= token.expires + leeway
  }

  /** The claim envelope comes from the usage's configuration. */
  function Envelope(c: UsageConfig, kid: KeyId, now: Time): Token {
    Token(kid, c.token.issuer, c.token.audience, c.token.subject, now + c.token.ttl)
  }

  /** `head` is the first key of the signer's source, or nothing when it has none to give. */
  function ClaimsSign(
    config: KeysConfig, producers: set<Usage>, usage: Usage, head: Option<KeyId>, now: Time): Result<Token, Error>
  {
    if usage !in config then Err(ConfigNotFound)
    else if usage !in producers then Err(ConfigNotFound)
    else if head.None? then Err(FetchFailed)
    else Ok(Envelope(config[usage], head.value, now))
  }

  /** The claims are those of the usage, and not expired unless that is waived. */
  predicate ClaimsMatch(c: UsageConfig, token: Token, ignoreExpired: bool, now: Time) {
    && token.issuer == c.token.issuer && token.audience == c.token.audience && token.subject == c.token.subject
    && (ignoreExpired || now <= token.expires + c.token.leeway)
  }

  /** The source, holding `cached`, finds the token's key, and the token's claims match the terms. */
  predicate Verifies(
    c: UsageConfig, policy: Policy, cached: Option<Batch>, token: Token, ignoreExpired: bool,
    now: Time, fetch: Option<seq<KeyId>>)
  {
    Finds(policy, cached, now, fetch, token.kid) && ClaimsMatch(c, token, ignoreExpired, now)
  }

  /** Accepts exactly the tokens whose key the usage's source finds and whose claims match its terms. */
  method ClaimsVerify(
    config: KeysConfig, recipients: map<Usage, KeySource>, token: Token, usage: Usage, ignoreExpired: bool,
    now: Time, fetch: Option<seq<KeyId>>)
    returns (r: Result<Token, Error>)
    modifies if usage in recipients then {recipients[usage]} else {}
    ensures usage !in config || usage !in recipients ==> r == Err(ConfigNotFound)
    ensures usage in config && usage in recipients ==>
              && (r == Ok(token) || r == Err(Rejected))
              && var source := recipients[usage];
                 && (token.issuer != config[usage].token.issuer ==> r == Err(Rejected))
                 && (token.audience != config[usage].token.audience ==> r == Err(Rejected))
                 && (token.subject != config[usage].token.subject ==> r == Err(Rejected))
                 && (!ignoreExpired && now > token.expires + config[usage].token.leeway ==> r == Err(Rejected))
                 && (!Finds(source.policy, old(source.cached), now, fetch, token.kid) ==> r == Err(Rejected))
                 && (r.Ok? <==>
                       Verifies(config[usage], source.policy, old(source.cached), token, ignoreExpired, now, fetch))
                 && source.cached ==
                    Kept(old(source.cached), Searched(source.policy, old(source.cached), now, fetch, token.kid))
  {
    if usage !in config {
      return Err(ConfigNotFound);
    }
    var terms := config[usage].token;
    var checks := [TargetCheck(terms.issuer, terms.audience, terms.subject)];
    if !ignoreExpired {
      checks := checks + [TimestampCheck(terms.leeway)];
    }
    if usage !in recipients {
      return Err(ConfigNotFound);
    }
    var found := recipients[usage].Get(token.kid, now, fetch);
    var passed := true;
    for i := 0 to |checks|
      invariant passed <==> forall j :: 0 <= j < i ==> Passes(checks[j], token, now)
    {
      passed := passed && Passes(checks[i], token, now);
    }
    assert passed <==> Passes(checks[0], token, now) && (!ignoreExpired ==> Passes(checks[1], token, now));
    if found && passed {
      return Ok(token);
    }
    return Err(Rejected);
  }

  /** A signed token meets the terms of its own usage for its lifetime plus leeway, and not one instant longer. */
  lemma EnvelopeMatches(
    config: KeysConfig, producers: set<Usage>, usage: Usage, head: Option<KeyId>, now: Time, later: Time)
    requires ClaimsSign(config, producers, usage, head, now).Ok?
    ensures var token := ClaimsSign(config, producers, usage, head, now).value;
            && usage in config && usage in producers && head == Some(token.kid)
            && token.issuer == config[usage].token.issuer && token.audience == config[usage].token.audience
            && token.subject == config[usage].token.subject && token.expires == now + config[usage].token.ttl
            && ClaimsMatch(config[usage], token, true, later)
            && (ClaimsMatch(config[usage], token, false, later) <==>
                  later - now <= config[usage].token.ttl + config[usage].token.leeway)
  {
  }

  /** When nothing is signed, and why. */
  lemma SigningFails(config: KeysConfig, producers: set<Usage>, usage: Usage, head: Option<KeyId>, now: Time)
    ensures usage !in config || usage !in producers ==>
              ClaimsSign(config, producers, usage, head, now) == Err(ConfigNotFound)
    ensures usage in config && usage in producers ==>
              (ClaimsSign(config, producers, usage, head, now).Ok? <==> head.Some?)
    ensures usage in config && usage in producers && head.None? ==>
              ClaimsSign(config, producers, usage, head, now) == Err(FetchFailed)
  {
  }

  /** Under the shipped terms an access token never matches as a refresh token, nor the reverse. */
  lemma ShippedUsagesDoNotMix(kid: KeyId, now: Time, later: Time, ignoreExpired: bool)
    ensures !ClaimsMatch(AUTH_REFRESH, Envelope(AUTH, kid, now), ignoreExpired, later)
    ensures !ClaimsMatch(AUTH, Envelope(AUTH_REFRESH, kid, now), ignoreExpired, later)
  {
    assert |AUTH.token.subject| == 11 && |AUTH_REFRESH.token.subject| == 12;
  }

  /**
   The promise to token holders, in every run. Take the token that `ClaimsSign` issues for the key a
   signer uses at event `i`. From then on, what `ClaimsVerify` answers for it on any source of the usage
   is decided: it is accepted until its expiry plus leeway, and no longer, by a source that holds a warm
   set fetched when the key was committed already, or that may fetch and whose fetch works.
   */
  lemma TokenVerifiesForLife(
    p: Params, r: Run, i: nat, m: nat, kid: KeyId, period: int, verifier: SourceId, fetch: Option<seq<Row>>,
    producers: set<Usage>, token: Token)
    returns (f: nat)
    requires IsRun(p, r) && NonNegative(p.config) && i < |r.events| && i <= m < |r.states|
    requires SignsWith(p, r.states[i], r.events[i], kid) && Callable(p, r.states[m], verifier, true, fetch)
    requires SignedOnSchedule(p, r, i, period) && Unrevoked(DbAt(r, m), kid)
    requires r.states[m].sources[verifier].usage == r.states[i].sources[r.events[i].source].usage
    requires FetchIsComplete(p.slots, p.config[r.states[m].sources[verifier].usage].key)
    requires var u := r.states[m].sources[verifier].usage;
             ClaimsSign(p.config, producers, u, Some(kid), DbAt(r, i).clock) == Ok(token)
    ensures r.states[m].sources[verifier].cached.Some? ==> LastFetch(r, m, verifier, f)
    ensures var src, now := r.states[m].sources[verifier], DbAt(r, m).clock;
            var c := p.config[src.usage];
            Verifies(c, PolicyOf(p, src), src.cached, token, false, now, FetchedIds(fetch)) <==>
            Reaches(p, r, m, verifier, kid, fetch, f) && now <= DbAt(r, i).clock + c.token.ttl + c.token.leeway
    ensures r.states[m].sources[verifier].cached.Some? && DbAt(r, i).clock < DbAt(r, f).clock ==> kid in DbAt(r, f).rows
  {
    var src := r.states[m].sources[verifier];
    var c := p.config[src.usage];
    if DbAt(r, m).clock <= DbAt(r, i).clock + c.token.ttl + c.token.leeway {
      f := TokenIsAcceptedForLife(p, r, i, m, kid, period, verifier, fetch);
    } else if src.cached.Some? {
      f := HeldSinceFetch(p, r, m, verifier, kid);
      if DbAt(r, i).clock < DbAt(r, f).clock {
        SignedKeyIsCommitted(p, r, i, kid, f);
      }
    } else {
      f := 0;
    }
  }
}
