# Verified model of the signing-key lifecycle

The service keeps, for every *usage*, a set of signing keys in one PostgreSQL table. A rotation job
adds a key when the newest one is old enough, keys expire, an operator may revoke one, signers sign
with the newest key they know and verifiers accept any key they know. This project models that
lifecycle in Dafny and proves what it guarantees over whole runs.

`dafny verify dfyconfig.toml` checks everything.

| file | models |
|---|---|
| Time.dfy | one clock in nanoseconds, `time.Since` with its saturation, `timestamp(0)` rounding |
| Config.dfy | per-usage terms and the shipped values |
| KeyTable.dfy | the `keys` table, the `active_keys` view, search, insert and delete |
| Issuance.dfy | the age test and the row a generation writes |
| Protocol.dfy, ProtocolInvariant.dfy | jobs in flight together, step by step, and the invariant every step keeps |
| Sources.dfy | the cached key source |
| Lifecycle.dfy | runs: the protocol interleaved with signers and verifiers behind their caches |
| Provenance.dfy | where the rows of a table come from, event by event, and that a rotation is all or nothing |
| Spacing.dfy | distance between keys, number of active keys, skipping, replacing a revoked key |
| TokenLife.dfy | tokens, verifiers, expiry and revocation seen through the caches |
| Witnesses.dfy | runs that reach those bounds, or break what holds only under a condition |
| Tolerance.dfy | runs on schedule whose keys do not outlive their tokens, once a condition for that is dropped |
| Base64.dfy, Hex.dfy, MasterKey.dfy, Extract.dfy, Transport.dfy | storage codec and the gRPC hop |
| KeyGen.dfy, Refinement.dfy | `JwkGen` and `JwkRotateAll` as code, and their place in the protocol |
| Wiring.dfy | sources, producers and recipients built from the configuration |
| Claims.dfy | `ClaimsSign` and `ClaimsVerify` |

How the pieces fit. The protocol is a transition system: an `Event` is enabled in a `State` and leads
to exactly one next state. A job records the transaction start (the view's CURRENT_TIMESTAMP), the
usages it has still to handle, and its own uncommitted rows; `base`, the ids committed when it began,
is a history variable that no step reads. `Params.slots` is the number of jobs that may be in flight
together; it is the only assumption about concurrency. The central invariant is about *crowds*:
standing (not withdrawn) keys of one usage stored within one gap of each other, or all young, that is
unexpired and younger than the interval. The size of a crowd plus the number of jobs that began before
any of its keys was committed never exceeds `slots`.

A *gap* is what the rotation interval amounts to. `AgedGap`, on the running clock, is the interval, or
the lifetime in whole seconds if that is shorter. `StoredGap`, between stored times, is `AgedGap` as the
column rounds it. Both are the interval itself when interval and lifetime are whole numbers of seconds
and the lifetime covers the interval; `Config.StoredGapCoversInterval` says exactly when a stored gap is
no shorter than the interval.

A key is *fresh* at a moment if it was made less than one interval before it; for intervals under half a
second, less than half a second before it, which is what rounding a creation time can take
(`Protocol.Freshness`). A *recent* key, in the theorems about tokens, is one that was fresh one rotation
period and one cache duration before the signature.

Assumptions, all visible in the contracts:

- One clock, never going back, shared by every process and by the database, in the era after
  2000-01-01, which is PostgreSQL's epoch.
- The rotation interval and the lifetime are not negative. Neither has to be a whole number of seconds,
  nor the lifetime at least the interval.
- Every job, signer and verifier runs under one and the same configuration, which does not change.
- Read-committed isolation: a query sees what is committed when it runs plus the job's own rows.
- The cached source follows the contract written at the head of Sources.dfy; its fetch is one instant.
- The transactor makes a failed unit of work leave no trace: `JwkRotateAll` restores the table it began
  with, and the protocol's `Rollback` drops the job's rows. Atomicity of a rotation rests on that, and
  Provenance.dfy proves it over runs.
- `Lawful`: the cipher opens what it sealed, with a 16-byte tag, and nothing else; JSON unmarshalling
  undoes marshalling, which may fail. Key ids are fresh, or the insert fails.
- A token expires exactly its configured lifetime after it is issued, and the leeway is inclusive.

Where the code differs from what is said about it, the model follows the code:

- The age test is `>=`; the comment on `CreatedAt` says a key is replaced when its age "exceeds" the
  interval (internal/dao/pg.jwk.go:41-43).
- CONTRIBUTING.md:83 lists symmetric algorithms; no registry holds them and both builders reject them.
- A revocation does not always bound the use of a key by `deleted_at` plus the cache duration: the
  column rounds, and the stamp is the caller's, so `deleted_at` may be stored as an earlier moment
  than the revocation. `TokenLife.TimelyRevocationIsDropped` gives the condition under which the bound
  holds, `TokenLife.EarlyStampIsOutlived` that every other stamp can break it, for a signer or for a
  verifier, and `Witnesses.ShippedStampIsOutlived` a complete run in which it does.
- A verifier does not accept every active key: `TokenLife.ActiveKeyIsAccepted` gives the exact condition
  and `Witnesses.ActiveKeyIsRefused` a complete run in which an active key is refused.
- "At most one main key" (CONTRIBUTING.md:65) is not enforced: `Witnesses.JobsCollide`.

## Model

| member | source | states |
|---|---|---|
| Time.Since | internal/core/jwkGen.go:105 | the exact difference when it is representable, otherwise the end of the 64-bit range it lies beyond |
| Config.StoredGapCoversInterval | internal/core/jwkGen.go:105-162 | the distance guaranteed between stored keys is an interval or more exactly when the lifetime in whole seconds covers the interval and the interval does not round down; in particular for terms in whole seconds |
| Time.RoundShift | internal/models/migrations/20260722072945_initial_schema.up.sql:10-12 | rounding creation and expiry separately moves the lifetime by less than a second, and not at all for whole seconds |
| KeyTable.HeadIsNewest | internal/dao/pg.jwkSearch.sql:1-12 | no active key of the usage is newer than the head of the list, even when the limit cut the list |
| KeyTable.Table.Search | internal/dao/pg.jwkSearch.go:43-76 | the list holds rows of the usage only, unexpired and not withdrawn at the start of the transaction, once each, newest first, at most 100, and leaves out nothing newer than what it holds |
| KeyTable.Table.Insert | internal/dao/pg.jwkInsert.sql:1-13 | one new row with rounded times, refused exactly for a taken id or an empty private key |
| KeyTable.Table.Delete | internal/dao/pg.jwkDelete.sql:1-12 | a missing, an expired and an already revoked key are each reported as missing and nothing changes; otherwise the two deletion fields are set, the time rounded, every other field stays, and it cannot succeed twice |
| Issuance.SkipOnlyRecent | internal/core/jwkGen.go:88-105 | the skip branch always has a list to index, for every representable interval, and its head is younger than the interval |
| Issuance.MintedTimes | internal/core/jwkGen.go:153-162 | stored times are whole seconds and their distance is the lifetime up to its own fraction of a second |
| Issuance.StoredDistanceCoversInterval | internal/core/jwkGen.go:105-162 | rounding never shortens the distance between two keys below the interval if and only if the interval does not round down |
| Issuance.FractionalIntervalFallsShort | internal/core/jwkGen.go:105-162 | with an interval of 1.4 seconds two keys can be stored one second apart |
| Protocol.JobCarries | internal/core/jwkRotateAll.go:60-71 | what a job in flight relies on survives every step of the others |
| ProtocolInvariant.ReadPhase | internal/core/jwkGen.go:80-91 | every key committed before the transaction began and not withdrawn is either expired at its start or no newer than the head it reads |
| ProtocolInvariant.GenerateAged | internal/core/jwkGen.go:105 | the age test passes only if each of those keys has expired or is one interval old, although they were read through an older view |
| ProtocolInvariant.InsertPending | internal/core/jwkGen.go:153-162 | the new key is stored at least one stored gap after each of them, rounding included |
| ProtocolInvariant.CommitCrowd | internal/core/jwkRotateAll.go:60-71 | a commit turns one of the jobs that could still join a crowd into at most one of its keys, so the bound of `slots` is kept |
| ProtocolInvariant.StepKeeps | internal/core/jwkRotateAll.go:50-79 | every step of the protocol keeps the whole invariant |
| Sources.KeySource.List | internal/core/jwkPresets.go:165-168 | serves the held set while it is younger than the cache duration, otherwise fetches; a failed fetch changes nothing |
| Sources.KeySource.Get | internal/core/jwkPresets.go:220-231 | a kid of a warm set is found with no fetch; an unknown one makes at most one refetch, which is then the set held, once the interval (10 seconds unless configured) has passed; a cold set is fetched; a failed fetch finds and changes nothing |
| Sources.FindsExactly | internal/core/jwkPresets.go:220-231 | a lookup finds a kid exactly if a warm set holds it, or it may fetch and the fetch brings it |
| Sources.FindsFetchable | internal/core/jwkPresets_test.go:99-157 | once the interval has passed since the last fetch, a key in the store is found even if the held set lacks it |
| Sources.SearchedIsRecent | internal/core/jwkPresets.go:220-231 | a lookup works on a set younger than the cache duration or fetched by the call itself |
| Lifecycle.RunInv | internal/core/jwkRotateAll.go:50-79 | the invariant holds in every state of every run |
| Lifecycle.History | internal/dao/pg.jwkDelete.sql:1-12 | over any stretch of a run no row disappears, keys never change, and a recorded revocation is final |
| Provenance.EveryKeyHasAnOrigin | internal/core/jwkGen.go:80-162 | every key in any table of any run was made by one job that began, read the usage as of its beginning, found no key or an overdue one, inserted this row with the clock of the insert, and committed; only a revocation tells the two apart |
| Provenance.NewRowsAreCommitted | internal/core/jwkRotateAll.go:28-35 | a row appears only by the commit of the job that held it |
| Provenance.CommitTakesAll | internal/core/jwkRotateAll.go:60-71 | a commit adds every row of its job, and only a job with nothing left to do commits |
| Provenance.RollbackLeavesNothing | internal/core/jwkRotateAll.go:60-71 | a rollback changes nothing in the table |
| Provenance.RolledBackRowsStayOut | internal/core/jwkRotateAll.go:32-35 | what a job inserted before it is rolled back is in no table of the run, before or after, unless that id is inserted anew |
| Provenance.OnlyRevocationsChangeRows | internal/dao/pg.jwkDelete.sql:1-12 | nothing but a revocation changes a row, and it changes its two deletion fields |
| Provenance.OnlyTicksMoveTheClock | internal/core/jwkGen.go:105-153 | no step of a job, of a revocation or of a source takes time; the clock moves by ticks alone |
| Lifecycle.AcceptedKeyIsHeld | internal/core/jwkPresets.go:220-231 | a verifier goes on accepting what it has accepted, with no further fetch, exactly until its set, the one refetched for an unknown kid included, is one cache duration old |
| Lifecycle.SignedKeyIsHeld | internal/core/jwkPresets.go:165-168 | and a signer goes on signing with the same key for exactly as long |
| Lifecycle.VerifyCall | internal/core/jwkPresets.go:215-231 | the verifier step of a run is a lookup on the source object: same answer, same set held after it |
| Lifecycle.SignCall | internal/dao/pg.jwk.go:36-38 | the signer step is a list call on the source object, of which the head is taken |
| Lifecycle.ActivityIsLostForGood | internal/models/migrations/20260722072945_initial_schema.up.sql:21-39 | a key inactive once is inactive at every later time, in every later state |
| Lifecycle.BatchOrigin | internal/core/jwkPresets.go:160-168 | every set a source holds is the answer of a search that the source made at an earlier state of the run |
| Lifecycle.UsedSetOrigin | internal/core/jwkPresets.go:215-231 | the set a source works with is a search answer less than one cache duration old, or of this very moment |
| Spacing.KeysAreSpaced | internal/core/jwkGen.go:80-105 | in every interleaving with at most N jobs in flight, among any N + 1 committed keys of a usage that are not withdrawn two are stored at least one gap apart |
| Witnesses.JobsCollide | internal/core/jwkGen.go:80-162 | N + 1 cannot be N: N jobs in flight can commit N keys of one usage with the same creation time |
| Spacing.SerialKeysAreSpaced | internal/core/jwkGen.go:80-105 | one job at a time: any two such keys are at least one stored gap apart, for every interval and lifetime |
| Witnesses.SerialSpacingIsExact | internal/core/jwkGen.go:80-162 | and no more than that: whenever the stored gap is shorter than the interval, some run with one job at a time stores two keys less than an interval apart |
| Spacing.ActiveKeysAreBounded | internal/dao/pg.jwkSearch.go:17-36 | in every state of every run a usage has at most N * (1 + ceil((TTL - gap) / gap)) active keys |
| Spacing.ViewIsBounded | internal/models/migrations/20260722072945_initial_schema.up.sql:28-39 | the same for a view that lags behind the clock, with the lag added to TTL, while no key it shows has been withdrawn since |
| Spacing.WholeBound | internal/config/jwks.config.go:10-24 | for terms in whole seconds the bound is N * ceil(TTL / Rotation) |
| Witnesses.ActiveBoundIsReached | internal/core/jwkGen.go:80-162 | that bound is the exact one: for every N and every such terms of a lone usage some run ends with exactly that many active keys |
| Spacing.SearchIsComplete | internal/dao/pg.jwkSearch.go:56-73 | while that bound is at most 100 the limit never truncates: the list holds exactly the active keys |
| Spacing.ViewSearchIsComplete | internal/dao/pg.jwkSearch.go:56-73 | the same inside a job whose view is older than the clock, with the bound for its lag |
| Witnesses.SearchIsTruncated | internal/dao/pg.jwkSearch.go:56-73 | beyond 100 it does truncate: in some run a search leaves an active key out |
| Spacing.ShippedBounds | internal/config/jwks.config.yaml:7-32 | the bounds for the shipped terms are 7N for `auth` and 5N for `auth-refresh`, within the limit for up to 14 and 20 jobs in flight |
| Spacing.SkippedKeyIsUnexpired | internal/core/jwkGen.go:168-172 | a skipping job leaves a key that has not expired at the age check, whatever its view's age, if the lifetime in whole seconds covers the interval |
| Witnesses.SkippedKeyCanHaveExpired | internal/core/jwkGen.go:168-172 | and only then: for every shorter lifetime some run has a job skip on a key that has expired |
| Spacing.OnlyNewestIsYoung | internal/core/jwkGen.go:88-105 | with serialised jobs every active key but the newest is at least one interval old on the running clock |
| Spacing.RevokedHeadIsReplaced | internal/core/jwkGen.go:88-105 | after a revocation of the newest active key, a job that begins at or after the revocation and its stamp, and reads before another key of the usage is committed, generates: its age test passes at every later moment |
| TokenLife.CommitLeavesFreshKey | internal/core/jwkRotateAll.go:15-35 | a committed job leaves, for every usage, a key that was fresh when the job started |
| TokenLife.HeadLasts | internal/config/jwks.config.go:10-24 | with rotation on schedule, and no key revoked that was fresh one rotation period ago or made since, a search is never empty and its head outlasts the cache, the token and the leeway together |
| TokenLife.SigningKeyOutlivesToken | internal/config/jwks.config.go:10-38 | if lifetime >= interval + rotation period + cache + token lifetime + leeway, and no recent key of the usage is revoked at the signature, the key that signed a token is active at every moment the token may be presented, unless that key itself is revoked later |
| Tolerance.ShorterLifetimeFails | internal/config/jwks.config.go:10-38 | that condition is the exact one, to the nanosecond: with any shorter lifetime some run on schedule, with nothing revoked, signs with a key that dies before its token |
| Tolerance.RevokedRecentKeyFails | internal/dao/pg.jwkDelete.sql:1-12 | so does, under the shipped `auth` terms, a run on schedule in which a recent key is revoked and the signer falls back on an older one |
| TokenLife.SignerNeverStarves | internal/dao/pg.jwk.go:30-39 | on the same schedule, and with no recent key revoked, a signer whose fetch works always has a key to sign with |
| TokenLife.ShippedTolerance | internal/config/jwks.config.yaml:7-32 | the shipped terms meet that condition exactly for rotation periods up to 119h25m (`auth`) and 383h25m (`auth-refresh`), and one nanosecond |
| TokenLife.AcceptedKeyWasActive | internal/core/jwkPresets.go:215-231 | a verifier accepts a kid only if that key, of its own usage, was active at a search less than one cache duration ago, or at this very moment |
| TokenLife.ActiveKeyIsAccepted | internal/core/jwkPresets.go:215-231 | exactly which verifiers accept a key active now, if the usage's active keys fit in one search: those whose warm set was fetched when the key was committed already, and those that may fetch and whose fetch works |
| Witnesses.ActiveKeyIsRefused | internal/core/jwkPresets.go:220-231 | a run in which an active key is refused although a fetch would bring it |
| TokenLife.VerifierDecides | internal/core/jwkPresets.go:215-231 | exactly which kids a verifier accepts, under the same bound on active keys: those of a still warm set, and those active now that it fetches now |
| TokenLife.HeldSinceFetch | internal/core/jwkPresets.go:215-218 | under the same bound, a held set holds a key active now exactly if the key was committed at the fetch |
| TokenLife.TokenIsAcceptedForLife | internal/core/jwkPresets.go:215-231 | under the conditions of SigningKeyOutlivesToken and ActiveKeyIsAccepted together, the key of a token is accepted under exactly the latter's condition until the token's expiry plus leeway, so by every warm verifier that fetched after the signature, and by every one that may fetch |
| TokenLife.NoCrossUsage | internal/core/claimsVerify.go:72-81 | in every run a kid used to sign under one usage is accepted under no other |
| TokenLife.ExpiredKeyIsDropped | internal/models/migrations/20260722072945_initial_schema.up.sql:28-39 | no signer or verifier uses a key one cache duration after its stored expiry |
| TokenLife.RevokedKeyIsDropped | internal/dao/pg.jwkDelete.sql:1-12 | no signer or verifier uses a key one cache duration after both its stored `deleted_at` and the revocation itself |
| TokenLife.TimelyRevocationIsDropped | internal/dao/pg.jwkDelete.sql:1-12 | `deleted_at` alone gives the bound when it is stored no earlier than the revocation |
| TokenLife.EarlyStampIsOutlived | internal/dao/pg.jwkDelete.go:25-32 | for every stamp stored earlier, a run in which a signer is about to fetch that key at the head of its list, or a verifier anywhere in it, continues to a use of the key at or past `deleted_at` plus the cache duration |
| Witnesses.ShippedStampIsOutlived | internal/dao/pg.jwkDelete.go:25-32 | a whole run under the shipped `auth` terms in which that happens, to a signer or to a verifier |
| Base64.DecodeEncode | internal/core/jwkGen.go:130-148 | base64url decoding undoes encoding for every byte string |
| Base64.EncodedText | internal/core/jwkGen.go:130-148 | the text has the unpadded length and each six bits as the character of the base64url alphabet |
| Base64.GroupValue | internal/core/jwkGen.go:130-148 | three bytes and four characters are the same 24 bits, high ones first, with zeros for what is left over, group by group |
| Base64.DecodableText | internal/core/jwkExtract.go:62-67 | a text is read exactly if, line breaks aside, it is of that alphabet and leaves no lone character |
| Hex.DecodeEncode | internal/lib/masterKeyContext.go:33-36 | hex decoding undoes encoding for every byte string |
| Hex.DigitValue | internal/lib/masterKeyContext.go:33-36 | the value of every digit, in lower and in upper case |
| Hex.DecodableText | internal/lib/masterKeyContext.go:33-36 | a text is read exactly if it has an even number of characters, all of them hex digits |
| MasterKey.NewMasterKeyContext | internal/lib/masterKeyContext.go:29-50 | accepts exactly the hex of 32 bytes and stores those bytes; on error the context is unchanged |
| MasterKey.MasterKeyRoundTrip | internal/lib/masterKeyContext.go:71-80 | a key written in hex, parsed and transferred is the same key |
| MasterKey.EncryptMasterKey | internal/lib/masterKeyCrypt.go:28-60 | returns the nonce followed by the sealed document, which decrypts to the data, or the error of the first step that fails: master key, serialisation, nonce |
| MasterKey.DecryptMasterKey | internal/lib/masterKeyCrypt.go:64-99 | succeeds exactly on what was framed under this master key and returns its content; too short, not framed under this key, and framed but not a key are the three errors |
| MasterKey.OpenedIsUnique | internal/lib/masterKeyCrypt.go:64-99 | that description admits one answer only, so data never opens to two documents |
| MasterKey.FrameRoundTrip | internal/lib/masterKeyCrypt.go:46-83 | a framed document always meets the 40-byte threshold and opens to itself |
| Extract.StorageRoundTrip | internal/core/jwkExtract.go:57-82 | extracting a stored row gives back exactly the generated private key, or the generated public one |
| Extract.PublicExtractionIsBlind | internal/core/jwkExtract.go:57-77 | without authorisation the result depends on the public column alone |
| Extract.SearchKeys | internal/core/jwkSearch.go:52-83 | either the extraction of every row, in order, or no list and the error of the first row that fails |
| Transport.ListRoundTrip | pkg/go/jwkExportGrpc.go:23-45 | the client's mapping undoes the handler's on lists of any length |
| Transport.MessagesRoundTrip | internal/handlers/grpc.jwkList.go:48-59 | and the handler's undoes the client's |
| Transport.ListFields | internal/handlers/grpc.jwkList.go:48-59 | every message says, field by field, what its key says; any failure is reported as an internal one |
| Transport.FetchGenerated | internal/handlers/grpc.jwkList.go:33-60 | over a table of generated keys the verifier's fetch cannot fail and returns, in order, the public keys generated for the rows found |
| KeyGen.OverdueMeansDue | internal/core/jwkGen.go:88-105 | testing the head of the list is testing every active key of the usage, an empty list included |
| KeyGen.JwkGen | internal/core/jwkGen.go:74-183 | generates exactly when no active key is younger than the interval; each error class, the unregistered algorithm among them, has its condition and leaves the table as it was; a new row has the given id, usage and rounded times and gives the generated pair back; otherwise an active key younger than the interval is returned |
| KeyGen.JwkGenFrom | internal/core/jwkGen.go:88-183 | from a list read earlier, on whatever table it finds by then: the list and the clock decide, the table only receives the insert or refuses it; the same error classes under the same conditions |
| KeyGen.NewEncodedKey | internal/core/jwkGen.go:106-151 | generator lookup, generation, encryption, id and encoding: the error of the first that fails, or the stored form of both halves |
| KeyGen.OutcomeOfSearch | internal/core/jwkGen.go:80-105 | when the list is this table's own, that outcome is the one stated for the table |
| KeyGen.JwkRotateAll | internal/core/jwkRotateAll.go:50-79 | an error, which is that of a usage whose turn failed, leaves the table as it was; success counts every usage and is the one rotation of that table; it succeeds when nothing stands in the way, and never with a due usage whose algorithm is unregistered or whose key could not be made |
| KeyGen.RotationIsOrderFree | internal/core/jwkRotateAll.go:61-68 | the resulting table does not depend on the order in which the configuration is walked |
| KeyGen.RotationCovers | internal/core/jwkRotateAll.go:32-35 | after success every usage has a key younger than the interval when checked, or the one just made |
| KeyGen.OtherUsagesDoNotMatter | internal/dao/pg.jwkSearch.sql:5-6 | what a rotation did to other usages changes neither a usage's active rows nor its age test |
| KeyGen.RotationKeepsPublished | internal/core/jwkGen.go:140-162 | rotation keeps the table one in which every row stores the public key generated under its id |
| Refinement.JwkGenIsAJobStep | internal/core/jwkGen.go:74-183 | a generation that succeeds is what the protocol lets its job do for the usage, same decision and same row, whatever other jobs do between its read, its age test and its insert |
| Refinement.RotationAmidOthers | internal/core/jwkRotateAll.go:50-79 | a rotation taken turn by turn while others move is one job of the protocol, from begin to commit, and adds exactly one row for each usage whose list was due |
| Refinement.RotationIsAJob | internal/core/jwkRotateAll.go:50-79 | a `JwkRotateAll` that went through on a table no one else touched is a run of the protocol, whatever the order of usages and beside any jobs that wait |
| Wiring.NewJwkSources | internal/core/jwkPresets.go:150-248 | fails exactly when some usage has an unregistered algorithm; otherwise each usage stands in the bucket of its own algorithm's family and in no other, with a source that fetches that usage and keeps it for that usage's cache duration |
| Wiring.NewJwkPlugins | internal/core/jwkPresets.go:256-318 | fails exactly when a usage in the RSA bucket has no RSA preset; otherwise every usage gets the plugins of the buckets it stands in |
| Wiring.OnePluginPerUsage | internal/core/jwkPresets.go:267-280 | the buckets partition the usages, so no preset lookup misses and each usage has one plugin |
| Wiring.Wire | pkg/go/claims.go:58-74 | sources and plugins together fail only for an unregistered algorithm and give each usage one plugin, with its algorithm's preset, over a source that fetches that usage; only verifiers refetch on an unknown kid, at the configured interval |
| Claims.ClaimsVerify | internal/core/claimsVerify.go:43-89 | accepts exactly the tokens whose key is found and whose claims match the usage's terms, expiry waived on request; another issuer, audience or subject, an expired token and an unknown key are each rejected |
| Claims.SigningFails | internal/core/claimsSign.go:42-87 | an unconfigured usage, one without a producer, and a signer without a key each sign nothing, with the error class of each |
| Claims.EnvelopeMatches | internal/core/claimsSign.go:42-87 | a signed token carries the head key's id and the usage's issuer, audience, subject and lifetime, and meets its own usage's terms until its lifetime plus leeway has passed, and no longer |
| Claims.ShippedUsagesDoNotMix | internal/config/jwks.config.yaml:7-32 | a token signed under one shipped usage never matches the other's terms |
| Claims.TokenVerifiesForLife | internal/core/claimsVerify.go:49-83 | what `ClaimsVerify` answers for a token `ClaimsSign` issued on schedule with no recent key revoked: acceptance exactly until expiry plus leeway, by exactly the verifiers that reach its key, unless that key is revoked |

## Left out

- Spacing.RevokedHeadIsReplaced: is about a job that began after the revocation; one that began before still sees the revoked key.
- Spacing.ViewIsBounded: says nothing of a view that lags across a revocation of a key it still shows; a withdrawn key no longer holds back new ones, so no bound in terms of N is claimed for such a view.
- Witnesses.ActiveBoundIsReached: exhibits its runs for a configuration with one usage; the upper bound is for any configuration.
- Refinement.RotationIsAJob: the other jobs do not move between its steps, as the table of the method has one writer; Refinement.RotationAmidOthers lets them, generation by generation.
- Tolerance.ShorterLifetimeFails: exhibits its runs for a configuration with one usage, an interval of at least half a second and tokens that live at all.
- TokenLife.TokenIsAcceptedForLife: for a usage whose active keys fit in one search; the revocation of recent keys before the signature is excluded, of older ones and of other keys after it is not.
- Claims.ClaimsVerify: the signature itself is taken to be valid exactly when the key is found.
- Caches hold key ids only: that an id stands for its key material follows from History and StorageRoundTrip.
- Sources are described by usage and policy when they are wired; object identity of sources and plugins is not modelled.
- A fetch takes no time; a slow fetch would add its duration to the cache bounds.
- Clock skew between processes, and leap seconds.
- Encoding after decoding in base64: the decoder ignores line breaks and leftover bits, so only decoding after encoding is claimed.
- `JwkSelect`, UUID parsing and the mapping of reserved claims to a status: single branches.
- Servers, routers, telemetry, logging, configuration loading, migrations, the JavaScript client: no state that matters here.
- The cipher, random generation, the signature algorithms and JSON encoding: parameters with the laws stated above.
