/**
 Whole runs of the deployment: the rotation protocol interleaved with any number of signers and
 verifiers, each behind its own cached source. A run starts from an empty table and cold caches.
 */
module Lifecycle {
  import opened Wrappers
  import opened Time
  import opened Config
  import opened KeyTable
  import opened Protocol
  import opened ProtocolInvariant
  import opened Sources

  type SourceId = nat

  datatype Source = Source(usage: Usage, verifier: bool, cached: Option<Batch>)

  datatype Sys = Sys(store: State, sources: map<SourceId, Source>)

  /** `fetch` is what a search for the source's usage returns at this instant, or nothing if it fails. */
  datatype SysEvent =
    | Store(event: Event)
    | Sign(source: SourceId, fetch: Option<seq<Row>>)
    | Verify(source: SourceId, kid: KeyId, fetch: Option<seq<Row>>)

  function PolicyOf(p: Params, source: Source): Policy
    requires source.usage in p.config
  {
    PolicyFor(source.verifier, p.config[source.usage].key)
  }

  function Ids(keys: seq<Row>): (kids: seq<KeyId>)
    ensures |kids| == |keys| && forall i :: 0 <= i < |keys| ==> kids[i] == keys[i].id
  {
    seq(|keys|, i requires 0 <= i < |keys| => keys[i].id)
  }

  function FetchedIds(fetch: Option<seq<Row>>): Option<seq<KeyId>> {
    if fetch.Some? then Some(Ids(fetch.value)) else None
  }

  ghost predicate Callable(p: Params, s: Sys, source: SourceId, verifier: bool, fetch: Option<seq<Row>>) {
    && source in s.sources
    && s.sources[source].usage in p.config
    && s.sources[source].verifier == verifier
    && (fetch.Some? ==>
          IsSearch(s.store.db.rows, s.sources[source].usage, s.store.db.clock, KEYS_MAX_BATCH_SIZE, fetch.value))
  }

  ghost predicate SysEnabled(p: Params, s: Sys, e: SysEvent) {
    match e
    case Store(event) => Enabled(p, s.store, event)
    case Sign(source, fetch) => Callable(p, s, source, false, fetch)
    case Verify(source, _, fetch) => Callable(p, s, source, true, fetch)
  }

  /** The set the signer takes its head from. */
  function SignerSet(p: Params, s: Sys, source: SourceId, fetch: Option<seq<Row>>): Option<Batch>
    requires source in s.sources && s.sources[source].usage in p.config
  {
    Served(PolicyOf(p, s.sources[source]), s.sources[source].cached, s.store.db.clock, FetchedIds(fetch))
  }

  /** The set the verifier looks the kid up in. */
  function VerifierSet(p: Params, s: Sys, source: SourceId, kid: KeyId, fetch: Option<seq<Row>>): Option<Batch>
    requires source in s.sources && s.sources[source].usage in p.config
  {
    Searched(PolicyOf(p, s.sources[source]), s.sources[source].cached, s.store.db.clock, FetchedIds(fetch), kid)
  }

  function Remember(s: Sys, source: SourceId, batch: Option<Batch>): Sys
    requires source in s.sources
  {
    var src := s.sources[source];
    s.(sources := s.sources[source := src.(cached := Kept(src.cached, batch))])
  }

  ghost function SysAfter(p: Params, s: Sys, e: SysEvent): Sys
    requires SysEnabled(p, s, e)
  {
    match e
    case Store(event) => s.(store := After(p, s.store, event))
    case Sign(source, fetch) => Remember(s, source, SignerSet(p, s, source, fetch))
    case Verify(source, kid, fetch) => Remember(s, source, VerifierSet(p, s, source, kid, fetch))
  }

  /** The signer signs with the head of its set: the newest active key when the set was fetched. */
  ghost predicate SignsWith(p: Params, s: Sys, e: SysEvent, kid: KeyId) {
    e.Sign? && SysEnabled(p, s, e) &&
    var batch := SignerSet(p, s, e.source, e.fetch);
    batch.Some? && |batch.value.kids| > 0 && batch.value.kids[0] == kid
  }

  /** The verifier accepts a kid it finds in its set. */
  ghost predicate Accepts(p: Params, s: Sys, e: SysEvent, kid: KeyId) {
    e.Verify? && SysEnabled(p, s, e) && e.kid == kid &&
    var batch := VerifierSet(p, s, e.source, kid, e.fetch);
    batch.Some? && kid in batch.value.kids
  }

  ghost predicate SysInit(s: Sys) {
    Init(s.store) && forall id :: id in s.sources ==> s.sources[id].cached.None?
  }

  /** State `i` and event `i` lead to state `i + 1`. */
  datatype Run = Run(states: seq<Sys>, events: seq<SysEvent>)

  ghost predicate IsRun(p: Params, r: Run) {
    && |r.states| == |r.events| + 1
    && SysInit(r.states[0])
    && forall i :: 0 <= i < |r.events| ==> IsStep(p, r, i)
  }

  ghost predicate IsStep(p: Params, r: Run, i: nat)
    requires |r.states| == |r.events| + 1 && i < |r.events|
  {
    SysEnabled(p, r.states[i], r.events[i]) && r.states[i + 1] == SysAfter(p, r.states[i], r.events[i])
  }

  ghost function DbAt(r: Run, i: nat): Db
    requires i < |r.states|
  {
    r.states[i].store.db
  }

  /** The invariant of the rotation protocol holds throughout every run. */
  lemma {:induction false} RunInv(p: Params, r: Run, i: nat)
    requires IsRun(p, r) && NonNegative(p.config) && i < |r.states|
    ensures Inv(p, r.states[i].store)
  {
    if i == 0 {
      InitKeeps(p, r.states[0].store);
    } else {
      RunInv(p, r, i - 1);
      assert IsStep(p, r, i - 1);
      if r.events[i - 1].Store? {
        StepKeeps(p, r.states[i - 1].store, r.events[i - 1].event);
      }
    }
  }

  lemma GrowsTransitive(a: Db, b: Db, c: Db)
    requires Grows(a, b) && Grows(b, c)
    ensures Grows(a, c)
  {
  }

  /**
   Over any stretch of a run no row disappears, no key changes its id, usage, times or material,
   and a revocation, once recorded, is never changed.
   */
  lemma {:induction false} History(p: Params, r: Run, i: nat, j: nat)
    requires IsRun(p, r) && NonNegative(p.config) && i <= j < |r.states|
    ensures Grows(DbAt(r, i), DbAt(r, j))
    ensures r.states[j].sources.Keys == r.states[i].sources.Keys
    ensures forall id :: id in r.states[i].sources ==>
                           r.states[j].sources[id].usage == r.states[i].sources[id].usage &&
                           r.states[j].sources[id].verifier == r.states[i].sources[id].verifier
    decreases j - i
  {
    RunInv(p, r, i);
    if i < j {
      History(p, r, i, j - 1);
      RunInv(p, r, j - 1);
      assert IsStep(p, r, j - 1);
      if r.events[j - 1].Store? {
        StepGrows(p, r.states[j - 1].store, r.events[j - 1].event);
        GrowsTransitive(DbAt(r, i), DbAt(r, j - 1), DbAt(r, j));
      }
    }
  }

  /** Once lost, activity is not regained: neither time nor any step brings a key back. */
  lemma ActivityIsLostForGood(p: Params, r: Run, i: nat, j: nat, id: KeyId, t: Time)
    requires IsRun(p, r) && NonNegative(p.config) && i <= j < |r.states| && id in DbAt(r, i).rows
    requires DbAt(r, i).clock <= t && !ActiveAt(DbAt(r, i).rows[id], DbAt(r, i).clock)
    ensures id in DbAt(r, j).rows && !ActiveAt(DbAt(r, j).rows[id], t)
  {
    History(p, r, i, j);
  }

  /** The event has the source fetch exactly this list. */
  predicate Fetches(e: SysEvent, source: SourceId, keys: seq<Row>) {
    match e
    case Store(_) => false
    case Sign(src, fetch) => src == source && fetch == Some(keys)
    case Verify(src, _, fetch) => src == source && fetch == Some(keys)
  }

  /** Every set a source holds was the answer of a search at an earlier state of the run. */
  lemma {:induction false} BatchOrigin(p: Params, r: Run, i: nat, source: SourceId) returns (f: nat, keys: seq<Row>)
    requires IsRun(p, r) && i < |r.states| && source in r.states[i].sources && r.states[i].sources[source].cached.Some?
    ensures f < i && DbAt(r, f).clock == r.states[i].sources[source].cached.value.at
    ensures Fetches(r.events[f], source, keys)
    ensures IsSearch(DbAt(r, f).rows, r.states[i].sources[source].usage, DbAt(r, f).clock, KEYS_MAX_BATCH_SIZE, keys)
    ensures r.states[i].sources[source].cached.value.kids == Ids(keys)
  {
    assert i > 0;
    assert IsStep(p, r, i - 1);
    var before, after, e := r.states[i - 1], r.states[i], r.events[i - 1];
    assert source in before.sources && before.sources[source].usage == after.sources[source].usage;
    if before.sources[source].cached == after.sources[source].cached {
      f, keys := BatchOrigin(p, r, i - 1, source);
    } else {
      f := i - 1;
      keys := e.fetch.value;
    }
  }

  /** Keys a source works with at event `i` come from a search less than `cache` before it, or made at it. */
  lemma UsedSetOrigin(p: Params, r: Run, i: nat, source: SourceId, batch: Batch) returns (f: nat, keys: seq<Row>)
    requires IsRun(p, r) && NonNegative(p.config) && i < |r.events| && SysEnabled(p, r.states[i], r.events[i])
    requires match r.events[i]
             case Store(_) => false
             case Sign(src, fetch) => src == source && SignerSet(p, r.states[i], source, fetch) == Some(batch)
             case Verify(src, kid, fetch) =>
               src == source && VerifierSet(p, r.states[i], source, kid, fetch) == Some(batch)
    ensures f <= i && DbAt(r, f).clock <= DbAt(r, i).clock
    ensures || DbAt(r, i).clock < DbAt(r, f).clock + p.config[r.states[i].sources[source].usage].key.cache
            || DbAt(r, i).clock == DbAt(r, f).clock
    ensures IsSearch(DbAt(r, f).rows, r.states[i].sources[source].usage, DbAt(r, f).clock, KEYS_MAX_BATCH_SIZE, keys)
    ensures batch == Batch(DbAt(r, f).clock, Ids(keys))
  {
    assert IsStep(p, r, i);
    assert r.states[i + 1].sources[source].cached == Some(batch);
    f, keys := BatchOrigin(p, r, i + 1, source);
    History(p, r, f, i);
  }

  // ---- The steps of a source, and the source itself ----

  /** No event before `to`, from `from` on, calls the source. */
  ghost predicate NotCalled(r: Run, source: SourceId, from: nat, to: nat) {
    forall i: nat :: from <= i < to && i < |r.events| ==>
                       match r.events[i]
                       case Store(_) => true
                       case Sign(src, _) => src != source
                       case Verify(src, _, _) => src != source
  }

  lemma {:induction false} HeldMeanwhile(p: Params, r: Run, source: SourceId, i: nat, m: nat)
    requires IsRun(p, r) && i <= m < |r.states| && source in r.states[i].sources && NotCalled(r, source, i, m)
    ensures source in r.states[m].sources && r.states[m].sources[source] == r.states[i].sources[source]
    decreases m
  {
    if i < m {
      HeldMeanwhile(p, r, source, i, m - 1);
      assert IsStep(p, r, m - 1);
    }
  }

  /** The moment of the fetch that a call at this state ends up working with. */
  ghost function FetchedAt(p: Params, s: Sys, source: SourceId, kid: KeyId): Time
    requires source in s.sources && s.sources[source].usage in p.config
  {
    var src, now := s.sources[source], s.store.db.clock;
    if src.cached.Some? && now - src.cached.value.at < p.config[src.usage].key.cache
       && (kid in src.cached.value.kids || !src.verifier)
    then src.cached.value.at else now
  }

  /**
   What a verifier has accepted it goes on accepting, without another fetch, exactly as long as the set
   is younger than the cache duration. That set is the one held before, if it was warm and had the kid,
   and otherwise the one this very call fetched, be it because the set was cold or the kid unknown.
   */
  lemma AcceptedKeyIsHeld(p: Params, r: Run, i: nat, m: nat, kid: KeyId)
    requires IsRun(p, r) && NonNegative(p.config) && i < |r.events| && i < m < |r.states|
    requires Accepts(p, r.states[i], r.events[i], kid) && NotCalled(r, r.events[i].source, i + 1, m)
    ensures var source := r.events[i].source;
            && source in r.states[m].sources && r.states[m].sources[source].usage in p.config
            && (Accepts(p, r.states[m], Verify(source, kid, None), kid) <==>
                DbAt(r, m).clock - FetchedAt(p, r.states[i], source, kid)
                  < p.config[r.states[m].sources[source].usage].key.cache)
  {
    assert IsStep(p, r, i);
    History(p, r, i, m);
    HeldMeanwhile(p, r, r.events[i].source, i + 1, m);
  }

  /** And a signer goes on signing with the key it has signed with. */
  lemma SignedKeyIsHeld(p: Params, r: Run, i: nat, m: nat, kid: KeyId)
    requires IsRun(p, r) && NonNegative(p.config) && i < |r.events| && i < m < |r.states|
    requires SignsWith(p, r.states[i], r.events[i], kid) && NotCalled(r, r.events[i].source, i + 1, m)
    ensures var source := r.events[i].source;
            && source in r.states[m].sources && r.states[m].sources[source].usage in p.config
            && (SignsWith(p, r.states[m], Sign(source, None), kid) <==>
                DbAt(r, m).clock - FetchedAt(p, r.states[i], source, kid)
                  < p.config[r.states[m].sources[source].usage].key.cache)
  {
    assert IsStep(p, r, i);
    History(p, r, i, m);
    HeldMeanwhile(p, r, r.events[i].source, i + 1, m);
  }

  /** The source object stands for the source of the run: same policy, same held set. */
  ghost predicate StandsFor(p: Params, s: Sys, id: SourceId, source: KeySource)
    reads source
  {
    && id in s.sources && s.sources[id].usage in p.config
    && source.policy == PolicyOf(p, s.sources[id]) && source.cached == s.sources[id].cached
  }

  /** The verifier step of a run is a lookup on the source object. */
  method VerifyCall(
    ghost p: Params, ghost s: Sys, ghost id: SourceId, source: KeySource, kid: KeyId, now: Time,
    fetch: Option<seq<Row>>)
    returns (found: bool)
    requires SysEnabled(p, s, Verify(id, kid, fetch)) && StandsFor(p, s, id, source) && now == s.store.db.clock
    modifies source
    ensures found <==> Accepts(p, s, Verify(id, kid, fetch), kid)
    ensures StandsFor(p, SysAfter(p, s, Verify(id, kid, fetch)), id, source)
  {
    found := source.Get(kid, now, FetchedIds(fetch));
  }

  /** The signer step is a list call, of which the head is taken. */
  method SignCall(
    ghost p: Params, ghost s: Sys, ghost id: SourceId, source: KeySource, now: Time, fetch: Option<seq<Row>>)
    returns (head: Option<KeyId>)
    requires SysEnabled(p, s, Sign(id, fetch)) && StandsFor(p, s, id, source) && now == s.store.db.clock
    modifies source
    ensures forall kid: KeyId :: head == Some(kid) <==> SignsWith(p, s, Sign(id, fetch), kid)
    ensures StandsFor(p, SysAfter(p, s, Sign(id, fetch)), id, source)
  {
    var kids := source.List(now, FetchedIds(fetch));
    head := if kids.Some? && |kids.value| > 0 then Some(kids.value[0]) else None;
  }

  // ---- Building runs ----

  ghost function Extend(p: Params, r: Run, e: SysEvent): (r': Run)
    requires IsRun(p, r) && SysEnabled(p, r.states[|r.events|], e)
    ensures IsRun(p, r') && r'.states[|r'.events|] == SysAfter(p, r.states[|r.events|], e)
  {
    var r' := Run(r.states + [SysAfter(p, r.states[|r.events|], e)], r.events + [e]);
    assert forall i :: 0 <= i < |r.events| ==> IsStep(p, r, i) && IsStep(p, r', i);
    assert IsStep(p, r', |r.events|);
    r'
  }

  /** The second run starts as the first did and goes on. */
  ghost predicate GoesOn(r: Run, r': Run) {
    r.states <= r'.states && r.events <= r'.events
  }

  /** The protocol's own steps are steps of a run: whatever they lead to, a run reaches. */
  lemma {:induction false} ExtendStore(p: Params, r: Run, es: seq<Event>, store: State) returns (r': Run)
    requires IsRun(p, r) && Leads(p, r.states[|r.events|].store, es, store)
    ensures IsRun(p, r') && r'.states[|r'.events|] == r.states[|r.events|].(store := store) && GoesOn(r, r')
    decreases |es|
  {
    if es == [] {
      r' := r;
    } else {
      r' := ExtendStore(p, Extend(p, r, Store(es[0])), es[1..], store);
    }
  }
}
