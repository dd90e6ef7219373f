/** What rotation guarantees about the keys of one usage, in every run. */
module Spacing {
  import opened Wrappers
  import opened Time
  import opened Config
  import opened KeyTable
  import opened Issuance
  import opened Protocol
  import opened ProtocolInvariant
  import opened Lifecycle

  lemma TooManyForACrowd(p: Params, s: State, u: Usage, ks: set<KeyId>)
    requires Inv(p, s) && u in p.config && Members(s.db, u, ks) && |ks| > p.slots
    ensures !Tight(s.db.rows, ks, StoredGap(p.config[u].key)) && !AllYoung(s.db, ks, p.config[u].key.rotation)
  {
    var k := p.config[u].key;
    assert Crowd(p, s.db, u, ks) <==> Tight(s.db.rows, ks, StoredGap(k)) || AllYoung(s.db, ks, k.rotation);
  }

  /**
   With at most `slots` jobs in flight, any `slots + 1` keys of a usage that are committed and not
   withdrawn hold two whose stored creation times are at least one gap apart, despite the rounding
   of every stored time and whatever the interleaving.
   */
  lemma KeysAreSpaced(p: Params, r: Run, i: nat, u: Usage, ks: set<KeyId>) returns (a: KeyId, b: KeyId)
    requires IsRun(p, r) && NonNegative(p.config) && i < |r.states| && u in p.config
    requires Members(DbAt(r, i), u, ks) && |ks| > p.slots
    ensures a in ks && b in ks
    ensures DbAt(r, i).rows[b].created - DbAt(r, i).rows[a].created >= StoredGap(p.config[u].key)
  {
    RunInv(p, r, i);
    var d, gap := DbAt(r, i), StoredGap(p.config[u].key);
    TooManyForACrowd(p, r.states[i].store, u, ks);
    a, b :| a in ks && b in ks && d.rows[b].created - d.rows[a].created >= gap;
  }

  /** One job at a time: any two keys are one gap apart, for any interval and lifetime. */
  lemma SerialKeysAreSpaced(p: Params, r: Run, i: nat, u: Usage, a: KeyId, b: KeyId)
    requires IsRun(p, r) && NonNegative(p.config) && i < |r.states| && u in p.config && p.slots == 1
    requires a != b && Members(DbAt(r, i), u, {a, b})
    ensures var ca, cb := DbAt(r, i).rows[a].created, DbAt(r, i).rows[b].created;
            cb - ca >= StoredGap(p.config[u].key) || ca - cb >= StoredGap(p.config[u].key)
  {
    assert NonNegativeTerms(p.config[u].key);
    StoredGapSign(p.config[u].key);
    assert |{a, b}| == 2;
    var x, y := KeysAreSpaced(p, r, i, u, {a, b});
  }

  lemma StoredGapSign(k: KeyTerms)
    requires NonNegativeTerms(k)
    ensures 0 <= AgedGap(k) <= FloorSecond(k.ttl) <= CeilSecond(k.ttl) && 0 <= StoredGap(k)
  {
    FloorMonotone(0, k.ttl);
    FloorFacts(k.ttl);
    RoundFacts(AgedGap(k));
  }

  // ---- How many keys are active ----

  ghost function ActiveIds(d: Db, u: Usage): set<KeyId> {
    ViewIds(d, u, d.clock)
  }

  /** The keys of a usage that a view frozen at `t` shows. */
  ghost function ViewIds(d: Db, u: Usage, t: Time): set<KeyId> {
    set id | id in d.rows && Matches(d.rows, u, t, id)
  }

  ghost predicate InOneBucket(part: set<KeyId>, bucket: map<KeyId, int>, b: int) {
    forall a :: a in part ==> a in bucket && bucket[a] == b
  }

  ghost predicate SmallBuckets(ids: set<KeyId>, bucket: map<KeyId, int>, m: nat, n: nat) {
    && (forall id :: id in ids ==> id in bucket && 0 <= bucket[id] < m)
    && (forall part: set<KeyId>, b: int :: part <= ids && InOneBucket(part, bucket, b) ==> |part| <= n)
  }

  lemma FewerIds(ids: set<KeyId>, bucket: map<KeyId, int>, m: nat, n: nat) returns (last: set<KeyId>)
    requires SmallBuckets(ids, bucket, m, n) && 0 < m
    ensures last <= ids && |last| <= n && SmallBuckets(ids - last, bucket, m - 1, n)
  {
    last := set id | id in ids && bucket[id] == m - 1;
    assert InOneBucket(last, bucket, m - 1);
  }

  lemma SplitSize(ids: set<KeyId>, part: set<KeyId>)
    requires part <= ids
    ensures |ids| == |part| + |ids - part|
  {
    assert ids == part + (ids - part);
  }

  lemma OneMore(n: nat, m: nat)
    requires 0 < m
    ensures n * (m - 1) + n == n * m
  {
  }

  lemma {:induction false} Buckets(ids: set<KeyId>, bucket: map<KeyId, int>, m: nat, n: nat)
    requires SmallBuckets(ids, bucket, m, n)
    ensures |ids| <= n * m
  {
    if m == 0 {
      assert ids == {};
    } else {
      var last := FewerIds(ids, bucket, m, n);
      Buckets(ids - last, bucket, m - 1, n);
      SplitSize(ids, last);
      OneMore(n, m);
    }
  }

  function CeilDiv(x: int, d: int): (q: nat)
    requires 0 < d
  {
    if x <= 0 then 0 else (x - 1) / d + 1
  }

  /**
   The most keys of a usage that a view `lag` behind the clock can show: one crowd of young ones,
   and one crowd for each stretch of one gap that the older ones fit in.
   */
  function ViewBound(slots: nat, k: KeyTerms, lag: nat): (n: nat)
    requires 0 < StoredGap(k)
  {
    slots * (1 + CeilDiv(CeilSecond(k.ttl) + lag - AgedGap(k), StoredGap(k)))
  }

  function ActiveBound(slots: nat, k: KeyTerms): nat
    requires 0 < StoredGap(k)
  {
    ViewBound(slots, k, 0)
  }

  /** Terms in whole seconds: the bound is `slots` keys for each interval begun within one lifetime. */
  lemma WholeBound(slots: nat, k: KeyTerms)
    requires Whole(k.rotation) && Whole(k.ttl) && 0 < k.rotation <= k.ttl
    ensures 0 < StoredGap(k) && ActiveBound(slots, k) == slots * CeilDiv(k.ttl, k.rotation)
  {
    StoredGapCoversInterval(k);
    FloorFacts(k.ttl);
    CeilStep(k.ttl, k.rotation);
  }

  lemma CeilStep(x: int, d: int)
    requires 0 < d <= x
    ensures CeilDiv(x, d) == 1 + CeilDiv(x - d, d)
  {
    if d < x {
      QuotientStep(x - 1, d);
    } else {
      QuotientOrder(0, x - 1, (x - 1) / d, (x - 1) % d, d);
      QuotientOrder((x - 1) / d, (x - 1) % d, 0, x - 1, d);
    }
  }

  /** Under the shipped terms: 7 access keys and 5 refresh keys for each job that may be in flight. */
  lemma ShippedBounds(slots: nat)
    ensures 0 < StoredGap(AUTH.key) && ActiveBound(slots, AUTH.key) == 7 * slots
    ensures 0 < StoredGap(AUTH_REFRESH.key) && ActiveBound(slots, AUTH_REFRESH.key) == 5 * slots
    ensures ActiveBound(slots, AUTH.key) <= KEYS_MAX_BATCH_SIZE <==> slots <= 14
    ensures ActiveBound(slots, AUTH_REFRESH.key) <= KEYS_MAX_BATCH_SIZE <==> slots <= 20
  {
    WholeBound(slots, AUTH.key);
    WholeBound(slots, AUTH_REFRESH.key);
    assert CeilDiv(168 * HOUR, 24 * HOUR) == 7 && CeilDiv(720 * HOUR, 168 * HOUR) == 5;
    assert slots * 7 == 7 * slots && slots * 5 == 5 * slots;
  }

  lemma QuotientStep(x: int, d: int)
    requires 0 < d <= x
    ensures x / d == (x - d) / d + 1
  {
    var q, r, q', r' := x / d, x % d, (x - d) / d, (x - d) % d;
    assert x == q * d + r && x - d == q' * d + r';
    assert (q' + 1) * d == q' * d + d;
    QuotientOrder(q, r, q' + 1, r', d);
    QuotientOrder(q' + 1, r', q, r, d);
  }

  lemma SameBucketIsTight(x: int, y: int, gap: int)
    requires 0 <= x && 0 <= y && 0 < gap && x / gap == y / gap
    ensures y - x < gap
  {
    assert x == x / gap * gap + x % gap;
    assert y == y / gap * gap + y % gap;
  }

  lemma BucketInRange(x: int, top: int, gap: int)
    requires 0 <= x < top && 0 < gap
    ensures 0 <= x / gap < CeilDiv(top, gap)
  {
    QuotientOrder(x / gap, x % gap, (top - 1) / gap, (top - 1) % gap, gap);
  }

  lemma QuotientOrder(qx: int, rx: int, qt: int, rt: int, gap: int)
    requires 0 < gap && 0 <= rx < gap && 0 <= rt < gap && qx * gap + rx <= qt * gap + rt
    ensures qx <= qt
  {
    if qt < qx {
      MulStep(qx, qt, gap);
    }
  }

  lemma {:induction false} MulStep(a: int, b: int, gap: int)
    requires b < a && 0 < gap
    ensures b * gap + gap <= a * gap
    decreases a - b
  {
    if b + 1 < a {
      MulStep(a - 1, b, gap);
    }
    assert a * gap == (a - 1) * gap + gap;
  }

  /** Nothing the view shows has been withdrawn since. */
  ghost predicate NoneWithdrawnSince(d: Db, u: Usage, t: Time) {
    forall id :: Matches(d.rows, u, t, id) ==> Standing(d.rows[id], d.clock)
  }

  /** Young keys go to bucket 0, older ones to a bucket for each gap of age. */
  function BucketOf(clock: Time, k: KeyTerms, created: Time): int
    requires 0 < StoredGap(k)
  {
    if clock < created + AgedGap(k) then 0 else 1 + (clock - AgedGap(k) - created) / StoredGap(k)
  }

  lemma BucketIsCrowd(p: Params, d: Db, u: Usage, t: Time, part: set<KeyId>, b: int)
    requires RowsOk(p, d) && u in p.config && 0 < StoredGap(p.config[u].key)
    requires NoneWithdrawnSince(d, u, t) && part <= ViewIds(d, u, t)
    requires forall a :: a in part ==> BucketOf(d.clock, p.config[u].key, d.rows[a].created) == b
    ensures Crowd(p, d, u, part)
  {
    var k := p.config[u].key;
    if b == 0 {
      forall a | a in part ensures Young(d.rows[a], d.clock, k.rotation) {
        OldIsPositive(d.clock, k, d.rows[a].created);
        assert RowOk(p, d.clock, a, d.rows[a]);
      }
    } else {
      forall a, c | a in part && c in part ensures d.rows[c].created - d.rows[a].created < StoredGap(k) {
        OldIsPositive(d.clock, k, d.rows[a].created);
        OldIsPositive(d.clock, k, d.rows[c].created);
        var aged := d.clock - AgedGap(k);
        SameBucketIsTight(aged - d.rows[c].created, aged - d.rows[a].created, StoredGap(k));
      }
    }
  }

  lemma OldIsPositive(clock: Time, k: KeyTerms, created: Time)
    requires 0 < StoredGap(k)
    ensures BucketOf(clock, k, created) == 0 <==> clock < created + AgedGap(k)
  {
    if clock >= created + AgedGap(k) {
      var x, gap := clock - AgedGap(k) - created, StoredGap(k);
      QuotientOrder(0, 0, x / gap, x % gap, gap);
    }
  }

  lemma BucketOfRange(p: Params, d: Db, u: Usage, t: Time, id: KeyId)
    requires 0 <= t <= d.clock && RowsOk(p, d) && u in p.config && 0 < StoredGap(p.config[u].key)
    requires Matches(d.rows, u, t, id)
    ensures var k := p.config[u].key;
            var m := 1 + CeilDiv(CeilSecond(k.ttl) + d.clock - t - AgedGap(k), StoredGap(k));
            0 <= BucketOf(d.clock, k, d.rows[id].created) < m
  {
    var k := p.config[u].key;
    assert RowOk(p, d.clock, id, d.rows[id]);
    if d.clock >= d.rows[id].created + AgedGap(k) {
      var x, top := d.clock - AgedGap(k) - d.rows[id].created, CeilSecond(k.ttl) + d.clock - t - AgedGap(k);
      BucketInRange(x, top, StoredGap(k));
    }
  }

  ghost function BucketMap(d: Db, k: KeyTerms, ids: set<KeyId>): map<KeyId, int>
    requires ids <= d.rows.Keys && 0 < StoredGap(k)
  {
    map id | id in ids :: BucketOf(d.clock, k, d.rows[id].created)
  }

  lemma PartsAreSmall(p: Params, s: State, u: Usage, t: Time, part: set<KeyId>, b: int)
    requires Inv(p, s) && u in p.config && 0 < StoredGap(p.config[u].key)
    requires NoneWithdrawnSince(s.db, u, t) && part <= ViewIds(s.db, u, t)
    requires InOneBucket(part, BucketMap(s.db, p.config[u].key, ViewIds(s.db, u, t)), b)
    ensures |part| <= p.slots
  {
    var k, bucket := p.config[u].key, BucketMap(s.db, p.config[u].key, ViewIds(s.db, u, t));
    forall a | a in part ensures BucketOf(s.db.clock, k, s.db.rows[a].created) == b {
      assert bucket[a] == b;
    }
    BucketIsCrowd(p, s.db, u, t, part, b);
  }

  lemma ViewKeysBounded(p: Params, s: State, u: Usage, t: Time)
    requires Inv(p, s) && u in p.config && 0 < StoredGap(p.config[u].key)
    requires 0 <= t <= s.db.clock && NoneWithdrawnSince(s.db, u, t)
    ensures |ViewIds(s.db, u, t)| <= ViewBound(p.slots, p.config[u].key, s.db.clock - t)
  {
    var k, ids := p.config[u].key, ViewIds(s.db, u, t);
    var m := 1 + CeilDiv(CeilSecond(k.ttl) + s.db.clock - t - AgedGap(k), StoredGap(k));
    var bucket := BucketMap(s.db, k, ids);
    forall id | id in ids ensures id in bucket && 0 <= bucket[id] < m {
      BucketOfRange(p, s.db, u, t, id);
    }
    forall part: set<KeyId>, b: int | part <= ids && InOneBucket(part, bucket, b) ensures |part| <= p.slots {
      PartsAreSmall(p, s, u, t, part, b);
    }
    Buckets(ids, bucket, m, p.slots);
  }

  /**
   In every state of every run a view of the usage shows a bounded number of keys, however far it
   lags, provided that nothing it shows has been withdrawn since.
   */
  lemma ViewIsBounded(p: Params, r: Run, i: nat, u: Usage, t: Time)
    requires IsRun(p, r) && NonNegative(p.config) && i < |r.states| && u in p.config && 0 < StoredGap(p.config[u].key)
    requires 0 <= t <= DbAt(r, i).clock && NoneWithdrawnSince(DbAt(r, i), u, t)
    ensures |ViewIds(DbAt(r, i), u, t)| <= ViewBound(p.slots, p.config[u].key, DbAt(r, i).clock - t)
  {
    RunInv(p, r, i);
    ViewKeysBounded(p, r.states[i].store, u, t);
  }

  /** In every state of every run a usage has at most `ActiveBound` active keys. */
  lemma ActiveKeysAreBounded(p: Params, r: Run, i: nat, u: Usage)
    requires IsRun(p, r) && NonNegative(p.config) && i < |r.states| && u in p.config && 0 < StoredGap(p.config[u].key)
    ensures |ActiveIds(DbAt(r, i), u)| <= ActiveBound(p.slots, p.config[u].key)
  {
    RunInv(p, r, i);
    ViewKeysBounded(p, r.states[i].store, u, DbAt(r, i).clock);
  }

  /** A search whose matching rows fit in the limit lists all of them. */
  lemma SearchListsAll(rows: Rows, u: Usage, t: Time, keys: seq<Row>, matching: set<KeyId>)
    requires IsSearch(rows, u, t, KEYS_MAX_BATCH_SIZE, keys) && Keyed(rows)
    requires matching == (set id | id in rows && Matches(rows, u, t, id)) && |matching| <= KEYS_MAX_BATCH_SIZE
    ensures forall id :: id in matching <==> id in Ids(keys)
    ensures |keys| == |matching|
  {
    var listed := set i: int | 0 <= i < |keys| :: keys[i].id;
    DistinctSize(keys, listed);
    forall i | 0 <= i < |keys| ensures keys[i].id in matching {
      assert Matches(rows, u, t, keys[i].id);
    }
    SubsetSize(listed, matching);
    forall id | id in matching ensures id in Ids(keys) && id in listed {
      if !Listed(keys, id) {
        assert id !in listed && Matches(rows, u, t, id);
        SubsetSize(listed, matching - {id});
      }
      var i :| 0 <= i < |keys| && keys[i].id == id;
      assert Ids(keys)[i] == id;
    }
    assert listed == matching;
  }

  lemma {:induction false} DistinctSize(keys: seq<Row>, ids: set<KeyId>)
    requires forall i, j :: 0 <= i < j < |keys| ==> keys[i].id != keys[j].id
    requires ids == set i: int | 0 <= i < |keys| :: keys[i].id
    ensures |ids| == |keys|
  {
    if |keys| > 0 {
      var init, last := keys[..|keys| - 1], keys[|keys| - 1].id;
      var rest := set i: int | 0 <= i < |init| :: init[i].id;
      DistinctSize(init, rest);
      assert last in ids by { assert keys[|keys| - 1].id == last; }
      forall id | id in ids && id != last ensures id in rest {
        var i: int :| 0 <= i < |keys| && keys[i].id == id;
        assert init[i].id == id;
      }
      forall id | id in rest ensures id in ids && id != last {
        var i: int :| 0 <= i < |init| && init[i].id == id;
        assert keys[i].id == id;
      }
      assert ids == rest + {last};
    } else {
      assert ids == {};
    }
  }

  /** While the bound is within the limit, a search returns exactly the keys its view shows. */
  lemma ViewSearchIsComplete(p: Params, r: Run, i: nat, u: Usage, t: Time, keys: seq<Row>)
    requires IsRun(p, r) && NonNegative(p.config) && i < |r.states| && u in p.config && 0 < StoredGap(p.config[u].key)
    requires 0 <= t <= DbAt(r, i).clock && NoneWithdrawnSince(DbAt(r, i), u, t)
    requires ViewBound(p.slots, p.config[u].key, DbAt(r, i).clock - t) <= KEYS_MAX_BATCH_SIZE
    requires IsSearch(DbAt(r, i).rows, u, t, KEYS_MAX_BATCH_SIZE, keys)
    ensures forall id :: id in ViewIds(DbAt(r, i), u, t) <==> id in Ids(keys)
    ensures |keys| == |ViewIds(DbAt(r, i), u, t)|
  {
    ViewIsBounded(p, r, i, u, t);
    RowsAreKeyed(p, r, i);
    SearchListsAll(DbAt(r, i).rows, u, t, keys, ViewIds(DbAt(r, i), u, t));
  }

  lemma RowsAreKeyed(p: Params, r: Run, i: nat)
    requires IsRun(p, r) && NonNegative(p.config) && i < |r.states|
    ensures Keyed(DbAt(r, i).rows) && 0 <= DbAt(r, i).clock
  {
    RunInv(p, r, i);
    forall id | id in DbAt(r, i).rows ensures DbAt(r, i).rows[id].id == id {
      assert RowOk(p, DbAt(r, i).clock, id, DbAt(r, i).rows[id]);
    }
  }

  /** A query that starts now: its list holds exactly the active keys. */
  lemma SearchIsComplete(p: Params, r: Run, i: nat, u: Usage, keys: seq<Row>)
    requires IsRun(p, r) && NonNegative(p.config) && i < |r.states| && u in p.config && 0 < StoredGap(p.config[u].key)
    requires ActiveBound(p.slots, p.config[u].key) <= KEYS_MAX_BATCH_SIZE
    requires IsSearch(DbAt(r, i).rows, u, DbAt(r, i).clock, KEYS_MAX_BATCH_SIZE, keys)
    ensures forall id :: id in ActiveIds(DbAt(r, i), u) <==> id in Ids(keys)
    ensures |keys| == |ActiveIds(DbAt(r, i), u)|
  {
    RowsAreKeyed(p, r, i);
    ViewSearchIsComplete(p, r, i, u, DbAt(r, i).clock, keys);
  }

  // ---- Skipping and replacing ----

  /** A job that skips leaves a key that has not expired at the age check, however old its view is. */
  lemma SkippedKeyIsUnexpired(p: Params, r: Run, i: nat, j: JobId)
    requires IsRun(p, r) && NonNegative(p.config) && i < |r.states| && Enabled(p, r.states[i].store, Skip(j))
    requires LifetimeCoversRotation(p.config[r.states[i].store.jobs[j].phase.usage].key)
    ensures var keys := r.states[i].store.jobs[j].phase.keys;
            |keys| > 0 && keys[0].expires > DbAt(r, i).clock
  {
    RunInv(p, r, i);
    var s := r.states[i].store;
    var job := s.jobs[j];
    assert JobOk(p, s.db, job);
    var keys, u := job.phase.keys, job.phase.usage;
    SkipOnlyRecent(keys, s.db.clock, p.config[u].key.rotation);
    assert keys[0].id in s.db.rows && SameKey(s.db.rows[keys[0].id], keys[0]);
    assert RowOk(p, s.db.clock, keys[0].id, s.db.rows[keys[0].id]);
  }

  /** No key of the usage was committed between the two states. */
  ghost predicate NoNewKey(d: Db, d': Db, u: Usage) {
    forall id :: id in d'.rows && d'.rows[id].usage == u ==> id in d.rows
  }

  /** With jobs serialised, at most one standing key is young. */
  lemma OneIsYoung(p: Params, s: State, u: Usage, a: KeyId, b: KeyId)
    requires Inv(p, s) && p.slots == 1 && u in p.config && a != b && Members(s.db, u, {a, b})
    ensures !Young(s.db.rows[a], s.db.clock, p.config[u].key.rotation)
            || !Young(s.db.rows[b], s.db.clock, p.config[u].key.rotation)
  {
    var ks := {a, b};
    assert |ks| == 2;
    TooManyForACrowd(p, s, u, ks);
  }

  /** So every active key but the newest is at least one interval old, whatever the interval and the lifetime. */
  lemma OnlyNewestIsYoung(p: Params, s: State, u: Usage, top: KeyId, other: KeyId)
    requires Inv(p, s) && p.slots == 1 && u in p.config && top != other
    requires Matches(s.db.rows, u, s.db.clock, top) && Matches(s.db.rows, u, s.db.clock, other)
    requires s.db.rows[other].created <= s.db.rows[top].created
    ensures s.db.rows[other].created + p.config[u].key.rotation <= s.db.clock
  {
    OneIsYoung(p, s, u, top, other);
  }

  /** A revocation of `top`, the newest active key of its usage, at event `i`. */
  ghost predicate RevokesNewest(r: Run, i: nat, top: KeyId) {
    && i < |r.events| && i < |r.states|
    && r.events[i].Store? && r.events[i].event.Revoke? && r.events[i].event.id == top
    && top in DbAt(r, i).rows
    && Matches(DbAt(r, i).rows, DbAt(r, i).rows[top].usage, DbAt(r, i).clock, top)
    && forall id :: Matches(DbAt(r, i).rows, DbAt(r, i).rows[top].usage, DbAt(r, i).clock, id) ==>
                      DbAt(r, i).rows[id].created <= DbAt(r, i).rows[top].created
  }

  /** The keys such a later transaction still sees are other keys, and old ones. */
  lemma RemainingKeysAreOld(p: Params, d: Db, store: State, d': Db, u: Usage, top: KeyId, id: KeyId, start: Time)
    requires Inv(p, store) && store.db == d && p.slots == 1 && u in p.config && Grows(d, d')
    requires NoNewKey(d, d', u) && d.clock <= start
    requires Matches(d.rows, u, d.clock, top)
    requires top in d'.rows && d'.rows[top].deleted.Some? && d'.rows[top].deleted.value <= start
    requires forall id :: Matches(d.rows, u, d.clock, id) ==> d.rows[id].created <= d.rows[top].created
    requires Matches(d'.rows, u, start, id)
    ensures d'.rows[id].created + p.config[u].key.rotation <= d.clock
  {
    assert id != top && SameKey(d.rows[id], d'.rows[id]);
    assert Matches(d.rows, u, d.clock, id);
    OnlyNewestIsYoung(p, store, u, top, id);
  }

  /**
   Revoking the newest key forces a replacement. With jobs serialised, take a revocation of the
   newest active key at event `i` and a later read at event `m`, in a transaction that began after
   it and at or after the stored revocation time, with no key of that usage committed in between.
   Then the age test passes from that read on: the job generates and cannot skip.
   */
  lemma RevokedHeadIsReplaced(p: Params, r: Run, i: nat, m: nat, top: KeyId, j: JobId, keys: seq<Row>, later: Time)
    requires IsRun(p, r) && NonNegative(p.config) && p.slots == 1 && i < m < |r.events|
    requires RevokesNewest(r, i, top) && NoNewKey(DbAt(r, i), DbAt(r, m), DbAt(r, i).rows[top].usage)
    requires r.events[m] == Store(Read(j, DbAt(r, i).rows[top].usage, keys)) && j in r.states[m].store.jobs
    requires DbAt(r, i).clock <= r.states[m].store.jobs[j].start
    requires RoundToSecond(r.events[i].event.now) <= r.states[m].store.jobs[j].start
    requires DbAt(r, m).clock <= later
    ensures DbAt(r, i).rows[top].usage in p.config
    ensures Overdue(keys, later, p.config[DbAt(r, i).rows[top].usage].key.rotation)
  {
    var d, dm, u := DbAt(r, i), DbAt(r, m), DbAt(r, i).rows[top].usage;
    RunInv(p, r, i);
    assert RowOk(p, d.clock, top, d.rows[top]) && NonNegativeTerms(p.config[u].key);
    RevocationSticks(p, r, i, m, top);
    History(p, r, i, m);
    if |keys| > 0 {
      ReadsCommitted(p, r, m, j, u, keys);
      RemainingKeysAreOld(p, d, r.states[i].store, dm, u, top, keys[0].id, r.states[m].store.jobs[j].start);
      OverdueMeansAged(keys, later, p.config[u].key.rotation);
    } else if !Overdue(keys, later, p.config[u].key.rotation) {
      SkipOnlyRecent(keys, later, p.config[u].key.rotation);
    }
  }

  lemma RevocationSticks(p: Params, r: Run, i: nat, m: nat, top: KeyId)
    requires IsRun(p, r) && NonNegative(p.config) && i < m < |r.events| && RevokesNewest(r, i, top)
    ensures top in DbAt(r, m).rows
    ensures DbAt(r, m).rows[top].deleted == Some(RoundToSecond(r.events[i].event.now))
  {
    assert IsStep(p, r, i);
    History(p, r, i + 1, m);
  }

  /** A job reading a usage it has not handled sees committed rows only. */
  lemma ReadsCommitted(p: Params, r: Run, m: nat, j: JobId, u: Usage, keys: seq<Row>)
    requires IsRun(p, r) && NonNegative(p.config) && m < |r.events| && r.events[m] == Store(Read(j, u, keys))
    requires j in r.states[m].store.jobs && |keys| > 0
    ensures Matches(DbAt(r, m).rows, u, r.states[m].store.jobs[j].start, keys[0].id)
    ensures DbAt(r, m).rows[keys[0].id] == keys[0]
  {
    RunInv(p, r, m);
    assert IsStep(p, r, m);
    var job := r.states[m].store.jobs[j];
    assert JobOk(p, DbAt(r, m), job);
    assert Matches(DbAt(r, m).rows + job.pending, u, job.start, keys[0].id);
  }
}
