/** Runs that reach the bounds proved elsewhere, or that break what only holds under a condition. */
module Witnesses {
  import opened Wrappers
  import opened Time
  import opened Config
  import opened KeyTable
  import opened Issuance
  import opened Protocol
  import opened Sources
  import opened Lifecycle
  import opened Spacing
  import opened TokenLife

  // ---- Building blocks ----

  /** The newest `limit` keys of a pool, newest first. */
  lemma {:induction false} NewestFirst(rows: Rows, pool: set<KeyId>, limit: nat) returns (keys: seq<Row>)
    requires Keyed(rows) && pool <= rows.Keys
    ensures |keys| <= limit
    ensures forall i :: 0 <= i < |keys| ==> keys[i].id in pool && rows[keys[i].id] == keys[i]
    ensures forall i, j :: 0 <= i < j < |keys| ==> keys[i].id != keys[j].id && keys[i].created >= keys[j].created
    ensures forall id :: id in pool ==> Listed(keys, id) || (|keys| == limit && NoneOlder(keys, rows[id].created))
    decreases limit
  {
    keys := [];
    if pool != {} && limit > 0 {
      var top := SomeNewest(rows, pool);
      var rest := NewestFirst(rows, pool - {top}, limit - 1);
      keys := [rows[top]] + rest;
      assert keys[0].id == top;
      forall id | id in pool ensures Listed(keys, id) || (|keys| == limit && NoneOlder(keys, rows[id].created)) {
        if id != top && Listed(rest, id) {
          var i :| 0 <= i < |rest| && rest[i].id == id;
          assert keys[i + 1].id == id;
        }
      }
    }
  }

  /** A search always has an answer. */
  lemma SearchAnswers(rows: Rows, u: Usage, t: Time) returns (keys: seq<Row>)
    requires Keyed(rows)
    ensures IsSearch(rows, u, t, KEYS_MAX_BATCH_SIZE, keys)
  {
    var matching := set id | id in rows && Matches(rows, u, t, id);
    keys := NewestFirst(rows, matching, KEYS_MAX_BATCH_SIZE);
  }

  /** A job that passed the age test of the only usage, one insert short of its commit. */
  predicate AboutToInsert(p: Params, s: State, j: JobId, u: Usage) {
    && j in s.jobs && u in p.config
    && s.jobs[j].phase == Generating(u) && s.jobs[j].todo == {u} && s.jobs[j].pending == map[]
  }

  /** A new job begins and reads the usage. */
  lemma BeginLeads(p: Params, s: State, j: JobId, u: Usage, keys: seq<Row>) returns (es: seq<Event>, s': State)
    requires u in p.config && j !in s.jobs && |s.jobs| < p.slots
    requires IsSearch(s.db.rows, u, s.db.clock, KEYS_MAX_BATCH_SIZE, keys)
    ensures Leads(p, s, es, s') && s'.db == s.db
    ensures s'.jobs == s.jobs[j := Job(s.db.clock, s.db.rows.Keys, p.config.Keys, Fetched(u, keys), map[])]
  {
    var s1 := After(p, s, Begin(j));
    assert s1.db.rows + s1.jobs[j].pending == s.db.rows;
    es, s' := [Begin(j), Read(j, u, keys)], After(p, s1, Read(j, u, keys));
    TwoSteps(p, s, Begin(j), Read(j, u, keys));
  }

  lemma DueLeads(p: Params, s: State, j: JobId, u: Usage, keys: seq<Row>) returns (es: seq<Event>, s': State)
    requires p.config.Keys == {u} && j !in s.jobs && |s.jobs| < p.slots
    requires IsSearch(s.db.rows, u, s.db.clock, KEYS_MAX_BATCH_SIZE, keys)
    requires Overdue(keys, s.db.clock, p.config[u].key.rotation)
    ensures Leads(p, s, es, s') && s'.db == s.db && AboutToInsert(p, s', j, u)
    ensures s'.jobs == s.jobs[j := s'.jobs[j]]
  {
    var es1, s1 := BeginLeads(p, s, j, u, keys);
    s' := After(p, s1, Generate(j));
    OneStep(p, s1, Generate(j));
    es := es1 + [Generate(j)];
    LeadsOn(p, s, es1, s1, [Generate(j)], s');
  }

  function MadeAt(p: Params, id: KeyId, u: Usage, t: Time): Row
    requires u in p.config
  {
    MintedRow(id, "k", None, u, t, p.config[u].key.ttl)
  }

  lemma InsertAndCommit(p: Params, s: State, j: JobId, u: Usage, id: KeyId) returns (es: seq<Event>, s': State)
    requires AboutToInsert(p, s, j, u) && UnusedId(s, id)
    ensures Leads(p, s, es, s') && s'.db.clock == s.db.clock && s'.jobs == s.jobs - {j}
    ensures s'.db.rows == s.db.rows[id := MadeAt(p, id, u, s.db.clock)]
  {
    var insert := Insert(j, id, "k", None);
    var s1 := After(p, s, insert);
    assert s1.jobs[j].todo == {};
    s' := After(p, s1, Commit(j));
    TwoSteps(p, s, insert, Commit(j));
    es := [insert, Commit(j)];
    assert s.jobs[j := s1.jobs[j]] - {j} == s.jobs - {j};
    assert s.db.rows + map[][id := MadeAt(p, id, u, s.db.clock)] == s'.db.rows;
  }

  // ---- Jobs in flight together ----

  /** These are the first `n` numbers. */
  ghost predicate UpTo(ids: set<nat>, n: nat) {
    forall i: nat :: i in ids <==> i < n
  }

  lemma {:induction false} UpToSize(ids: set<nat>, n: nat)
    requires UpTo(ids, n)
    ensures |ids| == n
    decreases n
  {
    if n == 0 {
      assert ids == {};
    } else {
      UpToSize(ids - {n - 1}, n - 1);
    }
  }

  /** Jobs `0` to `n - 1`, and no others, are one insert short of their commit. */
  ghost predicate Waiting(p: Params, s: State, u: Usage, n: nat) {
    UpTo(s.jobs.Keys, n) && forall j :: j in s.jobs ==> AboutToInsert(p, s, j, u)
  }

  lemma OneMoreWaits(p: Params, s: State, s': State, u: Usage, n: nat)
    requires Waiting(p, s, u, n) && n !in s.jobs && AboutToInsert(p, s', n, u) && s'.jobs == s.jobs[n := s'.jobs[n]]
    ensures Waiting(p, s', u, n + 1)
  {
    forall j | j in s'.jobs ensures AboutToInsert(p, s', j, u) {
      assert j != n ==> AboutToInsert(p, s, j, u);
    }
  }

  lemma OneLessWaits(p: Params, s: State, s': State, u: Usage, n: nat, j: JobId)
    requires n == j + 1 && Waiting(p, s, u, n) && s'.jobs == s.jobs - {j}
    ensures Waiting(p, s', u, j)
  {
    forall i | i in s'.jobs ensures AboutToInsert(p, s', i, u) {
      assert AboutToInsert(p, s, i, u);
    }
  }

  /** Job `n` begins, reads the list and passes the age test beside those that wait already. */
  lemma OneStarts(p: Params, s: State, u: Usage, keys: seq<Row>, n: nat) returns (es: seq<Event>, s': State)
    requires p.config.Keys == {u} && Waiting(p, s, u, n) && n < p.slots
    requires IsSearch(s.db.rows, u, s.db.clock, KEYS_MAX_BATCH_SIZE, keys)
    requires Overdue(keys, s.db.clock, p.config[u].key.rotation)
    ensures Leads(p, s, es, s') && s'.db == s.db && Waiting(p, s', u, n + 1)
  {
    UpToSize(s.jobs.Keys, n);
    es, s' := DueLeads(p, s, n, u, keys);
    OneMoreWaits(p, s, s', u, n);
  }

  /** The first `n` jobs begin, read the same list and pass the age test before any of them inserts. */
  lemma {:induction false} AllStart(p: Params, s: State, u: Usage, keys: seq<Row>, n: nat)
    returns (es: seq<Event>, s': State)
    requires p.config.Keys == {u} && Waiting(p, s, u, 0) && n <= p.slots
    requires IsSearch(s.db.rows, u, s.db.clock, KEYS_MAX_BATCH_SIZE, keys)
    requires Overdue(keys, s.db.clock, p.config[u].key.rotation)
    ensures Leads(p, s, es, s') && s'.db == s.db && Waiting(p, s', u, n)
    decreases n
  {
    if n == 0 {
      es, s' := [], s;
    } else {
      var es1, s1 := AllStart(p, s, u, keys, n - 1);
      var es2;
      es2, s' := OneStarts(p, s1, u, keys, n - 1);
      es := es1 + es2;
      LeadsOn(p, s, es1, s1, es2, s');
    }
  }

  lemma IdIsUnused(p: Params, s: State, u: Usage, n: nat, id: KeyId)
    requires Waiting(p, s, u, n) && id !in s.db.rows
    ensures UnusedId(s, id)
  {
    forall j | j in s.jobs ensures id !in s.jobs[j].pending {
      assert AboutToInsert(p, s, j, u);
    }
  }

  /** `after` is `before` with keys up to `n`, all but those of `before` made at `t`. */
  ghost predicate Filled(p: Params, before: Rows, after: Rows, u: Usage, n: nat, t: Time)
    requires u in p.config
  {
    && UpTo(after.Keys, n) && before.Keys <= after.Keys
    && forall id :: id in after ==> after[id] == if id in before then before[id] else MadeAt(p, id, u, t)
  }

  lemma FilledOn(p: Params, before: Rows, mid: Rows, after: Rows, u: Usage, first: KeyId, n: nat, t: Time)
    requires u in p.config && UpTo(before.Keys, first) && mid == before[first := MadeAt(p, first, u, t)]
    requires Filled(p, mid, after, u, n, t)
    ensures Filled(p, before, after, u, n, t)
  {
  }

  lemma OneMoreRow(before: Rows, first: KeyId, row: Row)
    requires UpTo(before.Keys, first)
    ensures UpTo(before[first := row].Keys, first + 1)
  {
  }

  lemma NobodyWaits(p: Params, s: State, u: Usage, first: KeyId)
    requires u in p.config && Waiting(p, s, u, 0) && UpTo(s.db.rows.Keys, first)
    ensures s.jobs == map[] && Filled(p, s.db.rows, s.db.rows, u, first, s.db.clock)
  {
  }

  lemma OneFinishes(p: Params, s: State, u: Usage, n: nat, first: KeyId) returns (es: seq<Event>, s': State)
    requires u in p.config && 0 < n && Waiting(p, s, u, n) && UpTo(s.db.rows.Keys, first)
    ensures Leads(p, s, es, s') && s'.db.clock == s.db.clock && Waiting(p, s', u, n - 1)
    ensures s'.db.rows == s.db.rows[first := MadeAt(p, first, u, s.db.clock)] && UpTo(s'.db.rows.Keys, first + 1)
  {
    var j := n - 1;
    assert first !in s.db.rows && j in s.jobs;
    IdIsUnused(p, s, u, n, first);
    es, s' := InsertAndCommit(p, s, j, u, first);
    OneLessWaits(p, s, s', u, n, j);
    OneMoreRow(s.db.rows, first, MadeAt(p, first, u, s.db.clock));
  }

  /** Each of them then inserts a key, with ids from `first` to `last`, and commits. */
  lemma {:induction false} AllFinish(p: Params, s: State, u: Usage, n: nat, first: KeyId, last: nat)
    returns (es: seq<Event>, s': State)
    requires u in p.config && Waiting(p, s, u, n) && UpTo(s.db.rows.Keys, first) && last == first + n
    ensures Leads(p, s, es, s') && s'.jobs == map[] && s'.db.clock == s.db.clock
    ensures Filled(p, s.db.rows, s'.db.rows, u, last, s.db.clock)
    decreases n
  {
    if n == 0 {
      es, s' := [], s;
      NobodyWaits(p, s, u, first);
    } else {
      var es1, s1 := OneFinishes(p, s, u, n, first);
      var es2;
      es2, s' := AllFinish(p, s1, u, n - 1, first + 1, last);
      FilledOn(p, s.db.rows, s1.db.rows, s'.db.rows, u, first, last, s.db.clock);
      es := es1 + es2;
      LeadsOn(p, s, es1, s1, es2, s');
    }
  }

  /** All of them at once. */
  lemma AllTogether(p: Params, s: State, u: Usage, keys: seq<Row>, n: nat, first: KeyId)
    returns (es: seq<Event>, s': State)
    requires p.config.Keys == {u} && s.jobs == map[] && n <= p.slots && UpTo(s.db.rows.Keys, first)
    requires IsSearch(s.db.rows, u, s.db.clock, KEYS_MAX_BATCH_SIZE, keys)
    requires Overdue(keys, s.db.clock, p.config[u].key.rotation)
    ensures Leads(p, s, es, s') && s'.jobs == map[] && s'.db.clock == s.db.clock
    ensures Filled(p, s.db.rows, s'.db.rows, u, first + n, s.db.clock)
  {
    var es1, s1 := AllStart(p, s, u, keys, n);
    var es2;
    es2, s' := AllFinish(p, s1, u, n, first, first + n);
    es := es1 + es2;
    LeadsOn(p, s, es1, s1, es2, s');
  }

  /**
   Nothing locks the read to the insert: `slots` jobs in flight can commit `slots` keys of one usage
   with the same creation time. One key more is what the spacing theorem needs, and no fewer do.
   */
  lemma JobsCollide(p: Params, s: State, u: Usage) returns (es: seq<Event>, s': State)
    requires p.config.Keys == {u} && Init(s)
    ensures Leads(p, s, es, s') && s'.jobs == map[] && s'.db.clock == s.db.clock && |s'.db.rows.Keys| == p.slots
    ensures forall id :: id in s'.db.rows ==>
                           s'.db.rows[id].usage == u && s'.db.rows[id].created == RoundToSecond(s.db.clock)
  {
    NothingIsOverdue(s.db.clock, p.config[u].key.rotation);
    es, s' := AllTogether(p, s, u, [], p.slots, 0);
    UpToSize(s'.db.rows.Keys, p.slots);
  }

  lemma NothingIsOverdue(now: Time, rotation: Duration)
    requires 0 <= now
    ensures Overdue([], now, rotation)
  {
    if !Overdue([], now, rotation) {
      SkipOnlyRecent([], now, rotation);
    }
  }

  // ---- The bound on active keys ----

  /** `n * d`, one addition at a time. */
  function Times(n: nat, d: nat): nat {
    if n == 0 then 0 else Times(n - 1, d) + d
  }

  lemma {:induction false} TimesIsProduct(n: nat, d: nat)
    ensures Times(n, d) == n * d
  {
    if n > 0 {
      TimesIsProduct(n - 1, d);
      assert n * d == (n - 1) * d + d;
    }
  }

  lemma {:induction false} TimesIsWhole(n: nat, d: nat)
    requires Whole(d)
    ensures Whole(Times(n, d))
  {
    if n > 0 {
      TimesIsWhole(n - 1, d);
    }
  }

  /** When the last of `n` rounds was, the first being at the epoch. */
  function LastRound(n: nat, rotation: nat): nat {
    if n == 0 then 0 else Times(n - 1, rotation)
  }

  /** After `n` rounds, one for each interval: `slots` keys a round, none of which expires before one lifetime. */
  ghost predicate Rounds(p: Params, s: State, u: Usage, n: nat) {
    && u in p.config && s.jobs == map[] && 0 <= p.config[u].key.rotation
    && s.db.clock == LastRound(n, p.config[u].key.rotation)
    && UpTo(s.db.rows.Keys, Times(n, p.slots))
    && forall id :: id in s.db.rows ==>
                      var row := s.db.rows[id];
                      && row.id == id && row.usage == u && row.deleted.None?
                      && row.created <= s.db.clock && p.config[u].key.ttl <= row.expires
  }

  predicate WholeTerms(k: KeyTerms) {
    Whole(k.rotation) && Whole(k.ttl) && 0 < k.rotation <= k.ttl
  }

  lemma MadeAtWhole(p: Params, id: KeyId, u: Usage, t: Time)
    requires u in p.config && 0 <= p.config[u].key.ttl && Whole(p.config[u].key.ttl) && 0 <= t && Whole(t)
    ensures MadeAt(p, id, u, t).created == t && p.config[u].key.ttl <= MadeAt(p, id, u, t).expires
  {
    RoundWhole(t);
    RoundPastWhole(t, p.config[u].key.ttl);
    RoundWhole(p.config[u].key.ttl);
  }

  /** When the next round is due, every key there is has been there for an interval. */
  lemma RoundIsDue(p: Params, s: State, u: Usage, n: nat, next: Time) returns (keys: seq<Row>)
    requires Rounds(p, s, u, n) && 0 < p.config[u].key.rotation && 0 <= next
    requires n > 0 ==> next == s.db.clock + p.config[u].key.rotation
    ensures IsSearch(s.db.rows, u, next, KEYS_MAX_BATCH_SIZE, keys) && Overdue(keys, next, p.config[u].key.rotation)
  {
    keys := SearchAnswers(s.db.rows, u, next);
    if |keys| == 0 {
      NothingIsOverdue(next, p.config[u].key.rotation);
    } else {
      assert Matches(s.db.rows, u, next, keys[0].id);
      OverdueMeansAged(keys, next, p.config[u].key.rotation);
    }
  }

  lemma RoundFilled(p: Params, s: State, s': State, u: Usage, n: nat)
    requires Rounds(p, s, u, n) && WholeTerms(p.config[u].key) && s'.jobs == map[]
    requires s'.db.clock == Times(n, p.config[u].key.rotation)
    requires Filled(p, s.db.rows, s'.db.rows, u, Times(n, p.slots) + p.slots, s'.db.clock)
    ensures Rounds(p, s', u, n + 1)
  {
    TimesIsWhole(n, p.config[u].key.rotation);
    forall id | id in s'.db.rows
      ensures var row := s'.db.rows[id];
              && row.id == id && row.usage == u && row.deleted.None?
              && row.created <= s'.db.clock && p.config[u].key.ttl <= row.expires
    {
      MadeAtWhole(p, id, u, s'.db.clock);
    }
  }

  lemma NextRound(p: Params, s: State, u: Usage, n: nat, m: nat) returns (es: seq<Event>, s': State)
    requires p.config.Keys == {u} && Rounds(p, s, u, n) && WholeTerms(p.config[u].key) && m == n + 1
    ensures Leads(p, s, es, s') && Rounds(p, s', u, m)
  {
    var next := Times(n, p.config[u].key.rotation);
    var keys := RoundIsDue(p, s, u, n, next);
    var s1 := After(p, s, Tick(next));
    OneStep(p, s, Tick(next));
    var es2;
    es2, s' := AllTogether(p, s1, u, keys, p.slots, Times(n, p.slots));
    es := [Tick(next)] + es2;
    LeadsOn(p, s, [Tick(next)], s1, es2, s');
    RoundFilled(p, s, s', u, n);
  }

  lemma NoRounds(p: Params, s: State, u: Usage)
    requires u in p.config && Init(s) && s.db.clock == 0 && 0 <= p.config[u].key.rotation
    ensures Rounds(p, s, u, 0)
  {
  }

  lemma {:induction false} RoundsLead(p: Params, s: State, u: Usage, n: nat) returns (es: seq<Event>, s': State)
    requires p.config.Keys == {u} && Rounds(p, s, u, 0) && WholeTerms(p.config[u].key)
    ensures Leads(p, s, es, s') && Rounds(p, s', u, n)
    decreases n
  {
    if n == 0 {
      es, s' := [], s;
    } else {
      var es1, s1 := RoundsLead(p, s, u, n - 1);
      var es2;
      es2, s' := NextRound(p, s1, u, n - 1, n);
      es := es1 + es2;
      LeadsOn(p, s, es1, s1, es2, s');
    }
  }

  /** A run with an empty table, no sources, and the clock at its epoch. */
  lemma FreshRun(p: Params, sources: map<SourceId, Source>) returns (r: Run)
    requires forall id :: id in sources ==> sources[id].cached.None?
    ensures IsRun(p, r) && r.events == [] && r.states == [Sys(State(Db(0, map[]), map[]), sources)]
  {
    r := Run([Sys(State(Db(0, map[]), map[]), sources)], []);
  }

  /**
   The bound on active keys is the exact one: for any usage with terms in whole seconds and any
   number of jobs, some run ends with exactly `ActiveBound` active keys.
   */
  lemma ActiveBoundIsReached(p: Params, u: Usage) returns (r: Run)
    requires p.config.Keys == {u} && WholeTerms(p.config[u].key)
    ensures 0 < StoredGap(p.config[u].key)
    ensures IsRun(p, r) && |ActiveIds(DbAt(r, |r.events|), u)| == ActiveBound(p.slots, p.config[u].key)
  {
    var k := p.config[u].key;
    WholeBound(p.slots, k);
    var n := CeilDiv(k.ttl, k.rotation);
    var r0 := FreshRun(p, map[]);
    NoRounds(p, r0.states[0].store, u);
    var es, store := RoundsLead(p, r0.states[0].store, u, n);
    r := ExtendStore(p, r0, es, store);
    LastRoundInLife(k.ttl, k.rotation);
    assert ActiveIds(store.db, u) == store.db.rows.Keys;
    UpToSize(store.db.rows.Keys, Times(n, p.slots));
    TimesIsProduct(n, p.slots);
  }

  lemma LastRoundInLife(ttl: int, rotation: int)
    requires 0 < rotation <= ttl
    ensures CeilDiv(ttl, rotation) > 0 && LastRound(CeilDiv(ttl, rotation), rotation) < ttl
  {
    var q := (ttl - 1) / rotation;
    assert ttl - 1 == q * rotation + (ttl - 1) % rotation;
    QuotientOrder(0, 0, q, (ttl - 1) % rotation, rotation);
    TimesIsProduct(q, rotation);
  }

  /** Over the limit a search can miss an active key, so the condition for complete searches is the exact one. */
  lemma SearchIsTruncated(p: Params, u: Usage) returns (r: Run, keys: seq<Row>, missing: KeyId)
    requires p.config.Keys == {u} && WholeTerms(p.config[u].key) && 0 < StoredGap(p.config[u].key)
    requires ActiveBound(p.slots, p.config[u].key) > KEYS_MAX_BATCH_SIZE
    ensures IsRun(p, r) && IsSearch(DbAt(r, |r.events|).rows, u, DbAt(r, |r.events|).clock, KEYS_MAX_BATCH_SIZE, keys)
    ensures missing in ActiveIds(DbAt(r, |r.events|), u) && missing !in Ids(keys)
  {
    assert NonNegative(p.config);
    r := ActiveBoundIsReached(p, u);
    RowsAreKeyed(p, r, |r.events|);
    var d := DbAt(r, |r.events|);
    keys := SearchAnswers(d.rows, u, d.clock);
    if forall id :: id in ActiveIds(d, u) ==> id in Ids(keys) {
      TooManyToList(ActiveIds(d, u), Ids(keys));
    }
    missing :| missing in ActiveIds(d, u) && missing !in Ids(keys);
  }

  lemma {:induction false} TooManyToList(ids: set<KeyId>, list: seq<KeyId>)
    requires forall id :: id in ids ==> id in list
    ensures |ids| <= |list|
  {
    if list != [] {
      TooManyToList(ids - {list[0]}, list[1..]);
    } else {
      assert ids == {};
    }
  }

  // ---- The distance between two keys, one job at a time ----

  /** One job at `t0` and one at `t1`, when the first key has expired or is an interval old. */
  lemma TwoInARow(p: Params, s: State, u: Usage, t0: Time, t1: Time) returns (es: seq<Event>, s': State)
    requires p.config.Keys == {u} && 0 < p.slots && Init(s) && s.db.clock <= t0 <= t1
    requires var first := MadeAt(p, 0, u, t0);
             first.expires <= t1 || Since(first.created, t1) >= p.config[u].key.rotation
    ensures Leads(p, s, es, s') && s'.db.clock == t1
    ensures s'.db.rows == map[0 := MadeAt(p, 0, u, t0), 1 := MadeAt(p, 1, u, t1)]
  {
    NothingIsOverdue(t0, p.config[u].key.rotation);
    NothingIsOverdue(t1, p.config[u].key.rotation);
    var es1, s1 := TickAndMake(p, s, u, t0, [], 0);
    var keys := SearchAnswers(s1.db.rows, u, t1);
    if |keys| > 0 {
      assert Matches(s1.db.rows, u, t1, keys[0].id);
    }
    var es2;
    es2, s' := TickAndMake(p, s1, u, t1, keys, 1);
    es := es1 + es2;
    LeadsOn(p, s, es1, s1, es2, s');
  }

  /** A single job, begun at `t`, adds a key. */
  lemma TickAndMake(p: Params, s: State, u: Usage, t: Time, keys: seq<Row>, id: KeyId)
    returns (es: seq<Event>, s': State)
    requires p.config.Keys == {u} && 0 < p.slots && s.jobs == map[] && s.db.clock <= t && id !in s.db.rows
    requires IsSearch(s.db.rows, u, t, KEYS_MAX_BATCH_SIZE, keys) && Overdue(keys, t, p.config[u].key.rotation)
    ensures Leads(p, s, es, s') && s'.jobs == map[] && s'.db == Db(t, s.db.rows[id := MadeAt(p, id, u, t)])
  {
    var s1 := After(p, s, Tick(t));
    OneStep(p, s, Tick(t));
    var es2, s2 := DueLeads(p, s1, 0, u, keys);
    var es3;
    es3, s' := InsertAndCommit(p, s2, 0, u, id);
    LeadsOn(p, s1, es2, s2, es3, s');
    es := [Tick(t)] + (es2 + es3);
    LeadsOn(p, s, [Tick(t)], s1, es2 + es3, s');
  }

  /** Where the second key may be made so that it is stored closer to the first than one interval. */
  function CloseMoments(k: KeyTerms): (Time, Time) {
    if LifetimeCoversRotation(k) then (0, k.rotation) else (SECOND / 2, FloorSecond(k.ttl) + SECOND)
  }

  /** The interval rounds down: the second key is made on time and stored early. */
  lemma StoredEarly(p: Params, u: Usage, t1: Time)
    requires u in p.config && NonNegativeTerms(p.config[u].key) && t1 == p.config[u].key.rotation
    requires RoundToSecond(t1) < t1
    ensures var first, second := MadeAt(p, 0, u, 0), MadeAt(p, 1, u, t1);
            Since(first.created, t1) >= t1 && first.created <= second.created < first.created + t1
  {
    RoundMonotone(0, t1);
  }

  /** The lifetime is too short: the second key is made once the first has expired. */
  lemma ExpiredEarly(p: Params, u: Usage, t1: Time)
    requires u in p.config && NonNegativeTerms(p.config[u].key) && t1 == FloorSecond(p.config[u].key.ttl) + SECOND
    requires FloorSecond(p.config[u].key.ttl) < p.config[u].key.rotation
    ensures var first, second := MadeAt(p, 0, u, SECOND / 2), MadeAt(p, 1, u, t1);
            && 0 <= SECOND / 2 <= t1 && first.expires <= t1
            && first.created <= second.created < first.created + p.config[u].key.rotation
  {
    FloorFacts(p.config[u].key.ttl);
    FloorMonotone(0, p.config[u].key.ttl);
    RoundWhole(t1);
    HalfSecondRoundsUp(p.config[u].key.ttl);
  }

  lemma StoredClose(p: Params, u: Usage)
    requires u in p.config && NonNegativeTerms(p.config[u].key) && StoredGap(p.config[u].key) < p.config[u].key.rotation
    ensures var k := p.config[u].key;
            var (t0, t1) := CloseMoments(k);
            var first, second := MadeAt(p, 0, u, t0), MadeAt(p, 1, u, t1);
            && 0 <= t0 <= t1 && (first.expires <= t1 || Since(first.created, t1) >= k.rotation)
            && first.created <= second.created < first.created + k.rotation
  {
    var k := p.config[u].key;
    if LifetimeCoversRotation(k) {
      StoredEarly(p, u, k.rotation);
    } else {
      ExpiredEarly(p, u, FloorSecond(k.ttl) + SECOND);
    }
  }

  lemma HalfSecondRoundsUp(d: int)
    requires 0 <= d
    ensures RoundToSecond(SECOND / 2) == SECOND
    ensures RoundToSecond(SECOND / 2 + d) == FloorSecond(d) + SECOND
  {
    assert (SECOND / 2 + d + SECOND / 2) / SECOND == d / SECOND + 1;
  }

  /**
   Serialised jobs keep any two keys an interval apart exactly when the stored distance covers the
   interval: otherwise a run with a single job at a time stores two of them closer.
   */
  lemma SerialSpacingIsExact(p: Params, u: Usage) returns (r: Run)
    requires p.config.Keys == {u} && p.slots == 1 && NonNegative(p.config)
    requires StoredGap(p.config[u].key) < p.config[u].key.rotation
    ensures IsRun(p, r) && Members(DbAt(r, |r.events|), u, {0, 1})
    ensures var rows := DbAt(r, |r.events|).rows; 0 <= rows[1].created - rows[0].created < p.config[u].key.rotation
  {
    assert NonNegativeTerms(p.config[u].key);
    StoredClose(p, u);
    var (t0, t1) := CloseMoments(p.config[u].key);
    var r0 := FreshRun(p, map[]);
    var es, store := TwoInARow(p, r0.states[0].store, u, t0, t1);
    r := ExtendStore(p, r0, es, store);
  }

  // ---- Skipping on an expired key ----

  /** A key made at half a second, and a job that reads it there and then but tests its age when it has expired. */
  lemma SkipTooLate(p: Params, s: State, u: Usage) returns (es: seq<Event>, s': State)
    requires p.config.Keys == {u} && 0 < p.slots && Init(s) && s.db.clock <= SECOND / 2
    requires NonNegativeTerms(p.config[u].key) && FloorSecond(p.config[u].key.ttl) < p.config[u].key.rotation
    ensures Leads(p, s, es, s') && Enabled(p, s', Skip(0)) && s'.jobs[0].phase.usage == u
    ensures var keys := s'.jobs[0].phase.keys; |keys| > 0 && keys[0].expires <= s'.db.clock
  {
    var row, end := MadeAt(p, 0, u, SECOND / 2), FloorSecond(p.config[u].key.ttl) + SECOND;
    HalfSecondKey(p, u, row, end);
    NothingIsOverdue(SECOND / 2, p.config[u].key.rotation);
    var es1, s1 := TickAndMake(p, s, u, SECOND / 2, [], 0);
    var es2;
    es2, s' := ReadThenWait(p, s1, u, row, end);
    es := es1 + es2;
    LeadsOn(p, s, es1, s1, es2, s');
  }

  /** Such a key is active when made, and has expired at `end` without being an interval old. */
  lemma HalfSecondKey(p: Params, u: Usage, row: Row, end: Time)
    requires u in p.config && NonNegativeTerms(p.config[u].key) && row == MadeAt(p, 0, u, SECOND / 2)
    requires end == FloorSecond(p.config[u].key.ttl) + SECOND
    requires FloorSecond(p.config[u].key.ttl) < p.config[u].key.rotation
    ensures SECOND / 2 <= end && Matches(map[0 := row], u, SECOND / 2, 0)
    ensures row.expires <= end && !Overdue([row], end, p.config[u].key.rotation)
  {
    HalfSecondRoundsUp(p.config[u].key.ttl);
    FloorFacts(p.config[u].key.ttl);
    FloorMonotone(0, p.config[u].key.ttl);
  }

  /** A job reads the only row, and then time passes. */
  lemma ReadThenWait(p: Params, s: State, u: Usage, row: Row, end: Time) returns (es: seq<Event>, s': State)
    requires u in p.config && 0 < p.slots && s.jobs == map[] && s.db.clock <= end
    requires row.id == 0 && s.db.rows == map[0 := row] && Matches(s.db.rows, u, s.db.clock, 0)
    ensures Leads(p, s, es, s') && s'.db == s.db.(clock := end)
    ensures 0 in s'.jobs && s'.jobs[0].phase == Fetched(u, [row])
  {
    OnlyRowIsFound(s.db.rows, u, s.db.clock, [row]);
    var es1, s1 := BeginLeads(p, s, 0, u, [row]);
    s' := After(p, s1, Tick(end));
    OneStep(p, s1, Tick(end));
    es := es1 + [Tick(end)];
    LeadsOn(p, s, es1, s1, [Tick(end)], s');
  }

  lemma OnlyRowIsFound(rows: Rows, u: Usage, t: Time, keys: seq<Row>)
    requires |keys| == 1 && keys[0].id == 0 && rows == map[0 := keys[0]] && Matches(rows, u, t, 0)
    ensures IsSearch(rows, u, t, KEYS_MAX_BATCH_SIZE, keys)
  {
    assert Listed(keys, 0);
  }

  /** A lifetime that, in whole seconds, is shorter than the interval lets a job skip on a key that has expired. */
  lemma SkippedKeyCanHaveExpired(p: Params, u: Usage) returns (r: Run)
    requires p.config.Keys == {u} && 0 < p.slots && NonNegative(p.config) && !LifetimeCoversRotation(p.config[u].key)
    ensures IsRun(p, r) && Enabled(p, r.states[|r.events|].store, Skip(0))
    ensures var keys := r.states[|r.events|].store.jobs[0].phase.keys;
            |keys| > 0 && keys[0].expires <= DbAt(r, |r.events|).clock
  {
    assert NonNegativeTerms(p.config[u].key);
    var r0 := FreshRun(p, map[]);
    var es, store := SkipTooLate(p, r0.states[0].store, u);
    r := ExtendStore(p, r0, es, store);
  }

  // ---- A verifier that refuses an active key ----

  /**
   A verifier that has just fetched an empty list refuses a key made in the same instant, although
   the key is active and a fetch would bring it: its set is warm and the unknown-kid interval runs.
   */
  lemma ActiveKeyIsRefused(p: Params, u: Usage) returns (r: Run, keys: seq<Row>)
    requires p.config.Keys == {u} && 0 < p.slots && SECOND / 2 <= p.config[u].key.ttl
    requires 0 < p.config[u].key.cache && 0 < Interval(PublicPolicy(p.config[u].key))
    ensures IsRun(p, r) && Callable(p, r.states[|r.events|], 0, true, Some(keys))
    ensures r.states[|r.events|].sources == map[0 := Source(u, true, Some(Batch(0, [])))]
    ensures Matches(DbAt(r, |r.events|).rows, u, DbAt(r, |r.events|).clock, 0) && 0 in Ids(keys)
    ensures !Accepts(p, r.states[|r.events|], Verify(0, 0, Some(keys)), 0)
  {
    NothingIsOverdue(0, p.config[u].key.rotation);
    var r0 := FreshRun(p, map[0 := Source(u, true, None)]);
    var r1 := Extend(p, r0, Verify(0, 0, Some([])));
    var s1 := r1.states[|r1.events|];
    assert Ids([]) == [];
    var es, store := TickAndMake(p, s1.store, u, 0, [], 0);
    r := ExtendStore(p, r1, es, store);
    keys := [MadeAt(p, 0, u, 0)];
    OnlyRowIsFound(store.db.rows, u, 0, keys);
    assert Ids(keys)[0] == 0;
  }

  // ---- A stamp stored before the revocation ----

  /** A table with one key, made at the epoch, and one source that has fetched nothing yet. */
  lemma OneKeyRun(p: Params, u: Usage, source: Source, t: Time) returns (r: Run)
    requires p.config.Keys == {u} && 0 < p.slots && 0 <= t && source.cached.None?
    ensures IsRun(p, r)
    ensures r.states[|r.events|] == Sys(State(Db(t, map[0 := MadeAt(p, 0, u, 0)]), map[]), map[0 := source])
  {
    NothingIsOverdue(0, p.config[u].key.rotation);
    var r0 := FreshRun(p, map[0 := source]);
    var es, store := TickAndMake(p, r0.states[0].store, u, 0, [], 0);
    r := ExtendStore(p, r0, es, store);
    r := Extend(p, r, Store(Tick(t)));
  }

  /**
   A closed instance under the shipped terms: an access key revoked one nanosecond into its life with
   a stamp of the epoch itself, so stored as earlier, is still used at or past `deleted_at` plus the
   cache duration, by a signer and, in another run, by a verifier.
   */
  lemma ShippedStampIsOutlived(verifier: bool) returns (p: Params, r: Run, i: nat)
    ensures p == Params(map["auth" := AUTH], 1) && IsRun(p, r) && i < |r.events| && Uses(p, r, i, 0)
    ensures r.events[i] == UseOf(0, verifier, 0, None)
    ensures 0 in DbAt(r, i).rows && DbAt(r, i).rows[0].deleted == Some(0) && DbAt(r, i).clock >= AUTH.key.cache
  {
    p := Params(map["auth" := AUTH], 1);
    var source := Source("auth", verifier, None);
    var r0 := OneKeyRun(p, "auth", source, 1);
    var s := r0.states[|r0.events|];
    MadeAtWhole(p, 0, "auth", 0);
    var keys := [MadeAt(p, 0, "auth", 0)];
    OnlyRowIsFound(s.store.db.rows, "auth", 1, keys);
    assert Ids(keys)[0] == 0;
    r, i := EarlyStampIsOutlived(p, r0, 0, keys, 0, 0, "early");
  }
}
