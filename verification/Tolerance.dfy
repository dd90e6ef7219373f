/** The lifetime that a rotation schedule asks for is the least one: runs on schedule that fail with less. */
module Tolerance {
  import opened Wrappers
  import opened Time
  import opened Config
  import opened KeyTable
  import opened Issuance
  import opened Protocol
  import opened Sources
  import opened Lifecycle
  import opened TokenLife
  import opened Witnesses

  // ---- Jobs, one after the other, in a run ----

  ghost function Last(r: Run): (s: Sys)
    requires |r.states| == |r.events| + 1
  {
    r.states[|r.events|]
  }

  /** No job in flight, keys numbered from 0, none of them revoked. */
  ghost predicate Calm(s: State, n: nat) {
    && 0 <= s.db.clock && s.jobs == map[] && UpTo(s.db.rows.Keys, n)
    && forall id :: id in s.db.rows ==> s.db.rows[id].id == id && s.db.rows[id].deleted.None?
  }

  function RowsAfter(p: Params, d: Db, u: Usage, n: nat, keys: seq<Row>): Rows
    requires u in p.config
  {
    if Overdue(keys, d.clock, p.config[u].key.rotation) then d.rows[n := MadeAt(p, n, u, d.clock)] else d.rows
  }

  function Made(p: Params, d: Db, u: Usage, n: nat, keys: seq<Row>): nat
    requires u in p.config
  {
    if Overdue(keys, d.clock, p.config[u].key.rotation) then n + 1 else n
  }

  /** A lone job that has read its list. */
  predicate HasRead(p: Params, s: State, u: Usage, keys: seq<Row>) {
    s.jobs == map[0 := Job(s.db.clock, s.db.rows.Keys, {u}, Fetched(u, keys), map[])] && p.config.Keys == {u}
  }

  /** A lone job that has one step left, its commit. */
  ghost predicate HasDone(p: Params, s: State, pending: Rows) {
    s.jobs.Keys == {0} && s.jobs[0].start == s.db.clock && Enabled(p, s, Commit(0)) && s.jobs[0].pending == pending
  }

  lemma MakesKey(p: Params, s: State, u: Usage, n: nat, keys: seq<Row>) returns (es: seq<Event>, s': State)
    requires HasRead(p, s, u, keys) && Overdue(keys, s.db.clock, p.config[u].key.rotation) && n !in s.db.rows
    ensures Leads(p, s, es, s') && s'.db == s.db && HasDone(p, s', map[n := MadeAt(p, n, u, s.db.clock)])
  {
    var s1 := After(p, s, Generate(0));
    s' := After(p, s1, Insert(0, n, "k", None));
    es := [Generate(0), Insert(0, n, "k", None)];
    TwoSteps(p, s, Generate(0), Insert(0, n, "k", None));
  }

  lemma SkipsKey(p: Params, s: State, u: Usage, keys: seq<Row>) returns (es: seq<Event>, s': State)
    requires HasRead(p, s, u, keys) && !Overdue(keys, s.db.clock, p.config[u].key.rotation)
    ensures Leads(p, s, es, s') && s'.db == s.db && HasDone(p, s', map[])
  {
    es, s' := [Skip(0)], After(p, s, Skip(0));
    OneStep(p, s, Skip(0));
  }

  /** The age test and what follows from it. */
  lemma Decides(p: Params, s: State, u: Usage, n: nat, keys: seq<Row>)
    returns (es: seq<Event>, s': State, pending: Rows)
    requires HasRead(p, s, u, keys) && n !in s.db.rows
    ensures Leads(p, s, es, s') && s'.db == s.db && HasDone(p, s', pending)
    ensures s.db.rows + pending == RowsAfter(p, s.db, u, n, keys)
  {
    if Overdue(keys, s.db.clock, p.config[u].key.rotation) {
      pending := map[n := MadeAt(p, n, u, s.db.clock)];
      es, s' := MakesKey(p, s, u, n, keys);
    } else {
      pending := map[];
      es, s' := SkipsKey(p, s, u, keys);
    }
  }

  /** A single job, one step short of its commit. */
  lemma AlmostDone(p: Params, s: State, u: Usage, n: nat, keys: seq<Row>)
    returns (es: seq<Event>, s': State, pending: Rows)
    requires p.config.Keys == {u} && 0 < p.slots && s.jobs == map[] && n !in s.db.rows
    requires IsSearch(s.db.rows, u, s.db.clock, KEYS_MAX_BATCH_SIZE, keys)
    ensures Leads(p, s, es, s') && s'.db == s.db && HasDone(p, s', pending)
    ensures s.db.rows + pending == RowsAfter(p, s.db, u, n, keys)
  {
    var es1, s1 := BeginLeads(p, s, 0, u, keys);
    var es2;
    es2, s', pending := Decides(p, s1, u, n, keys);
    es := es1 + es2;
    LeadsOn(p, s, es1, s1, es2, s');
  }

  /** The last event is the commit of a job that began at `start`. */
  ghost predicate EndsInCommit(r: Run, start: Time) {
    && |r.states| == |r.events| + 1 && 0 < |r.events| && CommittedBefore(r, |r.events| - 1, 0, |r.events|)
    && r.states[|r.events| - 1].store.jobs[0].start == start
  }

  lemma CalmAfter(p: Params, s: State, u: Usage, n: nat, keys: seq<Row>, s': State)
    requires u in p.config && Calm(s, n) && s'.jobs == map[]
    requires s'.db == s.db.(rows := RowsAfter(p, s.db, u, n, keys))
    ensures Calm(s', Made(p, s.db, u, n, keys))
  {
  }

  /** The commit itself. */
  lemma CommitRun(p: Params, r: Run, pending: Rows) returns (r': Run)
    requires IsRun(p, r) && HasDone(p, Last(r).store, pending)
    ensures IsRun(p, r') && GoesOn(r, r') && |r.events| < |r'.events| && EndsInCommit(r', Last(r).store.db.clock)
    ensures Last(r').sources == Last(r).sources && Last(r').store.jobs == map[]
    ensures Last(r').store.db == Last(r).store.db.(rows := Last(r).store.db.rows + pending)
  {
    r' := Extend(p, r, Store(Commit(0)));
  }

  /** A whole job at the present moment. */
  lemma JobRun(p: Params, r: Run, u: Usage, n: nat, keys: seq<Row>) returns (r': Run)
    requires IsRun(p, r) && p.config.Keys == {u} && 0 < p.slots && Calm(Last(r).store, n)
    requires IsSearch(Last(r).store.db.rows, u, Last(r).store.db.clock, KEYS_MAX_BATCH_SIZE, keys)
    ensures IsRun(p, r') && GoesOn(r, r') && |r.events| < |r'.events| && EndsInCommit(r', Last(r).store.db.clock)
    ensures Last(r').sources == Last(r).sources
    ensures Last(r').store.db == Last(r).store.db.(rows := RowsAfter(p, Last(r).store.db, u, n, keys))
    ensures Calm(Last(r').store, Made(p, Last(r).store.db, u, n, keys))
  {
    var before := Last(r).store;
    var es, s, pending := AlmostDone(p, before, u, n, keys);
    var r1 := ExtendStore(p, r, es, s);
    r' := CommitRun(p, r1, pending);
    CalmAfter(p, before, u, n, keys, Last(r').store);
  }

  // ---- Staying on schedule ----

  /** From state `from` on, rotation is never more than `period` behind. */
  ghost predicate OnTime(r: Run, from: nat, period: int) {
    forall f: nat :: from <= f < |r.states| ==> RotatedWithin(r, f, period)
  }

  lemma RotatedStays(r: Run, r': Run, f: nat, period: int)
    requires GoesOn(r, r') && f < |r.states| && RotatedWithin(r, f, period)
    ensures RotatedWithin(r', f, period)
  {
    var c: nat, j: JobId :| CommittedBefore(r, c, j, f) && DbAt(r, f).clock - r.states[c].store.jobs[j].start <= period;
    assert CommittedBefore(r', c, j, f);
  }

  /** A job already committed when the run goes on covers all the states up to `period` after its start. */
  lemma OnTimeGoesOn(p: Params, r: Run, r': Run, from: nat, period: int, c: nat, j: JobId)
    requires IsRun(p, r) && IsRun(p, r') && NonNegative(p.config) && GoesOn(r, r') && OnTime(r, from, period)
    requires CommittedBefore(r, c, j, |r.events|)
    requires Last(r').store.db.clock - r.states[c].store.jobs[j].start <= period
    ensures OnTime(r', from, period)
  {
    forall f: nat | from <= f < |r'.states| ensures RotatedWithin(r', f, period) {
      if f < |r.states| {
        RotatedStays(r, r', f, period);
      } else {
        History(p, r', f, |r'.events|);
        assert CommittedBefore(r', c, j, f);
      }
    }
  }

  /** What a stretch of jobs leaves as it was. */
  ghost predicate Keeps(r: Run, r': Run)
    requires |r.states| == |r.events| + 1 && |r'.states| == |r'.events| + 1
  {
    && GoesOn(r, r') && Last(r').sources == Last(r).sources
    && forall id :: id in Last(r).store.db.rows ==>
                      id in Last(r').store.db.rows && Last(r').store.db.rows[id] == Last(r).store.db.rows[id]
  }

  /** One more job now. */
  lemma OneJob(p: Params, r: Run, u: Usage, n: nat, from: nat, period: int) returns (r': Run, n': nat)
    requires IsRun(p, r) && p.config.Keys == {u} && 0 < p.slots && NonNegative(p.config) && Calm(Last(r).store, n)
    requires OnTime(r, from, period) && from < |r.states|
    ensures IsRun(p, r') && Keeps(r, r') && Calm(Last(r').store, n') && OnTime(r', from, period)
    ensures Last(r').store.db.clock == Last(r).store.db.clock && EndsInCommit(r', Last(r).store.db.clock)
  {
    var now := Last(r).store.db.clock;
    var keys := SearchAnswers(Last(r).store.db.rows, u, now);
    r' := JobRun(p, r, u, n, keys);
    n' := Made(p, Last(r).store.db, u, n, keys);
    assert RotatedWithin(r, |r.events|, period);
    var c: nat, j: JobId :|
      CommittedBefore(r, c, j, |r.events|) && now - r.states[c].store.jobs[j].start <= period;
    OnTimeGoesOn(p, r, r', from, period, c, j);
  }

  /** One more job now, and then a tick of at most one period. */
  lemma OnePace(p: Params, r: Run, u: Usage, n: nat, from: nat, period: int, to: Time) returns (r': Run, n': nat)
    requires IsRun(p, r) && p.config.Keys == {u} && 0 < p.slots && NonNegative(p.config) && Calm(Last(r).store, n)
    requires OnTime(r, from, period) && from < |r.states|
    requires Last(r).store.db.clock <= to <= Last(r).store.db.clock + period
    ensures IsRun(p, r') && Keeps(r, r') && Calm(Last(r').store, n')
    ensures OnTime(r', from, period) && Last(r').store.db.clock == to
  {
    var r1;
    r1, n' := OneJob(p, r, u, n, from, period);
    r' := Extend(p, r1, Store(Tick(to)));
    OnTimeGoesOn(p, r1, r', from, period, |r1.events| - 1, 0);
  }

  /** Jobs a period apart keep rotation on schedule for as long as wanted. */
  lemma {:induction false} KeepPace(p: Params, r: Run, u: Usage, n: nat, from: nat, period: int, target: Time)
    returns (r': Run, n': nat)
    requires IsRun(p, r) && p.config.Keys == {u} && 0 < p.slots && NonNegative(p.config) && Calm(Last(r).store, n)
    requires OnTime(r, from, period) && from < |r.states| && 0 < period && Last(r).store.db.clock <= target
    ensures IsRun(p, r') && Keeps(r, r') && Calm(Last(r').store, n')
    ensures OnTime(r', from, period) && Last(r').store.db.clock == target
    decreases target - Last(r).store.db.clock
  {
    var now := Last(r).store.db.clock;
    if now == target {
      r', n' := r, n;
    } else {
      var r1, n1 := OnePace(p, r, u, n, from, period, if target - now <= period then target else now + period);
      r', n' := KeepPace(p, r1, u, n1, from, period, target);
    }
  }

  // ---- A lifetime that is too short ----

  /** A run that made key 0 at half a second, so that its stored lifetime is the lifetime in whole seconds. */
  lemma FirstKey(p: Params, u: Usage) returns (r: Run)
    requires p.config.Keys == {u} && 0 < p.slots
    ensures IsRun(p, r) && Calm(Last(r).store, 1)
    ensures Last(r) == Sys(State(Db(SECOND / 2, map[0 := MadeAt(p, 0, u, SECOND / 2)]), map[]),
                           map[0 := Source(u, false, None)])
  {
    NothingIsOverdue(SECOND / 2, p.config[u].key.rotation);
    var r0 := FreshRun(p, map[0 := Source(u, false, None)]);
    var r1 := Extend(p, r0, Store(Tick(SECOND / 2)));
    r := JobRun(p, r1, u, 0, []);
    assert map[][0 := MadeAt(p, 0, u, SECOND / 2)] == map[0 := MadeAt(p, 0, u, SECOND / 2)];
  }

  /** When the signer fetches: as late as the last job allows, or at the last moment the key is active. */
  function FetchAt(k: KeyTerms, period: int): Time {
    if k.rotation + period <= FloorSecond(k.ttl) then SECOND + k.rotation + period - 1
    else SECOND + FloorSecond(k.ttl) - 1
  }

  /** When the job before that begins: the latest moment it finds the key young, or right after the key was made. */
  function SkipAt(k: KeyTerms, period: int): Time {
    if FetchAt(k, period) - period <= SECOND / 2 then SECOND / 2 else FetchAt(k, period) - period
  }

  lemma Moments(p: Params, u: Usage, period: int)
    requires u in p.config && NonNegativeTerms(p.config[u].key) && 0 < period && SECOND / 2 <= p.config[u].key.rotation
    ensures var k, row := p.config[u].key, MadeAt(p, 0, u, SECOND / 2);
            && SECOND / 2 <= SkipAt(k, period) < FetchAt(k, period) <= SkipAt(k, period) + period
            && row.created == SECOND && row.expires == SECOND + FloorSecond(k.ttl)
            && FetchAt(k, period) < row.expires && SkipAt(k, period) - row.created < k.rotation
  {
    HalfSecondRoundsUp(p.config[u].key.ttl);
    FloorMonotone(0, p.config[u].key.ttl);
    FloorFacts(p.config[u].key.ttl);
  }

  /** Key 0, then a job that skips on it, then the fetch of the signer: on schedule since that moment. */
  lemma FetchedLate(p: Params, u: Usage, period: int) returns (r: Run, from: nat)
    requires p.config.Keys == {u} && 0 < p.slots && NonNegative(p.config) && SaneTerms(p.config[u])
    requires 0 < period && SECOND / 2 <= p.config[u].key.rotation
    ensures IsRun(p, r) && Calm(Last(r).store, 1) && from < |r.states| && OnTime(r, from, period)
    ensures var g, row := FetchAt(p.config[u].key, period), MadeAt(p, 0, u, SECOND / 2);
            && Last(r) == Sys(State(Db(g, map[0 := row]), map[]), map[0 := Source(u, false, Some(Batch(g, [0])))])
            && forall f: nat :: f < from ==> DbAt(r, f).clock < g
  {
    var k, row := p.config[u].key, MadeAt(p, 0, u, SECOND / 2);
    var q, g := SkipAt(k, period), FetchAt(k, period);
    assert NonNegativeTerms(k);
    Moments(p, u, period);
    var r0 := FirstKey(p, u);
    var r1 := Extend(p, r0, Store(Tick(q)));
    OnlyRowIsFound(map[0 := row], u, q, [row]);
    OnlyRowIsFound(map[0 := row], u, g, [row]);
    var r2 := JobRun(p, r1, u, 1, [row]);
    var r3 := Extend(p, r2, Store(Tick(g)));
    from := |r3.events|;
    assert AboutToFetch(p, Last(r3), 0, [row], 0);
    FetchedUse(p, Last(r3), 0, [row], 0);
    r := Extend(p, r3, Sign(0, Some([row])));
    assert Ids([row]) == [0];
    CommittedOnTime(p, r, r2, from, period);
    forall f: nat | f < from ensures DbAt(r, f).clock < g {
      History(p, r, f, |r2.events|);
      assert r.states[|r2.events|] == Last(r2);
    }
  }

  /** The states after a commit, up to one period later, are on schedule. */
  lemma CommittedOnTime(p: Params, r: Run, r2: Run, from: nat, period: int)
    requires IsRun(p, r) && IsRun(p, r2) && NonNegative(p.config) && GoesOn(r2, r) && |r2.events| < from
    requires EndsInCommit(r2, Last(r2).store.db.clock) && Last(r).store.db.clock - Last(r2).store.db.clock <= period
    ensures OnTime(r, from, period)
  {
    var c: nat := |r2.events| - 1;
    forall f: nat | from <= f < |r.states| ensures RotatedWithin(r, f, period) {
      History(p, r, f, |r.events|);
      assert CommittedBefore(r, c, 0, f) && r.states[c] == r2.states[c];
    }
  }

  /** On time from `from` on, and `from` at or before the window: on schedule. */
  lemma WindowOnSchedule(p: Params, r: Run, i: nat, from: nat, g: Time, window: int, period: int)
    requires IsRun(p, r) && OnTime(r, from, period) && i < |r.states| && DbAt(r, i).clock == g + window - 1
    requires forall f: nat :: f < from && f < |r.states| ==> DbAt(r, f).clock < g
    ensures OnSchedule(r, i, window, period)
  {
    forall f: nat | f <= i && DbAt(r, i).clock < DbAt(r, f).clock + window ensures RotatedWithin(r, f, period) {
      assert !(f < from);
    }
  }

  lemma ScheduleStays(r: Run, r': Run, i: nat, window: int, period: int)
    requires GoesOn(r, r') && i < |r.states| && OnSchedule(r, i, window, period)
    ensures OnSchedule(r', i, window, period)
  {
    forall f: nat | f <= i && DbAt(r', i).clock < DbAt(r', f).clock + window ensures RotatedWithin(r', f, period) {
      RotatedStays(r, r', f, period);
    }
  }

  /** The token of event `i` is still within its life at `m`, where its key is not active, though never revoked. */
  ghost predicate KeyDiesFirst(p: Params, r: Run, u: Usage, i: nat, m: nat, kid: KeyId) {
    && u in p.config && i < |r.events| && i <= m < |r.states| && |r.states| == |r.events| + 1
    && SignsWith(p, r.states[i], r.events[i], kid) && r.states[i].sources[r.events[i].source].usage == u
    && DbAt(r, m).clock <= DbAt(r, i).clock + p.config[u].token.ttl + p.config[u].token.leeway
    && Unrevoked(DbAt(r, m), kid) && !Matches(DbAt(r, m).rows, u, DbAt(r, m).clock, kid)
  }

  /**
   The lifetime condition is the exact one. Whenever a lifetime does not cover the span, in some run
   rotation is on schedule, nothing is ever revoked, and yet a signer signs with a key that is no longer
   active when the token is still to be accepted.
   */
  lemma ShorterLifetimeFails(p: Params, u: Usage, period: int) returns (r: Run, i: nat, m: nat)
    requires p.config.Keys == {u} && 0 < p.slots && NonNegative(p.config) && SaneTerms(p.config[u])
    requires 0 < period && SECOND / 2 <= p.config[u].key.rotation && 0 < p.config[u].token.ttl
    requires !LifetimeCovers(p.config[u], period)
    ensures IsRun(p, r) && KeyDiesFirst(p, r, u, i, m, 0)
    ensures OnSchedule(r, i, p.config[u].key.cache, period)
    ensures forall id :: id in DbAt(r, m).rows ==> DbAt(r, m).rows[id].deleted.None?
  {
    var c, k := p.config[u], p.config[u].key;
    var g := FetchAt(k, period);
    assert NonNegativeTerms(k);
    Moments(p, u, period);
    var r1, from := FetchedLate(p, u, period);
    var r2, n := KeepPace(p, r1, u, 1, from, period, g + k.cache - 1);
    i := |r2.events|;
    WindowKept(r1, r2, from, g);
    WindowOnSchedule(p, r2, i, from, g, k.cache, period);
    WarmUse(p, Last(r2), 0, 0);
    var r3 := Extend(p, r2, Sign(0, None));
    r := Extend(p, r3, Store(Tick(g + k.cache - 1 + c.token.ttl + c.token.leeway)));
    m := |r.events|;
    assert r.states[i] == Last(r2) && r.events[i] == Sign(0, None);
    assert Last(r).store.db.rows == Last(r2).store.db.rows;
    ScheduleStays(r2, r, i, k.cache, period);
  }

  lemma WindowKept(r: Run, r': Run, from: nat, g: Time)
    requires GoesOn(r, r') && from < |r.states| && forall f: nat :: f < from ==> DbAt(r, f).clock < g
    ensures forall f: nat :: f < from && f < |r'.states| ==> DbAt(r', f).clock < g
  {
    forall f: nat | f < from && f < |r'.states| ensures DbAt(r', f).clock < g {
      assert DbAt(r', f) == DbAt(r, f);
    }
  }

  // ---- A recent key revoked ----

  /** Key 0, and 100 hours later key 1. */
  lemma SecondKey(p: Params) returns (r: Run)
    requires p == Params(map["auth" := AUTH], 1)
    ensures IsRun(p, r) && EndsInCommit(r, 100 * HOUR) && Last(r).sources == map[0 := Source("auth", false, None)]
    ensures var first, second := MadeAt(p, 0, "auth", SECOND / 2), MadeAt(p, 1, "auth", 100 * HOUR);
            Last(r).store == State(Db(100 * HOUR, map[0 := first, 1 := second]), map[])
  {
    var first := MadeAt(p, 0, "auth", SECOND / 2);
    HalfSecondRoundsUp(AUTH.key.ttl);
    FloorFacts(AUTH.key.ttl);
    var r0 := FirstKey(p, "auth");
    var r1 := Extend(p, r0, Store(Tick(100 * HOUR)));
    OnlyRowIsFound(map[0 := first], "auth", 100 * HOUR, [first]);
    assert Overdue([first], 100 * HOUR, AUTH.key.rotation);
    r := JobRun(p, r1, "auth", 1, [first]);
  }

  /** Key 1 is revoked at once, and the clock ticks to the 144th hour. */
  lemma SecondKeyRevoked(p: Params, period: int) returns (r: Run, from: nat)
    requires p == Params(map["auth" := AUTH], 1) && 44 * HOUR <= period
    ensures IsRun(p, r) && from == |r.events| && OnTime(r, from, period)
    ensures var first, second := MadeAt(p, 0, "auth", SECOND / 2), MadeAt(p, 1, "auth", 100 * HOUR);
            && Last(r).store == State(Db(144 * HOUR, map[0 := first, 1 := Revoked(second, 100 * HOUR, "")]), map[])
            && Last(r).sources == map[0 := Source("auth", false, None)]
    ensures forall f: nat :: f < from ==> DbAt(r, f).clock <= 100 * HOUR
  {
    assert NonNegative(p.config);
    var r1 := SecondKey(p);
    MadeAtWhole(p, 1, "auth", 100 * HOUR);
    var r2 := Extend(p, r1, Store(Revoke(1, 100 * HOUR, 100 * HOUR, "")));
    r := Extend(p, r2, Store(Tick(144 * HOUR)));
    from := |r.events|;
    CommittedOnTime(p, r, r1, from, period);
    forall f: nat | f < from ensures DbAt(r, f).clock <= 100 * HOUR {
      History(p, r, f, |r2.events|);
      assert r.states[|r2.events|] == Last(r2);
    }
  }

  /** Of the two keys a search finds the first alone. */
  lemma FirstIsFound(rows: Rows, u: Usage, t: Time, keys: seq<Row>)
    requires |keys| == 1 && keys[0].id == 0 && rows.Keys == {0, 1} && rows[0] == keys[0]
    requires Matches(rows, u, t, 0) && !Matches(rows, u, t, 1)
    ensures IsSearch(rows, u, t, KEYS_MAX_BATCH_SIZE, keys)
  {
    assert Listed(keys, 0);
  }

  /**
   The revocation of a recent key is excluded for a reason. Under the shipped `auth` terms and within
   their tolerance, a revocation can send the signer back to a key that dies before the token does.
   */
  lemma RevokedRecentKeyFails() returns (p: Params, r: Run, i: nat, m: nat)
    ensures p == Params(map["auth" := AUTH], 1) && LifetimeCovers(AUTH, 119 * HOUR) && SaneTerms(AUTH)
    ensures IsRun(p, r) && KeyDiesFirst(p, r, "auth", i, m, 0) && OnSchedule(r, i, AUTH.key.cache, 119 * HOUR)
  {
    p := Params(map["auth" := AUTH], 1);
    var period := 119 * HOUR;
    ShippedTolerance(period);
    var r1, from := SecondKeyRevoked(p, period);
    var row, t := MadeAt(p, 0, "auth", SECOND / 2), 144 * HOUR;
    HalfSecondRoundsUp(AUTH.key.ttl);
    FloorFacts(AUTH.key.ttl);
    RoundWhole(100 * HOUR);
    FirstIsFound(Last(r1).store.db.rows, "auth", t, [row]);
    i := from;
    WindowOnSchedule(p, r1, i, from, t - AUTH.key.cache + 1, AUTH.key.cache, period);
    assert Ids([row])[0] == 0;
    var r2 := Extend(p, r1, Sign(0, Some([row])));
    r := Extend(p, r2, Store(Tick(168 * HOUR + SECOND)));
    m := |r.events|;
    assert r.states[i] == Last(r1) && r.events[i] == Sign(0, Some([row]));
    ScheduleStays(r1, r, i, AUTH.key.cache, period);
  }
}
