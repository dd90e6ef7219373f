/**
 The rotation protocol: jobs that read, decide and insert inside a transaction, over one shared
 table, with no lock between the read and the insert. A query sees what is committed when it
 runs plus the job's own inserts, while the view's clock stays at the start of the transaction.
 Everything else (the age test, the creation stamp) uses the clock as it moves on.
 */
module Protocol {
  import opened Wrappers
  import opened Time
  import opened Config
  import opened KeyTable
  import opened Issuance

  type JobId = nat

  /** At most `slots` jobs are ever in flight together. */
  datatype Params = Params(config: KeysConfig, slots: nat)

  datatype Phase = Idle | Fetched(usage: Usage, keys: seq<Row>) | Generating(usage: Usage)

  /** `base` records which ids were committed when the job began; no step reads it. */
  datatype Job = Job(start: Time, base: set<KeyId>, todo: set<Usage>, phase: Phase, pending: Rows)

  /** What queries and age tests look at: the running clock and the committed rows. */
  datatype Db = Db(clock: Time, rows: Rows)

  datatype State = State(db: Db, jobs: map<JobId, Job>)

  datatype Event =
    | Tick(to: Time)
    | Begin(job: JobId)
    | Read(job: JobId, usage: Usage, keys: seq<Row>)
    | Skip(job: JobId)
    | Generate(job: JobId)
    | Insert(job: JobId, id: KeyId, priv: string, pub: Option<string>)
    | Commit(job: JobId)
    | Rollback(job: JobId)
    | Revoke(id: KeyId, now: Time, txStart: Time, comment: string)

  predicate Init(s: State) {
    0 <= s.db.clock && s.db.rows == map[] && s.jobs == map[]
  }

  predicate UnusedId(s: State, id: KeyId) {
    id !in s.db.rows && forall j :: j in s.jobs ==> id !in s.jobs[j].pending
  }

  ghost predicate Enabled(p: Params, s: State, e: Event) {
    match e
    case Tick(to) => s.db.clock <= to
    case Begin(j) => j !in s.jobs && |s.jobs| < p.slots
    case Read(j, u, keys) =>
      j in s.jobs && s.jobs[j].phase.Idle? && u in s.jobs[j].todo &&
      IsSearch(s.db.rows + s.jobs[j].pending, u, s.jobs[j].start, KEYS_MAX_BATCH_SIZE, keys)
    case Skip(j) =>
      j in s.jobs && s.jobs[j].phase.Fetched? && s.jobs[j].phase.usage in p.config &&
      !Overdue(s.jobs[j].phase.keys, s.db.clock, p.config[s.jobs[j].phase.usage].key.rotation)
    case Generate(j) =>
      j in s.jobs && s.jobs[j].phase.Fetched? && s.jobs[j].phase.usage in p.config &&
      Overdue(s.jobs[j].phase.keys, s.db.clock, p.config[s.jobs[j].phase.usage].key.rotation)
    case Insert(j, id, _, _) =>
      j in s.jobs && s.jobs[j].phase.Generating? && s.jobs[j].phase.usage in p.config && UnusedId(s, id)
    case Commit(j) => j in s.jobs && s.jobs[j].phase.Idle? && s.jobs[j].todo == {}
    case Rollback(j) => j in s.jobs
    case Revoke(id, _, txStart, _) => Revocable(s.db.rows, id, txStart) && txStart <= s.db.clock
  }

  ghost function After(p: Params, s: State, e: Event): State
    requires Enabled(p, s, e)
  {
    match e
    case Tick(to) => s.(db := s.db.(clock := to))
    case Begin(j) => s.(jobs := s.jobs[j := Job(s.db.clock, s.db.rows.Keys, p.config.Keys, Idle, map[])])
    case Read(j, u, keys) => s.(jobs := s.jobs[j := s.jobs[j].(phase := Fetched(u, keys))])
    case Skip(j) =>
      var job := s.jobs[j];
      s.(jobs := s.jobs[j := job.(phase := Idle, todo := job.todo - {job.phase.usage})])
    case Generate(j) => s.(jobs := s.jobs[j := s.jobs[j].(phase := Generating(s.jobs[j].phase.usage))])
    case Insert(j, id, priv, pub) =>
      var job := s.jobs[j];
      var u := job.phase.usage;
      var row := MintedRow(id, priv, pub, u, s.db.clock, p.config[u].key.ttl);
      s.(jobs := s.jobs[j := job.(phase := Idle, todo := job.todo - {u}, pending := job.pending[id := row])])
    case Commit(j) => State(s.db.(rows := s.db.rows + s.jobs[j].pending), s.jobs - {j})
    case Rollback(j) => s.(jobs := s.jobs - {j})
    case Revoke(id, now, _, comment) => s.(db := s.db.(rows := s.db.rows[id := Revoked(s.db.rows[id], now, comment)]))
  }

  // ---- What every step keeps ----

  predicate RowOk(p: Params, clock: Time, id: KeyId, row: Row) {
    && row.id == id
    && row.usage in p.config
    && Whole(row.created) && Whole(row.expires)
    && 0 <= row.created <= RoundToSecond(clock)
    && var ttl := p.config[row.usage].key.ttl;
       row.created + FloorSecond(ttl) <= row.expires <= row.created + CeilSecond(ttl)
  }

  predicate RowsOk(p: Params, d: Db) {
    forall id :: id in d.rows ==> RowOk(p, d.clock, id, d.rows[id])
  }

  /** A key of the usage that was committed when the job began and is not withdrawn since. */
  predicate Inherited(d: Db, job: Job, u: Usage, id: KeyId) {
    id in job.base && id in d.rows && d.rows[id].usage == u && Standing(d.rows[id], d.clock)
  }

  /** The age test would still refuse to replace this key: it is unexpired and younger than the interval. */
  predicate Young(row: Row, clock: Time, rotation: Duration) {
    clock < row.expires && clock < row.created + rotation
  }

  /** No inherited key is young. */
  ghost predicate InheritedAged(p: Params, d: Db, job: Job, u: Usage) {
    u in p.config && forall id :: Inherited(d, job, u, id) ==> !Young(d.rows[id], d.clock, p.config[u].key.rotation)
  }

  ghost predicate PhaseOk(p: Params, d: Db, job: Job) {
    match job.phase
    case Idle => true
    case Generating(u) => u in job.todo && InheritedAged(p, d, job, u)
    case Fetched(u, keys) =>
      && u in job.todo
      && (forall i :: 0 <= i < |keys| ==>
                        keys[i].id in d.rows && keys[i].usage == u && SameKey(d.rows[keys[i].id], keys[i]))
      && (forall id :: Inherited(d, job, u, id) ==>
                         d.rows[id].expires <= job.start || (|keys| > 0 && d.rows[id].created <= keys[0].created))
  }

  ghost predicate PendingOk(p: Params, d: Db, job: Job) {
    && (forall k :: k in job.pending ==>
                      && RowOk(p, d.clock, k, job.pending[k])
                      && k !in d.rows
                      && job.pending[k].usage !in job.todo
                      && InheritedAged(p, d, job, job.pending[k].usage))
    && (forall k, id :: k in job.pending && Inherited(d, job, job.pending[k].usage, id) ==>
                          d.rows[id].created + StoredGap(p.config[job.pending[k].usage].key) <= job.pending[k].created)
    && (forall k, k' :: k in job.pending && k' in job.pending && job.pending[k].usage == job.pending[k'].usage ==>
                          k == k')
  }

  /** How recent a key has to be for the job to leave the usage alone, or what it writes instead. */
  function Freshness(k: KeyTerms): int {
    if k.rotation >= SECOND / 2 then k.rotation else SECOND / 2
  }

  ghost predicate FreshKey(rows: Rows, k: KeyTerms, u: Usage, since: Time) {
    exists id :: id in rows && rows[id].usage == u && rows[id].created + Freshness(k) > since
  }

  /** Every usage the job is done with has a key younger, at the job's start, than one interval. */
  ghost predicate DoneFresh(p: Params, d: Db, job: Job) {
    forall u :: u in p.config && u !in job.todo ==>
                  FreshKey(d.rows + job.pending, p.config[u].key, u, job.start)
  }

  ghost predicate JobOk(p: Params, d: Db, job: Job) {
    && 0 <= job.start <= d.clock
    && job.base <= d.rows.Keys
    && job.todo <= p.config.Keys
    && PhaseOk(p, d, job)
    && PendingOk(p, d, job)
    && DoneFresh(p, d, job)
  }

  ghost predicate AllJobsOk(p: Params, d: Db, jobs: map<JobId, Job>) {
    forall j :: j in jobs ==> JobOk(p, d, jobs[j])
  }

  predicate PendingApart(jobs: map<JobId, Job>) {
    forall j, j' :: j in jobs && j' in jobs && j != j' ==> jobs[j].pending.Keys !! jobs[j'].pending.Keys
  }

  ghost predicate JobsOk(p: Params, s: State) {
    AllJobsOk(p, s.db, s.jobs) && PendingApart(s.jobs)
  }

  predicate Members(d: Db, u: Usage, ks: set<KeyId>) {
    forall id :: id in ks ==> id in d.rows && d.rows[id].usage == u && Standing(d.rows[id], d.clock)
  }

  predicate Tight(rows: Rows, ks: set<KeyId>, gap: int)
    requires ks <= rows.Keys
  {
    forall a, b :: a in ks && b in ks ==> rows[b].created - rows[a].created < gap
  }

  predicate AllYoung(d: Db, ks: set<KeyId>, rotation: Duration)
    requires ks <= d.rows.Keys
  {
    forall a :: a in ks ==> Young(d.rows[a], d.clock, rotation)
  }

  /** Standing keys of one usage stored within less than one gap of each other, or all young. */
  predicate Crowd(p: Params, d: Db, u: Usage, ks: set<KeyId>) {
    && u in p.config
    && Members(d, u, ks)
    && (Tight(d.rows, ks, StoredGap(p.config[u].key)) || AllYoung(d, ks, p.config[u].key.rotation))
  }

  /** Jobs that began before any of these keys was committed: the ones that may still join the crowd. */
  function Elders(jobs: map<JobId, Job>, ks: set<KeyId>): set<JobId> {
    set j | j in jobs && jobs[j].base !! ks
  }

  ghost predicate CrowdsBounded(p: Params, s: State) {
    forall u, ks :: Crowd(p, s.db, u, ks) ==> |ks| + |Elders(s.jobs, ks)| <= p.slots
  }

  ghost predicate Inv(p: Params, s: State) {
    0 <= s.db.clock && RowsOk(p, s.db) && JobsOk(p, s) && CrowdsBounded(p, s)
  }

  // ---- Carrying facts across steps ----

  /** Nothing is forgotten: time advances, rows stay the same key, and a recorded revocation is final. */
  ghost predicate Grows(d: Db, d': Db) {
    && 0 <= d.clock <= d'.clock
    && (forall id :: id in d.rows ==>
                       && id in d'.rows
                       && SameKey(d.rows[id], d'.rows[id])
                       && (d.rows[id].deleted.Some? ==> d'.rows[id] == d.rows[id]))
  }

  lemma RowCarries(p: Params, clock: Time, clock': Time, id: KeyId, row: Row, row': Row)
    requires 0 <= clock <= clock' && RowOk(p, clock, id, row) && SameKey(row, row')
    ensures RowOk(p, clock', id, row')
  {
    RoundMonotone(clock, clock');
  }

  lemma PhaseCarries(p: Params, d: Db, d': Db, job: Job)
    requires Grows(d, d') && job.base <= d.rows.Keys && PhaseOk(p, d, job)
    ensures PhaseOk(p, d', job)
  {
    forall u, id | Inherited(d', job, u, id) ensures Inherited(d, job, u, id) {
    }
  }

  lemma PendingCarries(p: Params, d: Db, d': Db, job: Job)
    requires Grows(d, d') && job.base <= d.rows.Keys && PendingOk(p, d, job)
    requires forall k :: k in job.pending ==> k !in d'.rows
    ensures PendingOk(p, d', job)
  {
    forall u, id | Inherited(d', job, u, id) ensures Inherited(d, job, u, id) {
    }
    forall k | k in job.pending ensures RowOk(p, d'.clock, k, job.pending[k]) {
      RowCarries(p, d.clock, d'.clock, k, job.pending[k], job.pending[k]);
    }
  }

  lemma FreshCarries(rows: Rows, rows': Rows, k: KeyTerms, u: Usage, since: Time)
    requires FreshKey(rows, k, u, since)
    requires forall id :: id in rows ==> id in rows' && SameKey(rows[id], rows'[id])
    ensures FreshKey(rows', k, u, since)
  {
    var id :| id in rows && rows[id].usage == u && rows[id].created + Freshness(k) > since;
    assert id in rows';
  }

  lemma JobCarries(p: Params, d: Db, d': Db, job: Job)
    requires Grows(d, d') && JobOk(p, d, job)
    requires forall k :: k in job.pending ==> k !in d'.rows
    ensures JobOk(p, d', job)
  {
    PhaseCarries(p, d, d', job);
    PendingCarries(p, d, d', job);
    forall u | u in p.config && u !in job.todo
      ensures FreshKey(d'.rows + job.pending, p.config[u].key, u, job.start)
    {
      FreshCarries(d.rows + job.pending, d'.rows + job.pending, p.config[u].key, u, job.start);
    }
  }

  lemma CrowdCarries(p: Params, d: Db, d': Db, u: Usage, ks: set<KeyId>)
    requires Grows(d, d') && ks <= d.rows.Keys && Crowd(p, d', u, ks)
    ensures Crowd(p, d, u, ks)
  {
    assert Members(d, u, ks);
  }

  // ---- Sequences of steps ----

  /** The events, taken in order, are enabled and lead from the first state to the second. */
  ghost predicate Leads(p: Params, s: State, es: seq<Event>, s': State)
    decreases |es|
  {
    if es == [] then s == s'
    else Enabled(p, s, es[0]) && Leads(p, After(p, s, es[0]), es[1..], s')
  }

  lemma {:induction false} LeadsOn(p: Params, s: State, es: seq<Event>, mid: State, es': seq<Event>, s': State)
    requires Leads(p, s, es, mid) && Leads(p, mid, es', s')
    ensures Leads(p, s, es + es', s')
    decreases |es|
  {
    if es == [] {
      assert es + es' == es';
    } else {
      LeadsOn(p, After(p, s, es[0]), es[1..], mid, es', s');
      assert (es + es')[1..] == es[1..] + es';
    }
  }

  lemma OneStep(p: Params, s: State, e: Event)
    requires Enabled(p, s, e)
    ensures Leads(p, s, [e], After(p, s, e))
  {
    assert [e][1..] == [];
  }

  lemma TwoSteps(p: Params, s: State, e: Event, e': Event)
    requires Enabled(p, s, e) && Enabled(p, After(p, s, e), e')
    ensures Leads(p, s, [e, e'], After(p, After(p, s, e), e'))
  {
    OneStep(p, After(p, s, e), e');
    assert [e, e'][1..] == [e'];
  }
}
