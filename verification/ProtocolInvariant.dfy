/** Every step of the rotation protocol keeps its invariant. */
module ProtocolInvariant {
  import opened Wrappers
  import opened Time
  import opened Config
  import opened KeyTable
  import opened Issuance
  import opened Protocol

  lemma InitKeeps(p: Params, s: State)
    requires Init(s)
    ensures Inv(p, s)
  {
    forall u, ks | Crowd(p, s.db, u, ks) ensures |ks| + |Elders(s.jobs, ks)| <= p.slots {
      assert forall id :: id in ks ==> id in s.db.rows;
      assert ks == {};
      assert Elders(s.jobs, ks) == {};
    }
  }

  /** A crowd seen after the step was one before it, and no job became an elder of it. */
  lemma CrowdsKept(p: Params, s: State, s': State)
    requires CrowdsBounded(p, s) && Grows(s.db, s'.db) && s'.db.rows.Keys == s.db.rows.Keys
    requires forall j :: j in s'.jobs ==> j in s.jobs && s'.jobs[j].base == s.jobs[j].base
    ensures CrowdsBounded(p, s')
  {
    forall u, ks | Crowd(p, s'.db, u, ks) ensures |ks| + |Elders(s'.jobs, ks)| <= p.slots {
      CrowdCarries(p, s.db, s'.db, u, ks);
      SubsetSize(Elders(s'.jobs, ks), Elders(s.jobs, ks));
    }
  }

  lemma SubsetSize<T>(a: set<T>, b: set<T>)
    requires a <= b
    ensures |a| <= |b|
  {
    assert |b| == |a| + |b - a| by { assert b == a + (b - a); }
  }

  lemma RowsCarry(p: Params, d: Db, d': Db)
    requires RowsOk(p, d) && Grows(d, d') && d'.rows.Keys == d.rows.Keys
    ensures RowsOk(p, d')
  {
    forall id | id in d'.rows ensures RowOk(p, d'.clock, id, d'.rows[id]) {
      RowCarries(p, d.clock, d'.clock, id, d.rows[id], d'.rows[id]);
    }
  }

  /** A step that leaves the jobs alone and adds no row. */
  lemma QuietStep(p: Params, s: State, d': Db)
    requires Inv(p, s) && Grows(s.db, d') && d'.rows.Keys == s.db.rows.Keys
    ensures Inv(p, s.(db := d'))
  {
    RowsCarry(p, s.db, d');
    forall j | j in s.jobs ensures JobOk(p, d', s.jobs[j]) {
      QuietJob(p, s.db, d', s.jobs[j]);
    }
    CrowdsKept(p, s, s.(db := d'));
  }

  lemma QuietJob(p: Params, d: Db, d': Db, job: Job)
    requires Grows(d, d') && JobOk(p, d, job) && d'.rows.Keys == d.rows.Keys
    ensures JobOk(p, d', job)
  {
    forall k | k in job.pending ensures k !in d'.rows {}
    JobCarries(p, d, d', job);
  }

  lemma JobsUpdate(p: Params, d: Db, jobs: map<JobId, Job>, j: JobId, job: Job)
    requires AllJobsOk(p, d, jobs) && JobOk(p, d, job)
    ensures AllJobsOk(p, d, jobs[j := job])
  {
  }

  lemma ApartUpdate(s: State, j: JobId, job: Job)
    requires PendingApart(s.jobs)
    requires forall k :: k in job.pending ==> (j in s.jobs && k in s.jobs[j].pending) || UnusedId(s, k)
    ensures PendingApart(s.jobs[j := job])
  {
  }

  /** A step that replaces one job by a version that is still in order. */
  lemma JobStep(p: Params, s: State, j: JobId, job': Job)
    requires Inv(p, s) && j in s.jobs && job'.base == s.jobs[j].base && JobOk(p, s.db, job')
    requires forall k :: k in job'.pending ==> k in s.jobs[j].pending || UnusedId(s, k)
    ensures Inv(p, s.(jobs := s.jobs[j := job']))
  {
    JobsUpdate(p, s.db, s.jobs, j, job');
    ApartUpdate(s, j, job');
    CrowdsKept(p, s, s.(jobs := s.jobs[j := job']));
  }

  lemma NewJobOk(p: Params, d: Db)
    requires 0 <= d.clock
    ensures JobOk(p, d, Job(d.clock, d.rows.Keys, p.config.Keys, Idle, map[]))
  {
  }

  lemma BeginCrowds(p: Params, s: State, j: JobId, job: Job)
    requires CrowdsBounded(p, s) && j !in s.jobs && |s.jobs| < p.slots && job.base == s.db.rows.Keys
    ensures CrowdsBounded(p, s.(jobs := s.jobs[j := job]))
  {
    var jobs := s.jobs[j := job];
    forall u, ks | Crowd(p, s.db, u, ks) ensures |ks| + |Elders(jobs, ks)| <= p.slots {
      if ks == {} {
        SubsetSize(Elders(jobs, ks), jobs.Keys);
        assert jobs.Keys == s.jobs.Keys + {j};
      } else {
        assert ks <= job.base;
        assert Elders(jobs, ks) == Elders(s.jobs, ks);
      }
    }
  }

  lemma BeginKeeps(p: Params, s: State, j: JobId)
    requires Inv(p, s) && Enabled(p, s, Begin(j))
    ensures Inv(p, After(p, s, Begin(j)))
  {
    var job := Job(s.db.clock, s.db.rows.Keys, p.config.Keys, Idle, map[]);
    NewJobOk(p, s.db);
    JobsUpdate(p, s.db, s.jobs, j, job);
    ApartUpdate(s, j, job);
    BeginCrowds(p, s, j, job);
  }

  lemma ReadPhase(p: Params, d: Db, job: Job, u: Usage, keys: seq<Row>)
    requires RowsOk(p, d) && job.start <= d.clock && u in job.todo && PendingOk(p, d, job)
    requires IsSearch(d.rows + job.pending, u, job.start, KEYS_MAX_BATCH_SIZE, keys)
    ensures PhaseOk(p, d, job.(phase := Fetched(u, keys)))
  {
    var job' := job.(phase := Fetched(u, keys));
    var all := d.rows + job.pending;
    forall i | 0 <= i < |keys|
      ensures keys[i].id in d.rows && keys[i].usage == u && SameKey(d.rows[keys[i].id], keys[i])
    {
      assert Matches(all, u, job.start, keys[i].id);
    }
    forall id | Inherited(d, job', u, id)
      ensures d.rows[id].expires <= job.start || (|keys| > 0 && d.rows[id].created <= keys[0].created)
    {
      assert id !in job.pending && RowOk(p, d.clock, id, d.rows[id]);
      if d.rows[id].expires > job.start {
        assert Matches(all, u, job.start, id);
        HeadIsNewest(all, u, job.start, KEYS_MAX_BATCH_SIZE, keys, id);
      }
    }
  }

  /** Only the phase changed. */
  lemma PhaseStep(p: Params, d: Db, job: Job, phase: Phase)
    requires JobOk(p, d, job) && PhaseOk(p, d, job.(phase := phase))
    ensures JobOk(p, d, job.(phase := phase))
  {
    SameBasePending(p, d, job, job.(phase := phase));
    assert DoneFresh(p, d, job.(phase := phase));
  }

  lemma ReadKeeps(p: Params, s: State, j: JobId, u: Usage, keys: seq<Row>)
    requires Inv(p, s) && Enabled(p, s, Read(j, u, keys))
    ensures Inv(p, After(p, s, Read(j, u, keys)))
  {
    var job := s.jobs[j];
    assert JobOk(p, s.db, job);
    ReadPhase(p, s.db, job, u, keys);
    PhaseStep(p, s.db, job, Fetched(u, keys));
    JobStep(p, s, j, job.(phase := Fetched(u, keys)));
  }

  lemma SkipFresh(p: Params, d: Db, job: Job)
    requires 0 <= d.clock && JobOk(p, d, job) && job.phase.Fetched? && job.phase.usage in p.config
    requires !Overdue(job.phase.keys, d.clock, p.config[job.phase.usage].key.rotation)
    ensures FreshKey(d.rows + job.pending, p.config[job.phase.usage].key, job.phase.usage, job.start)
  {
    var u, keys := job.phase.usage, job.phase.keys;
    SkipOnlyRecent(keys, d.clock, p.config[u].key.rotation);
    var id, all := keys[0].id, d.rows + job.pending;
    assert id in d.rows && d.rows[id].usage == u && SameKey(d.rows[id], keys[0]);
    assert id !in job.pending;
    assert id in all && all[id] == d.rows[id];
  }

  /** The job is done with a usage: it is idle again and the usage has a fresh key. */
  lemma DoneStep(p: Params, d: Db, job: Job, u: Usage)
    requires JobOk(p, d, job) && u in p.config && FreshKey(d.rows + job.pending, p.config[u].key, u, job.start)
    ensures JobOk(p, d, job.(phase := Idle, todo := job.todo - {u}))
  {
    var job' := job.(phase := Idle, todo := job.todo - {u});
    SameBasePending(p, d, job, job');
    assert DoneFresh(p, d, job');
  }

  lemma SkipKeeps(p: Params, s: State, j: JobId)
    requires Inv(p, s) && Enabled(p, s, Skip(j))
    ensures Inv(p, After(p, s, Skip(j)))
  {
    var job := s.jobs[j];
    assert JobOk(p, s.db, job);
    SkipFresh(p, s.db, job);
    DoneStep(p, s.db, job, job.phase.usage);
    JobStep(p, s, j, job.(phase := Idle, todo := job.todo - {job.phase.usage}));
  }

  /** The age test passes only if no inherited key is young, although they were read through an older view. */
  lemma GenerateAged(p: Params, d: Db, job: Job)
    requires NonNegative(p.config) && RowsOk(p, d) && JobOk(p, d, job)
    requires job.phase.Fetched? && job.phase.usage in p.config
    requires Overdue(job.phase.keys, d.clock, p.config[job.phase.usage].key.rotation)
    ensures InheritedAged(p, d, job, job.phase.usage)
  {
    var u, keys := job.phase.usage, job.phase.keys;
    var k := p.config[u].key;
    assert NonNegativeTerms(k);
    forall id | Inherited(d, job, u, id) ensures !Young(d.rows[id], d.clock, k.rotation) {
      assert RowOk(p, d.clock, id, d.rows[id]);
      if d.rows[id].expires > job.start {
        OverdueMeansAged(keys, d.clock, k.rotation);
      }
    }
  }

  lemma GenerateKeeps(p: Params, s: State, j: JobId)
    requires NonNegative(p.config)
    requires Inv(p, s) && Enabled(p, s, Generate(j))
    ensures Inv(p, After(p, s, Generate(j)))
  {
    var job := s.jobs[j];
    assert JobOk(p, s.db, job);
    var job' := job.(phase := Generating(job.phase.usage));
    GenerateAged(p, s.db, job);
    AgedStep(p, s.db, job, job', job.phase.usage);
    PhaseStep(p, s.db, job, job'.phase);
    JobStep(p, s, j, job');
  }

  lemma AgedStep(p: Params, d: Db, job: Job, job': Job, u: Usage)
    requires InheritedAged(p, d, job, u) && job'.base == job.base
    ensures InheritedAged(p, d, job', u)
  {
    forall id | Inherited(d, job', u, id) ensures Inherited(d, job, u, id) {}
  }

  lemma SameBasePending(p: Params, d: Db, job: Job, job': Job)
    requires PendingOk(p, d, job) && job'.base == job.base && job'.pending == job.pending && job'.todo <= job.todo
    ensures PendingOk(p, d, job')
  {
    forall u, id | Inherited(d, job', u, id) ensures Inherited(d, job, u, id) {}
  }

  /** A key stamped now is at least one gap after every inherited key, rounding included. */
  lemma InsertSpaced(p: Params, d: Db, job: Job, u: Usage, created: Time)
    requires 0 <= d.clock && RowsOk(p, d) && InheritedAged(p, d, job, u) && created == RoundToSecond(d.clock)
    requires NonNegativeTerms(p.config[u].key)
    ensures forall id :: Inherited(d, job, u, id) ==> d.rows[id].created + StoredGap(p.config[u].key) <= created
  {
    var gap := AgedGap(p.config[u].key);
    FloorFacts(p.config[u].key.ttl);
    FloorMonotone(0, p.config[u].key.ttl);
    forall id | Inherited(d, job, u, id) ensures d.rows[id].created + RoundToSecond(gap) <= created {
      assert RowOk(p, d.clock, id, d.rows[id]);
      assert d.rows[id].created + gap <= d.clock;
      RoundMonotone(d.rows[id].created + gap, d.clock);
      RoundPastWhole(d.rows[id].created, gap);
    }
  }

  lemma InsertPending(p: Params, d: Db, job: Job, id: KeyId, row: Row)
    requires 0 <= d.clock && RowsOk(p, d) && PendingOk(p, d, job) && RowOk(p, d.clock, id, row)
    requires id !in d.rows && id !in job.pending && row.usage in job.todo && InheritedAged(p, d, job, row.usage)
    requires row.created == RoundToSecond(d.clock) && NonNegativeTerms(p.config[row.usage].key)
    ensures PendingOk(p, d, job.(phase := Idle, todo := job.todo - {row.usage}, pending := job.pending[id := row]))
  {
    var job' := job.(phase := Idle, todo := job.todo - {row.usage}, pending := job.pending[id := row]);
    forall v, prior | Inherited(d, job', v, prior) ensures Inherited(d, job, v, prior) {}
    InsertSpaced(p, d, job, row.usage, row.created);
  }

  lemma InsertFresh(p: Params, d: Db, job: Job, id: KeyId, row: Row)
    requires 0 <= d.clock && job.start <= d.clock && DoneFresh(p, d, job) && row.created == RoundToSecond(d.clock)
    requires id !in d.rows && id !in job.pending && row.usage in p.config
    ensures DoneFresh(p, d, job.(phase := Idle, todo := job.todo - {row.usage}, pending := job.pending[id := row]))
  {
    var job' := job.(phase := Idle, todo := job.todo - {row.usage}, pending := job.pending[id := row]);
    var all := d.rows + job'.pending;
    forall v | v in p.config && v !in job'.todo ensures FreshKey(all, p.config[v].key, v, job.start) {
      if v == row.usage {
        RoundFacts(d.clock);
        assert id in all && all[id] == row;
      } else {
        FreshCarries(d.rows + job.pending, all, p.config[v].key, v, job.start);
      }
    }
  }

  lemma InsertKeeps(p: Params, s: State, j: JobId, id: KeyId, priv: string, pub: Option<string>)
    requires NonNegative(p.config)
    requires Inv(p, s) && Enabled(p, s, Insert(j, id, priv, pub))
    ensures Inv(p, After(p, s, Insert(j, id, priv, pub)))
  {
    var job, u := s.jobs[j], s.jobs[j].phase.usage;
    var k := p.config[u].key;
    assert JobOk(p, s.db, job) && NonNegativeTerms(k);
    var row := MintedRow(id, priv, pub, u, s.db.clock, k.ttl);
    MintedTimes(id, priv, pub, u, s.db.clock, k.ttl);
    InsertPending(p, s.db, job, id, row);
    InsertFresh(p, s.db, job, id, row);
    JobStep(p, s, j, job.(phase := Idle, todo := job.todo - {u}, pending := job.pending[id := row]));
  }

  lemma CommitGrows(p: Params, s: State, j: JobId)
    requires Inv(p, s) && Enabled(p, s, Commit(j))
    ensures Grows(s.db, After(p, s, Commit(j)).db) && RowsOk(p, After(p, s, Commit(j)).db)
  {
    assert JobOk(p, s.db, s.jobs[j]);
  }

  /** A committing job contributes at most one key to a crowd, and the rest of that crowd is none of its base. */
  lemma CommitNewcomer(p: Params, d: Db, job: Job, u: Usage, ks: set<KeyId>, k: KeyId)
    requires PendingOk(p, d, job) && k in ks && k in job.pending
    requires Crowd(p, d.(rows := d.rows + job.pending), u, ks)
    ensures forall a :: a in ks && a != k ==> a in d.rows && a !in job.base
  {
    var d' := d.(rows := d.rows + job.pending);
    assert d'.rows[k] == job.pending[k] && job.pending[k].usage == u;
    forall a | a in ks && a != k ensures a in d.rows && a !in job.base {
      assert a in d'.rows && d'.rows[a].usage == u && Standing(d'.rows[a], d.clock);
      assert a !in job.pending;
      if a in job.base {
        assert false;
      }
    }
  }

  /**
   The heart of the spacing argument. Of the keys a job commits at most one belongs to a crowd;
   without it the crowd held none of the job's base, so the job was among its elders and trades
   that place for the new key.
   */
  lemma CommitCrowd(p: Params, s: State, j: JobId, d': Db, u: Usage, ks: set<KeyId>)
    requires CrowdsBounded(p, s) && j in s.jobs && PendingOk(p, s.db, s.jobs[j])
    requires d' == s.db.(rows := s.db.rows + s.jobs[j].pending) && Grows(s.db, d') && Crowd(p, d', u, ks)
    ensures |ks| + |Elders(s.jobs - {j}, ks)| <= p.slots
  {
    var job := s.jobs[j];
    if k: KeyId :| k in ks && k in job.pending {
      var rest := ks - {k};
      CommitNewcomer(p, s.db, job, u, ks, k);
      CrowdCarries(p, s.db, d', u, rest) by { CrowdShrinks(p, d', u, ks, rest); }
      TradePlaces(s.jobs, j, ks, rest);
      assert ks == rest + {k};
    } else {
      CrowdCarries(p, s.db, d', u, ks);
      SubsetSize(Elders(s.jobs - {j}, ks), Elders(s.jobs, ks));
    }
  }

  lemma CrowdShrinks(p: Params, d: Db, u: Usage, ks: set<KeyId>, rest: set<KeyId>)
    requires Crowd(p, d, u, ks) && rest <= ks
    ensures Crowd(p, d, u, rest)
  {
  }

  lemma TradePlaces(jobs: map<JobId, Job>, j: JobId, ks: set<KeyId>, rest: set<KeyId>)
    requires j in jobs && rest <= ks && jobs[j].base !! rest
    ensures |Elders(jobs - {j}, ks)| < |Elders(jobs, rest)|
  {
    assert j in Elders(jobs, rest);
    SubsetSize(Elders(jobs - {j}, ks), Elders(jobs, rest) - {j});
  }

  lemma CommitJobs(p: Params, s: State, j: JobId)
    requires Inv(p, s) && Enabled(p, s, Commit(j))
    ensures JobsOk(p, After(p, s, Commit(j)))
  {
    var s' := After(p, s, Commit(j));
    CommitGrows(p, s, j);
    forall i | i in s'.jobs ensures JobOk(p, s'.db, s'.jobs[i]) {
      assert JobOk(p, s.db, s.jobs[i]);
      forall k | k in s.jobs[i].pending ensures k !in s'.db.rows {}
      JobCarries(p, s.db, s'.db, s.jobs[i]);
    }
  }

  lemma CommitKeeps(p: Params, s: State, j: JobId)
    requires Inv(p, s) && Enabled(p, s, Commit(j))
    ensures Inv(p, After(p, s, Commit(j)))
  {
    var s' := After(p, s, Commit(j));
    CommitGrows(p, s, j);
    CommitJobs(p, s, j);
    forall u, ks | Crowd(p, s'.db, u, ks) ensures |ks| + |Elders(s'.jobs, ks)| <= p.slots {
      CommitCrowd(p, s, j, s'.db, u, ks);
    }
  }

  lemma RollbackKeeps(p: Params, s: State, j: JobId)
    requires Inv(p, s) && j in s.jobs
    ensures Inv(p, After(p, s, Rollback(j)))
  {
    CrowdsKept(p, s, After(p, s, Rollback(j)));
  }

  lemma StepKeeps(p: Params, s: State, e: Event)
    requires NonNegative(p.config)
    requires Inv(p, s) && Enabled(p, s, e)
    ensures Inv(p, After(p, s, e))
  {
    match e
    case Tick(_) => QuietStep(p, s, After(p, s, e).db);
    case Begin(j) => BeginKeeps(p, s, j);
    case Read(j, u, keys) => ReadKeeps(p, s, j, u, keys);
    case Skip(j) => SkipKeeps(p, s, j);
    case Generate(j) => GenerateKeeps(p, s, j);
    case Insert(j, id, priv, pub) => InsertKeeps(p, s, j, id, priv, pub);
    case Commit(j) => CommitKeeps(p, s, j);
    case Rollback(j) => RollbackKeeps(p, s, j);
    case Revoke(_, _, _, _) => QuietStep(p, s, After(p, s, e).db);
  }

  /** One step never forgets a row, changes a key's identity, or undoes a revocation. */
  lemma StepGrows(p: Params, s: State, e: Event)
    requires Inv(p, s) && Enabled(p, s, e)
    ensures Grows(s.db, After(p, s, e).db)
  {
    if e.Commit? {
      CommitGrows(p, s, e.job);
    }
  }
}
