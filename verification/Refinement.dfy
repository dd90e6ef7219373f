/**
 The imperative code is the protocol's: one generation is one job's steps for a usage, whatever other
 jobs are in flight, and a whole rotation is one job from its beginning to its commit.
 */
module Refinement {
  import opened Wrappers
  import opened Time
  import opened Config
  import opened KeyTable
  import opened MasterKey
  import opened KeyGen
  import opened Protocol

  /** Clock readings of the usages, taken in this order, never go back. */
  predicate InOrder(order: seq<Usage>, attempts: map<Usage, Attempt>, from: Time) {
    && (forall n :: 0 <= n < |order| ==>
                      && order[n] in attempts
                      && from <= attempts[order[n]].checkedAt <= attempts[order[n]].insertedAt)
    && (forall n, m :: 0 <= n < m < |order| ==>
                         && order[n] in attempts && order[m] in attempts
                         && attempts[order[n]].insertedAt <= attempts[order[m]].checkedAt)
  }

  /** What the searches answered. */
  ghost predicate Answers(env: Env, rows: Rows, lists: map<Usage, seq<Row>>) {
    forall u :: u in env.config ==> u in lists && IsSearch(rows, u, env.txStart, KEYS_MAX_BATCH_SIZE, lists[u])
  }

  /** Job `j` is in flight beside the others. */
  predicate Beside(jobs: map<JobId, Job>, j: JobId, others: map<JobId, Job>) {
    j !in others && j in jobs && jobs == others[j := jobs[j]]
  }

  /** The job has handled `done` and is about to take the next usage. */
  ghost predicate Handled(job: Job, env: Env, before: Rows, attempts: map<Usage, Attempt>, done: set<Usage>) {
    && job.phase.Idle? && job.start == env.txStart
    && done !! job.todo && done + job.todo == env.config.Keys
    && IsRotation(env, before, attempts, done, before + job.pending)
  }

  ghost predicate Midway(
    p: Params, s: State, j: JobId, others: map<JobId, Job>, env: Env, before: Rows,
    attempts: map<Usage, Attempt>, done: set<Usage>)
  {
    && p.config == env.config && s.db.rows == before
    && Beside(s.jobs, j, others) && Handled(s.jobs[j], env, before, attempts, done)
  }

  lemma BesideStays(jobs: map<JobId, Job>, jobs': map<JobId, Job>, j: JobId, others: map<JobId, Job>)
    requires Beside(jobs, j, others) && j in jobs' && jobs' == jobs[j := jobs'[j]]
    ensures Beside(jobs', j, others)
  {
  }

  lemma HandledNext(
    job: Job, job': Job, env: Env, before: Rows, attempts: map<Usage, Attempt>, u: Usage, done: set<Usage>)
    requires Handled(job, env, before, attempts, done) && u in job.todo
    requires job' == job.(todo := job.todo - {u}, pending := job'.pending)
    requires IsRotation(env, before, attempts, done + {u}, before + job'.pending)
    ensures Handled(job', env, before, attempts, done + {u})
  {
  }

  /** No other job is about to commit a row with this id. */
  predicate UnusedByOthers(jobs: map<JobId, Job>, j: JobId, id: KeyId) {
    forall i :: i in jobs && i != j ==> id !in jobs[i].pending
  }

  /** A key was generated, under an id that neither the job nor any other one has. */
  predicate KidIsUnused(s: State, j: JobId, env: Env, sofar: Rows, a: Attempt) {
    Generatable(env, a) && KidOf(a) !in sofar && UnusedByOthers(s.jobs, j, KidOf(a))
  }

  /** The ids generated in a rotation are not those of rows other jobs hold. */
  ghost predicate KidsApart(env: Env, before: Rows, attempts: map<Usage, Attempt>, others: map<JobId, Job>, j: JobId) {
    forall u :: Generates(env, before, attempts, u) ==> UnusedByOthers(others, j, KidOf(attempts[u]))
  }

  lemma AnswersCarry(
    env: Env, before: Rows, attempts: map<Usage, Attempt>, done: set<Usage>, sofar: Rows, u: Usage, keys: seq<Row>)
    requires IsRotation(env, before, attempts, done, sofar) && u !in done
    requires IsSearch(before, u, env.txStart, KEYS_MAX_BATCH_SIZE, keys)
    ensures IsSearch(sofar, u, env.txStart, KEYS_MAX_BATCH_SIZE, keys)
  {
    OtherUsagesDoNotMatter(env, before, attempts, done, sofar, u, Attempt(false, 0, None, None, 0, false));
  }

  /** The row a generation adds to what the job sees, if any. */
  ghost function Seen(env: Env, sofar: Rows, u: Usage, a: Attempt): Rows
    requires IsDue(env, sofar, u, a) ==> Generatable(env, a)
  {
    if IsDue(env, sofar, u, a) then sofar[KidOf(a) := Minted(env, u, a)] else sofar
  }

  /** The decisions and the row of one generation are those of the protocol's steps, with any other jobs in flight. */
  lemma GenerationLeads(p: Params, s: State, j: JobId, env: Env, u: Usage, a: Attempt, keys: seq<Row>)
    returns (es: seq<Event>, s': State)
    requires p.config == env.config && j in s.jobs && s.jobs[j].phase.Idle? && s.jobs[j].start == env.txStart
    requires u in s.jobs[j].todo && u in p.config && 0 <= s.db.clock <= a.checkedAt <= a.insertedAt
    requires var all := s.db.rows + s.jobs[j].pending;
             && Keyed(all) && IsSearch(all, u, env.txStart, KEYS_MAX_BATCH_SIZE, keys)
             && (IsDue(env, all, u, a) ==> KidIsUnused(s, j, env, all, a))
    ensures Leads(p, s, es, s')
    ensures s'.db.rows == s.db.rows && 0 <= s'.db.clock <= a.insertedAt
    ensures j in s'.jobs && s'.jobs == s.jobs[j := s'.jobs[j]]
    ensures var all, job, job' := s.db.rows + s.jobs[j].pending, s.jobs[j], s'.jobs[j];
            && job' == job.(todo := job.todo - {u}, pending := job'.pending)
            && s'.db.rows + job'.pending == Seen(env, all, u, a)
  {
    var read := [Read(j, u, keys), Tick(a.checkedAt)];
    var s1 := ReadLeads(p, s, j, u, keys, a.checkedAt);
    OverdueMeansDue(s.db.rows + s.jobs[j].pending, u, env.txStart, keys, a.checkedAt, p.config[u].key.rotation);
    var es';
    if IsDue(env, s.db.rows + s.jobs[j].pending, u, a) {
      es', s' := InsertLeads(p, s1, j, env, u, a);
      PendingSeen(s.db.rows, s.jobs[j].pending, KidOf(a), Minted(env, u, a));
    } else {
      es', s' := SkipLeads(p, s1, j, u);
    }
    es := read + es';
    LeadsOn(p, s, read, s1, es', s');
  }

  lemma PendingSeen(rows: Rows, pending: Rows, id: KeyId, row: Row)
    ensures rows + pending[id := row] == (rows + pending)[id := row]
  {
  }

  lemma SkipLeads(p: Params, s: State, j: JobId, u: Usage) returns (es: seq<Event>, s': State)
    requires Enabled(p, s, Skip(j)) && s.jobs[j].phase.usage == u
    ensures Leads(p, s, es, s') && s'.db == s.db
    ensures s'.jobs == s.jobs[j := s.jobs[j].(phase := Idle, todo := s.jobs[j].todo - {u})]
  {
    es, s' := [Skip(j)], After(p, s, Skip(j));
    OneStep(p, s, Skip(j));
  }

  /** The search, then the clock reading of the age test. */
  lemma ReadLeads(p: Params, s: State, j: JobId, u: Usage, keys: seq<Row>, to: Time) returns (s': State)
    requires Enabled(p, s, Read(j, u, keys)) && s.db.clock <= to
    ensures Leads(p, s, [Read(j, u, keys), Tick(to)], s')
    ensures s'.db == s.db.(clock := to) && s'.jobs == s.jobs[j := s.jobs[j].(phase := Fetched(u, keys))]
  {
    var s1 := After(p, s, Read(j, u, keys));
    s' := After(p, s1, Tick(to));
    TwoSteps(p, s, Read(j, u, keys), Tick(to));
  }

  /** The age test passed: generate, then insert at the later clock reading. */
  lemma InsertLeads(p: Params, s: State, j: JobId, env: Env, u: Usage, a: Attempt) returns (es: seq<Event>, s': State)
    requires p.config == env.config && u in p.config
    requires j in s.jobs && s.jobs[j].phase.Fetched? && s.jobs[j].phase.usage == u
    requires Enabled(p, s, Generate(j)) && s.db.clock <= a.insertedAt && Generatable(env, a)
    requires KidOf(a) !in s.db.rows + s.jobs[j].pending && UnusedByOthers(s.jobs, j, KidOf(a))
    ensures Leads(p, s, es, s')
    ensures s'.db.rows == s.db.rows && s'.db.clock == a.insertedAt
    ensures var job := s.jobs[j];
            var pending := job.pending[KidOf(a) := Minted(env, u, a)];
            s'.jobs == s.jobs[j := job.(phase := Idle, todo := job.todo - {u}, pending := pending)]
  {
    var s3 := After(p, s, Generate(j));
    var s4 := After(p, s3, Tick(a.insertedAt));
    var row := Minted(env, u, a);
    var insert := Insert(j, KidOf(a), row.priv, row.pub);
    assert UnusedId(s4, KidOf(a));
    s' := After(p, s4, insert);
    TwoSteps(p, s, Generate(j), Tick(a.insertedAt));
    OneStep(p, s4, insert);
    es := [Generate(j), Tick(a.insertedAt)] + [insert];
    LeadsOn(p, s, [Generate(j), Tick(a.insertedAt)], s4, [insert], s');
  }

  // ---- Amid the steps of other jobs ----

  predicate Untouched(jobs: map<JobId, Job>, jobs': map<JobId, Job>, j: JobId) {
    j in jobs && j in jobs' && jobs'[j] == jobs[j]
  }

  /**
   One generation as the code takes it, with the events of others in between: it reads a list, others
   move, it tests the age at `checked`, others move, and it inserts at `settled`.
   */
  datatype Turn = Turn(
    usage: Usage, attempt: Attempt, keys: seq<Row>,
    wait: seq<Event>, checked: State, delay: seq<Event>, settled: State)

  ghost predicate Waited(p: Params, s: State, j: JobId, t: Turn) {
    && Enabled(p, s, Read(j, t.usage, t.keys)) && t.usage in p.config
    && t.checked.db.clock == t.attempt.checkedAt
    && var s1 := After(p, s, Read(j, t.usage, t.keys));
       Leads(p, s1, t.wait, t.checked) && Untouched(s1.jobs, t.checked.jobs, j)
  }

  ghost predicate Delayed(p: Params, j: JobId, t: Turn) {
    && Enabled(p, t.checked, Generate(j))
    && t.settled.db.clock == t.attempt.insertedAt && UnusedByOthers(t.settled.jobs, j, KidOf(t.attempt))
    && var s1 := After(p, t.checked, Generate(j));
       Leads(p, s1, t.delay, t.settled) && Untouched(s1.jobs, t.settled.jobs, j)
  }

  /** The turn as it went: without an insert there is nothing to wait for after the age test. */
  ghost predicate Timed(p: Params, s: State, j: JobId, env: Env, t: Turn) {
    && p.config == env.config && Waited(p, s, j, t)
    && (if ListDue(env, t.usage, t.attempt, t.keys) then Delayed(p, j, t) else t.delay == [] && t.settled == t.checked)
  }

  lemma CheckedJob(p: Params, s: State, j: JobId, env: Env, t: Turn)
    requires Timed(p, s, j, env, t) && ListDue(env, t.usage, t.attempt, t.keys)
    ensures t.settled.jobs[j] == s.jobs[j].(phase := Generating(t.usage))
  {
  }

  /** Read to age test, in the presence of others. */
  lemma WaitLeads(p: Params, s: State, j: JobId, t: Turn) returns (es: seq<Event>)
    requires Waited(p, s, j, t)
    ensures Leads(p, s, es, t.checked) && t.checked.jobs[j] == s.jobs[j].(phase := Fetched(t.usage, t.keys))
  {
    var s1 := After(p, s, Read(j, t.usage, t.keys));
    OneStep(p, s, Read(j, t.usage, t.keys));
    es := [Read(j, t.usage, t.keys)] + t.wait;
    LeadsOn(p, s, [Read(j, t.usage, t.keys)], s1, t.wait, t.checked);
  }

  /** Age test to insert, in the presence of others. */
  lemma DelayLeads(p: Params, s: State, j: JobId, env: Env, t: Turn) returns (es: seq<Event>, s': State)
    requires Timed(p, s, j, env, t) && ListDue(env, t.usage, t.attempt, t.keys) && Generatable(env, t.attempt)
    requires KidOf(t.attempt) !in t.settled.db.rows + s.jobs[j].pending
    ensures Leads(p, t.checked, es, s') && s'.db == t.settled.db
    ensures var job, row := s.jobs[j], Minted(env, t.usage, t.attempt);
            s'.jobs == t.settled.jobs[j := job.(phase := Idle, todo := job.todo - {t.usage},
                                               pending := job.pending[KidOf(t.attempt) := row])]
  {
    var s1, row := After(p, t.checked, Generate(j)), Minted(env, t.usage, t.attempt);
    var insert := Insert(j, KidOf(t.attempt), row.priv, row.pub);
    CheckedJob(p, s, j, env, t);
    assert UnusedId(t.settled, KidOf(t.attempt));
    s' := After(p, t.settled, insert);
    OneStep(p, t.checked, Generate(j));
    OneStep(p, t.settled, insert);
    LeadsOn(p, s1, t.delay, t.settled, [insert], s');
    es := [Generate(j)] + (t.delay + [insert]);
    LeadsOn(p, t.checked, [Generate(j)], s1, t.delay + [insert], s');
  }

  /** A key was generated, under an id the job does not have yet. */
  predicate IsNew(env: Env, t: Turn, job: Job) {
    Generatable(env, t.attempt) && KidOf(t.attempt) !in job.pending
  }

  /** What the job is once the turn is over. */
  function JobAfter(env: Env, job: Job, t: Turn): Job
    requires ListDue(env, t.usage, t.attempt, t.keys) ==> Generatable(env, t.attempt)
  {
    job.(phase := Idle, todo := job.todo - {t.usage},
         pending := if ListDue(env, t.usage, t.attempt, t.keys)
                    then job.pending[KidOf(t.attempt) := Minted(env, t.usage, t.attempt)] else job.pending)
  }

  /** The outcome that the code has for the turn, on the committed rows it finds at its insert and the job's own. */
  ghost predicate Succeeds(env: Env, job: Job, t: Turn, r: Result<Jwk, Error>, after: Rows) {
    ListOutcome(env, t.settled.db.rows + job.pending, t.usage, t.attempt, t.keys, r, after) && r.Ok?
  }

  /**
   What `JwkGen` does when it succeeds is what the protocol lets its job do for the usage: same decision,
   same row. Any other jobs may be in flight, and may read, insert, commit or roll back between the
   read and the age test and between the age test and the insert; nothing locks them out.
   */
  lemma JwkGenIsAJobStep(
    p: Params, s: State, j: JobId, env: Env, t: Turn, r: Result<Jwk, Error>, after: Rows)
    returns (es: seq<Event>, s': State)
    requires Timed(p, s, j, env, t) && 0 <= t.attempt.checkedAt && Succeeds(env, s.jobs[j], t, r, after)
    ensures Leads(p, s, es, s') && s'.db == t.settled.db
    ensures ListDue(env, t.usage, t.attempt, t.keys) ==> Generatable(env, t.attempt)
    ensures s'.jobs == t.settled.jobs[j := JobAfter(env, s.jobs[j], t)]
    ensures s'.db.rows + s'.jobs[j].pending == after
  {
    var es1 := WaitLeads(p, s, j, t);
    var es2;
    if ListDue(env, t.usage, t.attempt, t.keys) {
      es2, s' := DelayLeads(p, s, j, env, t);
      PendingSeen(t.settled.db.rows, s.jobs[j].pending, KidOf(t.attempt), Minted(env, t.usage, t.attempt));
    } else {
      es2, s' := SkipLeads(p, t.checked, j, t.usage);
    }
    es := es1 + es2;
    LeadsOn(p, s, es1, t.checked, es2, s');
  }

  /** A whole rotation: its turns, and the states before each of them and after the last. */
  datatype Rotation = Rotation(turns: seq<Turn>, marks: seq<State>, rests: seq<seq<Event>>)

  /** Turn `n` succeeds, and then others may move before the next one. */
  ghost predicate TurnTaken(p: Params, j: JobId, env: Env, t: Turn, s: State, rest: seq<Event>, s': State) {
    && Timed(p, s, j, env, t) && 0 <= t.attempt.checkedAt
    && (exists r, after :: Succeeds(env, s.jobs[j], t, r, after))
    && (ListDue(env, t.usage, t.attempt, t.keys) ==> Generatable(env, t.attempt))
    && var q := t.settled.(jobs := t.settled.jobs[j := JobAfter(env, s.jobs[j], t)]);
       Leads(p, q, rest, s') && Untouched(q.jobs, s'.jobs, j)
  }

  ghost predicate Taken(p: Params, j: JobId, env: Env, ro: Rotation) {
    && |ro.marks| == |ro.turns| + 1 && |ro.rests| == |ro.turns|
    && forall n :: 0 <= n < |ro.turns| ==>
                     TurnTaken(p, j, env, ro.turns[n], ro.marks[n], ro.rests[n], ro.marks[n + 1])
  }

  lemma TurnLeads(p: Params, j: JobId, env: Env, t: Turn, s: State, rest: seq<Event>, s': State)
    returns (es: seq<Event>)
    requires TurnTaken(p, j, env, t, s, rest, s')
    ensures Leads(p, s, es, s')
    ensures j in s.jobs && j in s'.jobs && s'.jobs[j] == JobAfter(env, s.jobs[j], t)
    ensures ListDue(env, t.usage, t.attempt, t.keys) ==> KidOf(t.attempt) !in s.jobs[j].pending
  {
    var r, after :| Succeeds(env, s.jobs[j], t, r, after);
    var es1, q := JwkGenIsAJobStep(p, s, j, env, t, r, after);
    es := es1 + rest;
    assert q == t.settled.(jobs := t.settled.jobs[j := JobAfter(env, s.jobs[j], t)]);
    LeadsOn(p, s, es1, q, rest, s');
  }

  predicate Mints(env: Env, t: Turn) {
    ListDue(env, t.usage, t.attempt, t.keys) && Generatable(env, t.attempt)
  }

  ghost predicate HoldsRow(env: Env, t: Turn, pending: Rows)
    requires Mints(env, t)
  {
    KidOf(t.attempt) in pending && pending[KidOf(t.attempt)] == Minted(env, t.usage, t.attempt)
  }

  ghost predicate IsKidOf(env: Env, t: Turn, id: KeyId) {
    Mints(env, t) && KidOf(t.attempt) == id
  }

  /** The rows the job holds are those of the turns whose list was due. */
  ghost predicate HoldsMinted(env: Env, turns: seq<Turn>, pending: Rows) {
    && (forall t :: t in turns && Mints(env, t) ==> HoldsRow(env, t, pending))
    && (forall id :: id in pending ==> exists t :: t in turns && IsKidOf(env, t, id))
  }

  function UsagesOf(turns: seq<Turn>): set<Usage> {
    set t | t in turns :: t.usage
  }

  lemma RowsOneMore(env: Env, turns: seq<Turn>, t: Turn, job: Job)
    requires HoldsMinted(env, turns, job.pending)
    requires ListDue(env, t.usage, t.attempt, t.keys) ==> IsNew(env, t, job)
    ensures forall t' :: t' in turns + [t] && Mints(env, t') ==> HoldsRow(env, t', JobAfter(env, job, t).pending)
  {
    forall t' | t' in turns + [t] && Mints(env, t') ensures HoldsRow(env, t', JobAfter(env, job, t).pending) {
      assert t' in turns ==> HoldsRow(env, t', job.pending);
    }
  }

  lemma KidsOneMore(env: Env, turns: seq<Turn>, t: Turn, job: Job, id: KeyId)
    requires HoldsMinted(env, turns, job.pending)
    requires ListDue(env, t.usage, t.attempt, t.keys) ==> Generatable(env, t.attempt)
    requires id in JobAfter(env, job, t).pending
    ensures exists t' :: t' in turns + [t] && IsKidOf(env, t', id)
  {
    if id in job.pending {
      var t' :| t' in turns && IsKidOf(env, t', id);
      assert t' in turns + [t];
    } else {
      assert t in turns + [t] && IsKidOf(env, t, id);
    }
  }

  lemma HoldsOneMore(env: Env, turns: seq<Turn>, t: Turn, job: Job)
    requires HoldsMinted(env, turns, job.pending)
    requires ListDue(env, t.usage, t.attempt, t.keys) ==> IsNew(env, t, job)
    ensures HoldsMinted(env, turns + [t], JobAfter(env, job, t).pending)
  {
    RowsOneMore(env, turns, t, job);
    forall id | id in JobAfter(env, job, t).pending ensures exists t' :: t' in turns + [t] && IsKidOf(env, t', id) {
      KidsOneMore(env, turns, t, job, id);
    }
  }

  lemma UsagesOneMore(turns: seq<Turn>, t: Turn)
    ensures UsagesOf(turns + [t]) == UsagesOf(turns) + {t.usage}
  {
    assert t in turns + [t];
    forall u | u in UsagesOf(turns) ensures u in UsagesOf(turns + [t]) {
      var t' :| t' in turns && t'.usage == u;
      assert t' in turns + [t];
    }
  }

  /** Where the job stands after these turns. */
  ghost predicate Stands(env: Env, turns: seq<Turn>, every: set<Usage>, job: Job) {
    job.phase.Idle? && job.todo == every - UsagesOf(turns) && HoldsMinted(env, turns, job.pending)
  }

  lemma StandsOn(env: Env, turns: seq<Turn>, every: set<Usage>, job: Job, t: Turn)
    requires Stands(env, turns, every, job)
    requires ListDue(env, t.usage, t.attempt, t.keys) ==> IsNew(env, t, job)
    ensures Stands(env, turns + [t], every, JobAfter(env, job, t))
  {
    HoldsOneMore(env, turns, t, job);
    UsagesOneMore(turns, t);
  }

  lemma {:induction false} TurnsLead(p: Params, j: JobId, env: Env, ro: Rotation, every: set<Usage>, n: nat)
    returns (es: seq<Event>)
    requires Taken(p, j, env, ro) && n <= |ro.turns|
    requires j in ro.marks[0].jobs && Stands(env, [], every, ro.marks[0].jobs[j])
    ensures Leads(p, ro.marks[0], es, ro.marks[n])
    ensures j in ro.marks[n].jobs && Stands(env, ro.turns[..n], every, ro.marks[n].jobs[j])
    decreases n
  {
    if n == 0 {
      es := [];
    } else {
      var t, mid := ro.turns[n - 1], ro.marks[n - 1];
      assert ro.turns[..n] == ro.turns[..n - 1] + [t];
      var es1 := TurnsLead(p, j, env, ro, every, n - 1);
      var es2 := TurnLeads(p, j, env, t, mid, ro.rests[n - 1], ro.marks[n]);
      StandsOn(env, ro.turns[..n - 1], every, mid.jobs[j], t);
      es := es1 + es2;
      LeadsOn(p, ro.marks[0], es1, mid, es2, ro.marks[n]);
    }
  }

  /**
   A rotation amid other jobs: it begins, takes one turn for each configured usage, each as the code
   takes it on what it finds, and commits, while others move whenever they like. It is one job of the
   protocol, and it adds exactly one row for each usage whose list was due when it tested its age.
   */
  lemma RotationAmidOthers(p: Params, s: State, j: JobId, env: Env, ro: Rotation) returns (es: seq<Event>, s': State)
    requires p.config == env.config && Enabled(p, s, Begin(j)) && Taken(p, j, env, ro)
    requires ro.marks[0] == After(p, s, Begin(j)) && UsagesOf(ro.turns) == p.config.Keys
    ensures Leads(p, s, es, s') && j in ro.marks[|ro.turns|].jobs
    ensures var last := ro.marks[|ro.turns|];
            && s'.db == last.db.(rows := last.db.rows + last.jobs[j].pending) && s'.jobs == last.jobs - {j}
            && HoldsMinted(env, ro.turns, last.jobs[j].pending)
  {
    var last := ro.marks[|ro.turns|];
    OneStep(p, s, Begin(j));
    var es1 := TurnsLead(p, j, env, ro, p.config.Keys, |ro.turns|);
    assert ro.turns[..|ro.turns|] == ro.turns;
    s' := After(p, last, Commit(j));
    OneStep(p, last, Commit(j));
    LeadsOn(p, ro.marks[0], es1, last, [Commit(j)], s');
    es := [Begin(j)] + (es1 + [Commit(j)]);
    LeadsOn(p, s, [Begin(j)], ro.marks[0], es1 + [Commit(j)], s');
  }

  // ---- One job after the other ----

  /** Ids of different usages do not collide in a rotation that went through. */
  lemma KidIsFree(
    env: Env, before: Rows, attempts: map<Usage, Attempt>, done: set<Usage>, sofar: Rows,
    every: set<Usage>, after: Rows, u: Usage)
    requires IsRotation(env, before, attempts, done, sofar) && IsRotation(env, before, attempts, every, after)
    requires done <= every && u in every && u !in done && IsDue(env, sofar, u, attempts[u])
    ensures Generatable(env, attempts[u]) && KidOf(attempts[u]) !in sofar
  {
    OtherUsagesDoNotMatter(env, before, attempts, done, sofar, u, attempts[u]);
    assert Obstacle(env, before, u, attempts[u]).None?;
    assert Generates(env, before, attempts, u);
    assert after[KidOf(attempts[u])] == Minted(env, u, attempts[u]);
    forall v | v in done && Generates(env, before, attempts, v) ensures KidOf(attempts[v]) != KidOf(attempts[u]) {
      assert after[KidOf(attempts[v])] == Minted(env, v, attempts[v]);
    }
  }

  lemma Prepared(
    p: Params, s: State, j: JobId, others: map<JobId, Job>, env: Env, before: Rows, attempts: map<Usage, Attempt>,
    keys: seq<Row>, u: Usage, done: set<Usage>, after: Rows)
    requires Midway(p, s, j, others, env, before, attempts, done) && Keyed(before) && u in s.jobs[j].todo
    requires IsSearch(before, u, env.txStart, KEYS_MAX_BATCH_SIZE, keys)
    requires IsRotation(env, before, attempts, env.config.Keys, after) && KidsApart(env, before, attempts, others, j)
    ensures var sofar := before + s.jobs[j].pending;
            && Keyed(sofar) && IsSearch(sofar, u, env.txStart, KEYS_MAX_BATCH_SIZE, keys) && u in attempts
            && (IsDue(env, sofar, u, attempts[u]) ==> KidIsUnused(s, j, env, sofar, attempts[u]))
            && IsRotation(env, before, attempts, done + {u}, Seen(env, sofar, u, attempts[u]))
  {
    var sofar := before + s.jobs[j].pending;
    AnswersCarry(env, before, attempts, done, sofar, u, keys);
    NextRotation(env, before, attempts, done, sofar, env.config.Keys, after, u);
    SofarKeyed(env, before, attempts, done, sofar);
    if IsDue(env, sofar, u, attempts[u]) {
      OtherUsagesDoNotMatter(env, before, attempts, done, sofar, u, attempts[u]);
      assert Generates(env, before, attempts, u);
    }
  }

  /** One usage further. */
  lemma NextLeads(
    p: Params, s: State, j: JobId, others: map<JobId, Job>, env: Env, before: Rows, attempts: map<Usage, Attempt>,
    keys: seq<Row>, u: Usage, done: set<Usage>)
    returns (es: seq<Event>, s': State)
    requires Midway(p, s, j, others, env, before, attempts, done)
    requires u in s.jobs[j].todo && u in attempts && 0 <= s.db.clock <= attempts[u].checkedAt <= attempts[u].insertedAt
    requires var sofar := before + s.jobs[j].pending;
             && Keyed(sofar) && IsSearch(sofar, u, env.txStart, KEYS_MAX_BATCH_SIZE, keys)
             && (IsDue(env, sofar, u, attempts[u]) ==> KidIsUnused(s, j, env, sofar, attempts[u]))
             && IsRotation(env, before, attempts, done + {u}, Seen(env, sofar, u, attempts[u]))
    ensures Leads(p, s, es, s') && Midway(p, s', j, others, env, before, attempts, done + {u})
    ensures s'.jobs[j].todo == s.jobs[j].todo - {u} && 0 <= s'.db.clock <= attempts[u].insertedAt
  {
    es, s' := GenerationLeads(p, s, j, env, u, attempts[u], keys);
    BesideStays(s.jobs, s'.jobs, j, others);
    HandledNext(s.jobs[j], s'.jobs[j], env, before, attempts, u, done);
  }

  lemma StepLeads(
    p: Params, s: State, j: JobId, others: map<JobId, Job>, env: Env, before: Rows, attempts: map<Usage, Attempt>,
    keys: seq<Row>, u: Usage, done: set<Usage>, after: Rows)
    returns (es: seq<Event>, s': State)
    requires Midway(p, s, j, others, env, before, attempts, done) && Keyed(before) && u in s.jobs[j].todo
    requires IsSearch(before, u, env.txStart, KEYS_MAX_BATCH_SIZE, keys)
    requires IsRotation(env, before, attempts, env.config.Keys, after) && KidsApart(env, before, attempts, others, j)
    requires u in attempts && 0 <= s.db.clock <= attempts[u].checkedAt <= attempts[u].insertedAt
    ensures Leads(p, s, es, s') && Midway(p, s', j, others, env, before, attempts, done + {u})
    ensures s'.jobs[j].todo == s.jobs[j].todo - {u} && 0 <= s'.db.clock <= attempts[u].insertedAt
  {
    Prepared(p, s, j, others, env, before, attempts, keys, u, done, after);
    es, s' := NextLeads(p, s, j, others, env, before, attempts, keys, u, done);
  }

  lemma LastLeads(
    p: Params, s: State, j: JobId, others: map<JobId, Job>, env: Env, before: Rows, attempts: map<Usage, Attempt>,
    done: set<Usage>, after: Rows)
    requires Midway(p, s, j, others, env, before, attempts, done) && s.jobs[j].todo == {}
    requires IsRotation(env, before, attempts, env.config.Keys, after)
    ensures Enabled(p, s, Commit(j)) && After(p, s, Commit(j)).db.rows == after && After(p, s, Commit(j)).jobs == others
  {
    assert done == env.config.Keys;
    RotationIsOrderFree(env, before, attempts, done, after, before + s.jobs[j].pending);
  }

  lemma OrderRest(order: seq<Usage>, attempts: map<Usage, Attempt>, from: Time, next: Time)
    requires order != [] && InOrder(order, attempts, from) && next <= attempts[order[0]].insertedAt
    ensures InOrder(order[1..], attempts, next)
  {
    var rest := order[1..];
    forall n | 0 <= n < |rest|
      ensures rest[n] in attempts && next <= attempts[rest[n]].checkedAt <= attempts[rest[n]].insertedAt
    {
      assert rest[n] == order[n + 1];
      assert attempts[order[0]].insertedAt <= attempts[order[n + 1]].checkedAt;
    }
    forall n, m | 0 <= n < m < |rest|
      ensures rest[n] in attempts && rest[m] in attempts && attempts[rest[n]].insertedAt <= attempts[rest[m]].checkedAt
    {
      assert rest[n] == order[n + 1] && rest[m] == order[m + 1];
    }
  }

  predicate Distinct(order: seq<Usage>) {
    forall n, m :: 0 <= n < m < |order| ==> order[n] != order[m]
  }

  lemma {:induction false} RestLeads(
    p: Params, s: State, j: JobId, others: map<JobId, Job>, env: Env, before: Rows, attempts: map<Usage, Attempt>,
    lists: map<Usage, seq<Row>>, order: seq<Usage>, done: set<Usage>, after: Rows)
    returns (es: seq<Event>, s': State)
    requires Midway(p, s, j, others, env, before, attempts, done) && Keyed(before) && Answers(env, before, lists)
    requires IsRotation(env, before, attempts, env.config.Keys, after) && KidsApart(env, before, attempts, others, j)
    requires s.jobs[j].todo == (set u | u in order) && Distinct(order)
    requires 0 <= s.db.clock && InOrder(order, attempts, s.db.clock)
    ensures Leads(p, s, es, s') && s'.db.rows == after && s'.jobs == others
    decreases |order|
  {
    if order == [] {
      LastLeads(p, s, j, others, env, before, attempts, done, after);
      es, s' := [Commit(j)], After(p, s, Commit(j));
      OneStep(p, s, Commit(j));
    } else {
      var u := order[0];
      assert u in s.jobs[j].todo && u in env.config;
      var es1, s1 := StepLeads(p, s, j, others, env, before, attempts, lists[u], u, done, after);
      TodoShrinks(order, s.jobs[j].todo);
      OrderRest(order, attempts, s.db.clock, s1.db.clock);
      var es2;
      es2, s' := RestLeads(p, s1, j, others, env, before, attempts, lists, order[1..], done + {u}, after);
      es := es1 + es2;
      LeadsOn(p, s, es1, s1, es2, s');
    }
  }

  lemma TodoShrinks(order: seq<Usage>, todo: set<Usage>)
    requires order != [] && todo == (set u | u in order) && Distinct(order)
    ensures todo - {order[0]} == (set u | u in order[1..])
  {
    forall u | u in todo - {order[0]} ensures u in order[1..] {
      var n :| 0 <= n < |order| && order[n] == u;
      assert order[1..][n - 1] == u;
    }
  }

  lemma SofarKeyed(env: Env, before: Rows, attempts: map<Usage, Attempt>, done: set<Usage>, sofar: Rows)
    requires IsRotation(env, before, attempts, done, sofar) && Keyed(before)
    ensures Keyed(sofar)
  {
  }

  lemma NextRotation(
    env: Env, before: Rows, attempts: map<Usage, Attempt>, done: set<Usage>, sofar: Rows,
    every: set<Usage>, after: Rows, u: Usage)
    requires IsRotation(env, before, attempts, done, sofar) && IsRotation(env, before, attempts, every, after)
    requires done <= every && u in every && u !in done
    ensures u in attempts
    ensures IsDue(env, sofar, u, attempts[u]) ==> Generatable(env, attempts[u]) && KidOf(attempts[u]) !in sofar
    ensures IsRotation(env, before, attempts, done + {u}, Seen(env, sofar, u, attempts[u]))
  {
    if IsDue(env, sofar, u, attempts[u]) {
      KidIsFree(env, before, attempts, done, sofar, every, after, u);
    }
    ObstacleCarries(env, before, attempts, done, sofar, u, attempts[u]);
    RotationGrows(env, before, attempts, done, sofar, u, Seen(env, sofar, u, attempts[u]));
  }

  lemma FirstHandled(env: Env, before: Rows, attempts: map<Usage, Attempt>)
    ensures Handled(Job(env.txStart, before.Keys, env.config.Keys, Idle, map[]), env, before, attempts, {})
  {
    NothingDone(env, before, attempts);
    assert before + map[] == before;
  }

  lemma BeginMidway(p: Params, s: State, j: JobId, env: Env, attempts: map<Usage, Attempt>)
    requires p.config == env.config && |s.jobs| < p.slots && j !in s.jobs && s.db.clock == env.txStart
    ensures Enabled(p, s, Begin(j)) && Midway(p, After(p, s, Begin(j)), j, s.jobs, env, s.db.rows, attempts, {})
    ensures After(p, s, Begin(j)).db == s.db && After(p, s, Begin(j)).jobs[j].todo == p.config.Keys
  {
    FirstHandled(env, s.db.rows, attempts);
  }

  /**
   A rotation that went through, over usages taken in any order whose clock readings do not go
   back, is a run of the protocol: one job, from its beginning to its commit, leaves the same table.
   Other jobs may be in flight; they stay where they are.
   */
  lemma RotationIsAJob(
    p: Params, s: State, j: JobId, env: Env, attempts: map<Usage, Attempt>, lists: map<Usage, seq<Row>>,
    order: seq<Usage>, after: Rows)
    returns (es: seq<Event>, s': State)
    requires p.config == env.config && |s.jobs| < p.slots && j !in s.jobs && 0 <= s.db.clock == env.txStart
    requires Keyed(s.db.rows) && Answers(env, s.db.rows, lists)
    requires IsRotation(env, s.db.rows, attempts, env.config.Keys, after)
    requires KidsApart(env, s.db.rows, attempts, s.jobs, j)
    requires env.config.Keys == (set u | u in order) && Distinct(order)
    requires InOrder(order, attempts, env.txStart)
    ensures Leads(p, s, es, s') && s'.db.rows == after && s'.jobs == s.jobs
  {
    BeginMidway(p, s, j, env, attempts);
    var s1 := After(p, s, Begin(j));
    OneStep(p, s, Begin(j));
    var rest;
    rest, s' := RestLeads(p, s1, j, s.jobs, env, s.db.rows, attempts, lists, order, {}, after);
    es := [Begin(j)] + rest;
    LeadsOn(p, s, [Begin(j)], s1, rest, s');
  }
}
