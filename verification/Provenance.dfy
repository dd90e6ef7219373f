/** Where the rows of a table come from, in every run, told by the events that made them. */
module Provenance {
  import opened Wrappers
  import opened Time
  import opened Config
  import opened KeyTable
  import opened Protocol
  import opened Lifecycle

  function JobsAt(r: Run, i: nat): map<JobId, Job>
    requires i < |r.states|
  {
    r.states[i].store.jobs
  }

  /** One and the same job is in flight from state `from` to state `to`. */
  ghost predicate InFlight(r: Run, j: JobId, from: nat, to: nat) {
    from <= to < |r.states| && forall x: nat :: from <= x <= to ==> j in JobsAt(r, x)
  }

  lemma InFlightOn(r: Run, j: JobId, from: nat, to: nat)
    requires InFlight(r, j, from, to) && to + 1 < |r.states| && j in JobsAt(r, to + 1)
    ensures InFlight(r, j, from, to + 1)
  {
  }

  lemma InFlightJoins(r: Run, j: JobId, from: nat, mid: nat, to: nat)
    requires InFlight(r, j, from, mid) && InFlight(r, j, mid, to)
    ensures InFlight(r, j, from, to)
  {
  }

  ghost predicate Happens(r: Run, i: nat, e: Event) {
    i < |r.events| && r.events[i] == Store(e)
  }

  // ---- What a single event does to the table ----

  /** A row appears only by the commit of the job that held it. */
  lemma NewRowsAreCommitted(p: Params, r: Run, i: nat, id: KeyId) returns (j: JobId)
    requires IsRun(p, r) && i < |r.events| && id in DbAt(r, i + 1).rows && id !in DbAt(r, i).rows
    ensures Happens(r, i, Commit(j)) && j in JobsAt(r, i) && id in JobsAt(r, i)[j].pending
    ensures DbAt(r, i + 1).rows[id] == JobsAt(r, i)[j].pending[id]
  {
    assert IsStep(p, r, i);
    j := r.events[i].event.job;
  }

  /** A commit adds every row its job holds, and ends the job. */
  lemma CommitTakesAll(p: Params, r: Run, i: nat, j: JobId)
    requires IsRun(p, r) && Happens(r, i, Commit(j))
    ensures j in JobsAt(r, i) && j !in JobsAt(r, i + 1) && JobsAt(r, i)[j].todo == {}
    ensures DbAt(r, i + 1) == DbAt(r, i).(rows := DbAt(r, i).rows + JobsAt(r, i)[j].pending)
  {
    assert IsStep(p, r, i);
  }

  /** A rollback leaves the table as it is, and ends the job. */
  lemma RollbackLeavesNothing(p: Params, r: Run, i: nat, j: JobId)
    requires IsRun(p, r) && Happens(r, i, Rollback(j))
    ensures j in JobsAt(r, i) && j !in JobsAt(r, i + 1) && DbAt(r, i + 1) == DbAt(r, i)
  {
    assert IsStep(p, r, i);
  }

  /** A revocation sets two fields of one row; nothing but a revocation changes a row there is. */
  lemma OnlyRevocationsChangeRows(p: Params, r: Run, i: nat, id: KeyId)
    requires IsRun(p, r) && NonNegative(p.config) && i < |r.events| && id in DbAt(r, i).rows
    ensures id in DbAt(r, i + 1).rows
    ensures DbAt(r, i + 1).rows[id] != DbAt(r, i).rows[id] ==>
              && r.events[i].Store? && r.events[i].event.Revoke? && r.events[i].event.id == id
              && DbAt(r, i).rows[id].deleted.None? && DbAt(r, i).rows[id].expires > r.events[i].event.txStart
    ensures r.events[i].Store? && r.events[i].event.Revoke? && r.events[i].event.id == id ==>
              var e := r.events[i].event;
              DbAt(r, i + 1).rows[id] ==
                DbAt(r, i).rows[id].(deleted := Some(RoundToSecond(e.now)), comment := Some(e.comment))
  {
    assert IsStep(p, r, i);
    RunInv(p, r, i);
    if r.events[i].Store? && r.events[i].event.Commit? {
      assert JobOk(p, DbAt(r, i), JobsAt(r, i)[r.events[i].event.job]);
    }
  }

  /** The clock moves by ticks alone. */
  lemma OnlyTicksMoveTheClock(p: Params, r: Run, i: nat)
    requires IsRun(p, r) && i < |r.events|
    ensures DbAt(r, i + 1).clock ==
            if r.events[i].Store? && r.events[i].event.Tick? then r.events[i].event.to else DbAt(r, i).clock
  {
    assert IsStep(p, r, i);
  }

  // ---- The steps of a job, traced back ----

  /** A job in flight began, at the moment its view is frozen at, with every configured usage to do. */
  lemma {:induction false} BeginOrigin(p: Params, r: Run, i: nat, j: JobId) returns (b: nat)
    requires IsRun(p, r) && i < |r.states| && j in JobsAt(r, i)
    ensures b < i && Happens(r, b, Begin(j)) && InFlight(r, j, b + 1, i)
    ensures JobsAt(r, i)[j].start == DbAt(r, b).clock && j !in JobsAt(r, b) && |JobsAt(r, b)| < p.slots
  {
    assert i > 0 && IsStep(p, r, i - 1);
    if j in JobsAt(r, i - 1) {
      b := BeginOrigin(p, r, i - 1, j);
      InFlightOn(r, j, b + 1, i - 1);
    } else {
      b := i - 1;
    }
  }

  /** What a job holds of a usage it has read is the answer of its query. */
  lemma {:induction false} ReadOrigin(p: Params, r: Run, i: nat, j: JobId, u: Usage, keys: seq<Row>) returns (x: nat)
    requires IsRun(p, r) && i < |r.states| && j in JobsAt(r, i) && JobsAt(r, i)[j].phase == Fetched(u, keys)
    ensures x < i && Happens(r, x, Read(j, u, keys)) && InFlight(r, j, x, i) && u in JobsAt(r, x)[j].todo
    ensures JobsAt(r, x)[j].start == JobsAt(r, i)[j].start
    ensures IsSearch(DbAt(r, x).rows + JobsAt(r, x)[j].pending, u, JobsAt(r, x)[j].start, 100, keys)
  {
    assert i > 0 && IsStep(p, r, i - 1);
    if j in JobsAt(r, i - 1) && JobsAt(r, i - 1)[j] == JobsAt(r, i)[j] {
      x := ReadOrigin(p, r, i - 1, j, u, keys);
      InFlightOn(r, j, x, i - 1);
    } else {
      x := i - 1;
    }
  }

  /** A job generates only after its age test passed, on the clock of that moment and the list it read. */
  lemma {:induction false} GenerateOrigin(p: Params, r: Run, i: nat, j: JobId, u: Usage)
    returns (y: nat, keys: seq<Row>)
    requires IsRun(p, r) && i < |r.states| && j in JobsAt(r, i) && JobsAt(r, i)[j].phase == Generating(u)
    ensures y < i && Happens(r, y, Generate(j)) && InFlight(r, j, y, i) && u in p.config
    ensures JobsAt(r, y)[j].phase == Fetched(u, keys) && JobsAt(r, y)[j].start == JobsAt(r, i)[j].start
    ensures |keys| > 0 ==> Since(keys[0].created, DbAt(r, y).clock) >= p.config[u].key.rotation
  {
    assert i > 0 && IsStep(p, r, i - 1);
    if j in JobsAt(r, i - 1) && JobsAt(r, i - 1)[j] == JobsAt(r, i)[j] {
      y, keys := GenerateOrigin(p, r, i - 1, j, u);
      InFlightOn(r, j, y, i - 1);
    } else {
      y, keys := i - 1, JobsAt(r, i - 1)[j].phase.keys;
    }
  }

  /** The row an insert at this event writes. */
  ghost predicate InsertedAs(p: Params, r: Run, z: nat, j: JobId, u: Usage, row: Row) {
    && z < |r.events| && z < |r.states| && u in p.config && row.usage == u && row.deleted.None? && row.comment.None?
    && r.events[z] == Store(Insert(j, row.id, row.priv, row.pub))
    && row.created == RoundToSecond(DbAt(r, z).clock)
    && row.expires == RoundToSecond(DbAt(r, z).clock + p.config[u].key.ttl)
  }

  /** Every row a job holds was inserted by it, for a usage it was generating a key for. */
  lemma {:induction false} InsertOrigin(p: Params, r: Run, i: nat, j: JobId, id: KeyId) returns (z: nat)
    requires IsRun(p, r) && i < |r.states| && j in JobsAt(r, i) && id in JobsAt(r, i)[j].pending
    ensures z < i && InFlight(r, j, z, i) && JobsAt(r, z)[j].start == JobsAt(r, i)[j].start
    ensures var row := JobsAt(r, i)[j].pending[id];
            row.id == id && InsertedAs(p, r, z, j, row.usage, row) && JobsAt(r, z)[j].phase == Generating(row.usage)
    ensures id !in DbAt(r, z).rows
  {
    assert i > 0 && IsStep(p, r, i - 1);
    if j in JobsAt(r, i - 1) && id in JobsAt(r, i - 1)[j].pending
       && JobsAt(r, i - 1)[j].pending[id] == JobsAt(r, i)[j].pending[id] {
      z := InsertOrigin(p, r, i - 1, j, id);
      InFlightOn(r, j, z, i - 1);
    } else {
      z := i - 1;
    }
  }

  /** A row in the table was committed once, and was not there before. */
  lemma {:induction false} CommitOrigin(p: Params, r: Run, i: nat, id: KeyId) returns (w: nat, j: JobId)
    requires IsRun(p, r) && i < |r.states| && id in DbAt(r, i).rows
    ensures w < i && Happens(r, w, Commit(j)) && j in JobsAt(r, w) && id in JobsAt(r, w)[j].pending
    ensures id !in DbAt(r, w).rows
  {
    assert i > 0 && IsStep(p, r, i - 1);
    if id in DbAt(r, i - 1).rows {
      w, j := CommitOrigin(p, r, i - 1, id);
    } else {
      j := NewRowsAreCommitted(p, r, i - 1, id);
      w := i - 1;
    }
  }

  /** The life of a key before the table: begin, read, age test, insert and commit of one job. */
  datatype Origin = Origin(job: JobId, begin: nat, read: nat, generate: nat, insert: nat, commit: nat, keys: seq<Row>)

  /**
   The provenance of a key: a job begun at `begin` read the usage as of that moment, found its newest
   key an interval old or none at all at `generate`, inserted this row, stamped with the clock of
   `insert`, and committed. The job is one and the same throughout.
   */
  ghost predicate MadeBy(p: Params, r: Run, id: KeyId, row: Row, o: Origin) {
    && o.begin < o.read < o.generate < o.insert < o.commit < |r.events| && |r.states| == |r.events| + 1
    && Happens(r, o.begin, Begin(o.job)) && Happens(r, o.read, Read(o.job, row.usage, o.keys))
    && Happens(r, o.generate, Generate(o.job)) && Happens(r, o.commit, Commit(o.job))
    && InFlight(r, o.job, o.begin + 1, o.commit)
    && IsSearch(DbAt(r, o.read).rows + JobsAt(r, o.read)[o.job].pending, row.usage, DbAt(r, o.begin).clock, 100, o.keys)
    && row.usage in p.config
    && (|o.keys| > 0 ==> Since(o.keys[0].created, DbAt(r, o.generate).clock) >= p.config[row.usage].key.rotation)
    && row.id == id && InsertedAs(p, r, o.insert, o.job, row.usage, row)
  }

  lemma Traced(p: Params, r: Run, w: nat, j: JobId, id: KeyId) returns (o: Origin)
    requires IsRun(p, r) && Happens(r, w, Commit(j)) && j in JobsAt(r, w) && id in JobsAt(r, w)[j].pending
    ensures MadeBy(p, r, id, JobsAt(r, w)[j].pending[id], o) && o.commit == w && o.job == j
  {
    var u := JobsAt(r, w)[j].pending[id].usage;
    var z := InsertOrigin(p, r, w, j, id);
    var y, keys := GenerateOrigin(p, r, z, j, u);
    var x := ReadOrigin(p, r, y, j, u, keys);
    var b := BeginOrigin(p, r, x, j);
    InFlightJoins(r, j, b + 1, x, y);
    InFlightJoins(r, j, b + 1, y, z);
    InFlightJoins(r, j, b + 1, z, w);
    o := Origin(j, b, x, y, z, w, keys);
  }

  /** Every key in any table of any run has such a provenance; only a revocation tells it from the row inserted. */
  lemma EveryKeyHasAnOrigin(p: Params, r: Run, i: nat, id: KeyId) returns (row: Row, o: Origin)
    requires IsRun(p, r) && NonNegative(p.config) && i < |r.states| && id in DbAt(r, i).rows
    ensures MadeBy(p, r, id, row, o) && o.commit < i && SameKey(row, DbAt(r, i).rows[id])
  {
    var w, j := CommitOrigin(p, r, i, id);
    row := JobsAt(r, w)[j].pending[id];
    o := Traced(p, r, w, j, id);
    CommitTakesAll(p, r, w, j);
    History(p, r, w + 1, i);
  }

  // ---- All or nothing ----

  ghost predicate Inserts(r: Run, z: nat, j: JobId, id: KeyId) {
    && z < |r.events| && r.events[z].Store? && r.events[z].event.Insert?
    && r.events[z].event.job == j && r.events[z].event.id == id
  }

  /** An id that a job in flight holds is in no table, and is inserted by nobody else. */
  lemma {:induction false} HeldIsOut(p: Params, r: Run, z: nat, i: nat, j: JobId, id: KeyId)
    requires IsRun(p, r) && Inserts(r, z, j, id) && z < i && InFlight(r, j, z, i)
    ensures id in JobsAt(r, i)[j].pending && id !in DbAt(r, i).rows
    ensures i < |r.events| ==> forall j' :: !Inserts(r, i, j', id)
    decreases i
  {
    assert IsStep(p, r, i - 1);
    if i - 1 > z {
      HeldIsOut(p, r, z, i - 1, j, id);
      if id in DbAt(r, i).rows {
        var j' := NewRowsAreCommitted(p, r, i - 1, id);
        HeldByOne(p, r, i - 1, j, j', id);
      }
    }
    if i < |r.events| {
      assert IsStep(p, r, i);
    }
  }

  /** No two jobs hold the same id. */
  lemma {:induction false} HeldByOne(p: Params, r: Run, i: nat, j: JobId, j': JobId, id: KeyId)
    requires IsRun(p, r) && i < |r.states| && j in JobsAt(r, i) && j' in JobsAt(r, i)
    requires id in JobsAt(r, i)[j].pending && id in JobsAt(r, i)[j'].pending
    ensures j == j'
  {
    assert i > 0 && IsStep(p, r, i - 1);
    if j in JobsAt(r, i - 1) && j' in JobsAt(r, i - 1) && id in JobsAt(r, i - 1)[j].pending
       && id in JobsAt(r, i - 1)[j'].pending {
      HeldByOne(p, r, i - 1, j, j', id);
    }
  }

  lemma InFlightPart(r: Run, j: JobId, from: nat, mid: nat, to: nat)
    requires InFlight(r, j, from, to) && from <= mid <= to
    ensures InFlight(r, j, from, mid) && InFlight(r, j, mid, to)
  {
  }

  /** While a key is held, and once it is committed, nobody inserts its id again. */
  lemma InsertedLast(p: Params, r: Run, o: Origin, id: KeyId, row: Row, z: nat, j: JobId)
    requires IsRun(p, r) && NonNegative(p.config) && MadeBy(p, r, id, row, o) && Inserts(r, z, j, id)
    ensures z <= o.insert
  {
    assert IsStep(p, r, z);
    InFlightPart(r, o.job, o.begin + 1, o.insert, o.commit);
    if o.insert < z <= o.commit {
      InFlightPart(r, o.job, o.insert, z, o.commit);
      HeldIsOut(p, r, o.insert, z, o.job, id);
    } else if o.commit < z {
      HeldIsOut(p, r, o.insert, o.commit, o.job, id);
      CommitTakesAll(p, r, o.commit, o.job);
      History(p, r, o.commit + 1, z);
    }
  }

  /** What ended a job did not end it in the middle of a flight. */
  lemma NotEndedWithin(r: Run, j: JobId, from: nat, to: nat, end: nat)
    requires InFlight(r, j, from, to) && end < |r.states| && j !in JobsAt(r, end)
    ensures end < from || to < end
  {
  }

  /** A flight that ends in a rollback is not part of one that ends in a commit. */
  lemma OneEnd(p: Params, r: Run, o: Origin, id: KeyId, row: Row, z: nat, x: nat)
    requires IsRun(p, r) && MadeBy(p, r, id, row, o) && Happens(r, x, Rollback(o.job)) && z <= x
    requires InFlight(r, o.job, z, x)
    ensures o.insert != z
  {
    RollbackLeavesNothing(p, r, x, o.job);
    CommitTakesAll(p, r, o.commit, o.job);
    NotEndedWithin(r, o.job, z, x, o.commit + 1);
    NotEndedWithin(r, o.job, o.begin + 1, o.commit, x + 1);
  }

  /** A key in the table whose id a rolled back job had inserted was inserted after the rollback. */
  lemma InsertedAnew(p: Params, r: Run, o: Origin, id: KeyId, row: Row, z: nat, x: nat, j: JobId)
    requires IsRun(p, r) && NonNegative(p.config) && MadeBy(p, r, id, row, o)
    requires Inserts(r, z, j, id) && z < x && InFlight(r, j, z, x) && Happens(r, x, Rollback(j))
    ensures x < o.insert && Inserts(r, o.insert, o.job, id)
  {
    assert Inserts(r, o.insert, o.job, id);
    InsertedLast(p, r, o, id, row, z, j);
    if o.job == j {
      OneEnd(p, r, o, id, row, z, x);
    }
    if z < o.insert <= x {
      InFlightPart(r, j, z, o.insert, x);
      HeldIsOut(p, r, z, o.insert, j, id);
    }
  }

  /**
   Rotation is all or nothing in every run. What a job inserted before it is rolled back, at event
   `x`, is in no table, before or after, unless someone inserts that id anew after the rollback.
   */
  lemma RolledBackRowsStayOut(p: Params, r: Run, z: nat, x: nat, j: JobId, id: KeyId, i: nat)
    requires IsRun(p, r) && NonNegative(p.config) && i < |r.states|
    requires Inserts(r, z, j, id) && z < x && InFlight(r, j, z, x) && Happens(r, x, Rollback(j))
    requires forall y: nat, j' :: x < y < i ==> !Inserts(r, y, j', id)
    ensures id !in DbAt(r, i).rows
  {
    if id in DbAt(r, i).rows {
      var row, o := EveryKeyHasAnOrigin(p, r, i, id);
      InsertedAnew(p, r, o, id, row, z, x, j);
    }
  }
}
