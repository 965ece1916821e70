/**
 * The transactional table writers of the bulk loader (`writeMovies`,
 * `writeActors`, `writeGenres`, `writeRoles`) and the fail-fast sequence in
 * which the load runs them.
 *
 * The database engine is abstract: whether it accepts an insert, and whether
 * it accepts a commit, are functions given when the store is opened. Each
 * writer owns one transaction; what the transaction has inserted so far is a
 * pending buffer that reaches the committed table only on commit.
 */
module Loader {
  import opened Wrappers
  import opened Tables

  /** Committed contents of the four tables, each in insertion order. */
  datatype Db = Db(movies: seq<Record>, actors: seq<Record>, genres: seq<Record>, roles: seq<Record>)
  {
    function Get(t: Table): seq<Record>
    {
      match t
      case Movies => movies
      case Actors => actors
      case Genres => genres
      case Roles => roles
    }

    /** The same tables with `t` replaced by `rs`. */
    function Set(t: Table, rs: seq<Record>): (db: Db)
      ensures db.Get(t) == rs
      ensures forall u :: u != t ==> db.Get(u) == Get(u)
    {
      match t
      case Movies => this.(movies := rs)
      case Actors => this.(actors := rs)
      case Genres => this.(genres := rs)
      case Roles => this.(roles := rs)
    }
  }

  /** The four tables as the schema script leaves them: empty. */
  const EmptyDb: Db := Db([], [], [], [])

  /**
   * `accepts(t, visible, r)`: whether the engine accepts inserting `r` into `t`
   * when the transaction sees `visible` in that table (say, a primary key
   * already present makes it refuse).
   */
  type InsertPolicy = (Table, seq<Record>, Record) -> bool

  /** `commits(t, committed, pending)`: whether the engine commits `pending`. */
  type CommitPolicy = (Table, seq<Record>, seq<Record>) -> bool

  /**
   * Why a writer returned an error. `line` is the 1-based line of the file,
   * the header being line 1, so data row `i` of the table is line `i + 1`.
   * `table` stands for the context `main` wraps the error in ("failed
   * inserting movies", ...): a refused commit's own error does not name it.
   */
  datatype LoadError = InsertFailed(table: Table, line: nat) | CommitFailed(table: Table)

  /** The error together with the committed state after a writer or a run. */
  datatype Outcome = Outcome(err: Option<LoadError>, db: Db)

  /** The four tables as read from their files, headers included. */
  datatype Inputs = Inputs(movies: seq<seq<string>>, actors: seq<seq<string>>,
                           genres: seq<seq<string>>, roles: seq<seq<string>>)
  {
    function Get(t: Table): seq<seq<string>>
    {
      match t
      case Movies => movies
      case Actors => actors
      case Genres => genres
      case Roles => roles
    }

    predicate Shaped()
    {
      forall t: Table :: Tables.Shaped(t, Get(t))
    }
  }

  /** The tuples a writer inserts for table `t`, one per data row. */
  function TableRecords(t: Table, data: seq<seq<string>>): (rs: seq<Record>)
    requires Shaped(t, data)
    ensures |rs| == if data == [] then 0 else |data| - 1
    ensures forall k :: 0 <= k < |rs| ==> rs[k] == ToRecord(t, data[k + 1])
  {
    DataRowsShaped(t, data);
    Records(t, DataRows(data))
  }

  /** The insert of `recs[k]`, made after those before it on top of `base`, is accepted. */
  predicate AcceptedAt(accepts: InsertPolicy, t: Table, base: seq<Record>, recs: seq<Record>, k: nat)
    requires k < |recs|
  {
    accepts(t, base + recs[..k], recs[k])
  }

  /** Each insert of `recs`, made in order on top of `base`, is accepted. */
  predicate AllAccepted(accepts: InsertPolicy, t: Table, base: seq<Record>, recs: seq<Record>)
  {
    forall k :: 0 <= k < |recs| ==> AcceptedAt(accepts, t, base, recs, k)
  }

  /** Acceptance of an insert depends only on what comes before it. */
  lemma AcceptedAtPrefix(accepts: InsertPolicy, t: Table, base: seq<Record>, recs: seq<Record>, m: nat, k: nat)
    requires k < m <= |recs|
    ensures AcceptedAt(accepts, t, base, recs[..m], k) == AcceptedAt(accepts, t, base, recs, k)
  {
    assert recs[..m][..k] == recs[..k];
  }

  /** The index of the first insert of `recs` the engine refuses, if any. */
  function FirstRejected(accepts: InsertPolicy, t: Table, base: seq<Record>, recs: seq<Record>): (k: Option<nat>)
    ensures k.None? <==> AllAccepted(accepts, t, base, recs)
    ensures k.Some? ==> k.value < |recs| && AllAccepted(accepts, t, base, recs[..k.value])
                        && !AcceptedAt(accepts, t, base, recs, k.value)
    decreases |recs|
  {
    if recs == [] then None
    else if !accepts(t, base, recs[0]) then
      assert !AcceptedAt(accepts, t, base, recs, 0) by {
        assert base + recs[..0] == base;
      }
      Some(0)
    else
      var rest := FirstRejected(accepts, t, base + [recs[0]], recs[1..]);
      assert AcceptedAt(accepts, t, base, recs, 0) by {
        assert base + recs[..0] == base;
      }
      forall i | 1 <= i < |recs|
        ensures AcceptedAt(accepts, t, base, recs, i) == AcceptedAt(accepts, t, base + [recs[0]], recs[1..], i - 1)
      {
        assert base + [recs[0]] + recs[1..][..i - 1] == base + recs[..i] by {
          assert [recs[0]] + recs[1..][..i - 1] == recs[..i];
        }
      }
      match rest
      case None => None
      case Some(j) =>
        var done := recs[..j + 1];
        assert AllAccepted(accepts, t, base, done) by {
          forall i | 0 <= i < j + 1
            ensures AcceptedAt(accepts, t, base, done, i)
          {
            AcceptedAtPrefix(accepts, t, base, recs, j + 1, i);
            if i > 0 {
              AcceptedAtPrefix(accepts, t, base + [recs[0]], recs[1..], j, i - 1);
            }
          }
        }
        assert !AcceptedAt(accepts, t, base, recs, j + 1);
        Some(j + 1)
  }

  /** One more accepted insert extends an accepted run by the next tuple. */
  lemma AcceptedExtend(accepts: InsertPolicy, t: Table, base: seq<Record>, recs: seq<Record>, n: nat)
    requires n < |recs| && AllAccepted(accepts, t, base, recs[..n])
    requires accepts(t, base + recs[..n], recs[n])
    ensures recs[..n] + [recs[n]] == recs[..n + 1]
    ensures AllAccepted(accepts, t, base, recs[..n + 1])
  {
    assert recs[..n] + [recs[n]] == recs[..n + 1];
    var next := recs[..n + 1];
    forall k | 0 <= k < n + 1
      ensures AcceptedAt(accepts, t, base, next, k)
    {
      AcceptedAtPrefix(accepts, t, base, recs, n + 1, k);
      if k < n {
        AcceptedAtPrefix(accepts, t, base, recs, n, k);
        assert AcceptedAt(accepts, t, base, recs[..n], k);
      }
    }
  }

  /** An index whose prefix is accepted and which is refused is the first refusal. */
  lemma FirstRejectedIsFirst(accepts: InsertPolicy, t: Table, base: seq<Record>, recs: seq<Record>, k: nat)
    requires k < |recs| && AllAccepted(accepts, t, base, recs[..k])
    requires !AcceptedAt(accepts, t, base, recs, k)
    ensures FirstRejected(accepts, t, base, recs) == Some(k)
  {
    var r := FirstRejected(accepts, t, base, recs);
    assert r.Some?;
    var j := r.value;
    if j < k {
      assert AcceptedAt(accepts, t, base, recs[..k], j);
      AcceptedAtPrefix(accepts, t, base, recs, k, j);
      assert false;
    }
    if k < j {
      assert AcceptedAt(accepts, t, base, recs[..j], k);
      AcceptedAtPrefix(accepts, t, base, recs, j, k);
      assert false;
    }
  }

  /**
   * What one writer does: insert the tuple of every data row in file order,
   * stop at the first refused insert and report its file line, commit only
   * when every insert went through.
   */
  function WriteOutcome(accepts: InsertPolicy, commits: CommitPolicy, db: Db, t: Table, data: seq<seq<string>>): Outcome
    requires Shaped(t, data)
  {
    var recs := TableRecords(t, data);
    match FirstRejected(accepts, t, db.Get(t), recs)
    case Some(k) => Outcome(Some(InsertFailed(t, k + 2)), db)
    case None =>
      if commits(t, db.Get(t), recs) then Outcome(None, db.Set(t, db.Get(t) + recs))
      else Outcome(Some(CommitFailed(t)), db)
  }

  /** The outcome of a writer whose insert of data row `k` (0-based) is the first refused. */
  lemma WriteOutcomeRejected(accepts: InsertPolicy, commits: CommitPolicy, db: Db, t: Table, data: seq<seq<string>>, k: nat)
    requires Shaped(t, data)
    requires k < |TableRecords(t, data)|
    requires AllAccepted(accepts, t, db.Get(t), TableRecords(t, data)[..k])
    requires !accepts(t, db.Get(t) + TableRecords(t, data)[..k], TableRecords(t, data)[k])
    ensures WriteOutcome(accepts, commits, db, t, data) == Outcome(Some(InsertFailed(t, k + 2)), db)
  {
    FirstRejectedIsFirst(accepts, t, db.Get(t), TableRecords(t, data), k);
  }

  /** The outcome of a writer whose every insert is accepted: it is the commit's. */
  lemma WriteOutcomeAccepted(accepts: InsertPolicy, commits: CommitPolicy, db: Db, t: Table, data: seq<seq<string>>)
    requires Shaped(t, data)
    requires AllAccepted(accepts, t, db.Get(t), TableRecords(t, data))
    ensures WriteOutcome(accepts, commits, db, t, data) ==
      if commits(t, db.Get(t), TableRecords(t, data)) then Outcome(None, db.Set(t, db.Get(t) + TableRecords(t, data)))
      else Outcome(Some(CommitFailed(t)), db)
  {
  }

  /**
   * A writer that succeeds appends exactly one tuple per data row to its own
   * table, and it succeeds exactly when every insert and the commit are accepted.
   */
  lemma WriteSuccess(accepts: InsertPolicy, commits: CommitPolicy, db: Db, t: Table, data: seq<seq<string>>)
    requires Shaped(t, data)
    ensures var o := WriteOutcome(accepts, commits, db, t, data);
      && (o.err.None? <==> AllAccepted(accepts, t, db.Get(t), TableRecords(t, data))
                           && commits(t, db.Get(t), TableRecords(t, data)))
      && (o.err.None? ==> o.db == db.Set(t, db.Get(t) + TableRecords(t, data)))
      && (o.err.None? ==> |o.db.Get(t)| == |db.Get(t)| + (if data == [] then 0 else |data| - 1))
  {
  }

  /** A writer changes no table but its own, and changes nothing when it fails. */
  lemma WriteFrame(accepts: InsertPolicy, commits: CommitPolicy, db: Db, t: Table, data: seq<seq<string>>)
    requires Shaped(t, data)
    ensures var o := WriteOutcome(accepts, commits, db, t, data);
      && (forall u :: u != t ==> o.db.Get(u) == db.Get(u))
      && (o.err.Some? ==> o.db == db && o.err.value.table == t)
  {
  }

  /**
   * A writer whose insert at file line `line` is refused reports that line:
   * it is a data line, its tuple is the refused one, every earlier data row was
   * accepted, and nothing is committed.
   */
  lemma WriteInsertFailure(accepts: InsertPolicy, commits: CommitPolicy, db: Db, t: Table, data: seq<seq<string>>)
    requires Shaped(t, data)
    ensures var o := WriteOutcome(accepts, commits, db, t, data);
      o.err.Some? && o.err.value.InsertFailed? ==>
        var line := o.err.value.line;
        var recs := TableRecords(t, data);
        && 2 <= line <= |data|
        && recs[line - 2] == ToRecord(t, data[line - 1])
        && AllAccepted(accepts, t, db.Get(t), recs[..line - 2])
        && !AcceptedAt(accepts, t, db.Get(t), recs, line - 2)
        && o.db == db
  {
    var o := WriteOutcome(accepts, commits, db, t, data);
    var recs := TableRecords(t, data);
    var k := FirstRejected(accepts, t, db.Get(t), recs);
    if o.err.Some? && o.err.value.InsertFailed? {
      assert k.Some? && o == Outcome(Some(InsertFailed(t, k.value + 2)), db);
      var line := o.err.value.line;
      assert line - 2 == k.value && line - 1 == k.value + 1;
      assert recs[k.value] == ToRecord(t, data[k.value + 1]);
    }
  }

  /** A refused commit comes after every insert was accepted and leaves the tables as they were. */
  lemma WriteCommitFailure(accepts: InsertPolicy, commits: CommitPolicy, db: Db, t: Table, data: seq<seq<string>>)
    requires Shaped(t, data)
    ensures var o := WriteOutcome(accepts, commits, db, t, data);
      o.err.Some? && o.err.value.CommitFailed? ==>
        && AllAccepted(accepts, t, db.Get(t), TableRecords(t, data))
        && !commits(t, db.Get(t), TableRecords(t, data))
        && o.db == db
  {
  }

  /** An empty table and a header-only table insert nothing and go straight to the commit. */
  lemma WriteNoDataRows(accepts: InsertPolicy, commits: CommitPolicy, db: Db, t: Table, data: seq<seq<string>>)
    requires |data| <= 1
    ensures WriteOutcome(accepts, commits, db, t, data) ==
      if commits(t, db.Get(t), []) then Outcome(None, db) else Outcome(Some(CommitFailed(t)), db)
  {
    assert TableRecords(t, data) == [];
    assert db.Get(t) + [] == db.Get(t);
    assert db.Set(t, db.Get(t)) == db;
  }

  /** The load: movies, actors, genres, roles, each writer run only if all before it succeeded. */
  function LoadOutcome(accepts: InsertPolicy, commits: CommitPolicy, db: Db, input: Inputs): Outcome
    requires input.Shaped()
  {
    var o1 := WriteOutcome(accepts, commits, db, Movies, input.Get(Movies));
    if o1.err.Some? then o1 else
    var o2 := WriteOutcome(accepts, commits, o1.db, Actors, input.Get(Actors));
    if o2.err.Some? then o2 else
    var o3 := WriteOutcome(accepts, commits, o2.db, Genres, input.Get(Genres));
    if o3.err.Some? then o3 else
    WriteOutcome(accepts, commits, o3.db, Roles, input.Get(Roles))
  }

  /**
   * Table `u` once the writers in positions before `done` have succeeded and
   * no other writer has committed anything.
   */
  function Loaded(db: Db, input: Inputs, u: Table, done: nat): seq<Record>
    requires input.Shaped()
  {
    if Order(u) < done then db.Get(u) + TableRecords(u, input.Get(u)) else db.Get(u)
  }

  /** The four tables once the writers in positions before `done` have succeeded. */
  function LoadedDb(db: Db, input: Inputs, done: nat): Db
    requires input.Shaped()
  {
    Db(Loaded(db, input, Movies, done), Loaded(db, input, Actors, done),
       Loaded(db, input, Genres, done), Loaded(db, input, Roles, done))
  }

  /** Before any writer has run, the tables are as they were. */
  lemma LoadedNothing(db: Db, input: Inputs)
    requires input.Shaped()
    ensures LoadedDb(db, input, 0) == db
  {
    assert db == Db(db.movies, db.actors, db.genres, db.roles);
  }

  /** Running the writer of table `t` after all writers before it succeeded. */
  lemma WriteStep(accepts: InsertPolicy, commits: CommitPolicy, db0: Db, input: Inputs, t: Table)
    requires input.Shaped()
    ensures var o := WriteOutcome(accepts, commits, LoadedDb(db0, input, Order(t)), t, input.Get(t));
      && o.db == LoadedDb(db0, input, if o.err.None? then Order(t) + 1 else Order(t))
      && (o.err.Some? ==> o.err.value.table == t)
  {
    var db := LoadedDb(db0, input, Order(t));
    var o := WriteOutcome(accepts, commits, db, t, input.Get(t));
    WriteSuccess(accepts, commits, db, t, input.Get(t));
    WriteFrame(accepts, commits, db, t, input.Get(t));
    var d := LoadedDb(db0, input, if o.err.None? then Order(t) + 1 else Order(t));
    assert o.db.Get(Movies) == d.Get(Movies);
    assert o.db.Get(Actors) == d.Get(Actors);
    assert o.db.Get(Genres) == d.Get(Genres);
    assert o.db.Get(Roles) == d.Get(Roles);
  }

  /**
   * A failed load names the table that failed; every table before it was
   * committed in full, and that table and every later one were left as they
   * were. A load that succeeds appends, to each of the four tables, one tuple
   * per data row of its file.
   */
  lemma {:induction false} LoadEffect(accepts: InsertPolicy, commits: CommitPolicy, db: Db, input: Inputs)
    requires input.Shaped()
    ensures var o := LoadOutcome(accepts, commits, db, input);
      o.db == LoadedDb(db, input, if o.err.Some? then Order(o.err.value.table) else 4)
  {
    var o := LoadOutcome(accepts, commits, db, input);
    LoadedNothing(db, input);
    WriteStep(accepts, commits, db, input, Movies);
    var o1 := WriteOutcome(accepts, commits, db, Movies, input.Get(Movies));
    if o1.err.Some? {
      assert o == o1;
      return;
    }
    assert o1.db == LoadedDb(db, input, Order(Actors));
    WriteStep(accepts, commits, db, input, Actors);
    var o2 := WriteOutcome(accepts, commits, o1.db, Actors, input.Get(Actors));
    if o2.err.Some? {
      assert o == o2;
      return;
    }
    assert o2.db == LoadedDb(db, input, Order(Genres));
    WriteStep(accepts, commits, db, input, Genres);
    var o3 := WriteOutcome(accepts, commits, o2.db, Genres, input.Get(Genres));
    if o3.err.Some? {
      assert o == o3;
      return;
    }
    assert o3.db == LoadedDb(db, input, Order(Roles));
    WriteStep(accepts, commits, db, input, Roles);
    assert o == WriteOutcome(accepts, commits, o3.db, Roles, input.Get(Roles));
  }

  /**
   * When every writer succeeds, the load's outcome is the state the last one
   * committed, with no error.
   */
  lemma LoadAllSucceed(accepts: InsertPolicy, commits: CommitPolicy, db: Db, input: Inputs,
                       d1: Db, d2: Db, d3: Db, d4: Db)
    requires input.Shaped()
    requires WriteOutcome(accepts, commits, db, Movies, input.Get(Movies)) == Outcome(None, d1)
    requires WriteOutcome(accepts, commits, d1, Actors, input.Get(Actors)) == Outcome(None, d2)
    requires WriteOutcome(accepts, commits, d2, Genres, input.Get(Genres)) == Outcome(None, d3)
    requires WriteOutcome(accepts, commits, d3, Roles, input.Get(Roles)) == Outcome(None, d4)
    ensures LoadOutcome(accepts, commits, db, input) == Outcome(None, d4)
  {
  }

  /** The index in the file's rows of the data row with tuple index `k`. */
  function RowOf(k: Option<nat>): Option<nat>
  {
    if k.Some? then Some(k.value + 1) else None
  }

  /**
   * The tuples a transaction holds once its inserts stop at the first refused
   * one: the longest prefix of `recs` whose inserts are all accepted.
   */
  function Inserted(accepts: InsertPolicy, t: Table, base: seq<Record>, recs: seq<Record>): (p: seq<Record>)
    ensures |p| <= |recs| && p == recs[..|p|]
    ensures AllAccepted(accepts, t, base, p)
    ensures |p| < |recs| ==> !AcceptedAt(accepts, t, base, recs, |p|)
  {
    var k := FirstRejected(accepts, t, base, recs);
    if k.Some? then recs[..k.value] else recs
  }

  /** A transaction whose insert of tuple `k` is the first refused holds the tuples before it. */
  lemma StopsAt(accepts: InsertPolicy, t: Table, base: seq<Record>, recs: seq<Record>, k: nat)
    requires k < |recs| && AllAccepted(accepts, t, base, recs[..k])
    requires !AcceptedAt(accepts, t, base, recs, k)
    ensures RowOf(FirstRejected(accepts, t, base, recs)) == Some(k + 1)
    ensures Inserted(accepts, t, base, recs) == recs[..k]
  {
    FirstRejectedIsFirst(accepts, t, base, recs, k);
  }

  /** A transaction whose every insert is accepted holds all the tuples. */
  lemma StopsNowhere(accepts: InsertPolicy, t: Table, base: seq<Record>, recs: seq<Record>)
    requires AllAccepted(accepts, t, base, recs)
    ensures RowOf(FirstRejected(accepts, t, base, recs)) == None
    ensures Inserted(accepts, t, base, recs) == recs
  {
  }

  /** A writer whose loop stops at 1-based data row `i` reports file line `i + 1` and commits nothing. */
  lemma InsertFailedOutcome(accepts: InsertPolicy, commits: CommitPolicy, db: Db, t: Table, data: seq<seq<string>>, i: nat)
    requires Shaped(t, data)
    requires RowOf(FirstRejected(accepts, t, db.Get(t), TableRecords(t, data))) == Some(i)
    ensures WriteOutcome(accepts, commits, db, t, data) == Outcome(Some(InsertFailed(t, i + 1)), db)
    ensures 2 <= i + 1 <= |data|
    ensures Inserted(accepts, t, db.Get(t), TableRecords(t, data)) == TableRecords(t, data)[..i - 1]
  {
  }

  /** A writer whose loop inserts every row leaves the outcome to the commit. */
  lemma AllInsertedOutcome(accepts: InsertPolicy, commits: CommitPolicy, db: Db, t: Table, data: seq<seq<string>>)
    requires Shaped(t, data)
    requires RowOf(FirstRejected(accepts, t, db.Get(t), TableRecords(t, data))).None?
    ensures Inserted(accepts, t, db.Get(t), TableRecords(t, data)) == TableRecords(t, data)
    ensures WriteOutcome(accepts, commits, db, t, data) ==
      if commits(t, db.Get(t), TableRecords(t, data)) then Outcome(None, db.Set(t, db.Get(t) + TableRecords(t, data)))
      else Outcome(Some(CommitFailed(t)), db)
  {
  }

  /**
   * The database connection together with its one open transaction. A new
   * store holds the four empty tables the schema script creates.
   */
  class Store {
    const accepts: InsertPolicy
    const commits: CommitPolicy
    var committed: Db
    /** The rows the open transaction has inserted, not yet visible outside it. */
    var pending: seq<Record>

    constructor (accepts: InsertPolicy, commits: CommitPolicy)
      ensures this.accepts == accepts && this.commits == commits
      ensures committed == EmptyDb && pending == []
    {
      this.accepts := accepts;
      this.commits := commits;
      committed := EmptyDb;
      pending := [];
    }

    /** `db.Begin()`: a fresh transaction; an abandoned one's rows are dropped. */
    method Begin()
      modifies this`pending
      ensures pending == []
    {
      pending := [];
    }

    /** `stmt.Exec(...)` inside the open transaction on table `t`. */
    method Insert(t: Table, r: Record) returns (ok: bool)
      modifies this`pending
      ensures ok == accepts(t, committed.Get(t) + old(pending), r)
      ensures pending == if ok then old(pending) + [r] else old(pending)
    {
      ok := accepts(t, committed.Get(t) + pending, r);
      if ok {
        pending := pending + [r];
      }
    }

    /** `tx.Commit()`: the pending rows are appended to `t`, or dropped if the commit fails. */
    method Commit(t: Table) returns (ok: bool)
      modifies this`committed, this`pending
      ensures ok == commits(t, old(committed).Get(t), old(pending))
      ensures committed == if ok then old(committed).Set(t, old(committed).Get(t) + old(pending)) else old(committed)
      ensures pending == []
    {
      ok := commits(t, committed.Get(t), pending);
      if ok {
        committed := committed.Set(t, committed.Get(t) + pending);
      }
      pending := [];
    }

    /**
     * The loop of a writer: skip the header, insert the tuple of each data row
     * in file order, and stop at the first refused insert, giving its index in
     * `data`.
     */
    method InsertRows(t: Table, data: seq<seq<string>>) returns (failed: Option<nat>)
      requires Shaped(t, data) && pending == []
      modifies this`pending
      ensures failed == RowOf(FirstRejected(accepts, t, committed.Get(t), TableRecords(t, data)))
      ensures pending == Inserted(accepts, t, committed.Get(t), TableRecords(t, data))
    {
      ghost var recs := TableRecords(t, data);
      ghost var base := committed.Get(t);
      for i := 0 to |data|
        invariant committed == old(committed)
        invariant pending == recs[..if i == 0 then 0 else i - 1]
        invariant AllAccepted(accepts, t, base, pending)
      {
        if i > 0 { // row 0 is the header
          var row := data[i];
          ghost var before := pending;
          var ok := Insert(t, ToRecord(t, row));
          assert ToRecord(t, row) == recs[i - 1];
          if !ok {
            assert !AcceptedAt(accepts, t, base, recs, i - 1);
            StopsAt(accepts, t, base, recs, i - 1);
            assert committed.Get(t) == base;
            failed := Some(i);
            return;
          }
          AcceptedExtend(accepts, t, base, recs, i - 1);
        }
      }
      assert pending == recs;
      StopsNowhere(accepts, t, base, recs);
      assert committed.Get(t) == base;
      failed := None;
    }

    /**
     * One of the four writers: in a single transaction insert every data row,
     * return the file line (`i + 1`) of the first failed insert, commit at the
     * end.
     */
    method Write(t: Table, data: seq<seq<string>>) returns (err: Option<LoadError>)
      requires Shaped(t, data)
      modifies this`committed, this`pending
      ensures Outcome(err, committed) == WriteOutcome(accepts, commits, old(committed), t, data)
      ensures err.Some? ==> err.value.table == t
      ensures err.Some? && err.value.InsertFailed? ==>
        2 <= err.value.line <= |data| && pending == TableRecords(t, data)[..err.value.line - 2]
      ensures err.None? || err.value.CommitFailed? ==> pending == []
    {
      Begin();
      var failed := InsertRows(t, data);
      if failed.Some? {
        InsertFailedOutcome(accepts, commits, committed, t, data, failed.value);
        return Some(InsertFailed(t, failed.value + 1));
      }
      AllInsertedOutcome(accepts, commits, committed, t, data);
      var ok := Commit(t);
      err := if ok then None else Some(CommitFailed(t));
    }

    /** The sequential writes of the load: the first failure ends the run. */
    method Load(input: Inputs) returns (err: Option<LoadError>)
      requires input.Shaped()
      modifies this`committed, this`pending
      ensures Outcome(err, committed) == LoadOutcome(accepts, commits, old(committed), input)
      ensures err.Some? && err.value.InsertFailed? ==>
        2 <= err.value.line <= |input.Get(err.value.table)| &&
        pending == TableRecords(err.value.table, input.Get(err.value.table))[..err.value.line - 2]
      ensures err.None? || err.value.CommitFailed? ==> pending == []
    {
      err := Write(Movies, input.Get(Movies));
      if err.Some? {
        return;
      }
      err := Write(Actors, input.Get(Actors));
      if err.Some? {
        return;
      }
      err := Write(Genres, input.Get(Genres));
      if err.Some? {
        return;
      }
      err := Write(Roles, input.Get(Roles));
    }
  }
}
