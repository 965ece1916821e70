/**
 * Whole loads on small inputs: one header and one data row per file, into an
 * engine that accepts every insert and every commit.
 */
module Scenarios {
  import opened Wrappers
  import opened Tables
  import opened Loader

  /** An engine that accepts every insert. */
  function AcceptAll(t: Table, visible: seq<Record>, r: Record): bool { true }

  /** An engine that accepts every commit. */
  function CommitAll(t: Table, committed: seq<Record>, pending: seq<Record>): bool { true }

  /** A header and one data row give one tuple. */
  lemma OneDataRow(t: Table, header: seq<string>, row: seq<string>)
    requires |row| >= Arity(t)
    ensures Shaped(t, [header, row])
    ensures TableRecords(t, [header, row]) == [ToRecord(t, row)]
  {
    assert DataRows([header, row]) == [row];
  }

  /** A one-row table written into an engine that accepts everything. */
  lemma OneRowAccepted(db: Db, t: Table, header: seq<string>, row: seq<string>)
    requires |row| >= Arity(t)
    ensures Shaped(t, [header, row])
    ensures WriteOutcome(AcceptAll, CommitAll, db, t, [header, row]) ==
      Outcome(None, Append(db, t, ToRecord(t, row)))
  {
    OneDataRow(t, header, row);
    WriteOutcomeAccepted(AcceptAll, CommitAll, db, t, [header, row]);
  }

  /** Four files, each its own header followed by one data row. */
  function OneRowInputs(hm: seq<string>, movie: seq<string>, ha: seq<string>, actor: seq<string>,
                        hg: seq<string>, genre: seq<string>, hr: seq<string>, role: seq<string>): Inputs
  {
    Inputs([hm, movie], [ha, actor], [hg, genre], [hr, role])
  }

  lemma OneRowInputsShaped(hm: seq<string>, movie: seq<string>, ha: seq<string>, actor: seq<string>,
                           hg: seq<string>, genre: seq<string>, hr: seq<string>, role: seq<string>)
    requires |movie| >= 4 && |actor| >= 4 && |genre| >= 2 && |role| >= 3
    ensures OneRowInputs(hm, movie, ha, actor, hg, genre, hr, role).Shaped()
  {
    OneDataRow(Movies, hm, movie);
    OneDataRow(Actors, ha, actor);
    OneDataRow(Genres, hg, genre);
    OneDataRow(Roles, hr, role);
    var input := OneRowInputs(hm, movie, ha, actor, hg, genre, hr, role);
    forall t: Table ensures Tables.Shaped(t, input.Get(t)) {
      match t
      case Movies =>
      case Actors =>
      case Genres =>
      case Roles =>
    }
  }

  /** The table `t` of `db` with the tuple `r` appended. */
  function Append(db: Db, t: Table, r: Record): Db
  {
    db.Set(t, db.Get(t) + [r])
  }

  lemma FillEmpty(m: Record, a: Record, g: Record, r: Record)
    ensures Append(Append(Append(Append(EmptyDb, Movies, m), Actors, a), Genres, g), Roles, r) == Db([m], [a], [g], [r])
  {
  }

  /** The database holding exactly the one tuple of each data row. */
  function OneRowDb(movie: seq<string>, actor: seq<string>, genre: seq<string>, role: seq<string>): Db
    requires |movie| >= 4 && |actor| >= 4 && |genre| >= 2 && |role| >= 3
  {
    Db([ToRecord(Movies, movie)], [ToRecord(Actors, actor)], [ToRecord(Genres, genre)], [ToRecord(Roles, role)])
  }

  /** Loading `input` into the empty tables succeeds and leaves `db`. */
  predicate LoadsTo(input: Inputs, db: Db)
  {
    input.Shaped() && LoadOutcome(AcceptAll, CommitAll, EmptyDb, input) == Outcome(None, db)
  }

  /**
   * One header and one data row per file, whatever the headers say: every
   * writer succeeds and each table ends up holding exactly that row's tuple.
   */
  lemma {:induction false} OneRowPerTable(hm: seq<string>, movie: seq<string>, ha: seq<string>, actor: seq<string>,
                                          hg: seq<string>, genre: seq<string>, hr: seq<string>, role: seq<string>)
    requires |movie| >= 4 && |actor| >= 4 && |genre| >= 2 && |role| >= 3
    ensures LoadsTo(OneRowInputs(hm, movie, ha, actor, hg, genre, hr, role), OneRowDb(movie, actor, genre, role))
  {
    OneRowInputsShaped(hm, movie, ha, actor, hg, genre, hr, role);
    var input := OneRowInputs(hm, movie, ha, actor, hg, genre, hr, role);
    var m, a, g, r := ToRecord(Movies, movie), ToRecord(Actors, actor), ToRecord(Genres, genre), ToRecord(Roles, role);
    OneRowAccepted(EmptyDb, Movies, hm, movie);
    var d1 := Append(EmptyDb, Movies, m);
    OneRowAccepted(d1, Actors, ha, actor);
    var d2 := Append(d1, Actors, a);
    OneRowAccepted(d2, Genres, hg, genre);
    var d3 := Append(d2, Genres, g);
    OneRowAccepted(d3, Roles, hr, role);
    var d4 := Append(d3, Roles, r);
    FillEmpty(m, a, g, r);
    LoadAllSucceed(AcceptAll, CommitAll, EmptyDb, input, d1, d2, d3, d4);
  }
}
