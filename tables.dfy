/**
 * The four destination tables of the bulk loader and the positional mapping
 * from one CSV row to the tuple bound to that table's INSERT statement.
 */
module Tables {
  import opened Strconv

  datatype Table = Movies | Actors | Genres | Roles

  /** The position at which the loader writes each table. */
  function Order(t: Table): nat
  {
    match t
    case Movies => 0
    case Actors => 1
    case Genres => 2
    case Roles => 3
  }

  /** The number of leading fields the writer reads from each data row. */
  function Arity(t: Table): nat
  {
    match t
    case Movies => 4
    case Actors => 4
    case Genres => 2
    case Roles => 3
  }

  /** How a field is converted before it is bound to its INSERT parameter. */
  datatype Kind = IntColumn | TextColumn | RankColumn

  /**
   * The column layout of each INSERT statement, parameter by parameter:
   * movies(movie_id, name, year, rank), actors(actor_id, first_name,
   * last_name, gender), genres(movie_id, genre), roles(actor_id, movie_id, role).
   */
  function ColumnKind(t: Table, col: nat): Kind
    requires col < Arity(t)
  {
    match t
    case Movies => [IntColumn, TextColumn, IntColumn, RankColumn][col]
    case Actors => [IntColumn, TextColumn, TextColumn, TextColumn][col]
    case Genres => [IntColumn, TextColumn][col]
    case Roles => [IntColumn, IntColumn, TextColumn][col]
  }

  /**
   * A bound parameter value. The rank column keeps its raw text: the
   * floating-point conversion is not part of this model.
   */
  datatype Value = IntValue(n: int) | TextValue(s: string) | RankValue(raw: string)

  /** The conversion one field undergoes: `Atoi` with the error dropped, or none. */
  function Coerce(k: Kind, field: string): Value
  {
    match k
    case IntColumn => IntValue(AtoiOrZero(field))
    case TextColumn => TextValue(field)
    case RankColumn => RankValue(field)
  }

  /** One inserted tuple. */
  datatype Record =
    | Movie(movieId: int, name: string, year: int, rank: string)
    | Actor(actorId: int, firstName: string, lastName: string, gender: string)
    | Genre(movieId: int, genre: string)
    | Role(actorId: int, movieId: int, role: string)

  function TableOf(r: Record): Table
  {
    match r
    case Movie(_, _, _, _) => Movies
    case Actor(_, _, _, _) => Actors
    case Genre(_, _) => Genres
    case Role(_, _, _) => Roles
  }

  /** The arguments of `stmt.Exec`, in parameter order. */
  function Params(r: Record): seq<Value>
  {
    match r
    case Movie(id, name, year, rank) => [IntValue(id), TextValue(name), IntValue(year), RankValue(rank)]
    case Actor(id, first, last, gender) => [IntValue(id), TextValue(first), TextValue(last), TextValue(gender)]
    case Genre(id, genre) => [IntValue(id), TextValue(genre)]
    case Role(aid, mid, role) => [IntValue(aid), IntValue(mid), TextValue(role)]
  }

  /**
   * The tuple a writer builds from one data row: parameter `col` is field
   * `row[col]` converted as its column demands, so text fields pass through
   * unchanged and integer fields go through `AtoiOrZero`.
   */
  function ToRecord(t: Table, row: seq<string>): (r: Record)
    requires |row| >= Arity(t)
    ensures TableOf(r) == t
    ensures |Params(r)| == Arity(t)
    ensures forall col :: 0 <= col < Arity(t) ==> Params(r)[col] == Coerce(ColumnKind(t, col), row[col])
  {
    match t
    case Movies => Movie(AtoiOrZero(row[0]), row[1], AtoiOrZero(row[2]), row[3])
    case Actors => Actor(AtoiOrZero(row[0]), row[1], row[2], row[3])
    case Genres => Genre(AtoiOrZero(row[0]), row[1])
    case Roles => Role(AtoiOrZero(row[0]), AtoiOrZero(row[1]), row[2])
  }

  /**
   * A malformed integer field does not stop the row: its parameter is 0, and
   * a well-formed one in the 64-bit range is its decimal value.
   */
  lemma IntFieldCoercion(t: Table, row: seq<string>, col: nat)
    requires |row| >= Arity(t) && col < Arity(t) && ColumnKind(t, col) == IntColumn
    ensures ParseDecimal(row[col]).None? ==> Params(ToRecord(t, row))[col] == IntValue(0)
    ensures ParseDecimal(row[col]).Some? && MinInt64 <= ParseDecimal(row[col]).value <= MaxInt64 ==>
      Params(ToRecord(t, row))[col] == IntValue(ParseDecimal(row[col]).value)
  {
  }

  /** The rows of the loader's one-row fixture become these tuples. */
  lemma FixtureRecords()
    ensures ToRecord(Movies, ["1", "Test Movie", "2000", "7.5"]) == Movie(1, "Test Movie", 2000, "7.5")
    ensures ToRecord(Actors, ["10", "Jane", "Doe", "F"]) == Actor(10, "Jane", "Doe", "F")
    ensures ToRecord(Genres, ["1", "Drama"]) == Genre(1, "Drama")
    ensures ToRecord(Roles, ["10", "1", "Lead"]) == Role(10, 1, "Lead")
  {
    AtoiExamples();
  }

  /** Every data row (all rows but the header) has the fields the writer indexes. */
  predicate Shaped(t: Table, data: seq<seq<string>>)
  {
    forall i :: 1 <= i < |data| ==> |data[i]| >= Arity(t)
  }

  /** The rows after the header; none for an empty table. */
  function DataRows(data: seq<seq<string>>): (rows: seq<seq<string>>)
    ensures |data| == 0 ==> rows == []
    ensures |data| > 0 ==> |rows| == |data| - 1
    ensures forall k :: 0 <= k < |rows| ==> rows[k] == data[k + 1]
  {
    if data == [] then [] else data[1..]
  }

  lemma DataRowsShaped(t: Table, data: seq<seq<string>>)
    requires Shaped(t, data)
    ensures forall k :: 0 <= k < |DataRows(data)| ==> |DataRows(data)[k]| >= Arity(t)
  {
  }

  /** The tuples of a sequence of data rows, one per row and in row order. */
  function Records(t: Table, rows: seq<seq<string>>): (rs: seq<Record>)
    requires forall k :: 0 <= k < |rows| ==> |rows[k]| >= Arity(t)
    ensures |rs| == |rows|
    ensures forall k :: 0 <= k < |rows| ==> rs[k] == ToRecord(t, rows[k])
  {
    seq(|rows|, k requires 0 <= k < |rows| => ToRecord(t, rows[k]))
  }
}
