# imdb-sqlite: the table writers and the query tool's renderer, in Dafny

This project models two pieces of the imdb-sqlite repository and proves their
properties.

**The bulk loader's write phase** (`cmd/create/create_imdb.go`):
- The four writers `writeMovies`, `writeActors`, `writeGenres` and `writeRoles`. Each one:
  - takes a table as read from its CSV file, header first;
  - opens one transaction and skips the header;
  - turns each data row into a tuple by field position, with integer columns passed through `strconv.Atoi` and the error discarded;
  - inserts the tuples in file order;
  - on the first refused insert, returns an error naming the file line, which is the row index plus one;
  - commits at the end.
- `main`, which runs the four writers in a fixed order (movies, actors, genres, roles) and stops at the first failure.

**The query tool** (`cmd/query/query_imdb.go`):
- `pad` and `printBorder`;
- the column-width loops and the line layout of `printTable`;
- the catalog of premade queries;
- the choice `main` makes from the `--list`, `--sql` and `--query` flags.

## How the model is built

- `strconv.Atoi` (module `Strconv`):
  - the accepted syntax is an optional `+` or `-` and then one or more ASCII digits;
  - anything else is a syntax error with value 0;
  - a value outside the 64-bit range is clamped, with a range error;
  - `AtoiOrZero` is the `n, _ :=` form the loader uses.
- Strings are `seq<char>`, and each element stands for one byte of the Go string. So `|s|` is Go's `len(s)` throughout, including in `pad` and in the width computation.
- Rows and tuples (module `Tables`):
  - `Table` names the four tables;
  - `ToRecord` is the positional mapping from one CSV row to the tuple bound to that table's `INSERT`;
  - `Shaped` states the field count every data row must have (4, 4, 2, 3).
- The database (module `Loader`):
  - The database is abstract. Whether the engine accepts an insert is an `InsertPolicy`; whether it accepts a commit is a `CommitPolicy`. Both are functions fixed when a `Store` is opened.
  - `Store` holds the committed tables (`Db`) and the open transaction's `pending` buffer. `Begin`, `Insert` and `Commit` update them in place.
  - `Store.InsertRows` is the writer's loop and `Store.Write` the whole writer. `Store.Load` runs the four writers.
  - Each method is proved against a specification function: `FirstRejected`, `WriteOutcome` or `LoadOutcome`. The lemmas beside those functions state what the writers promise.
- `Scenarios` runs the whole load on one header and one data row per file into an engine that accepts everything, which is the shape of the loader's own test.
- `Render`:
  - Rendering returns lines, each without its newline, instead of printing them.
  - `ColumnWidths` keeps the source's in-place update of a width array.
  - `TableAligned` states the layout properties of the lines `PrintTable` builds.
- `Dispatch` holds the catalog as a map from name to (description, SQL text). `Choose` returns the action `main` takes.

A refused insert ends a writer without a rollback:
- The writer returns the error without calling `Rollback` on its transaction (`cmd/create/create_imdb.go:137-139`). `main` then ends the process.
- The model does the same. `Store.Write` leaves the transaction's pending rows as they were and commits nothing, so the committed tables are unchanged.

## Model

| member | source | states |
|---|---|---|
| Strconv.Atoi | cmd/create/create_imdb.go:133-134 | The value is always in the 64-bit range. It is a syntax error exactly when the field is not an optional sign followed by one or more digits, and then the value is 0. Without an error the value is the field's decimal value. A range error happens exactly when the field is well formed and its value lies outside the 64-bit range, and it carries the bound nearest the true value. |
| Strconv.AtoiFormatRoundTrip | cmd/create/create_imdb.go:133-134 | Every 64-bit integer written in decimal is read back by `Atoi` as itself, with no error. |
| Strconv.AtoiOfSignedDigits | cmd/create/create_imdb.go:133-134 | A field made of no sign, `+` or `-`, then digits parses to its signed value. When that value is in range, the loader stores it. |
| Strconv.AtoiRejectsBadByte | cmd/create/create_imdb.go:133-134 | A field with any byte that is neither a digit nor a leading sign with more bytes after it is a syntax error, and the loader stores 0 (Go differs only for the overflowing fields named under "## Left out"). |
| Strconv.AtoiRejectsEmptyOrSign | cmd/create/create_imdb.go:161 | The empty field and a lone sign are syntax errors, stored as 0. |
| Strconv.AtoiExamples | cmd/create/create_imdb_test.go:43-53 | The integer fields of the loader's fixture, "1", "10" and "2000", are read as 1, 10 and 2000. |
| Strconv.AtoiSignedExamples | cmd/create/create_imdb.go:213-214 | "-42" is read as -42 and "+7" as 7. |
| Strconv.AtoiJunkExamples | cmd/create/create_imdb.go:187 | "1.5", " 1" and the empty field are each stored as 0. |
| Tables.ToRecord | cmd/create/create_imdb.go:133-137 | The tuple belongs to the writer's own table and has as many parameters as that writer binds. Parameter `col` is field `row[col]`: text fields unchanged, integer fields through `Atoi` with the error dropped. |
| Tables.IntFieldCoercion | cmd/create/create_imdb.go:161-163 | A malformed integer field becomes parameter 0 and does not stop the row. A well-formed field in the 64-bit range becomes its decimal value. |
| Tables.FixtureRecords | cmd/create/create_imdb_test.go:43-53 | The four one-row fixture files give the tuples (1, "Test Movie", 2000, "7.5"), (10, "Jane", "Doe", "F"), (1, "Drama") and (10, 1, "Lead"). |
| Tables.DataRows | cmd/create/create_imdb.go:127-130 | The header is dropped. An empty table has no data rows. Data row `k` is file row `k + 1`. |
| Loader.TableRecords | cmd/create/create_imdb.go:127-137 | The tuples of a file: none for an empty or header-only file, otherwise one fewer than its rows, and tuple `k` is built from file row `k + 1`. |
| Loader.FirstRejected | cmd/create/create_imdb.go:137-140 | `None` exactly when every insert is accepted, each made after those before it. `Some(k)` means every insert before `k` was accepted and insert `k` was refused. |
| Loader.FirstRejectedIsFirst | cmd/create/create_imdb.go:137-140 | Any position whose earlier inserts were all accepted and whose own insert was refused is the one `FirstRejected` reports. |
| Loader.WriteOutcomeRejected | cmd/create/create_imdb.go:138-140 | A writer whose data row `k` (0-based) is the first refused reports file line `k + 2` and leaves the tables unchanged. |
| Loader.WriteOutcomeAccepted | cmd/create/create_imdb.go:143-145 | A writer whose inserts are all accepted has the commit's outcome: all its tuples appended to its table, or a commit error with nothing changed. |
| Loader.WriteSuccess | cmd/create/create_imdb.go:127-145 | A writer succeeds exactly when every insert and the commit are accepted. It then appends exactly its tuples to its own table, one per data row. |
| Loader.WriteFrame | cmd/create/create_imdb.go:119-146 | A writer changes no table but its own. When it fails it changes nothing, and its error names its own table. For a refused commit, the table stands for the context `main` adds (lines 82-91); the writer returns `tx.Commit()`'s error unwrapped. |
| Loader.WriteInsertFailure | cmd/create/create_imdb.go:137-140 | A reported insert failure names a data line (2 to the number of rows) whose tuple is the refused one. Every earlier data row was accepted, and nothing is committed. |
| Loader.WriteCommitFailure | cmd/create/create_imdb.go:143-145 | A commit failure comes only after every insert was accepted, and leaves the tables unchanged. |
| Loader.WriteNoDataRows | cmd/create/create_imdb.go:127-145 | An empty or header-only file inserts nothing and goes straight to the commit. |
| Loader.WriteStep | cmd/create/create_imdb.go:81-92 | Once the writers before table `t` have committed, `t`'s writer either commits its own tuples too or fails naming `t`. In both cases no later table is touched. |
| Loader.LoadEffect | cmd/create/create_imdb.go:81-92 | After a failed load, every table before the failing one holds its file's tuples; the failing one and every later one are as they were. After a successful load, all four tables hold their tuples. |
| Loader.LoadAllSucceed | cmd/create/create_imdb.go:81-92 | When all four writers succeed in turn, the load succeeds with the state the last writer committed. |
| Loader.InsertFailedOutcome | cmd/create/create_imdb.go:138-140 | A loop that stops at file row `i` gives the error line `i + 1`, a data line. Only the rows before it are in the transaction, and nothing is committed. |
| Loader.AllInsertedOutcome | cmd/create/create_imdb.go:141-145 | A loop that inserts every row leaves all the tuples in the transaction, and the outcome is the commit's. |
| Loader.Store.Begin | cmd/create/create_imdb.go:122 | A new transaction starts with no pending rows. |
| Loader.Store.Insert | cmd/create/create_imdb.go:137 | The insert is judged against the committed table plus the pending rows. An accepted tuple is appended to the pending rows; a refused one leaves them as they were. |
| Loader.Store.Commit | cmd/create/create_imdb.go:145 | On an accepted commit, the pending rows are appended to `t`'s committed table and no other committed table changes. On a refused one, the committed tables are unchanged. Either way the pending rows are cleared. |
| Loader.Store.InsertRows | cmd/create/create_imdb.go:127-141 | The loop skips the header and inserts the data rows in order. It reports the file row of the first refused insert, or none. The transaction then holds exactly the tuples inserted before that point, or all of them. |
| Loader.Store.Write | cmd/create/create_imdb.go:119-146 | The error and the committed state are those of `WriteOutcome`. Any error names the writer's own table. After an insert failure, the transaction holds only the rows before the refused line. After a commit attempt, it holds nothing. |
| Loader.Store.Load | cmd/create/create_imdb.go:81-92 | Running the four writers in order, stopping at the first error, gives `LoadOutcome`. After a refused insert, the transaction holds that table's rows before the refused line, and the reported line lies within that table's file. Otherwise no transaction holds rows afterwards. |
| Scenarios.OneDataRow | cmd/create/create_imdb_test.go:43-53 | A header and one data row make a well-shaped table with exactly one tuple. |
| Scenarios.OneRowAccepted | cmd/create/create_imdb.go:127-145 | Into an engine that accepts everything, a one-row file appends exactly its one tuple, with no error. |
| Scenarios.OneRowPerTable | cmd/create/create_imdb_test.go:80-109 | Four one-row files, each with its own header, loaded into empty tables succeed and leave each table holding exactly that row's tuple. |
| Render.Pad | cmd/query/query_imdb.go:137-142 | `s` unchanged when it is at least `width` bytes. Otherwise exactly `width` bytes, with `s` as prefix and only spaces after it. The length is max(len(s), width). |
| Render.PadIdempotent | cmd/query/query_imdb.go:137-142 | Padding a padded string to the same width changes nothing. |
| Render.OffsetNext | cmd/query/query_imdb.go:145-151 | Each column takes its width plus three bytes: the next separator stands `w + 3` bytes after the one before the column (two spaces or dashes around the cell and the separator). |
| Render.BorderShape | cmd/query/query_imdb.go:145-151 | The border is 1 + Σ(w + 3) bytes long and made only of `+` and `-`. It has a `+` at every column separator. |
| Render.PrintBorder | cmd/query/query_imdb.go:145-151 | The loop builds `+`, then `w + 2` dashes and a `+` for each width. |
| Render.PrintRow | cmd/query/query_imdb.go:199-203 | The loop builds `\|`, then for each cell a space, the cell padded to its column's width, and ` \|`. |
| Render.RowLineLength | cmd/query/query_imdb.go:207-213 | A line whose cells fit their columns is exactly as long as the border. |
| Render.RowLineSeparators | cmd/query/query_imdb.go:207-213 | Such a line has a `\|` at every column separator, the offsets where the border has its `+`. |
| Render.RowLineCellAt | cmd/query/query_imdb.go:209-211 | Cell `j`, padded to its column's width, starts two bytes after the separator before it. |
| Render.RowLineCells | cmd/query/query_imdb.go:209-211 | Every cell of such a line, padded, sits at its column's offset. |
| Render.ColumnWidthIsMax | cmd/query/query_imdb.go:184-195 | A column's width is at least its header and every cell in it, and is the length of one of them: the maximum. |
| Render.ColumnWidths | cmd/query/query_imdb.go:184-195 | The in-place width loops leave each column at the length of its longest header or cell. |
| Render.WidthsFit | cmd/query/query_imdb.go:184-195 | With these widths, the header and every data row fit their columns. |
| Render.TableAligned | cmd/query/query_imdb.go:197-214 | In the rendered table, every line has the border's length. Separators line up in every line: `+` in the three borders, `\|` in the header and data lines. Each data cell is padded at its column's offset. |
| Render.PrintTable | cmd/query/query_imdb.go:183-214 | The result is border, header, border, one line per data row, border, with widths that are the column maxima and that every cell fits. |
| Dispatch.ListLine | cmd/query/query_imdb.go:102 | A `--list` line is two spaces, the name padded with spaces to 20 bytes (or left as it is when longer), two spaces, then the description. |
| Dispatch.Choose | cmd/query/query_imdb.go:99-121 | `--list` is chosen exactly when set. Usage is shown exactly when no flag is set, with the tool's fixed usage text. SQL is run only without `--list`: the `--sql` text when set, otherwise the catalog entry's. An unknown `--query` name is fatal with a message naming it, and is the only fatal case. |
| Dispatch.ListWins | cmd/query/query_imdb.go:99-105 | With `--list`, the other flags are ignored, and the listing has one line for each catalog entry and nothing else. |
| Dispatch.SqlBeatsQuery | cmd/query/query_imdb.go:107-110 | Without `--list`, a non-empty `--sql` runs as given, whatever `--query` says. |
| Dispatch.QueryLooksUpCatalog | cmd/query/query_imdb.go:112-119 | With only `--query` set, a catalog name runs exactly its SQL. Any other name is fatal with "Unknown query: <name>. Use --list to see options." |
| Dispatch.CatalogNames | cmd/query/query_imdb.go:14-78 | The catalog holds exactly avg-genres, top-actors, co-stars and above-genre-average. |
| Dispatch.KnownQueryRuns | cmd/query/query_imdb.go:18-27 | `--query avg-genres` runs that entry's SQL. |
| Dispatch.UnknownQueryFails | cmd/query/query_imdb.go:113-116 | `--query top-genres` names no entry and is fatal. |

## Left out

- `readCSV` and the `encoding/csv` parser (cmd/create/create_imdb.go:98-113) are file I/O. A writer takes the rows as given. `Shaped` is an assumption about the input files: every data row has at least the fields its writer indexes (4, 4, 2, 3). The CSV reader only makes every record as long as the header, not that long.
- Short rows: a file whose rows have fewer fields than the writer indexes makes the Go writer panic on an out-of-range `row[...]` (cmd/create/create_imdb.go:133-135, 163, 189, 216). The writers' `requires Shaped` excludes those inputs, so the panic is not modelled.
- The four reader goroutines, the `WaitGroup` and the shared `readErr` (cmd/create/create_imdb.go:44-74) are concurrency. Their race lets one reader's success hide another's failure; no property about read failures is claimed.
- `strconv.ParseFloat` for the rank column is floating point. The rank is kept as the raw field text (`RankValue`).
- Strconv.Atoi: a field whose digits, after an optional sign and before the first other byte, exceed 18446744073709551615 is a range error with a clamped value in Go (for example `-99999999999999999999x` gives MinInt64). The model reports it as a syntax error with 0. Every other input agrees.
- `db.Begin` and `tx.Prepare` failures, and `must`/`log.Fatalf` ending the process, are left out. Begin and Prepare are taken to succeed; a writer's or the load's error is returned instead of ending the process.
- Loader.Store.Write: after a refused insert it leaves the transaction open with its pending rows, as Go does. Nothing later commits or rolls it back, because the process exits; the model has no process exit.
- SQLite itself, the schema in `internal/schema.go` and what the SQL texts compute are not modelled. The engine is the abstract `InsertPolicy`/`CommitPolicy` pair, and `RunSql` stands for handing a text to it.
- `runQuery`, `rows.Columns`, `rows.Scan` and the `fmt.Sprint` of each value (cmd/query/query_imdb.go:125-181) are left out. `PrintTable` takes the column names and the cells as strings, one cell per column.
- Standard output is not modelled: rendering returns lines without their newline, and `--list` returns its lines as a set.
- Dispatch.Choose returns the `--list` lines as a set, because Go's map iteration order is unspecified. The "Available queries:" heading and the "Connected" and "Query completed." messages are not part of the model.
- Dispatch.ListLine pads the name to 20 bytes; Go's `%-20s` counts runes. The two agree on the catalog's ASCII names.
- Opening `imdb.db`, deleting an old one, and running the schema script are left out. The load starts from the tables the caller gives, `EmptyDb` in `Scenarios`.
- The test files are not modelled. `Tables.FixtureRecords` and `Scenarios.OneRowPerTable` restate their one-row fixture as properties.
