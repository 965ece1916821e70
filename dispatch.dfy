/**
 * The query tool's command line: the catalog of premade queries and the
 * choice of action from the `--list`, `--sql` and `--query` flags.
 */
module Dispatch {
  import Render

  /** One premade query: what it reports, and the SQL text that is run. */
  datatype Query = Query(description: string, sql: string)

  /** The SQL text of each premade query, as the query tool runs it. */
  const AvgGenresSql := @"
            SELECT g.genre, COUNT(*) AS movie_count, ROUND(AVG(m.rank), 2) AS avg_rank
            FROM genres g
            JOIN movies m ON g.movie_id = m.movie_id
            GROUP BY g.genre
            ORDER BY avg_rank DESC;
        "

  const TopActorsSql := @"
            SELECT a.first_name || ' ' || a.last_name AS actor_name,
            COUNT(*) AS movie_count,
            ROUND(AVG(m.rank), 2) AS avg_rank
            FROM actors a
            JOIN roles r ON a.actor_id = r.actor_id
            JOIN movies m ON r.movie_id = m.movie_id
            GROUP BY a.actor_id
            HAVING movie_count >= 3
            ORDER BY avg_rank DESC
            LIMIT 20;
        "

  const CoStarsSql := @"
            SELECT a1.first_name || ' ' || a1.last_name AS actor1,
            a2.first_name || ' ' || a2.last_name AS actor2,
            COUNT(*) AS shared_movies
            FROM roles r1
            JOIN roles r2 ON r1.movie_id = r2.movie_id AND r1.actor_id < r2.actor_id
            JOIN actors a1 ON a1.actor_id = r1.actor_id
            JOIN actors a2 ON a2.actor_id = r2.actor_id
            GROUP BY actor1, actor2
            ORDER BY shared_movies DESC
            LIMIT 20;
        "

  const AboveGenreAverageSql := @"
            WITH genre_avg AS (
                SELECT genre, AVG(rank) AS avg_rank
                FROM genres JOIN movies USING(movie_id)
                GROUP BY genre
            )
            SELECT m.name, g.genre, m.rank, ROUND(ga.avg_rank,2) AS genre_avg
            FROM movies m
            JOIN genres g ON m.movie_id = g.movie_id
            JOIN genre_avg ga ON g.genre = ga.genre
            WHERE m.rank > ga.avg_rank
            ORDER BY (m.rank - ga.avg_rank) DESC
            LIMIT 30;
        "

  /** The catalog of premade queries, by name. */
  const Queries: map<string, Query> := map[
    "avg-genres" := Query("Highest rating genres", AvgGenresSql),
    "top-actors" := Query("Actors with highest avg-rated movies (min 3 movies)", TopActorsSql),
    "co-stars" := Query("Most popular actor pairs/co-stars", CoStarsSql),
    "above-genre-average" := Query("Movies with ratings above their genre average", AboveGenreAverageSql)
  ]

  /** The parsed flags; an unset string flag is the empty string. */
  datatype Flags = Flags(list: bool, query: string, sql: string)

  /** What the tool does for a set of flags. */
  datatype Action =
    | ListQueries(lines: set<string>)   // one line per catalog entry, in no fixed order
    | RunSql(sql: string)               // hand this SQL text to the database and render its result
    | Fatal(message: string)            // `log.Fatalf`: print the message and exit
    | Usage(message: string)            // print how to use the tool

  const UsageMessage := "No query provided. Use --list or --query <name> or --sql <query-string>"

  function UnknownQueryMessage(name: string): string
  {
    "Unknown query: " + name + ". Use --list to see options."
  }

  /** The `--list` line of one catalog entry: the name left-justified in 20 bytes, then the description. */
  function ListLine(name: string, description: string): (line: string)
    ensures |line| == 4 + Render.Max(|name|, 20) + |description|
    ensures line[..2] == "  " && line[2..2 + |name|] == name
    ensures forall i :: 2 + |name| <= i < 2 + Render.Max(|name|, 20) ==> line[i] == ' '
    ensures line[2 + Render.Max(|name|, 20) .. 4 + Render.Max(|name|, 20)] == "  "
    ensures line[4 + Render.Max(|name|, 20) ..] == description
  {
    "  " + Render.Pad(name, 20) + "  " + description
  }

  /** The action `main` takes: `--list` first, then `--sql`, then `--query`, else the usage message. */
  function Choose(flags: Flags, catalog: map<string, Query>): (a: Action)
    ensures a.RunSql? ==>
      && !flags.list
      && ((flags.sql != "" && a.sql == flags.sql)
          || (flags.sql == "" && flags.query in catalog && a.sql == catalog[flags.query].sql))
    ensures a.Fatal? <==> !flags.list && flags.sql == "" && flags.query != "" && flags.query !in catalog
    ensures a.Fatal? ==> a.message == UnknownQueryMessage(flags.query)
    ensures a.Usage? <==> !flags.list && flags.sql == "" && flags.query == ""
    ensures a.Usage? ==> a.message == UsageMessage
    ensures a.ListQueries? <==> flags.list
  {
    if flags.list then
      ListQueries(set name | name in catalog :: ListLine(name, catalog[name].description))
    else if flags.sql != "" then
      RunSql(flags.sql)
    else if flags.query != "" then
      if flags.query in catalog then RunSql(catalog[flags.query].sql)
      else Fatal(UnknownQueryMessage(flags.query))
    else
      Usage(UsageMessage)
  }

  /** `--list` wins over every other flag, and lists every catalog entry and nothing else. */
  lemma ListWins(query: string, sql: string, catalog: map<string, Query>)
    ensures var a := Choose(Flags(true, query, sql), catalog);
      && a.ListQueries?
      && (forall name :: name in catalog ==> ListLine(name, catalog[name].description) in a.lines)
      && (forall line :: line in a.lines ==> exists name :: name in catalog && line == ListLine(name, catalog[name].description))
  {
  }

  /** Without `--list`, a non-empty `--sql` is run as given, whatever `--query` says. */
  lemma SqlBeatsQuery(query: string, sql: string, catalog: map<string, Query>)
    requires sql != ""
    ensures Choose(Flags(false, query, sql), catalog) == RunSql(sql)
  {
  }

  /**
   * With only `--query` set, a name in the catalog runs exactly that entry's
   * SQL, and any other name is a fatal "Unknown query" error naming it.
   */
  lemma QueryLooksUpCatalog(query: string, catalog: map<string, Query>)
    requires query != ""
    ensures query in catalog ==> Choose(Flags(false, query, ""), catalog) == RunSql(catalog[query].sql)
    ensures query !in catalog ==> Choose(Flags(false, query, ""), catalog) == Fatal(UnknownQueryMessage(query))
  {
  }

  /** The catalog holds exactly the four premade reports. */
  lemma CatalogNames()
    ensures Queries.Keys == {"avg-genres", "top-actors", "co-stars", "above-genre-average"}
  {
  }

  /** `--query avg-genres` runs that report's SQL. */
  lemma KnownQueryRuns()
    ensures "avg-genres" in Queries
    ensures Choose(Flags(false, "avg-genres", ""), Queries) == RunSql(Queries["avg-genres"].sql)
  {
  }

  /** `--query top-genres` names no report and is fatal. */
  lemma UnknownQueryFails()
    ensures Choose(Flags(false, "top-genres", ""), Queries) == Fatal(UnknownQueryMessage("top-genres"))
  {
  }
}
