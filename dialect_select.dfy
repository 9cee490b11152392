/** Choice of the SQL statement that fetches a whole batch of sequence values
    in one round trip, by database dialect. */
module DialectSelect {

  /** The dialect classes whose `instanceof` test the generator makes. */
  datatype DialectFamily = OracleFamily | SqlServerFamily | Db2Family | HsqlFamily | PostgreSqlFamily

  /** A Hibernate dialect, seen only through the families it is an instance of
      (a subclass of PostgreSQLDialect is in PostgreSqlFamily, and so on). */
  datatype Dialect = Dialect(families: set<DialectFamily>)

  /** How a dialect materialises `fetchSize` rows. */
  datatype Strategy =
    | ConnectBy       // Oracle: CONNECT BY rownum over dual
    | PlainCte        // SQL Server: non-recursive WITH, sequence call outside it
    | ValuesCte       // DB2: as SQL Server, anchored on FROM (VALUES 1)
    | Unnest          // HSQLDB: UNNEST(SEQUENCE_ARRAY(...))
    | GenerateSeries  // PostgreSQL: generate_series
    | RecursiveCte    // every other dialect: WITH RECURSIVE

  /** The strategy of the first family, in the fixed priority order Oracle,
      SQL Server, DB2, HSQLDB, PostgreSQL, that the dialect belongs to. */
  function SelectStrategy(d: Dialect): (s: Strategy)
    ensures s == ConnectBy <==> OracleFamily in d.families
    ensures s == PlainCte <==> OracleFamily !in d.families && SqlServerFamily in d.families
    ensures s == ValuesCte <==>
      OracleFamily !in d.families && SqlServerFamily !in d.families && Db2Family in d.families
    ensures s == Unnest <==>
      OracleFamily !in d.families && SqlServerFamily !in d.families && Db2Family !in d.families
      && HsqlFamily in d.families
    ensures s == GenerateSeries <==>
      OracleFamily !in d.families && SqlServerFamily !in d.families && Db2Family !in d.families
      && HsqlFamily !in d.families && PostgreSqlFamily in d.families
    ensures s == RecursiveCte <==>
      OracleFamily !in d.families && SqlServerFamily !in d.families && Db2Family !in d.families
      && HsqlFamily !in d.families && PostgreSqlFamily !in d.families
  {
    if OracleFamily in d.families then ConnectBy
    else if SqlServerFamily in d.families then PlainCte
    else if Db2Family in d.families then ValuesCte
    else if HsqlFamily in d.families then Unnest
    else if PostgreSqlFamily in d.families then GenerateSeries
    else RecursiveCte
  }

  /** The template text before the next-value expression, in the pieces the
      generator concatenates. */
  function Prefix(s: Strategy): string
  {
    match s
    case ConnectBy => "SELECT "
    case PlainCte =>
      "WITH t(n) AS ( "
      + "SELECT 1 AS n "
      + "UNION ALL "
      + "SELECT n + 1 AS n FROM t WHERE n < ?) "
      + "SELECT "
    case ValuesCte =>
      "WITH t(n) AS ( "
      + "SELECT 1 AS n "
      + "FROM (VALUES 1) "
      + "UNION ALL "
      + "SELECT n + 1 AS n FROM t WHERE n < ?) "
      + "SELECT "
    case Unnest => "SELECT "
    case GenerateSeries => "SELECT "
    case RecursiveCte =>
      "WITH RECURSIVE t(n) AS ("
      + "SELECT 1 "
      + "UNION ALL "
      + "SELECT n + 1"
      + " FROM t "
      + " WHERE n < ?) "
      + "SELECT "
  }

  /** The template text after the next-value expression. */
  function Suffix(s: Strategy): string
  {
    match s
    case ConnectBy => " FROM dual CONNECT BY rownum <= ?"
    case PlainCte => " AS n FROM t"
    case ValuesCte => " AS n FROM t"
    case Unnest => " FROM UNNEST(SEQUENCE_ARRAY(1, ?, 1))"
    case GenerateSeries => " FROM generate_series(1, ?)"
    case RecursiveCte => " FROM t"
  }

  /** Number of `?` bind placeholders in a piece of SQL text. */
  function Placeholders(sql: string): nat
  {
    if sql == [] then 0 else (if sql[0] == '?' then 1 else 0) + Placeholders(sql[1..])
  }

  lemma {:induction false} PlaceholdersAppend(a: string, b: string)
    ensures Placeholders(a + b) == Placeholders(a) + Placeholders(b)
  {
    if a != [] {
      assert (a + b)[0] == a[0] && (a + b)[1..] == a[1..] + b;
      PlaceholdersAppend(a[1..], b);
    } else {
      assert a + b == b;
    }
  }

  lemma {:induction false} NoPlaceholders(sql: string)
    requires '?' !in sql
    ensures Placeholders(sql) == 0
  {
    if sql != [] {
      NoPlaceholders(sql[1..]);
    }
  }

  /** Text made of placeholder-free parts around one `?` holds one placeholder. */
  lemma OnePlaceholder(before: string, after: string)
    requires '?' !in before && '?' !in after
    ensures Placeholders(before + "?" + after) == 1
  {
    NoPlaceholders(before);
    NoPlaceholders(after);
    assert Placeholders("?") == 1 by { assert "?"[1..] == []; }
    PlaceholdersAppend(before, "?");
    PlaceholdersAppend(before + "?", after);
  }

  /** A piece of text with one `?` and nothing else to bind. */
  lemma PlaceholderChunk(chunk: string, before: string, after: string)
    requires chunk == before + "?" + after
    requires '?' !in before && '?' !in after
    ensures Placeholders(chunk) == 1
  {
    OnePlaceholder(before, after);
  }

  /** The common-table-expression prefixes: the `?` sits in one middle chunk. */
  lemma CtePrefixPlaceholders(head: string, chunk: string, before: string, after: string)
    requires '?' !in head
    requires chunk == before + "?" + after && '?' !in before && '?' !in after
    ensures Placeholders(head + chunk + "SELECT ") == 1
  {
    NoPlaceholders(head);
    NoPlaceholders("SELECT ");
    PlaceholderChunk(chunk, before, after);
    PlaceholdersAppend(head, chunk);
    PlaceholdersAppend(head + chunk, "SELECT ");
  }

  /** Every template has exactly one placeholder outside the spliced expression.
      The per-strategy lemmas below name each template's text again, split
      at its `?`. That split is the one fact the count needs, and the helper
      lemmas' `requires` make Dafny check that the pieces reassemble exactly
      `Prefix(s)` and `Suffix(s)`, so a mistyped piece fails verification.
      Splitting `Prefix(s)` by index instead makes the solver unfold the whole
      literal character by character, which is far more expensive. */
  lemma TemplatePlaceholders(s: Strategy)
    ensures Placeholders(Prefix(s)) + Placeholders(Suffix(s)) == 1
  {
    match s
    case ConnectBy => ConnectByPlaceholder(s);
    case PlainCte => PlainCtePlaceholder(s);
    case ValuesCte => ValuesCtePlaceholder(s);
    case Unnest => UnnestPlaceholder(s);
    case GenerateSeries => GenerateSeriesPlaceholder(s);
    case RecursiveCte => RecursiveCtePlaceholder(s);
  }

  lemma ConnectByPlaceholder(s: Strategy)
    requires s == ConnectBy
    ensures Placeholders(Prefix(s)) + Placeholders(Suffix(s)) == 1
  {
    SuffixOnlyPlaceholder(Prefix(s), Suffix(s), " FROM dual CONNECT BY rownum <= ", "");
  }

  lemma PlainCtePlaceholder(s: Strategy)
    requires s == PlainCte
    ensures Placeholders(Prefix(s)) + Placeholders(Suffix(s)) == 1
  {
    CtePlaceholder(Prefix(s), Suffix(s), "WITH t(n) AS ( " + "SELECT 1 AS n " + "UNION ALL ",
      "SELECT n + 1 AS n FROM t WHERE n < ?) ", "SELECT n + 1 AS n FROM t WHERE n < ", ") ");
  }

  lemma ValuesCtePlaceholder(s: Strategy)
    requires s == ValuesCte
    ensures Placeholders(Prefix(s)) + Placeholders(Suffix(s)) == 1
  {
    CtePlaceholder(Prefix(s), Suffix(s), "WITH t(n) AS ( " + "SELECT 1 AS n " + "FROM (VALUES 1) " + "UNION ALL ",
      "SELECT n + 1 AS n FROM t WHERE n < ?) ", "SELECT n + 1 AS n FROM t WHERE n < ", ") ");
  }

  lemma UnnestPlaceholder(s: Strategy)
    requires s == Unnest
    ensures Placeholders(Prefix(s)) + Placeholders(Suffix(s)) == 1
  {
    SuffixOnlyPlaceholder(Prefix(s), Suffix(s), " FROM UNNEST(SEQUENCE_ARRAY(1, ", ", 1))");
  }

  lemma GenerateSeriesPlaceholder(s: Strategy)
    requires s == GenerateSeries
    ensures Placeholders(Prefix(s)) + Placeholders(Suffix(s)) == 1
  {
    SuffixOnlyPlaceholder(Prefix(s), Suffix(s), " FROM generate_series(1, ", ")");
  }

  lemma RecursiveCtePlaceholder(s: Strategy)
    requires s == RecursiveCte
    ensures Placeholders(Prefix(s)) + Placeholders(Suffix(s)) == 1
  {
    CtePlaceholder(Prefix(s), Suffix(s), "WITH RECURSIVE t(n) AS (" + "SELECT 1 " + "UNION ALL " + "SELECT n + 1" + " FROM t ",
      " WHERE n < ?) ", " WHERE n < ", ") ");
  }

  /** Templates of the form SELECT <expr> FROM <row source with ?>. */
  lemma SuffixOnlyPlaceholder(prefix: string, suffix: string, before: string, after: string)
    requires prefix == "SELECT "
    requires suffix == before + "?" + after && '?' !in before && '?' !in after
    ensures Placeholders(prefix) + Placeholders(suffix) == 1
  {
    NoPlaceholders(prefix);
    OnePlaceholder(before, after);
  }

  /** Templates of the form WITH t(n) AS (... ?) SELECT <expr> <rest>. */
  lemma CtePlaceholder(prefix: string, suffix: string, head: string, chunk: string, before: string, after: string)
    requires prefix == head + chunk + "SELECT " && '?' !in head
    requires chunk == before + "?" + after && '?' !in before && '?' !in after
    requires '?' !in suffix
    ensures Placeholders(prefix) + Placeholders(suffix) == 1
  {
    NoPlaceholders(suffix);
    CtePrefixPlaceholders(head, chunk, before, after);
  }

  /** The batch SELECT for a dialect, with the dialect's single-value
      next-value expression spliced in once, at a position that depends on the
      dialect alone. Its one placeholder is bound to the fetch size. */
  function BuildSelect(nextValString: string, d: Dialect): (r: string)
    ensures r == Prefix(SelectStrategy(d)) + nextValString + Suffix(SelectStrategy(d))
  {
    var r :=
      if OracleFamily in d.families then
        "SELECT " + nextValString + " FROM dual CONNECT BY rownum <= ?"
      else if SqlServerFamily in d.families then
        // no RECURSIVE; the sequence call stays outside the WITH
        "WITH t(n) AS ( "
        + "SELECT 1 AS n "
        + "UNION ALL "
        + "SELECT n + 1 AS n FROM t WHERE n < ?) "
        + "SELECT " + nextValString + " AS n FROM t"
      else if Db2Family in d.families then
        // as SQL Server, but the anchor row needs a source relation
        "WITH t(n) AS ( "
        + "SELECT 1 AS n "
        + "FROM (VALUES 1) "
        + "UNION ALL "
        + "SELECT n + 1 AS n FROM t WHERE n < ?) "
        + "SELECT " + nextValString + " AS n FROM t"
      else if HsqlFamily in d.families then
        "SELECT " + nextValString + " FROM UNNEST(SEQUENCE_ARRAY(1, ?, 1))"
      else if PostgreSqlFamily in d.families then
        "SELECT " + nextValString + " FROM generate_series(1, ?)"
      else
        "WITH RECURSIVE t(n) AS ("
        + "SELECT 1 "
        + "UNION ALL "
        + "SELECT n + 1"
        + " FROM t "
        + " WHERE n < ?) "
        + "SELECT " + nextValString + " FROM t";
    r
  }

  /** The statement's bind parameters are the template's one placeholder plus
      whatever the next-value expression brings. */
  lemma PlaceholderCount(nextValString: string, d: Dialect)
    ensures Placeholders(BuildSelect(nextValString, d)) == 1 + Placeholders(nextValString)
  {
    var s := SelectStrategy(d);
    TemplatePlaceholders(s);
    PlaceholdersAppend(Prefix(s), nextValString);
    PlaceholdersAppend(Prefix(s) + nextValString, Suffix(s));
  }

  /** With a next-value expression free of `?`, the statement has exactly one
      bind parameter, the one the fetch size is bound to. */
  lemma SinglePlaceholder(nextValString: string, d: Dialect)
    requires '?' !in nextValString
    ensures Placeholders(BuildSelect(nextValString, d)) == 1
  {
    NoPlaceholders(nextValString);
    PlaceholderCount(nextValString, d);
  }

  /** The next-value expression can be read back from the statement at a
      position fixed by the dialect alone. A corollary of `BuildSelect`'s
      contract, spelled out as the splice property. */
  lemma NextValueRecoverable(nextValString: string, d: Dialect)
    ensures var p := |Prefix(SelectStrategy(d))|;
            BuildSelect(nextValString, d)[p..p + |nextValString|] == nextValString
  {
    var s := SelectStrategy(d);
    var p := |Prefix(s)|;
    var r := BuildSelect(nextValString, d);
    assert r == Prefix(s) + nextValString + Suffix(s);
    assert r[p..p + |nextValString|] == nextValString;
  }

  /** A plain PostgreSQL dialect: the sequence call over `generate_series`,
      e.g. `SELECT nextval('seq_xxx') FROM generate_series(1, ?)`. */
  lemma PostgreSqlTemplate(nextValString: string, d: Dialect)
    requires d.families == {PostgreSqlFamily}
    ensures BuildSelect(nextValString, d) == "SELECT " + nextValString + " FROM generate_series(1, ?)"
  {
    assert SelectStrategy(d) == GenerateSeries;
  }
}
