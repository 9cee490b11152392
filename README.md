# Batch sequence generator: a verified model

This project models the Hibernate identifier generator `BatchSequenceGenerator`
from hypersistence-utils (the Hibernate 7.0 module). The generator does not ask
the database for one sequence value per new entity. It runs a single
dialect-specific statement that returns `fetchSize` sequence values at once,
keeps them in an in-memory `IdentifierPool`, and hands them out one per
`generate` call. It goes back to the database only when the pool is empty.

The model has seven modules:

- `Failures` (failures.dfy): the exceptions the generator throws, carried as
  `Result`/`Outcome` values. It covers `MappingException`,
  `IdentifierGenerationException`, a raw and a translated `SQLException`,
  `ArithmeticException`, `IllegalArgumentException` and
  `NoSuchElementException`.
- `DialectSelect` (dialect_select.dfy): `buildSelect`. It picks one template
  per dialect family, in Oracle, SQL Server, DB2, HSQLDB, PostgreSQL order,
  with `WITH RECURSIVE` as the default. Lemmas cover the statement's
  placeholder count and where the next-value expression sits in it.
- `Extraction` (extraction.dfy): the `IdentifierExtractor` enum.
  - A column value is a `java.math.BigDecimal`, modelled as unscaled value
    and scale, or `None` for SQL NULL.
  - The exactness of `setScale(0, ROUND_UNNECESSARY)` is proved.
  - So is the fact that every decoded identifier is a value of the field's
    declared type.
- `Configuration` (configuration.dfy): `determineSequenceName` (both
  overloads), `determineFetchSize` and `DEFAULT_FETCH_SIZE`.
- `Pool` (identifier_pool.dfy): `IdentifierPool` as a class with a cursor over
  its list.
- `Replenishment` (replenishment.dfy): `replenishIdentifierPool` and
  `generate` as functions of the pool's contents.
  - The database's answer to the batch statement is a parameter.
  - Lemmas cover a run of many `generate` calls: the order identifiers are
    handed out in, and how many statement executions the run needs.
- `Generator` (generator.dfy): the `BatchSequenceGenerator` class itself.
  - Its fields are updated in place.
  - It has the annotation constructor, `configure`, `initialize`,
    `replenishIdentifierPool` (with its row loop) and `generate`.
  - Each method is proved against the functions above.

## Model

| member | source | states |
|---|---|---|
| DialectSelect.SelectStrategy | hypersistence-utils-hibernate-70/src/main/java/io/hypersistence/utils/hibernate/id/BatchSequenceGenerator.java:242-272 | The dialect tests run in a fixed order and the first match wins. Each template is chosen exactly when the dialect is in that family and in none tested before it. The `WITH RECURSIVE` default applies exactly when the dialect is in none of the five families. |
| DialectSelect.BuildSelect | hypersistence-utils-hibernate-70/src/main/java/io/hypersistence/utils/hibernate/id/BatchSequenceGenerator.java:241-279 | The statement is the chosen template's text before the next-value expression, then the expression itself unchanged, then the template's text after it. |
| DialectSelect.PlaceholderCount | hypersistence-utils-hibernate-70/src/main/java/io/hypersistence/utils/hibernate/id/BatchSequenceGenerator.java:243-278 | For every dialect, the statement has exactly one `?` more than the next-value expression. |
| DialectSelect.SinglePlaceholder | hypersistence-utils-hibernate-70/src/main/java/io/hypersistence/utils/hibernate/id/BatchSequenceGenerator.java:243-278 | When the next-value expression has no `?`, the statement has exactly one, the one `setInt(1, fetchSize)` binds. |
| DialectSelect.NextValueRecoverable | hypersistence-utils-hibernate-70/src/main/java/io/hypersistence/utils/hibernate/id/BatchSequenceGenerator.java:243-278 | The next-value expression occurs whole in the statement, at an offset that depends on the dialect alone. |
| DialectSelect.PostgreSqlTemplate | hypersistence-utils-hibernate-70/src/main/java/io/hypersistence/utils/hibernate/id/BatchSequenceGenerator.java:269-271 | A dialect that is only a PostgreSQL dialect gives exactly `SELECT ` + the next-value expression + ` FROM generate_series(1, ?)`. |
| Extraction.IntegralValue | hypersistence-utils-hibernate-70/src/main/java/io/hypersistence/utils/hibernate/id/BatchSequenceGenerator.java:470 | On a decimal with no non-zero fractional digits (5.00 counts), the integer it returns denotes exactly the decimal's number. |
| Extraction.IntegralIffDenotes | hypersistence-utils-hibernate-70/src/main/java/io/hypersistence/utils/hibernate/id/BatchSequenceGenerator.java:470 | `ROUND_UNNECESSARY` succeeds exactly on the decimals that equal some integer, and then gives that integer, so nothing is rounded. |
| Extraction.GetIdentifierExtractor | hypersistence-utils-hibernate-70/src/main/java/io/hypersistence/utils/hibernate/id/BatchSequenceGenerator.java:487-501 | Integer/int map to the INTEGER extractor, Long/long to LONG, BigInteger to BIG_INTEGER and BigDecimal to BIG_DECIMAL, each as an if-and-only-if. Any other type fails with "unsupported integral type" naming the class. |
| Extraction.ReadIntegral | hypersistence-utils-hibernate-70/src/main/java/io/hypersistence/utils/hibernate/id/BatchSequenceGenerator.java:443-460 | `getInt`/`getLong` succeed exactly on an integral value within the width's range, returning that value. Otherwise the driver throws an SQLException. |
| Extraction.Extract | hypersistence-utils-hibernate-70/src/main/java/io/hypersistence/utils/hibernate/id/BatchSequenceGenerator.java:441-483 | Every extractor refuses SQL NULL with "sequence returned null". INTEGER and LONG succeed exactly when `getInt`/`getLong` do, with the value read; otherwise they fail with the driver's SQLException. BIG_INTEGER fails with ArithmeticException exactly on a non-integral value. BIG_DECIMAL returns the column unchanged. The only other error is the driver's SQLException. |
| Extraction.ExtractedMatchesDeclaredType | hypersistence-utils-hibernate-70/src/main/java/io/hypersistence/utils/hibernate/id/BatchSequenceGenerator.java:439-501 | A value decoded by the extractor chosen for a field's type is a value of that type (in the int or long range for those widths) and stands for exactly the column's number. |
| Configuration.QualifySequenceName | hypersistence-utils-hibernate-70/src/main/java/io/hypersistence/utils/hibernate/id/BatchSequenceGenerator.java:297-313 | A missing name fails with "no squence name specified". A name with a dot is parsed whole. Any other name is qualified by the catalog and schema given. |
| Configuration.QualifiedNameKeepsName | hypersistence-utils-hibernate-70/src/main/java/io/hypersistence/utils/hibernate/id/BatchSequenceGenerator.java:305-313 | Qualification keeps the name. The catalog and schema have no effect on a dotted name. On an undotted name, two qualifications agree exactly when their catalogs and schemas agree. |
| Configuration.DetermineSequenceName | hypersistence-utils-hibernate-70/src/main/java/io/hypersistence/utils/hibernate/id/BatchSequenceGenerator.java:295-314 | Fails exactly when the `sequence` parameter is absent. Otherwise the result carries that name. |
| Configuration.AnnotationSequenceName | hypersistence-utils-hibernate-70/src/main/java/io/hypersistence/utils/hibernate/id/BatchSequenceGenerator.java:316-335 | The annotation overload never fails. It keeps the annotation's name and qualifies an undotted one by the annotation's catalog and schema. |
| Configuration.ValidateFetchSize | hypersistence-utils-hibernate-70/src/main/java/io/hypersistence/utils/hibernate/id/BatchSequenceGenerator.java:339-342 | Accepts exactly the positive fetch sizes, unchanged. Anything else fails with "fetch size must be positive". |
| Configuration.DetermineFetchSize | hypersistence-utils-hibernate-70/src/main/java/io/hypersistence/utils/hibernate/id/BatchSequenceGenerator.java:337-343 | An absent parameter gives `DEFAULT_FETCH_SIZE` (10). A given value goes through the positivity check. Every accepted size is positive. |
| Pool.IdentifierPool.ForList | hypersistence-utils-hibernate-70/src/main/java/io/hypersistence/utils/hibernate/id/BatchSequenceGenerator.java:412-418 | A new pool holds exactly the given identifiers, in list order. |
| Pool.IdentifierPool.Empty | hypersistence-utils-hibernate-70/src/main/java/io/hypersistence/utils/hibernate/id/BatchSequenceGenerator.java:420-422 | A new empty pool holds nothing. |
| Pool.IdentifierPool.IsEmpty | hypersistence-utils-hibernate-70/src/main/java/io/hypersistence/utils/hibernate/id/BatchSequenceGenerator.java:424-426 | True exactly when no identifier remains. |
| Pool.IdentifierPool.Next | hypersistence-utils-hibernate-70/src/main/java/io/hypersistence/utils/hibernate/id/BatchSequenceGenerator.java:428-430 | Returns and removes the front identifier. The rest stay in order. An exhausted pool throws NoSuchElementException and stays empty. |
| Replenishment.DecodeRows | hypersistence-utils-hibernate-70/src/main/java/io/hypersistence/utils/hibernate/id/BatchSequenceGenerator.java:385-387 | Decoding succeeds exactly when every row decodes, giving one identifier per row in row order. A failure is the error of the first row that fails, and every earlier row decoded. |
| Replenishment.DecodeRowsFirstError | hypersistence-utils-hibernate-70/src/main/java/io/hypersistence/utils/hibernate/id/BatchSequenceGenerator.java:385-387 | Once a prefix of the rows fails, the later rows never change the outcome. The loop stops at the first exception. |
| Replenishment.Translate | hypersistence-utils-hibernate-70/src/main/java/io/hypersistence/utils/hibernate/id/BatchSequenceGenerator.java:389-392 | An SQLException becomes the host's converted exception carrying the statement. Any other exception passes through unchanged. No raw SQLException comes out. |
| Replenishment.Replenish | hypersistence-utils-hibernate-70/src/main/java/io/hypersistence/utils/hibernate/id/BatchSequenceGenerator.java:377-398 | Succeeds exactly when the fetch size is not negative, the statement runs, every row decodes and there are exactly `fetchSize` rows. It then gives those rows' identifiers in order. A negative size fails on the list allocation. A statement failure becomes the translated exception. A row that fails to decode makes the batch fail with that row's error, translated: NULL and ArithmeticException pass through, and an SQLException from `getInt`/`getLong` becomes the converted exception carrying the statement. A fully decoded batch of the wrong size fails with the expected and actual counts. No raw SQLException escapes. |
| Replenishment.NullRowRejectsBatch | hypersistence-utils-hibernate-70/src/main/java/io/hypersistence/utils/hibernate/id/BatchSequenceGenerator.java:385-387 | Any NULL row makes the whole batch fail, whatever its size. When every row before it decoded, the error is "sequence returned null". |
| Replenishment.GenerateStep | hypersistence-utils-hibernate-70/src/main/java/io/hypersistence/utils/hibernate/id/BatchSequenceGenerator.java:356-366 | A non-empty pool is popped without touching the database. Any failure leaves the pool as it was. From an empty pool the call succeeds exactly when replenishment succeeds with a positive fetch size. The value returned followed by the pool left is exactly the fetched batch. A failed replenish makes the call fail with exactly its error (count mismatch, NULL row, conversion failure, translated SQLException, or IllegalArgumentException). An empty batch makes the `next()` that follows throw NoSuchElementException. |
| Replenishment.Serve | hypersistence-utils-hibernate-70/src/main/java/io/hypersistence/utils/hibernate/id/BatchSequenceGenerator.java:356-366 | `n` successive calls give `n` results and never undo a statement execution. |
| Replenishment.TripsNeededIsCeiling | hypersistence-utils-hibernate-70/src/main/java/io/hypersistence/utils/hibernate/id/BatchSequenceGenerator.java:359-362 | The number of executions a run needs is the shortfall divided by the fetch size, rounded up: the fewest batches that cover it. |
| Replenishment.ServeInOrder | hypersistence-utils-hibernate-70/src/main/java/io/hypersistence/utils/hibernate/id/BatchSequenceGenerator.java:355-398 | The setting: a positive fetch size, and every execution answered with a valid batch. Then `n` calls return the pool's identifiers and then each batch's identifiers in row order, none skipped or repeated. They execute the statement exactly as many times as the shortfall needs, rounded up. The pool is left with the rest of the last batch. |
| Replenishment.NonPositiveFetchSizeNeverServes | hypersistence-utils-hibernate-70/src/main/java/io/hypersistence/utils/hibernate/id/BatchSequenceGenerator.java:377-398 | With a fetch size of zero or less, a call on an empty pool never returns an identifier. A negative size throws IllegalArgumentException. A zero size with an empty result throws NoSuchElementException. |
| Generator.MemberType | hypersistence-utils-hibernate-70/src/main/java/io/hypersistence/utils/hibernate/id/BatchSequenceGenerator.java:216-224 | A field gives its type and a method its return type. Any other member throws IllegalArgumentException. |
| Generator.BatchSequenceGenerator.constructor | hypersistence-utils-hibernate-70/src/main/java/io/hypersistence/utils/hibernate/id/BatchSequenceGenerator.java:186-196 | Sets name, fetch size and extractor. The generator is not yet initialized. |
| Generator.BatchSequenceGenerator.FromAnnotation | hypersistence-utils-hibernate-70/src/main/java/io/hypersistence/utils/hibernate/id/BatchSequenceGenerator.java:186-196 | As written: construction fails exactly when the member's type cannot be read or has no extractor. Otherwise the new generator has the annotation's qualified name, the matching extractor, and the annotation's fetch size unchecked. |
| Generator.BatchSequenceGenerator.FromAnnotationValidated | hypersistence-utils-hibernate-70/src/main/java/io/hypersistence/utils/hibernate/id/BatchSequenceGenerator.java:186-196 | Corrected: the same construction, which also refuses a fetch size of zero or less with "fetch size must be positive". Every generator it builds has a positive fetch size. |
| Generator.BatchSequenceGenerator.Configure | hypersistence-utils-hibernate-70/src/main/java/io/hypersistence/utils/hibernate/id/BatchSequenceGenerator.java:199-214 | A generator that already has a name is left entirely unchanged. Otherwise name, fetch size and extractor are set in that order. Each is set exactly when every step before it succeeded, and the first failure is the outcome. A full success leaves a positive fetch size and an extractor. The statement and pool are never touched. |
| Generator.BatchSequenceGenerator.Initialize | hypersistence-utils-hibernate-70/src/main/java/io/hypersistence/utils/hibernate/id/BatchSequenceGenerator.java:226-239 | The pool is a new empty pool, so the first `generate` always fetches. The statement is the dialect's batch SELECT around the next-value expression. The configuration is unchanged. |
| Generator.BatchSequenceGenerator.ReplenishIdentifierPool | hypersistence-utils-hibernate-70/src/main/java/io/hypersistence/utils/hibernate/id/BatchSequenceGenerator.java:377-398 | The row loop succeeds exactly when `Replenish` does, and fails with the same exception. On success it gives a new pool holding exactly `Replenish`'s identifiers. |
| Generator.BatchSequenceGenerator.Generate | hypersistence-utils-hibernate-70/src/main/java/io/hypersistence/utils/hibernate/id/BatchSequenceGenerator.java:355-366 | The result and the pool left afterwards are exactly those of `GenerateStep` on the pool and settings before the call. The generator stays initialized. Its configuration is unchanged. The pool afterwards is either the same object or a newly allocated one, so a caller can call `generate` again. |

## Left out

- The `ReentrantLock` around `generate` is not modelled. `Generate` is one atomic method; concurrent callers are outside the model.
- JDBC I/O is a parameter. That covers `JdbcCoordinator`, `PreparedStatement`, `ResultSet`, `setFetchSize`/`setInt` and the host's `SqlExceptionHelper.convert`. The database's answer to one execution is a `FetchResult`: the first column of every row, or a failure of preparing or executing the statement. A run of calls takes one answer per execution (`db`).
- An SQLException raised by `ResultSet.next()` part-way through the rows is not modelled. A statement fails either before any row is read or not at all.
- The dialect's next-value expression is a parameter of `Initialize`, taken as given. It comes from `getSequenceSupport().getSelectSequenceNextValString(context.format(name))`.
- `QualifiedNameParser.parse` is not modelled, and neither is `IdentifierHelper.toIdentifier` (quoting and normalisation). A dotted name is kept as text and an undotted one as its parts.
- `ConfigurationHelper.getInt` is not modelled: the `fetch_size` parameter arrives already as an `int`, or absent.
- `SequenceStructure` is not modelled: its creation, `initialize`, `registerExportables` and `getSequenceName`. The count-mismatch error carries the counts but not the sequence's physical name.
- Also left out: `determineBulkInsertionIdentifierGenerationSelectFragment`, `supportsBulkInsertionIdentifierGeneration`, `getOptimizer` and `toString`. They have no logic beyond delegation or constants.
- Extraction.ReadIntegral: `getInt`/`getLong` on a value with a fractional part or outside the width are driver-specific. Some drivers truncate or wrap instead of throwing. The model takes the throwing behaviour.
- Reflection in `getType` is reduced to the member's declared type, given as data.
- The JSON type descriptor and the JSON map test in the same repository are outside this model.
- `configure` reads the parameters only when the name is unset. The annotation constructor always sets the name, so with the constructor shown that branch is not reached. `Configure` still specifies both branches, and what a second call does after a partial failure.
- Error messages are kept as error kinds, not message strings. The one exception is the unsupported type's class name.
- DialectSelect.NextValueRecoverable: the next-value expression is shown to sit once at a fixed, dialect-dependent offset. It does not claim the expression occurs only once as a substring, which is false for an expression such as `t`, part of every CTE template.

Points where the code is narrower than its documentation, or than what a
reader might assume; the model follows the code:

- The class Javadoc gives a Firebird template, but `buildSelect` has no Firebird branch. A Firebird dialect gets the `WITH RECURSIVE` default.
- Only a `null` sequence name is refused (BatchSequenceGenerator.java line 298, and line 319 for the annotation), so an empty name passes that check. What `toIdentifier` and `NameParts` then make of an empty string is outside the model.
- With a fetch size of 0, a zero-row batch passes the count check (lines 393-397) and gives an empty pool, so the `next()` that follows throws (see Findings).

## Findings

| source | as written | input that shows it | evidently intended | confidence | as-written member | corrected member |
|---|---|---|---|---|---|---|
| hypersistence-utils-hibernate-70/src/main/java/io/hypersistence/utils/hibernate/id/BatchSequenceGenerator.java:191 | The annotation constructor stores `annotation.fetchSize()` without the positivity check `determineFetchSize` applies to the `fetch_size` parameter. | `@BatchSequence(fetchSize = 0)`: construction succeeds. A zero-row batch then passes the count check and the next `generate` throws NoSuchElementException, as every later one does. A negative size makes every `generate` throw IllegalArgumentException. | Refuse a fetch size of zero or less with "fetch size must be positive" when the generator is built, as for the parameter. | medium, not executed | Generator.BatchSequenceGenerator.FromAnnotation, Replenishment.NonPositiveFetchSizeNeverServes | Generator.BatchSequenceGenerator.FromAnnotationValidated, Replenishment.ServeInOrder |
