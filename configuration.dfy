/** The generator's configuration: which sequence to read from and how many
    values to fetch per round trip. */
module Configuration {
  import opened Failures

  /** DEFAULT_FETCH_SIZE. */
  const DefaultFetchSize: int := 10

  /** The sequence's name. A name that already contains a dot is handed whole
      to Hibernate's qualified-name parser (not modelled, so kept as text);
      otherwise it is qualified by the configured catalog and schema. */
  datatype QualifiedName =
    | ParsedName(text: string)
    | NameParts(catalog: Option<string>, schema: Option<string>, objectName: string)

  /** The generator parameters read by `configure`: the `sequence`,
      `catalog`, `schema` and `fetch_size` properties, `None` when absent.
      `fetch_size` is taken as already converted to an int. */
  datatype ConfigParams = ConfigParams(
    sequence: Option<string>,
    catalog: Option<string>,
    schema: Option<string>,
    fetchSize: Option<int>)

  /** The attributes of a `@BatchSequence` annotation. */
  datatype BatchSequence = BatchSequence(name: string, catalog: string, schema: string, fetchSize: int)

  /** The shared logic of both `determineSequenceName` overloads. */
  function QualifySequenceName(name: Option<string>, catalog: Option<string>, schema: Option<string>)
    : (r: Result<QualifiedName>)
    ensures r.Err? <==> name.None?
    ensures r.Err? ==> r.error == MappingError(NoSequenceName)
    ensures r.Ok? && '.' in name.value ==> r.value == ParsedName(name.value)
    ensures r.Ok? && '.' !in name.value ==> r.value == NameParts(catalog, schema, name.value)
  {
    match name
    case None => Err(MappingError(NoSequenceName))
    case Some(n) =>
      if '.' in n then Ok(ParsedName(n)) else Ok(NameParts(catalog, schema, n))
  }

  /** The configured name is kept in full, whichever form it takes. */
  function NameText(q: QualifiedName): string
  {
    match q
    case ParsedName(text) => text
    case NameParts(_, _, objectName) => objectName
  }

  /** A dotted name is already qualified: the catalog and schema parameters
      have no effect on it. Any name survives qualification unchanged.
      A corollary of `QualifySequenceName`'s contract. The if-and-only-if on
      catalog and schema holds because `toIdentifier`'s normalisation is not
      modelled: two spellings it would identify count as different here. */
  lemma QualifiedNameKeepsName(name: string, c1: Option<string>, s1: Option<string>,
                               c2: Option<string>, s2: Option<string>)
    ensures NameText(QualifySequenceName(Some(name), c1, s1).value) == name
    ensures '.' in name ==> QualifySequenceName(Some(name), c1, s1) == QualifySequenceName(Some(name), c2, s2)
    ensures '.' !in name ==> (QualifySequenceName(Some(name), c1, s1) == QualifySequenceName(Some(name), c2, s2)
                              <==> c1 == c2 && s1 == s2)
  {
  }

  /** `determineSequenceName(Properties, JdbcEnvironment)`. */
  function DetermineSequenceName(params: ConfigParams): (r: Result<QualifiedName>)
    ensures r.Err? <==> params.sequence.None?
    ensures r.Ok? ==> NameText(r.value) == params.sequence.value
  {
    QualifySequenceName(params.sequence, params.catalog, params.schema)
  }

  /** `determineSequenceName(BatchSequence, JdbcEnvironment)`: an annotation
      attribute is never null, so this overload always succeeds. */
  function AnnotationSequenceName(a: BatchSequence): (q: QualifiedName)
    ensures NameText(q) == a.name
    ensures '.' !in a.name ==> q == NameParts(Some(a.catalog), Some(a.schema), a.name)
  {
    // an empty catalog or schema stays Some(""): what `toIdentifier` makes
    // of it is not modelled
    QualifySequenceName(Some(a.name), Some(a.catalog), Some(a.schema)).value
  }

  /** The positivity check of `determineFetchSize`. */
  function ValidateFetchSize(n: int): (r: Result<int>)
    ensures r.Ok? <==> n > 0
    ensures r.Ok? ==> r.value == n
    ensures r.Err? ==> r.error == MappingError(FetchSizeNotPositive)
  {
    if n <= 0 then Err(MappingError(FetchSizeNotPositive)) else Ok(n)
  }

  /** `determineFetchSize`: the `fetch_size` parameter, 10 when absent,
      refused unless positive. */
  function DetermineFetchSize(params: ConfigParams): (r: Result<int>)
    ensures params.fetchSize.None? ==> r == Ok(DefaultFetchSize)
    ensures params.fetchSize.Some? ==> r == ValidateFetchSize(params.fetchSize.value)
    ensures r.Ok? ==> r.value > 0
  {
    var n := match params.fetchSize case None => DefaultFetchSize case Some(v) => v;
    ValidateFetchSize(n)
  }
}
