/** `BatchSequenceGenerator`: the object Hibernate configures, initializes
    and then asks for one identifier per `generate` call. */
module Generator {
  import opened Failures
  import opened Extraction
  import opened Configuration
  import opened DialectSelect
  import opened Pool
  import opened Replenishment

  /** The member carrying `@BatchSequence`: a field, a getter, or anything else. */
  datatype AnnotatedMember =
    | FieldMember(fieldType: JavaType)
    | MethodMember(returnType: JavaType)
    | OtherMember

  /** `getType`: the field's type or the method's return type. */
  function MemberType(m: AnnotatedMember): (r: Result<JavaType>)
    ensures m.FieldMember? ==> r == Ok(m.fieldType)
    ensures m.MethodMember? ==> r == Ok(m.returnType)
    ensures r.Err? <==> m.OtherMember?
    ensures r.Err? ==> r.error == IllegalArgument
  {
    match m
    case FieldMember(t) => Ok(t)
    case MethodMember(t) => Ok(t)
    case OtherMember => Err(IllegalArgument)
  }

  class BatchSequenceGenerator {
    /** Set by the constructor or by `configure`. */
    var fetchSize: int
    var sequenceName: Option<QualifiedName>
    var identifierExtractor: Option<ExtractorKind>
    /** Set by `initialize`. */
    var select: Option<string>
    var identifierPool: IdentifierPool?

    /** Initialized: `generate` may be called. */
    ghost predicate Ready()
      reads this, identifierPool
    {
      && identifierPool != null && identifierPool.Valid()
      && select.Some? && identifierExtractor.Some?
    }

    /** What `replenishIdentifierPool` reads from the generator. */
    function CurrentSettings(): (s: Settings)
      reads this
      requires select.Some? && identifierExtractor.Some?
      ensures s.fetchSize == fetchSize
      ensures Some(s.extractor) == identifierExtractor && Some(s.select) == select
    {
      Settings(fetchSize, identifierExtractor.value, select.value)
    }

    /** The identifiers the pool still holds, in the order `generate` returns them. */
    ghost function Remaining(): seq<Identifier>
      reads this, identifierPool
      requires Ready()
    {
      identifierPool.Remaining()
    }

    /** The field assignments of the annotation constructor, once none of
        its calls has thrown. */
    constructor (name: QualifiedName, fetchSize: int, extractor: ExtractorKind)
      ensures this.sequenceName == Some(name) && this.fetchSize == fetchSize
      ensures identifierExtractor == Some(extractor)
      ensures select.None? && identifierPool == null
    {
      this.sequenceName := Some(name);
      this.fetchSize := fetchSize;
      this.identifierExtractor := Some(extractor);
      this.select := None;
      this.identifierPool := null;
    }

    /** The constructor taking a `@BatchSequence` annotation, as written: the
        annotation's fetch size is stored without the positivity check that
        `configure` applies. It throws only when the member's type cannot be
        read or has no extractor. */
    static method FromAnnotation(annotation: BatchSequence, member: AnnotatedMember)
      returns (r: Result<BatchSequenceGenerator>)
      ensures r.Err? <==> MemberType(member).Err? || GetIdentifierExtractor(MemberType(member).value).Err?
      ensures MemberType(member).Err? ==> r == Err(IllegalArgument)
      ensures MemberType(member).Ok? && r.Err? ==> r.error == GetIdentifierExtractor(MemberType(member).value).error
      ensures r.Ok? ==> fresh(r.value)
      ensures r.Ok? ==> && r.value.sequenceName == Some(AnnotationSequenceName(annotation))
                        && r.value.fetchSize == annotation.fetchSize
                        && r.value.identifierExtractor == Some(GetIdentifierExtractor(MemberType(member).value).value)
                        && r.value.select.None? && r.value.identifierPool == null
    {
      var name := AnnotationSequenceName(annotation);
      var fetchSize := annotation.fetchSize;
      match MemberType(member)
      case Err(e) => r := Err(e);
      case Ok(t) =>
        match GetIdentifierExtractor(t)
        case Err(e) => r := Err(e);
        case Ok(kind) =>
          var g := new BatchSequenceGenerator(name, fetchSize, kind);
          r := Ok(g);
    }

    /** The annotation constructor with the same fetch-size check as
        `determineFetchSize`: every generator it builds has a positive
        fetch size. */
    static method FromAnnotationValidated(annotation: BatchSequence, member: AnnotatedMember)
      returns (r: Result<BatchSequenceGenerator>)
      ensures r.Err? <==> || ValidateFetchSize(annotation.fetchSize).Err?
                          || MemberType(member).Err?
                          || GetIdentifierExtractor(MemberType(member).value).Err?
      ensures annotation.fetchSize <= 0 ==> r == Err(MappingError(FetchSizeNotPositive))
      ensures r.Ok? ==> fresh(r.value)
      ensures r.Ok? ==> && r.value.sequenceName == Some(AnnotationSequenceName(annotation))
                        && r.value.fetchSize == annotation.fetchSize > 0
                        && r.value.identifierExtractor == Some(GetIdentifierExtractor(MemberType(member).value).value)
                        && r.value.select.None? && r.value.identifierPool == null
    {
      var name := AnnotationSequenceName(annotation);
      match ValidateFetchSize(annotation.fetchSize)
      case Err(e) => r := Err(e);
      case Ok(fetchSize) =>
        match MemberType(member)
        case Err(e) => r := Err(e);
        case Ok(t) =>
          match GetIdentifierExtractor(t)
          case Err(e) => r := Err(e);
          case Ok(kind) =>
            var g := new BatchSequenceGenerator(name, fetchSize, kind);
            r := Ok(g);
    }

    /** `configure`: only a generator without a sequence name reads the
        parameters. Name, fetch size and extractor are assigned in that order,
        so an exception keeps the assignments made before it. */
    method Configure(params: ConfigParams, numberType: JavaType) returns (o: Outcome)
      modifies this
      ensures select == old(select) && identifierPool == old(identifierPool)
      ensures old(sequenceName).Some? ==> o == Pass && unchanged(this)
      ensures old(sequenceName).None? && DetermineSequenceName(params).Err? ==>
        o == Fail(DetermineSequenceName(params).error) && unchanged(this)
      ensures old(sequenceName).None? && DetermineSequenceName(params).Ok? ==>
        sequenceName == Some(DetermineSequenceName(params).value)
      ensures old(sequenceName).None? && DetermineSequenceName(params).Ok? && DetermineFetchSize(params).Err? ==>
        && o == Fail(DetermineFetchSize(params).error)
        && fetchSize == old(fetchSize) && identifierExtractor == old(identifierExtractor)
      ensures old(sequenceName).None? && DetermineSequenceName(params).Ok? && DetermineFetchSize(params).Ok? ==>
        && fetchSize == DetermineFetchSize(params).value > 0
        && (GetIdentifierExtractor(numberType).Err? ==>
              o == Fail(GetIdentifierExtractor(numberType).error) && identifierExtractor == old(identifierExtractor))
        && (GetIdentifierExtractor(numberType).Ok? ==>
              o == Pass && identifierExtractor == Some(GetIdentifierExtractor(numberType).value))
      ensures o == Pass ==> sequenceName.Some?
      ensures old(sequenceName).None? && o == Pass ==> fetchSize > 0 && identifierExtractor.Some?
    {
      if sequenceName.Some? {
        return Pass;
      }
      var name := DetermineSequenceName(params);
      if name.Err? {
        return Fail(name.error);
      }
      sequenceName := Some(name.value);
      var size := DetermineFetchSize(params);
      if size.Err? {
        return Fail(size.error);
      }
      fetchSize := size.value;
      var extractor := GetIdentifierExtractor(numberType);
      if extractor.Err? {
        return Fail(extractor.error);
      }
      identifierExtractor := Some(extractor.value);
      o := Pass;
    }

    /** `initialize`: an empty pool and the dialect's batch SELECT around the
        sequence's next-value expression. */
    method Initialize(dialect: Dialect, nextValString: string)
      requires identifierExtractor.Some?
      modifies this
      ensures Ready() && Remaining() == []
      ensures fresh(identifierPool)
      ensures select == Some(BuildSelect(nextValString, dialect))
      ensures fetchSize == old(fetchSize) && sequenceName == old(sequenceName)
      ensures identifierExtractor == old(identifierExtractor)
    {
      identifierPool := new IdentifierPool.Empty();
      select := Some(BuildSelect(nextValString, dialect));
    }

    /** `replenishIdentifierPool`: allocate the list, run the statement and
        decode its rows front to back, then insist on exactly `fetchSize`
        values. */
    method ReplenishIdentifierPool(fetched: FetchResult) returns (r: Result<IdentifierPool>)
      requires select.Some? && identifierExtractor.Some?
      ensures r.Ok? <==> Replenish(CurrentSettings(), fetched).Ok?
      ensures r.Err? ==> r.error == Replenish(CurrentSettings(), fetched).error
      ensures r.Ok? ==> fresh(r.value) && r.value.Valid()
                        && r.value.Remaining() == Replenish(CurrentSettings(), fetched).value
    {
      var s := CurrentSettings();
      if fetchSize < 0 {
        return Err(IllegalArgument);
      }
      if fetched.StatementFailed? {
        return Err(JdbcFailure(s.select));
      }
      var rows := fetched.rows;
      var identifiers: seq<Identifier> := [];
      var i := 0;
      while i < |rows|
        invariant 0 <= i <= |rows|
        invariant DecodeRows(s.extractor, rows[..i]) == Ok(identifiers)
      {
        match Extract(s.extractor, rows[i])
        case Err(e) =>
          assert DecodeRows(s.extractor, rows[..i + 1]) == Err(e) by {
            assert rows[..i + 1][..i] == rows[..i];
          }
          DecodeRowsFirstError(s.extractor, rows, i + 1);
          return Err(Translate(e, s.select));
        case Ok(v) =>
          assert rows[..i + 1][..i] == rows[..i];
          identifiers := identifiers + [v];
          i := i + 1;
      }
      assert rows[..i] == rows;
      if |identifiers| != fetchSize {
        return Err(GenerationError(CountMismatch(fetchSize, |identifiers|)));
      }
      var pool := new IdentifierPool.ForList(identifiers);
      r := Ok(pool);
    }

    /** `generate`: replenish the pool if it is empty, then hand out its
        front identifier. `fetched` is what the database answers should the
        statement be executed. */
    method Generate(fetched: FetchResult) returns (r: Result<Identifier>)
      requires Ready()
      modifies this, identifierPool
      ensures Ready()
      ensures Served(r, Remaining()) == GenerateStep(old(Remaining()), old(CurrentSettings()), fetched)
      ensures CurrentSettings() == old(CurrentSettings()) && sequenceName == old(sequenceName)
      ensures identifierPool == old(identifierPool) || fresh(identifierPool)
    {
      if identifierPool.IsEmpty() {
        var replenished := ReplenishIdentifierPool(fetched);
        match replenished
        case Err(e) => return Err(e);
        case Ok(p) => identifierPool := p;
      }
      r := identifierPool.Next();
    }
  }
}
