/** Decoding of one fetched sequence value into the identifier field's type:
    the `IdentifierExtractor` enum and its type dispatch. */
module Extraction {
  import opened Failures

  /** A java.math.BigDecimal: the number `unscaled * 10^(-scale)`. */
  datatype Decimal = Decimal(unscaled: int, scale: int)

  /** The declared Java type of the identifier field. */
  datatype JavaType =
    | IntegerClass | IntPrimitive       // java.lang.Integer, int
    | LongClass | LongPrimitive         // java.lang.Long, long
    | BigIntegerClass                   // java.math.BigInteger
    | BigDecimalClass                   // java.math.BigDecimal
    | OtherClass(className: string)     // anything else

  /** The four constants of the closed `IdentifierExtractor` enum. */
  datatype ExtractorKind =
    | IntegerExtractor
    | LongExtractor
    | BigIntegerExtractor
    | BigDecimalExtractor

  /** An identifier handed out by the generator, tagged with its Java type. */
  datatype Identifier =
    | IntegerId(intValue: int)
    | LongId(longValue: int)
    | BigIntegerId(bigValue: int)
    | BigDecimalId(decimal: Decimal)

  const IntMin: int := -0x8000_0000
  const IntMax: int := 0x7fff_ffff
  const LongMin: int := -0x8000_0000_0000_0000
  const LongMax: int := 0x7fff_ffff_ffff_ffff

  function Pow10(n: nat): (p: nat)
    ensures p >= 1
  {
    if n == 0 then 1 else 10 * Pow10(n - 1)
  }

  /** `setScale(0, ROUND_UNNECESSARY)` succeeds exactly when no non-zero
      digit would be dropped. */
  predicate IsIntegral(d: Decimal)
  {
    d.scale <= 0 || d.unscaled % Pow10(d.scale) == 0
  }

  /** The decimal denotes exactly the integer `n`. */
  ghost predicate Denotes(d: Decimal, n: int)
  {
    if d.scale <= 0 then n == d.unscaled * Pow10(-d.scale)
    else n * Pow10(d.scale) == d.unscaled
  }

  /** `bigDecimal.setScale(0, ROUND_UNNECESSARY).toBigInteger()` on an
      integral decimal: its exact integer value. */
  function IntegralValue(d: Decimal): (n: int)
    requires IsIntegral(d)
    ensures Denotes(d, n)
  {
    if d.scale <= 0 then d.unscaled * Pow10(-d.scale)
    else
      var p := Pow10(d.scale);
      assert d.unscaled == p * (d.unscaled / p) + d.unscaled % p;
      d.unscaled / p
  }

  /** A positive number times a positive factor is at least the number. */
  lemma {:induction false} MulAtLeast(p: int, m: int)
    requires p >= 1 && m >= 1
    ensures p * m >= p
    decreases m
  {
    if m > 1 {
      MulAtLeast(p, m - 1);
      assert p * m == p * (m - 1) + p;
    }
  }

  /** A multiple of `p` that lies in `[0, p)` is zero times `p`. */
  lemma SmallMultipleIsZero(p: int, m: int)
    requires p >= 1 && 0 <= p * m < p
    ensures m == 0
  {
    if m >= 1 {
      MulAtLeast(p, m);
    } else if m <= -1 {
      MulAtLeast(p, -m);
    }
  }

  /** Euclidean division leaves no remainder on a multiple of the divisor. */
  lemma MultipleHasNoRemainder(n: int, p: int)
    requires p >= 1
    ensures (n * p) % p == 0
  {
    var q, r := (n * p) / p, (n * p) % p;
    assert n * p == p * q + r && 0 <= r < p;
    assert p * (n - q) == n * p - p * q;
    SmallMultipleIsZero(p, n - q);
  }

  /** A decimal denotes some integer exactly when it passes the
      `ROUND_UNNECESSARY` check: the extractor never rounds. */
  lemma IntegralIffDenotes(d: Decimal, n: int)
    ensures Denotes(d, n) ==> IsIntegral(d)
    ensures IsIntegral(d) ==> Denotes(d, IntegralValue(d))
  {
    if Denotes(d, n) && d.scale > 0 {
      MultipleHasNoRemainder(n, Pow10(d.scale));
    }
  }

  /** `IdentifierExtractor.getIdentifierExtractor`: dispatch on the field's
      declared type; any other type is an unsupported integral type. */
  function GetIdentifierExtractor(t: JavaType): (r: Result<ExtractorKind>)
    ensures r == Ok(IntegerExtractor) <==> t == IntegerClass || t == IntPrimitive
    ensures r == Ok(LongExtractor) <==> t == LongClass || t == LongPrimitive
    ensures r == Ok(BigIntegerExtractor) <==> t == BigIntegerClass
    ensures r == Ok(BigDecimalExtractor) <==> t == BigDecimalClass
    ensures r.Err? <==> t.OtherClass?
    ensures t.OtherClass? ==> r == Err(GenerationError(UnsupportedIntegralType(t.className)))
  {
    if t == IntegerClass || t == IntPrimitive then Ok(IntegerExtractor)
    else if t == LongClass || t == LongPrimitive then Ok(LongExtractor)
    else if t == BigIntegerClass then Ok(BigIntegerExtractor)
    else if t == BigDecimalClass then Ok(BigDecimalExtractor)
    else Err(GenerationError(UnsupportedIntegralType(t.className)))
  }

  /** The identifier is a value of the field's declared type, and it stands
      for exactly the number the column held. */
  ghost predicate Represents(t: JavaType, v: Identifier, d: Decimal)
  {
    match v
    case IntegerId(n) => (t == IntegerClass || t == IntPrimitive) && Denotes(d, n) && IntMin <= n <= IntMax
    case LongId(n) => (t == LongClass || t == LongPrimitive) && Denotes(d, n) && LongMin <= n <= LongMax
    case BigIntegerId(n) => t == BigIntegerClass && Denotes(d, n)
    case BigDecimalId(e) => t == BigDecimalClass && e == d
  }

  /** `resultSet.getInt(1)` / `getLong(1)` on a non-null column whose value
      fits the requested width; anything else is a driver SQLException. */
  function ReadIntegral(d: Decimal, lo: int, hi: int): (r: Result<int>)
    ensures r.Ok? <==> IsIntegral(d) && lo <= IntegralValue(d) <= hi
    ensures r.Ok? ==> Denotes(d, r.value) && lo <= r.value <= hi
    ensures r.Err? ==> r.error == SqlException
  {
    if IsIntegral(d) && lo <= IntegralValue(d) <= hi then Ok(IntegralValue(d)) else Err(SqlException)
  }

  /** `extractIdentifier(resultSet)` for one row, whose first column is
      `None` when it was SQL NULL. */
  function Extract(kind: ExtractorKind, column: Option<Decimal>): (r: Result<Identifier>)
    ensures column.None? ==> r == Err(GenerationError(SequenceReturnedNull))
    ensures kind == IntegerExtractor && column.Some? ==>
      && (r.Ok? <==> ReadIntegral(column.value, IntMin, IntMax).Ok?)
      && (r.Ok? ==> r.value == IntegerId(ReadIntegral(column.value, IntMin, IntMax).value))
      && (r.Err? ==> r.error == SqlException)
    ensures kind == LongExtractor && column.Some? ==>
      && (r.Ok? <==> ReadIntegral(column.value, LongMin, LongMax).Ok?)
      && (r.Ok? ==> r.value == LongId(ReadIntegral(column.value, LongMin, LongMax).value))
      && (r.Err? ==> r.error == SqlException)
    ensures kind == BigIntegerExtractor && column.Some? ==>
      (r.Ok? <==> IsIntegral(column.value)) && (r.Err? ==> r.error == ArithmeticFailure)
    ensures kind == BigDecimalExtractor && column.Some? ==> r == Ok(BigDecimalId(column.value))
    ensures r.Err? ==> r.error in {GenerationError(SequenceReturnedNull), SqlException, ArithmeticFailure}
  {
    match column
    case None => Err(GenerationError(SequenceReturnedNull))
    case Some(d) =>
      match kind
      case IntegerExtractor =>
        (match ReadIntegral(d, IntMin, IntMax)
         case Ok(n) => Ok(IntegerId(n))
         case Err(e) => Err(e))
      case LongExtractor =>
        (match ReadIntegral(d, LongMin, LongMax)
         case Ok(n) => Ok(LongId(n))
         case Err(e) => Err(e))
      case BigIntegerExtractor =>
        if IsIntegral(d) then Ok(BigIntegerId(IntegralValue(d))) else Err(ArithmeticFailure)
      case BigDecimalExtractor => Ok(BigDecimalId(d))
  }

  /** Whatever the extractor chosen for a field's type decodes is a value of
      that type equal to the column's number. */
  lemma ExtractedMatchesDeclaredType(t: JavaType, column: Option<Decimal>)
    requires GetIdentifierExtractor(t).Ok?
    requires Extract(GetIdentifierExtractor(t).value, column).Ok?
    ensures column.Some?
    ensures Represents(t, Extract(GetIdentifierExtractor(t).value, column).value, column.value)
  {
  }
}
