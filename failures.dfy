/** The exceptions the batch sequence generator can raise, and the
    Result/Outcome wrappers that carry them instead of Java's `throw`. */
module Failures {

  /** Why a configuration was refused (Hibernate's MappingException). */
  datatype MappingReason =
    | NoSequenceName        // "no squence name specified"
    | FetchSizeNotPositive  // "fetch size must be positive"

  /** Why an identifier could not be produced (IdentifierGenerationException). */
  datatype GenerationReason =
    | SequenceReturnedNull                           // a fetched column was SQL NULL
    | UnsupportedIntegralType(className: string)     // no extractor for the field's type
    | CountMismatch(expected: int, actual: int)      // "expected N values from S but got M"

  datatype Failure =
    | MappingError(mapping: MappingReason)
    | GenerationError(generation: GenerationReason)
      /** A java.sql.SQLException raised by the driver, before it is translated. */
    | SqlException
      /** An SQLException translated by the host, carrying the statement that failed. */
    | JdbcFailure(statement: string)
      /** ArithmeticException from BigDecimal.setScale(0, ROUND_UNNECESSARY). */
    | ArithmeticFailure
      /** IllegalArgumentException from `new ArrayList<>(capacity)` with a negative capacity. */
    | IllegalArgument
      /** NoSuchElementException from Iterator.next() on an exhausted iterator. */
    | NoSuchElement

  datatype Option<+T> = None | Some(value: T)

  datatype Result<+T> = Ok(value: T) | Err(error: Failure)

  datatype Outcome = Pass | Fail(error: Failure)
}
