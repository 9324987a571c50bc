/** Error taxonomy of the query layer (src/error.rs). */
module Errors {

  /** Errors about queries against the cache's objects. */
  datatype QueryError =
    | ObjectAlreadyExists(name: string)
    | ObjectDoesNotExist(name: string)

  /** Every error the query language can report. */
  datatype QlError =
    | ColumnDoesNotExist(name: string)
    | NoFirstConstraintFoundBeforeAndOr
    | PrimaryKeyAlreadySet
    | QueryError(queryError: QueryError)
    | RequiredFieldIsNone(fieldName: string)
    | VecCannotBeEmpty(vecName: string)

  /** `QlResult<T>`, the source's alias for `Result<T, QlError>`. */
  datatype QlResult<+T> = Ok(value: T) | Err(error: QlError)
}
