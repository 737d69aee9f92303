/** Values shared by every service of the order-management backend. */
module Common {

  /** Row identifiers (uuid strings in the database) and points in time. */
  type Id = string
  type Timestamp = int

  /** A nullable column or a lookup that may find nothing. */
  datatype Option<+T> = None | Some(value: T) {
    function GetOr(default: T): T {
      match this
      case Some(v) => v
      case None => default
    }
  }

  /** What a service call raises: an HttpException with its status, a plain Error, or a database error passed through. */
  datatype Failure =
    | BadRequest(message: string)
    | NotFound(message: string)
    | Conflict(message: string)
    | InternalServerError(message: string)
    | PlainError(message: string)
    | DatabaseError(message: string)

  /** The outcome of a service call: its value, or what it raised. */
  datatype Result<+T> = Ok(value: T) | Err(failure: Failure)

  /** What PostgreSQL answers to a multi-row INSERT whose VALUES list is empty. */
  const EmptyValuesError := "syntax error at or near \"RETURNING\""

  /** What an external file-storage call (upload or delete) gave back. */
  datatype StorageOutcome = Stored(filename: string) | StorageFailed(failure: Failure)
}
