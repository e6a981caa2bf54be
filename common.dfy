/** Option and Result, and the exceptions the library raises, as values. */
module Common {

  datatype Option<+T> = None | Some(value: T) {
    /** The value, or `default` when there is none (PHP's `??`). */
    function GetOr(default: T): T {
      match this
      case Some(v) => v
      case None => default
    }
  }

  /** Either a value or the exception that ended the operation. */
  datatype Result<+T, +E> = Ok(value: T) | Err(error: E)

  /** One constructor per exception the library throws. */
  datatype Error =
    | InvalidConfig            // Database constructor: config lacks `database` or `currentDatabaseEnv`
    | NeverCreated(slot: int)  // Database::getInstance on a slot nobody registered
    | NoConfig                 // Database::connect without a stored config (LogicException)
    | NotConnected             // Database::getConnection / query while the handle is null
    | DriverError(message: string)  // a PDOException, propagated unchanged
    | FindByIdOnCompositeKey   // findById on a model whose key has several columns (LogicException)
    | DeleteByIdOnCompositeKey // deleteWherePrimary on such a model (LogicException)
    | MultipleKey              // getKey on such a model
}
