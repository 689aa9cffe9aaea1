/** Vocabulary shared by every module: optional values, results and HTTP statuses. */
module Common {

  datatype Option<+T> = None | Some(value: T)

  /** The outcome of an operation that can fail with an error value. */
  datatype Result<+T, +E> = Ok(value: T) | Err(error: E)

  /** An HTTP response as the views return it: a status code and its "detail" text. */
  datatype Response = Response(status: int, detail: string)

  const HttpOk := 200
  const HttpCreated := 201
  const HttpBadRequest := 400
  const HttpForbidden := 403
  const HttpNotFound := 404
  /** An exception nobody catches; inside `transaction.atomic` it also rolls the block back. */
  const HttpServerError := 500
}
