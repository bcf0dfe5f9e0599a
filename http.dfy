/**
 * The outcome of a request handler: the HTTP status the handler replies with and
 * either the record it returns or the `{message}` body of an error reply.
 */
module Http {
  const OkStatus := 200
  const CreatedStatus := 201
  const BadRequestStatus := 400
  const NotFoundStatus := 404

  datatype Reply<T> =
    | Success(status: nat, value: T)
    | Failure(status: nat, message: string)
}
