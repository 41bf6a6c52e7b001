/** HTTP status codes used by the handlers, and the shape of a handler's reply:
    a status with either a payload or the `{"error": ...}` message. */
module Http {

  const StatusOK := 200
  const StatusCreated := 201
  const StatusBadRequest := 400
  const StatusUnauthorized := 401
  const StatusNotFound := 404
  const StatusInternalServerError := 500

  datatype Reply<+T> = Ok(status: int, value: T) | Error(status: int, message: string)
}
