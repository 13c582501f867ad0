/** The outcomes a controller action can produce, one constructor per HTTP result the actions use. */
module Actions {

  datatype ActionResult<T> =
    | Ok(value: T)              // 200
    | Created(created: T)       // 201
    | NoContent                 // 204
    | BadRequest(mensaje: string) // 400
    | Forbid                    // 403
    | NotFound                  // 404
    | Conflict(mensaje: string) // 409
    | ServerError               // 500: an exception the action does not catch
}
