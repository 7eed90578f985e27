/** Values shared by every part of the runtime model: optional values, the
    result of an operation, and the error kinds the runtime reports. */
module Types {

  datatype Option<+T> = None | Some(value: T)

  /** The kinds of error the runtime reports.
      - ArgumentEmpty: a name or id was empty or only whitespace.
      - Argument: a module spec of a type other than the docker module type.
      - Docker: an error reported by the engine, surfaced unchanged. */
  datatype Error =
    | ArgumentEmpty(argument: string)
    | Argument(argument: string)
    | Docker(message: string)

  datatype Result<+T> = Ok(value: T) | Err(error: Error)
}
