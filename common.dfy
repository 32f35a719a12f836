/** Optional values and outcomes used across the model: `Option` stands for a
    value that may be `null`/`undefined`, `Result` for a call that either
    returns or throws an error carrying a message. */
module Common {

  datatype Option<+T> = None | Some(value: T)

  datatype Result<+T> = Ok(value: T) | Err(message: string)
}
