/** Value types shared by the limiter model: Rust's `Option` and the
    `anyhow::Result` that a `ResourceLimiter` hook returns. */
module Wrappers {

  datatype Option<+T> = None | Some(value: T)

  /** `anyhow::Result<T>`: a value, or an error that carries a message. */
  datatype Result<+T> = Ok(value: T) | Err(message: string)
}
