/** Option and Result, the two failure-carrying shapes the model needs:
    `Option` for `StringRecord::get`, `Result` for `str::parse` and for the
    outcome of the whole transform. */
module Results {

  datatype Option<+T> = None | Some(value: T)

  datatype Result<+T, +E> = Ok(value: T) | Err(error: E)
}
