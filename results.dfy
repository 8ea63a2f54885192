/** Success-or-exception outcome, standing for a Python call that either returns or raises. */
module Results {
  datatype Result<+T, +E> = Ok(value: T) | Err(error: E)
}
