/** Optional values and results that carry the source's error returns. */
module Options {
  datatype Option<+T> = None | Some(value: T)

  datatype Error = ErrInsufficientResource | ErrInvalidVolume | ErrInvalidDisk | ErrInvalidStorage | ErrInvalidCapacity

  datatype Result<+T> = Ok(value: T) | Err(error: Error)
}
