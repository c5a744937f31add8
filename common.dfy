/** Failure-carrying results shared by the client modules, and the two host
    exceptions the modelled code can raise. */
module Common {

  datatype Option<+T> = None | Some(value: T)

  datatype Result<+T, +E> = Ok(value: T) | Err(error: E)

  /** Exceptions thrown by the browser built-ins the client calls:
      `atob`/`btoa` raise a DOMException named InvalidCharacterError,
      and the `Int16Array` constructor raises a RangeError when the
      underlying buffer length is not a multiple of the element size;
      `createBuffer` raises a DOMException named NotSupportedError for a
      buffer of zero samples. */
  datatype JsError = InvalidCharacterError | RangeError | NotSupportedError
}
