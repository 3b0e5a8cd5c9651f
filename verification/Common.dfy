/** Result types, errors and value types shared by every component. */
module Common {

  datatype Option<+T> = None | Some(value: T)

  datatype Result<+T> = Ok(value: T) | Err(error: OpenLvError)

  /** The error kinds of the crate, without their message texts. */
  datatype OpenLvError =
    | InvalidUri
    | SignalingError
    | TransportError
    | SessionError
    | SessionClosed
    | RequestLimitReached
    | EncryptionError
    | WireFrameError
    | RequestTimeout(acknowledged: bool)
    | RequestFailed
    | InvalidRequestTimeout
    | ResponseChannelClosed
    | Other

  newtype byte = x: int | 0 <= x < 256

  type Bytes = seq<byte>

  /** A public key as its raw bytes. */
  type Key = Bytes

  /** An application JSON value. */
  type Payload = string
}
