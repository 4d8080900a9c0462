/** Small shared vocabulary: an optional value and the raw audio bytes. */
module Basics {

  datatype Option<T> = None | Some(value: T)

  /** One byte of raw PCM data as carried by the socket and the audio buffers. */
  newtype byte = b: int | 0 <= b < 256
}
