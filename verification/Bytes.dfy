/** The unit of everything that is sent, buffered or encoded. */
module Bytes {
  type byte = b: int | 0 <= b < 256
}
