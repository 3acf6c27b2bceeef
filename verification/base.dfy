/** Small shared types: an optional value (the callback slot is a nullable
    function pointer) and the C `uint8` and `uint16` ranges of the globals and
    distances. */
module Base {

  /** A value that may be absent; `None` plays the role of `NULL_PTR`. */
  datatype Option<+T> = None | Some(value: T)

  /** The values of a C `uint8`. */
  type Uint8 = x: int | 0 <= x < 0x100

  /** The values of a C `uint16`. */
  type Uint16 = x: int | 0 <= x < 0x1_0000
}
