/** The Go values the envelopes are built from, with Go's zero values written out. */
module GoValues {

  newtype uint8 = x: int | 0 <= x < 0x100
  newtype uint32 = x: int | 0 <= x < 0x1_0000_0000
  newtype uint64 = x: int | 0 <= x < 0x1_0000_0000_0000_0000

  /** A Go value that may be nil (a slice, a map, an interface): None is nil. */
  datatype Option<+T> = None | Some(value: T)

  /** A Go []byte. None is the nil slice; Some([]) is an empty slice that is not nil. */
  type Bytes = Option<seq<uint8>>

  /** Go's len on a byte slice: the nil slice and an empty slice both have length 0. */
  function Len(b: Bytes): nat
  {
    match b
    case None => 0
    case Some(s) => |s|
  }

  /** A time.Time, reduced to the instant it denotes (seconds and nanoseconds after
      January 1, year 1, UTC); the location is not modelled. */
  datatype Time = Time(sec: int, nsec: int)

  /** time.Time{}, the zero instant. */
  const ZeroTime: Time := Time(0, 0)
}
