/**
 Go's fixed-width integers and the opaque values that the plugin API passes through
 without interpreting them: `time.Time`, `interface{}` option values and proto messages
 from the external specification module. Go's `int` is taken to be 64 bits wide.
 */
module Primitives {

  newtype int64 = x: int | -0x8000_0000_0000_0000 <= x < 0x8000_0000_0000_0000

  newtype uint64 = x: int | 0 <= x < 0x1_0000_0000_0000_0000

  /** An instant (`time.Time`). Only its identity matters here; rendering it is left to
      functions the caller supplies. */
  datatype Time = Time(instant: int)

  /** The zero value of `time.Time`. */
  const ZeroTime: Time := Time(0)

  /** A value of Go's `interface{}` type held in an option bag; never looked into. */
  datatype AnyValue = AnyValue(handle: nat)

  /** `map[string]interface{}`: the free-form options of a plugin configuration. */
  type Options = map<string, AnyValue>
}
