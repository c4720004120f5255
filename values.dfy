/** Values that cross the method channel, the JVM's fixed-width integers,
    and the exceptions a call can raise on the worker thread. */
module Values {

  /** Java `int`. */
  newtype int32 = x: int | -0x8000_0000 <= x < 0x8000_0000

  /** Java `long`. */
  newtype int64 = x: int | -0x8000_0000_0000_0000 <= x < 0x8000_0000_0000_0000

  datatype Option<+T> = None | Some(value: T)

  /** The throwables the bridge can meet while it handles one call. */
  datatype Fault =
    | ClassCast                        // a checked cast to the wrong boxed type
    | NullPointer                      // unboxing or dereferencing null
    | IndexOutOfBounds                 // reading past the end of a Java array
    | Thrown(message: Option<string>)  // anything the native engine throws, with its getMessage()

  /** Either a value or the throwable that interrupted its computation. */
  datatype Result<+T> = Ok(value: T) | Fail(fault: Fault) {
    predicate IsFailure() { Fail? }

    function PropagateFailure<U>(): Result<U>
      requires Fail?
    {
      Fail(fault)
    }

    function Extract(): T
      requires Ok?
    {
      value
    }
  }

  /** A dynamically typed object as the argument bundle and the replies carry it. */
  datatype Value =
    | Null
    | Bool(b: bool)                      // java.lang.Boolean
    | Int(i: int32)                      // java.lang.Integer
    | Long(l: int64)                     // java.lang.Long
    | Double(d: real)                    // java.lang.Double
    | Float(f: real)                     // java.lang.Float
    | Str(s: string)                     // java.lang.String
    | List(elems: seq<Value>)            // java.util.List, or an array of objects
    | Dict(entries: map<string, Value>)  // java.util.Map<String, Object>

  /** `Long.intValue()`: the low 32 bits of a long, read as a two's-complement int. */
  function Low32(x: int64): (r: int32)
    ensures (r as int - x as int) % 0x1_0000_0000 == 0
    ensures -0x8000_0000 <= x as int < 0x8000_0000 ==> r as int == x as int
  {
    var m := (x as int) % 0x1_0000_0000;
    if m < 0x8000_0000 then m as int32 else (m - 0x1_0000_0000) as int32
  }
}
