/** Option, the stand-in for Java's nullable references. */
module Wrappers {
  datatype Option<+T> = None | Some(value: T)
}

/** The Java and Android values the identity-provider record is built from. */
module Platform {
  import opened Wrappers

  /** A Java `long`. */
  newtype Long = x: int | -0x8000_0000_0000_0000 <= x < 0x8000_0000_0000_0000

  /** A Java `byte` (signed). */
  newtype Byte = x: int | -128 <= x < 128

  /** An `android.graphics.Bitmap`, known to the model only by an opaque handle. */
  datatype Bitmap = Bitmap(handle: nat)

  /**
   * `BitmapFactory.decodeByteArray(data, 0, data.length)`: a foreign decoder that
   * may give no bitmap (Java's null) for bytes it cannot decode.
   */
  type Decoder = seq<Byte> -> Option<Bitmap>
}
