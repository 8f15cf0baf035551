/** The few Java platform facts the plugin depends on. */
module Java {

  /** An octet. A Java `byte` is signed; every use here (file contents, the
      base64 encoder) reads it as the unsigned value `b & 0xFF`. */
  newtype byte = x: int | 0 <= x < 256

  /** `Integer.MAX_VALUE`, the largest length of a Java array. */
  const INTEGER_MAX_VALUE: int := 0x7fff_ffff
}
