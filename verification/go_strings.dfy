/** Go strings as the rest of the model sees them. */
module GoStrings {

  /** True when every character fits in one byte. */
  predicate IsByteString(s: string) {
    forall i :: 0 <= i < |s| ==> s[i] as int < 256
  }

  /** A Go string: an immutable sequence of bytes. Each character here stands
      for one byte, so `|s|` is Go's `len(s)` and `s[..n]` is Go's `s[:n]`. */
  type GoString = s: string | IsByteString(s)
}
