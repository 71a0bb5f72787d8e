/** Well-formed UTF-8, as the standard string type checks it. */
module Utf8 {
  import opened Wire

  predicate Continues(b: Byte) {
    0x80 <= b <= 0xBF
  }

  predicate ThreeBytes(a: Byte, b: Byte) {
    || (a == 0xE0 && 0xA0 <= b <= 0xBF)
    || (0xE1 <= a <= 0xEC && Continues(b))
    || (a == 0xED && 0x80 <= b <= 0x9F)
    || (0xEE <= a <= 0xEF && Continues(b))
  }

  predicate FourBytes(a: Byte, b: Byte) {
    || (a == 0xF0 && 0x90 <= b <= 0xBF)
    || (0xF1 <= a <= 0xF3 && Continues(b))
    || (a == 0xF4 && 0x80 <= b <= 0x8F)
  }

  predicate Valid(s: Bytes) {
    || s == []
    || (s[0] < 0x80 && Valid(s[1..]))
    || (|s| >= 2 && 0xC2 <= s[0] <= 0xDF && Continues(s[1]) && Valid(s[2..]))
    || (|s| >= 3 && ThreeBytes(s[0], s[1]) && Continues(s[2]) && Valid(s[3..]))
    || (|s| >= 4 && FourBytes(s[0], s[1]) && Continues(s[2]) && Continues(s[3]) && Valid(s[4..]))
  }

  /** A string, given by its UTF-8 bytes. */
  type Text = s: Bytes | Valid(s)
}
