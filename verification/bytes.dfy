/** Fixed-width little-endian integers over byte strings: the only integer
    encoding on capsudo's wires. */
module ByteStrings {

  type byte = b: int | 0 <= b < 0x100
  type u16 = n: int | 0 <= n < 0x1_0000
  type u32 = n: int | 0 <= n < 0x1_0000_0000
  type i32 = n: int | -0x8000_0000 <= n < 0x8000_0000
  type Bytes = seq<byte>

  const U32_MAX: int := 0xFFFF_FFFF

  datatype Option<+T> = None | Some(value: T)

  function Le16(n: u16): (r: Bytes)
    ensures |r| == 2
  {
    [n % 0x100, n / 0x100]
  }

  function De16(b: Bytes): u16
    requires |b| == 2
  {
    var lo: int, hi: int := b[0], b[1];
    lo + 0x100 * hi
  }

  function Le32(n: u32): (r: Bytes)
    ensures |r| == 4
  {
    Le16(n % 0x1_0000) + Le16(n / 0x1_0000)
  }

  function De32(b: Bytes): u32
    requires |b| == 4
  {
    var lo: int, hi: int := De16(b[..2]), De16(b[2..]);
    lo + 0x1_0000 * hi
  }

  /** Reading back what was written gives the number, and writing back what was
      read gives the bytes, so the encoding is a bijection on four bytes. */
  lemma Le32RoundTrip(n: u32)
    ensures De32(Le32(n)) == n
  {
    assert Le32(n)[..2] == Le16(n % 0x1_0000);
    assert Le32(n)[2..] == Le16(n / 0x1_0000);
  }

  lemma De32RoundTrip(b: Bytes)
    requires |b| == 4
    ensures Le32(De32(b)) == b
  {
    assert Le16(De16(b[..2])) == b[..2];
    assert Le16(De16(b[2..])) == b[2..];
    assert b == b[..2] + b[2..];
  }

  /** Two's complement, the way an `i32` shares its four bytes with a `u32`. */
  function FromI32(n: i32): u32 {
    if n < 0 then n + 0x1_0000_0000 else n
  }

  function ToI32(n: u32): i32 {
    if n >= 0x8000_0000 then n - 0x1_0000_0000 else n
  }

  /** UTF-8 well-formedness, as `str::from_utf8` checks it: no overlong forms, no
      surrogates, nothing past U+10FFFF. */
  predicate Utf8(b: Bytes) {
    |b| == 0
    || (b[0] < 0x80 && Utf8(b[1..]))
    || (|b| >= 2 && 0xC2 <= b[0] <= 0xDF && Continues(b[1]) && Utf8(b[2..]))
    || (|b| >= 3 && 0xE0 <= b[0] <= 0xEF && Continues(b[1]) && Continues(b[2])
        && (b[0] == 0xE0 ==> b[1] >= 0xA0) && (b[0] == 0xED ==> b[1] < 0xA0) && Utf8(b[3..]))
    || (|b| >= 4 && 0xF0 <= b[0] <= 0xF4 && Continues(b[1]) && Continues(b[2]) && Continues(b[3])
        && (b[0] == 0xF0 ==> b[1] >= 0x90) && (b[0] == 0xF4 ==> b[1] < 0x90) && Utf8(b[4..]))
  }

  predicate Continues(b: byte) {
    0x80 <= b < 0xC0
  }

  /** A Rust `String`: bytes that are known to be UTF-8. */
  type Text = b: Bytes | Utf8(b) witness []
}
