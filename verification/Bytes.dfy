/** Bytes and the 4-byte network-order integers that frame headers are made of. */
module Bytes {

  type Byte = b: int | 0 <= b < 256
  type Data = seq<Byte>

  const WORD: int := 0x1_0000_0000
  const HALF_WORD: int := 0x8000_0000

  datatype Option<+T> = None | Some(value: T)

  function Max(a: int, b: int): int {
    if a < b then b else a
  }

  function Min(a: int, b: int): int {
    if a < b then a else b
  }

  /** The bytes of a 32-bit value after HostToNetLong. */
  function BigEndian(n: nat): (s: Data)
    requires n < WORD
    ensures |s| == 4
  {
    [n / 0x100_0000, n / 0x1_0000 % 0x100, n / 0x100 % 0x100, n % 0x100]
  }

  /** The value NetToHostLong gives for the first four bytes. */
  function Unsigned32(s: Data): (n: nat)
    requires |s| >= 4
    ensures n < WORD
  {
    s[0] as int * 0x100_0000 + s[1] as int * 0x1_0000 + s[2] as int * 0x100 + s[3]
  }

  /** The same 32 bits read as an int32_t. */
  function Signed32(n: nat): int
    requires n < WORD
  {
    if n < HALF_WORD then n else n - WORD
  }

  lemma UnsignedInverse(n: nat, tail: Data)
    requires n < WORD
    ensures Unsigned32(BigEndian(n) + tail) == n
  {
    assert n / 0x1_0000 == n / 0x100_0000 * 0x100 + n / 0x1_0000 % 0x100;
    assert n / 0x100 == n / 0x1_0000 * 0x100 + n / 0x100 % 0x100;
  }

  /** The first byte that differs is smaller. */
  ghost predicate Before(a: Data, b: Data) {
    exists k :: 0 <= k < |a| && k < |b| && a[..k] == b[..k] && a[k] < b[k]
  }

  /** Network order: the bytes of smaller values come first, byte by byte from the front. */
  lemma NetworkOrder(m: nat, n: nat)
    requires m < n < 0x1_0000_0000
    ensures Before(BigEndian(m), BigEndian(n))
  {
    var a, b := BigEndian(m), BigEndian(n);
    UnsignedInverse(m, []);
    UnsignedInverse(n, []);
    assert a + [] == a && b + [] == b;
    hide BigEndian;
    if a[0] != b[0] {
      assert a[..0] == b[..0] && a[0] < b[0];
    } else if a[1] != b[1] {
      assert a[..1] == b[..1] && a[1] < b[1];
    } else if a[2] != b[2] {
      assert a[..2] == b[..2] && a[2] < b[2];
    } else {
      assert a[..3] == b[..3] && a[3] < b[3];
    }
  }

  /** PeekInt32 reads back what AppendInt32 wrote, over the whole int32_t range, */
  lemma HeaderRoundTrip(x: int, tail: Data)
    requires -HALF_WORD <= x < HALF_WORD
    ensures Signed32(Unsigned32(BigEndian(x % WORD) + tail)) == x
  {
    hide Unsigned32, BigEndian;
    UnsignedInverse(x % WORD, tail);
  }

  /** and every four bytes are the header of exactly one value. */
  lemma HeaderIsCanonical(s: Data)
    requires |s| == 4
    ensures BigEndian(Unsigned32(s)) == s
  {
    var n := Unsigned32(s);
    assert n / 0x100 == s[0] as int * 0x1_0000 + s[1] as int * 0x100 + s[2];
    assert n / 0x1_0000 == s[0] as int * 0x100 + s[1];
    assert n / 0x100_0000 == s[0];
  }
}
