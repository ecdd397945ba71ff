/** Machine-level scalars the UDP methods use, with the C conversions they
    apply to Lua numbers written out explicitly. */
module Base {

  newtype byte = x: int | 0 <= x < 0x100

  /** `unsigned short`, the type of a port number. */
  newtype ushort = x: int | 0 <= x < 0x1_0000

  const UShortModulus: int := 0x1_0000

  /** 2^64, one more than the largest `size_t` on a 64-bit host. */
  const SizeTModulus: int := 0x1_0000_0000_0000_0000

  datatype Option<+T> = None | Some(value: T) {
    function GetOr(default: T): T {
      if Some? then value else default
    }
  }

  function Min(a: int, b: int): (m: int)
    ensures m <= a && m <= b
    ensures m == a || m == b
  {
    if a <= b then a else b
  }

  /** The conversion `(ushort) n` of an integral Lua number. C leaves the
      out-of-range case undefined; the model wraps modulo 2^16, which keeps
      every in-range port as it is. */
  function ToUShort(n: int): (p: ushort)
    ensures 0 <= n < UShortModulus ==> p as int == n
    ensures (n - p as int) % UShortModulus == 0
  {
    (n % UShortModulus) as ushort
  }

  /** The conversion `(size_t) n` of an integral Lua number, wrapping modulo
      2^64 for the out-of-range values C leaves undefined. */
  function ToSizeT(n: int): (s: nat)
    ensures s < SizeTModulus
    ensures 0 <= n < SizeTModulus ==> s == n
    ensures (n - s) % SizeTModulus == 0
  {
    n % SizeTModulus
  }

  /** The C view of a Lua string: the characters before the first NUL, which
      is where `strcmp` and the C library stop reading. */
  function CString(s: string): (c: string)
    ensures c <= s
    ensures '\0' !in c
    ensures |c| < |s| ==> s[|c|] == '\0'
  {
    if s == [] || s[0] == '\0' then [] else [s[0]] + CString(s[1..])
  }

  /** A string without NUL is its own C view; any string with a NUL is not. */
  lemma CStringWithoutNul(s: string)
    ensures CString(s) == s <==> '\0' !in s
  {
  }
}
