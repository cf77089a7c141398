/** Java's 32-bit `int` arithmetic, as the hash codes of the model need it. */
module JavaInts {
  const TwoTo31: int := 0x8000_0000
  const TwoTo32: int := 0x1_0000_0000

  /** Java `int` arithmetic: reduce to the signed 32-bit range. */
  function Wrap32(x: int): (r: int)
    ensures -TwoTo31 <= r < TwoTo31
    ensures (r - x) % TwoTo32 == 0
  {
    (x + TwoTo31) % TwoTo32 - TwoTo31
  }

  /** `List.hashCode`: start at 1, then `31 * h + hash(element)` for each element. */
  function ListHash<T>(s: seq<T>, hash: T -> int): (h: int)
    ensures -TwoTo31 <= h < TwoTo31
  {
    if s == [] then 1 else Wrap32(31 * ListHash(s[..|s| - 1], hash) + hash(s[|s| - 1]))
  }
}
