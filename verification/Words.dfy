/** The machine integers the source computes with. */
module Words {
  const U64_MAX := 0xFFFF_FFFF_FFFF_FFFF
  const U32_MAX := 0xFFFF_FFFF
  const I64_MAX := 0x7FFF_FFFF_FFFF_FFFF
  const I64_MIN := -0x8000_0000_0000_0000

  type U64 = x: int | 0 <= x <= U64_MAX
  type U32 = x: int | 0 <= x <= U32_MAX
  type I64 = x: int | I64_MIN <= x <= I64_MAX

  /** Reinterprets the bits, so large durations become negative. */
  function AsI64(x: U64): I64 {
    if x <= I64_MAX then x else x - U64_MAX - 1
  }

  function SaturatingAdd(a: I64, b: I64): I64 {
    if a + b > I64_MAX then I64_MAX else if a + b < I64_MIN then I64_MIN else a + b
  }

  /** The expiry recorded for a time to live counted from `now`. */
  function Expiry(now: I64, ttl: U64): I64 {
    SaturatingAdd(now, AsI64(ttl))
  }

  /** A ttl above i64::MAX lies in the past; up to it the expiry is exact, short of saturating. */
  lemma ExpiryIsAhead(now: I64, ttl: U64)
    ensures now <= Expiry(now, ttl) <==> ttl <= I64_MAX || now == I64_MIN
    ensures ttl <= I64_MAX && now + ttl <= I64_MAX ==> Expiry(now, ttl) == now + ttl
    ensures ttl <= I64_MAX && now + ttl > I64_MAX ==> Expiry(now, ttl) == I64_MAX
    ensures ttl > I64_MAX ==>
      var wrapped := now + ttl - 0x1_0000_0000_0000_0000;
      Expiry(now, ttl) == if wrapped < I64_MIN then I64_MIN else wrapped
  {
  }
}
