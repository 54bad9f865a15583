/** Capacity rounding (`requested_gib` and the reported size, src/csi.rs) in
    64-bit signed arithmetic that wraps around, as in a release build. */
module Capacity {
  import opened Base

  const GIB := 0x4000_0000
  const TWO63 := 0x8000_0000_0000_0000
  const TWO64 := 0x1_0000_0000_0000_0000

  /** The value of a 64-bit signed computation whose exact result is `x`. */
  function Wrap(x: int): int {
    (x + TWO63) % TWO64 - TWO63
  }

  /** Division that truncates toward zero. */
  function Quotient(a: int, b: int): int
    requires b > 0
  {
    if a >= 0 then a / b else -(-a / b)
  }

  predicate IsI64(x: int) {
    -TWO63 <= x < TWO63
  }

  /** Whole GiB for the requested bytes; 10 when nothing useful was requested. */
  function RequestedGib(required: Option<int>): int {
    if required.Some? && required.value > 0 then Quotient(Wrap(Wrap(required.value + GIB) - 1), GIB) else 10
  }

  function ReportedBytes(gib: int): int {
    Wrap(gib * GIB)
  }

  /** `c` is the least multiple of 1 GiB that is at least `b`. */
  ghost predicate LeastGib(c: int, b: int) {
    c % GIB == 0 && b <= c < b + GIB
  }

  /** The reported capacity is the least sufficient multiple of 1 GiB exactly for
      requests up to 2^63 - 2^30 bytes; beyond that it is not even positive. No
      intermediate result leaves the 64-bit range exactly below that bound: at
      2^63 - 2^30 itself the sum wraps around and back. */
  lemma CapacityIsExact(b: int)
    requires IsI64(b) && b > 0
    ensures var c := ReportedBytes(RequestedGib(Some(b)));
      && (LeastGib(c, b) <==> b <= TWO63 - GIB)
      && (b > TWO63 - GIB ==> c == if b == TWO63 - GIB + 1 then -TWO63 else GIB - TWO63)
      && (b <= TWO63 - GIB ==> c == RequestedGib(Some(b)) * GIB)
    ensures IsI64(b + GIB) && IsI64(b + GIB - 1) && IsI64((b + GIB - 1) / GIB * GIB) <==> b < TWO63 - GIB
  {
    var n := Wrap(Wrap(b + GIB) - 1);
    if b <= TWO63 - GIB {
      assert n == b + GIB - 1;
    } else {
      assert n == b + GIB - 1 - TWO64;
    }
  }

  /** A request for nothing, or for no positive size, means 10 GiB. */
  lemma DefaultSize(required: Option<int>)
    requires required.None? || required.value <= 0
    ensures RequestedGib(required) == 10 && ReportedBytes(RequestedGib(required)) == 10_737_418_240
  {
  }
}
