/** Exact-real stand-ins for the floating-point helpers the program uses everywhere. */
module Numeric {

  function MaxR(a: real, b: real): real {
    if a < b then b else a
  }

  function MinR(a: real, b: real): real {
    if b < a then b else a
  }

  function AbsR(a: real): real {
    if a < 0.0 then -a else a
  }

  function Clamp(v: real, lo: real, hi: real): real
    requires lo <= hi
  {
    if v < lo then lo else if v > hi then hi else v
  }

  function Times(a: real, b: real): real {
    a * b
  }

  function Ratio(a: real, b: real): real
    requires b > 0.0
  {
    a / b
  }

  /** `u64::saturating_sub`. */
  function SatSub(a: nat, b: nat): nat {
    if a < b then 0 else a - b
  }

  /** `f64::EPSILON`. */
  const EPSILON: real := 1.0 / 4503599627370496.0

  /** `u64::MAX`. */
  const U64_MAX: nat := 0xFFFF_FFFF_FFFF_FFFF

  /** Stands for a floating-point root or power; only its being positive on positive numbers is used. */
  type Root = f: real -> real | forall v :: v > 0.0 ==> f(v) > 0.0 witness (v => v)

  datatype Option<+T> = None | Some(value: T)

  lemma ProductSign(a: real, b: real)
    requires 0.0 <= a && 0.0 <= b
    ensures 0.0 <= a * b && (a * b == 0.0 <==> a == 0.0 || b == 0.0)
  {
  }

  lemma Undivide(n: real, q: real)
    requires q > 0.0
    ensures n / q * q == n
  {
  }
}
