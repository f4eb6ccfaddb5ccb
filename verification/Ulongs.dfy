/** The 32-bit unsigned arithmetic of the driver's `ULONG` and `UINT` variables. */
module Ulongs {

  const ULONG_MODULUS: int := 0x1_0000_0000

  type Ulong = x: int | 0 <= x < ULONG_MODULUS

  function Wrap(x: int): Ulong {
    x % ULONG_MODULUS
  }

  lemma WrapUnique(x: int, q: int, r: Ulong)
    requires x == q * ULONG_MODULUS + r
    ensures Wrap(x) == r
  {
  }

  lemma WrapSmall(x: int)
    ensures 0 <= x < ULONG_MODULUS ==> Wrap(x) == x
  {
  }

  /** Adding before or after the wrap-around makes no difference. */
  lemma WrapShift(x: int, k: int)
    ensures Wrap(Wrap(x) + k) == Wrap(x + k)
  {
    var sum := Wrap(x) + k;
    WrapUnique(x + k, x / ULONG_MODULUS + sum / ULONG_MODULUS, Wrap(sum));
  }

  lemma WrapSum(x: int, k: int)
    ensures Wrap(Wrap(x) + Wrap(k)) == Wrap(x + k)
    ensures Wrap(Wrap(x) - Wrap(k)) == Wrap(x - k)
  {
    WrapShift(x, Wrap(k));
    WrapShift(k, x);
    var difference := Wrap(x) - Wrap(k);
    WrapUnique(x - k, x / ULONG_MODULUS - k / ULONG_MODULUS + difference / ULONG_MODULUS, Wrap(difference));
  }

  /** Taking off what was put on gives back the value. */
  lemma WrapUndone(x: Ulong, k: Ulong)
    ensures Wrap(Wrap(x + k) - k) == x
  {
    var n: int := k;
    WrapShift(x + n, -n);
    WrapUnique(x, 0, x);
    hide Wrap;
  }
}
