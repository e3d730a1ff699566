/** Go's int32 arithmetic: results wrap around modulo 2^32. */
module Int32 {
  const MAX: int := 0x7FFF_FFFF
  const MODULUS: int := 0x1_0000_0000

  function Wrap(x: int): (r: int)
    ensures -MAX - 1 <= r <= MAX
    ensures -MAX - 1 <= x <= MAX ==> r == x
    decreases if x < 0 then -2 * x - 1 else 2 * x
  {
    if x > MAX then Wrap(x - MODULUS)
    else if x < -MAX - 1 then Wrap(x + MODULUS)
    else x
  }

  lemma {:induction false} WrapShift(x: int)
    ensures Wrap(x + MODULUS) == Wrap(x)
    decreases if x < 0 then -x else x
  {
  }

  /** Wrapping after every addition is the same as wrapping once at the end. */
  lemma {:induction false} WrapAdd(a: int, b: int)
    ensures Wrap(Wrap(a) + b) == Wrap(a + b)
    decreases if a < 0 then -2 * a - 1 else 2 * a
  {
    if a > MAX {
      WrapAdd(a - MODULUS, b);
      WrapShift(a - MODULUS + b);
    } else if a < -MAX - 1 {
      WrapAdd(a + MODULUS, b);
      WrapShift(a + b);
    }
  }
}
