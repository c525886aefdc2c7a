/** Values shared by the alpha and the vertex-attribute models: an optional
    value for C's NULL-or-pointer results, bytes, and the limits of the C
    integer types the two source files compute with. */
module Base {

  datatype Option<+T> = None | Some(value: T)

  newtype byte = x: int | 0 <= x < 256

  /** Largest value of a 32-bit `gint` / `int`. */
  const INT32_MAX: int := 0x7fff_ffff
  /** Smallest value of a 32-bit `gint` / `int`. */
  const INT32_MIN: int := -0x8000_0000
  /** 2^32: values of `guint32` / `unsigned int` are taken modulo this. */
  const UINT32_MODULUS: nat := 0x1_0000_0000
  /** 2^64: values of `gulong` / `unsigned long` and `size_t` on LP64. */
  const UINT64_MODULUS: nat := 0x1_0000_0000_0000_0000

  predicate IsInt32(x: int) {
    INT32_MIN <= x <= INT32_MAX
  }

  predicate IsUint32(x: int) {
    0 <= x < UINT32_MODULUS
  }

  // Facts about the non-negative (Euclidean) division Dafny uses.

  lemma MulMonotone(d: int, x: int, y: int)
    requires 0 < d && x <= y
    ensures d * x <= d * y
  {
    assert d * y - d * x == d * (y - x);
  }

  /** Division is determined by any quotient/remainder split. */
  lemma DivUnique(x: int, d: int, q: int, s: int)
    requires 0 < d && 0 <= s < d && x == d * q + s
    ensures x / d == q && x % d == s
  {
    var q', s' := x / d, x % d;
    assert d * q' + s' == d * q + s;
    if q' < q {
      MulMonotone(d, q' + 1, q);
      assert false;
    } else if q' > q {
      MulMonotone(d, q + 1, q');
      assert false;
    }
  }
}
