/**
 * Facts of non-linear arithmetic that the solver does not find on its own
 * once several products are in scope together.
 */
module Arith {

  /** Multiplication distributes over a sum of three terms. */
  lemma MulDistributes3(x: real, y: real, z: real, k: real)
    ensures (x + y + z) * k == x * k + y * k + z * k
  {
    assert (x + y + z) * k == (x + y) * k + z * k;
    assert (x + y) * k == x * k + y * k;
  }

  /** Products of non-negative reals are monotone in each factor. */
  lemma MulMonotone(x: real, y: real, x': real, y': real)
    requires 0.0 <= x <= x'
    requires 0.0 <= y <= y'
    ensures 0.0 <= x * y <= x' * y'
  {
    assert x * y <= x' * y by {
      assert (x' - x) * y >= 0.0;
    }
    assert x' * y <= x' * y' by {
      assert x' * (y' - y) >= 0.0;
    }
  }

  /** Products of non-negative integers are monotone in each factor. */
  lemma IntMulMonotone(x: int, y: int, x': int, y': int)
    requires 0 <= x <= x'
    requires 0 <= y <= y'
    ensures 0 <= x * y <= x' * y'
  {
    assert x * y <= x' * y by {
      assert (x' - x) * y >= 0;
    }
    assert x' * y <= x' * y' by {
      assert x' * (y' - y) >= 0;
    }
  }

  /** Scaling by a factor of at least one never shrinks a non-negative value. */
  lemma ScaleAtLeastOne(x: real, k: real)
    requires 0.0 <= x
    requires 1.0 <= k
    ensures x <= x * k
    ensures x * k == x <==> x == 0.0 || k == 1.0
  {
    assert x * k - x == x * (k - 1.0);
    if x * k == x {
      assert x * (k - 1.0) == 0.0;
    }
  }

  /** Integer version of ScaleAtLeastOne. */
  lemma IntScaleAtLeastOne(x: int, k: int)
    requires 0 <= x
    requires 1 <= k
    ensures x <= x * k
    ensures x * k == x <==> x == 0 || k == 1
  {
    assert x * k - x == x * (k - 1);
    if x * k == x {
      assert x * (k - 1) == 0;
    }
  }

  /** A product of three integers is zero exactly when one of the factors is. */
  lemma IntProductZero3(x: int, y: int, z: int)
    ensures x * y * z == 0 <==> x == 0 || y == 0 || z == 0
  {
    if x != 0 && y != 0 {
      assert x * y != 0;
    }
  }
}
