/**
 * Integer-division facts the models share. Dafny's `/` on `int` is Euclidean,
 * which for a positive divisor is JavaScript's `Math.floor(a / d)`.
 */
module Arith {

  lemma MulLe(a: int, b: int, c: nat)
    requires a <= b
    ensures a * c <= b * c
  {
  }

  /** `x == q * d + r` with `0 <= r < d` pins down `x / d`. */
  lemma DivUnique(x: int, d: nat, q: int, r: int)
    requires d > 0 && 0 <= r < d && x == q * d + r
    ensures x / d == q
  {
    var q', r' := x / d, x % d;
    assert x == q' * d + r';
    if q' < q {
      MulLe(q' + 1, q, d);
      assert false;
    } else if q < q' {
      MulLe(q + 1, q', d);
      assert false;
    }
  }

  /** Flooring twice is flooring once by the product: `floor(floor(a / b) / c) == floor(a / (b * c))`. */
  lemma NestedDiv(a: int, b: nat, c: nat)
    requires b > 0 && c > 0
    ensures a / b / c == a / (b * c)
  {
    var q1, r1 := a / b, a % b;
    var q2, r2 := q1 / c, q1 % c;
    NestedDivParts(a, b, c, q1, r1, q2, r2);
    DivUnique(a, b * c, q2, b * r2 + r1);
  }

  /** The two quotient-remainder splits combine into one split by `b * c`. */
  lemma NestedDivParts(a: int, b: nat, c: nat, q1: int, r1: int, q2: int, r2: int)
    requires b > 0 && c > 0
    requires a == q1 * b + r1 && 0 <= r1 < b
    requires q1 == q2 * c + r2 && 0 <= r2 < c
    ensures a == q2 * (b * c) + (b * r2 + r1)
    ensures 0 <= b * r2 + r1 < b * c
  {
    calc {
      q1 * b;
      (q2 * c + r2) * b;
      { MulAddRight(q2 * c, r2, b); }
      q2 * c * b + r2 * b;
      { MulAssocComm(q2, c, b); }
      q2 * (b * c) + b * r2;
    }
    MulLe(r2, c - 1, b);
    MulSubOne(c, b);
  }

  lemma MulAddRight(x: int, y: int, z: int)
    ensures (x + y) * z == x * z + y * z
  {
  }

  lemma MulAssocComm(x: int, y: int, z: int)
    ensures x * y * z == x * (z * y)
  {
  }

  lemma MulSubOne(c: int, b: int)
    ensures (c - 1) * b == b * c - b
  {
  }
}
