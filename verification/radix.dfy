/** Mixed-radix arithmetic behind row-major indexing: a digit string
    a + b*A + c*A*B with each digit below its radix. Both chunk slots and
    chunk indices are numbers of this shape. */
module Radix {

  /** Multiplying by a non-negative factor keeps order. */
  lemma MulMono(k: int, m: int, n: int)
    requires 0 <= k && m <= n
    ensures k * m <= k * n
  {
    assert k * n - k * m == k * (n - m);
  }

  /** A mixed-radix digit string with digits below their radices names a
      number in [0, A*B*C). */
  lemma MixedRadixInRange(a: int, b: int, c: int, A: int, B: int, C: int)
    ensures 0 <= a < A && 0 <= b < B && 0 <= c < C ==> 0 <= a + b * A + c * A * B < A * B * C
  {
    if 0 <= a < A && 0 <= b < B && 0 <= c < C {
      var q := b + B * c;
      assert a + b * A + c * A * B == a + A * q;
      MulMono(B, 0, c);
      MulMono(B, c, C - 1);
      assert 0 <= q <= B * C - 1;
      MulMono(A, 0, q);
      MulMono(A, q, B * C - 1);
    }
  }

  /** One radix step: a digit below the radix and the rest are determined
      by the number. */
  lemma DigitUnique(a: int, q: int, a': int, q': int, A: int)
    requires 0 <= a < A && 0 <= a' < A
    requires a + A * q == a' + A * q'
    ensures a == a' && q == q'
  {
    if q < q' {
      MulMono(A, q + 1, q');
    } else if q' < q {
      MulMono(A, q' + 1, q);
    }
  }

  /** Distinct mixed-radix digit strings name distinct numbers. */
  lemma MixedRadixInjective(a: int, b: int, c: int, a': int, b': int, c': int, A: int, B: int)
    requires 0 <= a < A && 0 <= b < B && 0 <= a' < A && 0 <= b' < B
    requires a + b * A + c * A * B == a' + b' * A + c' * A * B
    ensures a == a' && b == b' && c == c'
  {
    assert a + b * A + c * A * B == a + A * (b + B * c);
    assert a' + b' * A + c' * A * B == a' + A * (b' + B * c');
    DigitUnique(a, b + B * c, a', b' + B * c', A);
    DigitUnique(b, c, b', c', B);
  }
}
