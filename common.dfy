/** Small value types shared by the whole model: optional values, results that
    carry the exceptions the simulator throws, and exact complex numbers. */
module Common {

  datatype Option<+T> = None | Some(value: T)

  datatype Result<+T, +E> = Ok(value: T) | Err(error: E)

  /** The outcome of a state-changing call that returns nothing but may throw. */
  datatype Outcome<+E> = Pass | Fail(error: E)

  /** A complex number with exact real and imaginary parts (floating-point rounding
      is not modelled). */
  datatype Complex = Complex(re: real, im: real)

  const Zero: Complex := Complex(0.0, 0.0)
  const One: Complex := Complex(1.0, 0.0)

  function Add(a: Complex, b: Complex): Complex {
    Complex(a.re + b.re, a.im + b.im)
  }

  function Mul(a: Complex, b: Complex): Complex {
    Complex(a.re * b.re - a.im * b.im, a.re * b.im + a.im * b.re)
  }

  /** 2^k, written `1ULL << k` in the source. */
  function Pow2(k: nat): (r: nat)
    ensures r >= 1
  {
    if k == 0 then 1 else 2 * Pow2(k - 1)
  }

  lemma {:induction false} Pow2Add(a: nat, b: nat)
    ensures Pow2(a + b) == Pow2(a) * Pow2(b)
  {
    if a > 0 {
      Pow2Add(a - 1, b);
    }
  }

  lemma Pow2Monotone(a: nat, b: nat)
    requires a <= b
    ensures Pow2(a) <= Pow2(b)
  {
    Pow2Add(a, b - a);
  }

  lemma MulStep(c: nat, d: nat)
    ensures (c + 1) * d == c * d + d
  {
  }

  lemma {:induction false} MulMonotone(a: nat, b: nat, d: nat)
    requires a <= b
    ensures a * d <= b * d
    decreases b - a
  {
    if a < b {
      MulMonotone(a + 1, b, d);
      MulStep(a, d);
    }
  }

  /** Division by d undoes q * d + r when r < d. */
  lemma DivModOfSum(q: nat, r: nat, d: nat)
    requires r < d
    ensures (q * d + r) % d == r && (q * d + r) / d == q
  {
    var x := q * d + r;
    var q2, r2 := x / d, x % d;
    assert x == q2 * d + r2 && r2 < d;
    if q2 < q {
      MulStep(q2, d);
      MulMonotone(q2 + 1, q, d);
    } else if q < q2 {
      MulStep(q, d);
      MulMonotone(q + 1, q2, d);
    }
  }
}
