/**
  Complex values of the non-GMP build of class Cmp.  The two doubles of the
  class are idealised as exact reals.  The binary operators, conjugate and
  length2 return new values and are modelled as functions on the datatype
  Cmp; the compound assignments mutate an object and are modelled as methods
  of the class Cell, whose fields are the fields of Cmp.
*/
module Complex {

  /** A complex value: real part and imaginary part. */
  datatype Cmp = Cmp(re: real, im: real)

  /** The value of a default-constructed Cmp. */
  const Origin: Cmp := Cmp(0.0, 0.0)

  /** Componentwise sum; zero is its identity on either side, and Sub
      undoes it (SubUndoesAdd). */
  function Add(a: Cmp, b: Cmp): (r: Cmp)
    ensures b == Origin ==> r == a
    ensures a == Origin ==> r == b
  {
    Cmp(a.re + b.re, a.im + b.im)
  }

  /** Componentwise difference: it is zero exactly when a and b are equal. */
  function Sub(a: Cmp, b: Cmp): (r: Cmp)
    ensures r == Origin <==> a == b
  {
    Cmp(a.re - b.re, a.im - b.im)
  }

  /** (a.re + a.im i)(b.re + b.im i), component by component as operator*
      computes it; its algebra is in the lemmas below. */
  function Mul(a: Cmp, b: Cmp): (r: Cmp)
  {
    Cmp(a.re * b.re - a.im * b.im, a.im * b.re + a.re * b.im)
  }

  /** The squared magnitude re^2 + im^2 used by the escape test. */
  function Length2(z: Cmp): (r: real)
    ensures r >= 0.0
    ensures r == 0.0 <==> z == Origin
  {
    SumOfSquares(z.re, z.im);
    z.re * z.re + z.im * z.im
  }

  /** Division by the denominator b.re^2 + b.im^2; it is the inverse of
      multiplication, and a value divided by itself is one.  Over the reals
      the divisor must not be zero (operator/ then yields IEEE infinities). */
  function Div(a: Cmp, b: Cmp): (r: Cmp)
    requires b != Origin
    ensures Mul(r, b) == a
    ensures a == b ==> r == Cmp(1.0, 0.0)
  {
    var d := Length2(b);
    var x := (a.re * b.re + a.im * b.im) / d;
    var y := (a.im * b.re - a.re * b.im) / d;
    QuotientTimesDivisor(a, b, x, y);
    if a == b then
      QuotientOfSelf(b, x, y);
      Cmp(x, y)
    else
      Cmp(x, y)
  }

  /** conjugate multiplies both components by -1, so it is the additive
      inverse. */
  function Conjugate(z: Cmp): (r: Cmp)
    ensures Add(z, r) == Origin
  {
    Cmp(z.re * -1.0, z.im * -1.0)
  }

  /** Zero annihilates under multiplication from either side. */
  lemma MulByOrigin(a: Cmp)
    ensures Mul(Origin, a) == Origin && Mul(a, Origin) == Origin
  {
  }

  /** One is the identity of multiplication from either side. */
  lemma MulByOne(a: Cmp)
    ensures Mul(Cmp(1.0, 0.0), a) == a && Mul(a, Cmp(1.0, 0.0)) == a
  {
  }

  /** A sum of two squares is nonnegative and vanishes only when both terms do. */
  lemma SumOfSquares(a: real, b: real)
    ensures a * a + b * b >= 0.0
    ensures a * a + b * b == 0.0 ==> a == 0.0 && b == 0.0
  {
    if a < 0.0 { NegativeProduct(a, a); }
    if b < 0.0 { NegativeProduct(b, b); }
    if a * a + b * b == 0.0 {
      assert a * a == 0.0 && b * b == 0.0;
      ZeroProduct(a, a);
      ZeroProduct(b, b);
    }
  }

  lemma NegativeProduct(a: real, b: real)
    requires a < 0.0 && b < 0.0
    ensures a * b > 0.0
  {
  }

  lemma ZeroProduct(a: real, b: real)
    requires a * b == 0.0
    ensures a == 0.0 || b == 0.0
  {
  }

  /** Lagrange's identity for two pairs. */
  lemma ProductOfSums(p: real, q: real, r: real, s: real)
    ensures (p * r - q * s) * (p * r - q * s) + (q * r + p * s) * (q * r + p * s)
         == (p * p + q * q) * (r * r + s * s)
  {
    calc {
      (p * r - q * s) * (p * r - q * s) + (q * r + p * s) * (q * r + p * s);
      p * p * r * r + q * q * s * s + q * q * r * r + p * p * s * s;
      (p * p + q * q) * (r * r + s * s);
    }
  }

  /** The quotient components times the divisor give the dividend back. */
  lemma QuotientTimesDivisor(a: Cmp, b: Cmp, x: real, y: real)
    requires b != Origin
    requires x == (a.re * b.re + a.im * b.im) / Length2(b)
    requires y == (a.im * b.re - a.re * b.im) / Length2(b)
    ensures Mul(Cmp(x, y), b) == a
  {
    var d := Length2(b);
    assert x * d == a.re * b.re + a.im * b.im;
    assert y * d == a.im * b.re - a.re * b.im;
    assert (x * b.re - y * b.im) * d == a.re * d by {
      calc {
        (x * b.re - y * b.im) * d;
        (x * d) * b.re - (y * d) * b.im;
        (a.re * b.re + a.im * b.im) * b.re - (a.im * b.re - a.re * b.im) * b.im;
        a.re * (b.re * b.re + b.im * b.im);
        a.re * d;
      }
    }
    assert (y * b.re + x * b.im) * d == a.im * d by {
      calc {
        (y * b.re + x * b.im) * d;
        (y * d) * b.re + (x * d) * b.im;
        (a.im * b.re - a.re * b.im) * b.re + (a.re * b.re + a.im * b.im) * b.im;
        a.im * (b.re * b.re + b.im * b.im);
        a.im * d;
      }
    }
    CancelNonZero(x * b.re - y * b.im, a.re, d);
    CancelNonZero(y * b.re + x * b.im, a.im, d);
  }

  lemma CancelNonZero(u: real, v: real, d: real)
    requires d != 0.0
    requires u * d == v * d
    ensures u == v
  {
    assert (u - v) * d == 0.0;
  }

  /** The components that operator/ computes are the quotient Div. */
  lemma QuotientIsDiv(a: Cmp, b: Cmp, q: Cmp)
    requires b != Origin
    requires q.re == (a.re * b.re + a.im * b.im) / Length2(b)
    requires q.im == (a.im * b.re - a.re * b.im) / Length2(b)
    ensures q == Div(a, b)
  {
  }

  /** The quotient components of a nonzero value by itself are 1 and 0. */
  lemma QuotientOfSelf(z: Cmp, x: real, y: real)
    requires z != Origin
    requires x == (z.re * z.re + z.im * z.im) / Length2(z)
    requires y == (z.im * z.re - z.re * z.im) / Length2(z)
    ensures x == 1.0 && y == 0.0
  {
    var d := Length2(z);
    assert z.re * z.re + z.im * z.im == d;
    assert d / d == 1.0;
    assert z.im * z.re - z.re * z.im == 0.0;
  }

  // ---------------------------------------------------------------------
  // Properties of the value operators

  /** Subtracting b undoes adding b. */
  lemma SubUndoesAdd(a: Cmp, b: Cmp)
    ensures Sub(Add(a, b), b) == a
  {
  }

  /** Addition undoes subtraction. */
  lemma AddUndoesSub(a: Cmp, b: Cmp)
    ensures Add(Sub(a, b), b) == a
  {
  }

  /** Multiplying complex values multiplies squared magnitudes:
      |a b|^2 = |a|^2 |b|^2, an identity independent of the component formula. */
  lemma Length2OfMul(a: Cmp, b: Cmp)
    ensures Length2(Mul(a, b)) == Length2(a) * Length2(b)
  {
    ProductOfSums(a.re, a.im, b.re, b.im);
  }

  /** Squaring gives (re^2 - im^2, 2 re im). */
  lemma MulSelf(z: Cmp)
    ensures Mul(z, z) == Cmp(z.re * z.re - z.im * z.im, 2.0 * z.re * z.im)
  {
  }

  /** conjugate negates both components, so it is an involution; it is not
      the complex conjugate (which keeps the real part). */
  lemma ConjugateIsNegation(z: Cmp)
    ensures Conjugate(z) == Cmp(-z.re, -z.im)
    ensures Conjugate(Conjugate(z)) == z
    ensures Length2(Conjugate(z)) == Length2(z)
    ensures z.re != 0.0 ==> Conjugate(z) != Cmp(z.re, -z.im)
  {
  }

  // ---------------------------------------------------------------------
  // The in-place side of Cmp

  /** A Cmp object whose two fields the compound assignments update in place. */
  class Cell {
    var re: real  // Cmp::real
    var im: real  // Cmp::imag

    /** The value the object currently holds. */
    function Value(): Cmp
      reads this
    {
      Cmp(re, im)
    }

    /** Cmp(): both parts zero. */
    constructor Default()
      ensures Value() == Origin
    {
      re := 0.0;
      im := 0.0;
    }

    /** Cmp(v): both parts set to v. */
    constructor Splat(v: real)
      ensures re == v && im == v
    {
      re := v;
      im := v;
    }

    /** Cmp(r, i). */
    constructor Make(r: real, i: real)
      ensures Value() == Cmp(r, i)
    {
      re := r;
      im := i;
    }

    /** Copy assignment: z = v. */
    method Set(v: Cmp)
      modifies this
      ensures Value() == v
    {
      re := v.re;
      im := v.im;
    }

    /** z += other; other may be this object itself. */
    method AddAssign(other: Cell)
      modifies this
      ensures Value() == Add(old(Value()), old(other.Value()))
    {
      re := re + other.re;
      im := im + other.im;
    }

    /** z -= other; other may be this object itself. */
    method SubAssign(other: Cell)
      modifies this
      ensures Value() == Sub(old(Value()), old(other.Value()))
    {
      re := re - other.re;
      im := im - other.im;
    }

    /** z *= other.  The new real part is staged in a temporary, so the
        result is the product of the old values even when other is this
        object (z *= z squares z). */
    method MulAssign(other: Cell)
      modifies this
      ensures Value() == Mul(old(Value()), old(other.Value()))
    {
      var r := re * other.re - im * other.im;
      im := im * other.re + re * other.im;
      re := r;
    }

    /** z /= other, also staging the new real part; z /= z gives one. */
    method DivAssign(other: Cell)
      requires other.Value() != Origin
      modifies this
      ensures Value() == Div(old(Value()), old(other.Value()))
      ensures other == this ==> Value() == Cmp(1.0, 0.0)
    {
      ghost var a, b := Value(), other.Value();
      var d := other.re * other.re + other.im * other.im;
      assert d == Length2(b);
      var r := (re * other.re + im * other.im) / d;
      im := (im * other.re - re * other.im) / d;
      assert im == (a.im * b.re - a.re * b.im) / d;
      re := r;
      QuotientIsDiv(a, b, Value());
    }
  }
}
