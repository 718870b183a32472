/**
  The registry of iteration functions.  functions.cpp keeps a table of function
  pointers; here the closed set of recurrences is a datatype and Apply
  dispatches on it to _z_squared or _z_cubed.  The functions take z by non-const reference but only use
  the non-mutating operators, so z is passed by value.
*/
module Functions {
  import opened Complex

  /** One recurrence step z' = f(z, c). */
  datatype IterFn = ZSquared | ZCubed

  /** The table `all`, in its order. */
  const All: seq<IterFn> := [ZSquared, ZCubed]

  /** _z_squared: (z*z) + c; started from z = 0 it returns c. */
  function Squared(z: Cmp, c: Cmp): (r: Cmp)
    ensures z == Origin ==> r == c
  {
    MulByOrigin(z);
    Add(Mul(z, z), c)
  }

  /** _z_cubed: (z*z*z) + c; started from z = 0 it returns c. */
  function Cubed(z: Cmp, c: Cmp): (r: Cmp)
    ensures z == Origin ==> r == c
  {
    MulByOrigin(z);
    MulByOrigin(Mul(z, z));
    Add(Mul(Mul(z, z), z), c)
  }

  /** A call through the table entry f; started from z = 0 every entry
      returns c. */
  function Apply(f: IterFn, z: Cmp, c: Cmp): (r: Cmp)
    ensures z == Origin ==> r == c
  {
    match f
    case ZSquared => Squared(z, c)
    case ZCubed => Cubed(z, c)
  }

  /** z^2 + c in components: (re^2 - im^2 + c.re, 2 re im + c.im). */
  lemma SquaredClosedForm(z: Cmp, c: Cmp)
    ensures Apply(ZSquared, z, c)
         == Cmp(z.re * z.re - z.im * z.im + c.re, 2.0 * z.re * z.im + c.im)
  {
  }

  /** z^3 + c in components: (re^3 - 3 re im^2 + c.re, 3 re^2 im - im^3 + c.im). */
  lemma CubedClosedForm(z: Cmp, c: Cmp)
    ensures Apply(ZCubed, z, c)
         == Cmp(z.re * z.re * z.re - 3.0 * z.re * z.im * z.im + c.re,
                3.0 * z.re * z.re * z.im - z.im * z.im * z.im + c.im)
  {
    MulSelf(z);
    SquareTimesZ(z);
  }

  /** The square (re^2 - im^2, 2 re im) times z, in components. */
  lemma SquareTimesZ(z: Cmp)
    ensures Mul(Cmp(z.re * z.re - z.im * z.im, 2.0 * z.re * z.im), z)
         == Cmp(z.re * z.re * z.re - 3.0 * z.re * z.im * z.im,
                3.0 * z.re * z.re * z.im - z.im * z.im * z.im)
  {
    var x, y := z.re, z.im;
    calc {
      (x * x - y * y) * x - (2.0 * x * y) * y;
      x * x * x - 3.0 * x * y * y;
    }
    calc {
      (2.0 * x * y) * x + (x * x - y * y) * y;
      3.0 * x * x * y - y * y * y;
    }
  }

  /** Index 0 of the table is z^2 + c and index 1 is z^3 + c. */
  lemma TableOrder()
    ensures |All| == 2 && All[0] == ZSquared && All[1] == ZCubed
  {
  }
}
