/**
  The escape-time specification shared by the three iterators of the
  renderers.  Each iterator runs the loop

      while (length2(z) < THRESHOLD && count++ < MAX_ITERS) z = f(z, c);

  with THRESHOLD = 4 and MAX_ITERS = 255.  Because of the post-increment in
  the condition, a value that escapes after k steps returns k (0..255) and a
  value that never escapes returns 256 after exactly 255 steps.
*/
module Escape {
  import opened Complex
  import opened Functions

  /** MAX_ITERS. */
  const MaxIters: nat := 255
  /** THRESHOLD, compared with the squared magnitude. */
  const Threshold: real := 4.0

  /** The escape test fails: the loop stops without counting a step. */
  predicate Escaped(z: Cmp)
  {
    Length2(z) >= Threshold
  }

  /** The value after k steps of the recurrence started at z. */
  function Orbit(f: IterFn, z: Cmp, c: Cmp, k: nat): Cmp
  {
    if k == 0 then z else Apply(f, Orbit(f, z, c, k - 1), c)
  }

  /** Some element among the first 256 (indices 0..255) escapes. */
  predicate EscapesWithin(f: IterFn, z: Cmp, c: Cmp)
  {
    exists k :: 0 <= k <= MaxIters && Escaped(Orbit(f, z, c, k))
  }

  /** k is the first escaping index. */
  predicate FirstEscape(f: IterFn, z: Cmp, c: Cmp, k: nat)
  {
    Escaped(Orbit(f, z, c, k)) && forall j :: 0 <= j < k ==> !Escaped(Orbit(f, z, c, j))
  }

  /** An escaping index k has a first escaping index at or below it. */
  lemma {:induction false} LeastEscape(f: IterFn, z: Cmp, c: Cmp, k: nat)
    requires Escaped(Orbit(f, z, c, k))
    ensures exists n: nat :: n <= k && FirstEscape(f, z, c, n)
  {
    if exists j :: 0 <= j < k && Escaped(Orbit(f, z, c, j)) {
      var j :| 0 <= j < k && Escaped(Orbit(f, z, c, j));
      LeastEscape(f, z, c, j);
    } else {
      assert FirstEscape(f, z, c, k);
    }
  }

  /** The value an iterator returns for start z and parameter c: the index of
      the first escaping orbit element, or 256 when none of the first 256
      elements (0..255) escapes. */
  ghost function EscapeTime(f: IterFn, z: Cmp, c: Cmp): (n: nat)
    ensures n <= MaxIters + 1
    ensures n <= MaxIters ==> FirstEscape(f, z, c, n)
    ensures n == MaxIters + 1 <==> !EscapesWithin(f, z, c)
  {
    if EscapesWithin(f, z, c) then
      var k :| 0 <= k <= MaxIters && Escaped(Orbit(f, z, c, k));
      LeastEscape(f, z, c, k);
      var n: nat :| n <= k && FirstEscape(f, z, c, n);
      n
    else
      MaxIters + 1
  }

  /** Conversely, the first escaping index k <= 255 is the escape time. */
  lemma FirstEscapeIsEscapeTime(f: IterFn, z: Cmp, c: Cmp, k: nat)
    requires k <= MaxIters && Escaped(Orbit(f, z, c, k))
    requires forall j :: 0 <= j < k ==> !Escaped(Orbit(f, z, c, j))
    ensures EscapeTime(f, z, c) == k
  {
    assert EscapesWithin(f, z, c);
  }

  /** A start value that already escaped gives 0. */
  lemma EscapedStartGivesZero(f: IterFn, z: Cmp, c: Cmp)
    requires Escaped(z)
    ensures EscapeTime(f, z, c) == 0
  {
    FirstEscapeIsEscapeTime(f, z, c, 0);
  }

  /** With z = 0 and c = 0 the squaring recurrence stays at 0 forever. */
  lemma {:induction false} OriginIsFixed(z: Cmp, c: Cmp, k: nat)
    requires z == Origin && c == Origin
    ensures Orbit(ZSquared, z, c, k) == z
  {
    if k > 0 {
      OriginIsFixed(z, c, k - 1);
    }
  }

  /** The origin stays inside the threshold at every step of z^2 + 0. */
  lemma OriginStaysInside(z: Cmp, c: Cmp, k: nat)
    requires z == Origin && c == Origin
    ensures !Escaped(Orbit(ZSquared, z, c, k))
  {
    OriginIsFixed(z, c, k);
  }

  /** Conversely, an orbit none of whose first 256 elements escapes reports 256. */
  lemma NeverEscapesIsInterior(f: IterFn, z: Cmp, c: Cmp)
    requires forall j | 0 <= j <= MaxIters :: !Escaped(Orbit(f, z, c, j))
    ensures EscapeTime(f, z, c) == MaxIters + 1
  {
    assert !EscapesWithin(f, z, c);
  }

  /** The whole examined orbit of the origin under z^2 + 0 stays inside. */
  lemma OriginAlwaysInside(z: Cmp, c: Cmp)
    requires z == Origin && c == Origin
    ensures forall j | 0 <= j <= MaxIters :: !Escaped(Orbit(ZSquared, z, c, j))
  {
    forall j | 0 <= j <= MaxIters
      ensures !Escaped(Orbit(ZSquared, z, c, j))
    {
      OriginStaysInside(z, c, j);
    }
  }

  /** So the origin never escapes and reports the interior value 256. */
  lemma OriginNeverEscapes(z: Cmp, c: Cmp)
    requires z == Origin && c == Origin
    ensures EscapeTime(ZSquared, z, c) == MaxIters + 1
  {
    OriginAlwaysInside(z, c);
    NeverEscapesIsInterior(ZSquared, z, c);
  }
}
