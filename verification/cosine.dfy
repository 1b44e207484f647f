/** Cosine similarity over exact reals. */
module Cosine {

  type Vector = seq<real>

  /** The product as a function of its own, so that proofs can leave it unmultiplied. */
  function Times(x: real, y: real): real {
    x * y
  }

  function Dot(a: Vector, b: Vector): real
    requires |a| == |b|
  {
    if a == [] then 0.0 else Times(a[0], b[0]) + Dot(a[1..], b[1..])
  }

  /** math.sqrt, of which nothing more is used. */
  ghost predicate IsRoot(root: real -> real) {
    forall x :: x >= 0.0 ==> root(x) >= 0.0 && Times(root(x), root(x)) == x
  }

  /** The root, or 1 when it is 0. */
  function Norm(a: Vector, root: real -> real): (n: real)
    ensures n > 0.0
  {
    if root(Dot(a, a)) <= 0.0 then 1.0 else root(Dot(a, a))
  }

  /** Vectors of different lengths, and empty ones, score 0. */
  function Similarity(a: Vector, b: Vector, root: real -> real): real {
    if |a| != |b| || a == [] then 0.0
    else
      TimesPositive(Norm(a, root), Norm(b, root));
      Dot(a, b) / Times(Norm(a, root), Norm(b, root))
  }

  lemma TimesPositive(x: real, y: real)
    requires x > 0.0 && y > 0.0
    ensures Times(x, y) > 0.0
  {
  }

  lemma ZeroTimes(y: real)
    ensures Times(0.0, y) == 0.0
  {
  }

  lemma NegatedSquare(x: real)
    ensures Times(-x, -x) == Times(x, x)
  {
  }

  lemma Square(x: real)
    ensures Times(x, x) >= 0.0
    ensures x != 0.0 ==> Times(x, x) > 0.0
  {
    hide Times;
    ZeroTimes(0.0);
    NegatedSquare(x);
    if x > 0.0 {
      TimesPositive(x, x);
    } else if x < 0.0 {
      TimesPositive(-x, -x);
    }
  }

  lemma SquareOfTimes(m: real, n: real)
    ensures Times(Times(m, n), Times(m, n)) == Times(Times(m, m), Times(n, n))
  {
  }

  lemma DifferenceOfSquares(x: real, y: real)
    ensures Times(x, x) - Times(y, y) == Times(x - y, x + y)
  {
  }

  lemma LargerSquare(x: real, y: real)
    requires y >= 0.0 && x > y
    ensures Times(x, x) > Times(y, y)
  {
    hide Times;
    DifferenceOfSquares(x, y);
    TimesPositive(x - y, x + y);
  }

  lemma {:induction false} DotSelf(a: Vector)
    ensures Dot(a, a) >= 0.0
  {
    hide Times;
    if a != [] {
      Square(a[0]);
      DotSelf(a[1..]);
    }
  }

  lemma {:induction false} ZeroVector(a: Vector, b: Vector)
    requires |a| == |b| && Dot(a, a) == 0.0
    ensures Dot(a, b) == 0.0
  {
    hide Times;
    if a != [] {
      Square(a[0]);
      DotSelf(a[1..]);
      ZeroTimes(b[0]);
      ZeroVector(a[1..], b[1..]);
    }
  }

  lemma TimesCommutes(x: real, y: real)
    ensures Times(x, y) == Times(y, x)
  {
  }

  lemma {:induction false} DotCommutes(a: Vector, b: Vector)
    requires |a| == |b|
    ensures Dot(a, b) == Dot(b, a)
  {
    hide Times;
    if a != [] {
      TimesCommutes(a[0], b[0]);
      DotCommutes(a[1..], b[1..]);
    }
  }

  /** s*b - t*a, element by element. */
  function Combine(a: Vector, b: Vector, s: real, t: real): (c: Vector)
    requires |a| == |b|
    ensures |c| == |a|
  {
    if a == [] then [] else [s * b[0] - t * a[0]] + Combine(a[1..], b[1..], s, t)
  }

  /** The sum of squares of s*b - t*a, from those of a and b. */
  function Expansion(s: real, t: real, aa: real, bb: real, ab: real): real {
    s * s * bb - 2.0 * s * t * ab + t * t * aa
  }

  lemma ExpandOne(x: real, y: real, s: real, t: real, aa: real, bb: real, ab: real)
    ensures Times(s * y - t * x, s * y - t * x) + Expansion(s, t, aa, bb, ab)
         == Expansion(s, t, Times(x, x) + aa, Times(y, y) + bb, Times(x, y) + ab)
  {
  }

  lemma {:induction false} CombineSquared(a: Vector, b: Vector, s: real, t: real)
    requires |a| == |b|
    ensures Dot(Combine(a, b, s, t), Combine(a, b, s, t)) == Expansion(s, t, Dot(a, a), Dot(b, b), Dot(a, b))
  {
    if a != [] {
      CombineSquared(a[1..], b[1..], s, t);
      ExpandOne(a[0], b[0], s, t, Dot(a[1..], a[1..]), Dot(b[1..], b[1..]), Dot(a[1..], b[1..]));
      hide Times, Expansion;
      assert Combine(a, b, s, t)[1..] == Combine(a[1..], b[1..], s, t);
    }
  }

  lemma ExpansionFactors(aa: real, bb: real, ab: real)
    ensures Expansion(aa, ab, aa, bb, ab) == Times(aa, Times(aa, bb) - Times(ab, ab))
  {
  }

  lemma CancelPositive(x: real, y: real)
    requires x > 0.0 && Times(x, y) >= 0.0
    ensures y >= 0.0
  {
    if y < 0.0 {
      TimesPositive(x, -y);
    }
  }

  /** The inequality of Cauchy and Schwarz. */
  lemma CauchySchwarz(a: Vector, b: Vector)
    requires |a| == |b|
    ensures Times(Dot(a, b), Dot(a, b)) <= Times(Dot(a, a), Dot(b, b))
  {
    hide Times, Expansion;
    var aa, bb, ab := Dot(a, a), Dot(b, b), Dot(a, b);
    DotSelf(a);
    if aa == 0.0 {
      ZeroVector(a, b);
      ZeroTimes(0.0);
      ZeroTimes(bb);
    } else {
      CombineSquared(a, b, aa, ab);
      DotSelf(Combine(a, b, aa, ab));
      ExpansionFactors(aa, bb, ab);
      CancelPositive(aa, Times(aa, bb) - Times(ab, ab));
    }
  }

  lemma Quotient(x: real, y: real)
    requires y > 0.0 && -y <= x <= y
    ensures -1.0 <= x / y <= 1.0
  {
  }

  lemma BoundedQuotient(d: real, m: real, n: real)
    requires m > 0.0 && n > 0.0 && Times(d, d) <= Times(Times(m, m), Times(n, n))
    ensures Times(m, n) > 0.0 && -1.0 <= d / Times(m, n) <= 1.0
  {
    hide Times;
    TimesPositive(m, n);
    SquareOfTimes(m, n);
    NegatedSquare(d);
    if d > Times(m, n) {
      LargerSquare(d, Times(m, n));
    } else if -d > Times(m, n) {
      LargerSquare(-d, Times(m, n));
    } else {
      Quotient(d, Times(m, n));
    }
  }

  /** The squared norm is the sum of squares, unless that is 0. */
  lemma NormSquared(a: Vector, root: real -> real)
    requires IsRoot(root)
    ensures Dot(a, a) >= 0.0
    ensures Dot(a, a) > 0.0 ==> Times(Norm(a, root), Norm(a, root)) == Dot(a, a)
  {
    hide Times;
    DotSelf(a);
    if Dot(a, a) > 0.0 {
      assert root(Dot(a, a)) >= 0.0 && Times(root(Dot(a, a)), root(Dot(a, a))) == Dot(a, a);
      ZeroTimes(0.0);
    }
  }

  /** Every similarity lies in [-1, 1], whatever the vectors. */
  lemma SimilarityBounded(a: Vector, b: Vector, root: real -> real)
    requires IsRoot(root)
    ensures -1.0 <= Similarity(a, b, root) <= 1.0
  {
    hide Times, IsRoot, Dot, Norm;
    if |a| == |b| && a != [] {
      var m, n := Norm(a, root), Norm(b, root);
      NormSquared(a, root);
      NormSquared(b, root);
      TimesPositive(m, m);
      TimesPositive(n, n);
      TimesPositive(Times(m, m), Times(n, n));
      ZeroTimes(0.0);
      if Dot(a, a) == 0.0 {
        ZeroVector(a, b);
      } else if Dot(b, b) == 0.0 {
        ZeroVector(b, a);
        DotCommutes(a, b);
      } else {
        CauchySchwarz(a, b);
      }
      BoundedQuotient(Dot(a, b), m, n);
    }
  }
}
