/** What the similarity says about two vectors: its sign, its scale, and when it is 1. */
module CosineMeaning {
  import opened Cosine

  lemma QuotientIs(x: real, y: real, q: real)
    requires y > 0.0 && x == Times(q, y)
    ensures x / y == q
  {
  }

  lemma QuotientSign(x: real, y: real)
    requires y > 0.0
    ensures (x / y > 0.0 <==> x > 0.0) && (x / y == 0.0 <==> x == 0.0) && (x / y < 0.0 <==> x < 0.0)
  {
  }

  lemma QuotientOrder(x: real, z: real, y: real)
    requires y > 0.0
    ensures x / y <= z / y <==> x <= z
  {
  }

  lemma TimesAssociates(x: real, y: real, z: real)
    ensures Times(Times(x, y), z) == Times(x, Times(y, z))
  {
  }

  lemma TimesDistributes(x: real, y: real, z: real)
    ensures Times(x, y + z) == Times(x, y) + Times(x, z)
  {
  }

  lemma OneTimes(x: real)
    ensures Times(1.0, x) == x
  {
  }

  /** The similarity of vectors of one length is their dot product over a positive number, or 0. */
  lemma AsQuotient(a: Vector, b: Vector, root: real -> real)
    requires |a| == |b|
    ensures Times(Norm(a, root), Norm(b, root)) > 0.0
    ensures Similarity(a, b, root) == Dot(a, b) / Times(Norm(a, root), Norm(b, root))
  {
    TimesPositive(Norm(a, root), Norm(b, root));
    hide Times, Norm;
    if a == [] { QuotientSign(0.0, Times(Norm(a, root), Norm(b, root))); }
  }

  /** Similar, orthogonal or opposed: the sign is that of the dot product. */
  lemma SimilaritySign(a: Vector, b: Vector, root: real -> real)
    requires |a| == |b|
    ensures Similarity(a, b, root) > 0.0 <==> Dot(a, b) > 0.0
    ensures Similarity(a, b, root) == 0.0 <==> Dot(a, b) == 0.0
    ensures Similarity(a, b, root) < 0.0 <==> Dot(a, b) < 0.0
  {
    AsQuotient(a, b, root);
    hide Similarity, Dot, Times, Norm;
    QuotientSign(Dot(a, b), Times(Norm(a, root), Norm(b, root)));
  }

  lemma SelfSimilarity(a: Vector, root: real -> real)
    requires IsRoot(root) && Dot(a, a) > 0.0
    ensures Similarity(a, a, root) == 1.0
  {
    AsQuotient(a, a, root);
    hide Similarity, Dot, Times, Norm, IsRoot;
    NormSquared(a, root);
    OneTimes(Dot(a, a));
    QuotientIs(Dot(a, a), Times(Norm(a, root), Norm(a, root)), 1.0);
  }

  // ----- scaling -----

  function Scale(a: Vector, c: real): (r: Vector)
    ensures |r| == |a| && forall i :: 0 <= i < |a| ==> r[i] == Times(c, a[i])
  {
    seq(|a|, i requires 0 <= i < |a| => Times(c, a[i]))
  }

  lemma {:induction false} DotScale(a: Vector, b: Vector, c: real)
    requires |a| == |b|
    ensures Dot(Scale(a, c), b) == Times(c, Dot(a, b))
    decreases |a|
  {
    ZeroTimes(c);
    TimesCommutes(c, 0.0);
    hide Times;
    if a != [] {
      assert Scale(a, c)[1..] == Scale(a[1..], c);
      DotScale(a[1..], b[1..], c);
      TimesAssociates(c, a[0], b[0]);
      TimesDistributes(c, Times(a[0], b[0]), Dot(a[1..], b[1..]));
    }
  }

  lemma ScaleSquared(a: Vector, c: real)
    ensures Dot(Scale(a, c), Scale(a, c)) == Times(c, Times(c, Dot(a, a)))
    ensures Dot(a, Scale(a, c)) == Times(c, Dot(a, a))
  {
    hide Times, Dot;
    DotScale(a, Scale(a, c), c);
    DotCommutes(a, Scale(a, c));
    DotScale(a, a, c);
  }

  lemma EqualSquares(x: real, y: real)
    requires x > 0.0 && y > 0.0 && Times(x, x) == Times(y, y)
    ensures x == y
  {
    hide Times;
    if x > y { LargerSquare(x, y); }
    if y > x { LargerSquare(y, x); }
  }

  lemma NormScale(a: Vector, c: real, root: real -> real)
    requires IsRoot(root) && c > 0.0 && Dot(a, a) > 0.0
    ensures Dot(Scale(a, c), Scale(a, c)) > 0.0
    ensures Norm(Scale(a, c), root) == Times(c, Norm(a, root))
  {
    hide Times, Dot, IsRoot, Norm;
    var n := Norm(a, root);
    ScaleSquared(a, c);
    TimesPositive(c, Dot(a, a));
    TimesPositive(c, Times(c, Dot(a, a)));
    NormSquared(a, root);
    NormSquared(Scale(a, c), root);
    SquareOfTimes(c, n);
    TimesAssociates(c, c, Dot(a, a));
    TimesPositive(c, n);
    EqualSquares(Norm(Scale(a, c), root), Times(c, n));
  }

  lemma CancelFactor(c: real, d: real, p: real)
    requires c > 0.0 && p > 0.0
    ensures Times(c, p) > 0.0 && Times(c, d) / Times(c, p) == d / p
  {
    TimesPositive(c, p);
    assert d == Times(d / p, p);
    TimesAssociates(c, d / p, p);
    TimesCommutes(c, d / p);
    TimesAssociates(d / p, c, p);
    hide Times;
    QuotientIs(Times(c, d), Times(c, p), d / p);
  }

  /** Stretching a vector changes no similarity. */
  lemma ScaleInvariant(a: Vector, b: Vector, c: real, root: real -> real)
    requires IsRoot(root) && c > 0.0 && |a| == |b|
    ensures Similarity(Scale(a, c), b, root) == Similarity(a, b, root)
  {
    var m, n := Norm(a, root), Norm(b, root);
    AsQuotient(a, b, root);
    AsQuotient(Scale(a, c), b, root);
    hide Times, Dot, IsRoot, Norm, Similarity, Scale;
    DotScale(a, b, c);
    DotSelf(a);
    if Dot(a, a) > 0.0 {
      NormScale(a, c, root);
      TimesAssociates(c, m, n);
      CancelFactor(c, Dot(a, b), Times(m, n));
    } else {
      ZeroVector(a, b);
      ZeroTimes(c);
      TimesCommutes(c, 0.0);
      QuotientSign(0.0, Times(m, n));
      QuotientSign(0.0, Times(Norm(Scale(a, c), root), n));
    }
  }

  lemma SimilarityCommutes(a: Vector, b: Vector, root: real -> real)
    requires |a| == |b|
    ensures Similarity(a, b, root) == Similarity(b, a, root)
  {
    AsQuotient(a, b, root);
    AsQuotient(b, a, root);
    hide Times, Dot, Norm, Similarity;
    DotCommutes(a, b);
    TimesCommutes(Norm(a, root), Norm(b, root));
  }

  // ----- pointing the same way -----

  /** Neither is zero, and one is the other stretched. */
  ghost predicate SameWay(a: Vector, b: Vector) {
    Dot(a, a) > 0.0 && exists c :: c > 0.0 && b == Scale(a, c)
  }

  lemma {:induction false} ZeroElements(v: Vector, i: nat)
    requires Dot(v, v) == 0.0 && i < |v|
    ensures v[i] == 0.0
  {
    hide Times;
    Square(v[0]);
    DotSelf(v[1..]);
    if i > 0 { ZeroElements(v[1..], i - 1); }
  }

  lemma {:induction false} CombineAt(a: Vector, b: Vector, s: real, t: real, i: nat)
    requires |a| == |b| && i < |a|
    ensures Combine(a, b, s, t)[i] == Times(s, b[i]) - Times(t, a[i])
  {
    if i > 0 { CombineAt(a[1..], b[1..], s, t, i - 1); }
  }

  lemma ScaledElement(s: real, t: real, x: real, y: real)
    requires s > 0.0 && Times(s, y) - Times(t, x) == 0.0
    ensures y == Times(t / s, x)
  {
    assert y == (t * x) / s;
  }

  /** Where the inequality of Cauchy and Schwarz is an equality, one vector is a multiple of the other. */
  lemma EqualityIsMultiple(a: Vector, b: Vector)
    requires |a| == |b| && Dot(a, a) > 0.0 && Times(Dot(a, b), Dot(a, b)) == Times(Dot(a, a), Dot(b, b))
    ensures b == Scale(a, Dot(a, b) / Dot(a, a))
  {
    hide Times, Expansion, Combine, Dot;
    var aa, bb, ab := Dot(a, a), Dot(b, b), Dot(a, b);
    CombineSquared(a, b, aa, ab);
    ExpansionFactors(aa, bb, ab);
    ZeroTimes(aa);
    TimesCommutes(aa, 0.0);
    forall i | 0 <= i < |a| ensures b[i] == Times(ab / aa, a[i]) {
      ZeroElements(Combine(a, b, aa, ab), i);
      CombineAt(a, b, aa, ab, i);
      ScaledElement(aa, ab, a[i], b[i]);
    }
  }

  lemma OneMeansEqual(d: real, p: real)
    requires p > 0.0
    ensures d / p == 1.0 <==> d == p
  {
  }

  lemma SameWayIsOne(a: Vector, b: Vector, root: real -> real)
    requires IsRoot(root) && SameWay(a, b)
    ensures |a| == |b| && Similarity(a, b, root) == 1.0
  {
    var c :| c > 0.0 && b == Scale(a, c);
    hide Times, Dot, IsRoot, Norm, Similarity, Scale;
    ScaleInvariant(a, a, c, root);
    SelfSimilarity(a, root);
    SimilarityCommutes(a, b, root);
  }

  /** The similarity is 1 exactly for vectors that point the same way. */
  lemma OneExactly(a: Vector, b: Vector, root: real -> real)
    requires IsRoot(root)
    ensures Similarity(a, b, root) == 1.0 <==> SameWay(a, b)
  {
    if SameWay(a, b) { SameWayIsOne(a, b, root); }
    if Similarity(a, b, root) == 1.0 { OneIsSameWay(a, b, root); }
  }

  lemma OneIsSameWay(a: Vector, b: Vector, root: real -> real)
    requires IsRoot(root) && Similarity(a, b, root) == 1.0
    ensures SameWay(a, b)
  {
    assert |a| == |b|;
    var m, n, ab := Norm(a, root), Norm(b, root), Dot(a, b);
    AsQuotient(a, b, root);
    hide Times, Dot, IsRoot, Norm, Similarity, Scale;
    OneMeansEqual(ab, Times(m, n));
    DotSelf(a);
    DotSelf(b);
    if Dot(a, a) == 0.0 { ZeroVector(a, b); }
    if Dot(b, b) == 0.0 {
      ZeroVector(b, a);
      DotCommutes(a, b);
    }
    NormSquared(a, root);
    NormSquared(b, root);
    SquareOfTimes(m, n);
    EqualityIsMultiple(a, b);
    QuotientSign(ab, Dot(a, a));
  }

  // ----- comparing documents -----

  /** Among vectors of equal norm, the more similar is the one with the larger dot product. */
  lemma EqualNormOrder(query: Vector, a: Vector, b: Vector, root: real -> real)
    requires |a| == |b| == |query| && Dot(a, a) == Dot(b, b)
    ensures Similarity(query, a, root) <= Similarity(query, b, root) <==> Dot(query, a) <= Dot(query, b)
  {
    AsQuotient(query, a, root);
    AsQuotient(query, b, root);
    assert Norm(a, root) == Norm(b, root);
    hide Times, Dot, Norm, Similarity;
    QuotientOrder(Dot(query, a), Dot(query, b), Times(Norm(query, root), Norm(a, root)));
  }
}
