/** Intersection over union of two page rectangles, over exact reals. */
module Geometry {
  import opened Corpus

  /** What a bounding box is validated for: ordered coordinates. */
  predicate Ordered(b: Box) {
    b.x0 <= b.x1 && b.y0 <= b.y1
  }

  function Max(a: real, b: real): real { if a >= b then a else b }

  function Min(a: real, b: real): real { if a <= b then a else b }

  function Area(b: Box): real {
    (b.x1 - b.x0) * (b.y1 - b.y0)
  }

  function Overlap(lo1: real, hi1: real, lo2: real, hi2: real): real {
    Max(0.0, Min(hi1, hi2) - Max(lo1, lo2))
  }

  function Intersection(a: Box, b: Box): real {
    Overlap(a.x0, a.x1, b.x0, b.x1) * Overlap(a.y0, a.y1, b.y0, b.y1)
  }

  function Ratio(inter: real, union: real): real {
    if union != 0.0 then inter / union else 0.0
  }

  function Iou(a: Box, b: Box): real {
    Ratio(Intersection(a, b), Area(a) + Area(b) - Intersection(a, b))
  }

  lemma {:induction false} IouIsSymmetric(a: Box, b: Box)
    ensures Iou(a, b) == Iou(b, a)
  {
    assert Intersection(a, b) == Intersection(b, a);
  }

  lemma {:induction false} ProductsOrdered(w: real, h: real, w1: real, h1: real)
    requires 0.0 <= w <= w1 && 0.0 <= h <= h1
    ensures 0.0 <= w * h <= w1 * h1
    ensures w1 * h1 > 0.0 && w * h == w1 * h1 ==> w == w1 && h == h1
  {
    assert w * h <= w1 * h;
    assert w1 * h <= w1 * h1;
    if w1 * h1 > 0.0 && w * h == w1 * h1 {
      assert w1 > 0.0 && h1 > 0.0;
      assert h < h1 ==> w1 * h < w1 * h1;
      assert w < w1 ==> w * h1 < w1 * h1;
    }
  }

  /** The common area is no larger than the first box, and as large only if it is all of it. */
  lemma {:induction false} IntersectionFits(a: Box, b: Box)
    requires Ordered(a) && Ordered(b)
    ensures 0.0 <= Intersection(a, b) <= Area(a)
    ensures Area(a) > 0.0 && Intersection(a, b) == Area(a) ==>
              b.x0 <= a.x0 && a.x1 <= b.x1 && b.y0 <= a.y0 && a.y1 <= b.y1
  {
    ProductsOrdered(Overlap(a.x0, a.x1, b.x0, b.x1), Overlap(a.y0, a.y1, b.y0, b.y1), a.x1 - a.x0, a.y1 - a.y0);
  }

  lemma {:induction false} RatioFacts(inter: real, a: real, b: real)
    requires 0.0 <= inter <= a && inter <= b
    ensures 0.0 <= Ratio(inter, a + b - inter) <= 1.0
    ensures Ratio(inter, a + b - inter) == 1.0 <==> a > 0.0 && inter == a && inter == b
    ensures a == 0.0 ==> Ratio(inter, a + b - inter) == 0.0
  {
    var union := a + b - inter;
    if union != 0.0 {
      var q := inter / union;
      assert q * union == inter;
      assert q > 1.0 ==> q * union > union;
      assert q < 0.0 ==> q * union < 0.0;
      assert q == 1.0 <==> inter == union;
    }
  }

  lemma {:induction false} IntersectionIsSymmetric(a: Box, b: Box)
    ensures Intersection(a, b) == Intersection(b, a)
  {
    assert Overlap(a.x0, a.x1, b.x0, b.x1) == Overlap(b.x0, b.x1, a.x0, a.x1);
    assert Overlap(a.y0, a.y1, b.y0, b.y1) == Overlap(b.y0, b.y1, a.y0, a.y1);
  }

  lemma {:induction false} FullOverlapIsEquality(a: Box, b: Box)
    requires Ordered(a) && Ordered(b)
    ensures Area(a) > 0.0 && Intersection(a, b) == Area(a) == Area(b) <==> a == b && Area(a) > 0.0
  {
    if a == b {
      assert Overlap(a.x0, a.x1, a.x0, a.x1) == a.x1 - a.x0;
      assert Overlap(a.y0, a.y1, a.y0, a.y1) == a.y1 - a.y0;
    } else if Area(a) > 0.0 && Intersection(a, b) == Area(a) == Area(b) {
      IntersectionIsSymmetric(a, b);
      IntersectionFits(a, b);
      IntersectionFits(b, a);
      assert false;
    }
  }

  /** Between zero and one, and one exactly for two equal boxes that have an area. */
  lemma {:induction false} IouIsNormalised(a: Box, b: Box)
    requires Ordered(a) && Ordered(b)
    ensures 0.0 <= Iou(a, b) <= 1.0
    ensures Iou(a, b) == 1.0 <==> a == b && Area(a) > 0.0
    ensures Area(a) == 0.0 ==> Iou(a, b) == 0.0
  {
    IntersectionFits(a, b);
    IntersectionFits(b, a);
    IntersectionIsSymmetric(a, b);
    FullOverlapIsEquality(a, b);
    RatioFacts(Intersection(a, b), Area(a), Area(b));
  }
}
